/** What holds of the scoring tables in every schedule, and when the board can drift from the ledger. */
module InterleavingTheorems {
  import opened Common
  import opened Ledger
  import opened Interleaving
  import opened InterleavingSums
  import opened InterleavingInvariant
  import opened InterleavingRuns
  import Facts = LedgerFacts

  // ---------------------------------------------------------------- at rest

  function Events(l: seq<Row>): seq<ScoreEvent> { seq(|l|, i requires 0 <= i < |l| => l[i].row) }

  lemma {:induction false} CommittedTotals(l: seq<Row>, at: Spot)
    requires forall r :: r in l ==> r.status == Committed
    ensures Total(l, at, Visible, PointsOf) == Points(Events(l), at)
    ensures Total(l, at, Visible, SolvesOf) == SolveRows(Events(l), at)
  {
    if l != [] {
      var n := |l| - 1;
      assert Events(l)[..n] == Events(l[..n]);
      CommittedTotals(l[..n], at);
      assert l[n] in l;
    }
  }

  /** Whenever no transaction is open, every board entry is its ledger sum plus the drift, and solves agree exactly. */
  lemma AtRest(schedule: seq<Action>, at: Spot)
    requires Play(Init, schedule).txs == map[]
    ensures var s := Play(Init, schedule);
            && BoardAt(s.board, at).points == Points(Events(s.ledger), at) + Drift(s.log, at)
            && BoardAt(s.board, at).solves == SolveRows(Events(s.ledger), at)
  {
    var s := Play(Init, schedule);
    RunKeeps(schedule);
    assert BalancedAt(s, at);
    forall r | r in s.ledger ensures r.status == Committed { assert RowOk(s, r); }
    CommittedTotals(s.ledger, at);
  }

  // ---------------------------------------------------------------- one row each

  ghost predicate IsSolveOf(r: ScoreEvent, ec: Uuid, team: Uuid) {
    r.source == Core && exists text :: ParseUuid(text) == Some(ec) && r.ref == SolveRef(text, team)
  }

  ghost predicate OneSolveRow(l: seq<Row>) {
    forall r, q, ec, team :: r in l && q in l && IsSolveOf(r.row, ec, team) && IsSolveOf(q.row, ec, team) ==>
      r.row == q.row
  }

  predicate IsBonusOf(r: ScoreEvent, text: string) { r.source == Core && r.ref == FirstBloodRef(text) }

  /** A transaction about to write its solve row finds no solve row of that challenge and team, in any spelling. */
  lemma NoTwin(s: State, t: TxId, q: Row, ec: Uuid, team: Uuid)
    requires Structure(s) && t in s.txs && HasMark(s, t) && !Writing(s.txs[t].phase) && q in s.ledger
    requires IsSolveOf(SolveRow(s.txs[t].op), ec, team)
    ensures !IsSolveOf(q.row, ec, team)
  {
    var op := s.txs[t].op;
    var mine :| ParseUuid(mine) == Some(ec) && SolveRow(op).ref == SolveRef(mine, team);
    Facts.SolveRefInjective(mine, team, op.ecText, op.team);
    assert RowOk(s, q);
    forall text | ParseUuid(text) == Some(ec) && q.row.source == Core ensures q.row.ref != SolveRef(text, team) {
    }
  }

  lemma BonusIsNoSolve(op: Op, ec: Uuid, team: Uuid)
    requires op.Solve?
    ensures !IsSolveOf(BonusRow(op), ec, team)
  {
    forall text ensures BonusRow(op).ref != SolveRef(text, team) { Facts.RefsDiffer(text, team, op.ecText); }
  }

  lemma AwardIsNoSolve(op: Op, ec: Uuid, team: Uuid)
    requires op.Award?
    ensures !IsSolveOf(AwardRow(op), ec, team)
  {
    Facts.SourcesDiffer(op.plugin);
  }

  ghost predicate Held(l: seq<Row>, r: ScoreEvent) { exists q :: q in l && q.row == r }

  lemma ResolveHolds(l: seq<Row>, t: TxId, commit: bool, r: ScoreEvent)
    requires Held(Resolve(l, t, commit), r)
    ensures Held(l, r)
  {
    ResolveMembers(l, t, commit);
    var q :| q in Resolve(l, t, commit) && q.row == r;
    assert q in l || Row(r, Inserting(t)) in l || Row(r, Deleting(t)) in l;
  }

  lemma MarkHolds(l: seq<Row>, k: Key, t: TxId, r: ScoreEvent)
    requires Held(MarkDeleting(l, k, t), r)
    ensures Held(l, r)
  {
    MarkShape(l, k, t);
    var q :| q in MarkDeleting(l, k, t) && q.row == r;
    var i :| 0 <= i < |l| && MarkDeleting(l, k, t)[i] == q;
    assert l[i] in l;
  }

  lemma RollbackHolds(s: State, t: TxId, r: ScoreEvent)
    ensures Held(Rollback(s, t).ledger, r) ==> Held(s.ledger, r)
  {
    if Held(Rollback(s, t).ledger, r) {
      ResolveHolds(s.ledger, t, false, r);
    }
  }

  lemma InsertHolds(s: State, t: TxId, row: ScoreEvent, wrote: Phase, skipped: Phase, r: ScoreEvent)
    requires t in s.txs
    ensures Held(InsertRow(s, t, row, wrote, skipped).ledger, r) ==> Held(s.ledger, r) || r == row
  {
    var l := InsertRow(s, t, row, wrote, skipped).ledger;
    assert l == s.ledger || l == s.ledger + [Row(row, Inserting(t))];
    if q :| q in l && q.row == r {
      assert q in s.ledger || q == Row(row, Inserting(t));
    }
  }

  lemma BegunHolds(s: State, t: TxId, r: ScoreEvent)
    requires t in s.txs && s.txs[t].phase.Begun? && Held(Statement(s, t).ledger, r)
    ensures Held(s.ledger, r) || (s.txs[t].op.Award? && r == AwardRow(s.txs[t].op))
  {
    var op := s.txs[t].op;
    RollbackHolds(s, t, r);
    if op.Award? {
      InsertHolds(s, t, AwardRow(op), Boarding((op.event, op.team), Tally(op.points, 0), false, 0), Begun, r);
    } else if op.Revoke? {
      var k := Key(op.event, PluginSource(op.plugin), op.ref);
      if KeyWith(s.ledger, k, Committed) {
        MarkHolds(s.ledger, k, t, r);
      }
    }
  }

  /** The ledger rows after a statement are old ones, or the statement is an insert of exactly one row. */
  lemma StatementRows(s: State, t: TxId, r: ScoreEvent)
    requires t in s.txs && Held(Statement(s, t).ledger, r)
    ensures Held(s.ledger, r) || Writes(s, t, r)
  {
    var op := s.txs[t].op;
    RollbackHolds(s, t, r);
    match s.txs[t].phase
    case Begun => BegunHolds(s, t, r);
    case Counting =>
    case Scoring(fb) =>
      if op.Solve? {
        InsertHolds(s, t, SolveRow(op), AfterScoring(op, fb, 0), AfterScoring(op, fb, op.points), r);
      }
    case Rewarding(su) =>
      if op.Solve? {
        var at, total := (op.event, op.team), Tally(op.points + op.bonus, 1);
        InsertHolds(s, t, BonusRow(op), Boarding(at, total, true, su), Boarding(at, total, true, su + op.bonus), r);
      }
    case Boarding(_, _, _, _) =>
    case Committing(_, _, _, _, _) => ResolveHolds(s.ledger, t, true, r);
  }

  lemma StepRows(s: State, a: Action, r: ScoreEvent)
    requires Held(Step(s, a).ledger, r)
    ensures Held(s.ledger, r) || (a.Exec? && a.tx in s.txs && Writes(s, a.tx, r))
  {
    if a.Exec? && a.tx in s.txs {
      StatementRows(s, a.tx, r);
    } else if a.Abort? && a.tx in s.txs {
      ResolveHolds(s.ledger, a.tx, false, r);
    }
  }

  /** t's next statement inserts this ledger row. */
  predicate Writes(s: State, t: TxId, r: ScoreEvent)
    requires t in s.txs
  {
    var x := s.txs[t];
    || (x.op.Award? && x.phase.Begun? && r == AwardRow(x.op))
    || (x.op.Solve? && x.phase.Scoring? && r == SolveRow(x.op))
    || (x.op.Solve? && x.phase.Rewarding? && r == BonusRow(x.op))
  }

  /** A step that adds a solve row adds the first one of its challenge and team. */
  lemma NewSolveRowIsFirst(s: State, a: Action, r: ScoreEvent, ec: Uuid, team: Uuid)
    requires Inv(s) && a.Exec? && a.tx in s.txs && Writes(s, a.tx, r) && IsSolveOf(r, ec, team)
    ensures r == SolveRow(s.txs[a.tx].op) && forall q :: q in s.ledger ==> !IsSolveOf(q.row, ec, team)
  {
    var op := s.txs[a.tx].op;
    assert TxOk(s, a.tx);
    if op.Award? {
      AwardIsNoSolve(op, ec, team);
    } else {
      BonusIsNoSolve(op, ec, team);
      forall q | q in s.ledger ensures !IsSolveOf(q.row, ec, team) { NoTwin(s, a.tx, q, ec, team); }
    }
  }

  lemma OneSolveRowStep(s: State, a: Action)
    requires Inv(s) && OneSolveRow(s.ledger)
    ensures OneSolveRow(Step(s, a).ledger)
  {
    var l := Step(s, a).ledger;
    forall r, q, ec, team | r in l && q in l && IsSolveOf(r.row, ec, team) && IsSolveOf(q.row, ec, team)
      ensures r.row == q.row
    {
      StepRows(s, a, r.row);
      StepRows(s, a, q.row);
      if !Held(s.ledger, r.row) {
        NewSolveRowIsFirst(s, a, r.row, ec, team);
      } else if !Held(s.ledger, q.row) {
        NewSolveRowIsFirst(s, a, q.row, ec, team);
      }
    }
  }

  lemma {:induction false} OneSolveRowAlways(schedule: seq<Action>)
    ensures OneSolveRow(Play(Init, schedule).ledger)
  {
    if schedule != [] {
      RunKeeps(schedule[..|schedule| - 1]);
      OneSolveRowAlways(schedule[..|schedule| - 1]);
      OneSolveRowStep(Play(Init, schedule[..|schedule| - 1]), schedule[|schedule| - 1]);
    }
  }

  /**
   * In every schedule, committed or not: the ledger holds at most one solve row per challenge and team,
   * however the id was spelled, and at most one first-blood row per event and reference.
   */
  lemma AtMostOneRow(schedule: seq<Action>, i: nat, j: nat)
    requires i < |Play(Init, schedule).ledger| && j < |Play(Init, schedule).ledger|
    ensures var l := Play(Init, schedule).ledger;
            && (forall ec, team :: IsSolveOf(l[i].row, ec, team) && IsSolveOf(l[j].row, ec, team) ==> i == j)
            && (l[i].row.event == l[j].row.event ==>
                  forall text :: IsBonusOf(l[i].row, text) && IsBonusOf(l[j].row, text) ==> i == j)
  {
    var l := Play(Init, schedule).ledger;
    RunKeeps(schedule);
    OneSolveRowAlways(schedule);
    assert l[i] in l && l[j] in l;
    assert i < j ==> KeyOf(l[i].row) != KeyOf(l[j].row);
    assert j < i ==> KeyOf(l[j].row) != KeyOf(l[i].row);
  }
}
