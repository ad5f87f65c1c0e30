/** What the calls that are made decide: without rivals among them no schedule drifts or doubles a first-blood row. */
module InterleavingCalls {
  import opened Common
  import opened Ledger
  import opened Interleaving
  import opened InterleavingSums
  import opened InterleavingInvariant
  import opened InterleavingRuns
  import opened InterleavingTheorems
  import opened InterleavingBonus
  import opened InterleavingDrift
  import opened InterleavingFirstBlood
  import Facts = LedgerFacts

  /** Two teams solve one challenge, and both calls carry a bonus. */
  predicate Rivals(a: Op, b: Op) {
    && a.Solve? && b.Solve? && a.team != b.team && a.bonus > 0 && b.bonus > 0
    && ParseUuid(a.ecText).Some? && ParseUuid(a.ecText) == ParseUuid(b.ecText)
  }

  /** Their first-blood references are the same: one event, and the challenge id spelled alike. */
  predicate SameReference(a: Op, b: Op)
    requires a.Solve? && b.Solve?
  {
    a.event == b.event && a.ecText == b.ecText
  }

  lemma SameReferenceIsSameKey(a: Op, b: Op)
    requires a.Solve? && b.Solve?
    ensures SameReference(a, b) <==> KeyOf(BonusRow(a)) == KeyOf(BonusRow(b))
  {
    if KeyOf(BonusRow(a)) == KeyOf(BonusRow(b)) {
      Facts.FirstBloodRefInjective(a.ecText, b.ecText);
    }
  }

  /** Two of the calls are rivals, with the same reference or with different ones. */
  ghost predicate HasRivals(calls: set<Op>, alike: bool) {
    exists a, b :: a in calls && b in calls && Rivals(a, b) && SameReference(a, b) == alike
  }

  /** Every transaction of the schedule is one of the calls. */
  ghost predicate Makes(schedule: seq<Action>, calls: set<Op>) {
    forall i :: 0 <= i < |schedule| && schedule[i].Begin? ==> schedule[i].op in calls
  }

  // ---------------------------------------------------------------- who wrote what

  /** The row is the bonus row of one of the calls. */
  ghost predicate AuthoredBy(r: ScoreEvent, calls: set<Op>, a: Op) {
    a in calls && a.Solve? && a.bonus > 0 && ParseUuid(a.ecText).Some? && r == BonusRow(a)
  }

  ghost predicate BonusAuthored(r: ScoreEvent, calls: set<Op>) {
    (exists text :: IsBonusOf(r, text)) ==> exists a :: AuthoredBy(r, calls, a)
  }

  ghost predicate Made(s: State, calls: set<Op>) {
    && (forall t :: t in s.txs ==> s.txs[t].op in calls)
    && (forall c :: c in s.log ==> c.op in calls)
  }

  ghost predicate Authored(s: State, calls: set<Op>) {
    && Made(s, calls)
    && (forall q :: q in s.ledger ==> BonusAuthored(q.row, calls))
  }

  lemma WritesAuthored(s: State, t: TxId, r: ScoreEvent, calls: set<Op>)
    requires Inv(s) && Authored(s, calls) && t in s.txs && Writes(s, t, r)
    ensures BonusAuthored(r, calls)
  {
    var op := s.txs[t].op;
    assert TxOk(s, t);
    if text :| IsBonusOf(r, text) {
      if op.Award? {
        Facts.SourcesDiffer(op.plugin);
      } else if r == SolveRow(op) {
        Facts.RefsDiffer(op.ecText, op.team, text);
      } else {
        assert AuthoredBy(r, calls, op);
      }
    }
  }

  lemma BegunMade(s: State, t: TxId, calls: set<Op>)
    requires Made(s, calls) && t in s.txs && s.txs[t].phase.Begun?
    ensures Made(Statement(s, t), calls)
  {
    if s.txs[t].op.Solve? {
      assert Made(InsertSubmission(s, t), calls);
    } else if s.txs[t].op.Revoke? {
      assert Made(DeleteRow(s, t), calls);
    }
  }

  lemma CommitMade(s: State, t: TxId, calls: set<Op>)
    requires Made(s, calls) && t in s.txs && s.txs[t].phase.Committing?
    ensures Made(Commit(s, t), calls)
  {
  }

  lemma StatementMade(s: State, t: TxId, calls: set<Op>)
    requires Made(s, calls) && t in s.txs
    ensures Made(Statement(s, t), calls)
  {
    match s.txs[t].phase
    case Begun => BegunMade(s, t, calls);
    case Counting =>
    case Scoring(_) =>
    case Rewarding(_) =>
    case Boarding(_, _, _, _) =>
    case Committing(_, _, _, _, _) => CommitMade(s, t, calls);
  }

  lemma StepAuthored(s: State, a: Action, calls: set<Op>)
    requires Inv(s) && Authored(s, calls) && (a.Begin? ==> a.op in calls)
    ensures Authored(Step(s, a), calls)
  {
    var s' := Step(s, a);
    assert Made(s', calls) by {
      if a.Exec? && a.tx in s.txs {
        StatementMade(s, a.tx, calls);
      }
    }
    forall q | q in s'.ledger ensures BonusAuthored(q.row, calls) {
      assert Held(s'.ledger, q.row);
      StepRows(s, a, q.row);
      if !Held(s.ledger, q.row) {
        WritesAuthored(s, a.tx, q.row, calls);
      }
    }
  }

  lemma {:induction false} RunAuthored(schedule: seq<Action>, calls: set<Op>)
    requires Makes(schedule, calls)
    ensures Authored(Play(Init, schedule), calls)
  {
    if schedule != [] {
      var n := |schedule| - 1;
      forall i | 0 <= i < n ensures schedule[..n][i] == schedule[i] {}
      RunKeeps(schedule[..n]);
      RunAuthored(schedule[..n], calls);
      StepAuthored(Play(Init, schedule[..n]), schedule[n], calls);
    }
  }

  // ---------------------------------------------------------------- drift needs rivals

  /** A call that drifts has a rival among the calls, with the same reference. */
  lemma DriftNeedsRivals(schedule: seq<Action>, calls: set<Op>, i: nat)
    requires Makes(schedule, calls) && i < |Play(Init, schedule).log| && Play(Init, schedule).log[i].surplus != 0
    ensures HasRivals(calls, true)
  {
    var s := Play(Init, schedule);
    var b := s.log[i].op;
    DriftIsBonus(schedule, i);
    RunAuthored(schedule, calls);
    assert s.log[i] in s.log;
    var q :| q in s.ledger && q.status == Committed && KeyOf(q.row) == KeyOf(BonusRow(b)) && q.row.team != b.team;
    assert IsBonusOf(q.row, b.ecText) && BonusAuthored(q.row, calls);
    var a :| AuthoredBy(q.row, calls, a);
    SameReferenceIsSameKey(a, b);
    assert Rivals(a, b);
  }

  /** Without two rivals of the same reference among the calls the board is the visible ledger, in every schedule. */
  lemma NoRivalsNoDrift(schedule: seq<Action>, calls: set<Op>, at: Spot)
    requires Makes(schedule, calls) && !HasRivals(calls, true)
    ensures var s := Play(Init, schedule);
            && Drift(s.log, at) == 0
            && BoardAt(s.board, at) ==
               Tally(Total(s.ledger, at, Visible, PointsOf), Total(s.ledger, at, Visible, SolvesOf))
  {
    var s := Play(Init, schedule);
    forall i | 0 <= i < |s.log| ensures s.log[i].surplus == 0 {
      if s.log[i].surplus != 0 {
        DriftNeedsRivals(schedule, calls, i);
      }
    }
    NoSurplusNoDrift(s.log, at);
    RunKeeps(schedule);
    assert BalancedAt(s, at);
  }

  // ---------------------------------------------------------------- doubling needs rivals

  /** One first-blood row per challenge and team. */
  ghost predicate OnePerTeam(l: seq<Row>) {
    forall r, q, ec ::
      r in l && q in l && IsBonusFor(r.row, ec) && IsBonusFor(q.row, ec) && r.row.team == q.row.team ==> r.row == q.row
  }

  /** A call about to write its bonus finds none of its own team for the challenge, in any spelling. */
  lemma NoneOfItsTeam(s: State, t: TxId, q: Row, ec: Uuid)
    requires Inv(s) && BonusesOk(s) && t in s.txs && s.txs[t].op.Solve? && s.txs[t].phase.Rewarding?
    requires q in s.ledger && ParseUuid(s.txs[t].op.ecText) == Some(ec) && q.row.team == s.txs[t].op.team
    ensures !IsBonusFor(q.row, ec)
  {
    var op := s.txs[t].op;
    assert TxOk(s, t) && RowOk(s, q) && BonusOk(s, q);
    if IsBonusFor(q.row, ec) {
      var text :| IsBonusOf(q.row, text) && ParseUuid(text) == Some(ec);
      assert q.status == Inserting(t);
      Facts.RefsDiffer(op.ecText, op.team, text);
    }
  }

  lemma NewBonusIsTeamsFirst(s: State, t: TxId, r: ScoreEvent, ec: Uuid)
    requires Inv(s) && BonusesOk(s) && t in s.txs && Writes(s, t, r) && IsBonusFor(r, ec)
    ensures r == BonusRow(s.txs[t].op)
    ensures forall q :: q in s.ledger && q.row.team == r.team ==> !IsBonusFor(q.row, ec)
  {
    WrittenBonus(s, t, r, ec);
    forall q | q in s.ledger && q.row.team == r.team ensures !IsBonusFor(q.row, ec) {
      NoneOfItsTeam(s, t, q, ec);
    }
  }

  lemma OnePerTeamStep(s: State, a: Action)
    requires Inv(s) && BonusesOk(s) && OnePerTeam(s.ledger)
    ensures OnePerTeam(Step(s, a).ledger)
  {
    var l := Step(s, a).ledger;
    forall r, q, ec | r in l && q in l && IsBonusFor(r.row, ec) && IsBonusFor(q.row, ec) && r.row.team == q.row.team
      ensures r.row == q.row
    {
      StepRows(s, a, r.row);
      StepRows(s, a, q.row);
      if !Held(s.ledger, r.row) {
        NewBonusIsTeamsFirst(s, a.tx, r.row, ec);
      } else if !Held(s.ledger, q.row) {
        NewBonusIsTeamsFirst(s, a.tx, q.row, ec);
      }
    }
  }

  lemma {:induction false} OnePerTeamRun(schedule: seq<Action>)
    ensures OnePerTeam(Play(Init, schedule).ledger)
  {
    if schedule != [] {
      RunKeeps(schedule[..|schedule| - 1]);
      RunBonuses(schedule[..|schedule| - 1]);
      OnePerTeamRun(schedule[..|schedule| - 1]);
      OnePerTeamStep(Play(Init, schedule[..|schedule| - 1]), schedule[|schedule| - 1]);
    }
  }

  /** The bonus row of a call belongs to one challenge. */
  lemma AuthorsChallenge(r: ScoreEvent, calls: set<Op>, ec: Uuid) returns (a: Op)
    requires BonusAuthored(r, calls) && IsBonusFor(r, ec)
    ensures AuthoredBy(r, calls, a) && ParseUuid(a.ecText) == Some(ec)
  {
    var text :| IsBonusOf(r, text) && ParseUuid(text) == Some(ec);
    a :| AuthoredBy(r, calls, a);
    Facts.FirstBloodRefInjective(text, a.ecText);
  }

  /** Two first-blood rows of one challenge have rivals for authors, with different references. */
  lemma DoublingNeedsRivals(schedule: seq<Action>, calls: set<Op>, i: nat, j: nat, ec: Uuid)
    requires Makes(schedule, calls) && i < j < |Play(Init, schedule).ledger|
    requires var l := Play(Init, schedule).ledger; IsBonusFor(l[i].row, ec) && IsBonusFor(l[j].row, ec)
    ensures HasRivals(calls, false)
  {
    var l := Play(Init, schedule).ledger;
    RunKeeps(schedule);
    RunAuthored(schedule, calls);
    OnePerTeamRun(schedule);
    assert l[i] in l && l[j] in l && KeyOf(l[i].row) != KeyOf(l[j].row);
    var a := AuthorsChallenge(l[i].row, calls, ec);
    var b := AuthorsChallenge(l[j].row, calls, ec);
    SameReferenceIsSameKey(a, b);
    assert l[i].row.team != l[j].row.team;
    assert Rivals(a, b) && !SameReference(a, b);
  }
}
