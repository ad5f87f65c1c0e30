/** First-blood rows in every schedule: whose submission each stands with, and what becomes of a call's own. */
module InterleavingBonus {
  import opened Common
  import opened Ledger
  import opened Interleaving
  import opened InterleavingSums
  import opened InterleavingInvariant
  import opened InterleavingRuns
  import opened InterleavingTheorems
  import Facts = LedgerFacts

  // ---------------------------------------------------------------- a row stands with its team's submission

  predicate StandsAs(s: State, ec: Uuid, team: Uuid, st: Status) {
    (ec, team) in s.solves && s.solves[(ec, team)] == st
  }

  /** A first-blood row has the same standing as its team's solve of the challenge. */
  ghost predicate BonusOk(s: State, r: Row) {
    forall text :: IsBonusOf(r.row, text) ==>
      ParseUuid(text).Some? && StandsAs(s, ParseUuid(text).value, r.row.team, r.status)
  }

  ghost predicate BonusesOk(s: State) { forall r :: r in s.ledger ==> BonusOk(s, r) }

  lemma BonusOkAfter(s: State, s': State, q: Row, r: Row)
    requires BonusOk(s, q) && q.row == r.row && (forall text :: IsBonusOf(r.row, text) ==> !q.status.Deleting?)
    requires forall k :: k in s.solves && s.solves[k] == q.status ==> k in s'.solves && s'.solves[k] == r.status
    ensures BonusOk(s', r)
  {
    forall text | IsBonusOf(r.row, text)
      ensures ParseUuid(text).Some? && StandsAs(s', ParseUuid(text).value, r.row.team, r.status)
    {
      assert StandsAs(s, ParseUuid(text).value, r.row.team, q.status);
    }
  }

  lemma RollbackBonuses(s: State, t: TxId)
    requires Inv(s) && BonusesOk(s) && t in s.txs
    ensures BonusesOk(Rollback(s, t))
  {
    var s' := Rollback(s, t);
    ResolveMembers(s.ledger, t, false);
    forall r | r in s'.ledger ensures BonusOk(s', r) {
      var q := if r in s.ledger then r else Row(r.row, Deleting(t));
      assert RowOk(s, q) && BonusOk(s, q);
      if q == r {
        BonusOkAfter(s, s', q, r);
      }
    }
  }

  lemma CommitBonuses(s: State, t: TxId)
    requires Inv(s) && BonusesOk(s) && t in s.txs && s.txs[t].phase.Committing?
    ensures BonusesOk(Commit(s, t))
  {
    var s' := Commit(s, t);
    ResolveMembers(s.ledger, t, true);
    forall r | r in s'.ledger ensures BonusOk(s', r) {
      var q := if r in s.ledger then r else Row(r.row, Inserting(t));
      assert RowOk(s, q) && BonusOk(s, q);
      BonusOkAfter(s, s', q, r);
    }
  }

  /** A step that only adds submissions; the new ledger rows are looked at one by one. */
  lemma MoreBonuses(s: State, s': State)
    requires BonusesOk(s) && forall k :: k in s.solves ==> k in s'.solves && s'.solves[k] == s.solves[k]
    requires forall r :: r in s'.ledger && r !in s.ledger ==> BonusOk(s', r)
    ensures BonusesOk(s')
  {
    forall r | r in s'.ledger ensures BonusOk(s', r) {
      if r in s.ledger {
        assert BonusOk(s, r);
      }
    }
  }

  lemma BegunBonuses(s: State, t: TxId)
    requires Inv(s) && BonusesOk(s) && t in s.txs && s.txs[t].phase.Begun?
    ensures BonusesOk(Statement(s, t))
  {
    var op, s' := s.txs[t].op, Statement(s, t);
    RollbackBonuses(s, t);
    if op.Solve? {
      if s'.ledger == s.ledger {
        MoreBonuses(s, if s' == Rollback(s, t) then s else s');
      }
    } else if op.Award? {
      Facts.SourcesDiffer(op.plugin);
      MoreBonuses(s, if s' == Rollback(s, t) then s else s');
    } else if op.Revoke? {
      var k := Key(op.event, PluginSource(op.plugin), op.ref);
      Facts.SourcesDiffer(op.plugin);
      if KeyWith(s.ledger, k, Committed) {
        DeletedBonuses(s, t, k);
      }
    }
  }

  lemma DeletedBonuses(s: State, t: TxId, k: Key)
    requires Inv(s) && BonusesOk(s) && t in s.txs && KeyWith(s.ledger, k, Committed) && k.source != Core
    ensures BonusesOk(Deleted(s, t, k))
  {
    var s' := Deleted(s, t, k);
    MarkShape(s.ledger, k, t);
    forall r | r in s'.ledger && r !in s.ledger ensures BonusOk(s', r) {
      var i :| 0 <= i < |s'.ledger| && s'.ledger[i] == r;
      assert Marked(s.ledger[i], k, t) == r && s.ledger[i] in s.ledger;
    }
    MoreBonuses(s, s');
  }

  lemma ScoringBonuses(s: State, t: TxId)
    requires Inv(s) && BonusesOk(s) && t in s.txs && s.txs[t].op.Solve? && s.txs[t].phase.Scoring?
    ensures BonusesOk(Statement(s, t))
  {
    var op := s.txs[t].op;
    forall text ensures SolveRow(op).ref != FirstBloodRef(text) { Facts.RefsDiffer(op.ecText, op.team, text); }
    MoreBonuses(s, Statement(s, t));
  }

  lemma RewardingBonuses(s: State, t: TxId)
    requires Inv(s) && BonusesOk(s) && t in s.txs && s.txs[t].op.Solve? && s.txs[t].phase.Rewarding?
    ensures BonusesOk(Statement(s, t))
  {
    var op, s' := s.txs[t].op, Statement(s, t);
    assert TxOk(s, t);
    forall text | IsBonusOf(BonusRow(op), text)
      ensures ParseUuid(text).Some? && StandsAs(s', ParseUuid(text).value, op.team, Inserting(t))
    {
      Facts.FirstBloodRefInjective(text, op.ecText);
    }
    MoreBonuses(s, s');
  }

  lemma StatementBonuses(s: State, t: TxId)
    requires Inv(s) && BonusesOk(s) && t in s.txs
    ensures BonusesOk(Statement(s, t))
  {
    assert TxOk(s, t);
    match s.txs[t].phase
    case Begun => BegunBonuses(s, t);
    case Counting => MoreBonuses(s, Statement(s, t));
    case Scoring(_) => ScoringBonuses(s, t);
    case Rewarding(_) => RewardingBonuses(s, t);
    case Boarding(_, _, _, _) => MoreBonuses(s, Statement(s, t));
    case Committing(_, _, _, _, _) => CommitBonuses(s, t);
  }

  lemma StepBonuses(s: State, a: Action)
    requires Inv(s) && BonusesOk(s)
    ensures BonusesOk(Step(s, a))
  {
    match a
    case Begin(t, op) => MoreBonuses(s, Step(s, a));
    case Exec(t) =>
      if t in s.txs {
        StatementBonuses(s, t);
      }
    case Abort(t) =>
      if t in s.txs {
        RollbackBonuses(s, t);
      }
    case Remove(_) => MoreBonuses(s, Step(s, a));
  }

  lemma {:induction false} RunBonuses(schedule: seq<Action>)
    ensures BonusesOk(Play(Init, schedule))
  {
    if schedule != [] {
      RunKeeps(schedule[..|schedule| - 1]);
      RunBonuses(schedule[..|schedule| - 1]);
      StepBonuses(Play(Init, schedule[..|schedule| - 1]), schedule[|schedule| - 1]);
    }
  }

  // ---------------------------------------------------------------- what becomes of a call's bonus

  /** Another team's committed row holds the reference of the call's bonus. */
  ghost predicate Denied(l: seq<Row>, op: Op)
    requires op.Solve?
  {
    exists q :: q in l && q.status == Committed && KeyOf(q.row) == KeyOf(BonusRow(op)) && q.row.team != op.team
  }

  /** A call told first blood wrote its bonus row, or was denied it and has the bonus as its surplus. */
  ghost predicate Settled(l: seq<Row>, op: Op, firstBlood: bool, surplus: int, st: Status) {
    op.Solve? && firstBlood && op.bonus > 0 ==>
      if surplus == 0 then Row(BonusRow(op), st) in l else Denied(l, op)
  }

  ghost predicate TxSettled(s: State, t: TxId)
    requires t in s.txs
  {
    match s.txs[t].phase
    case Boarding(_, _, firstBlood, surplus) => Settled(s.ledger, s.txs[t].op, firstBlood, surplus, Inserting(t))
    case Committing(_, _, firstBlood, surplus, _) => Settled(s.ledger, s.txs[t].op, firstBlood, surplus, Inserting(t))
    case _ => true
  }

  ghost predicate ReceiptSettled(s: State, c: Receipt) { Settled(s.ledger, c.op, c.firstBlood, c.surplus, Committed) }

  ghost predicate AllSettled(s: State) {
    && (forall t :: t in s.txs ==> TxSettled(s, t))
    && (forall c :: c in s.log ==> ReceiptSettled(s, c))
  }

  /** Core rows stay until their own transaction rolls back. */
  ghost predicate CoreStays(l: seq<Row>, l': seq<Row>, st: Status) {
    forall q :: q in l && q.row.source == Core && q.status == st ==> q in l'
  }

  lemma SettledStays(l: seq<Row>, l': seq<Row>, op: Op, firstBlood: bool, surplus: int, st: Status)
    requires Settled(l, op, firstBlood, surplus, st) && CoreStays(l, l', Committed) && CoreStays(l, l', st)
    ensures Settled(l', op, firstBlood, surplus, st)
  {
    if op.Solve? && firstBlood && op.bonus > 0 && surplus != 0 {
      var q :| q in l && q.status == Committed && KeyOf(q.row) == KeyOf(BonusRow(op)) && q.row.team != op.team;
      assert q in l';
    }
  }

  /** A step of t leaves everybody else as settled as before. */
  lemma OthersStaySettled(s: State, s': State, t: TxId)
    requires AllSettled(s) && CoreStays(s.ledger, s'.ledger, Committed)
    requires forall u :: u != t ==> CoreStays(s.ledger, s'.ledger, Inserting(u))
    requires forall u :: u in s'.txs && u != t ==> u in s.txs && s'.txs[u] == s.txs[u]
    requires t in s'.txs ==> TxSettled(s', t)
    requires forall c :: c in s'.log && c !in s.log ==> ReceiptSettled(s', c)
    ensures AllSettled(s')
  {
    forall u | u in s'.txs ensures TxSettled(s', u) {
      if u != t {
        var x := s.txs[u];
        assert TxSettled(s, u) && CoreStays(s.ledger, s'.ledger, Inserting(u));
        if x.phase.Boarding? || x.phase.Committing? {
          SettledStays(s.ledger, s'.ledger, x.op, x.phase.firstBlood, x.phase.surplus, Inserting(u));
        }
      }
    }
    forall c | c in s'.log ensures ReceiptSettled(s', c) {
      if c in s.log {
        SettledStays(s.ledger, s'.ledger, c.op, c.firstBlood, c.surplus, Committed);
      }
    }
  }

  lemma RollbackSettled(s: State, t: TxId)
    requires Inv(s) && AllSettled(s) && t in s.txs
    ensures AllSettled(Rollback(s, t))
  {
    ResolveMembers(s.ledger, t, false);
    OthersStaySettled(s, Rollback(s, t), t);
  }

  lemma CommitSettled(s: State, t: TxId)
    requires Inv(s) && AllSettled(s) && t in s.txs && s.txs[t].phase.Committing?
    ensures AllSettled(Commit(s, t))
  {
    var s', x := Commit(s, t), s.txs[t];
    ResolveMembers(s.ledger, t, true);
    assert TxSettled(s, t);
    if x.op.Solve? && x.phase.firstBlood && x.op.bonus > 0 && x.phase.surplus != 0 {
      var q :| q in s.ledger && q.status == Committed && KeyOf(q.row) == KeyOf(BonusRow(x.op))
               && q.row.team != x.op.team;
      assert q in s'.ledger;
    }
    assert Settled(s'.ledger, x.op, x.phase.firstBlood, x.phase.surplus, Committed);
    OthersStaySettled(s, s', t);
  }

  /** The first-blood reference is taken: by a committed row, and of another team. */
  lemma TakenByAnother(s: State, t: TxId)
    requires Inv(s) && BonusesOk(s) && t in s.txs && s.txs[t].op.Solve? && s.txs[t].phase.Rewarding?
    requires KeyWith(s.ledger, KeyOf(BonusRow(s.txs[t].op)), Committed)
    ensures Denied(s.ledger, s.txs[t].op)
  {
    var op := s.txs[t].op;
    var q := Find(s.ledger, KeyOf(BonusRow(op)));
    assert TxOk(s, t) && BonusOk(s, q) && IsBonusOf(q.row, op.ecText);
  }

  /** A call in Rewarding has not written its bonus. */
  lemma NotItsOwn(s: State, t: TxId)
    requires Inv(s) && t in s.txs && s.txs[t].op.Solve? && s.txs[t].phase.Rewarding?
    ensures !KeyWith(s.ledger, KeyOf(BonusRow(s.txs[t].op)), Inserting(t))
  {
    var op := s.txs[t].op;
    Facts.RefsDiffer(op.ecText, op.team, op.ecText);
    forall i | 0 <= i < |s.ledger| && s.ledger[i].status == Inserting(t)
      ensures KeyOf(s.ledger[i].row) != KeyOf(BonusRow(op))
    {
      assert RowOk(s, s.ledger[i]);
    }
  }

  lemma RewardingSettled(s: State, t: TxId)
    requires Inv(s) && BonusesOk(s) && AllSettled(s) && t in s.txs && s.txs[t].op.Solve? && s.txs[t].phase.Rewarding?
    ensures AllSettled(Statement(s, t))
  {
    var s' := Statement(s, t);
    assert TxOk(s, t);
    NotItsOwn(s, t);
    if KeyWith(s.ledger, KeyOf(BonusRow(s.txs[t].op)), Committed) {
      TakenByAnother(s, t);
    }
    OthersStaySettled(s, s', t);
  }

  lemma CoreStaysAppended(l: seq<Row>, q: Row)
    ensures forall st :: CoreStays(l, l, st) && CoreStays(l, l + [q], st)
  {
  }

  /** One transaction moves on, adding at most a row. */
  lemma AppendSettled(s: State, t: TxId, phase: Phase, l: seq<Row>, q: Row)
    requires AllSettled(s) && t in s.txs && (l == s.ledger || l == s.ledger + [q])
    requires TxSettled(Goto(s, t, phase).(ledger := l), t)
    ensures AllSettled(Goto(s, t, phase).(ledger := l))
  {
    CoreStaysAppended(s.ledger, q);
    OthersStaySettled(s, Goto(s, t, phase).(ledger := l), t);
  }

  lemma InsertSettled(s: State, t: TxId, r: ScoreEvent, wrote: Phase, skipped: Phase)
    requires AllSettled(s) && t in s.txs && TxSettled(InsertRow(s, t, r, wrote, skipped), t)
    ensures AllSettled(InsertRow(s, t, r, wrote, skipped))
  {
    var q, s' := Row(r, Inserting(t)), InsertRow(s, t, r, wrote, skipped);
    if !KeyAt(s.ledger, KeyOf(r)) {
      AppendSettled(s, t, wrote, s.ledger + [q], q);
    } else if s' != s {
      AppendSettled(s, t, skipped, s.ledger, q);
      assert s' == Goto(s, t, skipped).(ledger := s.ledger);
    }
  }

  lemma BegunRevokeSettled(s: State, t: TxId)
    requires Inv(s) && AllSettled(s) && t in s.txs && s.txs[t].phase.Begun? && s.txs[t].op.Revoke?
    ensures AllSettled(DeleteRow(s, t))
  {
    var op := s.txs[t].op;
    var k := Key(op.event, PluginSource(op.plugin), op.ref);
    RollbackSettled(s, t);
    if KeyWith(s.ledger, k, Committed) {
      Facts.SourcesDiffer(op.plugin);
      MarkKeepsCore(s.ledger, k, t);
      OthersStaySettled(s, Deleted(s, t, k), t);
    }
  }

  lemma BegunSolveSettled(s: State, t: TxId)
    requires Inv(s) && AllSettled(s) && t in s.txs && s.txs[t].phase.Begun? && s.txs[t].op.Solve?
    ensures AllSettled(InsertSubmission(s, t))
  {
    RollbackSettled(s, t);
    if InsertSubmission(s, t) != Rollback(s, t) {
      OthersStaySettled(s, InsertSubmission(s, t), t);
    }
  }

  lemma BegunAwardSettled(s: State, t: TxId)
    requires Inv(s) && AllSettled(s) && t in s.txs && s.txs[t].phase.Begun? && s.txs[t].op.Award?
    ensures AllSettled(Statement(s, t))
  {
    var op := s.txs[t].op;
    RollbackSettled(s, t);
    InsertSettled(s, t, AwardRow(op), Boarding((op.event, op.team), Tally(op.points, 0), false, 0), Begun);
  }

  lemma BegunSettled(s: State, t: TxId)
    requires Inv(s) && AllSettled(s) && t in s.txs && s.txs[t].phase.Begun?
    ensures AllSettled(Statement(s, t))
  {
    RollbackSettled(s, t);
    if s.txs[t].op.Solve? {
      BegunSolveSettled(s, t);
    } else if s.txs[t].op.Revoke? {
      BegunRevokeSettled(s, t);
    } else if s.txs[t].op.Award? {
      BegunAwardSettled(s, t);
    }
  }

  lemma MarkKeepsCore(l: seq<Row>, k: Key, t: TxId)
    requires k.source != Core
    ensures forall q :: q in l && q.row.source == Core ==> q in MarkDeleting(l, k, t)
  {
    MarkShape(l, k, t);
    forall q | q in l && q.row.source == Core ensures q in MarkDeleting(l, k, t) {
      var i :| 0 <= i < |l| && l[i] == q;
      assert MarkDeleting(l, k, t)[i] == q;
    }
  }

  /** A solve past its count: only one told first blood with a bonus goes on to write a bonus row. */
  lemma ScoringSettled(s: State, t: TxId)
    requires Inv(s) && AllSettled(s) && t in s.txs && s.txs[t].op.Solve? && s.txs[t].phase.Scoring?
    ensures AllSettled(Statement(s, t))
  {
    var op, firstBlood := s.txs[t].op, s.txs[t].phase.firstBlood;
    InsertSettled(s, t, SolveRow(op), AfterScoring(op, firstBlood, 0), AfterScoring(op, firstBlood, op.points));
  }

  lemma StatementSettled(s: State, t: TxId)
    requires Inv(s) && BonusesOk(s) && AllSettled(s) && t in s.txs
    ensures AllSettled(Statement(s, t))
  {
    assert TxOk(s, t) && TxSettled(s, t);
    match s.txs[t].phase
    case Begun => BegunSettled(s, t);
    case Counting => OthersStaySettled(s, Statement(s, t), t);
    case Scoring(_) => ScoringSettled(s, t);
    case Rewarding(_) => RewardingSettled(s, t);
    case Boarding(_, _, _, _) => OthersStaySettled(s, Statement(s, t), t);
    case Committing(_, _, _, _, _) => CommitSettled(s, t);
  }

  lemma RemoveSettled(s: State, ecs: set<Uuid>)
    requires AllSettled(s)
    ensures AllSettled(RemoveChallenges(s, ecs))
  {
    var s' := RemoveChallenges(s, ecs);
    forall t | t in s'.txs ensures TxSettled(s', t) { assert TxSettled(s, t); }
    forall c | c in s'.log ensures ReceiptSettled(s', c) { assert ReceiptSettled(s, c); }
  }

  lemma StepSettled(s: State, a: Action)
    requires Inv(s) && BonusesOk(s) && AllSettled(s)
    ensures AllSettled(Step(s, a))
  {
    match a
    case Begin(t, op) =>
      if t !in s.txs {
        OthersStaySettled(s, Step(s, a), t);
      }
    case Exec(t) =>
      if t in s.txs {
        StatementSettled(s, t);
      }
    case Abort(t) =>
      if t in s.txs {
        RollbackSettled(s, t);
      }
    case Remove(ecs) => RemoveSettled(s, ecs);
  }

  lemma {:induction false} RunSettled(schedule: seq<Action>)
    ensures AllSettled(Play(Init, schedule))
  {
    if schedule != [] {
      RunKeeps(schedule[..|schedule| - 1]);
      RunBonuses(schedule[..|schedule| - 1]);
      RunSettled(schedule[..|schedule| - 1]);
      StepSettled(Play(Init, schedule[..|schedule| - 1]), schedule[|schedule| - 1]);
    }
  }

  /**
   * The only drift a committed call can leave is its first-blood bonus, and it leaves that exactly when it was told
   * first blood and no row of its bonus is in the ledger; another team's row then holds the reference.
   */
  lemma DriftIsBonus(schedule: seq<Action>, i: nat)
    requires i < |Play(Init, schedule).log|
    ensures var s := Play(Init, schedule);
            var c := s.log[i];
            && (c.surplus == 0 || (c.op.Solve? && c.firstBlood && c.op.bonus > 0 && c.surplus == c.op.bonus))
            && (c.op.Solve? && c.op.bonus > 0 ==>
                  (c.surplus == c.op.bonus <==> c.firstBlood && !Held(s.ledger, BonusRow(c.op))))
            && (c.op.Solve? && c.surplus != 0 ==> Denied(s.ledger, c.op))
  {
    var s := Play(Init, schedule);
    var c := s.log[i];
    RunKeeps(schedule);
    RunSettled(schedule);
    assert c in s.log && ReceiptSettled(s, c);
    if c.op.Solve? && Denied(s.ledger, c.op) {
      DeniedNotHeld(s.ledger, c.op);
    }
  }

  lemma DeniedNotHeld(l: seq<Row>, op: Op)
    requires KeysUnique(l) && op.Solve? && Denied(l, op)
    ensures !Held(l, BonusRow(op))
  {
    var q :| q in l && q.status == Committed && KeyOf(q.row) == KeyOf(BonusRow(op)) && q.row.team != op.team;
    var i :| 0 <= i < |l| && l[i] == q;
    forall j | 0 <= j < |l| ensures l[j].row != BonusRow(op) {
      assert i < j ==> KeyOf(l[i].row) != KeyOf(l[j].row);
      assert j < i ==> KeyOf(l[j].row) != KeyOf(l[i].row);
    }
  }
}
