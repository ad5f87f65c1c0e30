/** The invariant over every schedule, and what it says once everybody has finished. */
module InterleavingRuns {
  import opened Common
  import opened Ledger
  import opened Interleaving
  import opened InterleavingSums
  import opened InterleavingInvariant
  import Facts = LedgerFacts

  // ---------------------------------------------------------------- one statement at a time

  /** The submission is there, the challenge is gone, or its id is no id. */
  predicate CannotSubmit(s: State, op: Op)
    requires op.Solve?
  {
    var ec := ParseUuid(op.ecText);
    ec.None? || ec.value in s.gone || (ec.value, op.team) in s.solves
  }

  lemma PendingStructure(s: State, t: TxId)
    requires Structure(s) && t in s.txs && s.txs[t].op.Solve? && s.txs[t].phase.Begun? && !CannotSubmit(s, s.txs[t].op)
    ensures Structure(InsertSubmission(s, t))
  {
    var k := (ParseUuid(s.txs[t].op.ecText).value, s.txs[t].op.team);
    var s' := InsertSubmission(s, t);
    forall u | u in s'.txs ensures TxOk(s', u) { assert TxOk(s, u); }
    forall q | q in s'.ledger ensures RowOk(s', q) { assert RowOk(s, q); }
    forall j | j in s'.solves ensures MarkOk(s', j) { assert j != k ==> MarkOk(s, j); }
  }

  lemma InsertSubmissionKeeps(s: State, t: TxId)
    requires Inv(s) && t in s.txs && s.txs[t].op.Solve? && s.txs[t].phase.Begun?
    ensures Inv(InsertSubmission(s, t))
  {
    if CannotSubmit(s, s.txs[t].op) {
      RollbackStructure(s, t);
      RollbackBooks(s, t);
    } else {
      PendingStructure(s, t);
      GotoBooks(s, t, Counting);
      var g, s' := Goto(s, t, Counting), InsertSubmission(s, t);
      forall u, at, m ensures BookedAt(s', u, at, m) { assert BookedAt(g, u, at, m); }
      forall at ensures BalancedAt(s', at) { assert BalancedAt(g, at); }
    }
  }

  lemma CountSolvesKeeps(s: State, t: TxId)
    requires Inv(s) && t in s.txs && s.txs[t].op.Solve? && s.txs[t].phase.Counting?
    ensures Inv(CountSolves(s, t))
  {
    assert TxOk(s, t);
    var p := Scoring(|Seen(s.solves, s.gone, ParseUuid(s.txs[t].op.ecText).value, t)| == 1);
    GotoBooks(s, t, p);
    GotoStructure(s, t, p);
  }

  /** The solve row's reference is never taken: its submission is still pending and t has written nothing. */
  lemma SolveKeyFree(s: State, t: TxId)
    requires Structure(s) && t in s.txs && HasMark(s, t) && !Writing(s.txs[t].phase)
    ensures !KeyAt(s.ledger, KeyOf(SolveRow(s.txs[t].op)))
  {
    var op := s.txs[t].op;
    forall i | 0 <= i < |s.ledger| ensures KeyOf(s.ledger[i].row) != KeyOf(SolveRow(op)) {
      var r := s.ledger[i];
      assert RowOk(s, r);
      if r.row.source == Core {
        assert r.row.ref == SolveRef(op.ecText, op.team) ==> r.status == Inserting(t);
      }
    }
  }

  lemma SolveRowFits(s: State, t: TxId, p: Phase)
    requires Structure(s) && t in s.txs && HasMark(s, t) && Writing(p)
    ensures RowOk(Goto(s, t, p), Row(SolveRow(s.txs[t].op), Inserting(t)))
  {
    var op := s.txs[t].op;
    forall text, team | SolveRow(op).ref == SolveRef(text, team) ensures text == op.ecText && team == op.team {
      Facts.SolveRefInjective(text, team, op.ecText, op.team);
    }
  }

  lemma BonusRowFits(s: State, t: TxId, p: Phase)
    requires Structure(s) && t in s.txs && HasMark(s, t) && Writing(p) && !p.Rewarding?
    ensures RowOk(Goto(s, t, p), Row(BonusRow(s.txs[t].op), Inserting(t)))
  {
    var op := s.txs[t].op;
    forall text, team ensures BonusRow(op).ref != SolveRef(text, team) {
      Facts.RefsDiffer(text, team, op.ecText);
    }
  }

  lemma ScoringKeeps(s: State, t: TxId)
    requires Inv(s) && t in s.txs && s.txs[t].op.Solve? && s.txs[t].phase.Scoring?
    ensures Inv(Statement(s, t))
  {
    var op, p := s.txs[t].op, AfterScoring(s.txs[t].op, s.txs[t].phase.firstBlood, 0);
    assert TxOk(s, t);
    SolveKeyFree(s, t);
    SolveRowFits(s, t, p);
    InsertBooks(s, t, SolveRow(op), p);
    InsertStructure(s, t, SolveRow(op), p);
  }

  function AfterBonus(op: Op): Phase
    requires op.Solve?
  {
    Boarding((op.event, op.team), Tally(op.points + op.bonus, 1), true, 0)
  }

  lemma BonusOwed(s: State, t: TxId, at: Spot, m: Measure)
    requires t in s.txs && s.txs[t].op.Solve? && s.txs[t].phase == Rewarding(0)
    ensures var r := BonusRow(s.txs[t].op);
            Owed(s.txs[t].(phase := AfterBonus(s.txs[t].op)), at, m) ==
            Owed(s.txs[t], at, m) + if (r.event, r.team) == at then Value(r, m) else 0
  {
  }

  lemma BonusWrittenKeeps(s: State, t: TxId)
    requires Inv(s) && t in s.txs && s.txs[t].op.Solve? && s.txs[t].phase.Rewarding?
    requires !KeyAt(s.ledger, KeyOf(BonusRow(s.txs[t].op)))
    ensures Inv(Statement(s, t))
  {
    var op := s.txs[t].op;
    var wrote, r := AfterBonus(op), BonusRow(op);
    assert TxOk(s, t);
    BonusRowFits(s, t, wrote);
    assert Statement(s, t) == Goto(s, t, wrote).(ledger := s.ledger + [Row(r, Inserting(t))]);
    forall at, m { BonusOwed(s, t, at, m); }
    InsertBooks(s, t, r, wrote);
    InsertStructure(s, t, r, wrote);
  }

  lemma BonusSkippedKeeps(s: State, t: TxId)
    requires Inv(s) && t in s.txs && s.txs[t].op.Solve? && s.txs[t].phase.Rewarding?
    requires KeyAt(s.ledger, KeyOf(BonusRow(s.txs[t].op)))
    ensures Inv(Statement(s, t))
  {
    var op := s.txs[t].op;
    var skipped := Boarding((op.event, op.team), Tally(op.points + op.bonus, 1), true, op.bonus);
    assert TxOk(s, t);
    GotoBooks(s, t, skipped);
    GotoStructure(s, t, skipped);
  }

  lemma RewardingKeeps(s: State, t: TxId)
    requires Inv(s) && t in s.txs && s.txs[t].op.Solve? && s.txs[t].phase.Rewarding?
    ensures Inv(Statement(s, t))
  {
    if KeyAt(s.ledger, KeyOf(BonusRow(s.txs[t].op))) {
      BonusSkippedKeeps(s, t);
    } else {
      BonusWrittenKeeps(s, t);
    }
  }

  lemma AwardKeeps(s: State, t: TxId)
    requires Inv(s) && t in s.txs && s.txs[t].op.Award? && s.txs[t].phase.Begun?
    ensures Inv(Statement(s, t))
  {
    var op := s.txs[t].op;
    var p := Boarding((op.event, op.team), Tally(op.points, 0), false, 0);
    Facts.SourcesDiffer(op.plugin);
    if KeyWith(s.ledger, KeyOf(AwardRow(op)), Committed) {
      RollbackStructure(s, t);
      RollbackBooks(s, t);
    } else if !KeyAt(s.ledger, KeyOf(AwardRow(op))) {
      InsertBooks(s, t, AwardRow(op), p);
      InsertStructure(s, t, AwardRow(op), p);
    } else {
      assert s.txs[t := s.txs[t]] == s.txs;
    }
  }

  lemma DeleteBookedAt(s: State, t: TxId, k: Key, u: TxId, at: Spot, m: Measure)
    requires KeysUnique(s.ledger) && t in s.txs && s.txs[t].phase.Begun? && BookedAt(s, u, at, m)
    requires KeyWith(s.ledger, k, Committed) && Find(s.ledger, k).row.kind.AwardKind?
    ensures BookedAt(Deleted(s, t, k), u, at, m)
  {
    MarkTotals(s.ledger, k, t, at, Pending(u), m);
  }

  lemma DeleteBalancedAt(s: State, t: TxId, k: Key, at: Spot)
    requires KeysUnique(s.ledger) && t in s.txs && BalancedAt(s, at) && KeyWith(s.ledger, k, Committed)
    ensures BalancedAt(Deleted(s, t, k), at)
  {
    MarkTotals(s.ledger, k, t, at, Visible, PointsOf);
    MarkTotals(s.ledger, k, t, at, Visible, SolvesOf);
  }

  lemma DeleteRowOk(s: State, t: TxId, k: Key, q: Row)
    requires t in s.txs && RowOk(s, q) && KeyWith(s.ledger, k, Committed) && k.source != Core
    ensures RowOk(Deleted(s, t, k), Marked(q, k, t))
  {
    if Marked(q, k, t) == q && q.row.source == Core {
      assert RefOk(Deleted(s, t, k), q);
    }
  }

  lemma DeleteStructure(s: State, t: TxId, k: Key)
    requires Structure(s) && t in s.txs && s.txs[t].op.Revoke? && s.txs[t].phase.Begun?
    requires KeyWith(s.ledger, k, Committed) && k.source != Core
    ensures Structure(Deleted(s, t, k))
  {
    var s' := Deleted(s, t, k);
    MarkShape(s.ledger, k, t);
    MarkKeysUnique(s.ledger, k, t);
    assert RowOk(s, Find(s.ledger, k));
    forall u | u in s'.txs ensures TxOk(s', u) { assert TxOk(s, u); }
    forall q | q in s'.ledger ensures RowOk(s', q) {
      var i :| 0 <= i < |s'.ledger| && s'.ledger[i] == q;
      DeleteRowOk(s, t, k, s.ledger[i]);
    }
    forall j | j in s'.solves ensures MarkOk(s', j) { assert MarkOk(s, j); }
  }

  lemma DeleteKeeps(s: State, t: TxId, k: Key)
    requires Inv(s) && t in s.txs && s.txs[t].op.Revoke? && s.txs[t].phase.Begun?
    requires KeyWith(s.ledger, k, Committed) && k.source != Core
    ensures Inv(Deleted(s, t, k))
  {
    var s' := Deleted(s, t, k);
    assert RowOk(s, Find(s.ledger, k));
    DeleteStructure(s, t, k);
    forall u, at, m ensures BookedAt(s', u, at, m) {
      assert BookedAt(s, u, at, m);
      DeleteBookedAt(s, t, k, u, at, m);
    }
    forall at ensures BalancedAt(s', at) {
      assert BalancedAt(s, at);
      DeleteBalancedAt(s, t, k, at);
    }
  }

  lemma RevokeKeeps(s: State, t: TxId)
    requires Inv(s) && t in s.txs && s.txs[t].op.Revoke? && s.txs[t].phase.Begun?
    ensures Inv(Statement(s, t))
  {
    var op := s.txs[t].op;
    var k := Key(op.event, PluginSource(op.plugin), op.ref);
    Facts.SourcesDiffer(op.plugin);
    if KeyWith(s.ledger, k, Committed) {
      DeleteKeeps(s, t, k);
    } else {
      RollbackKeeps(s, t);
    }
  }

  lemma WriteBoardKeeps(s: State, t: TxId)
    requires Inv(s) && t in s.txs && s.txs[t].phase.Boarding?
    ensures Inv(WriteBoard(s, t))
  {
    var p := s.txs[t].phase;
    var p' := Committing(p.at, p.delta, p.firstBlood, p.surplus, Add(BoardAt(s.board, p.at), p.delta));
    assert TxOk(s, t);
    if p.at !in s.locks {
      GotoBooks(s, t, p');
      var s' := WriteBoard(s, t);
      forall u, at, m ensures BookedAt(s', u, at, m) { assert BookedAt(Goto(s, t, p'), u, at, m); }
      forall at ensures BalancedAt(s', at) { assert BalancedAt(Goto(s, t, p'), at); }
      WriteBoardStructure(s, t);
    }
  }

  lemma WriteBoardStructure(s: State, t: TxId)
    requires Structure(s) && t in s.txs && s.txs[t].phase.Boarding? && s.txs[t].phase.at !in s.locks
    ensures Structure(WriteBoard(s, t))
  {
    var s' := WriteBoard(s, t);
    assert TxOk(s, t);
    forall u | u in s'.txs ensures TxOk(s', u) { WriteBoardTx(s, t, u); }
    forall q | q in s'.ledger ensures RowOk(s', q) { assert RowOk(s, q); }
    forall j | j in s'.solves ensures MarkOk(s', j) { assert MarkOk(s, j); }
  }

  lemma WriteBoardTx(s: State, t: TxId, u: TxId)
    requires Structure(s) && t in s.txs && s.txs[t].phase.Boarding? && s.txs[t].phase.at !in s.locks && u in s.txs
    ensures TxOk(WriteBoard(s, t), u)
  {
    assert TxOk(s, u);
  }

  lemma BeginKeeps(s: State, t: TxId, op: Op)
    requires Inv(s) && t !in s.txs
    ensures Inv(Step(s, Begin(t, op)))
  {
    var s' := Step(s, Begin(t, op));
    forall u, at, m ensures BookedAt(s', u, at, m) { assert BookedAt(s, u, at, m); }
    forall at ensures BalancedAt(s', at) { assert BalancedAt(s, at); }
    forall u | u in s'.txs ensures TxOk(s', u) { assert u != t ==> TxOk(s, u); }
    forall q | q in s'.ledger ensures RowOk(s', q) { assert RowOk(s, q); }
    forall j | j in s'.solves ensures MarkOk(s', j) { assert MarkOk(s, j); }
  }

  lemma CommitKeeps(s: State, t: TxId)
    requires Inv(s) && t in s.txs && s.txs[t].phase.Committing?
    ensures Inv(Commit(s, t))
  {
    assert TxOk(s, t);
    CommitStructure(s, t);
    CommitBooks(s, t);
  }

  lemma RollbackKeeps(s: State, t: TxId)
    requires Inv(s) && t in s.txs
    ensures Inv(Rollback(s, t))
  {
    RollbackStructure(s, t);
    RollbackBooks(s, t);
  }

  lemma StatementKeeps(s: State, t: TxId)
    requires Inv(s) && t in s.txs
    ensures Inv(Statement(s, t))
  {
    var x := s.txs[t];
    assert TxOk(s, t);
    match x.phase
    case Begun =>
      if x.op.Solve? {
        InsertSubmissionKeeps(s, t);
      } else if x.op.Award? {
        AwardKeeps(s, t);
      } else if x.op.Revoke? {
        RevokeKeeps(s, t);
      } else {
        RollbackKeeps(s, t);
      }
    case Counting => CountSolvesKeeps(s, t);
    case Scoring(_) => ScoringKeeps(s, t);
    case Rewarding(_) => RewardingKeeps(s, t);
    case Boarding(_, _, _, _) => WriteBoardKeeps(s, t);
    case Committing(_, _, _, _, _) => CommitKeeps(s, t);
  }

  lemma RemoveStructure(s: State, ecs: set<Uuid>)
    requires Structure(s)
    ensures Structure(RemoveChallenges(s, ecs))
  {
    var s' := RemoveChallenges(s, ecs);
    forall t | t in s'.txs ensures TxOk(s', t) { assert TxOk(s, t); }
    forall r | r in s'.ledger ensures RowOk(s', r) { assert RowOk(s, r); }
    forall k | k in s'.solves ensures MarkOk(s', k) { assert MarkOk(s, k); }
  }

  /** A delete waits for pending submissions of its challenges, so no transaction loses its own. */
  lemma RemoveKeeps(s: State, ecs: set<Uuid>)
    requires Inv(s)
    ensures Inv(RemoveChallenges(s, ecs))
  {
    var s' := RemoveChallenges(s, ecs);
    RemoveStructure(s, ecs);
    forall t, at, m ensures BookedAt(s', t, at, m) { assert BookedAt(s, t, at, m); }
    forall at ensures BalancedAt(s', at) { assert BalancedAt(s, at); }
  }

  lemma StepKeeps(s: State, a: Action)
    requires Inv(s)
    ensures Inv(Step(s, a))
  {
    match a
    case Begin(t, op) =>
      if t !in s.txs {
        BeginKeeps(s, t, op);
      }
    case Exec(t) =>
      if t in s.txs {
        StatementKeeps(s, t);
      }
    case Abort(t) =>
      if t in s.txs {
        RollbackKeeps(s, t);
      }
    case Remove(ecs) => RemoveKeeps(s, ecs);
  }

  lemma {:induction false} RunKeeps(schedule: seq<Action>)
    ensures Inv(Play(Init, schedule))
  {
    if schedule != [] {
      RunKeeps(schedule[..|schedule| - 1]);
      StepKeeps(Play(Init, schedule[..|schedule| - 1]), schedule[|schedule| - 1]);
    }
  }
}
