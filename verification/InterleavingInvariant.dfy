/** What every statement of every interleaving keeps. */
module InterleavingInvariant {
  import opened Common
  import opened Ledger
  import opened Interleaving
  import opened InterleavingSums

  // ---------------------------------------------------------------- structure

  predicate IsCall(op: Op) { op.Solve? || op.Award? || op.Revoke? }

  /** The transaction has written ledger rows or is past the statements that could. */
  predicate Writing(p: Phase) { p.Rewarding? || p.Boarding? || p.Committing? }

  /** t holds the pending submission of its call. */
  predicate HasMark(s: State, t: TxId)
    requires t in s.txs
  {
    var op := s.txs[t].op;
    op.Solve? && ParseUuid(op.ecText).Some? &&
    var k := (ParseUuid(op.ecText).value, op.team);
    k in s.solves && s.solves[k] == Inserting(t)
  }

  predicate SurplusOk(op: Op, firstBlood: bool, surplus: int) {
    surplus == 0 || (op.Solve? && firstBlood && op.bonus > 0 && surplus == op.bonus)
  }

  predicate LateOk(s: State, t: TxId, at: Spot, firstBlood: bool, surplus: int)
    requires t in s.txs
  {
    var op := s.txs[t].op;
    && IsCall(op)
    && (op.Solve? ==> HasMark(s, t) && at == (op.event, op.team))
    && (op.Award? ==> at == (op.event, op.team))
    && (op.Revoke? ==> at in s.board)
    && SurplusOk(op, firstBlood, surplus)
  }

  predicate TxOk(s: State, t: TxId)
    requires t in s.txs
  {
    match s.txs[t].phase
    case Begun => true
    case Counting => HasMark(s, t)
    case Scoring(_) => HasMark(s, t)
    case Rewarding(surplus) => HasMark(s, t) && s.txs[t].op.bonus > 0 && surplus == 0
    case Boarding(at, _, firstBlood, surplus) => LateOk(s, t, at, firstBlood, surplus)
    case Committing(at, delta, firstBlood, surplus, value) =>
      LateOk(s, t, at, firstBlood, surplus) && at in s.locks && s.locks[at] == t &&
      value == Add(BoardAt(s.board, at), delta)
  }

  /** A solve row of the ledger has the same standing as the submission it came from. */
  ghost predicate RefOk(s: State, r: Row) {
    forall text, team :: r.row.ref == SolveRef(text, team) ==>
      ParseUuid(text).Some? && (ParseUuid(text).value, team) in s.solves &&
      s.solves[(ParseUuid(text).value, team)] == r.status
  }

  ghost predicate RowOk(s: State, r: Row) {
    && (r.row.kind.SolveKind? ==> r.row.source == Core)
    && (r.row.source == Core ==> RefOk(s, r) && !r.status.Deleting?)
    && match r.status
       case Committed => (r.row.event, r.row.team) in s.board
       case Deleting(t) => (r.row.event, r.row.team) in s.board && t in s.txs && Writing(s.txs[t].phase)
       case Inserting(t) =>
         t in s.txs && Writing(s.txs[t].phase) && (s.txs[t].op.Solve? || s.txs[t].op.Award?) &&
         (r.row.event, r.row.team) == (s.txs[t].op.event, s.txs[t].op.team) &&
         (s.txs[t].phase.Rewarding? ==> s.txs[t].op.Solve? && r.row == SolveRow(s.txs[t].op))
  }

  predicate MarkOk(s: State, k: Spot)
    requires k in s.solves
  {
    s.solves[k] == Committed ||
    (s.solves[k].Inserting? && k.0 !in s.gone && s.solves[k].tx in s.txs && !s.txs[s.solves[k].tx].phase.Begun? &&
     var op := s.txs[s.solves[k].tx].op;
     op.Solve? && ParseUuid(op.ecText) == Some(k.0) && op.team == k.1)
  }

  ghost predicate Structure(s: State) {
    && (forall t :: t in s.txs ==> TxOk(s, t))
    && (forall r :: r in s.ledger ==> RowOk(s, r))
    && (forall k :: k in s.solves ==> MarkOk(s, k))
    && KeysUnique(s.ledger)
  }

  // ---------------------------------------------------------------- the books

  /** What transaction x will have changed in the ledger when it commits from where it stands. */
  function Owed(x: Tx, at: Spot, m: Measure): int {
    match x.phase
    case Rewarding(surplus) =>
      if x.op.Solve? && at == (x.op.event, x.op.team) then (if m == PointsOf then x.op.points - surplus else 1) else 0
    case Boarding(to, delta, _, surplus) =>
      if at == to then (if m == PointsOf then delta.points - surplus else delta.solves) else 0
    case Committing(to, delta, _, surplus, _) =>
      if at == to then (if m == PointsOf then delta.points - surplus else delta.solves) else 0
    case _ => 0
  }

  ghost predicate BookedAt(s: State, t: TxId, at: Spot, m: Measure) {
    Total(s.ledger, at, Pending(t), m) == if t in s.txs then Owed(s.txs[t], at, m) else 0
  }

  ghost predicate Booked(s: State) { forall t, at, m :: BookedAt(s, t, at, m) }

  /** The points a team was credited on the board by committed calls that did not write them to the ledger. */
  function Drift(log: seq<Receipt>, at: Spot): int {
    if log == [] then 0
    else Drift(log[..|log| - 1], at) + if log[|log| - 1].at == at then log[|log| - 1].surplus else 0
  }

  /** The committed board is the visible ledger plus the drift. */
  ghost predicate BalancedAt(s: State, at: Spot) {
    && BoardAt(s.board, at).points == Total(s.ledger, at, Visible, PointsOf) + Drift(s.log, at)
    && BoardAt(s.board, at).solves == Total(s.ledger, at, Visible, SolvesOf)
  }

  ghost predicate Balanced(s: State) { forall at :: BalancedAt(s, at) }

  ghost predicate ReceiptsOk(s: State) {
    forall i :: 0 <= i < |s.log| ==> SurplusOk(s.log[i].op, s.log[i].firstBlood, s.log[i].surplus)
  }

  ghost predicate Inv(s: State) { Structure(s) && Booked(s) && Balanced(s) && ReceiptsOk(s) }

  // ---------------------------------------------------------------- ending a transaction

  lemma RollbackStructure(s: State, t: TxId)
    requires Structure(s) && t in s.txs
    ensures Structure(Rollback(s, t))
  {
    var s' := Rollback(s, t);
    ResolveKeysUnique(s.ledger, t, false);
    forall u | u in s'.txs ensures TxOk(s', u) {
      assert TxOk(s, u);
    }
    forall r | r in s'.ledger ensures RowOk(s', r) {
      RollbackRow(s, t, r);
    }
    forall k | k in s'.solves ensures MarkOk(s', k) {
      assert MarkOk(s, k);
    }
  }

  lemma RollbackRow(s: State, t: TxId, r: Row)
    requires Structure(s) && t in s.txs && r in Rollback(s, t).ledger
    ensures RowOk(Rollback(s, t), r)
  {
    ResolveMembers(s.ledger, t, false);
    if r in s.ledger {
      assert RowOk(s, r);
    } else {
      assert RowOk(s, Row(r.row, Deleting(t)));
    }
  }

  lemma RollbackBooks(s: State, t: TxId)
    requires Booked(s) && Balanced(s) && t in s.txs
    ensures Booked(Rollback(s, t)) && Balanced(Rollback(s, t))
  {
    var s' := Rollback(s, t);
    forall u, at, m ensures BookedAt(s', u, at, m) {
      ResolveTotals(s.ledger, t, false, at, m, u);
      assert BookedAt(s, u, at, m);
    }
    forall at ensures BalancedAt(s', at) {
      ResolveTotals(s.ledger, t, false, at, PointsOf, t);
      ResolveTotals(s.ledger, t, false, at, SolvesOf, t);
      assert BalancedAt(s, at);
    }
  }

  lemma CommitStructure(s: State, t: TxId)
    requires Structure(s) && t in s.txs && s.txs[t].phase.Committing?
    ensures Structure(Commit(s, t))
  {
    var s' := Commit(s, t);
    ResolveKeysUnique(s.ledger, t, true);
    assert TxOk(s, t);
    forall u | u in s'.txs ensures TxOk(s', u) {
      assert TxOk(s, u);
    }
    forall r | r in s'.ledger ensures RowOk(s', r) {
      CommitRow(s, t, r);
    }
    forall k | k in s'.solves ensures MarkOk(s', k) {
      assert MarkOk(s, k);
    }
  }

  lemma CommitRow(s: State, t: TxId, r: Row)
    requires Structure(s) && t in s.txs && s.txs[t].phase.Committing? && r in Commit(s, t).ledger
    ensures RowOk(Commit(s, t), r)
  {
    ResolveMembers(s.ledger, t, true);
    assert TxOk(s, t);
    if r in s.ledger {
      assert RowOk(s, r);
    } else {
      assert RowOk(s, Row(r.row, Inserting(t)));
    }
  }

  lemma CommitBooks(s: State, t: TxId)
    requires Booked(s) && Balanced(s) && t in s.txs && s.txs[t].phase.Committing? && TxOk(s, t)
    ensures Booked(Commit(s, t)) && Balanced(Commit(s, t))
  {
    var s' := Commit(s, t);
    forall u, at, m ensures BookedAt(s', u, at, m) {
      ResolveTotals(s.ledger, t, true, at, m, u);
      assert BookedAt(s, u, at, m);
    }
    assert s'.log[..|s.log|] == s.log;
    forall at ensures BalancedAt(s', at) {
      ResolveTotals(s.ledger, t, true, at, PointsOf, t);
      ResolveTotals(s.ledger, t, true, at, SolvesOf, t);
      assert BalancedAt(s, at) && BookedAt(s, t, at, PointsOf) && BookedAt(s, t, at, SolvesOf);
    }
  }

  // ---------------------------------------------------------------- writing ledger rows

  /** Inserting a row: the books follow if the new phase owes exactly that row more. */
  lemma InsertBooks(s: State, t: TxId, r: ScoreEvent, p: Phase)
    requires Booked(s) && Balanced(s) && t in s.txs
    requires forall at, m :: Owed(s.txs[t].(phase := p), at, m) ==
                             Owed(s.txs[t], at, m) + if (r.event, r.team) == at then Value(r, m) else 0
    ensures var s' := Goto(s, t, p).(ledger := s.ledger + [Row(r, Inserting(t))]); Booked(s') && Balanced(s')
  {
    var s' := Goto(s, t, p).(ledger := s.ledger + [Row(r, Inserting(t))]);
    forall u, at, m ensures BookedAt(s', u, at, m) {
      TotalAppend(s.ledger, Row(r, Inserting(t)), at, Pending(u), m);
      assert BookedAt(s, u, at, m);
    }
    forall at ensures BalancedAt(s', at) {
      TotalAppend(s.ledger, Row(r, Inserting(t)), at, Visible, PointsOf);
      TotalAppend(s.ledger, Row(r, Inserting(t)), at, Visible, SolvesOf);
      assert BalancedAt(s, at);
    }
  }

  /** A move that changes no table keeps the books if it owes the same. */
  lemma GotoBooks(s: State, t: TxId, p: Phase)
    requires Booked(s) && Balanced(s) && t in s.txs
    requires forall at, m :: Owed(s.txs[t].(phase := p), at, m) == Owed(s.txs[t], at, m)
    ensures Booked(Goto(s, t, p)) && Balanced(Goto(s, t, p))
  {
    forall u, at, m ensures BookedAt(Goto(s, t, p), u, at, m) {
      assert BookedAt(s, u, at, m);
    }
    forall at ensures BalancedAt(Goto(s, t, p), at) {
      assert BalancedAt(s, at);
    }
  }

  lemma InsertStructure(s: State, t: TxId, r: ScoreEvent, p: Phase)
    requires Structure(s) && t in s.txs && !s.txs[t].phase.Committing? && !p.Committing?
    requires !KeyAt(s.ledger, KeyOf(r))
    requires Writing(p) && (s.txs[t].op.Solve? ==> !s.txs[t].phase.Begun?)
    requires p.Rewarding? ==> !Writing(s.txs[t].phase)
    requires TxOk(Goto(s, t, p), t) && RowOk(Goto(s, t, p), Row(r, Inserting(t)))
    ensures Structure(Goto(s, t, p).(ledger := s.ledger + [Row(r, Inserting(t))]))
  {
    var s' := Goto(s, t, p).(ledger := s.ledger + [Row(r, Inserting(t))]);
    forall u | u in s'.txs ensures TxOk(s', u) {
      assert u != t ==> TxOk(s, u);
    }
    forall q | q in s'.ledger ensures RowOk(s', q) {
      assert q in s.ledger ==> RowOk(s, q);
      assert q == Row(r, Inserting(t)) ==> RowOk(Goto(s, t, p), q);
    }
    forall k | k in s'.solves ensures MarkOk(s', k) {
      assert MarkOk(s, k);
    }
  }

  lemma GotoStructure(s: State, t: TxId, p: Phase)
    requires Structure(s) && t in s.txs && (Writing(s.txs[t].phase) ==> Writing(p)) && !p.Begun? && !p.Rewarding?
    requires TxOk(Goto(s, t, p), t)
    ensures Structure(Goto(s, t, p))
  {
    var s' := Goto(s, t, p);
    forall u | u in s'.txs ensures TxOk(s', u) {
      assert u != t ==> TxOk(s, u);
    }
    forall q | q in s'.ledger ensures RowOk(s', q) {
      assert RowOk(s, q);
    }
    forall k | k in s'.solves ensures MarkOk(s', k) {
      assert MarkOk(s, k);
    }
  }
}
