/** Run one call after the other, the statement-level machine does exactly what the transactions do. */
module InterleavingSerial {
  import opened Common
  import opened Ledger
  import opened LedgerInvariant
  import opened LedgerFacts
  import opened Interleaving
  import LedgerRuns

  // ---------------------------------------------------------------- the correspondence

  function AllCommitted(rows: seq<ScoreEvent>): seq<Row> {
    seq(|rows|, i requires 0 <= i < |rows| => Row(rows[i], Committed))
  }

  function Tallies(board: map<Spot, Entry>): map<Spot, Tally> {
    map at | at in board :: Tally(board[at].points, board[at].solves)
  }

  /** With nothing under way, the machine holds the tables of db; submissions of deleted challenges are out of sight. */
  ghost predicate Shows(s: State, db: Db) {
    && s.txs == map[] && s.locks == map[]
    && s.ledger == AllCommitted(db.ledger)
    && s.board == Tallies(db.board)
    && (forall k :: k in s.solves ==> s.solves[k] == Committed)
    && (forall ec, team :: HasSolve(db.submissions, ec, team) <==> (ec, team) in s.solves && ec !in s.gone)
    && s.gone == db.minted - db.challenges.Keys
  }

  // ---------------------------------------------------------------- reading and ending

  lemma KeyAtDone(rows: seq<ScoreEvent>, k: Key)
    ensures KeyAt(AllCommitted(rows), k) <==> HasKey(rows, k)
    ensures KeyWith(AllCommitted(rows), k, Committed) <==> HasKey(rows, k)
  {
    if HasKey(rows, k) {
      var i :| 0 <= i < |rows| && KeyOf(rows[i]) == k;
      assert KeyOf(AllCommitted(rows)[i].row) == k && AllCommitted(rows)[i].status == Committed;
    }
  }

  lemma {:induction false} ResolveDone(rows: seq<ScoreEvent>, t: TxId, commit: bool)
    ensures Resolve(AllCommitted(rows), t, commit) == AllCommitted(rows)
  {
    if rows != [] {
      var n := |rows| - 1;
      assert AllCommitted(rows)[..n] == AllCommitted(rows[..n]);
      ResolveDone(rows[..n], t, commit);
    }
  }

  function AllPending(rows: seq<ScoreEvent>): seq<Row> {
    seq(|rows|, i requires 0 <= i < |rows| => Row(rows[i], Inserting(0)))
  }

  lemma {:induction false} ResolvePending(rows: seq<ScoreEvent>, more: seq<ScoreEvent>)
    ensures Resolve(AllCommitted(rows) + AllPending(more), 0, true) == AllCommitted(rows + more)
  {
    var l := AllCommitted(rows) + AllPending(more);
    if more == [] {
      assert l == AllCommitted(rows) && rows + more == rows;
      ResolveDone(rows, 0, true);
    } else {
      var n := |more| - 1;
      assert l[..|l| - 1] == AllCommitted(rows) + AllPending(more[..n]) && l[|l| - 1] == Row(more[n], Inserting(0));
      ResolvePending(rows, more[..n]);
      assert AllCommitted(rows + more) == AllCommitted(rows + more[..n]) + [Row(more[n], Committed)];
    }
  }

  /** The only open transaction, at the given place. */
  function Open(s: State, op: Op, p: Phase): State { s.(txs := map[0 := Tx(op, p)]) }

  /** A call that has written nothing ends without a trace. */
  lemma RollbackAlone(s: State, db: Db, op: Op, p: Phase)
    requires Shows(s, db)
    ensures Rollback(Open(s, op, p), 0) == s
  {
    ResolveDone(db.ledger, 0, false);
    assert ResolveSolves(s.solves, 0, false) == s.solves;
    assert map[0 := Tx(op, p)] - {0} == map[];
    assert Unlocked(map[], 0) == map[];
  }

  // ---------------------------------------------------------------- statements of one call

  function Execs(s: State, n: nat): State { if n == 0 then s else Step(Execs(s, n - 1), Exec(0)) }

  lemma OneMore(s: State, n: nat)
    ensures Execs(s, n + 1) == Step(Execs(s, n), Exec(0))
  {
  }

  // ---------------------------------------------------------------- a solve

  ghost predicate Solving(s: State, db: Db, op: Op) { Shows(s, db) && op.Solve? && Accepted(db, op) && Inv(db) }

  function Mark(op: Op): Spot
    requires op.Solve? && ParseUuid(op.ecText).Some?
  {
    (ParseUuid(op.ecText).value, op.team)
  }

  /** The submission is in, at the given place. */
  function Marked(s: State, op: Op, p: Phase): State
    requires op.Solve? && ParseUuid(op.ecText).Some?
  {
    Open(s, op, p).(solves := s.solves[Mark(op) := Inserting(0)])
  }

  lemma SubmissionGoesIn(s: State, db: Db, op: Op)
    requires Solving(s, db, op)
    ensures Step(Open(s, op, Begun), Exec(0)) == Marked(s, op, Counting)
  {
    assert Mark(op).0 !in s.gone && Mark(op) !in s.solves;
  }

  lemma CountsOnlyItself(s: State, db: Db, op: Op)
    requires Solving(s, db, op)
    ensures |Seen(Marked(s, op, Counting).solves, s.gone, Mark(op).0, 0)| == 1 <==> TakesFirstBlood(db, op)
  {
    var ec := Mark(op).0;
    var seen := Seen(Marked(s, op, Counting).solves, s.gone, ec, 0);
    assert Mark(op) in seen;
    CountedSolve(db.submissions, ec);
    if TakesFirstBlood(db, op) {
      forall k | k in seen ensures k == Mark(op) {
        assert !HasSolve(db.submissions, k.0, k.1);
      }
      assert seen == {Mark(op)};
    } else {
      var team :| HasSolve(db.submissions, ec, team);
      assert {(ec, team), Mark(op)} <= seen && (ec, team) != Mark(op);
      SubsetSize({(ec, team), Mark(op)}, seen);
    }
  }

  lemma SolveIsCounted(s: State, db: Db, op: Op)
    requires Solving(s, db, op)
    ensures Step(Marked(s, op, Counting), Exec(0)) == Marked(s, op, Scoring(TakesFirstBlood(db, op)))
  {
    CountsOnlyItself(s, db, op);
  }

  /** The rows written so far. */
  function Wrote(s: State, db: Db, op: Op, p: Phase, rows: seq<ScoreEvent>): State
    requires op.Solve? && ParseUuid(op.ecText).Some?
  {
    Marked(s, op, p).(ledger := AllCommitted(db.ledger) + AllPending(rows))
  }

  lemma SolveIsScored(s: State, db: Db, op: Op)
    requires Solving(s, db, op)
    ensures Step(Marked(s, op, Scoring(TakesFirstBlood(db, op))), Exec(0)) ==
            Wrote(s, db, op, AfterScoring(op, TakesFirstBlood(db, op), 0), [SolveRow(op)])
  {
    SolveKeysFree(db, op);
    KeyAtDone(db.ledger, KeyOf(SolveRow(op)));
    assert AllPending([SolveRow(op)]) == [Row(SolveRow(op), Inserting(0))];
  }

  function At(op: Op): Spot
    requires op.Solve?
  {
    (op.event, op.team)
  }

  function Earned(db: Db, op: Op): Tally
    requires op.Solve? && Accepted(db, op)
  {
    Tally(op.points + EarnedBonus(db, op), 1)
  }

  lemma PendTwo(rows: seq<ScoreEvent>, r: ScoreEvent, q: ScoreEvent)
    ensures AllCommitted(rows) + AllPending([r]) + [Row(q, Inserting(0))] == AllCommitted(rows) + AllPending([r, q])
  {
  }

  lemma BonusKeyFree(db: Db, op: Op)
    requires op.Solve? && Accepted(db, op) && Inv(db) && TakesFirstBlood(db, op)
    ensures !KeyAt(AllCommitted(db.ledger) + AllPending([SolveRow(op)]), KeyOf(BonusRow(op)))
  {
    var l := AllCommitted(db.ledger) + AllPending([SolveRow(op)]);
    SolveKeysFree(db, op);
    RefsDiffer(op.ecText, op.team, op.ecText);
    forall i | 0 <= i < |l| ensures KeyOf(l[i].row) != KeyOf(BonusRow(op)) {
      assert i < |db.ledger| ==> KeyOf(db.ledger[i]) != KeyOf(BonusRow(op));
    }
  }

  lemma BonusIsWritten(s: State, db: Db, op: Op)
    requires Solving(s, db, op) && TakesFirstBlood(db, op) && op.bonus > 0
    ensures Step(Wrote(s, db, op, Rewarding(0), [SolveRow(op)]), Exec(0)) ==
            Wrote(s, db, op, Boarding(At(op), Earned(db, op), true, 0), [SolveRow(op), BonusRow(op)])
  {
    BonusKeyFree(db, op);
    PendTwo(db.ledger, SolveRow(op), BonusRow(op));
  }

  /** At the commit: every row written, the board row locked. */
  function Ready(s: State, db: Db, op: Op): State
    requires op.Solve? && Accepted(db, op)
  {
    var value := Add(BoardAt(s.board, At(op)), Earned(db, op));
    var p := Committing(At(op), Earned(db, op), TakesFirstBlood(db, op), 0, value);
    Wrote(s, db, op, p, SolveRowsOf(db, op)).(locks := map[At(op) := 0])
  }

  lemma BoardIsWritten(s: State, db: Db, op: Op)
    requires Solving(s, db, op)
    ensures var p := Boarding(At(op), Earned(db, op), TakesFirstBlood(db, op), 0);
            Step(Wrote(s, db, op, p, SolveRowsOf(db, op)), Exec(0)) == Ready(s, db, op)
  {
  }

  /** The machine after the solve. */
  function Over(s: State, db: Db, op: Op): State
    requires op.Solve? && Accepted(db, op)
  {
    s.(solves := s.solves[Mark(op) := Committed], ledger := AllCommitted(db.ledger + SolveRowsOf(db, op)),
       board := s.board[At(op) := Add(BoardAt(s.board, At(op)), Earned(db, op))],
       log := s.log + [Receipt(op, At(op), TakesFirstBlood(db, op), 0)])
  }

  lemma SolveCommits(s: State, db: Db, op: Op)
    requires Solving(s, db, op)
    ensures Step(Ready(s, db, op), Exec(0)) == Over(s, db, op)
  {
    var r := Ready(s, db, op);
    ResolvePending(db.ledger, SolveRowsOf(db, op));
    assert ResolveSolves(r.solves, 0, true) == s.solves[Mark(op) := Committed];
    assert r.txs - {0} == map[];
    assert Unlocked(r.locks, 0) == map[];
  }

  lemma SolveToBoarding(s: State, db: Db, op: Op)
    requires Solving(s, db, op)
    ensures Execs(Open(s, op, Begun), if EarnedBonus(db, op) > 0 then 4 else 3) ==
            Wrote(s, db, op, Boarding(At(op), Earned(db, op), TakesFirstBlood(db, op), 0), SolveRowsOf(db, op))
  {
    var a := Open(s, op, Begun);
    SubmissionGoesIn(s, db, op);
    OneMore(a, 0);
    SolveIsCounted(s, db, op);
    OneMore(a, 1);
    SolveIsScored(s, db, op);
    OneMore(a, 2);
    if EarnedBonus(db, op) > 0 {
      BonusIsWritten(s, db, op);
      OneMore(a, 3);
    }
  }

  lemma SolveAlone(s: State, db: Db, op: Op)
    requires Solving(s, db, op)
    ensures Execs(Open(s, op, Begun), Length(db, op)) == Over(s, db, op)
  {
    var a, n := Open(s, op, Begun), if EarnedBonus(db, op) > 0 then 4 else 3;
    SolveToBoarding(s, db, op);
    BoardIsWritten(s, db, op);
    OneMore(a, n);
    SolveCommits(s, db, op);
    OneMore(a, n + 1);
  }

  lemma OverShows(s: State, db: Db, op: Op)
    requires Solving(s, db, op)
    ensures Shows(Over(s, db, op), Apply(db, op))
  {
    var db' := Apply(db, op);
    forall ec, team
      ensures HasSolve(db'.submissions, ec, team) <==> (ec, team) in Over(s, db, op).solves && ec !in s.gone
    {
      HasSolveAppend(db.submissions, Submission(op.event, Mark(op).0, op.team, true), ec, team);
    }
    assert Over(s, db, op).board == Tallies(db'.board);
  }

  lemma SolveRefused(s: State, db: Db, op: Op)
    requires Shows(s, db) && op.Solve? && !Accepted(db, op) && !Dangles(db, op) && Inv(db)
    ensures Execs(Open(s, op, Begun), Length(db, op)) == s && Apply(db, op) == db
  {
    RollbackAlone(s, db, op, Begun);
    OneMore(Open(s, op, Begun), 0);
  }

  // ---------------------------------------------------------------- awards and reversals

  lemma AwardAlone(s: State, db: Db, op: Op)
    requires Shows(s, db) && op.Award? && !Dangles(db, op)
    ensures Shows(Execs(Open(s, op, Begun), Length(db, op)), Apply(db, op))
  {
    KeyAtDone(db.ledger, KeyOf(AwardRow(op)));
    if HasKey(db.ledger, KeyOf(AwardRow(op))) {
      RollbackAlone(s, db, op, Begun);
      OneMore(Open(s, op, Begun), 0);
    } else {
      AwardCommits(s, db, op);
      AwardOverShows(s, db, op);
    }
  }

  lemma AwardOverShows(s: State, db: Db, op: Op)
    requires Shows(s, db) && op.Award?
    ensures Shows(AwardOver(s, db, op), AfterAward(db, op))
  {
    assert AwardOver(s, db, op).board == Tallies(AfterAward(db, op).board);
  }

  function Home(op: Op): Spot
    requires op.Award?
  {
    (op.event, op.team)
  }

  /** The machine after the award. */
  function AwardOver(s: State, db: Db, op: Op): State
    requires op.Award?
  {
    s.(ledger := AllCommitted(db.ledger + [AwardRow(op)]),
       board := s.board[Home(op) := Add(BoardAt(s.board, Home(op)), Tally(op.points, 0))],
       log := s.log + [Receipt(op, Home(op), false, 0)])
  }

  lemma AwardCommits(s: State, db: Db, op: Op)
    requires Shows(s, db) && op.Award? && !HasKey(db.ledger, KeyOf(AwardRow(op)))
    ensures Execs(Open(s, op, Begun), 3) == AwardOver(s, db, op)
  {
    var a, at, delta := Open(s, op, Begun), Home(op), Tally(op.points, 0);
    var l := AllCommitted(db.ledger) + AllPending([AwardRow(op)]);
    KeyAtDone(db.ledger, KeyOf(AwardRow(op)));
    assert AllPending([AwardRow(op)]) == [Row(AwardRow(op), Inserting(0))];
    var b := Open(s, op, Boarding(at, delta, false, 0)).(ledger := l);
    assert Execs(a, 1) == Step(a, Exec(0)) == b;
    var p := Committing(at, delta, false, 0, Add(BoardAt(s.board, at), delta));
    var c := Open(s, op, p).(ledger := l, locks := map[at := 0]);
    assert Execs(a, 2) == Step(b, Exec(0)) == c;
    EndsCommitted(s, op, c, db.ledger, [AwardRow(op)]);
    assert Execs(a, 3) == Step(c, Exec(0));
  }

  /** The commit of the only transaction, which has written these rows and the board row it holds. */
  lemma EndsCommitted(s: State, op: Op, c: State, rows: seq<ScoreEvent>, more: seq<ScoreEvent>)
    requires (forall k :: k in s.solves ==> s.solves[k] == Committed) && 0 in c.txs && c.txs[0].phase.Committing?
    requires var p := c.txs[0].phase;
             c == Open(s, op, p).(ledger := AllCommitted(rows) + AllPending(more), locks := map[p.at := 0])
    requires s.txs == map[] && s.locks == map[]
    ensures var p := c.txs[0].phase;
            Step(c, Exec(0)) == s.(ledger := AllCommitted(rows + more), board := s.board[p.at := p.value],
                                   log := s.log + [Receipt(op, p.at, p.firstBlood, p.surplus)])
  {
    ResolvePending(rows, more);
    assert ResolveSolves(s.solves, 0, true) == s.solves;
    assert c.txs - {0} == map[];
    assert Unlocked(c.locks, 0) == map[];
  }

  lemma {:induction false} FindRow(rows: seq<ScoreEvent>, k: Key)
    requires HasKey(rows, k) && KeyWith(AllCommitted(rows), k, Committed)
    ensures Find(AllCommitted(rows), k).row == RowOf(rows, k)
  {
    var n, l := |rows| - 1, AllCommitted(rows);
    if KeyOf(rows[n]) != k {
      assert l[..n] == AllCommitted(rows[..n]);
      var i :| 0 <= i < |rows| && KeyOf(rows[i]) == k;
      assert rows[..n][i] == rows[i];
      KeyAtDone(rows[..n], k);
      FindRow(rows[..n], k);
    }
  }

  /** Deleted rows are gone at the commit. */
  lemma {:induction false} ResolveDeleted(rows: seq<ScoreEvent>, k: Key)
    ensures Resolve(MarkDeleting(AllCommitted(rows), k, 0), 0, true) == AllCommitted(Without(rows, k))
  {
    if rows != [] {
      var init, r := rows[..|rows| - 1], rows[|rows| - 1];
      ResolveDeleted(init, k);
      MarkLast(init, r, k);
      assert rows == init + [r];
      WithoutAppend(init, r, k);
      ResolveLast(MarkDeleting(AllCommitted(init), k, 0), Interleaving.Marked(Row(r, Committed), k, 0));
      assert AllCommitted(Without(init, k) + [r]) == AllCommitted(Without(init, k)) + [Row(r, Committed)];
      assert Without(init, k) + [] == Without(init, k);
    }
  }

  lemma MarkLast(init: seq<ScoreEvent>, r: ScoreEvent, k: Key)
    ensures MarkDeleting(AllCommitted(init + [r]), k, 0) ==
            MarkDeleting(AllCommitted(init), k, 0) + [Interleaving.Marked(Row(r, Committed), k, 0)]
  {
    var l := AllCommitted(init + [r]);
    assert l[..|l| - 1] == AllCommitted(init) && l[|l| - 1] == Row(r, Committed);
  }

  lemma ResolveLast(l: seq<Row>, q: Row)
    ensures Resolve(l + [q], 0, true) == Resolve(l, 0, true) + Kept(q, 0, true)
  {
    assert (l + [q])[..|l|] == l;
  }

  /** The machine after the reversal. */
  function RevokeOver(s: State, db: Db, op: Op, k: Key): State
    requires HasKey(db.ledger, k)
  {
    var r := RowOf(db.ledger, k);
    var at := (r.event, r.team);
    s.(ledger := AllCommitted(Without(db.ledger, k)),
       board := s.board[at := Add(BoardAt(s.board, at), Tally(-r.points, 0))],
       log := s.log + [Receipt(op, at, false, 0)])
  }

  /** The row is marked as deleted, and the call is at the given place. */
  function Deleting(s: State, db: Db, op: Op, k: Key, p: Phase): State {
    Open(s, op, p).(ledger := MarkDeleting(AllCommitted(db.ledger), k, 0))
  }

  ghost predicate Revoking(s: State, db: Db, op: Op, k: Key) {
    && Shows(s, db) && BoardRows(db) && HasKey(db.ledger, k)
    && op.Revoke? && k == Key(op.event, PluginSource(op.plugin), op.ref)
  }

  function Holder(db: Db, k: Key): Spot
    requires HasKey(db.ledger, k)
  {
    (RowOf(db.ledger, k).event, RowOf(db.ledger, k).team)
  }

  function Taken(db: Db, k: Key): Tally
    requires HasKey(db.ledger, k)
  {
    Tally(-RowOf(db.ledger, k).points, 0)
  }

  lemma RowIsMarked(s: State, db: Db, op: Op, k: Key)
    requires Revoking(s, db, op, k)
    ensures Step(Open(s, op, Begun), Exec(0)) == Deleting(s, db, op, k, Boarding(Holder(db, k), Taken(db, k), false, 0))
  {
    KeyAtDone(db.ledger, k);
    FindRow(db.ledger, k);
  }

  lemma PointsAreTaken(s: State, db: Db, op: Op, k: Key)
    requires Revoking(s, db, op, k)
    ensures var at, delta := Holder(db, k), Taken(db, k);
            Step(Deleting(s, db, op, k, Boarding(at, delta, false, 0)), Exec(0)) ==
            Deleting(s, db, op, k, Committing(at, delta, false, 0, Add(BoardAt(s.board, at), delta)))
            .(locks := map[at := 0])
  {
    LocksBoard(s, op, Deleting(s, db, op, k, Boarding(Holder(db, k), Taken(db, k), false, 0)),
               MarkDeleting(AllCommitted(db.ledger), k, 0));
  }

  lemma RevokeCommits(s: State, db: Db, op: Op, k: Key)
    requires Revoking(s, db, op, k)
    ensures Execs(Open(s, op, Begun), 3) == RevokeOver(s, db, op, k)
  {
    var a, at, delta := Open(s, op, Begun), Holder(db, k), Taken(db, k);
    RowIsMarked(s, db, op, k);
    OneMore(a, 0);
    PointsAreTaken(s, db, op, k);
    OneMore(a, 1);
    ResolveDeleted(db.ledger, k);
    RevokeEnds(s, op, Deleting(s, db, op, k, Committing(at, delta, false, 0, Add(BoardAt(s.board, at), delta)))
               .(locks := map[at := 0]));
    OneMore(a, 2);
  }

  /** The board row is free, so the only transaction writes it. */
  lemma LocksBoard(s: State, op: Op, b: State, l: seq<Row>)
    requires s.txs == map[] && s.locks == map[] && 0 in b.txs && b.txs[0].phase.Boarding?
    requires var p := b.txs[0].phase; b == Open(s, op, p).(ledger := l) && p.at in s.board
    ensures var p := b.txs[0].phase;
            Step(b, Exec(0)) ==
            Open(s, op, Committing(p.at, p.delta, p.firstBlood, p.surplus, Add(BoardAt(s.board, p.at), p.delta)))
            .(ledger := l, locks := map[p.at := 0])
  {
  }

  lemma RevokeEnds(s: State, op: Op, c: State)
    requires (forall k :: k in s.solves ==> s.solves[k] == Committed) && 0 in c.txs && c.txs[0].phase.Committing?
    requires s.txs == map[] && s.locks == map[]
    requires var p := c.txs[0].phase; c == Open(s, op, p).(ledger := c.ledger, locks := map[p.at := 0])
    ensures var p := c.txs[0].phase;
            Step(c, Exec(0)) == s.(ledger := Resolve(c.ledger, 0, true), board := s.board[p.at := p.value],
                                   log := s.log + [Receipt(op, p.at, p.firstBlood, p.surplus)])
  {
    assert ResolveSolves(s.solves, 0, true) == s.solves;
    assert c.txs - {0} == map[];
    assert Unlocked(c.locks, 0) == map[];
  }

  lemma RevokeAlone(s: State, db: Db, op: Op)
    requires Shows(s, db) && op.Revoke? && BoardRows(db)
    ensures Shows(Execs(Open(s, op, Begun), Length(db, op)), Apply(db, op))
  {
    var k := Key(op.event, PluginSource(op.plugin), op.ref);
    KeyAtDone(db.ledger, k);
    if HasKey(db.ledger, k) {
      RevokeCommits(s, db, op, k);
      assert RevokeOver(s, db, op, k).board == Tallies(Apply(db, op).board);
    } else {
      RollbackAlone(s, db, op, Begun);
      OneMore(Open(s, op, Begun), 0);
    }
  }

  // ---------------------------------------------------------------- deletes

  lemma DeleteAlone(s: State, db: Db, ids: set<Uuid>)
    requires Shows(s, db) && SolvesSound(db)
    ensures Shows(Step(s, Remove(ids * db.challenges.Keys)), Apply(db, DeleteChallenges(ids)))
  {
    var db' := Apply(db, DeleteChallenges(ids));
    var gone := s.gone + ids * db.challenges.Keys;
    forall ec, team ensures HasSolve(db'.submissions, ec, team) <==> (ec, team) in s.solves && ec !in gone {
      SurvivingSolve(db.submissions, ids, ec, team);
      HasSolveIn(db.submissions, ec, team);
    }
    assert db'.minted - db'.challenges.Keys == gone;
  }

  // ---------------------------------------------------------------- runs

  /** A foreign key fails: the call rolls back. A deleted challenge is left to the machine. */
  predicate Dangles(db: Db, op: Op) {
    match op
    case Solve(event, _, ecText, team, _, _) =>
      ParseUuid(ecText).Some? && (ParseUuid(ecText).value !in db.minted || !References(db, event, team))
    case Award(event, team, _, _, _, _) => !References(db, event, team)
    case _ => false
  }

  /** How many statements the call has, its commit or rollback included. */
  function Length(db: Db, op: Op): nat {
    match op
    case Solve(_, _, _, _, _, _) => if !Accepted(db, op) then 1 else if EarnedBonus(db, op) > 0 then 6 else 5
    case Award(_, _, _, _, _, _) => if HasKey(db.ledger, KeyOf(AwardRow(op))) then 1 else 3
    case Revoke(event, plugin, ref) => if HasKey(db.ledger, Key(event, PluginSource(plugin), ref)) then 3 else 1
    case _ => 0
  }

  function Repeated(n: nat): seq<Action> { if n == 0 then [] else Repeated(n - 1) + [Exec(0)] }

  /** The statements of one transaction, with nothing in between. */
  function Turn(db: Db, op: Op): seq<Action> {
    if op.Solve? || op.Award? || op.Revoke? then
      if Dangles(db, op) then [Begin(0, op)] + [Abort(0)] else [Begin(0, op)] + Repeated(Length(db, op))
    else if op.DeleteChallenges? then [Remove(op.ids * db.challenges.Keys)]
    else []
  }

  function Turns(db: Db, ops: seq<Op>): seq<Action> {
    if ops == [] then []
    else Turns(db, ops[..|ops| - 1]) + Turn(Run(db, ops[..|ops| - 1]), ops[|ops| - 1])
  }

  lemma {:induction false} PlayConcat(s: State, xs: seq<Action>, ys: seq<Action>)
    ensures Play(s, xs + ys) == Play(Play(s, xs), ys)
  {
    if ys == [] {
      assert xs + ys == xs;
    } else {
      var n := |ys| - 1;
      PlayConcat(s, xs, ys[..n]);
      assert (xs + ys)[..|xs + ys| - 1] == xs + ys[..n];
    }
  }

  lemma PlayOne(s: State, a: Action)
    ensures Play(s, [a]) == Step(s, a)
  {
    assert [a][..0] == [];
  }

  lemma {:induction false} PlayRepeated(s: State, n: nat)
    ensures Play(s, Repeated(n)) == Execs(s, n)
  {
    if n > 0 {
      PlayRepeated(s, n - 1);
      var r := Repeated(n);
      assert r[..|r| - 1] == Repeated(n - 1);
    }
  }

  lemma PlayCall(s: State, op: Op, n: nat)
    requires s.txs == map[]
    ensures Play(s, [Begin(0, op)] + Repeated(n)) == Execs(Open(s, op, Begun), n)
    ensures Play(s, [Begin(0, op)] + [Abort(0)]) == Rollback(Open(s, op, Begun), 0)
  {
    PlayConcat(s, [Begin(0, op)], Repeated(n));
    PlayConcat(s, [Begin(0, op)], [Abort(0)]);
    PlayOne(s, Begin(0, op));
    PlayOne(Open(s, op, Begun), Abort(0));
    PlayRepeated(Open(s, op, Begun), n);
  }

  lemma TurnShows(s: State, db: Db, op: Op)
    requires Shows(s, db) && Inv(db)
    ensures Shows(Play(s, Turn(db, op)), Apply(db, op))
  {
    PlayCall(s, op, Length(db, op));
    if Dangles(db, op) {
      RollbackAlone(s, db, op, Begun);
    } else if op.Solve? {
      if Accepted(db, op) {
        SolveAlone(s, db, op);
        OverShows(s, db, op);
      } else {
        SolveRefused(s, db, op);
      }
    } else if op.Award? {
      AwardAlone(s, db, op);
    } else if op.Revoke? {
      RevokeAlone(s, db, op);
    } else if op.DeleteChallenges? {
      PlayOne(s, Remove(op.ids * db.challenges.Keys));
      DeleteAlone(s, db, op.ids);
    } else {
      OtherShows(s, db, op);
    }
  }

  /** What the machine leaves out does not touch what it holds. */
  lemma OtherShows(s: State, db: Db, op: Op)
    requires Shows(s, db) && Inv(db)
    requires !op.Solve? && !op.Award? && !op.Revoke? && !op.DeleteChallenges?
    ensures Shows(s, Apply(db, op))
  {
    var db' := Apply(db, op);
    forall ec, team ensures HasSolve(db'.submissions, ec, team) <==> HasSolve(db.submissions, ec, team) {
      if op.Wrong? && ParseUuid(op.ecText).Some? {
        HasSolveAppend(db.submissions, Submission(op.event, ParseUuid(op.ecText).value, op.team, false), ec, team);
      }
    }
    assert db'.minted - db'.challenges.Keys == s.gone;
  }

  /**
   * Calls that run one after the other, statement by statement, leave the same ledger, board and submissions as the
   * transactions do, whatever the calls.
   */
  lemma {:induction false} SerialIsTransactional(events: set<Uuid>, teams: map<Uuid, string>, ops: seq<Op>)
    ensures Shows(Play(Init, Turns(LedgerRuns.Fresh(events, teams), ops)), Run(LedgerRuns.Fresh(events, teams), ops))
  {
    var start := LedgerRuns.Fresh(events, teams);
    if ops != [] {
      var before := ops[..|ops| - 1];
      SerialIsTransactional(events, teams, before);
      LedgerRuns.RunKeepsInv(start, before);
      TurnShows(Play(Init, Turns(start, before)), Run(start, before), ops[|ops| - 1]);
      PlayConcat(Init, Turns(start, before), Turn(Run(start, before), ops[|ops| - 1]));
    }
  }
}
