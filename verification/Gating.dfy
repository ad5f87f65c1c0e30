/** What the unlock rules are evaluated on, and how it moves along a run. */
module Gating {
  import opened Common
  import opened Ledger
  import opened LedgerInvariant
  import opened Unlock

  datatype GateState =
    GateState(solvedEC: seq<Uuid>, points: int, blockSolved: map<Uuid, int>, blockTotal: map<Uuid, int>)

  // ---------------------------------------------------------------- the queries

  predicate Matches(db: Db, event: Uuid, team: Uuid, x: Submission) {
    x.correct && x.event == event && x.team == team && x.ec in db.challenges
  }

  /** submissions JOIN event_challenges WHERE event, team, correct */
  function SolvedBy(db: Db, event: Uuid, team: Uuid, subs: seq<Submission>): seq<Uuid> {
    if subs == [] then []
    else
      var n := |subs| - 1;
      SolvedBy(db, event, team, subs[..n]) + if Matches(db, event, team, subs[n]) then [subs[n].ec] else []
  }

  /** How many of the listed challenges lie in block b. */
  function InBlock(db: Db, ecs: seq<Uuid>, b: Uuid): int {
    if ecs == [] then 0
    else
      var c := ecs[|ecs| - 1];
      InBlock(db, ecs[..|ecs| - 1], b) + if c in db.challenges && db.challenges[c].block == Some(b) then 1 else 0
  }

  function PublishedIn(db: Db, event: Uuid, b: Uuid): set<Uuid> {
    set c | c in db.challenges && db.challenges[c].event == event && db.challenges[c].state == "published" &&
            db.challenges[c].block == Some(b)
  }

  function Blocks(db: Db, event: Uuid): set<Uuid> {
    set c | c in db.challenges && db.challenges[c].event == event && db.challenges[c].state == "published" &&
            db.challenges[c].block.Some? :: db.challenges[c].block.value
  }

  /** SELECT block_id, count(*) … GROUP BY block_id */
  function BlockTotals(db: Db, event: Uuid): map<Uuid, int> {
    map b | b in Blocks(db, event) :: |PublishedIn(db, event, b)|
  }

  /** The answer of the three queries, each reading the tables as they are when it runs. */
  ghost predicate IsGateRead(solves: Db, board: Db, totals: Db, event: Uuid, team: Uuid, st: GateState) {
    && st.solvedEC == SolvedBy(solves, event, team, solves.submissions)
    && st.points == View(board.board, (event, team)).points
    && (forall b :: Count(st.blockSolved, b) == InBlock(solves, st.solvedEC, b))
    && st.blockTotal == BlockTotals(totals, event)
  }

  /** Nothing is committed between the queries. */
  ghost predicate IsGateState(db: Db, event: Uuid, team: Uuid, st: GateState) {
    IsGateRead(db, db, db, event, team, st)
  }

  method TeamGateState(db: Db, boardDb: Db, totalsDb: Db, event: Uuid, team: Uuid) returns (st: GateState)
    ensures IsGateRead(db, boardDb, totalsDb, event, team, st)
  {
    var solvedEC: seq<Uuid>, blockSolved: map<Uuid, int> := [], map[];
    for n := 0 to |db.submissions|
      invariant solvedEC == SolvedBy(db, event, team, db.submissions[..n])
      invariant forall b :: Count(blockSolved, b) == InBlock(db, solvedEC, b)
    {
      var x := db.submissions[n];
      SolvedByStep(db, event, team, db.submissions, n);
      if Matches(db, event, team, x) {
        InBlockAppend(db, solvedEC, x.ec);
        solvedEC := solvedEC + [x.ec];
        var block := db.challenges[x.ec].block;
        if block.Some? {
          blockSolved := blockSolved[block.value := Count(blockSolved, block.value) + 1];
        }
      }
    }
    assert db.submissions[..|db.submissions|] == db.submissions;
    var points := 0;
    if (event, team) in boardDb.board {
      points := boardDb.board[(event, team)].points;
    }
    st := GateState(solvedEC, points, blockSolved, BlockTotals(totalsDb, event));
  }

  lemma SolvedByStep(db: Db, event: Uuid, team: Uuid, subs: seq<Submission>, n: nat)
    requires n < |subs|
    ensures SolvedBy(db, event, team, subs[..n + 1]) ==
            SolvedBy(db, event, team, subs[..n]) + if Matches(db, event, team, subs[n]) then [subs[n].ec] else []
  {
    assert subs[..n + 1][..n] == subs[..n];
  }

  lemma InBlockAppend(db: Db, s: seq<Uuid>, c: Uuid)
    ensures forall b :: InBlock(db, s + [c], b) ==
                        InBlock(db, s, b) + if c in db.challenges && db.challenges[c].block == Some(b) then 1 else 0
  {
    assert (s + [c])[..|s|] == s;
  }

  /** The state handleSubmit assembles for the evaluator. */
  function Assembled(st: GateState, now: Time): TeamState {
    TeamState((set e | e in st.solvedEC), st.points, |st.solvedEC|, st.blockSolved, st.blockTotal, now)
  }

  // ---------------------------------------------------------------- no challenge is counted twice

  lemma {:induction false} SolvedMembers(db: Db, event: Uuid, team: Uuid, subs: seq<Submission>)
    ensures forall c :: c in SolvedBy(db, event, team, subs) <==>
              exists x :: x in subs && Matches(db, event, team, x) && x.ec == c
  {
    if subs != [] {
      SolvedMembers(db, event, team, subs[..|subs| - 1]);
      assert subs == subs[..|subs| - 1] + [subs[|subs| - 1]];
    }
  }

  ghost predicate NoRepeats(s: seq<Uuid>) { forall i, j :: 0 <= i < j < |s| ==> s[i] != s[j] }

  lemma {:induction false} SolvedOnce(db: Db, event: Uuid, team: Uuid, subs: seq<Submission>)
    requires SolvesUnique(subs)
    ensures NoRepeats(SolvedBy(db, event, team, subs))
  {
    if subs != [] {
      var n := |subs| - 1;
      SolvedOnce(db, event, team, subs[..n]);
      SolvedMembers(db, event, team, subs[..n]);
      var s := SolvedBy(db, event, team, subs[..n]);
      forall i | 0 <= i < |s| && Matches(db, event, team, subs[n]) ensures s[i] != subs[n].ec {
        assert s[i] in s;
        var x :| x in subs[..n] && Matches(db, event, team, x) && x.ec == s[i];
      }
    }
  }

  lemma {:induction false} NoRepeatsSize(s: seq<Uuid>)
    requires NoRepeats(s)
    ensures |set c | c in s| == |s|
  {
    if s != [] {
      var n := |s| - 1;
      NoRepeatsSize(s[..n]);
      assert s[n] !in s[..n];
      assert (set c | c in s) == (set c | c in s[..n]) + {s[n]};
    }
  }

  function SolvedInBlock(db: Db, ecs: seq<Uuid>, b: Uuid): set<Uuid> {
    set c | c in ecs && c in db.challenges && db.challenges[c].block == Some(b)
  }

  lemma {:induction false} InBlockSize(db: Db, s: seq<Uuid>, b: Uuid)
    requires NoRepeats(s)
    ensures InBlock(db, s, b) == |SolvedInBlock(db, s, b)|
  {
    if s != [] {
      var n := |s| - 1;
      InBlockSize(db, s[..n], b);
      assert s[n] !in s[..n];
      var here := s[n] in db.challenges && db.challenges[s[n]].block == Some(b);
      assert SolvedInBlock(db, s, b) == SolvedInBlock(db, s[..n], b) + if here then {s[n]} else {};
    }
  }

  // ---------------------------------------------------------------- what block_completed says

  lemma BlockTotalIs(db: Db, event: Uuid, b: Uuid)
    ensures Count(BlockTotals(db, event), b) == |PublishedIn(db, event, b)|
  {
    var open := PublishedIn(db, event, b);
    if c :| c in open {
      assert b in Blocks(db, event);
    } else {
      assert open == {};
      assert b !in Blocks(db, event) by {
        forall c | c in db.challenges && db.challenges[c].event == event && db.challenges[c].state == "published"
          ensures db.challenges[c].block != Some(b)
        {
          assert c !in open;
        }
      }
    }
  }

  lemma SizesCompare(done: set<Uuid>, open: set<Uuid>)
    ensures |done| >= |open| <==> |open - done| <= |done - open|
  {
    assert open == (open - done) + (open * done) && done == (done - open) + (open * done);
  }

  lemma BlockSolvedIs(db: Db, boardDb: Db, totalsDb: Db, event: Uuid, team: Uuid, st: GateState, b: Uuid)
    requires SolvesSound(db) && IsGateRead(db, boardDb, totalsDb, event, team, st)
    ensures Count(st.blockSolved, b) == |SolvedInBlock(db, st.solvedEC, b)|
  {
    SolvedOnce(db, event, team, db.submissions);
    InBlockSize(db, st.solvedEC, b);
  }

  function BlockRule(b: Uuid): Rule { Empty.(blockCompleted := Some(b)) }

  /**
   * `block_completed` holds exactly when the block has a published challenge and the team has solved at
   * least as many of its unpublished challenges as it has left published ones unsolved, each count taken from the
   * tables its query saw.
   */
  lemma BlockCompletedExactly(db: Db, boardDb: Db, totalsDb: Db, event: Uuid, team: Uuid, st: GateState, b: Uuid,
                              now: Time)
    requires SolvesSound(db) && IsGateRead(db, boardDb, totalsDb, event, team, st)
    ensures var done, open := SolvedInBlock(db, st.solvedEC, b), PublishedIn(totalsDb, event, b);
            Eval(BlockRule(b), Assembled(st, now)) <==> open != {} && |open - done| <= |done - open|
  {
    BlockSolvedIs(db, boardDb, totalsDb, event, team, st, b);
    BlockTotalIs(totalsDb, event, b);
    SizesCompare(SolvedInBlock(db, st.solvedEC, b), PublishedIn(totalsDb, event, b));
  }

  lemma NothingMissing(done: set<Uuid>, open: set<Uuid>)
    requires done <= open
    ensures |open - done| <= |done - open| <==> open <= done
  {
    assert done - open == {};
    assert open <= done <==> open - done == {};
  }

  /** If everything the team solved in the block is still published, it says what its name says. */
  lemma BlockCompletedMeansAll(db: Db, event: Uuid, team: Uuid, st: GateState, b: Uuid, now: Time)
    requires SolvesSound(db) && IsGateState(db, event, team, st)
    requires SolvedInBlock(db, st.solvedEC, b) <= PublishedIn(db, event, b)
    ensures Eval(BlockRule(b), Assembled(st, now)) <==>
            PublishedIn(db, event, b) != {} && forall c :: c in PublishedIn(db, event, b) ==> c in st.solvedEC
  {
    BlockCompletedExactly(db, db, db, event, team, st, b, now);
    NothingMissing(SolvedInBlock(db, st.solvedEC, b), PublishedIn(db, event, b));
    forall c | c in PublishedIn(db, event, b) ensures c in SolvedInBlock(db, st.solvedEC, b) <==> c in st.solvedEC {
    }
  }

  /** One challenge of the block was solved and then hidden; the other is published and unsolved. */
  function HiddenAfterSolve(event: Uuid, team: Uuid, hidden: Uuid, open: Uuid, b: Uuid): Db {
    Db({event}, map[team := ""], [],
       map[hidden := Challenge(event, "hidden", Some(b)), open := Challenge(event, "published", Some(b))],
       {hidden, open}, [Submission(event, hidden, team, true)], [], map[])
  }

  lemma HiddenSets(event: Uuid, team: Uuid, hidden: Uuid, open: Uuid, b: Uuid)
    requires hidden != open
    ensures var db := HiddenAfterSolve(event, team, hidden, open, b);
            && PublishedIn(db, event, b) == {open} && SolvedInBlock(db, [hidden], b) == {hidden}
            && SolvedBy(db, event, team, db.submissions) == [hidden]
  {
    var db := HiddenAfterSolve(event, team, hidden, open, b);
    SolvedByStep(db, event, team, db.submissions, 0);
    assert db.submissions[..1] == db.submissions;
  }

  /** Then the block counts as completed with a published challenge unsolved. */
  lemma HiddenSolveCompletesBlock(event: Uuid, team: Uuid, hidden: Uuid, open: Uuid, b: Uuid, st: GateState, now: Time)
    requires hidden != open && IsGateState(HiddenAfterSolve(event, team, hidden, open, b), event, team, st)
    ensures SolvesSound(HiddenAfterSolve(event, team, hidden, open, b))
    ensures Eval(BlockRule(b), Assembled(st, now))
    ensures open in PublishedIn(HiddenAfterSolve(event, team, hidden, open, b), event, b) && open !in st.solvedEC
  {
    var db := HiddenAfterSolve(event, team, hidden, open, b);
    HiddenSets(event, team, hidden, open, b);
    assert SolvesUnique(db.submissions);
    BlockCompletedExactly(db, db, db, event, team, st, b, now);
    assert {open} - {hidden} == {open} && {hidden} - {open} == {hidden};
  }

  // ---------------------------------------------------------------- along a run

  /** Solves and awards that take no points away; nothing that edits challenges. */
  predicate Gains(op: Op) {
    match op
    case Solve(_, _, _, _, points, _) => points >= 0
    case Award(_, _, _, _, points, _) => points >= 0
    case Wrong(_, _, _) => true
    case AssignTeam(_, _) => true
    case UnassignTeam(_, _) => true
    case _ => false
  }

  lemma GainsKeep(db: Db, op: Op, event: Uuid, team: Uuid)
    requires Gains(op)
    ensures Apply(db, op).challenges == db.challenges
    ensures View(db.board, (event, team)).points <= View(Apply(db, op).board, (event, team)).points
    ensures SolvedBy(db, event, team, db.submissions) <=
            SolvedBy(Apply(db, op), event, team, Apply(db, op).submissions)
  {
    var db' := Apply(db, op);
    SolvedSame(db, db', event, team, db.submissions);
    if db'.submissions != db.submissions {
      assert db'.submissions[..|db.submissions|] == db.submissions;
    }
  }

  lemma {:induction false} SolvedSame(db: Db, db': Db, event: Uuid, team: Uuid, subs: seq<Submission>)
    requires db'.challenges == db.challenges
    ensures SolvedBy(db', event, team, subs) == SolvedBy(db, event, team, subs)
  {
    if subs != [] {
      SolvedSame(db, db', event, team, subs[..|subs| - 1]);
    }
  }

  /** The tables after the first n operations. */
  function At(db: Db, ops: seq<Op>, n: nat): Db
    requires n <= |ops|
  {
    Run(db, ops[..n])
  }

  lemma {:induction false} GainsRun(db: Db, ops: seq<Op>, i: nat, j: nat, event: Uuid, team: Uuid)
    requires i <= j <= |ops| && forall op :: op in ops ==> Gains(op)
    ensures var a, b := At(db, ops, i), At(db, ops, j);
            && b.challenges == a.challenges
            && View(a.board, (event, team)).points <= View(b.board, (event, team)).points
            && SolvedBy(a, event, team, a.submissions) <= SolvedBy(b, event, team, b.submissions)
  {
    if i < j {
      GainsRun(db, ops, i, j - 1, event, team);
      assert ops[..j][..j - 1] == ops[..j - 1];
      GainsKeep(At(db, ops, j - 1), ops[j - 1], event, team);
    }
  }

  lemma {:induction false} InBlockGrows(db: Db, s: seq<Uuid>, t: seq<Uuid>, b: Uuid)
    requires s <= t
    ensures InBlock(db, s, b) <= InBlock(db, t, b)
  {
    if |s| < |t| {
      InBlockGrows(db, s, t[..|t| - 1], b);
    } else {
      assert s == t;
    }
  }

  lemma {:induction false} InBlockSame(db: Db, db': Db, s: seq<Uuid>, b: Uuid)
    requires db'.challenges == db.challenges
    ensures InBlock(db', s, b) == InBlock(db, s, b)
  {
    if s != [] {
      InBlockSame(db, db', s[..|s| - 1], b);
    }
  }

  /** How much of the run each of the three queries sees. */
  datatype Instants = Instants(solves: nat, board: nat, totals: nat)

  /** The state was read along the run, each query at its own instant. */
  ghost predicate ReadAlong(db: Db, ops: seq<Op>, at: Instants, event: Uuid, team: Uuid, st: GateState) {
    && at.solves <= |ops| && at.board <= |ops| && at.totals <= |ops|
    && IsGateRead(At(db, ops, at.solves), At(db, ops, at.board), At(db, ops, at.totals), event, team, st)
  }

  predicate NotAfter(x: Instants, y: Instants) { x.solves <= y.solves && x.board <= y.board }

  lemma SameChallenges(db: Db, ops: seq<Op>, i: nat, event: Uuid, team: Uuid)
    requires i <= |ops| && forall op :: op in ops ==> Gains(op)
    ensures At(db, ops, i).challenges == db.challenges
  {
    GainsRun(db, ops, 0, i, event, team);
  }

  /** What a run of gains does to the state the evaluator reads. */
  lemma RunGrows(db: Db, ops: seq<Op>, event: Uuid, team: Uuid, x: Instants, st: GateState,
                 y: Instants, later: GateState,
                 now: Time, soon: Time)
    requires (forall op :: op in ops ==> Gains(op)) && now <= soon
    requires ReadAlong(db, ops, x, event, team, st) && ReadAlong(db, ops, y, event, team, later) && NotAfter(x, y)
    ensures Grows(Assembled(st, now), Assembled(later, soon))
  {
    GainsRun(db, ops, x.solves, y.solves, event, team);
    GainsRun(db, ops, x.board, y.board, event, team);
    SameChallenges(db, ops, x.totals, event, team);
    SameChallenges(db, ops, y.totals, event, team);
    var a, b := At(db, ops, x.solves), At(db, ops, y.solves);
    forall k ensures Count(st.blockSolved, k) <= Count(later.blockSolved, k) {
      InBlockSame(a, b, later.solvedEC, k);
      InBlockGrows(a, st.solvedEC, later.solvedEC, k);
    }
  }

  /**
   * Along any run of non-negative solves and awards, with the clock moving forward and each query seeing no less of
   * the run than it did before, a rule whose predicates all lie under an even number of nots stays true once true,
   * and one whose predicates all lie under an odd number stays false once false. The queries of one reading need
   * not see the same tables.
   */
  lemma UnlockIsStable(db: Db, ops: seq<Op>, event: Uuid, team: Uuid, x: Instants, st: GateState,
                       y: Instants, later: GateState, now: Time, soon: Time, r: Rule, even: bool)
    requires (forall op :: op in ops ==> Gains(op)) && now <= soon
    requires ReadAlong(db, ops, x, event, team, st) && ReadAlong(db, ops, y, event, team, later) && NotAfter(x, y)
    requires Polarized(r, even) && Eval(r, Assembled(st, now)) == even
    ensures Eval(r, Assembled(later, soon)) == even
  {
    RunGrows(db, ops, event, team, x, st, y, later, now, soon);
    ProgressKeeps(r, even, Assembled(st, now), Assembled(later, soon));
  }
}
