/**
 * Two overlapping first solves of a challenge: the second team keeps a bonus the ledger never recorded, or, if it
 * spelled the challenge id another way, a second first-blood row.
 */
module InterleavingWitness {
  import opened Common
  import opened Ledger
  import opened Interleaving
  import opened InterleavingInvariant
  import opened InterleavingTheorems
  import opened InterleavingDrift
  import opened InterleavingFirstBlood
  import opened InterleavingCalls
  import Facts = LedgerFacts

  /** Both calls insert their submission and count before either goes on; then each runs to its end. */
  function Racing(a: Op, b: Op): seq<Action> {
    [Begin(0, a), Begin(1, b), Exec(0), Exec(1), Exec(0), Exec(1),
     Exec(0), Exec(0), Exec(0), Exec(0), Exec(1), Exec(1), Exec(1), Exec(1)]
  }

  // ---------------------------------------------------------------- the states of the race

  function Ec(a: Op): Uuid
    requires a.Solve? && ParseUuid(a.ecText).Some?
  {
    ParseUuid(a.ecText).value
  }

  function Home(a: Op): Spot
    requires a.Solve?
  {
    (a.event, a.team)
  }

  function Haul(a: Op): Tally
    requires a.Solve?
  {
    Tally(a.points + a.bonus, 1)
  }

  function Marks(a: Op, sa: Status, b: Op, sb: Status): map<Spot, Status>
    requires Rivals(a, b)
  {
    map[(Ec(a), a.team) := sa, (Ec(b), b.team) := sb]
  }

  function FirstRows(a: Op, st: Status): seq<Row>
    requires a.Solve?
  {
    [Row(SolveRow(a), st), Row(BonusRow(a), st)]
  }

  /** The rows of the second call; spelled alike, its bonus row is dropped. */
  function SecondRows(a: Op, b: Op, st: Status): seq<Row>
    requires Rivals(a, b)
  {
    if SameReference(a, b) then [Row(SolveRow(b), st)] else [Row(SolveRow(b), st), Row(BonusRow(b), st)]
  }

  /** What the second call adds to the board without a ledger row. */
  function Surplus(a: Op, b: Op): int
    requires Rivals(a, b)
  {
    if SameReference(a, b) then b.bonus else 0
  }

  /** The first call has committed, the second has only counted. */
  function FirstDone(a: Op, b: Op): State
    requires Rivals(a, b)
  {
    State(map[1 := Tx(b, Scoring(true))], Marks(a, Committed, b, Inserting(1)), {}, FirstRows(a, Committed),
          map[Home(a) := Haul(a)], map[], [Receipt(a, Home(a), true, 0)])
  }

  function BothDone(a: Op, b: Op): State
    requires Rivals(a, b)
  {
    var s := FirstDone(a, b);
    State(map[], Marks(a, Committed, b, Committed), {}, s.ledger + SecondRows(a, b, Committed),
          s.board[Home(b) := Haul(b)], map[], s.log + [Receipt(b, Home(b), true, Surplus(a, b))])
  }

  /** The state after the first `i` actions of the race. */
  function Stage(a: Op, b: Op, i: nat): State
    requires Rivals(a, b) && i <= 14
  {
    if i == 0 then Init
    else if i == 1 then Init.(txs := map[0 := Tx(a, Begun)])
    else if i == 2 then Init.(txs := map[0 := Tx(a, Begun), 1 := Tx(b, Begun)])
    else if i == 3 then
      Init.(txs := map[0 := Tx(a, Counting), 1 := Tx(b, Begun)], solves := map[(Ec(a), a.team) := Inserting(0)])
    else if i <= 10 then
      var pa := if i <= 4 then Counting
                else if i <= 6 then Scoring(true)
                else if i == 7 then Rewarding(0)
                else if i == 8 then Boarding(Home(a), Haul(a), true, 0)
                else Committing(Home(a), Haul(a), true, 0, Haul(a));
      var pb := if i <= 5 then Counting else Scoring(true);
      if i == 10 then FirstDone(a, b)
      else
        State(map[0 := Tx(a, pa), 1 := Tx(b, pb)], Marks(a, Inserting(0), b, Inserting(1)), {},
              if i <= 6 then [] else if i == 7 then [Row(SolveRow(a), Inserting(0))] else FirstRows(a, Inserting(0)),
              map[], if i == 9 then map[Home(a) := 0] else map[], [])
    else
      var pb := if i == 11 then Rewarding(0)
                else if i == 12 then Boarding(Home(b), Haul(b), true, Surplus(a, b))
                else Committing(Home(b), Haul(b), true, Surplus(a, b), Haul(b));
      var s := FirstDone(a, b);
      if i == 14 then BothDone(a, b)
      else
        s.(txs := map[1 := Tx(b, pb)],
           ledger := s.ledger + if i == 11 then [Row(SolveRow(b), Inserting(1))] else SecondRows(a, b, Inserting(1)),
           locks := if i == 13 then map[Home(b) := 1] else map[])
  }

  // ---------------------------------------------------------------- step by step

  predicate StepsTo(a: Op, b: Op, i: nat)
    requires Rivals(a, b) && i < 14
  {
    Step(Stage(a, b, i), Racing(a, b)[i]) == Stage(a, b, i + 1)
  }

  lemma Starts(a: Op, b: Op, i: nat)
    requires Rivals(a, b) && i < 4
    ensures StepsTo(a, b, i)
  {
  }

  /** Neither call sees the other's pending submission, so both count one. */
  lemma BothCountOne(a: Op, b: Op, i: nat)
    requires Rivals(a, b) && 4 <= i < 6
    ensures StepsTo(a, b, i)
  {
    var both := Marks(a, Inserting(0), b, Inserting(1));
    assert Seen(both, {}, Ec(a), 0) == {(Ec(a), a.team)};
    assert Seen(both, {}, Ec(a), 1) == {(Ec(b), b.team)};
  }

  lemma FirstScores(a: Op, b: Op)
    requires Rivals(a, b)
    ensures StepsTo(a, b, 6)
  {
  }

  lemma FirstTakesBonus(a: Op, b: Op)
    requires Rivals(a, b)
    ensures StepsTo(a, b, 7)
  {
    Facts.RefsDiffer(a.ecText, a.team, a.ecText);
    assert Stage(a, b, 7).ledger + [Row(BonusRow(a), Inserting(0))] == FirstRows(a, Inserting(0));
  }

  lemma FirstWritesBoard(a: Op, b: Op)
    requires Rivals(a, b)
    ensures StepsTo(a, b, 8)
  {
  }

  lemma FirstRowsCommit(a: Op, b: Op)
    requires Rivals(a, b)
    ensures Resolve(FirstRows(a, Inserting(0)), 0, true) == FirstRows(a, Committed)
  {
    ResolvePair(Row(SolveRow(a), Inserting(0)), Row(BonusRow(a), Inserting(0)), 0);
  }

  lemma FirstCommits(a: Op, b: Op)
    requires Rivals(a, b)
    ensures StepsTo(a, b, 9)
  {
    var s, s' := Stage(a, b, 9), Stage(a, b, 10);
    FirstRowsCommit(a, b);
    assert ResolveSolves(s.solves, 0, true) == s'.solves;
    assert s.txs - {0} == s'.txs;
    assert Unlocked(s.locks, 0) == s'.locks;
  }

  lemma SecondScores(a: Op, b: Op)
    requires Rivals(a, b)
    ensures StepsTo(a, b, 10)
  {
    Facts.RefsDiffer(b.ecText, b.team, a.ecText);
    if SolveRow(a).ref == SolveRow(b).ref {
      Facts.SolveRefInjective(a.ecText, a.team, b.ecText, b.team);
    }
    assert !KeyAt(FirstRows(a, Committed), KeyOf(SolveRow(b)));
  }

  lemma SecondMissesBonus(a: Op, b: Op)
    requires Rivals(a, b) && SameReference(a, b)
    ensures StepsTo(a, b, 11)
  {
    var l := Stage(a, b, 11).ledger;
    assert KeyOf(l[1].row) == KeyOf(BonusRow(b)) && l[1].status == Committed;
    assert KeyWith(l, KeyOf(BonusRow(b)), Committed);
  }

  lemma SecondTakesBonusToo(a: Op, b: Op)
    requires Rivals(a, b) && !SameReference(a, b)
    ensures StepsTo(a, b, 11)
  {
    var l := Stage(a, b, 11).ledger;
    Facts.RefsDiffer(a.ecText, a.team, b.ecText);
    Facts.RefsDiffer(b.ecText, b.team, b.ecText);
    SameReferenceIsSameKey(a, b);
    assert l == [Row(SolveRow(a), Committed), Row(BonusRow(a), Committed), Row(SolveRow(b), Inserting(1))];
    assert !KeyAt(l, KeyOf(BonusRow(b)));
    assert l + [Row(BonusRow(b), Inserting(1))] == Stage(a, b, 12).ledger;
  }

  lemma SecondWritesBoard(a: Op, b: Op)
    requires Rivals(a, b)
    ensures StepsTo(a, b, 12)
  {
  }

  lemma {:induction false} ResolveConcat(l: seq<Row>, m: seq<Row>, t: TxId)
    ensures Resolve(l + m, t, true) == Resolve(l, t, true) + Resolve(m, t, true)
  {
    if m == [] {
      assert l + m == l;
    } else {
      var n := |m| - 1;
      ResolveConcat(l, m[..n], t);
      assert (l + m)[..|l + m| - 1] == l + m[..n];
    }
  }

  lemma ResolveOne(r: Row, t: TxId)
    ensures Resolve([r], t, true) == Kept(r, t, true)
  {
    assert [r][..0] == [];
  }

  lemma ResolvePair(r: Row, q: Row, t: TxId)
    ensures Resolve([r, q], t, true) == Kept(r, t, true) + Kept(q, t, true)
  {
    assert [r, q] == [r] + [q];
    ResolveConcat([r], [q], t);
    ResolveOne(r, t);
    ResolveOne(q, t);
  }

  lemma SecondRowsCommit(a: Op, b: Op)
    requires Rivals(a, b)
    ensures Resolve(FirstRows(a, Committed) + SecondRows(a, b, Inserting(1)), 1, true) ==
            FirstRows(a, Committed) + SecondRows(a, b, Committed)
  {
    ResolveConcat(FirstRows(a, Committed), SecondRows(a, b, Inserting(1)), 1);
    ResolvePair(Row(SolveRow(a), Committed), Row(BonusRow(a), Committed), 1);
    ResolvePair(Row(SolveRow(b), Inserting(1)), Row(BonusRow(b), Inserting(1)), 1);
    ResolveOne(Row(SolveRow(b), Inserting(1)), 1);
  }

  lemma MarksCommit(a: Op, b: Op)
    requires Rivals(a, b)
    ensures ResolveSolves(Marks(a, Committed, b, Inserting(1)), 1, true) == Marks(a, Committed, b, Committed)
  {
  }

  lemma SecondCommits(a: Op, b: Op)
    requires Rivals(a, b)
    ensures StepsTo(a, b, 13)
  {
    var s, s' := Stage(a, b, 13), Stage(a, b, 14);
    SecondRowsCommit(a, b);
    MarksCommit(a, b);
    assert s.txs - {1} == s'.txs;
    assert Unlocked(s.locks, 1) == s'.locks;
  }

  lemma StageStep(a: Op, b: Op, i: nat)
    requires Rivals(a, b) && i < 14
    ensures StepsTo(a, b, i)
  {
    if i < 4 { Starts(a, b, i); }
    else if i < 6 { BothCountOne(a, b, i); }
    else if i == 6 { FirstScores(a, b); }
    else if i == 7 { FirstTakesBonus(a, b); }
    else if i == 8 { FirstWritesBoard(a, b); }
    else if i == 9 { FirstCommits(a, b); }
    else if i == 10 { SecondScores(a, b); }
    else if i == 11 {
      if SameReference(a, b) { SecondMissesBonus(a, b); } else { SecondTakesBonusToo(a, b); }
    }
    else if i == 12 { SecondWritesBoard(a, b); }
    else { SecondCommits(a, b); }
  }

  lemma {:induction false} RaceReaches(a: Op, b: Op, i: nat)
    requires Rivals(a, b) && i <= 14
    ensures Play(Init, Racing(a, b)[..i]) == Stage(a, b, i)
  {
    if i > 0 {
      RaceReaches(a, b, i - 1);
      StageStep(a, b, i - 1);
      assert Racing(a, b)[..i][..i - 1] == Racing(a, b)[..i - 1];
    }
  }

  // ---------------------------------------------------------------- the result

  lemma RaceTotals(a: Op, b: Op)
    requires Rivals(a, b) && SameReference(a, b)
    ensures Points(Events(Stage(a, b, 14).ledger), Home(b)) == b.points
    ensures Drift(Stage(a, b, 14).log, Home(b)) == b.bonus && Drift(Stage(a, b, 14).log, Home(a)) == 0
  {
    var s, e := Stage(a, b, 14), [SolveRow(a), BonusRow(a)];
    assert Events(s.ledger) == e + [SolveRow(b)];
    Facts.PointsAppend(e, SolveRow(b), Home(b));
    Facts.NoRowsNoPoints(e, Home(b));
    assert s.log[..1] == [s.log[0]] && s.log[..1][..0] == [];
    assert Drift(s.log[..1], Home(a)) == 0 && Drift(s.log[..1], Home(b)) == 0;
  }

  lemma RaceOverlaps(a: Op, b: Op)
    requires Rivals(a, b)
    ensures Play(Init, Racing(a, b)) == Stage(a, b, 14) && !NeverOverlaps(Racing(a, b))
  {
    RaceReaches(a, b, 14);
    RaceReaches(a, b, 6);
    assert Racing(a, b)[..14] == Racing(a, b);
    assert HasMark(Stage(a, b, 6), 0) && HasMark(Stage(a, b, 6), 1);
    assert Overlap(Play(Init, Racing(a, b)[..6]));
  }

  /**
   * The race is possible for any two rivals; spelled alike, it leaves the later team exactly one bonus above its
   * ledger.
   */
  lemma OverlapDrifts(a: Op, b: Op)
    requires Rivals(a, b) && SameReference(a, b)
    ensures var s := Play(Init, Racing(a, b));
            && s.txs == map[] && !NeverOverlaps(Racing(a, b))
            && BoardAt(s.board, Home(b)).points == b.points + b.bonus
            && Points(Events(s.ledger), Home(b)) == b.points
            && Drift(s.log, Home(b)) == b.bonus && Drift(s.log, Home(a)) == 0
  {
    RaceOverlaps(a, b);
    RaceTotals(a, b);
  }

  /** Spelled differently, it leaves the challenge with two first-blood rows, one for each team. */
  lemma OverlapDoublesFirstBlood(a: Op, b: Op)
    requires Rivals(a, b) && !SameReference(a, b)
    ensures var s := Play(Init, Racing(a, b));
            && s.txs == map[] && !NeverOverlaps(Racing(a, b)) && |s.ledger| == 4
            && IsBonusFor(s.ledger[1].row, Ec(a)) && s.ledger[1].row.team == a.team
            && IsBonusFor(s.ledger[3].row, Ec(a)) && s.ledger[3].row.team == b.team
  {
    RaceOverlaps(a, b);
    assert IsBonusOf(BonusRow(a), a.ecText) && IsBonusOf(BonusRow(b), b.ecText);
  }
}
