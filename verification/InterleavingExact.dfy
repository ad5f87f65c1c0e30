/** Exactly which calls can leave the board above the ledger, and which can double a first-blood row. */
module InterleavingExact {
  import opened Common
  import opened Ledger
  import opened Interleaving
  import opened InterleavingTheorems
  import opened InterleavingFirstBlood
  import opened InterleavingCalls
  import opened InterleavingWitness

  /** The schedule makes some of the calls, all of them end, and the team's board points are not its ledger sum. */
  ghost predicate Drifts(schedule: seq<Action>, calls: set<Op>, at: Spot) {
    && Makes(schedule, calls)
    && var s := Play(Init, schedule);
       s.txs == map[] && BoardAt(s.board, at).points != Points(Events(s.ledger), at)
  }

  /** … and the ledger holds two first-blood rows of the challenge. */
  ghost predicate Doubles(schedule: seq<Action>, calls: set<Op>, ec: Uuid) {
    && Makes(schedule, calls)
    && var s := Play(Init, schedule);
       s.txs == map[] && exists i, j :: 0 <= i < j < |s.ledger| && BothFor(s.ledger, i, j, ec)
  }

  ghost predicate BothFor(l: seq<Row>, i: nat, j: nat, ec: Uuid)
    requires i < |l| && j < |l|
  {
    IsBonusFor(l[i].row, ec) && IsBonusFor(l[j].row, ec)
  }

  lemma RacingMakes(a: Op, b: Op, calls: set<Op>)
    requires Rivals(a, b) && a in calls && b in calls
    ensures Makes(Racing(a, b), calls)
  {
  }

  /** The calls can be scheduled so that some team's board drifts iff two of them are rivals with one reference. */
  lemma DriftPossibleIff(calls: set<Op>)
    ensures (exists schedule, at :: Drifts(schedule, calls, at)) <==> HasRivals(calls, true)
  {
    if schedule, at :| Drifts(schedule, calls, at) {
      AtRest(schedule, at);
      if !HasRivals(calls, true) {
        NoRivalsNoDrift(schedule, calls, at);
      }
    }
    if HasRivals(calls, true) {
      var a, b :| a in calls && b in calls && Rivals(a, b) && SameReference(a, b);
      RacingMakes(a, b, calls);
      OverlapDrifts(a, b);
      assert Drifts(Racing(a, b), calls, Home(b));
    }
  }

  /** … and so that a challenge has two first-blood rows iff two of them are rivals with different references. */
  lemma DoublePossibleIff(calls: set<Op>)
    ensures (exists schedule, ec :: Doubles(schedule, calls, ec)) <==> HasRivals(calls, false)
  {
    if schedule, ec :| Doubles(schedule, calls, ec) {
      var l := Play(Init, schedule).ledger;
      var i, j :| 0 <= i < j < |l| && BothFor(l, i, j, ec);
      DoublingNeedsRivals(schedule, calls, i, j, ec);
    }
    if HasRivals(calls, false) {
      var a, b :| a in calls && b in calls && Rivals(a, b) && !SameReference(a, b);
      RacingMakes(a, b, calls);
      OverlapDoublesFirstBlood(a, b);
      assert BothFor(Play(Init, Racing(a, b)).ledger, 1, 3, Ec(a));
      assert Doubles(Racing(a, b), calls, Ec(a));
    }
  }
}
