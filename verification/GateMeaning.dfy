/** What a verdict of the submit gate says about the run: the rule node by node, each leaf on the tables. */
module GateMeaning {
  import opened Common
  import opened Schedule
  import opened Unlock
  import opened ChallengeGate
  import opened Gating
  import opened LedgerRuns
  import Ledger
  import LedgerHistory

  // ---------------------------------------------------------------- the gate

  /** The schedule that counts: the challenge's own, or its block's if it has none. */
  function ScheduleOf(c: Challenge, b: Option<Block>): Raw {
    if c.schedule.Absent? && b.Some? then b.value.schedule else c.schedule
  }

  ghost predicate Holds(rule: Option<Rule>, st: TeamState) { rule.Some? ==> Eval(rule.value, st) }

  lemma OpenMeans(raw: Raw, t: Time)
    ensures Open(raw, t) <==> OpensAt(raw, t)
  {
    if raw.Spec? {
      AnyOpenCovers(raw.windows, t);
    }
  }

  /** Invisible before closed, closed before locked, and the rules of challenge and block must both hold. */
  lemma VerdictMeans(c: Challenge, b: Option<Block>, event: Uuid, st: TeamState)
    ensures var v := Verdicts(c, b, event, st);
            var visible, open := c.event == event && c.published, OpensAt(ScheduleOf(c, b), st.now);
            var rules := Holds(c.rule, st) && (b.Some? ==> Holds(b.value.rule, st));
            && (v == NotVisible <==> !visible)
            && (v == NotOpen <==> visible && !open)
            && (v == Locked <==> visible && open && !rules)
            && (v == Pass <==> visible && open && rules)
  {
    OpenMeans(ScheduleOf(c, b), st.now);
  }

  /** A closed challenge is left out unless its schedule asks to show it; a lock outranks a schedule. */
  lemma ListedMeans(c: Challenge, b: Option<Block>, st: TeamState)
    ensures var item, raw := Listed(c, b, st), ScheduleOf(c, b);
            var open := OpensAt(raw, st.now);
            var rules := Holds(c.rule, st) && (b.Some? ==> Holds(b.value.rule, st));
            && (item == None <==> !open && raw.closedBehavior in ["", "hidden"])
            && (item == Some(Item(true, "locked")) <==> item != None && !rules)
            && (item == Some(Item(true, "scheduled")) <==> item != None && rules && !open)
            && (item == Some(Item(false, "open")) <==> open && rules)
  {
    OpenMeans(ScheduleOf(c, b), st.now);
  }

  // ---------------------------------------------------------------- rules, node by node

  ghost predicate Passes(c: Challenge, b: Option<Block>, event: Uuid, st: TeamState) {
    Verdicts(c, b, event, st) == Pass
  }

  /** The same challenge under another rule, or under none. */
  function Under(c: Challenge, r: Rule): Challenge { c.(rule := Some(r)) }

  function Free(c: Challenge): Challenge { c.(rule := None) }

  lemma RuleDecides(c: Challenge, b: Option<Block>, event: Uuid, st: TeamState, r: Rule)
    ensures Passes(Under(c, r), b, event, st) <==> Passes(Free(c), b, event, st) && Eval(r, st)
  {
  }

  /** `all` lets a submission through exactly when each of its rules would; no other field of the node matters. */
  lemma AllPasses(c: Challenge, b: Option<Block>, event: Uuid, st: TeamState, r: Rule)
    requires r.all != []
    ensures Passes(Under(c, r), b, event, st) <==>
            forall i :: 0 <= i < |r.all| ==> Passes(Under(c, r.all[i]), b, event, st)
  {
    RuleDecides(c, b, event, st, r);
    forall i | 0 <= i < |r.all|
      ensures Passes(Under(c, r.all[i]), b, event, st) <==> Passes(Free(c), b, event, st) && Eval(r.all[i], st)
    {
      RuleDecides(c, b, event, st, r.all[i]);
    }
    assert Passes(Under(c, r.all[0]), b, event, st) ==> Passes(Free(c), b, event, st);
  }

  /** `any` lets it through exactly when one of its rules would. */
  lemma AnyPasses(c: Challenge, b: Option<Block>, event: Uuid, st: TeamState, r: Rule)
    requires r.all == [] && r.any != []
    ensures Passes(Under(c, r), b, event, st) <==>
            exists i :: 0 <= i < |r.any| && Passes(Under(c, r.any[i]), b, event, st)
  {
    RuleDecides(c, b, event, st, r);
    forall i | 0 <= i < |r.any|
      ensures Passes(Under(c, r.any[i]), b, event, st) <==> Passes(Free(c), b, event, st) && Eval(r.any[i], st)
    {
      RuleDecides(c, b, event, st, r.any[i]);
    }
    if Passes(Under(c, r), b, event, st) {
      var child :| child in r.any && Eval(child, st);
      var i :| 0 <= i < |r.any| && r.any[i] == child;
      assert Passes(Under(c, r.any[i]), b, event, st);
    }
  }

  /** `not` lets it through exactly when its rule alone would have locked it out. */
  lemma NotPasses(c: Challenge, b: Option<Block>, event: Uuid, st: TeamState, r: Rule, child: Rule)
    requires r.all == [] && r.any == [] && r.negated == Some(child)
    ensures Passes(Under(c, r), b, event, st) <==>
            Passes(Free(c), b, event, st) && Verdicts(Under(c, child), b, event, st) == Locked
  {
    RuleDecides(c, b, event, st, r);
    RuleDecides(c, b, event, st, child);
  }

  // ---------------------------------------------------------------- leaves, on the tables of a run

  predicate Leaf(r: Rule) { r.all == [] && r.any == [] && r.negated.None? }

  /** The gate's state was read along a run from the empty contest, each query at its own instant. */
  ghost predicate ReadIn(start: Ledger.Db, ops: seq<Ledger.Op>, at: Instants, event: Uuid, team: Uuid, st: TeamState,
                         now: Time)
  {
    && start == Fresh(start.events, start.teams)
    && exists g :: ReadAlong(start, ops, at, event, team, g) && st == Assembled(g, now)
  }

  /** The team has a committed solve of the challenge in the event, and the challenge still exists. */
  ghost predicate SolveStands(start: Ledger.Db, ops: seq<Ledger.Op>, n: nat, event: Uuid, ec: Uuid, team: Uuid)
    requires n <= |ops|
  {
    ec in Run(start, ops, n).challenges && LedgerHistory.EverAccepted(start, ops[..n], event, ec, team)
  }

  function Run(start: Ledger.Db, ops: seq<Ledger.Op>, n: nat): Ledger.Db
    requires n <= |ops|
  {
    Ledger.Run(start, ops[..n])
  }

  lemma SolvedStands(start: Ledger.Db, ops: seq<Ledger.Op>, n: nat, event: Uuid, ec: Uuid, team: Uuid)
    requires n <= |ops| && start == Fresh(start.events, start.teams)
    ensures var db := Run(start, ops, n);
            ec in SolvedBy(db, event, team, db.submissions) <==> SolveStands(start, ops, n, event, ec, team)
  {
    var db := Run(start, ops, n);
    SolvedMembers(db, event, team, db.submissions);
    LedgerHistory.StandingIffAccepted(start, ops[..n], event, ec, team);
    assert LedgerHistory.Standing(db, event, ec, team) <==>
           exists x :: x in db.submissions && Matches(db, event, team, x) && x.ec == ec by {
      RunKeepsInv(start, ops[..n]);
      var x := Ledger.Submission(event, ec, team, true);
      assert Matches(db, event, team, x) <==> ec in db.challenges;
    }
  }

  /** `solved`: the team's solve of that challenge stands. */
  lemma SolvedLeaf(start: Ledger.Db, ops: seq<Ledger.Op>, at: Instants, c: Challenge, b: Option<Block>, event: Uuid,
                   team: Uuid, st: TeamState, now: Time, r: Rule, ec: Uuid)
    requires ReadIn(start, ops, at, event, team, st, now) && Leaf(r) && r.solved == Some(ec)
    ensures Passes(Under(c, r), b, event, st) <==>
            Passes(Free(c), b, event, st) && SolveStands(start, ops, at.solves, event, ec, team)
  {
    RuleDecides(c, b, event, st, r);
    SolvedStands(start, ops, at.solves, event, ec, team);
  }

  /** `team_points_gte`: the team's ledger rows add up to that much. */
  lemma PointsLeaf(start: Ledger.Db, ops: seq<Ledger.Op>, at: Instants, c: Challenge, b: Option<Block>, event: Uuid,
                   team: Uuid, st: TeamState, now: Time, r: Rule, n: int)
    requires ReadIn(start, ops, at, event, team, st, now) && Leaf(r) && r.solved.None? && r.teamPointsGte == Some(n)
    ensures Passes(Under(c, r), b, event, st) <==>
            Passes(Free(c), b, event, st) && Ledger.Points(Run(start, ops, at.board).ledger, (event, team)) >= n
  {
    RuleDecides(c, b, event, st, r);
    ScoreboardEqualsLedger(start.events, start.teams, ops[..at.board], (event, team));
  }

  /** The challenges the team's solves of which stand. */
  ghost function StandingSolves(start: Ledger.Db, ops: seq<Ledger.Op>, n: nat, event: Uuid, team: Uuid): set<Uuid>
    requires n <= |ops|
  {
    set ec | ec in Run(start, ops, n).challenges && SolveStands(start, ops, n, event, ec, team)
  }

  lemma SolvedTotal(start: Ledger.Db, ops: seq<Ledger.Op>, n: nat, event: Uuid, team: Uuid)
    requires n <= |ops| && start == Fresh(start.events, start.teams)
    ensures var db := Run(start, ops, n);
            |SolvedBy(db, event, team, db.submissions)| == |StandingSolves(start, ops, n, event, team)|
  {
    var db := Run(start, ops, n);
    var solved := SolvedBy(db, event, team, db.submissions);
    RunKeepsInv(start, ops[..n]);
    SolvedOnce(db, event, team, db.submissions);
    NoRepeatsSize(solved);
    forall ec ensures ec in solved <==> ec in StandingSolves(start, ops, n, event, team) {
      SolvedStands(start, ops, n, event, ec, team);
    }
    assert (set ec | ec in solved) == StandingSolves(start, ops, n, event, team);
  }

  /** `solved_count_gte`: that many of the team's solves stand. */
  lemma CountLeaf(start: Ledger.Db, ops: seq<Ledger.Op>, at: Instants, c: Challenge, b: Option<Block>, event: Uuid,
                  team: Uuid, st: TeamState, now: Time, r: Rule, n: int)
    requires ReadIn(start, ops, at, event, team, st, now)
    requires Leaf(r) && r.solved.None? && r.teamPointsGte.None? && r.solvedCountGte == Some(n)
    ensures Passes(Under(c, r), b, event, st) <==>
            Passes(Free(c), b, event, st) && |StandingSolves(start, ops, at.solves, event, team)| >= n
  {
    RuleDecides(c, b, event, st, r);
    SolvedTotal(start, ops, at.solves, event, team);
  }

  /** `after`: the instant has come. */
  lemma AfterLeaf(start: Ledger.Db, ops: seq<Ledger.Op>, at: Instants, c: Challenge, b: Option<Block>, event: Uuid,
                  team: Uuid, st: TeamState, now: Time, r: Rule, when: Time)
    requires ReadIn(start, ops, at, event, team, st, now)
    requires Leaf(r) && r.solved.None? && r.teamPointsGte.None? && r.solvedCountGte.None? && r.after == Some(when)
    ensures Passes(Under(c, r), b, event, st) <==> Passes(Free(c), b, event, st) && when <= now
  {
    RuleDecides(c, b, event, st, r);
  }

  /** A node that asks nothing is as good as no rule. */
  lemma EmptyLeaf(c: Challenge, b: Option<Block>, event: Uuid, st: TeamState)
    ensures Passes(Under(c, Rule.Rule([], [], None, None, None, None, None, None)), b, event, st) <==>
            Passes(Free(c), b, event, st)
  {
  }

  /** The event's published challenges of the block, and the team's standing solves in it. */
  ghost function OpenIn(db: Ledger.Db, event: Uuid, block: Uuid): set<Uuid> {
    set ec | ec in db.challenges && db.challenges[ec] == Ledger.Challenge(event, "published", Some(block))
  }

  ghost function DoneIn(start: Ledger.Db, ops: seq<Ledger.Op>, n: nat, event: Uuid, team: Uuid, block: Uuid): set<Uuid>
    requires n <= |ops|
  {
    set ec | ec in StandingSolves(start, ops, n, event, team) && Run(start, ops, n).challenges[ec].block == Some(block)
  }

  lemma BlockSets(start: Ledger.Db, ops: seq<Ledger.Op>, at: Instants, event: Uuid, team: Uuid, g: GateState,
                  block: Uuid)
    requires start == Fresh(start.events, start.teams) && ReadAlong(start, ops, at, event, team, g)
    ensures OpenIn(Run(start, ops, at.totals), event, block) == PublishedIn(Run(start, ops, at.totals), event, block)
    ensures DoneIn(start, ops, at.solves, event, team, block) ==
            SolvedInBlock(Run(start, ops, at.solves), g.solvedEC, block)
  {
    var db := Run(start, ops, at.solves);
    forall ec
      ensures ec in DoneIn(start, ops, at.solves, event, team, block) <==> ec in SolvedInBlock(db, g.solvedEC, block)
    {
      SolvedStands(start, ops, at.solves, event, ec, team);
    }
  }

  /** `block_completed`: there is an open challenge, and the open ones not done are no more than the done not open. */
  lemma BlockLeaf(start: Ledger.Db, ops: seq<Ledger.Op>, at: Instants, c: Challenge, b: Option<Block>, event: Uuid,
                  team: Uuid, st: TeamState, now: Time, r: Rule, block: Uuid)
    requires ReadIn(start, ops, at, event, team, st, now) && Leaf(r) && r.solved.None? && r.teamPointsGte.None?
    requires r.solvedCountGte.None? && r.after.None? && r.blockCompleted == Some(block)
    ensures var open := OpenIn(Run(start, ops, at.totals), event, block);
            var done := DoneIn(start, ops, at.solves, event, team, block);
            Passes(Under(c, r), b, event, st) <==>
            Passes(Free(c), b, event, st) && open != {} && |open - done| <= |done - open|
  {
    var g :| ReadAlong(start, ops, at, event, team, g) && st == Assembled(g, now);
    RuleDecides(c, b, event, st, r);
    assert Eval(r, st) <==> Eval(BlockRule(block), st);
    RunKeepsInv(start, ops[..at.solves]);
    BlockSets(start, ops, at, event, team, g, block);
    var solves, board, totals := Run(start, ops, at.solves), Run(start, ops, at.board), Run(start, ops, at.totals);
    BlockCompletedExactly(solves, board, totals, event, team, g, block, now);
  }

  // ---------------------------------------------------------------- the list

  /** Given the same block, a challenge of the event is listed as open exactly when a submission passes. */
  lemma ListedOpenIsPass(c: Challenge, b: Option<Block>, event: Uuid, st: TeamState)
    requires c.event == event && c.published
    ensures Listed(c, b, st) == Some(Item(false, "open")) <==> Passes(c, b, event, st)
  {
    VerdictMeans(c, b, event, st);
    ListedMeans(c, b, st);
  }
}
