/** What the tables say about the run that made them: who is paid the bonus, and whose solves stand. */
module LedgerHistory {
  import opened Common
  import opened Ledger
  import opened LedgerFacts
  import opened LedgerInvariant
  import opened LedgerEffects
  import opened LedgerRuns

  lemma AcceptedPrefix(db: Db, ops: seq<Op>, n: nat, j: nat, ec: Uuid)
    requires j < n <= |ops|
    ensures AcceptedAt(db, ops[..n], j, ec) <==> AcceptedAt(db, ops, j, ec)
  {
    assert ops[..n][..j] == ops[..j];
  }

  // ---------------------------------------------------------------- the bonus

  ghost predicate Earlier(db: Db, ops: seq<Op>, i: nat, ec: Uuid) {
    exists j: nat :: j < i && AcceptedAt(db, ops, j, ec)
  }

  /** Of the committed solves of a challenge, the first and no other is paid the bonus, and each is paid its points. */
  lemma BonusGoesToTheFirst(db: Db, ops: seq<Op>, i: nat, ec: Uuid)
    requires Inv(db) && !SomebodySolved(db, ec) && AcceptedAt(db, ops, i, ec)
    ensures var op, was, after := ops[i], Run(db, ops[..i]), Run(db, ops[..i + 1]);
            var bonus := if Earlier(db, ops, i, ec) then 0 else Max(op.bonus, 0);
            && AnswerOf(was, op) == Solved(false, !Earlier(db, ops, i, ec), op.points + bonus)
            && Paid(was, after, op, ec, if bonus > 0 then [SolveRow(op), BonusRow(op)] else [SolveRow(op)],
                    op.points + bonus)
  {
    var op, was := ops[i], Run(db, ops[..i]);
    CountsNobody(db.submissions, ec);
    FirstBloodIsFirst(db, ops, i, ec);
    AcceptedIff(was, op, ec);
    RunOne(db, ops, i);
    if SomebodySolved(was, ec) {
      LaterSolvePays(was, op, ec);
    } else {
      FirstSolvePays(was, op, ec);
    }
  }

  /** The i-th call committed a solve, and the row is what it earned: its points, or the bonus of a first solve. */
  ghost predicate Earns(db: Db, ops: seq<Op>, i: nat, r: ScoreEvent) {
    i < |ops| && ops[i].Solve? && ParseUuid(ops[i].ecText).Some? &&
    var ec := ParseUuid(ops[i].ecText).value;
    AcceptedAt(db, ops, i, ec) &&
    (r == SolveRow(ops[i]) || (!Earlier(db, ops, i, ec) && ops[i].bonus > 0 && r == BonusRow(ops[i])))
  }

  lemma EarnsPrefix(db: Db, ops: seq<Op>, n: nat, i: nat, r: ScoreEvent)
    requires i < n <= |ops|
    ensures Earns(db, ops[..n], i, r) <==> Earns(db, ops, i, r)
  {
    forall j: nat, ec | j <= i ensures AcceptedAt(db, ops[..n], j, ec) <==> AcceptedAt(db, ops, j, ec) {
      AcceptedPrefix(db, ops, n, j, ec);
    }
  }

  /** A committed solve writes the row. */
  ghost predicate Pays(db: Db, op: Op, r: ScoreEvent) {
    op.Solve? && Accepted(db, op) &&
    (r == SolveRow(op) || (TakesFirstBlood(db, op) && op.bonus > 0 && r == BonusRow(op)))
  }

  lemma CoreRowsStep(db: Db, op: Op, r: ScoreEvent)
    requires r.source == Core
    ensures r in Apply(db, op).ledger <==> r in db.ledger || Pays(db, op, r)
  {
    if op.Award? {
      SourcesDiffer(op.plugin);
    } else if op.Revoke? {
      SourcesDiffer(op.plugin);
      WithoutMembers(db.ledger, Key(op.event, PluginSource(op.plugin), op.ref));
    }
  }

  lemma PaysIsEarns(db: Db, ops: seq<Op>, i: nat, r: ScoreEvent)
    requires Inv(db) && (forall ec :: !SomebodySolved(db, ec)) && i < |ops|
    ensures Pays(Run(db, ops[..i]), ops[i], r) <==> Earns(db, ops, i, r)
  {
    var op := ops[i];
    if op.Solve? && Accepted(Run(db, ops[..i]), op) {
      var ec := ParseUuid(op.ecText).value;
      CountsNobody(db.submissions, ec);
      assert !SomebodySolved(db, ec);
      FirstBloodIsFirst(db, ops, i, ec);
    }
  }

  /** After any run the core's rows in the ledger are exactly those its committed solves earned. */
  lemma {:induction false} CoreRowsAreEarned(db: Db, ops: seq<Op>, r: ScoreEvent)
    requires r.source == Core && Inv(db) && (forall ec :: !SomebodySolved(db, ec)) && r !in db.ledger
    ensures r in Run(db, ops).ledger <==> exists i: nat :: Earns(db, ops, i, r)
  {
    if ops != [] {
      var n := |ops| - 1;
      CoreRowsAreEarned(db, ops[..n], r);
      CoreRowsStep(Run(db, ops[..n]), ops[n], r);
      PaysIsEarns(db, ops, n, r);
      forall i: nat | i < n ensures Earns(db, ops[..n], i, r) <==> Earns(db, ops, i, r) {
        EarnsPrefix(db, ops, n, i, r);
      }
    }
  }

  // ---------------------------------------------------------------- the last solve

  ghost predicate SolvedBy(db: Db, ops: seq<Op>, i: nat, at: Spot) {
    i < |ops| && ops[i].Solve? && (ops[i].event, ops[i].team) == at && Accepted(Run(db, ops[..i]), ops[i])
  }

  ghost predicate LastSolvedBy(db: Db, ops: seq<Op>, i: nat, at: Spot) {
    SolvedBy(db, ops, i, at) && forall j: nat :: j > i ==> !SolvedBy(db, ops, j, at)
  }

  lemma LastStep(db: Db, op: Op, at: Spot)
    ensures View(Apply(db, op).board, at).last ==
            if op.Solve? && Accepted(db, op) && (op.event, op.team) == at then Some(op.now) else View(db.board, at).last
  {
  }

  lemma SolvedByPrefix(db: Db, ops: seq<Op>, at: Spot)
    requires ops != []
    ensures forall i: nat :: i < |ops| - 1 ==> (SolvedBy(db, ops[..|ops| - 1], i, at) <==> SolvedBy(db, ops, i, at))
  {
    var n := |ops| - 1;
    forall i: nat | i < n ensures SolvedBy(db, ops[..n], i, at) <==> SolvedBy(db, ops, i, at) {
      assert ops[..n][..i] == ops[..i];
    }
  }

  /** i is the last call of the run that solved for the team in the event, or -1. */
  ghost predicate IsLast(db: Db, ops: seq<Op>, at: Spot, i: int) {
    && -1 <= i < |ops|
    && (i >= 0 ==> SolvedBy(db, ops, i, at))
    && forall j: nat :: j > i ==> !SolvedBy(db, ops, j, at)
  }

  lemma StillLast(db: Db, ops: seq<Op>, at: Spot, i: int)
    requires ops != [] && IsLast(db, ops[..|ops| - 1], at, i) && !SolvedBy(db, ops, |ops| - 1, at)
    ensures IsLast(db, ops, at, i)
  {
    SolvedByPrefix(db, ops, at);
  }

  lemma {:induction false} LastIndex(db: Db, ops: seq<Op>, at: Spot) returns (i: int)
    requires View(db.board, at).last.None?
    ensures IsLast(db, ops, at, i)
    ensures View(Run(db, ops).board, at).last == if i == -1 then None else Some(ops[i].now)
  {
    i := -1;
    if ops != [] {
      var n := |ops| - 1;
      LastStep(Run(db, ops[..n]), ops[n], at);
      if SolvedBy(db, ops, n, at) {
        i := n;
      } else {
        i := LastIndex(db, ops[..n], at);
        StillLast(db, ops, at, i);
      }
    }
  }

  /** The board's last solve is the time of the team's last committed solve in the event, and empty without one. */
  lemma LastIsLastSolve(db: Db, ops: seq<Op>, at: Spot)
    requires View(db.board, at).last.None?
    ensures View(Run(db, ops).board, at).last.None? <==> forall i: nat :: !SolvedBy(db, ops, i, at)
    ensures forall i: nat :: LastSolvedBy(db, ops, i, at) ==> View(Run(db, ops).board, at).last == Some(ops[i].now)
  {
    var i := LastIndex(db, ops, at);
    forall k: nat | LastSolvedBy(db, ops, k, at) ensures k == i {
      assert i >= 0 ==> SolvedBy(db, ops, i, at);
    }
  }

  // ---------------------------------------------------------------- solves that stand

  /** A correct submission of the team for the challenge, made in the event. */
  ghost predicate Standing(db: Db, event: Uuid, ec: Uuid, team: Uuid) {
    Submission(event, ec, team, true) in db.submissions
  }

  ghost predicate AcceptedFor(db: Db, ops: seq<Op>, i: nat, event: Uuid, ec: Uuid, team: Uuid) {
    AcceptedAt(db, ops, i, ec) && ops[i].event == event && ops[i].team == team
  }

  lemma StandingStep(db: Db, op: Op, event: Uuid, ec: Uuid, team: Uuid)
    ensures Standing(Apply(db, op), event, ec, team) <==>
            || (Standing(db, event, ec, team) && !(op.DeleteChallenges? && ec in op.ids))
            || (op.Solve? && Accepted(db, op) &&
                ParseUuid(op.ecText) == Some(ec) && op.event == event && op.team == team)
  {
    if op.DeleteChallenges? {
      SurvivingMembers(db.submissions, op.ids);
    }
  }

  lemma ChallengeStep(db: Db, op: Op, ec: Uuid)
    requires ec in db.minted
    ensures ec in Apply(db, op).challenges <==> ec in db.challenges && !(op.DeleteChallenges? && ec in op.ids)
  {
  }

  /** An accepted solve's challenge was minted, so its id names no later challenge. */
  lemma AcceptedMinted(db: Db, ops: seq<Op>, i: nat, n: nat, ec: Uuid)
    requires Inv(db) && i < n <= |ops| && AcceptedAt(db, ops, i, ec)
    ensures ec in Run(db, ops[..n]).minted
  {
    SolveLeavesMark(db, ops, i, n, ec);
  }

  ghost predicate EverAccepted(db: Db, ops: seq<Op>, event: Uuid, ec: Uuid, team: Uuid) {
    exists i: nat :: AcceptedFor(db, ops, i, event, ec, team)
  }

  lemma EverAcceptedStep(db: Db, ops: seq<Op>, event: Uuid, ec: Uuid, team: Uuid)
    requires ops != []
    ensures EverAccepted(db, ops, event, ec, team) <==>
            EverAccepted(db, ops[..|ops| - 1], event, ec, team) || AcceptedFor(db, ops, |ops| - 1, event, ec, team)
  {
    var n := |ops| - 1;
    forall i: nat | i < n
      ensures AcceptedFor(db, ops[..n], i, event, ec, team) <==> AcceptedFor(db, ops, i, event, ec, team)
    {
      AcceptedPrefix(db, ops, n, i, ec);
    }
  }

  lemma EverAcceptedMinted(db: Db, ops: seq<Op>, event: Uuid, ec: Uuid, team: Uuid)
    requires Inv(db) && EverAccepted(db, ops, event, ec, team)
    ensures ec in Run(db, ops).minted
  {
    var i: nat :| AcceptedFor(db, ops, i, event, ec, team);
    AcceptedMinted(db, ops, i, |ops|, ec);
    assert ops[..|ops|] == ops;
  }

  /** A team's solve stands exactly while its challenge does. */
  lemma {:induction false} StandingIffAccepted(db: Db, ops: seq<Op>, event: Uuid, ec: Uuid, team: Uuid)
    requires Inv(db) && db.submissions == []
    ensures Standing(Run(db, ops), event, ec, team) <==>
            ec in Run(db, ops).challenges && EverAccepted(db, ops, event, ec, team)
  {
    if ops != [] {
      var n := |ops| - 1;
      var before := Run(db, ops[..n]);
      StandingIffAccepted(db, ops[..n], event, ec, team);
      StandingStep(before, ops[n], event, ec, team);
      EverAcceptedStep(db, ops, event, ec, team);
      if EverAccepted(db, ops[..n], event, ec, team) {
        EverAcceptedMinted(db, ops[..n], event, ec, team);
        ChallengeStep(before, ops[n], ec);
      }
    }
  }
}
