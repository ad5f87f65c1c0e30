/** Properties of whole runs of committed transactions. */
module LedgerRuns {
  import opened Common
  import opened Ledger
  import opened LedgerFacts
  import opened LedgerInvariant

  lemma {:induction false} RunKeepsInv(db: Db, ops: seq<Op>)
    requires Inv(db)
    ensures Inv(Run(db, ops))
  {
    if ops != [] {
      RunKeepsInv(db, ops[..|ops| - 1]);
      Preserved(Run(db, ops[..|ops| - 1]), ops[|ops| - 1]);
    }
  }

  /** The database before anything has been played. */
  function Fresh(events: set<Uuid>, teams: map<Uuid, string>): Db {
    Db(events, teams, [], map[], {}, [], [], map[])
  }

  /** After any run, what the board shows is what the ledger adds up to. */
  lemma ScoreboardEqualsLedger(events: set<Uuid>, teams: map<Uuid, string>, ops: seq<Op>, at: Spot)
    ensures var db := Run(Fresh(events, teams), ops);
            View(db.board, at).points == Points(db.ledger, at) && View(db.board, at).solves == SolveRows(db.ledger, at)
  {
    RunKeepsInv(Fresh(events, teams), ops);
    assert ProjectedAt(Run(Fresh(events, teams), ops), at);
  }

  // ---------------------------------------------------------------- first blood

  /** The j-th call of the run is a solve of `ec` that commits. */
  ghost predicate AcceptedAt(db: Db, ops: seq<Op>, j: nat, ec: Uuid) {
    j < |ops| && ops[j].Solve? && ParseUuid(ops[j].ecText) == Some(ec) && Accepted(Run(db, ops[..j]), ops[j])
  }

  lemma {:induction false} MarkStays(db: Db, ops: seq<Op>, ec: Uuid)
    requires Marked(db, ec)
    ensures Marked(Run(db, ops), ec)
  {
    if ops != [] {
      MarkStays(db, ops[..|ops| - 1], ec);
      MarkPersists(Run(db, ops[..|ops| - 1]), ops[|ops| - 1], ec);
    }
  }

  lemma {:induction false} RunConcat(db: Db, xs: seq<Op>, ys: seq<Op>)
    ensures Run(db, xs + ys) == Run(Run(db, xs), ys)
    ensures Answers(db, xs + ys) == Answers(db, xs) + Answers(Run(db, xs), ys)
  {
    if ys == [] {
      assert xs + ys == xs;
    } else {
      var n := |ys| - 1;
      RunConcat(db, xs, ys[..n]);
      assert (xs + ys)[..|xs + ys| - 1] == xs + ys[..n];
    }
  }

  /** A committed solve is what makes the count of its challenge positive. */
  lemma {:induction false} CountComesFromSolve(db: Db, ops: seq<Op>, ec: Uuid)
    requires SolveCount(db.submissions, ec) == 0 && SolveCount(Run(db, ops).submissions, ec) > 0
    ensures exists j: nat :: AcceptedAt(db, ops, j, ec)
  {
    var n := |ops| - 1;
    var before, op := Run(db, ops[..n]), ops[n];
    if SolveCount(before.submissions, ec) > 0 {
      CountComesFromSolve(db, ops[..n], ec);
      var j: nat :| AcceptedAt(db, ops[..n], j, ec);
      assert ops[..n][..j] == ops[..j];
      assert AcceptedAt(db, ops, j, ec);
    } else {
      CountGrowsOnlyBySolve(before, op, ec);
      assert AcceptedAt(db, ops, n, ec);
    }
  }

  lemma CountGrowsOnlyBySolve(db: Db, op: Op, ec: Uuid)
    requires SolveCount(db.submissions, ec) == 0
    ensures SolveCount(Apply(db, op).submissions, ec) > 0 ==>
            op.Solve? && ParseUuid(op.ecText) == Some(ec) && Accepted(db, op)
  {
    match op
    case Solve(_, _, ecText, team, _, _) =>
      if Accepted(db, op) {
        SolveCountAppend(db.submissions, Submission(op.event, ParseUuid(ecText).value, team, true), ec);
      }
    case Wrong(event, ecText, team) =>
      if ParseUuid(ecText).Some? {
        SolveCountAppend(db.submissions, Submission(event, ParseUuid(ecText).value, team, false), ec);
      }
    case DeleteChallenges(ids) => SurvivingCount(db.submissions, ids, ec);
    case _ =>
  }

  lemma AcceptedMarks(db: Db, op: Op)
    requires op.Solve? && Accepted(db, op) && db.challenges.Keys <= db.minted
    ensures Marked(Apply(db, op), ParseUuid(op.ecText).value)
  {
    var ec := ParseUuid(op.ecText).value;
    SolveCountAppend(db.submissions, Submission(op.event, ec, op.team, true), ec);
  }

  lemma Sliced<T>(s: seq<T>, k: nat, i: nat)
    requires k <= i <= |s|
    ensures s[..k] + s[k..i] == s[..i]
  {
  }

  lemma RunRest(db: Db, ops: seq<Op>, k: nat, i: nat)
    requires k <= i <= |ops|
    ensures Run(db, ops[..i]) == Run(Run(db, ops[..k]), ops[k..i])
  {
    Sliced(ops, k, i);
    RunConcat(db, ops[..k], ops[k..i]);
  }

  lemma RunOne(db: Db, ops: seq<Op>, j: nat)
    requires j < |ops|
    ensures Run(db, ops[..j + 1]) == Apply(Run(db, ops[..j]), ops[j])
  {
    assert ops[..j + 1][..j] == ops[..j];
  }

  lemma SolveLeavesMark(db: Db, ops: seq<Op>, j: nat, i: nat, ec: Uuid)
    requires Inv(db) && j < i <= |ops| && AcceptedAt(db, ops, j, ec)
    ensures Marked(Run(db, ops[..i]), ec)
  {
    RunKeepsInv(db, ops[..j]);
    AcceptedMarks(Run(db, ops[..j]), ops[j]);
    RunOne(db, ops, j);
    RunRest(db, ops, j + 1, i);
    MarkStays(Run(db, ops[..j + 1]), ops[j + 1..i], ec);
  }

  lemma CountComesFromEarlierSolve(db: Db, ops: seq<Op>, i: nat, ec: Uuid)
    requires i <= |ops| && SolveCount(db.submissions, ec) == 0 && SolveCount(Run(db, ops[..i]).submissions, ec) > 0
    ensures exists j: nat :: j < i && AcceptedAt(db, ops, j, ec)
  {
    CountComesFromSolve(db, ops[..i], ec);
    var j: nat :| AcceptedAt(db, ops[..i], j, ec);
    assert ops[..i][..j] == ops[..j];
    assert AcceptedAt(db, ops, j, ec);
  }

  /** Of the calls that solve a challenge, exactly the first to commit is told it drew first blood. */
  lemma FirstBloodIsFirst(db: Db, ops: seq<Op>, i: nat, ec: Uuid)
    requires Inv(db) && SolveCount(db.submissions, ec) == 0 && AcceptedAt(db, ops, i, ec)
    ensures AnswerOf(Run(db, ops[..i]), ops[i]).firstBlood <==> !exists j: nat :: j < i && AcceptedAt(db, ops, j, ec)
  {
    if j: nat :| j < i && AcceptedAt(db, ops, j, ec) {
      SolveLeavesMark(db, ops, j, i, ec);
    }
    if SolveCount(Run(db, ops[..i]).submissions, ec) > 0 {
      CountComesFromEarlierSolve(db, ops, i, ec);
    }
  }
}
