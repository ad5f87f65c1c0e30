/** The ranked scoreboard of an event. */
module Scoreboard {
  import opened Common
  import opened Ledger
  import opened Sorting

  datatype ScoreRow = ScoreRow(team: Uuid, name: string, points: int, solves: int, last: Option<Time>)

  datatype RankedRow = RankedRow(rank: int, row: ScoreRow)

  /** last_solve_at ASC NULLS LAST */
  predicate Earlier(a: Option<Time>, b: Option<Time>) { a.Some? && (b.None? || a.value < b.value) }

  /** ORDER BY points DESC, last_solve_at ASC NULLS LAST, name ASC */
  predicate Ahead(a: ScoreRow, b: ScoreRow) {
    a.points > b.points ||
    (a.points == b.points && (Earlier(a.last, b.last) || (a.last == b.last && StringLess(a.name, b.name))))
  }

  lemma AheadIsStrict()
    ensures StrictOrder(Ahead)
  {
    forall x: ScoreRow ensures !Ahead(x, x) { StringLessIrreflexive(x.name); }
    forall x: ScoreRow, y: ScoreRow, z: ScoreRow | Ahead(x, y) && Ahead(y, z) ensures Ahead(x, z) {
      if StringLess(x.name, y.name) && StringLess(y.name, z.name) {
        StringLessTransitive(x.name, y.name, z.name);
      }
    }
  }

  // ---------------------------------------------------------------- the query

  function RowFor(db: Db, event: Uuid, team: Uuid): ScoreRow
    requires team in db.teams
  {
    var e := View(db.board, (event, team));
    ScoreRow(team, db.teams[team], e.points, e.solves, e.last)
  }

  /** event_teams JOIN teams LEFT JOIN scoreboard_entries */
  function Joined(db: Db, event: Uuid, roster: seq<Spot>): seq<ScoreRow> {
    if roster == [] then []
    else if roster[0].0 == event && roster[0].1 in db.teams
    then [RowFor(db, event, roster[0].1)] + Joined(db, event, roster[1..])
    else Joined(db, event, roster[1..])
  }

  function Ranking(db: Db, event: Uuid): seq<ScoreRow> { Sort(Joined(db, event, db.roster), Ahead) }

  function Limited<T>(s: seq<T>, limit: nat): seq<T> { if |s| <= limit then s else s[..limit] }

  ghost predicate IsBoard(db: Db, event: Uuid, limit: nat, out: seq<RankedRow>) {
    && |out| == |Limited(Ranking(db, event), limit)|
    && forall i :: 0 <= i < |out| ==> out[i] == RankedRow(i + 1, Ranking(db, event)[i])
  }

  /** The Go loop that numbers the rows it scans. */
  method Scoreboard(db: Db, event: Uuid, limit: nat) returns (out: seq<RankedRow>)
    ensures IsBoard(db, event, limit, out)
  {
    var rows := Limited(Ranking(db, event), limit);
    out := [];
    var i := 0;
    for k := 0 to |rows|
      invariant i == k == |out|
      invariant forall j :: 0 <= j < k ==> out[j] == RankedRow(j + 1, rows[j])
    {
      i := i + 1;
      out := out + [RankedRow(i, rows[k])];
    }
  }

  // ---------------------------------------------------------------- what the ranking is

  /** teams_org_name_uniq and the primary key of event_teams, for the teams of one event. */
  ghost predicate DistinctTeams(db: Db, event: Uuid) {
    forall i, j :: 0 <= i < j < |db.roster| && db.roster[i].0 == event && db.roster[j].0 == event &&
                   db.roster[i].1 in db.teams && db.roster[j].1 in db.teams
      ==> db.roster[i].1 != db.roster[j].1 && db.teams[db.roster[i].1] != db.teams[db.roster[j].1]
  }

  lemma {:induction false} JoinedMembers(db: Db, event: Uuid, roster: seq<Spot>)
    ensures forall r :: r in Joined(db, event, roster) <==>
              exists i :: 0 <= i < |roster| && roster[i].0 == event && roster[i].1 in db.teams &&
                          r == RowFor(db, event, roster[i].1)
  {
    if roster != [] {
      JoinedMembers(db, event, roster[1..]);
      forall r ensures r in Joined(db, event, roster) <==>
                       exists i :: 0 <= i < |roster| && roster[i].0 == event && roster[i].1 in db.teams &&
                                   r == RowFor(db, event, roster[i].1)
      {
        if r in Joined(db, event, roster[1..]) {
          var i :| 0 <= i < |roster[1..]| && roster[1..][i].0 == event && roster[1..][i].1 in db.teams &&
                   r == RowFor(db, event, roster[1..][i].1);
          assert roster[i + 1] == roster[1..][i];
        }
        if i :| 0 < i < |roster| && roster[i].0 == event && roster[i].1 in db.teams &&
               r == RowFor(db, event, roster[i].1) {
          assert roster[1..][i - 1] == roster[i];
        }
      }
    }
  }

  ghost predicate DistinctNames(rows: seq<ScoreRow>) {
    forall i, j :: 0 <= i < j < |rows| ==> rows[i].name != rows[j].name && rows[i].team != rows[j].team
  }

  lemma {:induction false} JoinedDistinct(db: Db, event: Uuid, roster: seq<Spot>)
    requires DistinctTeams(db.(roster := roster), event)
    ensures DistinctNames(Joined(db, event, roster))
  {
    if roster != [] {
      var rest := roster[1..];
      assert forall i :: 0 <= i < |rest| ==> rest[i] == roster[i + 1];
      JoinedDistinct(db, event, rest);
      JoinedMembers(db, event, rest);
      var tail := Joined(db, event, rest);
      forall j | 0 <= j < |tail| && roster[0].0 == event && roster[0].1 in db.teams
        ensures tail[j].name != db.teams[roster[0].1] && tail[j].team != roster[0].1
      {
        assert tail[j] in tail;
        var i :| 0 <= i < |rest| && rest[i].0 == event && rest[i].1 in db.teams &&
                 tail[j] == RowFor(db, event, rest[i].1);
        assert roster[i + 1] == rest[i];
      }
    }
  }

  lemma NamesCompare(rows: seq<ScoreRow>)
    requires DistinctNames(rows)
    ensures Comparable(rows, Ahead)
  {
    forall i, j | 0 <= i < j < |rows| ensures Ahead(rows[i], rows[j]) || Ahead(rows[j], rows[i]) {
      StringLessTotal(rows[i].name, rows[j].name);
    }
  }

  /** The ranking lists exactly the event's teams, strictly ordered, and nothing else does. */
  lemma RankingIsTheOrder(db: Db, event: Uuid, s: seq<ScoreRow>)
    requires DistinctTeams(db, event)
    ensures multiset(s) == multiset(Joined(db, event, db.roster)) && Sorted(s, Ahead) <==> s == Ranking(db, event)
  {
    var rows := Joined(db, event, db.roster);
    AheadIsStrict();
    assert db.(roster := db.roster) == db;
    JoinedDistinct(db, event, db.roster);
    NamesCompare(rows);
    SortSorts(rows, Ahead);
    SortMembers(rows, Ahead);
    if multiset(s) == multiset(rows) && Sorted(s, Ahead) {
      SortedUnique(s, Ranking(db, event), Ahead);
    }
  }

  /** A team's rank is one more than the number of teams strictly ahead of it. */
  lemma RankCountsTeamsAhead(db: Db, event: Uuid, i: nat)
    requires DistinctTeams(db, event) && i < |Ranking(db, event)|
    ensures i + 1 == 1 + |AheadOf(Joined(db, event, db.roster), Ahead, Ranking(db, event)[i])|
  {
    var rows, s := Joined(db, event, db.roster), Ranking(db, event);
    RankingIsTheOrder(db, event, s);
    AheadIsStrict();
    CountBefore(s, Ahead, i);
    forall r ensures r in rows <==> r in s { assert r in multiset(rows) <==> r in multiset(s); }
    assert AheadOf(rows, Ahead, s[i]) == AheadOf(s, Ahead, s[i]);
  }

  // ---------------------------------------------------------------- a solve moves one team up

  function Removed<T>(s: seq<T>, p: nat): seq<T>
    requires p < |s|
  {
    s[..p] + s[p + 1..]
  }

  lemma RemovedMembers<T>(s: seq<T>, p: nat)
    requires p < |s|
    ensures multiset(Removed(s, p)) == multiset(s) - multiset{s[p]}
  {
    assert s == s[..p] + [s[p]] + s[p + 1..];
  }

  lemma RemovedSorted(s: seq<ScoreRow>, p: nat)
    requires p < |s| && Sorted(s, Ahead)
    ensures Sorted(Removed(s, p), Ahead)
  {
    var t := Removed(s, p);
    forall i, j | 0 <= i < j < |t| ensures Ahead(t[i], t[j]) {
      assert t[i] == s[if i < p then i else i + 1] && t[j] == s[if j < p then j else j + 1];
    }
  }

  /** Changing one team's board entry changes one row of the join. */
  lemma {:induction false} JoinedAfter(db: Db, db': Db, event: Uuid, roster: seq<Spot>, team: Uuid)
    requires db'.teams == db.teams && team in db.teams && DistinctTeams(db.(roster := roster), event)
    requires forall m :: m in db.teams && m != team ==> RowFor(db', event, m) == RowFor(db, event, m)
    ensures (event, team) !in roster ==> Joined(db', event, roster) == Joined(db, event, roster)
    ensures (event, team) in roster ==>
              RowFor(db, event, team) in Joined(db, event, roster) &&
              multiset(Joined(db', event, roster)) ==
              multiset(Joined(db, event, roster)) - multiset{RowFor(db, event, team)} +
               multiset{RowFor(db', event, team)}
  {
    if roster != [] {
      var rest := roster[1..];
      assert forall i :: 0 <= i < |rest| ==> rest[i] == roster[i + 1];
      JoinedAfter(db, db', event, rest, team);
      if roster[0] == (event, team) {
        forall i | 0 <= i < |rest| ensures rest[i] != (event, team) { assert roster[i + 1] == rest[i]; }
      }
    }
  }

  lemma PointsFall(s: seq<ScoreRow>, i: nat, j: nat)
    requires Sorted(s, Ahead) && i <= j < |s|
    ensures s[i].points >= s[j].points
  {
    assert i < j ==> Ahead(s[i], s[j]);
  }

  lemma SolverNotPassed(s: seq<ScoreRow>, p: nat, s': seq<ScoreRow>, q: nat)
    requires Sorted(s, Ahead) && Sorted(s', Ahead) && p < |s| == |s'| && q < |s'|
    requires Removed(s, p) == Removed(s', q) && s[p].points < s'[q].points
    ensures q <= p
  {
    var m := if p < q then p else q;
    assert p < q ==> Removed(s', q)[p] == s'[p] && Removed(s, p)[p] == s[p + 1];
    PointsFall(s', m, q);
    if p + 1 < |s| {
      PointsFall(s, p, p + 1);
    }
  }

  /** Exchanging one entry for a better one leaves the others in order and moves the entry no further down. */
  lemma ReplacedOne(s: seq<ScoreRow>, p: nat, s': seq<ScoreRow>, now: ScoreRow) returns (q: nat)
    requires Sorted(s, Ahead) && Sorted(s', Ahead) && p < |s|
    requires multiset(s') == multiset(s) - multiset{s[p]} + multiset{now} && s[p].points < now.points
    ensures q <= p < |s'| && s'[q] == now && Removed(s', q) == Removed(s, p)
  {
    assert s[p] in multiset(s) && now in multiset(s');
    q :| q < |s'| && s'[q] == now;
    RemovedMembers(s, p);
    RemovedMembers(s', q);
    RemovedSorted(s, p);
    RemovedSorted(s', q);
    AheadIsStrict();
    SortedUnique(Removed(s, p), Removed(s', q), Ahead);
    assert |Removed(s, p)| == |s| - 1 && |Removed(s', q)| == |s'| - 1;
    SolverNotPassed(s, p, s', q);
  }

  /**
   * After a solve worth more than nothing the ranking of everybody else is what it was, and the solver
   * stands no further down than before.
   */
  lemma SolveMovesOnlyTheSolverUp(db: Db, op: Op, p: nat) returns (q: nat)
    requires op.Solve? && Accepted(db, op) && op.points + EarnedBonus(db, op) > 0
    requires DistinctTeams(db, op.event) && (op.event, op.team) in db.roster
    requires p < |Ranking(db, op.event)| && Ranking(db, op.event)[p].team == op.team
    ensures q <= p < |Ranking(Apply(db, op), op.event)| && Ranking(Apply(db, op), op.event)[q].team == op.team
    ensures Removed(Ranking(Apply(db, op), op.event), q) == Removed(Ranking(db, op.event), p)
  {
    var event, s, s' := op.event, Ranking(db, op.event), Ranking(AfterSolve(db, op), op.event);
    SolveChangesOneRow(db, op, p);
    RankingIsTheOrder(db, event, s);
    RankingIsTheOrder(AfterSolve(db, op), event, s');
    q := ReplacedOne(s, p, s', RowFor(AfterSolve(db, op), event, op.team));
  }

  lemma SolveChangesOneRow(db: Db, op: Op, p: nat)
    requires op.Solve? && Accepted(db, op)
    requires DistinctTeams(db, op.event) && (op.event, op.team) in db.roster
    requires p < |Ranking(db, op.event)| && Ranking(db, op.event)[p].team == op.team
    ensures Ranking(db, op.event)[p] == RowFor(db, op.event, op.team)
    ensures multiset(Ranking(AfterSolve(db, op), op.event)) ==
            multiset(Ranking(db, op.event)) - multiset{RowFor(db, op.event, op.team)} +
            multiset{RowFor(AfterSolve(db, op), op.event, op.team)}
  {
    var db', event := AfterSolve(db, op), op.event;
    assert db.(roster := db.roster) == db;
    JoinedAfter(db, db', event, db.roster, op.team);
    JoinedMembers(db, event, db.roster);
    SortMembers(Joined(db, event, db.roster), Ahead);
    SortMembers(Joined(db', event, db.roster), Ahead);
    assert Ranking(db, event)[p] in multiset(Ranking(db, event));
    assert Ranking(db, event)[p] in Joined(db, event, db.roster);
  }
}
