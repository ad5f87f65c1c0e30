/** What a scoreboard row says about the run behind it, and what its place says about the others. */
module ScoreboardRows {
  import opened Common
  import opened Ledger
  import opened LedgerRuns
  import LedgerHistory
  import opened Sorting
  import Permutations
  import opened Scoreboard

  // ---------------------------------------------------------------- who is shown

  /** The roster lists a team of an event once, and teams are never renamed. */
  lemma {:induction false} RosterSound(events: set<Uuid>, teams: map<Uuid, string>, ops: seq<Op>)
    ensures var db := Run(Fresh(events, teams), ops);
            && db.teams == teams && Permutations.Distinct(db.roster)
            && forall at :: at in db.roster ==> at.1 in teams
  {
    if ops != [] {
      var n := |ops| - 1;
      var db := Run(Fresh(events, teams), ops[..n]);
      RosterSound(events, teams, ops[..n]);
      if ops[n].UnassignTeam? {
        DroppedSound(db.roster, (ops[n].event, ops[n].team));
      }
    }
  }

  lemma {:induction false} DroppedSound(roster: seq<Spot>, at: Spot)
    requires Permutations.Distinct(roster)
    ensures Permutations.Distinct(Dropped(roster, at)) && forall x :: x in Dropped(roster, at) ==> x in roster
  {
    if roster != [] {
      var n := |roster| - 1;
      DroppedSound(roster[..n], at);
      assert roster[n] !in roster[..n];
    }
  }

  lemma {:induction false} JoinedOnce(db: Db, event: Uuid, roster: seq<Spot>)
    requires Permutations.Distinct(roster)
    ensures forall i, j :: 0 <= i < j < |Joined(db, event, roster)| ==>
              Joined(db, event, roster)[i].team != Joined(db, event, roster)[j].team
  {
    if roster != [] {
      var rest := roster[1..];
      assert forall i :: 0 <= i < |rest| ==> rest[i] == roster[i + 1];
      JoinedOnce(db, event, rest);
      JoinedMembers(db, event, rest);
      var tail := Joined(db, event, rest);
      forall j | 0 <= j < |tail| && roster[0].0 == event ensures tail[j].team != roster[0].1 {
        assert tail[j] in tail;
      }
    }
  }

  /** The row is what the run made of the team: its name, its ledger, and its last committed solve. */
  ghost predicate TrueRow(events: set<Uuid>, teams: map<Uuid, string>, ops: seq<Op>, event: Uuid, r: ScoreRow) {
    var start, at := Fresh(events, teams), (event, r.team);
    var db := Run(start, ops);
    && at in db.roster && r.team in teams && r.name == teams[r.team]
    && r.points == Points(db.ledger, at) && r.solves == SolveRows(db.ledger, at)
    && (r.last.None? <==> forall i: nat :: !LedgerHistory.SolvedBy(start, ops, i, at))
    && forall i: nat :: LedgerHistory.LastSolvedBy(start, ops, i, at) ==> r.last == Some(ops[i].now)
  }

  lemma RankingMember(db: Db, event: Uuid, r: ScoreRow)
    ensures r in Ranking(db, event) <==> r in Joined(db, event, db.roster)
  {
    SortMembers(Joined(db, event, db.roster), Ahead);
    assert r in Ranking(db, event) <==> r in multiset(Ranking(db, event));
    assert r in Joined(db, event, db.roster) <==> r in multiset(Joined(db, event, db.roster));
  }

  lemma RowsAreTrue(events: set<Uuid>, teams: map<Uuid, string>, ops: seq<Op>, event: Uuid, r: ScoreRow)
    requires r in Ranking(Run(Fresh(events, teams), ops), event)
    ensures TrueRow(events, teams, ops, event, r)
  {
    var start := Fresh(events, teams);
    var db := Run(start, ops);
    RankingMember(db, event, r);
    JoinedMembers(db, event, db.roster);
    RosterSound(events, teams, ops);
    ScoreboardEqualsLedger(events, teams, ops, (event, r.team));
    LedgerHistory.LastIsLastSolve(start, ops, (event, r.team));
  }

  ghost predicate ShownAt(s: seq<ScoreRow>, i: nat, team: Uuid) { i < |s| && s[i].team == team }

  lemma TeamsAreShown(events: set<Uuid>, teams: map<Uuid, string>, ops: seq<Op>, event: Uuid)
    ensures var db := Run(Fresh(events, teams), ops);
            && (forall team :: (event, team) in db.roster ==> exists i: nat :: ShownAt(Ranking(db, event), i, team))
            && forall i, j :: 0 <= i < j < |Ranking(db, event)| ==>
                 Ranking(db, event)[i].team != Ranking(db, event)[j].team
  {
    var db := Run(Fresh(events, teams), ops);
    var rows, s := Joined(db, event, db.roster), Ranking(db, event);
    RosterSound(events, teams, ops);
    JoinedMembers(db, event, db.roster);
    forall team | (event, team) in db.roster ensures exists i: nat :: ShownAt(s, i, team) {
      var k :| 0 <= k < |db.roster| && db.roster[k] == (event, team);
      var r := RowFor(db, event, team);
      assert r in rows;
      RankingMember(db, event, r);
      var i :| 0 <= i < |s| && s[i] == r;
      assert ShownAt(s, i, team);
    }
    JoinedOnce(db, event, db.roster);
    SortMembers(rows, Ahead);
    OnceEach(rows, s);
  }

  lemma OnceEach(s: seq<ScoreRow>, t: seq<ScoreRow>)
    requires multiset(s) == multiset(t) && forall i, j :: 0 <= i < j < |s| ==> s[i].team != s[j].team
    ensures forall i, j :: 0 <= i < j < |t| ==> t[i].team != t[j].team
  {
    assert Permutations.Distinct(s);
    Permutations.PermutedDistinct(s, t);
    forall i, j | 0 <= i < j < |t| ensures t[i].team != t[j].team {
      Permutations.PermutedMember(s, t, t[i]);
      Permutations.PermutedMember(s, t, t[j]);
      var k :| 0 <= k < |s| && s[k] == t[i];
      var l :| 0 <= l < |s| && s[l] == t[j];
      assert k != l;
    }
  }

  // ---------------------------------------------------------------- who is above whom

  /** More points; on equal points the earlier last solve, a team without one last; then the smaller name. */
  ghost predicate Above(a: ScoreRow, b: ScoreRow) {
    || a.points > b.points
    || (a.points == b.points && a.last.Some? && (b.last.None? || a.last.value < b.last.value))
    || (a.points == b.points && a.last == b.last && AlphabeticallyBefore(a.name, b.name))
  }

  lemma AheadIsAbove(a: ScoreRow, b: ScoreRow)
    ensures Ahead(a, b) <==> Above(a, b)
  {
    StringLessIs(a.name, b.name);
  }

  /** Of any two rows the upper is above the lower, or they are level in everything, the name included. */
  lemma RowsInOrder(db: Db, event: Uuid, i: nat, j: nat)
    requires i < j < |Ranking(db, event)|
    ensures var a, b := Ranking(db, event)[i], Ranking(db, event)[j];
            !Above(b, a) && (Above(a, b) || (a.points == b.points && a.last == b.last && a.name == b.name))
  {
    var a, b := Ranking(db, event)[i], Ranking(db, event)[j];
    AheadIsStrict();
    Permutations.SortOrders(Joined(db, event, db.roster), Ahead);
    AheadIsAbove(a, b);
    AheadIsAbove(b, a);
    StringLessTotal(a.name, b.name);
  }

  // ---------------------------------------------------------------- the board

  /**
   * After any run, the board an event is shown: rows numbered from 1, each the true row of a different rostered team,
   * in order; with room for them all, every rostered team is on it, and a full board leaves out only teams that none
   * of its rows is below.
   */
  lemma BoardShowsTheRun(events: set<Uuid>, teams: map<Uuid, string>, ops: seq<Op>, event: Uuid, limit: nat,
                         out: seq<RankedRow>)
    requires IsBoard(Run(Fresh(events, teams), ops), event, limit, out)
    ensures |out| <= limit
    ensures forall i :: 0 <= i < |out| ==> out[i].rank == i + 1 && TrueRow(events, teams, ops, event, out[i].row)
    ensures forall i, j :: 0 <= i < j < |out| ==>
              out[i].row.team != out[j].row.team && !Above(out[j].row, out[i].row) &&
              (out[i].row.name != out[j].row.name ==> Above(out[i].row, out[j].row))
    ensures forall team :: (event, team) in Run(Fresh(events, teams), ops).roster ==>
              OnBoard(out, team) ||
              (|out| == limit && LeftOff(events, teams, ops, event, out, team))
  {
    var db := Run(Fresh(events, teams), ops);
    var s := Ranking(db, event);
    TeamsAreShown(events, teams, ops, event);
    forall i | 0 <= i < |s| ensures TrueRow(events, teams, ops, event, s[i]) {
      RowsAreTrue(events, teams, ops, event, s[i]);
    }
    forall i, j | 0 <= i < j < |s|
      ensures !Above(s[j], s[i]) && (s[i].name != s[j].name ==> Above(s[i], s[j]))
    {
      RowsInOrder(db, event, i, j);
    }
    forall team | (event, team) in db.roster
      ensures OnBoard(out, team) ||
              (|out| == limit && LeftOff(events, teams, ops, event, out, team))
    {
      var i: nat :| ShownAt(s, i, team);
      if i < |out| {
        assert out[i].row.team == team;
      } else {
        assert s[i].team == team && TrueRow(events, teams, ops, event, s[i]) && AllAbove(out, s[i]);
      }
    }
  }

  ghost predicate OnBoard(out: seq<RankedRow>, team: Uuid) { exists i :: 0 <= i < |out| && out[i].row.team == team }

  /** The row is above none of the board's. */
  ghost predicate AllAbove(out: seq<RankedRow>, r: ScoreRow) { forall i :: 0 <= i < |out| ==> !Above(r, out[i].row) }

  /** The team's true row is above none of the board's. */
  ghost predicate LeftOff(events: set<Uuid>, teams: map<Uuid, string>, ops: seq<Op>, event: Uuid, out: seq<RankedRow>,
                          team: Uuid)
  {
    exists r: ScoreRow :: r.team == team && TrueRow(events, teams, ops, event, r) && AllAbove(out, r)
  }
}
