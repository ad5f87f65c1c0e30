/** What the chart says: whom it shows, and that each line follows the team's ledger rows one by one. */
module SeriesMeaning {
  import opened Common
  import opened Ledger
  import opened Permutations
  import opened Series
  import Scoreboard

  // ---------------------------------------------------------------- who is shown

  function BoardRow(db: Db, event: Uuid, team: Uuid): Entry {
    if (event, team) in db.board then db.board[(event, team)] else Entry(0, 0, None)
  }

  /** More points, or as many and the earlier last solve, a team without one coming last. */
  ghost predicate Beats(db: Db, event: Uuid, m: Uuid, n: Uuid) {
    var a, b := BoardRow(db, event, m), BoardRow(db, event, n);
    a.points > b.points || (a.points == b.points && a.last.Some? && (b.last.None? || a.last.value < b.last.value))
  }

  ghost predicate OnChart(teams: seq<TeamSeries>, m: Uuid) { exists j :: 0 <= j < |teams| && teams[j].team == m }

  /** The lines are those of the first teams in board order, as many as fit. */
  ghost predicate TopOf(db: Db, event: Uuid, topN: nat, all: seq<Uuid>, teams: seq<TeamSeries>) {
    && Listed(db, event, all) && |teams| == |Scoreboard.Limited(all, topN)|
    && forall j :: 0 <= j < |teams| ==>
         teams[j].team == all[j] && teams[j].points == BoardRow(db, event, all[j]).points
  }

  lemma ChartIsTop(db: Db, event: Uuid, topN: nat, teams: seq<TeamSeries>) returns (all: seq<Uuid>)
    requires IsSeries(db, event, topN, teams)
    ensures TopOf(db, event, topN, all, teams)
  {
    var selected, rows, t0 :| DrawnFrom(db, event, topN, teams, selected, rows, t0);
    all :| Listed(db, event, all) && selected == Map(Line(db, event), Scoreboard.Limited(all, topN));
    forall j | 0 <= j < |teams|
      ensures teams[j].team == all[j] && teams[j].points == BoardRow(db, event, all[j]).points
    {
      assert selected[j] == Line(db, event)(all[j]);
    }
  }

  lemma NoneBeats(db: Db, event: Uuid, all: seq<Uuid>, j: nat, k: nat)
    requires Listed(db, event, all) && j < k < |all|
    ensures !Beats(db, event, all[k], all[j]) && all[j] != all[k]
  {
    var a, b := View(db.board, (event, all[k])), View(db.board, (event, all[j]));
    assert !TopBefore(db, event)(all[k], all[j]) && !Leads(a, b);
    assert a == BoardRow(db, event, all[k]) && b == BoardRow(db, event, all[j]);
  }

  lemma HasPoints(db: Db, event: Uuid, m: Uuid)
    ensures Scored(db, event, m) <==> m in db.teams && BoardRow(db, event, m).points > 0
  {
  }

  lemma ShownOrBeaten(db: Db, event: Uuid, topN: nat, all: seq<Uuid>, teams: seq<TeamSeries>, m: Uuid)
    requires TopOf(db, event, topN, all, teams) && Scored(db, event, m)
    ensures OnChart(teams, m) ||
            (|teams| == topN && forall j :: 0 <= j < |teams| ==> !Beats(db, event, m, teams[j].team))
  {
    assert m in all;
    var i :| 0 <= i < |all| && all[i] == m;
    if i < |teams| {
      assert teams[i].team == m;
    } else {
      forall j | 0 <= j < |teams| ensures !Beats(db, event, m, teams[j].team) {
        NoneBeats(db, event, all, j, i);
      }
    }
  }

  /** Exactly teams with points are shown, none below one it beats, and none left out that beats one that is shown. */
  lemma ChartShowsTheTop(db: Db, event: Uuid, topN: nat, teams: seq<TeamSeries>)
    requires IsSeries(db, event, topN, teams)
    ensures |teams| <= topN
    ensures forall j :: 0 <= j < |teams| ==>
              teams[j].team in db.teams && teams[j].points == BoardRow(db, event, teams[j].team).points > 0
    ensures forall j, k :: 0 <= j < k < |teams| ==>
              teams[j].team != teams[k].team && !Beats(db, event, teams[k].team, teams[j].team)
    ensures forall m :: m in db.teams && BoardRow(db, event, m).points > 0 ==>
              OnChart(teams, m) ||
              (|teams| == topN && forall j :: 0 <= j < |teams| ==> !Beats(db, event, m, teams[j].team))
  {
    var all := ChartIsTop(db, event, topN, teams);
    forall j | 0 <= j < |teams| ensures Scored(db, event, all[j]) {
      assert all[j] in all;
    }
    forall m ensures Scored(db, event, m) <==> m in db.teams && BoardRow(db, event, m).points > 0 {
      HasPoints(db, event, m);
    }
    forall j, k | 0 <= j < k < |teams|
      ensures teams[j].team != teams[k].team && !Beats(db, event, teams[k].team, teams[j].team)
    {
      NoneBeats(db, event, all, j, k);
    }
    forall m | m in db.teams && BoardRow(db, event, m).points > 0
      ensures OnChart(teams, m) ||
              (|teams| == topN && forall j :: 0 <= j < |teams| ==> !Beats(db, event, m, teams[j].team))
    {
      ShownOrBeaten(db, event, topN, all, teams, m);
    }
  }

  // ---------------------------------------------------------------- what a line says

  lemma {:induction false} OfTeamsCounts(ledger: seq<ScoreEvent>, event: Uuid, ids: set<Uuid>)
    ensures forall r :: multiset(OfTeams(ledger, event, ids))[r] ==
                        if r.event == event && r.team in ids then multiset(ledger)[r] else 0
  {
    if ledger != [] {
      var n := |ledger| - 1;
      OfTeamsCounts(ledger[..n], event, ids);
      assert ledger == ledger[..n] + [ledger[n]];
    }
  }

  /** The team's ledger rows in the event, each as often as it is there, none before one that is earlier. */
  ghost predicate RowsOf(db: Db, event: Uuid, team: Uuid, own: seq<ScoreEvent>) {
    && (forall r :: multiset(own)[r] == if r.event == event && r.team == team then multiset(db.ledger)[r] else 0)
    && forall k, l :: 0 <= k < l < |own| ==> own[k].at <= own[l].at
  }

  lemma OwnAreRowsOf(db: Db, event: Uuid, ids: set<Uuid>, rows: seq<ScoreEvent>, team: Uuid)
    requires IsRows(db, event, ids, rows) && team in ids
    ensures RowsOf(db, event, team, Own(rows, team))
  {
    var own := Own(rows, team);
    OfTeamsCounts(db.ledger, event, ids);
    OwnMembers(rows, team);
    OwnOrdered(rows, team);
    forall k, l | 0 <= k < l < |own| ensures own[k].at <= own[l].at {
      assert !AtBefore(own[l], own[k]);
    }
  }

  /** The line starts at zero and moves, at the time of each row, by the points of that row. */
  ghost predicate Follows(data: seq<Point>, own: seq<ScoreEvent>) {
    && |data| == 1 + |own| && data[0].score == 0
    && forall k :: 0 <= k < |own| ==> data[k + 1] == Point(own[k].at, data[k].score + own[k].points)
  }

  lemma SumPrefix(own: seq<ScoreEvent>, k: nat)
    requires k < |own|
    ensures Sum(own[..k + 1]) == Sum(own[..k]) + own[k].points
  {
    assert own[..k + 1] == own[..k] + [own[k]];
    SumAppend(own[..k], own[k]);
  }

  lemma CurveFollows(data: seq<Point>, t0: Time, own: seq<ScoreEvent>)
    requires IsCurve(data, t0, own)
    ensures Follows(data, own)
  {
    forall k | 0 <= k < |data| ensures data[k].score == Sum(own[..k]) {
      if k > 0 {
        assert data[k - 1 + 1] == Point(own[k - 1].at, Sum(own[..k - 1 + 1]));
      }
    }
    forall k | 0 <= k < |own| ensures data[k + 1] == Point(own[k].at, data[k].score + own[k].points) {
      SumPrefix(own, k);
    }
  }

  /**
   * Each line of the chart follows its team's ledger rows in time order; all lines start at one time, which, as long
   * as no row is from the zero time, is the earliest of any row drawn.
   */
  lemma LinesFollowTheLedger(db: Db, event: Uuid, topN: nat, teams: seq<TeamSeries>)
    requires IsSeries(db, event, topN, teams)
    ensures forall j :: 0 <= j < |teams| ==> Drawn(db, event, teams[j])
    ensures (forall r :: r in db.ledger ==> r.at != 0) ==>
              forall j, k, l :: 0 <= j < |teams| && 0 <= k < |teams| && 0 <= l < |teams[k].data| ==>
                teams[j].data[0].t <= teams[k].data[l].t
  {
    var selected, rows, t0 :| DrawnFrom(db, event, topN, teams, selected, rows, t0);
    forall j | 0 <= j < |teams|
      ensures Drawn(db, event, teams[j]) && IsCurve(teams[j].data, t0, Own(rows, teams[j].team))
    {
      assert selected[j] in selected && teams[j].team in IdsOf(selected);
      OwnAreRowsOf(db, event, IdsOf(selected), rows, teams[j].team);
      CurveFollows(teams[j].data, t0, Own(rows, teams[j].team));
    }
    if forall r :: r in db.ledger ==> r.at != 0 {
      RowsInLedger(db, event, IdsOf(selected), rows);
      forall k, l | 0 <= k < |teams| && 0 <= l < |teams[k].data| ensures t0 <= teams[k].data[l].t {
        LaterThanOrigin(teams[k], t0, rows, l);
      }
    }
  }

  ghost predicate Drawn(db: Db, event: Uuid, line: TeamSeries) {
    exists own :: RowsOf(db, event, line.team, own) && Follows(line.data, own)
  }

  lemma RowsInLedger(db: Db, event: Uuid, ids: set<Uuid>, rows: seq<ScoreEvent>)
    requires IsRows(db, event, ids, rows)
    ensures forall r :: r in rows ==> r in db.ledger
  {
    OfTeamsCounts(db.ledger, event, ids);
    forall r | r in rows ensures r in db.ledger {
      assert r in multiset(rows);
      assert multiset(db.ledger)[r] > 0;
    }
  }

  lemma LaterThanOrigin(line: TeamSeries, t0: Time, rows: seq<ScoreEvent>, l: nat)
    requires IsOrigin(t0, rows) && (forall r :: r in rows ==> r.at != ZeroTime)
    requires IsCurve(line.data, t0, Own(rows, line.team)) && l < |line.data|
    ensures t0 <= line.data[l].t
  {
    if l > 0 {
      var own := Own(rows, line.team);
      OwnMembers(rows, line.team);
      assert own[l - 1] in multiset(own) && own[l - 1] in multiset(rows);
      assert line.data[l - 1 + 1] == Point(own[l - 1].at, Sum(own[..l - 1 + 1]));
    }
  }
}
