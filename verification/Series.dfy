/** The score-over-time chart, built from ledger rows in time order. */
module Series {
  import opened Common
  import opened Ledger
  import opened LedgerInvariant
  import opened Sorting
  import opened Permutations
  import Scoreboard

  datatype Point = Point(t: Time, score: int)

  datatype TeamSeries = TeamSeries(team: Uuid, points: int, data: seq<Point>)

  /** Go's zero time, the initial value of t0. */
  const ZeroTime: Time := 0

  // ---------------------------------------------------------------- specification

  /** A team's own rows, in the order given. */
  function Own(rows: seq<ScoreEvent>, team: Uuid): seq<ScoreEvent> {
    if rows == [] then []
    else
      var n := |rows| - 1;
      Own(rows[..n], team) + if rows[n].team == team then [rows[n]] else []
  }

  function Sum(rows: seq<ScoreEvent>): int {
    if rows == [] then 0 else Sum(rows[..|rows| - 1]) + rows[|rows| - 1].points
  }

  /** (t0, 0), then one point per own row: its time and the sum of the own rows up to it. */
  ghost predicate IsCurve(data: seq<Point>, t0: Time, own: seq<ScoreEvent>) {
    && |data| == 1 + |own|
    && data[0] == Point(t0, 0)
    && forall k :: 0 <= k < |own| ==> data[k + 1] == Point(own[k].at, Sum(own[..k + 1]))
  }

  lemma CurveExtends(data: seq<Point>, t0: Time, own: seq<ScoreEvent>, r: ScoreEvent)
    requires IsCurve(data, t0, own)
    ensures IsCurve(data + [Point(r.at, Sum(own) + r.points)], t0, own + [r])
  {
    var o := own + [r];
    assert o[..|own|] == own;
    forall k | 0 <= k < |o|
      ensures (data + [Point(r.at, Sum(own) + r.points)])[k + 1] == Point(o[k].at, Sum(o[..k + 1]))
    {
      if k < |own| {
        assert o[..k + 1] == own[..k + 1];
      } else {
        assert o[..k + 1] == o;
      }
    }
  }

  // ---------------------------------------------------------------- the queries

  /** ORDER BY points DESC, last_solve_at ASC NULLS LAST */
  predicate Leads(a: Entry, b: Entry) {
    a.points > b.points || (a.points == b.points && Scoreboard.Earlier(a.last, b.last))
  }

  function TopBefore(db: Db, event: Uuid): (Uuid, Uuid) -> bool {
    (x: Uuid, y: Uuid) => Leads(View(db.board, (event, x)), View(db.board, (event, y)))
  }

  /** JOIN teams … WHERE points > 0; a missing row reads as zero points. */
  predicate Scored(db: Db, event: Uuid, team: Uuid) { team in db.teams && View(db.board, (event, team)).points > 0 }

  function Line(db: Db, event: Uuid): Uuid -> TeamSeries {
    (m: Uuid) => TeamSeries(m, View(db.board, (event, m)).points, [])
  }

  /** Every scored team once, in board order; teams level on both columns in any order. */
  ghost predicate Listed(db: Db, event: Uuid, all: seq<Uuid>) {
    Permutations.Distinct(all) && (forall m :: m in all <==> Scored(db, event, m)) && Ordered(all, TopBefore(db, event))
  }

  /** The result of the first query: LIMIT topN. */
  ghost predicate IsSelection(db: Db, event: Uuid, topN: nat, selected: seq<TeamSeries>) {
    exists all :: Listed(db, event, all) && selected == Map(Line(db, event), Scoreboard.Limited(all, topN))
  }

  /** WHERE event_id = event AND team_id = ANY(ids), in ledger order. */
  function OfTeams(ledger: seq<ScoreEvent>, event: Uuid, ids: set<Uuid>): seq<ScoreEvent> {
    if ledger == [] then []
    else
      var n := |ledger| - 1;
      OfTeams(ledger[..n], event, ids) + if ledger[n].event == event && ledger[n].team in ids then [ledger[n]] else []
  }

  /** ORDER BY occurred_at */
  predicate AtBefore(r: ScoreEvent, q: ScoreEvent) { r.at < q.at }

  /** The result of the second query; rows of one instant in any order. */
  ghost predicate IsRows(db: Db, event: Uuid, ids: set<Uuid>, rows: seq<ScoreEvent>) {
    Permuted(OfTeams(db.ledger, event, ids), rows) && Ordered(rows, AtBefore)
  }

  function IdsOf(selected: seq<TeamSeries>): set<Uuid> { set x | x in selected :: x.team }

  lemma TopIsStrict(db: Db, event: Uuid)
    ensures StrictOrder(TopBefore(db, event))
  {
    var before := TopBefore(db, event);
    forall x: Uuid, y: Uuid ensures before(x, y) == Leads(View(db.board, (event, x)), View(db.board, (event, y))) {}
  }

  method TopTeams(db: Db, event: Uuid, topN: nat) returns (selected: seq<TeamSeries>)
    ensures IsSelection(db, event, topN, selected) && Distinct(selected)
  {
    var found: seq<Uuid> := [];
    var todo := set m | m in db.teams && Scored(db, event, m);
    while todo != {}
      invariant Permutations.Distinct(found)
      invariant forall m :: Scored(db, event, m) <==> m in found || m in todo
      invariant forall m :: m in found ==> m !in todo
      decreases |todo|
    {
      var m :| m in todo;
      found := found + [m];
      todo := todo - {m};
    }
    var all := Sort(found, TopBefore(db, event));
    TopIsStrict(db, event);
    SortOrders(found, TopBefore(db, event));
    PermutedDistinct(found, all);
    forall m ensures m in all <==> m in found {
      PermutedMember(found, all, m);
    }
    assert Listed(db, event, all);
    selected := Map(Line(db, event), Scoreboard.Limited(all, topN));
  }

  method LedgerRows(db: Db, event: Uuid, ids: set<Uuid>) returns (rows: seq<ScoreEvent>)
    ensures IsRows(db, event, ids, rows)
  {
    rows := Sort(OfTeams(db.ledger, event, ids), AtBefore);
    SortOrders(OfTeams(db.ledger, event, ids), AtBefore);
  }

  // ---------------------------------------------------------------- the loops

  ghost predicate Distinct(teams: seq<TeamSeries>) {
    forall i, j :: 0 <= i < j < |teams| ==> teams[i].team != teams[j].team
  }

  /** The lines as far as the given rows take them. */
  ghost predicate Drawn(teams: seq<TeamSeries>, selected: seq<TeamSeries>, t0: Time, rows: seq<ScoreEvent>) {
    && |teams| == |selected|
    && forall j :: 0 <= j < |teams| ==>
         teams[j].team == selected[j].team && teams[j].points == selected[j].points &&
         IsCurve(teams[j].data, t0, Own(rows, teams[j].team))
  }

  ghost predicate IsIndex(idx: map<Uuid, nat>, teams: seq<TeamSeries>) {
    && (forall x :: x in idx ==> idx[x] < |teams| && teams[idx[x]].team == x)
    && (forall j :: 0 <= j < |teams| ==> teams[j].team in idx && idx[teams[j].team] == j)
  }

  method IndexTeams(teams: seq<TeamSeries>) returns (idx: map<Uuid, nat>)
    requires Distinct(teams)
    ensures IsIndex(idx, teams)
  {
    idx := map[];
    for i := 0 to |teams|
      invariant IsIndex(idx, teams[..i])
    {
      idx := idx[teams[i].team := i];
    }
    assert teams[..|teams|] == teams;
  }

  /** The least time of the rows; the zero time stands for none. */
  ghost predicate IsOrigin(t0: Time, rows: seq<ScoreEvent>) {
    && (rows == [] ==> t0 == ZeroTime)
    && ((forall r :: r in rows ==> r.at != ZeroTime) && rows != [] ==>
          (exists r :: r in rows && r.at == t0) && forall r :: r in rows ==> t0 <= r.at)
  }

  /** The running minimum of the scan; a t0 that is still the zero time is replaced. */
  method EarliestTime(rows: seq<ScoreEvent>) returns (t0: Time)
    ensures IsOrigin(t0, rows)
  {
    t0 := ZeroTime;
    for n := 0 to |rows|
      invariant n == 0 ==> t0 == ZeroTime
      invariant (forall r :: r in rows ==> r.at != ZeroTime) && n > 0 ==>
                  (exists j :: 0 <= j < n && rows[j].at == t0) && forall j :: 0 <= j < n ==> t0 <= rows[j].at
    {
      if t0 == ZeroTime || rows[n].at < t0 {
        t0 := rows[n].at;
      }
    }
  }

  /** The chart of the event's first topN teams, drawn from a selection and its ledger rows in time order. */
  ghost predicate IsSeries(db: Db, event: Uuid, topN: nat, teams: seq<TeamSeries>) {
    exists selected, rows, t0 :: DrawnFrom(db, event, topN, teams, selected, rows, t0)
  }

  ghost predicate DrawnFrom(db: Db, event: Uuid, topN: nat, teams: seq<TeamSeries>, selected: seq<TeamSeries>,
                            rows: seq<ScoreEvent>, t0: Time)
  {
    && IsSelection(db, event, topN, selected)
    && IsRows(db, event, IdsOf(selected), rows)
    && IsOrigin(t0, rows)
    && Drawn(teams, selected, t0, rows)
  }

  /** Every line starts at zero at t0. */
  method StartLines(selected: seq<TeamSeries>, t0: Time) returns (teams: seq<TeamSeries>)
    ensures Drawn(teams, selected, t0, [])
  {
    teams := selected;
    for i := 0 to |teams|
      invariant |teams| == |selected|
      invariant forall j :: 0 <= j < |teams| ==>
                  teams[j] == if j < i then selected[j].(data := [Point(t0, 0)]) else selected[j]
    {
      teams := teams[i := teams[i].(data := [Point(t0, 0)])];
    }
  }

  method ScoreboardSeries(db: Db, event: Uuid, topN: nat) returns (teams: seq<TeamSeries>)
    ensures IsSeries(db, event, topN, teams)
  {
    var selected := TopTeams(db, event, topN);
    var idx := IndexTeams(selected);
    if |selected| == 0 {
      NoTeamsNoRows(db.ledger, event);
      assert IdsOf(selected) == {};
      assert DrawnFrom(db, event, topN, [], selected, [], ZeroTime);
      return [];
    }
    var rows := LedgerRows(db, event, IdsOf(selected));
    var t0 := EarliestTime(rows);
    teams := StartLines(selected, t0);
    teams := DrawRows(teams, selected, t0, idx, rows);
    assert DrawnFrom(db, event, topN, teams, selected, rows, t0);
  }

  lemma {:induction false} NoTeamsNoRows(ledger: seq<ScoreEvent>, event: Uuid)
    ensures OfTeams(ledger, event, {}) == []
  {
    if ledger != [] {
      NoTeamsNoRows(ledger[..|ledger| - 1], event);
    }
  }

  /** The last loop: running sums per team, and one point on the line of each row's team. */
  method DrawRows(start: seq<TeamSeries>, ghost selected: seq<TeamSeries>, ghost t0: Time,
                  idx: map<Uuid, nat>, rows: seq<ScoreEvent>)
    returns (teams: seq<TeamSeries>)
    requires Distinct(selected) && IsIndex(idx, selected) && Drawn(start, selected, t0, [])
    ensures Drawn(teams, selected, t0, rows)
  {
    teams := start;
    var running: map<Uuid, int> := map[];
    assert rows[..0] == [];
    for n := 0 to |rows|
      invariant Drawn(teams, selected, t0, rows[..n])
      invariant RunningSums(running, rows[..n])
    {
      var r := rows[n];
      ghost var was, sums := teams, running;
      running := running[r.team := (if r.team in running then running[r.team] else 0) + r.points];
      SumsStep(sums, running, rows, n);
      if r.team in idx {
        var i := idx[r.team];
        teams := teams[i := teams[i].(data := teams[i].data + [Point(r.at, running[r.team])])];
      }
      RowDrawn(was, teams, selected, t0, rows, n);
    }
    assert rows[..|rows|] == rows;
  }

  function SumFor(running: map<Uuid, int>, x: Uuid): int { if x in running then running[x] else 0 }

  ghost predicate RunningSums(running: map<Uuid, int>, rows: seq<ScoreEvent>) {
    forall x :: SumFor(running, x) == Sum(Own(rows, x))
  }

  lemma SumsStep(was: map<Uuid, int>, running: map<Uuid, int>, rows: seq<ScoreEvent>, n: nat)
    requires n < |rows| && RunningSums(was, rows[..n])
    requires running == was[rows[n].team := SumFor(was, rows[n].team) + rows[n].points]
    ensures RunningSums(running, rows[..n + 1])
  {
    OwnStep(rows, n);
    forall x ensures SumFor(running, x) == Sum(Own(rows[..n + 1], x)) {
      assert SumFor(was, x) == Sum(Own(rows[..n], x));
    }
  }

  lemma OwnStep(rows: seq<ScoreEvent>, n: nat)
    requires n < |rows|
    ensures forall x :: Own(rows[..n + 1], x) == Own(rows[..n], x) + if rows[n].team == x then [rows[n]] else []
    ensures forall x :: Sum(Own(rows[..n + 1], x)) ==
              Sum(Own(rows[..n], x)) + if rows[n].team == x then rows[n].points else 0
  {
    assert rows[..n + 1][..n] == rows[..n];
    forall x
      ensures Sum(Own(rows[..n + 1], x)) == Sum(Own(rows[..n], x)) + if rows[n].team == x then rows[n].points else 0
    {
      SumAppend(Own(rows[..n], x), rows[n]);
      assert Own(rows[..n], x) + [] == Own(rows[..n], x);
    }
  }

  function Extended(line: TeamSeries, rows: seq<ScoreEvent>, n: nat): TeamSeries
    requires n < |rows|
  {
    if line.team != rows[n].team then line
    else line.(data := line.data + [Point(rows[n].at, Sum(Own(rows[..n + 1], rows[n].team)))])
  }

  /** One more row extends the line of its team and no other. */
  lemma RowDrawn(was: seq<TeamSeries>, teams: seq<TeamSeries>, selected: seq<TeamSeries>, t0: Time,
                 rows: seq<ScoreEvent>, n: nat)
    requires n < |rows| && Drawn(was, selected, t0, rows[..n]) && |teams| == |was|
    requires forall j :: 0 <= j < |was| ==> teams[j] == Extended(was[j], rows, n)
    ensures Drawn(teams, selected, t0, rows[..n + 1])
  {
    OwnStep(rows, n);
    forall j | 0 <= j < |teams| ensures IsCurve(teams[j].data, t0, Own(rows[..n + 1], teams[j].team)) {
      CurveExtends(was[j].data, t0, Own(rows[..n], was[j].team), rows[n]);
      assert Own(rows[..n], was[j].team) + [] == Own(rows[..n], was[j].team);
    }
  }

  // ---------------------------------------------------------------- agreement with the board

  lemma SumAppend(s: seq<ScoreEvent>, r: ScoreEvent)
    ensures Sum(s + [r]) == Sum(s) + r.points
  {
    assert (s + [r])[..|s|] == s;
  }

  lemma {:induction false} SumConcat(s: seq<ScoreEvent>, t: seq<ScoreEvent>)
    ensures Sum(s + t) == Sum(s) + Sum(t)
  {
    if t == [] {
      assert s + t == s;
    } else {
      var n := |t| - 1;
      SumConcat(s, t[..n]);
      assert t == t[..n] + [t[n]];
      assert s + (t[..n] + [t[n]]) == (s + t[..n]) + [t[n]];
      SumAppend(s + t[..n], t[n]);
    }
  }

  lemma SumMiddle(a: seq<ScoreEvent>, x: ScoreEvent, b: seq<ScoreEvent>)
    ensures Sum(a + [x] + b) == Sum(a + b) + x.points
  {
    SumConcat(a + [x], b);
    SumAppend(a, x);
    SumConcat(a, b);
  }

  lemma SumWithout(s: seq<ScoreEvent>, k: nat)
    requires k < |s|
    ensures Sum(s) == Sum(DropAt(s, k)) + s[k].points
  {
    DropAtIs(s, k);
    SumMiddle(s[..k], s[k], s[k + 1..]);
  }

  /** The sum does not depend on the order in which the database returns equal times. */
  lemma {:induction false} SumOfPermutation(s: seq<ScoreEvent>, t: seq<ScoreEvent>)
    requires Permuted(s, t)
    ensures Sum(s) == Sum(t)
    decreases |s|
  {
    SameEmptiness(s, t);
    if s != [] {
      PermutedMember(s, t, s[0]);
      var k :| 0 <= k < |t| && t[k] == s[0];
      DropAtMembers(s, 0);
      DropAtMembers(t, k);
      SumOfPermutation(DropAt(s, 0), DropAt(t, k));
      SumWithout(s, 0);
      SumWithout(t, k);
    }
  }

  lemma {:induction false} OwnMembers(rows: seq<ScoreEvent>, team: Uuid)
    ensures forall r :: multiset(Own(rows, team))[r] == if r.team == team then multiset(rows)[r] else 0
  {
    if rows != [] {
      OwnMembers(rows[..|rows| - 1], team);
      assert rows == rows[..|rows| - 1] + [rows[|rows| - 1]];
    }
  }

  lemma OwnOfPermutation(s: seq<ScoreEvent>, t: seq<ScoreEvent>, team: Uuid)
    requires multiset(s) == multiset(t)
    ensures multiset(Own(s, team)) == multiset(Own(t, team))
  {
    OwnMembers(s, team);
    OwnMembers(t, team);
    var a, b := multiset(Own(s, team)), multiset(Own(t, team));
    forall r ensures a[r] == b[r] { assert a[r] == if r.team == team then multiset(s)[r] else 0; }
  }

  lemma OfTeamsStep(ledger: seq<ScoreEvent>, event: Uuid, ids: set<Uuid>)
    requires ledger != []
    ensures var last, before := ledger[|ledger| - 1], OfTeams(ledger[..|ledger| - 1], event, ids);
            OfTeams(ledger, event, ids) == if last.event == event && last.team in ids then before + [last] else before
  {
  }

  lemma OwnAppend(rows: seq<ScoreEvent>, r: ScoreEvent, team: Uuid)
    ensures Sum(Own(rows + [r], team)) == Sum(Own(rows, team)) + if r.team == team then r.points else 0
  {
    assert (rows + [r])[..|rows|] == rows;
    SumAppend(Own(rows, team), r);
    assert Own(rows, team) + [] == Own(rows, team);
  }

  lemma {:induction false} OwnPoints(ledger: seq<ScoreEvent>, event: Uuid, ids: set<Uuid>, team: Uuid)
    requires team in ids
    ensures Sum(Own(OfTeams(ledger, event, ids), team)) == Points(ledger, (event, team))
  {
    if ledger != [] {
      var n := |ledger| - 1;
      OwnPoints(ledger[..n], event, ids, team);
      OfTeamsStep(ledger, event, ids);
      OwnAppend(OfTeams(ledger[..n], event, ids), ledger[n], team);
    }
  }

  lemma {:induction false} OwnOrdered(rows: seq<ScoreEvent>, team: Uuid)
    requires Ordered(rows, AtBefore)
    ensures Ordered(Own(rows, team), AtBefore)
    ensures forall r :: r in Own(rows, team) ==> r in rows
  {
    if rows != [] {
      var n := |rows| - 1;
      OwnOrdered(rows[..n], team);
      var own := Own(rows[..n], team);
      forall i | 0 <= i < |own| ensures !AtBefore(rows[n], own[i]) {
        assert own[i] in own;
      }
    }
  }

  /** One line: its points come in time order and its last one is the team's board points. */
  ghost predicate EndsAtBoard(db: Db, event: Uuid, line: TeamSeries) {
    && Scored(db, event, line.team)
    && line.points == View(db.board, (event, line.team)).points
    && line.data != [] && line.data[0].score == 0 && line.data[|line.data| - 1].score == line.points
    && forall k, l :: 1 <= k < l < |line.data| ==> line.data[k].t <= line.data[l].t
  }

  lemma LineEndsAtBoard(db: Db, event: Uuid, ids: set<Uuid>, rows: seq<ScoreEvent>, line: TeamSeries, t0: Time)
    requires Projected(db) && line.team in ids && Scored(db, event, line.team) && IsRows(db, event, ids, rows)
    requires line.points == View(db.board, (event, line.team)).points && IsCurve(line.data, t0, Own(rows, line.team))
    ensures EndsAtBoard(db, event, line)
  {
    var team, o := line.team, Own(rows, line.team);
    OwnOrdered(rows, team);
    OwnOfPermutation(rows, OfTeams(db.ledger, event, ids), team);
    SumOfPermutation(o, Own(OfTeams(db.ledger, event, ids), team));
    OwnPoints(db.ledger, event, ids, team);
    assert ProjectedAt(db, (event, team));
    assert o[..|o|] == o;
    assert o != [] ==> line.data[|o|] == Point(o[|o| - 1].at, Sum(o[..|o| - 1 + 1]));
    forall k, l | 1 <= k < l < |line.data| ensures line.data[k].t <= line.data[l].t {
      assert line.data[k - 1 + 1].t == o[k - 1].at && line.data[l - 1 + 1].t == o[l - 1].at;
      assert !AtBefore(o[l - 1], o[k - 1]);
    }
  }

  /**
   * On one consistent state the chart shows each of the leading scored teams once, no more than topN of them; each line
   * starts at zero, runs in time order and ends at the team's board points, whatever order equal rows come in.
   */
  lemma SeriesEndsAtBoard(db: Db, event: Uuid, topN: nat, teams: seq<TeamSeries>)
    requires Projected(db) && IsSeries(db, event, topN, teams)
    ensures |teams| <= topN && Distinct(teams)
    ensures forall j :: 0 <= j < |teams| ==> EndsAtBoard(db, event, teams[j])
    ensures forall m :: Scored(db, event, m) ==> Shown(teams, m) || LeftOut(db, event, topN, teams, m)
  {
    var selected, rows, t0 :| DrawnFrom(db, event, topN, teams, selected, rows, t0);
    var all: seq<Uuid> :| Listed(db, event, all) && selected == Map(Line(db, event), Scoreboard.Limited(all, topN));
    DrawnTeams(db, event, topN, all, teams, selected, rows, t0);
    forall j | 0 <= j < |teams| ensures EndsAtBoard(db, event, teams[j]) {
      DrawnEndsAtBoard(db, event, topN, all, teams, selected, rows, t0, j);
    }
  }

  lemma DrawnTeams(db: Db, event: Uuid, topN: nat, all: seq<Uuid>, teams: seq<TeamSeries>, selected: seq<TeamSeries>,
                   rows: seq<ScoreEvent>, t0: Time)
    requires Listed(db, event, all) && selected == Map(Line(db, event), Scoreboard.Limited(all, topN))
    requires Drawn(teams, selected, t0, rows)
    ensures |teams| <= topN && Distinct(teams)
    ensures forall m :: Scored(db, event, m) ==> Shown(teams, m) || LeftOut(db, event, topN, teams, m)
  {
    forall j | 0 <= j < |teams| ensures teams[j].team == all[j] {
      assert selected[j] == Line(db, event)(all[j]);
    }
    forall m | Scored(db, event, m) ensures Shown(teams, m) || LeftOut(db, event, topN, teams, m) {
      ShownOrLeftOut(db, event, topN, all, teams, m);
    }
  }

  lemma DrawnEndsAtBoard(db: Db, event: Uuid, topN: nat, all: seq<Uuid>,
                         teams: seq<TeamSeries>, selected: seq<TeamSeries>,
                         rows: seq<ScoreEvent>, t0: Time, j: nat)
    requires Projected(db) && Listed(db, event, all) && selected == Map(Line(db, event), Scoreboard.Limited(all, topN))
    requires IsRows(db, event, IdsOf(selected), rows) && Drawn(teams, selected, t0, rows) && j < |teams|
    ensures EndsAtBoard(db, event, teams[j])
  {
    assert selected[j] == Line(db, event)(all[j]) && all[j] in all && selected[j] in selected;
    LineEndsAtBoard(db, event, IdsOf(selected), rows, teams[j], t0);
  }

  ghost predicate Shown(teams: seq<TeamSeries>, m: Uuid) { exists j :: 0 <= j < |teams| && teams[j].team == m }

  /** The chart is full of teams that m does not lead. */
  ghost predicate LeftOut(db: Db, event: Uuid, topN: nat, teams: seq<TeamSeries>, m: Uuid) {
    |teams| == topN && forall j :: 0 <= j < |teams| ==> !TopBefore(db, event)(m, teams[j].team)
  }

  lemma ShownOrLeftOut(db: Db, event: Uuid, topN: nat, all: seq<Uuid>, teams: seq<TeamSeries>, m: Uuid)
    requires Listed(db, event, all) && Scored(db, event, m) && |teams| == |Scoreboard.Limited(all, topN)|
    requires forall j :: 0 <= j < |teams| ==> teams[j].team == all[j]
    ensures Shown(teams, m) || LeftOut(db, event, topN, teams, m)
  {
    assert m in all;
    var i :| 0 <= i < |all| && all[i] == m;
    if i < |teams| {
      assert teams[i].team == m;
    }
  }
}
