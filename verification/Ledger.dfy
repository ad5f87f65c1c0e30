/** The contest tables and what one committed store transaction does to them. */
module Ledger {
  import opened Common

  // ---------------------------------------------------------------- ids and references

  predicate IsHex(c: char) { '0' <= c <= '9' || 'a' <= c <= 'f' }

  /** The digits of a uuid literal: case, hyphens and braces do not matter to the database. */
  function HexDigits(text: string): string {
    if text == "" then ""
    else if text[0] in "-{}" then HexDigits(text[1..])
    else [Lower(text[0])] + HexDigits(text[1..])
  }

  /** `$1::uuid`: several spellings name one id, and malformed text is an error. */
  function ParseUuid(text: string): Option<Uuid> {
    var h := HexDigits(text);
    if |h| == 32 && forall i :: 0 <= i < 32 ==> IsHex(h[i])
    then Some(h[..8] + "-" + h[8..12] + "-" + h[12..16] + "-" + h[16..20] + "-" + h[20..])
    else None
  }

  const Core := "core"

  function PluginSource(plugin: string): string { "plugin:" + plugin }

  /** References are built from the challenge id as the request spelled it. */
  function SolveRef(ecText: string, team: Uuid): string { "solve:" + ecText + ":" + team }

  function FirstBloodRef(ecText: string): string { "firstblood:" + ecText }

  // ---------------------------------------------------------------- tables

  datatype Challenge = Challenge(event: Uuid, state: string, block: Option<Uuid>)

  datatype Submission = Submission(event: Uuid, ec: Uuid, team: Uuid, correct: bool)

  datatype Kind = SolveKind | AwardKind

  datatype ScoreEvent = ScoreEvent(event: Uuid, team: Uuid, kind: Kind, source: string, ref: string,
                                    points: int, at: Time)

  /** UNIQUE (event_id, source, ref_id) */
  datatype Key = Key(event: Uuid, source: string, ref: string)

  /** One scoreboard_entries row. */
  datatype Entry = Entry(points: int, solves: int, last: Option<Time>)

  type Spot = (Uuid, Uuid)  // (event, team)

  /** The tables. `minted` is every id gen_random_uuid() has returned for a challenge. */
  datatype Db = Db(
    events: set<Uuid>,
    teams: map<Uuid, string>,
    roster: seq<Spot>,
    challenges: map<Uuid, Challenge>,
    minted: set<Uuid>,
    submissions: seq<Submission>,
    ledger: seq<ScoreEvent>,
    board: map<Spot, Entry>)

  function KeyOf(r: ScoreEvent): Key { Key(r.event, r.source, r.ref) }

  predicate HasKey(ledger: seq<ScoreEvent>, k: Key) {
    exists i :: 0 <= i < |ledger| && KeyOf(ledger[i]) == k
  }

  function RowOf(ledger: seq<ScoreEvent>, k: Key): (r: ScoreEvent)
    requires HasKey(ledger, k)
    ensures r in ledger && KeyOf(r) == k
  {
    var n := |ledger| - 1;
    if KeyOf(ledger[n]) == k then ledger[n]
    else
      assert exists i :: 0 <= i < n && KeyOf(ledger[..n][i]) == k by {
        var i :| 0 <= i < |ledger| && KeyOf(ledger[i]) == k;
        assert KeyOf(ledger[..n][i]) == k;
      }
      RowOf(ledger[..n], k)
  }

  /** DELETE FROM score_events by key. */
  function Without(ledger: seq<ScoreEvent>, k: Key): seq<ScoreEvent> {
    if ledger == [] then []
    else
      var n := |ledger| - 1;
      Without(ledger[..n], k) + if KeyOf(ledger[n]) == k then [] else [ledger[n]]
  }

  /** Sum of a team's ledger rows. */
  function Points(ledger: seq<ScoreEvent>, at: Spot): int {
    if ledger == [] then 0
    else
      var n := |ledger| - 1;
      Points(ledger[..n], at) + if (ledger[n].event, ledger[n].team) == at then ledger[n].points else 0
  }

  /** Number of a team's `solve` rows. */
  function SolveRows(ledger: seq<ScoreEvent>, at: Spot): int {
    if ledger == [] then 0
    else
      var n := |ledger| - 1;
      SolveRows(ledger[..n], at) +
      if (ledger[n].event, ledger[n].team) == at && ledger[n].kind.SolveKind? then 1 else 0
  }

  predicate HasSolve(subs: seq<Submission>, ec: Uuid, team: Uuid) {
    exists i :: 0 <= i < |subs| && subs[i].correct && subs[i].ec == ec && subs[i].team == team
  }

  /** SELECT count(*) FROM submissions WHERE ec_id = ec AND correct */
  function SolveCount(subs: seq<Submission>, ec: Uuid): nat {
    if subs == [] then 0
    else
      var n := |subs| - 1;
      SolveCount(subs[..n], ec) + if subs[n].correct && subs[n].ec == ec then 1 else 0
  }

  /** Rows left by ON DELETE CASCADE from event_challenges. */
  function Surviving(subs: seq<Submission>, gone: set<Uuid>): seq<Submission> {
    if subs == [] then []
    else
      var n := |subs| - 1;
      Surviving(subs[..n], gone) + if subs[n].ec in gone then [] else [subs[n]]
  }

  /** COALESCE over the LEFT JOIN: a missing row reads as zero. */
  function View(board: map<Spot, Entry>, at: Spot): Entry {
    if at in board then board[at] else Entry(0, 0, None)
  }

  // ---------------------------------------------------------------- transactions

  datatype Op =
    | Solve(event: Uuid, bonus: int, ecText: string, team: Uuid, points: int, now: Time)
    | Wrong(event: Uuid, ecText: string, team: Uuid)
    | Award(event: Uuid, team: Uuid, plugin: string, ref: string, points: int, now: Time)
    | Revoke(event: Uuid, plugin: string, ref: string)
    | AddChallenge(id: Uuid, row: Challenge)
    | SetState(ids: set<Uuid>, state: string)
    | AssignBlock(ids: set<Uuid>, block: Option<Uuid>)
    | DeleteChallenges(ids: set<Uuid>)
    | AssignTeam(event: Uuid, team: Uuid)
    | UnassignTeam(event: Uuid, team: Uuid)

  datatype Answer =
    | Solved(alreadySolved: bool, firstBlood: bool, points: int)
    | Applied(applied: bool)
    | Done
    | Failed

  predicate References(db: Db, event: Uuid, team: Uuid) { event in db.events && team in db.teams }

  /** The solve transaction reaches its commit. */
  predicate Accepted(db: Db, op: Op)
    requires op.Solve?
  {
    var ec := ParseUuid(op.ecText);
    ec.Some? && ec.value in db.challenges && References(db, op.event, op.team) &&
    !HasSolve(db.submissions, ec.value, op.team)
  }

  predicate TakesFirstBlood(db: Db, op: Op)
    requires op.Solve? && Accepted(db, op)
  {
    SolveCount(db.submissions, ParseUuid(op.ecText).value) == 0
  }

  function SolveRow(op: Op): ScoreEvent
    requires op.Solve?
  {
    ScoreEvent(op.event, op.team, SolveKind, Core, SolveRef(op.ecText, op.team), op.points, op.now)
  }

  function BonusRow(op: Op): ScoreEvent
    requires op.Solve?
  {
    ScoreEvent(op.event, op.team, AwardKind, Core, FirstBloodRef(op.ecText), op.bonus, op.now)
  }

  function AwardRow(op: Op): ScoreEvent
    requires op.Award?
  {
    ScoreEvent(op.event, op.team, AwardKind, PluginSource(op.plugin), op.ref, op.points, op.now)
  }

  function EarnedBonus(db: Db, op: Op): int
    requires op.Solve? && Accepted(db, op)
  {
    if TakesFirstBlood(db, op) && op.bonus > 0 then op.bonus else 0
  }

  /** The rows a solve adds to the ledger; there is no conflict clause here. */
  function SolveRowsOf(db: Db, op: Op): seq<ScoreEvent>
    requires op.Solve? && Accepted(db, op)
  {
    [SolveRow(op)] + if EarnedBonus(db, op) > 0 then [BonusRow(op)] else []
  }

  function AfterSolve(db: Db, op: Op): Db
    requires op.Solve? && Accepted(db, op)
  {
    var at := (op.event, op.team);
    var v := View(db.board, at);
    db.(submissions := db.submissions + [Submission(op.event, ParseUuid(op.ecText).value, op.team, true)],
        ledger := db.ledger + SolveRowsOf(db, op),
        board := db.board[at := Entry(v.points + op.points + EarnedBonus(db, op), v.solves + 1, Some(op.now))])
  }

  function AfterAward(db: Db, op: Op): Db
    requires op.Award?
  {
    var at := (op.event, op.team);
    var v := View(db.board, at);
    db.(ledger := db.ledger + [AwardRow(op)],
        board := db.board[at := Entry(v.points + op.points, v.solves, v.last)])
  }

  function AfterRevoke(db: Db, k: Key): Db
    requires HasKey(db.ledger, k)
  {
    var row := RowOf(db.ledger, k);
    var at := (row.event, row.team);
    var v := View(db.board, at);
    db.(ledger := Without(db.ledger, k),
        board := db.board[at := Entry(v.points - row.points, v.solves, v.last)])
  }

  function Restated(cs: map<Uuid, Challenge>, ids: set<Uuid>, state: string): map<Uuid, Challenge> {
    map c | c in cs :: if c in ids then cs[c].(state := state) else cs[c]
  }

  function Reblocked(cs: map<Uuid, Challenge>, ids: set<Uuid>, block: Option<Uuid>): map<Uuid, Challenge> {
    map c | c in cs :: if c in ids then cs[c].(block := block) else cs[c]
  }

  function Apply(db: Db, op: Op): Db {
    match op
    case Solve(_, _, _, _, _, _) => if Accepted(db, op) then AfterSolve(db, op) else db
    case Wrong(event, ecText, team) =>
      var ec := ParseUuid(ecText);
      if ec.Some? && ec.value in db.challenges && References(db, event, team)
      then db.(submissions := db.submissions + [Submission(event, ec.value, team, false)])
      else db
    case Award(event, team, _, _, _, _) =>
      if References(db, event, team) && !HasKey(db.ledger, KeyOf(AwardRow(op))) then AfterAward(db, op) else db
    case Revoke(event, plugin, ref) =>
      var k := Key(event, PluginSource(plugin), ref);
      if HasKey(db.ledger, k) then AfterRevoke(db, k) else db
    case AddChallenge(id, row) =>
      if id in db.minted || row.event !in db.events then db
      else db.(minted := db.minted + {id}, challenges := db.challenges[id := row])
    case SetState(ids, state) => db.(challenges := Restated(db.challenges, ids, state))
    case AssignBlock(ids, block) => db.(challenges := Reblocked(db.challenges, ids, block))
    case DeleteChallenges(ids) =>
      db.(challenges := db.challenges - ids, submissions := Surviving(db.submissions, ids))
    case AssignTeam(event, team) =>
      if References(db, event, team) && (event, team) !in db.roster
      then db.(roster := db.roster + [(event, team)])
      else db
    case UnassignTeam(event, team) => db.(roster := Dropped(db.roster, (event, team)))
  }

  function Dropped(roster: seq<Spot>, at: Spot): seq<Spot> {
    if roster == [] then []
    else
      var n := |roster| - 1;
      Dropped(roster[..n], at) + if roster[n] == at then [] else [roster[n]]
  }

  /** What the caller is told. */
  function AnswerOf(db: Db, op: Op): Answer {
    match op
    case Solve(_, _, ecText, team, points, _) =>
      if Accepted(db, op) then Solved(false, TakesFirstBlood(db, op), points + EarnedBonus(db, op))
      else if ParseUuid(ecText).Some? && HasSolve(db.submissions, ParseUuid(ecText).value, team)
      then Solved(true, false, points)
      else Failed
    case Wrong(event, ecText, team) =>
      if ParseUuid(ecText).Some? && ParseUuid(ecText).value in db.challenges && References(db, event, team)
      then Done else Failed
    case Award(event, team, _, _, _, _) =>
      if HasKey(db.ledger, KeyOf(AwardRow(op))) then Applied(false)
      else if References(db, event, team) then Applied(true)
      else Failed
    case Revoke(event, plugin, ref) => Applied(HasKey(db.ledger, Key(event, PluginSource(plugin), ref)))
    case _ => Done
  }

  function Run(db: Db, ops: seq<Op>): Db {
    if ops == [] then db else Apply(Run(db, ops[..|ops| - 1]), ops[|ops| - 1])
  }

  /** What the callers of a run are told, in order. */
  function Answers(db: Db, ops: seq<Op>): seq<Answer> {
    if ops == [] then []
    else Answers(db, ops[..|ops| - 1]) + [AnswerOf(Run(db, ops[..|ops| - 1]), ops[|ops| - 1])]
  }
}
