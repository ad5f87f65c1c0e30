/**
 * The scoring transactions at statement granularity under READ COMMITTED: any number of calls run at
 * once, a statement sees committed rows and its own, and a unique insert or a board write waits for the
 * transaction that holds the row.
 */
module Interleaving {
  import opened Common
  import opened Ledger

  type TxId = nat

  datatype Status = Committed | Inserting(tx: TxId) | Deleting(tx: TxId)

  datatype Row = Row(row: ScoreEvent, status: Status)

  datatype Tally = Tally(points: int, solves: int)

  /**
   * Where a transaction stands: the statement it runs next. `surplus` is what it adds to the board
   * without having written it to the ledger.
   */
  datatype Phase =
    | Begun
    | Counting
    | Scoring(firstBlood: bool)
    | Rewarding(surplus: int)
    | Boarding(at: Spot, delta: Tally, firstBlood: bool, surplus: int)
    | Committing(at: Spot, delta: Tally, firstBlood: bool, surplus: int, value: Tally)

  datatype Tx = Tx(op: Op, phase: Phase)

  /** What a committed scoring call told its caller, and its surplus. */
  datatype Receipt = Receipt(op: Op, at: Spot, firstBlood: bool, surplus: int)

  datatype State = State(
    txs: map<TxId, Tx>,
    solves: map<Spot, Status>,       // correct submissions by (challenge, team): solves_unique
    gone: set<Uuid>,                 // deleted challenges; the submissions of these are deleted with them
    ledger: seq<Row>,
    board: map<Spot, Tally>,         // committed board rows
    locks: map<Spot, TxId>,          // board rows written by a transaction that has not ended
    log: seq<Receipt>)

  const Init := State(map[], map[], {}, [], map[], map[], [])

  /** Remove is the commit of a bulk delete; Begin, Exec and Abort are a scoring call's. */
  datatype Action = Begin(tx: TxId, op: Op) | Exec(tx: TxId) | Abort(tx: TxId) | Remove(ecs: set<Uuid>)

  // ---------------------------------------------------------------- queries

  predicate KeyAt(l: seq<Row>, k: Key) { exists i :: 0 <= i < |l| && KeyOf(l[i].row) == k }

  predicate KeyWith(l: seq<Row>, k: Key, st: Status) {
    exists i :: 0 <= i < |l| && KeyOf(l[i].row) == k && l[i].status == st
  }

  function Find(l: seq<Row>, k: Key): (r: Row)
    requires KeyWith(l, k, Committed)
    ensures r in l && KeyOf(r.row) == k && r.status == Committed
  {
    var n := |l| - 1;
    if KeyOf(l[n].row) == k && l[n].status == Committed then l[n]
    else
      assert KeyWith(l[..n], k, Committed) by {
        var i :| 0 <= i < |l| && KeyOf(l[i].row) == k && l[i].status == Committed;
        assert l[..n][i] == l[i];
      }
      Find(l[..n], k)
  }

  /** SELECT count(*) … WHERE ec_id AND correct, as transaction t sees it. */
  function Seen(solves: map<Spot, Status>, gone: set<Uuid>, ec: Uuid, t: TxId): set<Spot> {
    set k | k in solves && k.0 == ec && ec !in gone && (solves[k] == Committed || solves[k] == Inserting(t))
  }

  function BoardAt(board: map<Spot, Tally>, at: Spot): Tally {
    if at in board then board[at] else Tally(0, 0)
  }

  function Add(a: Tally, b: Tally): Tally { Tally(a.points + b.points, a.solves + b.solves) }

  // ---------------------------------------------------------------- ending a transaction

  /** What is left of one row when transaction t ends. */
  function Kept(r: Row, t: TxId, commit: bool): seq<Row> {
    match r.status
    case Committed => [r]
    case Inserting(u) => if u != t then [r] else if commit then [r.(status := Committed)] else []
    case Deleting(u) => if u != t then [r] else if commit then [] else [r.(status := Committed)]
  }

  /** The ledger after transaction t ends: its rows are kept or dropped. */
  function Resolve(l: seq<Row>, t: TxId, commit: bool): seq<Row> {
    if l == [] then [] else Resolve(l[..|l| - 1], t, commit) + Kept(l[|l| - 1], t, commit)
  }

  function ResolveSolves(solves: map<Spot, Status>, t: TxId, commit: bool): map<Spot, Status> {
    map k | k in solves && (commit || solves[k] != Inserting(t)) ::
      if solves[k] == Inserting(t) then Committed else solves[k]
  }

  function Unlocked(locks: map<Spot, TxId>, t: TxId): map<Spot, TxId> {
    map at | at in locks && locks[at] != t :: locks[at]
  }

  /** ROLLBACK, also for a call that ends without writing anything. */
  function Rollback(s: State, t: TxId): State {
    s.(txs := s.txs - {t}, solves := ResolveSolves(s.solves, t, false), ledger := Resolve(s.ledger, t, false),
       locks := Unlocked(s.locks, t))
  }

  /** COMMIT: the board row is published if this transaction is the one that wrote it. */
  function Commit(s: State, t: TxId): State
    requires t in s.txs && s.txs[t].phase.Committing?
  {
    var p := s.txs[t].phase;
    s.(txs := s.txs - {t}, solves := ResolveSolves(s.solves, t, true), ledger := Resolve(s.ledger, t, true),
       board := if p.at in s.locks && s.locks[p.at] == t then s.board[p.at := p.value] else s.board,
       locks := Unlocked(s.locks, t),
       log := s.log + [Receipt(s.txs[t].op, p.at, p.firstBlood, p.surplus)])
  }

  // ---------------------------------------------------------------- statements

  function Goto(s: State, t: TxId, p: Phase): State
    requires t in s.txs
  {
    s.(txs := s.txs[t := s.txs[t].(phase := p)])
  }

  /**
   * INSERT INTO submissions: a committed twin or a deleted challenge ends the call, a pending twin makes it wait.
   */
  function InsertSubmission(s: State, t: TxId): State
    requires t in s.txs && s.txs[t].op.Solve?
  {
    var op := s.txs[t].op;
    var ec := ParseUuid(op.ecText);
    if ec.None? || ec.value in s.gone then Rollback(s, t)
    else
      var k := (ec.value, op.team);
      if k in s.solves then (if s.solves[k] == Committed then Rollback(s, t) else s)
      else Goto(s, t, Counting).(solves := s.solves[k := Inserting(t)])
  }

  function CountSolves(s: State, t: TxId): State
    requires t in s.txs && s.txs[t].op.Solve?
  {
    var ec := ParseUuid(s.txs[t].op.ecText);
    if ec.None? then Rollback(s, t) else Goto(s, t, Scoring(|Seen(s.solves, s.gone, ec.value, t)| == 1))
  }

  /** The statement after the solve row: the bonus if there is one, otherwise the board. */
  function AfterScoring(op: Op, firstBlood: bool, surplus: int): Phase
    requires op.Solve?
  {
    if firstBlood && op.bonus > 0 then Rewarding(surplus)
    else Boarding((op.event, op.team), Tally(op.points, 1), firstBlood, surplus)
  }

  /** INSERT … ON CONFLICT DO NOTHING: the transaction goes on whether or not it wrote. */
  function InsertRow(s: State, t: TxId, r: ScoreEvent, wrote: Phase, skipped: Phase): State
    requires t in s.txs
  {
    if !KeyAt(s.ledger, KeyOf(r)) then Goto(s, t, wrote).(ledger := s.ledger + [Row(r, Inserting(t))])
    else if KeyWith(s.ledger, KeyOf(r), Committed) || KeyWith(s.ledger, KeyOf(r), Inserting(t)) then Goto(s, t, skipped)
    else s
  }

  /** The board write; for a reversal it is an UPDATE, which does nothing when there is no row. */
  function WriteBoard(s: State, t: TxId): State
    requires t in s.txs && s.txs[t].phase.Boarding?
  {
    var p := s.txs[t].phase;
    if s.txs[t].op.Revoke? && p.at !in s.board
    then Goto(s, t, Committing(p.at, Tally(0, 0), p.firstBlood, p.surplus - p.delta.points, BoardAt(s.board, p.at)))
    else if p.at in s.locks then s
    else Goto(s, t, Committing(p.at, p.delta, p.firstBlood, p.surplus, Add(BoardAt(s.board, p.at), p.delta)))
         .(locks := s.locks[p.at := t])
  }

  function Marked(r: Row, k: Key, t: TxId): Row {
    if KeyOf(r.row) == k && r.status == Committed then r.(status := Deleting(t)) else r
  }

  function MarkDeleting(l: seq<Row>, k: Key, t: TxId): seq<Row> {
    if l == [] then [] else MarkDeleting(l[..|l| - 1], k, t) + [Marked(l[|l| - 1], k, t)]
  }

  /** Transaction t has deleted the committed row with key k and goes on to the board. */
  function Deleted(s: State, t: TxId, k: Key): State
    requires t in s.txs && KeyWith(s.ledger, k, Committed)
  {
    var r := Find(s.ledger, k).row;
    Goto(s, t, Boarding((r.event, r.team), Tally(-r.points, 0), false, 0)).(ledger := MarkDeleting(s.ledger, k, t))
  }

  /** DELETE … RETURNING: rows that other transactions have not committed are not seen. */
  function DeleteRow(s: State, t: TxId): State
    requires t in s.txs && s.txs[t].op.Revoke?
  {
    var op := s.txs[t].op;
    var k := Key(op.event, PluginSource(op.plugin), op.ref);
    if KeyWith(s.ledger, k, Committed) then Deleted(s, t, k)
    else if exists i :: 0 <= i < |s.ledger| && KeyOf(s.ledger[i].row) == k && s.ledger[i].status.Deleting? then s
    else Rollback(s, t)
  }

  /** Transaction t runs its next statement, or stays where it is because it has to wait. */
  function Statement(s: State, t: TxId): State
    requires t in s.txs
  {
    var op := s.txs[t].op;
    match s.txs[t].phase
    case Begun =>
      if op.Solve? then InsertSubmission(s, t)
      else if op.Award? then
        var at := (op.event, op.team);
        if KeyWith(s.ledger, KeyOf(AwardRow(op)), Committed) then Rollback(s, t)
        else InsertRow(s, t, AwardRow(op), Boarding(at, Tally(op.points, 0), false, 0), Begun)
      else if op.Revoke? then DeleteRow(s, t)
      else Rollback(s, t)
    case Counting => if op.Solve? then CountSolves(s, t) else Rollback(s, t)
    case Scoring(firstBlood) =>
      if op.Solve? then
        InsertRow(s, t, SolveRow(op), AfterScoring(op, firstBlood, 0), AfterScoring(op, firstBlood, op.points))
      else Rollback(s, t)
    case Rewarding(surplus) =>
      if op.Solve? then
        var at, total := (op.event, op.team), Tally(op.points + op.bonus, 1);
        InsertRow(s, t, BonusRow(op), Boarding(at, total, true, surplus), Boarding(at, total, true, surplus + op.bonus))
      else Rollback(s, t)
    case Boarding(_, _, _, _) => WriteBoard(s, t)
    case Committing(_, _, _, _, _) => Commit(s, t)
  }

  /**
   * DELETE FROM event_challenges takes the challenges' submissions with it and touches neither ledger nor board. It
   * waits while a transaction holds a pending submission of one of them, and new submissions wait for it to end, so
   * nobody sees it before its commit.
   */
  function RemoveChallenges(s: State, ecs: set<Uuid>): State {
    if exists k :: k in s.solves && k.0 in ecs && s.solves[k] != Committed then s else s.(gone := s.gone + ecs)
  }

  function Step(s: State, a: Action): State {
    match a
    case Begin(t, op) => if t in s.txs then s else s.(txs := s.txs[t := Tx(op, Begun)])
    case Exec(t) => if t in s.txs then Statement(s, t) else s
    case Abort(t) => if t in s.txs then Rollback(s, t) else s
    case Remove(ecs) => RemoveChallenges(s, ecs)
  }

  function Play(s: State, schedule: seq<Action>): State {
    if schedule == [] then s else Step(Play(s, schedule[..|schedule| - 1]), schedule[|schedule| - 1])
  }
}
