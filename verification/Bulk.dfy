/** Bulk actions on an event's challenges, their undo snapshots, and undo. */
module Bulk {
  import opened Common

  datatype Row = Row(event: Uuid, state: string, block: Option<Uuid>, tags: seq<string>, schedule: Option<string>)

  /** What undo restores of one row. */
  datatype Snap = Snap(id: Uuid, state: string, block: Option<Uuid>, tags: seq<string>)

  datatype Job = Job(undo: Option<seq<Snap>>, undone: bool)

  type Rows = map<Uuid, Row>

  datatype Action =
    | SetState(state: string)   // publish, hide, archive and set_state
    | AssignBlock(block: Option<Uuid>)
    | AddTags(tags: seq<string>)
    | RemoveTags(tags: seq<string>)
    | SetSchedule(schedule: Option<string>)
    | Delete
    | Unknown

  // ---------------------------------------------------------------- one UPDATE statement

  /** SELECT DISTINCT over the concatenated tags. */
  function Distinct(tags: seq<string>): seq<string> {
    if tags == [] then []
    else
      var n := |tags| - 1;
      Distinct(tags[..n]) + if tags[n] in tags[..n] then [] else [tags[n]]
  }

  function Dropping(tags: seq<string>, gone: seq<string>): seq<string> {
    if tags == [] then []
    else
      var n := |tags| - 1;
      Dropping(tags[..n], gone) + if tags[n] in gone then [] else [tags[n]]
  }

  function Edited(r: Row, a: Action): Row {
    match a
    case SetState(state) => r.(state := state)
    case AssignBlock(block) => r.(block := block)
    case AddTags(tags) => r.(tags := Distinct(r.tags + tags))
    case RemoveTags(tags) => r.(tags := Dropping(r.tags, tags))
    case SetSchedule(schedule) => r.(schedule := schedule)
    case Delete => r
    case Unknown => r
  }

  /** The rows after the action on the ids that exist. */
  function Acted(rows: Rows, a: Action, ids: set<Uuid>): Rows {
    if a.Delete? then rows - ids
    else map c | c in rows :: if c in ids then Edited(rows[c], a) else rows[c]
  }

  // ---------------------------------------------------------------- snapshots

  function SnapOf(c: Uuid, r: Row): Snap { Snap(c, r.state, r.block, r.tags) }

  /** SELECT id, state, block_id, tags WHERE id = ANY(ids): one entry per selected row, in some order. */
  ghost predicate IsSnapshot(rows: Rows, ids: set<Uuid>, snap: seq<Snap>) {
    && (forall i :: 0 <= i < |snap| ==>
        snap[i].id in rows && snap[i].id in ids && snap[i] == SnapOf(snap[i].id, rows[snap[i].id]))
    && (forall c :: c in rows && c in ids ==> exists i :: 0 <= i < |snap| && snap[i].id == c)
  }

  /** UPDATE … WHERE id = r.id, for one snapshot entry; a row that is gone is not brought back. */
  function RestoredOne(rows: Rows, s: Snap): Rows {
    if s.id in rows then rows[s.id := rows[s.id].(state := s.state, block := s.block, tags := s.tags)] else rows
  }

  function Restored(rows: Rows, snap: seq<Snap>): Rows {
    if snap == [] then rows else RestoredOne(Restored(rows, snap[..|snap| - 1]), snap[|snap| - 1])
  }

  lemma {:induction false} RestoredKeys(rows: Rows, snap: seq<Snap>)
    ensures Restored(rows, snap).Keys == rows.Keys
  {
    if snap != [] {
      RestoredKeys(rows, snap[..|snap| - 1]);
    }
  }

  /** Replaying a snapshot gives every surviving row it lists back, and touches nothing else. */
  lemma {:induction false} RestoredRow(rows: Rows, snap: seq<Snap>, was: Rows, c: Uuid)
    requires c in rows
    requires forall i :: 0 <= i < |snap| ==> snap[i].id in was && snap[i] == SnapOf(snap[i].id, was[snap[i].id])
    ensures c in Restored(rows, snap)
    ensures Restored(rows, snap)[c].schedule == rows[c].schedule && Restored(rows, snap)[c].event == rows[c].event
    ensures (exists i :: 0 <= i < |snap| && snap[i].id == c) ==>
              c in was && SnapOf(c, Restored(rows, snap)[c]) == SnapOf(c, was[c])
    ensures !(exists i :: 0 <= i < |snap| && snap[i].id == c) ==> Restored(rows, snap)[c] == rows[c]
  {
    if snap != [] {
      var n := |snap| - 1;
      RestoredRow(rows, snap[..n], was, c);
      RestoredKeys(rows, snap[..n]);
      if i :| 0 <= i < n && snap[i].id == c {
        assert snap[..n][i].id == c;
      }
    }
  }

  // ---------------------------------------------------------------- one call

  datatype Tables = Tables(rows: Rows, blocks: set<Uuid>, jobs: map<Uuid, Job>)

  function Selected(ids: seq<Uuid>): set<Uuid> { set c | c in ids }

  /** An unknown action, or a block that does not exist: the statement fails and the transaction rolls back. */
  predicate Fails(s: Tables, a: Action) {
    a.Unknown? || (a.AssignBlock? && a.block.Some? && a.block.value !in s.blocks)
  }

  predicate Runs(s: Tables, a: Action, ids: seq<Uuid>) { ids != [] && !Fails(s, a) }

  /** BulkApply takes s to t; `jobId` is the id the database generates for the new job. */
  ghost predicate Applies(s: Tables, a: Action, ids: seq<Uuid>, jobId: Uuid, t: Tables) {
    if !Runs(s, a, ids) then t == s
    else
      && t.rows == Acted(s.rows, a, Selected(ids)) && t.blocks == s.blocks
      && jobId in t.jobs && t.jobs == s.jobs[jobId := t.jobs[jobId]] && !t.jobs[jobId].undone
      && (a.Delete? ==> t.jobs[jobId].undo.None?)
      && (!a.Delete? ==> t.jobs[jobId].undo.Some? && IsSnapshot(s.rows, Selected(ids), t.jobs[jobId].undo.value))
  }

  predicate CanUndo(s: Tables, jobId: Uuid) { jobId in s.jobs && !s.jobs[jobId].undone && s.jobs[jobId].undo.Some? }

  /** The tables after BulkUndo. */
  function Undone(s: Tables, jobId: Uuid): Tables {
    if !CanUndo(s, jobId) then s
    else s.(rows := Restored(s.rows, s.jobs[jobId].undo.value), jobs := s.jobs[jobId := s.jobs[jobId].(undone := true)])
  }

  // ---------------------------------------------------------------- the store

  class Store {
    var rows: Rows
    var blocks: set<Uuid>
    var jobs: map<Uuid, Job>

    ghost function State(): Tables reads this { Tables(rows, blocks, jobs) }

    constructor (rows: Rows, blocks: set<Uuid>)
      ensures this.rows == rows && this.blocks == blocks && jobs == map[]
    {
      this.rows, this.blocks, this.jobs := rows, blocks, map[];
    }

    /** The SELECT of the snapshot; the database may return the rows in any order. */
    method Snapshot(ids: set<Uuid>) returns (snap: seq<Snap>)
      ensures IsSnapshot(rows, ids, snap)
    {
      snap := [];
      var todo := rows.Keys * ids;
      while todo != {}
        invariant todo <= rows.Keys * ids
        invariant forall i :: 0 <= i < |snap| ==>
                    snap[i].id in rows && snap[i].id in ids && snap[i] == SnapOf(snap[i].id, rows[snap[i].id])
        invariant forall c :: c in rows && c in ids && c !in todo ==> exists i :: 0 <= i < |snap| && snap[i].id == c
        decreases |todo|
      {
        var c :| c in todo;
        ghost var was := snap;
        snap := snap + [SnapOf(c, rows[c])];
        todo := todo - {c};
        forall d | d in rows && d in ids && d !in todo ensures exists i :: 0 <= i < |snap| && snap[i].id == d {
          if d == c {
            assert snap[|was|].id == d;
          } else {
            var i :| 0 <= i < |was| && was[i].id == d;
            assert snap[i].id == d;
          }
        }
      }
    }

    method BulkApply(a: Action, ids: seq<Uuid>, jobId: Uuid) returns (res: Result<(Option<Uuid>, nat)>)
      requires jobId !in jobs
      modifies this
      ensures Applies(old(State()), a, ids, jobId, State())
      ensures res == if ids == [] then Ok((None, 0)) else if Fails(old(State()), a) then Err(DbError)
                     else Ok((Some(jobId), |old(rows).Keys * Selected(ids)|))
    {
      if ids == [] {
        return Ok((None, 0));
      }
      var sel := Selected(ids);
      var undo: Option<seq<Snap>> := None;
      if !a.Delete? {
        var snap := Snapshot(sel);
        undo := Some(snap);
      }
      if a.Unknown? || (a.AssignBlock? && a.block.Some? && a.block.value !in blocks) {
        return Err(DbError);
      }
      var affected := |rows.Keys * sel|;
      rows := Acted(rows, a, sel);
      jobs := jobs[jobId := Job(undo, false)];
      res := Ok((Some(jobId), affected));
    }

    method BulkUndo(jobId: Uuid) returns (res: Result<nat>)
      modifies this
      ensures State() == Undone(old(State()), jobId)
      ensures res == if jobId !in old(jobs) then Err(NotFound) else if !CanUndo(old(State()), jobId) then Err(Conflict)
                     else Ok(|old(jobs)[jobId].undo.value|)
    {
      if jobId !in jobs {
        return Err(NotFound);
      }
      var job := jobs[jobId];
      if job.undone || job.undo.None? {
        return Err(Conflict);
      }
      var snap := job.undo.value;
      var n := 0;
      while n < |snap|
        invariant 0 <= n <= |snap|
        invariant rows == Restored(old(rows), snap[..n])
        invariant jobs == old(jobs) && blocks == old(blocks)
      {
        assert snap[..n + 1][..n] == snap[..n];
        var r := snap[n];
        if r.id in rows {
          rows := rows[r.id := rows[r.id].(state := r.state, block := r.block, tags := r.tags)];
        }
        n := n + 1;
      }
      assert snap[..n] == snap;
      jobs := jobs[jobId := job.(undone := true)];
      res := Ok(n);
    }

    /** A second undo of a job is refused and changes nothing. */
    method UndoTwice(jobId: Uuid) returns (first: Result<nat>, second: Result<nat>)
      modifies this
      ensures second.Err? && State() == Undone(old(State()), jobId)
    {
      first := BulkUndo(jobId);
      second := BulkUndo(jobId);
    }
  }
}
