/** Undo in its two steps, among other calls: the job is read outside the transaction that replays its snapshot. */
module BulkRaces {
  import opened Common
  import opened Bulk

  /** What an undo call has read. */
  datatype Held = Held(jobId: Uuid, snap: seq<Snap>)

  /** The tables, and the undo calls that were not refused and have not ended. */
  datatype World = World(tables: Tables, held: map<nat, Held>)

  datatype Event =
    | Act(action: Action, ids: seq<Uuid>, jobId: Uuid)
    | Read(call: nat, jobId: Uuid)
    | Replay(call: nat)
    | Abort(call: nat)

  /** The replaying transaction: it does not look at `undone` again. */
  function Replayed(s: Tables, h: Held): Tables
    requires h.jobId in s.jobs
  {
    s.(rows := Restored(s.rows, h.snap), jobs := s.jobs[h.jobId := s.jobs[h.jobId].(undone := true)])
  }

  ghost predicate Step(w: World, e: Event, t: World) {
    match e
    case Act(action, ids, jobId) =>
      t.held == w.held && jobId !in w.tables.jobs && Applies(w.tables, action, ids, jobId, t.tables)
    case Read(call, jobId) =>
      call !in w.held && t.tables == w.tables &&
      t.held ==
        if CanUndo(w.tables, jobId) then w.held[call := Held(jobId, w.tables.jobs[jobId].undo.value)] else w.held
    case Replay(call) =>
      call in w.held && w.held[call].jobId in w.tables.jobs &&
      t == World(Replayed(w.tables, w.held[call]), w.held - {call})
    case Abort(call) =>
      call in w.held && t == World(w.tables, w.held - {call})
  }

  /** Two entries for one row say the same. */
  ghost predicate Consistent(snap: seq<Snap>) {
    forall i, j :: 0 <= i < |snap| && 0 <= j < |snap| && snap[i].id == snap[j].id ==> snap[i] == snap[j]
  }

  ghost predicate Valid(w: World) {
    && (forall j :: j in w.tables.jobs && w.tables.jobs[j].undo.Some? ==> Consistent(w.tables.jobs[j].undo.value))
    && (forall c :: c in w.held ==> var h := w.held[c];
          h.jobId in w.tables.jobs && w.tables.jobs[h.jobId].undo == Some(h.snap))
  }

  ghost predicate IsRun(worlds: seq<World>, events: seq<Event>) {
    && |worlds| == |events| + 1
    && Valid(worlds[0]) && worlds[0].held == map[]
    && forall i :: 0 <= i < |events| ==> Step(worlds[i], events[i], worlds[i + 1])
  }

  // ---------------------------------------------------------------- one step

  lemma StepKeepsValid(w: World, e: Event, t: World)
    requires Valid(w) && Step(w, e, t)
    ensures Valid(t)
    ensures forall j :: j in w.tables.jobs ==> j in t.tables.jobs && t.tables.jobs[j].undo == w.tables.jobs[j].undo
  {
  }

  lemma {:induction false} RunValid(worlds: seq<World>, events: seq<Event>, i: nat)
    requires IsRun(worlds, events) && i <= |events|
    ensures Valid(worlds[i])
  {
    if i > 0 {
      RunValid(worlds, events, i - 1);
      StepKeepsValid(worlds[i - 1], events[i - 1], worlds[i]);
    }
  }

  predicate IsUndone(w: World, jobId: Uuid) { jobId in w.tables.jobs && w.tables.jobs[jobId].undone }

  predicate Holds(w: World, call: nat, jobId: Uuid) { call in w.held && w.held[call].jobId == jobId }

  /** The event replays the job. */
  predicate Replays(w: World, e: Event, jobId: Uuid) { e.Replay? && Holds(w, e.call, jobId) }

  /** Only a replay marks a job, marks stay, and a marked job is not read again. */
  lemma StepMarks(w: World, e: Event, t: World, jobId: Uuid)
    requires Step(w, e, t)
    ensures IsUndone(t, jobId) <==> IsUndone(w, jobId) || Replays(w, e, jobId)
    ensures forall c :: IsUndone(w, jobId) && Holds(t, c, jobId) ==> Holds(w, c, jobId)
    ensures forall c :: Replays(w, e, jobId) && Holds(t, c, jobId) ==> Holds(w, c, jobId) && c != e.call
  {
  }

  // ---------------------------------------------------------------- when a replay is an undo

  /** Every listed row that still exists has the state, block and tags of the snapshot. */
  ghost predicate Unmoved(rows: Rows, snap: seq<Snap>) {
    forall i :: 0 <= i < |snap| && snap[i].id in rows ==> SnapOf(snap[i].id, rows[snap[i].id]) == snap[i]
  }

  lemma {:induction false} RestoredEntry(rows: Rows, snap: seq<Snap>, i: nat)
    requires Consistent(snap) && i < |snap| && snap[i].id in rows
    ensures snap[i].id in Restored(rows, snap) && SnapOf(snap[i].id, Restored(rows, snap)[snap[i].id]) == snap[i]
  {
    var n := |snap| - 1;
    RestoredKeys(rows, snap[..n]);
    if snap[n].id != snap[i].id {
      RestoredEntry(rows, snap[..n], i);
    }
  }

  lemma {:induction false} RestoredUnmoved(rows: Rows, snap: seq<Snap>)
    requires Unmoved(rows, snap)
    ensures Restored(rows, snap) == rows
  {
    if snap != [] {
      var n := |snap| - 1;
      assert Unmoved(rows, snap[..n]);
      RestoredUnmoved(rows, snap[..n]);
    }
  }

  /** Whatever happened since the snapshot, afterwards no surviving row it lists differs from it. */
  lemma ReplayRestores(rows: Rows, snap: seq<Snap>)
    requires Consistent(snap)
    ensures Unmoved(Restored(rows, snap), snap)
    ensures Restored(rows, snap) == rows <==> Unmoved(rows, snap)
  {
    RestoredKeys(rows, snap);
    forall i | 0 <= i < |snap| && snap[i].id in rows
      ensures SnapOf(snap[i].id, Restored(rows, snap)[snap[i].id]) == snap[i]
    {
      RestoredEntry(rows, snap, i);
    }
    if Unmoved(rows, snap) {
      RestoredUnmoved(rows, snap);
    }
  }

  /** The replay does what an undo in one transaction would do then: restore, or refuse if the job is marked. */
  predicate ActsAsUndo(w: World, e: Event, t: World) {
    e.Replay? && e.call in w.held ==> t.tables == Undone(w.tables, w.held[e.call].jobId)
  }

  lemma ActsAsUndoUnless(w: World, e: Event, t: World)
    requires Valid(w) && Step(w, e, t) && e.Replay?
    ensures ActsAsUndo(w, e, t) <==> IsUndone(w, w.held[e.call].jobId) ==> Unmoved(w.tables.rows, w.held[e.call].snap)
  {
    var h := w.held[e.call];
    ReplayRestores(w.tables.rows, h.snap);
    if IsUndone(w, h.jobId) {
      assert w.tables.jobs[h.jobId := w.tables.jobs[h.jobId].(undone := true)] == w.tables.jobs;
    }
  }

  // ---------------------------------------------------------------- along a run

  lemma {:induction false} MarkedBefore(worlds: seq<World>, events: seq<Event>, i: nat, jobId: Uuid)
    requires IsRun(worlds, events) && i <= |events|
    ensures IsUndone(worlds[i], jobId) <==>
            IsUndone(worlds[0], jobId) || exists j :: 0 <= j < i && Replays(worlds[j], events[j], jobId)
  {
    if i > 0 {
      MarkedBefore(worlds, events, i - 1, jobId);
      StepMarks(worlds[i - 1], events[i - 1], worlds[i], jobId);
    }
  }

  /** A call that holds a job after it was marked held it when it was marked. */
  lemma {:induction false} HeldSince(worlds: seq<World>, events: seq<Event>, j: nat, i: nat, call: nat, jobId: Uuid)
    requires IsRun(worlds, events) && j < i <= |events| && Holds(worlds[i], call, jobId)
    requires IsUndone(worlds[j], jobId) || Replays(worlds[j], events[j], jobId)
    ensures Holds(worlds[j], call, jobId) && (Replays(worlds[j], events[j], jobId) ==> call != events[j].call)
  {
    if i == j + 1 {
      StepMarks(worlds[j], events[j], worlds[i], jobId);
    } else {
      StepMarks(worlds[j], events[j], worlds[j + 1], jobId);
      MarksStay(worlds, events, j + 1, i - 1, jobId);
      StepMarks(worlds[i - 1], events[i - 1], worlds[i], jobId);
      HeldSince(worlds, events, j, i - 1, call, jobId);
    }
  }

  lemma {:induction false} MarksStay(worlds: seq<World>, events: seq<Event>, j: nat, i: nat, jobId: Uuid)
    requires IsRun(worlds, events) && j <= i <= |events| && IsUndone(worlds[j], jobId)
    ensures IsUndone(worlds[i], jobId)
  {
    if j < i {
      MarksStay(worlds, events, j, i - 1, jobId);
      StepMarks(worlds[i - 1], events[i - 1], worlds[i], jobId);
    }
  }

  /** A job marked from the start has no holders. */
  lemma OldMarksUnheld(worlds: seq<World>, events: seq<Event>, i: nat, call: nat, jobId: Uuid)
    requires IsRun(worlds, events) && i <= |events| && Holds(worlds[i], call, jobId)
    ensures !IsUndone(worlds[0], jobId)
  {
    if IsUndone(worlds[0], jobId) {
      HeldSince(worlds, events, 0, i, call, jobId);
      assert false;
    }
  }

  /** The replay at i overwrites: its job was replayed before, and a listed row has moved since. */
  ghost predicate Overwrites(worlds: seq<World>, events: seq<Event>, i: nat)
    requires i < |events| && |worlds| == |events| + 1
  {
    && events[i].Replay? && events[i].call in worlds[i].held
    && (exists j :: 0 <= j < i && Replays(worlds[j], events[j], worlds[i].held[events[i].call].jobId))
    && !Unmoved(worlds[i].tables.rows, worlds[i].held[events[i].call].snap)
  }

  /** A replay at i does what an undo in one transaction would do there. */
  ghost predicate AsUndo(worlds: seq<World>, events: seq<Event>, i: nat)
    requires i < |events| && |worlds| == |events| + 1
  {
    ActsAsUndo(worlds[i], events[i], worlds[i + 1])
  }

  lemma AsUndoUnless(worlds: seq<World>, events: seq<Event>, i: nat)
    requires IsRun(worlds, events) && i < |events|
    ensures AsUndo(worlds, events, i) <==> !Overwrites(worlds, events, i)
  {
    assert Step(worlds[i], events[i], worlds[i + 1]);
    if events[i].Replay? {
      var jobId := worlds[i].held[events[i].call].jobId;
      RunValid(worlds, events, i);
      ActsAsUndoUnless(worlds[i], events[i], worlds[i + 1]);
      MarkedBefore(worlds, events, i, jobId);
      OldMarksUnheld(worlds, events, i, events[i].call, jobId);
    }
  }

  /**
   * Every replay of the run does what an undo in one transaction would do iff none comes after another replay of
   * the same job with a row of the snapshot changed in between.
   */
  lemma ActAsUndosIff(worlds: seq<World>, events: seq<Event>)
    requires IsRun(worlds, events)
    ensures (forall i :: 0 <= i < |events| ==> AsUndo(worlds, events, i)) <==>
            (forall i :: 0 <= i < |events| ==> !Overwrites(worlds, events, i))
  {
    forall i | 0 <= i < |events| ensures AsUndo(worlds, events, i) <==> !Overwrites(worlds, events, i) {
      AsUndoUnless(worlds, events, i);
    }
  }

  /** Two replays of one job overlap: the second call had read the job when the first replayed it. */
  lemma SecondReplayOverlaps(worlds: seq<World>, events: seq<Event>, j: nat, i: nat, jobId: Uuid)
    requires IsRun(worlds, events) && j < i < |events|
    requires Replays(worlds[j], events[j], jobId) && Replays(worlds[i], events[i], jobId)
    ensures events[i].call != events[j].call && Holds(worlds[j], events[i].call, jobId)
  {
    HeldSince(worlds, events, j, i, events[i].call, jobId);
  }

  // ---------------------------------------------------------------- how often

  function Holders(w: World, jobId: Uuid): set<nat> { set c | c in w.held && w.held[c].jobId == jobId }

  ghost function ReplayCount(worlds: seq<World>, events: seq<Event>, jobId: Uuid, i: nat): nat
    requires i <= |events| < |worlds|
  {
    if i == 0 then 0
    else ReplayCount(worlds, events, jobId, i - 1) + if Replays(worlds[i - 1], events[i - 1], jobId) then 1 else 0
  }

  /** One step of a job that is not read again: holders only leave, and a replay takes one of them. */
  lemma HoldersLeave(w: World, e: Event, t: World, jobId: Uuid)
    requires Step(w, e, t) && (IsUndone(w, jobId) || Replays(w, e, jobId))
    ensures |Holders(t, jobId)| + (if Replays(w, e, jobId) then 1 else 0) <= |Holders(w, jobId)|
  {
    StepMarks(w, e, t, jobId);
    var gone := if Replays(w, e, jobId) then {e.call} else {};
    assert Holders(t, jobId) <= Holders(w, jobId) - gone && gone <= Holders(w, jobId);
    SubsetSize(Holders(t, jobId), Holders(w, jobId) - gone);
  }

  lemma {:induction false} CountSoFar(worlds: seq<World>, events: seq<Event>, jobId: Uuid, p: nat, i: nat)
    requires IsRun(worlds, events) && i <= |events|
    requires forall k :: 0 <= k < |worlds| ==> |Holders(worlds[k], jobId)| <= p
    ensures var n := ReplayCount(worlds, events, jobId, i);
            if IsUndone(worlds[i], jobId) then n + |Holders(worlds[i], jobId)| <= p else n == 0
  {
    if i == 0 {
      assert Holders(worlds[0], jobId) == {};
    } else {
      CountSoFar(worlds, events, jobId, p, i - 1);
      StepMarks(worlds[i - 1], events[i - 1], worlds[i], jobId);
      if IsUndone(worlds[i], jobId) {
        HoldersLeave(worlds[i - 1], events[i - 1], worlds[i], jobId);
      }
    }
  }

  /** A job is replayed no more often than the number of calls that hold it at once; with one, at most once. */
  lemma ReplaysBounded(worlds: seq<World>, events: seq<Event>, jobId: Uuid, p: nat)
    requires IsRun(worlds, events)
    requires forall k :: 0 <= k < |worlds| ==> |Holders(worlds[k], jobId)| <= p
    ensures ReplayCount(worlds, events, jobId, |events|) <= p
  {
    CountSoFar(worlds, events, jobId, p, |events|);
  }

  // ---------------------------------------------------------------- what is lost

  /** Two undos of one job, and a bulk action between their replays. */
  function Overlap(jobId: Uuid, action: Action, ids: seq<Uuid>, newJob: Uuid): seq<Event> {
    [Read(0, jobId), Read(1, jobId), Replay(0), Act(action, ids, newJob), Replay(1)]
  }

  /**
   * The schedule exists for every job that can be undone and every bulk action. Nothing is left of what the action
   * did to the state, block and tags of the snapshot's rows, though its own job stays.
   */
  lemma OverlapLosesAction(s: Tables, jobId: Uuid, action: Action, ids: seq<Uuid>, newJob: Uuid, t: Tables)
    requires Valid(World(s, map[])) && CanUndo(s, jobId) && newJob !in s.jobs
    requires Applies(Undone(s, jobId), action, ids, newJob, t)
    ensures var h := Held(jobId, s.jobs[jobId].undo.value);
            var last := World(Replayed(t, h), map[]);
            var worlds := [World(s, map[]), World(s, map[0 := h]), World(s, map[0 := h, 1 := h]),
                           World(Undone(s, jobId), map[1 := h]), World(t, map[1 := h]), last];
            && IsRun(worlds, Overlap(jobId, action, ids, newJob))
            && Unmoved(last.tables.rows, h.snap)
            && last.tables.jobs == t.jobs
            && (Overwrites(worlds, Overlap(jobId, action, ids, newJob), 4) <==> !Unmoved(t.rows, h.snap))
  {
    var h := Held(jobId, s.jobs[jobId].undo.value);
    assert map[0 := h] - {0} == map[];
    assert map[0 := h, 1 := h] - {0} == map[1 := h] && map[1 := h] - {1} == map[];
    assert jobId in t.jobs && t.jobs[jobId].undone;
    ReplayRestores(t.rows, h.snap);
    var events := Overlap(jobId, action, ids, newJob);
    assert Replays(World(s, map[0 := h, 1 := h]), events[2], jobId);
  }
}
