/** Sequences of bulk calls, and undoing them last-in-first-out. */
module BulkRuns {
  import opened Common
  import opened Bulk

  /** A BulkApply call and the id its job gets, if it makes one. */
  datatype Call = Call(action: Action, ids: seq<Uuid>, jobId: Uuid)

  /** The calls take states[0] to states[1], states[2], and so on; each job id is new. */
  ghost predicate Session(states: seq<Tables>, calls: seq<Call>) {
    && |states| == |calls| + 1
    && forall i :: 0 <= i < |calls| ==>
         calls[i].jobId !in states[i].jobs &&
         Applies(states[i], calls[i].action, calls[i].ids, calls[i].jobId, states[i + 1])
  }

  /** BulkUndo on the job of every call, the latest first; a call that made no job, or a delete, is refused. */
  function UndoAll(s: Tables, calls: seq<Call>): Tables
    decreases |calls|
  {
    if calls == [] then s else UndoAll(Undone(s, calls[|calls| - 1].jobId), calls[..|calls| - 1])
  }

  ghost predicate FreshIds(calls: seq<Call>) {
    forall i, j :: 0 <= i < j < |calls| ==> calls[i].jobId != calls[j].jobId
  }

  /** The rows of x are rows of y with the same state, block and tags. */
  ghost predicate Agrees(x: Rows, y: Rows) { forall c :: c in x ==> c in y && SnapOf(c, x[c]) == SnapOf(c, y[c]) }

  /** Outside the ids the rows are the same rows. */
  ghost predicate SameOutside(x: Rows, y: Rows, ids: set<Uuid>) {
    forall c :: c !in ids ==> (c in x <==> c in y) && (c in x ==> x[c] == y[c])
  }

  /** The jobs of the calls are in t as they are in s. */
  ghost predicate SameJobs(s: Tables, t: Tables, calls: seq<Call>) {
    forall i :: 0 <= i < |calls| ==>
      (calls[i].jobId in s.jobs <==> calls[i].jobId in t.jobs) &&
      (calls[i].jobId in s.jobs ==> s.jobs[calls[i].jobId] == t.jobs[calls[i].jobId])
  }

  function Touched(calls: seq<Call>): set<Uuid> { set i, c | 0 <= i < |calls| && c in calls[i].ids :: c }

  lemma UndoneRow(x: Rows, was: Rows, a: Action, ids: set<Uuid>, snap: seq<Snap>, c: Uuid)
    requires !a.Delete? && IsSnapshot(was, ids, snap)
    requires c in x && c in was && SnapOf(c, x[c]) == SnapOf(c, Acted(was, a, ids)[c])
    ensures c in Restored(x, snap) && SnapOf(c, Restored(x, snap)[c]) == SnapOf(c, was[c])
    ensures c !in ids ==> Restored(x, snap)[c] == x[c]
    ensures Restored(x, snap)[c].schedule == x[c].schedule
  {
    RestoredRow(x, snap, was, c);
  }

  /** Undoing one call: from rows that agree with the state after it to rows that agree with the state before it. */
  lemma UndoOne(x: Tables, was: Tables, after: Tables, call: Call)
    requires call.jobId !in was.jobs && Applies(was, call.action, call.ids, call.jobId, after)
    requires Agrees(x.rows, after.rows) && SameJobs(after, x, [call])
    ensures var y := Undone(x, call.jobId);
            && Agrees(y.rows, was.rows) && y.rows.Keys == x.rows.Keys
            && (forall c :: c in x.rows ==> y.rows[c].schedule == x.rows[c].schedule)
            && SameOutside(y.rows, x.rows, Selected(call.ids))
  {
    assert [call][0] == call;
    if CanUndo(x, call.jobId) {
      var snap := x.jobs[call.jobId].undo.value;
      RestoredKeys(x.rows, snap);
      forall c | c in x.rows
        ensures c in was.rows && SnapOf(c, Restored(x.rows, snap)[c]) == SnapOf(c, was.rows[c])
        ensures Restored(x.rows, snap)[c].schedule == x.rows[c].schedule
        ensures c !in Selected(call.ids) ==> Restored(x.rows, snap)[c] == x.rows[c]
      {
        UndoneRow(x.rows, was.rows, call.action, Selected(call.ids), snap, c);
      }
    }
  }

  lemma EarlierJobs(x: Tables, was: Tables, after: Tables, calls: seq<Call>)
    requires calls != [] && FreshIds(calls) && SameJobs(after, x, calls)
    requires var call := calls[|calls| - 1];
             call.jobId !in was.jobs && Applies(was, call.action, call.ids, call.jobId, after)
    ensures SameJobs(was, Undone(x, calls[|calls| - 1].jobId), calls[..|calls| - 1])
    ensures SameJobs(after, x, [calls[|calls| - 1]])
  {
    var n := |calls| - 1;
    forall i | 0 <= i < n ensures calls[..n][i] == calls[i] && calls[i].jobId != calls[n].jobId {}
    assert calls[n] == [calls[n]][0];
  }

  lemma {:induction false} UndoAllAgrees(states: seq<Tables>, calls: seq<Call>, x: Tables)
    requires Session(states, calls) && FreshIds(calls)
    requires Agrees(x.rows, states[|calls|].rows) && SameJobs(states[|calls|], x, calls)
    ensures var y := UndoAll(x, calls);
            && Agrees(y.rows, states[0].rows) && y.rows.Keys == x.rows.Keys
            && (forall c :: c in x.rows ==> y.rows[c].schedule == x.rows[c].schedule)
            && SameOutside(y.rows, x.rows, Touched(calls))
  {
    if calls != [] {
      var n := |calls| - 1;
      var call, x' := calls[n], Undone(x, calls[n].jobId);
      EarlierJobs(x, states[n], states[n + 1], calls);
      UndoOne(x, states[n], states[n + 1], call);
      assert Session(states[..n + 1], calls[..n]) && FreshIds(calls[..n]);
      UndoAllAgrees(states[..n + 1], calls[..n], x');
      TouchedGrows(calls);
    }
  }

  lemma TouchedGrows(calls: seq<Call>)
    requires calls != []
    ensures Touched(calls) == Touched(calls[..|calls| - 1]) + Selected(calls[|calls| - 1].ids)
  {
    var n := |calls| - 1;
    forall c ensures c in Touched(calls) <==> c in Touched(calls[..n]) + Selected(calls[n].ids) {
      if c in Touched(calls) {
        var i :| 0 <= i < |calls| && c in calls[i].ids;
        assert i < n ==> calls[..n][i] == calls[i];
      }
      if c in Touched(calls[..n]) {
        var i :| 0 <= i < n && c in calls[..n][i].ids;
        assert calls[i] == calls[..n][i];
      }
    }
  }

  lemma {:induction false} SessionOutside(states: seq<Tables>, calls: seq<Call>)
    requires Session(states, calls)
    ensures SameOutside(states[|calls|].rows, states[0].rows, Touched(calls))
  {
    if calls != [] {
      var n := |calls| - 1;
      assert Session(states[..n + 1], calls[..n]);
      SessionOutside(states[..n + 1], calls[..n]);
      TouchedGrows(calls);
    }
  }

  /**
   * Make any bulk calls and then ask to undo each of their jobs in reverse order: the surviving rows have the state,
   * block and tags they started with, deleted rows stay deleted, schedules stay as the calls left them, and rows
   * outside every selection have not changed at all.
   */
  lemma LastInFirstOutUndo(states: seq<Tables>, calls: seq<Call>)
    requires Session(states, calls) && FreshIds(calls)
    ensures var before, after := states[0], states[|calls|];
            var back := UndoAll(after, calls);
            && back.rows.Keys == after.rows.Keys
            && Agrees(back.rows, before.rows)
            && (forall c :: c in back.rows ==> back.rows[c].schedule == after.rows[c].schedule)
            && SameOutside(back.rows, before.rows, Touched(calls))
  {
    UndoAllAgrees(states, calls, states[|calls|]);
    SessionOutside(states, calls);
  }

  /** A schedule set in bulk outlives the job's undo. */
  lemma ScheduleSurvivesUndo(s: Tables, t: Tables, c: Uuid, schedule: Option<string>, jobId: Uuid)
    requires c in s.rows && s.rows[c].schedule != schedule && jobId !in s.jobs
    requires Applies(s, SetSchedule(schedule), [c], jobId, t)
    ensures var back := Undone(t, jobId);
            CanUndo(t, jobId) && c in back.rows && back.rows[c].schedule == schedule != s.rows[c].schedule
  {
    var calls := [Call(SetSchedule(schedule), [c], jobId)];
    assert calls[..0] == [];
    assert Session([s, t], calls) && UndoAll(t, calls) == Undone(t, jobId);
    LastInFirstOutUndo([s, t], calls);
    assert c in t.rows && t.rows[c].schedule == schedule;
  }
}
