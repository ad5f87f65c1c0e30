/** What each bulk action does, row by row and column by column. */
module BulkEffects {
  import opened Common
  import opened Bulk

  // ---------------------------------------------------------------- tags

  ghost predicate NoRepeats(tags: seq<string>) { forall i, j :: 0 <= i < j < |tags| ==> tags[i] != tags[j] }

  /** The tags of both lists, each once. */
  ghost predicate IsUnion(was: seq<string>, more: seq<string>, tags: seq<string>) {
    NoRepeats(tags) && forall x :: x in tags <==> x in was || x in more
  }

  /** tags[i] is was[at[i]], at rising positions, and these are all the positions of tags that are not gone. */
  ghost predicate Picks(at: seq<nat>, was: seq<string>, gone: seq<string>, tags: seq<string>) {
    && |at| == |tags|
    && (forall i :: 0 <= i < |at| ==> at[i] < |was| && tags[i] == was[at[i]])
    && (forall i, j :: 0 <= i < j < |at| ==> at[i] < at[j])
    && (forall k: nat :: k < |was| ==> (k in at <==> was[k] !in gone))
  }

  /** The tags that are not gone, in their order. */
  ghost predicate IsRest(was: seq<string>, gone: seq<string>, tags: seq<string>) {
    exists at: seq<nat> :: Picks(at, was, gone, tags)
  }

  lemma {:induction false} DistinctIsUnion(tags: seq<string>)
    ensures NoRepeats(Distinct(tags)) && forall x :: x in Distinct(tags) <==> x in tags
  {
    if tags != [] {
      var n := |tags| - 1;
      DistinctIsUnion(tags[..n]);
      assert tags == tags[..n] + [tags[n]];
    }
  }

  lemma PicksMore(at: seq<nat>, was: seq<string>, gone: seq<string>, tags: seq<string>, x: string)
    requires Picks(at, was, gone, tags)
    ensures x in gone ==> Picks(at, was + [x], gone, tags)
    ensures x !in gone ==> Picks(at + [|was|], was + [x], gone, tags + [x])
  {
    assert |was| !in at by {
      assert forall i :: 0 <= i < |at| ==> at[i] < |was|;
    }
    forall k: nat ensures k in at + [|was|] <==> k in at || k == |was| {}
  }

  lemma RestMore(was: seq<string>, gone: seq<string>, tags: seq<string>, x: string)
    requires IsRest(was, gone, tags)
    ensures IsRest(was + [x], gone, if x in gone then tags else tags + [x])
  {
    var at: seq<nat> :| Picks(at, was, gone, tags);
    PicksMore(at, was, gone, tags, x);
  }

  lemma DroppingStep(init: seq<string>, x: string, gone: seq<string>)
    ensures Dropping(init + [x], gone) == if x in gone then Dropping(init, gone) else Dropping(init, gone) + [x]
  {
    assert (init + [x])[..|init|] == init;
  }

  lemma RestOfNothing(gone: seq<string>)
    ensures IsRest([], gone, [])
  {
    assert Picks([], [], gone, []);
  }

  lemma RestSnoc(init: seq<string>, x: string, gone: seq<string>)
    requires IsRest(init, gone, Dropping(init, gone))
    ensures IsRest(init + [x], gone, Dropping(init + [x], gone))
  {
    DroppingStep(init, x, gone);
    RestMore(init, gone, Dropping(init, gone), x);
  }

  lemma {:induction false} DroppingIsRest(tags: seq<string>, gone: seq<string>)
    ensures IsRest(tags, gone, Dropping(tags, gone))
  {
    if tags == [] {
      RestOfNothing(gone);
    } else {
      var init, x := tags[..|tags| - 1], tags[|tags| - 1];
      assert tags == init + [x];
      DroppingIsRest(init, gone);
      RestSnoc(init, x, gone);
    }
  }

  // ---------------------------------------------------------------- rows

  /** What the action makes of a selected row. */
  ghost predicate Becomes(r: Row, a: Action, after: Row) {
    && after.event == r.event
    && after.state == (if a.SetState? then a.state else r.state)
    && after.block == (if a.AssignBlock? then a.block else r.block)
    && after.schedule == (if a.SetSchedule? then a.schedule else r.schedule)
    && (a.AddTags? ==> IsUnion(r.tags, a.tags, after.tags))
    && (a.RemoveTags? ==> IsRest(r.tags, a.tags, after.tags))
    && (!a.AddTags? && !a.RemoveTags? ==> after.tags == r.tags)
  }

  lemma EditedBecomes(r: Row, a: Action)
    requires !a.Delete? && !a.Unknown?
    ensures Becomes(r, a, Edited(r, a))
  {
    if a.AddTags? {
      DistinctIsUnion(r.tags + a.tags);
    } else if a.RemoveTags? {
      DroppingIsRest(r.tags, a.tags);
    }
  }

  /** The statement goes through: the action is known, and the block it assigns exists. */
  ghost predicate Possible(s: Tables, a: Action, ids: seq<Uuid>) {
    ids != [] && a != Unknown && forall b :: a == AssignBlock(Some(b)) ==> b in s.blocks
  }

  /** Exactly the selected rows change, each as the action says; every other row and column stays. */
  lemma ActionDoes(s: Tables, a: Action, ids: seq<Uuid>, jobId: Uuid, t: Tables)
    requires Applies(s, a, ids, jobId, t) && Possible(s, a, ids) && a != Delete
    ensures t.rows.Keys == s.rows.Keys && t.blocks == s.blocks
    ensures forall c :: c in s.rows && c in ids ==> Becomes(s.rows[c], a, t.rows[c])
    ensures forall c :: c in s.rows && c !in ids ==> t.rows[c] == s.rows[c]
  {
    assert a.AssignBlock? && a.block.Some? ==> a == AssignBlock(Some(a.block.value));
    forall c | c in s.rows && c in ids ensures Becomes(s.rows[c], a, t.rows[c]) {
      EditedBecomes(s.rows[c], a);
    }
  }

  /** A delete takes exactly the selected rows, and its job cannot be undone. */
  lemma DeleteTakesRows(s: Tables, ids: seq<Uuid>, jobId: Uuid, t: Tables)
    requires Applies(s, Delete, ids, jobId, t) && ids != []
    ensures t.blocks == s.blocks && forall c :: c in t.rows <==> c in s.rows && c !in ids
    ensures forall c :: c in t.rows ==> t.rows[c] == s.rows[c]
    ensures Undone(t, jobId) == t
  {
  }

  /** The job remembers the selected rows as they were, other jobs stay, and an impossible call leaves everything. */
  lemma ActionRecords(s: Tables, a: Action, ids: seq<Uuid>, jobId: Uuid, t: Tables)
    requires Applies(s, a, ids, jobId, t) && jobId !in s.jobs
    ensures !Possible(s, a, ids) ==> t == s
    ensures Possible(s, a, ids) ==>
              && t.jobs.Keys == s.jobs.Keys + {jobId} && !t.jobs[jobId].undone
              && forall j :: j in s.jobs ==> t.jobs[j] == s.jobs[j]
    ensures Possible(s, a, ids) && a != Delete ==>
              t.jobs[jobId].undo.Some? &&
              forall c, was ::
                Listed(t.jobs[jobId].undo.value, c, was) <==>
                c in s.rows && c in ids && was == Snap(c, s.rows[c].state, s.rows[c].block, s.rows[c].tags)
  {
    assert a.AssignBlock? && a.block.Some? ==> a == AssignBlock(Some(a.block.value));
  }

  ghost predicate Listed(snap: seq<Snap>, c: Uuid, was: Snap) { was in snap && was.id == c }
}
