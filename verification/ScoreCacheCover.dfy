/**
 * When a hit is current, with handlers overlapping and Redis calls failing: every cached page is fresh or about to be
 * dropped, until one of three things happens.
 */
module ScoreCacheCover {
  import opened Common
  import opened Ledger
  import opened ScoreCache
  import opened ScoreCacheRuns

  // ---------------------------------------------------------------- the invariant

  /** Some handler has committed and will drop the key. */
  ghost predicate Pending(s: State, key: string) { exists h :: h in s.handlers && s.handlers[h] == Committed(key) }

  ghost predicate FreshKey(s: State, key: string)
    requires s.past != []
  {
    FreshAt(Current(s), s.cache, s.now, key)
  }

  /** A hit on the key is current, or the key is about to be dropped. */
  ghost predicate CoveredAt(s: State, key: string)
    requires s.past != []
  {
    FreshKey(s, key) || Pending(s, key)
  }

  ghost predicate Covered(s: State)
    requires s.past != []
  {
    forall key :: CoveredAt(s, key)
  }

  // ---------------------------------------------------------------- the three ways to lose it

  /** A reader writes a page that has changed since its query, and no drop of the key is still to come. */
  ghost predicate LateSet(s: State, a: Action)
    requires s.past != []
  {
    && a.Set? && a.ok && a.h in s.handlers && s.handlers[a.h].Queried?
    && var r := s.handlers[a.h];
       ParseUuid(r.key).Some? && r.body != Page(Current(s), ParseUuid(r.key).value) && !Pending(s, r.key)
  }

  ghost predicate StrayAt(s: State, a: Action, key: string)
    requires s.past != [] && a.Commit?
  {
    && EventOf(a.op).Some?
    && Page(Apply(Current(s), a.op), EventOf(a.op).value) != Page(Current(s), EventOf(a.op).value)
    && MissedAt(s.cache, s.now, a.key, EventOf(a.op).value, key) && !Pending(s, key)
  }

  /** A commit changes a page cached under another spelling, and no drop of that spelling is to come. */
  ghost predicate StrayCommit(s: State, a: Action)
    requires s.past != []
  {
    a.Commit? && a.h !in s.handlers && exists key :: StrayAt(s, a, key)
  }

  ghost predicate PendingBesides(s: State, h: nat, key: string) {
    exists g :: g != h && g in s.handlers && s.handlers[g] == Committed(key)
  }

  /** The drop of a stale page fails, and it was the last one to come. */
  ghost predicate LostDrop(s: State, a: Action)
    requires s.past != []
  {
    && a.Del? && !a.ok && a.h in s.handlers && s.handlers[a.h].Committed?
    && !FreshKey(s, s.handlers[a.h].key) && !PendingBesides(s, a.h, s.handlers[a.h].key)
  }

  ghost predicate Offends(s: State, a: Action)
    requires s.past != []
  {
    LateSet(s, a) || StrayCommit(s, a) || LostDrop(s, a)
  }

  /** A transaction is for the event its request names. */
  predicate Named(a: Action) { a.Commit? && EventOf(a.op).Some? ==> ParseUuid(a.key) == EventOf(a.op) }

  // ---------------------------------------------------------------- one statement

  lemma PendingStays(s: State, t: State, key: string)
    requires Pending(s, key)
    requires forall h :: h in s.handlers && s.handlers[h] == Committed(key) ==>
               h in t.handlers && t.handlers[h] == s.handlers[h]
    ensures Pending(t, key)
  {
    var h :| h in s.handlers && s.handlers[h] == Committed(key);
    assert h in t.handlers;
  }

  /** Looking, querying and waiting cost nothing. */
  lemma IdleKeepsCovered(s: State, a: Action)
    requires s.past != [] && Covered(s) && (a.Get? || a.Query? || a.Tick?)
    ensures Covered(Step(s, a))
  {
    var t := Step(s, a);
    forall key ensures CoveredAt(t, key) {
      assert CoveredAt(s, key);
      if Pending(s, key) {
        PendingStays(s, t, key);
      }
    }
  }

  lemma SetKeepsPending(s: State, a: Action, key: string)
    requires s.past != [] && a.Set?
    ensures Pending(Step(s, a), key) <==> Pending(s, key)
  {
    if Pending(s, key) { PendingStays(s, Step(s, a), key); }
    if Pending(Step(s, a), key) { PendingStays(Step(s, a), s, key); }
  }

  predicate Writes(s: State, a: Action, key: string) {
    a.Set? && a.ok && a.h in s.handlers && s.handlers[a.h].Queried? && key == s.handlers[a.h].key
  }

  lemma SetCoveredAt(s: State, a: Action, key: string)
    requires s.past != [] && Honest(s) && CoveredAt(s, key) && a.Set?
    ensures CoveredAt(Step(s, a), key) <==> !(Writes(s, a, key) && LateSet(s, a))
  {
    var t := Step(s, a);
    SetKeepsPending(s, a, key);
    if Writes(s, a, key) {
      assert Hit(t.cache, key, t.now) == Some(s.handlers[a.h].body);
    } else {
      assert Hit(t.cache, key, t.now) == Hit(s.cache, key, s.now);
    }
  }

  lemma SetCoveredIff(s: State, a: Action)
    requires s.past != [] && Honest(s) && Covered(s) && a.Set?
    ensures Covered(Step(s, a)) <==> !LateSet(s, a)
  {
    forall key ensures CoveredAt(Step(s, a), key) <==> !(Writes(s, a, key) && LateSet(s, a)) {
      SetCoveredAt(s, a, key);
    }
    if LateSet(s, a) {
      assert Writes(s, a, s.handlers[a.h].key);
    }
  }

  lemma CommitCoveredIff(s: State, a: Action)
    requires s.past != [] && Covered(s) && a.Commit? && Named(a)
    ensures Covered(Step(s, a)) <==> !StrayCommit(s, a)
  {
    var t := Step(s, a);
    if a.h !in s.handlers {
      forall key ensures CoveredAt(t, key) <==> !StrayAt(s, a, key) {
        CommitCoveredAt(s, a, key);
      }
    }
  }

  lemma CommitCoveredAt(s: State, a: Action, key: string)
    requires s.past != [] && CoveredAt(s, key) && a.Commit? && Named(a) && a.h !in s.handlers
    ensures CoveredAt(Step(s, a), key) <==> !StrayAt(s, a, key)
  {
    var t := Step(s, a);
    if Pending(s, key) {
      PendingStays(s, t, key);
    } else if Pending(t, key) {
      var h :| h in t.handlers && t.handlers[h] == Committed(key);
      assert h == a.h && key == a.key;
    } else if ParseUuid(key).Some? {
      var event := ParseUuid(key).value;
      if Page(Apply(Current(s), a.op), event) != Page(Current(s), event) {
        ChangesAreAnnounced(Current(s), a.op, event);
        assert t.handlers[a.h] == Committed(a.key);
      }
    }
  }

  lemma DelCoveredIff(s: State, a: Action)
    requires s.past != [] && Covered(s) && a.Del?
    ensures Covered(Step(s, a)) <==> !LostDrop(s, a)
  {
    var t := Step(s, a);
    if a.h in s.handlers && s.handlers[a.h].Committed? {
      var mine := s.handlers[a.h].key;
      forall key | key != mine ensures CoveredAt(t, key) {
        assert CoveredAt(s, key);
        if Pending(s, key) {
          PendingStays(s, t, key);
        }
      }
      if PendingBesides(s, a.h, mine) {
        var g :| g != a.h && g in s.handlers && s.handlers[g] == Committed(mine);
        assert t.handlers[g] == Committed(mine);
      }
      if Pending(t, mine) {
        var g :| g in t.handlers && t.handlers[g] == Committed(mine);
        assert g != a.h && s.handlers[g] == Committed(mine);
      }
      assert CoveredAt(t, mine) <==> !LostDrop(s, a);
    }
  }

  /** From a covered state a statement leads to a covered state exactly when it does none of the three. */
  lemma StepCoveredIff(s: State, a: Action)
    requires s.past != [] && Honest(s) && Covered(s) && Named(a)
    ensures Covered(Step(s, a)) <==> !Offends(s, a)
  {
    match a
    case Get(_, _, _) => IdleKeepsCovered(s, a);
    case Query(_) => IdleKeepsCovered(s, a);
    case Set(_, _) => SetCoveredIff(s, a);
    case Commit(_, _, _) => CommitCoveredIff(s, a);
    case Del(_, _) => DelCoveredIff(s, a);
    case Tick(_) => IdleKeepsCovered(s, a);
  }

  // ---------------------------------------------------------------- whole runs

  ghost predicate AlwaysCovered(s: State, run: seq<Action>)
    requires s.past != []
  {
    Covered(Play(s, run)) && (run == [] || AlwaysCovered(s, run[..|run| - 1]))
  }

  ghost predicate NeverOffends(s: State, run: seq<Action>)
    requires s.past != []
  {
    run == [] || (NeverOffends(s, run[..|run| - 1]) && !Offends(Play(s, run[..|run| - 1]), run[|run| - 1]))
  }

  lemma {:induction false} HonestThroughout(s: State, run: seq<Action>)
    requires s.past != [] && Honest(s)
    ensures Honest(Play(s, run))
  {
    if run != [] {
      HonestThroughout(s, run[..|run| - 1]);
      StepHonest(Play(s, run[..|run| - 1]), run[|run| - 1]);
    }
  }

  /**
   * However handlers overlap and whichever Redis calls fail: every cached page is fresh or about to be dropped
   * throughout the run exactly when it has no late write, no stray commit and no lost drop.
   */
  lemma {:induction false} CoveredThroughoutIff(s: State, run: seq<Action>)
    requires s.past != [] && Honest(s) && Covered(s) && forall a :: a in run ==> Named(a)
    ensures AlwaysCovered(s, run) <==> NeverOffends(s, run)
  {
    if run != [] {
      var n := |run| - 1;
      CoveredThroughoutIff(s, run[..n]);
      HonestThroughout(s, run[..n]);
      if Covered(Play(s, run[..n])) {
        StepCoveredIff(Play(s, run[..n]), run[n]);
      }
    }
  }

  lemma StartIsCovered(db: Db, now: Time)
    ensures Honest(Begin(db, now)) && Covered(Begin(db, now))
  {
    forall key ensures CoveredAt(Begin(db, now), key) {
      assert FreshKey(Begin(db, now), key);
    }
  }

  /** Such a run shows a current page on every hit whose key nobody is about to drop. */
  lemma HitsAreCurrent(db: Db, now: Time, run: seq<Action>, key: string)
    requires (forall a :: a in run ==> Named(a)) && NeverOffends(Begin(db, now), run)
    ensures var s := Play(Begin(db, now), run);
            Hit(s.cache, key, s.now).Some? && !Pending(s, key) ==>
              ParseUuid(key).Some? && Hit(s.cache, key, s.now).value == Page(Current(s), ParseUuid(key).value)
  {
    StartIsCovered(db, now);
    CoveredThroughoutIff(Begin(db, now), run);
    assert CoveredAt(Play(Begin(db, now), run), key);
  }

  lemma {:induction false} NeverOffendsConcat(s: State, xs: seq<Action>, ys: seq<Action>)
    requires s.past != []
    ensures NeverOffends(s, xs + ys) <==> NeverOffends(s, xs) && NeverOffends(Play(s, xs), ys)
  {
    if ys == [] {
      assert xs + ys == xs;
    } else {
      var n := |ys| - 1;
      NeverOffendsConcat(s, xs, ys[..n]);
      PlayConcat(s, xs, ys[..n]);
      assert (xs + ys)[..|xs + ys| - 1] == xs + ys[..n];
    }
  }

  lemma NeverOffendsOne(s: State, a: Action)
    requires s.past != []
    ensures NeverOffends(s, [a]) <==> !Offends(s, a)
  {
    assert [a][..0] == [] && Play(s, [a][..0]) == s;
  }

  lemma NeverOffendsTwo(s: State, a: Action, b: Action)
    requires s.past != []
    ensures NeverOffends(s, [a, b]) <==> !Offends(s, a) && !Offends(Step(s, a), b)
  {
    assert [a] + [b] == [a, b];
    NeverOffendsConcat(s, [a], [b]);
    PlayOne(s, a);
    NeverOffendsOne(s, a);
    NeverOffendsOne(Step(s, a), b);
  }

  lemma NeverOffendsThree(s: State, a: Action, b: Action, c: Action)
    requires s.past != []
    ensures NeverOffends(s, [a, b, c]) <==>
            !Offends(s, a) && !Offends(Step(s, a), b) && !Offends(Step(Step(s, a), b), c)
  {
    assert [a, b] + [c] == [a, b, c];
    NeverOffendsConcat(s, [a, b], [c]);
    PlayTwo(s, a, b);
    NeverOffendsTwo(s, a, b);
    NeverOffendsOne(Step(Step(s, a), b), c);
  }

  // ---------------------------------------------------------------- each of the three happens

  /** The change is to the page of the event that both texts name. */
  ghost predicate Alters(db: Db, op: Op, event: Uuid, reader: string, writer: string) {
    && ParseUuid(reader) == Some(event) && ParseUuid(writer) == Some(event) && EventOf(op) == Some(event)
    && Page(Apply(db, op), event) != Page(db, event)
  }

  /** Nothing is under way, and for less than two seconds yet hits show the page from before the change. */
  ghost predicate StaleAfter(s: State, db: Db, op: Op, event: Uuid, reader: string)
    requires s.past != []
  {
    && Current(s) == Apply(db, op) && s.handlers == map[]
    && Hit(s.cache, reader, s.now) == Some(Page(db, event)) != Some(Page(Current(s), event))
  }

  lemma ReaderQueries(db: Db, now: Time, event: Uuid, text: string)
    requires ParseUuid(text) == Some(event)
    ensures Play(Begin(db, now), [Get(0, text, true), Query(0)]) ==
            State([db], map[], now, map[0 := Queried(text, Page(db, event))])
  {
    PlayTwo(Begin(db, now), Get(0, text, true), Query(0));
  }

  lemma ReaderCaches(db: Db, now: Time, event: Uuid, text: string)
    requires ParseUuid(text) == Some(event)
    ensures Play(Begin(db, now), [Get(0, text, true), Query(0), Set(0, true)]) ==
            State([db], map[text := Cached(Page(db, event), now)], now, map[])
  {
    PlayThree(Begin(db, now), Get(0, text, true), Query(0), Set(0, true));
    PlayTwo(Begin(db, now), Get(0, text, true), Query(0));
    ReaderQueries(db, now, event, text);
  }

  function Waiting(past: seq<Db>, now: Time, text: string, body: Body): State {
    State(past, map[], now, map[0 := Queried(text, body)])
  }

  lemma WriterPasses(db: Db, now: Time, op: Op, event: Uuid, text: string, body: Body)
    requires Alters(db, op, event, text, text)
    ensures Play(Waiting([db], now, text, body), [Commit(1, text, op), Del(1, true)]) ==
            Waiting([db, Apply(db, op)], now, text, body)
  {
    ChangesAreAnnounced(db, op, event);
    var q := Waiting([db], now, text, body);
    PlayTwo(q, Commit(1, text, op), Del(1, true));
    assert Step(Step(q, Commit(1, text, op)), Del(1, true)).handlers == map[0 := Queried(text, body)];
  }

  /** A change that commits and is dropped between a reader's query and its write. */
  lemma OverlapGoesStale(db: Db, now: Time, op: Op, event: Uuid, text: string, d: nat)
    requires Alters(db, op, event, text, text) && d < TwoSeconds
    ensures var q := Play(Begin(db, now), [Get(0, text, true), Query(0)]);
            var s := Play(q, [Commit(1, text, op), Del(1, true)]);
            && LateSet(s, Set(0, true))
            && StaleAfter(Play(s, [Set(0, true), Tick(d)]), db, op, event, text)
  {
    ReaderQueries(db, now, event, text);
    WriterPasses(db, now, op, event, text, Page(db, event));
    var s := Waiting([db, Apply(db, op)], now, text, Page(db, event));
    PlayTwo(s, Set(0, true), Tick(d));
    assert Step(s, Set(0, true)).handlers == map[];
  }

  /** One handler after the other, with reader and writer spelling the event id differently. */
  lemma SpellingGoesStale(db: Db, now: Time, op: Op, event: Uuid, reader: string, writer: string, d: nat)
    requires Alters(db, op, event, reader, writer) && reader != writer && d < TwoSeconds
    ensures var s := Play(Begin(db, now), [Get(0, reader, true), Query(0), Set(0, true)]);
            && StrayCommit(s, Commit(0, writer, op))
            && StaleAfter(Play(s, [Commit(0, writer, op), Del(0, true), Tick(d)]), db, op, event, reader)
  {
    ChangesAreAnnounced(db, op, event);
    ReaderCaches(db, now, event, reader);
    var s := State([db], map[reader := Cached(Page(db, event), now)], now, map[]);
    assert StrayAt(s, Commit(0, writer, op), reader);
    PlayThree(s, Commit(0, writer, op), Del(0, true), Tick(d));
    assert Step(Step(s, Commit(0, writer, op)), Del(0, true)).handlers == map[];
  }

  /** One handler after the other and one spelling, with the drop failing. */
  lemma FailedDropGoesStale(db: Db, now: Time, op: Op, event: Uuid, text: string, d: nat)
    requires Alters(db, op, event, text, text) && d < TwoSeconds
    ensures var s := Play(Begin(db, now), [Get(0, text, true), Query(0), Set(0, true)]);
            && LostDrop(Step(s, Commit(0, text, op)), Del(0, false))
            && StaleAfter(Play(s, [Commit(0, text, op), Del(0, false), Tick(d)]), db, op, event, text)
  {
    ChangesAreAnnounced(db, op, event);
    ReaderCaches(db, now, event, text);
    var s := State([db], map[text := Cached(Page(db, event), now)], now, map[]);
    PlayThree(s, Commit(0, text, op), Del(0, false), Tick(d));
    assert Step(Step(s, Commit(0, text, op)), Del(0, false)).handlers == map[];
  }
}
