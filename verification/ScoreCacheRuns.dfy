/** The same cache with handlers overlapping statement by statement and Redis calls failing. */
module ScoreCacheRuns {
  import opened Common
  import opened Ledger
  import opened ScoreCache

  /** A handler under way: a reader that found nothing, a reader that has queried, a writer that has committed. */
  datatype Handler = Looked(key: string) | Queried(key: string, body: Body) | Committed(key: string)

  /** `past` holds every committed state so far, the current one last. */
  datatype State = State(past: seq<Db>, cache: Cache, now: Time, handlers: map<nat, Handler>)

  /** `ok` is whether the Redis call of the action succeeds; a failed read is a miss. */
  datatype Action =
    | Get(h: nat, key: string, ok: bool)
    | Query(h: nat)
    | Set(h: nat, ok: bool)
    | Commit(h: nat, key: string, op: Op)
    | Del(h: nat, ok: bool)
    | Tick(d: nat)

  function Current(s: State): Db
    requires s.past != []
  {
    s.past[|s.past| - 1]
  }

  function Step(s: State, a: Action): (t: State)
    requires s.past != []
    ensures t.past != []
  {
    match a
    case Get(h, key, ok) =>
      if h in s.handlers || (ok && Hit(s.cache, key, s.now).Some?) then s
      else s.(handlers := s.handlers[h := Looked(key)])
    case Query(h) =>
      if h !in s.handlers || !s.handlers[h].Looked? then s
      else
        var event := ParseUuid(s.handlers[h].key);
        if event.None? then s.(handlers := s.handlers - {h})
        else s.(handlers := s.handlers[h := Queried(s.handlers[h].key, Page(Current(s), event.value))])
    case Set(h, ok) =>
      if h !in s.handlers || !s.handlers[h].Queried? then s
      else
        var r := s.handlers[h];
        s.(cache := if ok then s.cache[r.key := Cached(r.body, s.now)] else s.cache, handlers := s.handlers - {h})
    case Commit(h, key, op) =>
      if h in s.handlers then s
      else
        s.(past := s.past + [Apply(Current(s), op)],
           handlers := if Notifies(Current(s), op) then s.handlers[h := Committed(key)] else s.handlers)
    case Del(h, ok) =>
      if h !in s.handlers || !s.handlers[h].Committed? then s
      else s.(cache := if ok then s.cache - {s.handlers[h].key} else s.cache, handlers := s.handlers - {h})
    case Tick(d) => s.(now := s.now + d)
  }

  function Begin(db: Db, now: Time): State { State([db], map[], now, map[]) }

  function Play(s: State, run: seq<Action>): (t: State)
    requires s.past != []
    ensures t.past != []
  {
    if run == [] then s else Step(Play(s, run[..|run| - 1]), run[|run| - 1])
  }

  // ---------------------------------------------------------------- a hit is never invented

  /** The page of some committed state, present or past. */
  ghost predicate WasPage(past: seq<Db>, key: string, body: Body) {
    ParseUuid(key).Some? && exists i :: 0 <= i < |past| && body == Page(past[i], ParseUuid(key).value)
  }

  ghost predicate Honest(s: State) {
    && (forall key :: key in s.cache ==> WasPage(s.past, key, s.cache[key].body) && s.cache[key].setAt <= s.now)
    && (forall h :: h in s.handlers && s.handlers[h].Queried? ==>
          WasPage(s.past, s.handlers[h].key, s.handlers[h].body))
  }

  lemma WasStays(past: seq<Db>, db: Db, key: string, body: Body)
    requires WasPage(past, key, body)
    ensures WasPage(past + [db], key, body)
  {
    var i :| 0 <= i < |past| && body == Page(past[i], ParseUuid(key).value);
    assert (past + [db])[i] == past[i];
  }

  lemma StepHonest(s: State, a: Action)
    requires s.past != [] && Honest(s)
    ensures Honest(Step(s, a))
  {
    if a.Commit? && a.h !in s.handlers {
      var t := Step(s, a);
      forall key | key in t.cache ensures WasPage(t.past, key, t.cache[key].body) {
        WasStays(s.past, Apply(Current(s), a.op), key, t.cache[key].body);
      }
      forall h | h in t.handlers && t.handlers[h].Queried?
        ensures WasPage(t.past, t.handlers[h].key, t.handlers[h].body)
      {
        WasStays(s.past, Apply(Current(s), a.op), t.handlers[h].key, t.handlers[h].body);
      }
    }
  }

  lemma {:induction false} PlayHonest(db: Db, now: Time, run: seq<Action>)
    ensures Honest(Play(Begin(db, now), run))
  {
    if run != [] {
      PlayHonest(db, now, run[..|run| - 1]);
      StepHonest(Play(Begin(db, now), run[..|run| - 1]), run[|run| - 1]);
    }
  }

  /**
   * However handlers overlap and whichever Redis calls fail, a hit is some committed state's page, set less than two
   * seconds ago.
   */
  lemma HitsArePastPages(db: Db, now: Time, run: seq<Action>, key: string)
    ensures var s := Play(Begin(db, now), run);
            Hit(s.cache, key, s.now).Some? ==>
              && WasPage(s.past, key, Hit(s.cache, key, s.now).value)
              && s.cache[key].setAt <= s.now < s.cache[key].setAt + TwoSeconds
  {
    PlayHonest(db, now, run);
  }

  // ---------------------------------------------------------------- runs in pieces

  lemma {:induction false} PlayConcat(s: State, xs: seq<Action>, ys: seq<Action>)
    requires s.past != []
    ensures Play(s, xs + ys) == Play(Play(s, xs), ys)
  {
    if ys == [] {
      assert xs + ys == xs;
    } else {
      var n := |ys| - 1;
      PlayConcat(s, xs, ys[..n]);
      assert (xs + ys)[..|xs + ys| - 1] == xs + ys[..n];
    }
  }

  lemma PlayOne(s: State, a: Action)
    requires s.past != []
    ensures Play(s, [a]) == Step(s, a)
  {
    assert [a][..0] == [];
  }

  lemma PlayTwo(s: State, a: Action, b: Action)
    requires s.past != []
    ensures Play(s, [a, b]) == Step(Step(s, a), b)
  {
    PlayOne(s, a);
    PlayOne(Step(s, a), b);
    PlayConcat(s, [a], [b]);
    assert [a] + [b] == [a, b];
  }

  lemma PlayThree(s: State, a: Action, b: Action, c: Action)
    requires s.past != []
    ensures Play(s, [a, b, c]) == Step(Step(Step(s, a), b), c)
  {
    PlayTwo(s, a, b);
    PlayOne(Step(Step(s, a), b), c);
    PlayConcat(s, [a, b], [c]);
    assert [a, b] + [c] == [a, b, c];
  }
}
