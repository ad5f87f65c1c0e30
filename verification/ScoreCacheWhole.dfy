/** Runs of whole requests, one after the other with Redis working: exactly when every cached page is fresh. */
module ScoreCacheWhole {
  import opened Common
  import opened Ledger
  import opened ScoreCache
  import opened ScoreCacheRuns
  import opened ScoreCacheCover

  /** A request and the event id as it spells it. */
  datatype Request = Read(text: string) | Change(text: string, op: Op) | Pause(d: nat)

  function Steps(r: Request): seq<Action> {
    match r
    case Read(text) => [Get(0, text, true), Query(0), Set(0, true)]
    case Change(text, op) => [Commit(0, text, op), Del(0, true)]
    case Pause(d) => [Tick(d)]
  }

  function Whole(rs: seq<Request>): seq<Action> {
    if rs == [] then [] else Whole(rs[..|rs| - 1]) + Steps(rs[|rs| - 1])
  }

  /** A transaction is for the event its request names. */
  predicate WellNamed(r: Request) { r.Change? && EventOf(r.op).Some? ==> ParseUuid(r.text) == EventOf(r.op) }

  function After(db: Db, now: Time, rs: seq<Request>): (s: State)
    ensures s.past != []
  {
    Play(Begin(db, now), Whole(rs))
  }

  ghost predicate FreshState(s: State)
    requires s.past != []
  {
    Fresh(Current(s), s.cache, s.now)
  }

  /** The request changes a page that is cached under another spelling. */
  ghost predicate MissedBy(s: State, r: Request)
    requires s.past != []
  {
    r.Change? && Missed(Current(s), s.cache, s.now, r.text, r.op)
  }

  /** The statements of a request, one after the other. */
  function Alone(s: State, r: Request): (t: State)
    requires s.past != []
    ensures t.past != []
  {
    match r
    case Read(text) => Step(Step(Step(s, Get(0, text, true)), Query(0)), Set(0, true))
    case Change(text, op) => Step(Step(s, Commit(0, text, op)), Del(0, true))
    case Pause(d) => Step(s, Tick(d))
  }

  lemma PlaySteps(s: State, r: Request)
    requires s.past != []
    ensures Play(s, Steps(r)) == Alone(s, r)
  {
    match r
    case Read(text) => PlayThree(s, Get(0, text, true), Query(0), Set(0, true));
    case Change(text, op) => PlayTwo(s, Commit(0, text, op), Del(0, true));
    case Pause(d) => PlayOne(s, Tick(d));
  }

  /** What a request's handler does to database, cache and clock when it runs alone. */
  ghost predicate Did(s: State, r: Request, t: State)
    requires s.past != [] && t.past != []
  {
    && t.handlers == map[]
    && Current(t) == (if r.Change? then Apply(Current(s), r.op) else Current(s))
    && t.now == (if r.Pause? then s.now + r.d else s.now)
    && (r.Read? ==> t.cache == AfterRead(Current(s), s.cache, s.now, r.text))
    && (r.Change? ==> t.cache == AfterChange(Current(s), s.cache, r.text, r.op))
    && (r.Pause? ==> t.cache == s.cache)
  }

  lemma OneRequest(s: State, r: Request)
    requires s.past != [] && s.handlers == map[]
    ensures Did(s, r, Alone(s, r))
  {
    assert Alone(s, r).handlers == map[];
  }

  lemma NextRequest(db: Db, now: Time, rs: seq<Request>)
    requires rs != []
    ensures After(db, now, rs) == Alone(After(db, now, rs[..|rs| - 1]), rs[|rs| - 1])
  {
    PlayConcat(Begin(db, now), Whole(rs[..|rs| - 1]), Steps(rs[|rs| - 1]));
    PlaySteps(After(db, now, rs[..|rs| - 1]), rs[|rs| - 1]);
  }

  lemma {:induction false} NothingUnderWay(db: Db, now: Time, rs: seq<Request>)
    ensures After(db, now, rs).handlers == map[]
  {
    if rs != [] {
      NothingUnderWay(db, now, rs[..|rs| - 1]);
      NextRequest(db, now, rs);
      OneRequest(After(db, now, rs[..|rs| - 1]), rs[|rs| - 1]);
    }
  }

  /** From a fresh cache, one request leaves a fresh cache exactly when it misses nothing. */
  lemma RequestFreshIff(s: State, r: Request)
    requires s.past != [] && s.handlers == map[] && FreshState(s) && WellNamed(r)
    ensures FreshState(Alone(s, r)) <==> !MissedBy(s, r)
  {
    OneRequest(s, r);
    match r
    case Read(text) => ReadKeepsFresh(Current(s), s.cache, s.now, text);
    case Change(text, op) => ChangeKeepsFreshIff(Current(s), s.cache, s.now, text, op);
    case Pause(d) => WaitKeepsFresh(Current(s), s.cache, s.now, d);
  }

  /** Every hit is fresh after each request of the run. */
  ghost predicate AlwaysFresh(db: Db, now: Time, rs: seq<Request>) {
    FreshState(After(db, now, rs)) && (rs == [] || AlwaysFresh(db, now, rs[..|rs| - 1]))
  }

  /** No request of the run changes a page that is cached under another spelling just before it. */
  ghost predicate NeverMissed(db: Db, now: Time, rs: seq<Request>) {
    rs == [] || (NeverMissed(db, now, rs[..|rs| - 1]) && !MissedBy(After(db, now, rs[..|rs| - 1]), rs[|rs| - 1]))
  }

  /** A reader alone writes the page it has just queried. */
  lemma ReadIsInTime(s: State, text: string)
    requires s.past != [] && s.handlers == map[]
    ensures !LateSet(Step(Step(s, Get(0, text, true)), Query(0)), Set(0, true))
  {
    var q := Step(s, Get(0, text, true));
    assert q.handlers == map[] || q.handlers == map[0 := Looked(text)];
  }

  /** A request that runs alone does none of the things that cost freshness, except to miss a page. */
  lemma RequestOffendsIff(s: State, r: Request)
    requires s.past != [] && s.handlers == map[]
    ensures NeverOffends(s, Steps(r)) <==> !MissedBy(s, r)
  {
    match r
    case Read(text) =>
      NeverOffendsThree(s, Get(0, text, true), Query(0), Set(0, true));
      ReadIsInTime(s, text);
    case Change(text, op) =>
      NeverOffendsTwo(s, Commit(0, text, op), Del(0, true));
      CommitOffendsIff(s, text, op);
    case Pause(d) => NeverOffendsOne(s, Tick(d));
  }

  lemma CommitOffendsIff(s: State, text: string, op: Op)
    requires s.past != [] && s.handlers == map[]
    ensures StrayCommit(s, Commit(0, text, op)) <==> Missed(Current(s), s.cache, s.now, text, op)
  {
    var a := Commit(0, text, op);
    if Missed(Current(s), s.cache, s.now, text, op) {
      var key :| MissedAt(s.cache, s.now, text, EventOf(op).value, key);
      assert StrayAt(s, a, key);
    }
  }

  lemma {:induction false} WholeOffendsIff(db: Db, now: Time, rs: seq<Request>)
    ensures NeverOffends(Begin(db, now), Whole(rs)) <==> NeverMissed(db, now, rs)
  {
    if rs != [] {
      var before := rs[..|rs| - 1];
      WholeOffendsIff(db, now, before);
      NothingUnderWay(db, now, before);
      NeverOffendsConcat(Begin(db, now), Whole(before), Steps(rs[|rs| - 1]));
      RequestOffendsIff(After(db, now, before), rs[|rs| - 1]);
    }
  }

  /**
   * In a run of requests one after the other, every hit equals a fresh query throughout exactly when no change alters
   * a page that is cached under a spelling other than the writer's: of the three offences only the stray commit is
   * possible.
   */
  lemma {:induction false} FreshThroughoutIff(db: Db, now: Time, rs: seq<Request>)
    requires forall r :: r in rs ==> WellNamed(r)
    ensures AlwaysFresh(db, now, rs) <==> NeverMissed(db, now, rs)
    ensures NeverMissed(db, now, rs) <==> NeverOffends(Begin(db, now), Whole(rs))
  {
    WholeOffendsIff(db, now, rs);
    if rs == [] {
      assert Fresh(db, map[], now);
    } else {
      var n := |rs| - 1;
      FreshThroughoutIff(db, now, rs[..n]);
      NextRequest(db, now, rs);
      NothingUnderWay(db, now, rs[..n]);
      if FreshState(After(db, now, rs[..n])) {
        RequestFreshIff(After(db, now, rs[..n]), rs[n]);
      }
    }
  }

  // ---------------------------------------------------------------- one spelling

  predicate SpellsAs(r: Request, q: Request) {
    q.Read? && r.Change? && ParseUuid(q.text).Some? && ParseUuid(q.text) == ParseUuid(r.text) ==> q.text == r.text
  }

  /** The readers of an event spell it as its writers do. */
  ghost predicate OneSpelling(rs: seq<Request>) { forall q, r :: q in rs && r in rs ==> SpellsAs(r, q) }

  lemma {:induction false} CachedByReaders(db: Db, now: Time, rs: seq<Request>)
    ensures forall key :: key in After(db, now, rs).cache ==> Read(key) in rs
  {
    if rs != [] {
      var n := |rs| - 1;
      CachedByReaders(db, now, rs[..n]);
      NothingUnderWay(db, now, rs[..n]);
      NextRequest(db, now, rs);
      OneRequest(After(db, now, rs[..n]), rs[n]);
    }
  }

  /** If readers and writers spell each event one way, every hit equals a fresh query, in every run. */
  lemma {:induction false} OneSpellingIsFresh(db: Db, now: Time, rs: seq<Request>)
    requires (forall r :: r in rs ==> WellNamed(r)) && OneSpelling(rs)
    ensures AlwaysFresh(db, now, rs)
  {
    NotMissed(db, now, rs);
    FreshThroughoutIff(db, now, rs);
  }

  lemma NotMissedBy(db: Db, now: Time, before: seq<Request>, r: Request)
    requires WellNamed(r) && forall q :: q in before ==> SpellsAs(r, q)
    ensures !MissedBy(After(db, now, before), r)
  {
    var s := After(db, now, before);
    CachedByReaders(db, now, before);
    if r.Change? && EventOf(r.op).Some? {
      forall key ensures !MissedAt(s.cache, s.now, r.text, EventOf(r.op).value, key) {
        if key in s.cache {
          assert SpellsAs(r, Read(key));
        }
      }
    }
  }

  lemma {:induction false} NotMissed(db: Db, now: Time, rs: seq<Request>)
    requires (forall r :: r in rs ==> WellNamed(r)) && OneSpelling(rs)
    ensures NeverMissed(db, now, rs)
  {
    if rs != [] {
      var before, r := rs[..|rs| - 1], rs[|rs| - 1];
      forall q | q in before ensures q in rs {}
      NotMissed(db, now, before);
      NotMissedBy(db, now, before, r);
    }
  }
}
