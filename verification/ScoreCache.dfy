/** The scoreboard's two-second cache: read aside, written after a miss, dropped after a change. */
module ScoreCache {
  import opened Common
  import opened Ledger
  import opened LedgerFacts
  import opened Scoreboard

  /** The default page. */
  const PageSize := 100

  const TwoSeconds := 2_000_000_000

  type Body = seq<ScoreRow>

  function Page(db: Db, event: Uuid): Body { Limited(Ranking(db, event), PageSize) }

  // ---------------------------------------------------------------- the cache

  datatype Cached = Cached(body: Body, setAt: Time)

  /** Keys are "sb:" and the event id as the request spelled it; the prefix is left out here. */
  type Cache = map<string, Cached>

  function Hit(cache: Cache, key: string, now: Time): Option<Body> {
    if key in cache && now < cache[key].setAt + TwoSeconds then Some(cache[key].body) else None
  }

  // ---------------------------------------------------------------- which transactions announce themselves

  /** The handler around the transaction ends in scoreChanged. */
  predicate Notifies(db: Db, op: Op) {
    match op
    case Solve(_, _, _, _, _, _) => Accepted(db, op)
    case Award(_, _, _, _, _, _) => AnswerOf(db, op) == Applied(true)
    case Revoke(_, _, _) => AnswerOf(db, op) == Applied(true)
    case AssignTeam(event, team) => References(db, event, team)
    case UnassignTeam(_, _) => true
    case _ => false
  }

  function EventOf(op: Op): Option<Uuid> {
    match op
    case Solve(event, _, _, _, _, _) => Some(event)
    case Award(event, _, _, _, _, _) => Some(event)
    case Revoke(event, _, _) => Some(event)
    case AssignTeam(event, _) => Some(event)
    case UnassignTeam(event, _) => Some(event)
    case _ => None
  }

  lemma {:induction false} JoinedSame(a: Db, b: Db, event: Uuid, roster: seq<Spot>)
    requires a.teams == b.teams && forall team :: View(a.board, (event, team)) == View(b.board, (event, team))
    ensures Joined(a, event, roster) == Joined(b, event, roster)
  {
    if roster != [] {
      JoinedSame(a, b, event, roster[1..]);
    }
  }

  lemma {:induction false} JoinedIgnores(db: Db, event: Uuid, roster: seq<Spot>, at: Spot)
    requires at.0 != event
    ensures Joined(db, event, roster + [at]) == Joined(db, event, roster)
  {
    if roster == [] {
      assert roster + [at] == [at];
      assert Joined(db, event, [at][1..]) == [];
    } else {
      assert (roster + [at])[1..] == roster[1..] + [at] && (roster + [at])[0] == roster[0];
      JoinedIgnores(db, event, roster[1..], at);
    }
  }

  lemma {:induction false} JoinedSnoc(db: Db, event: Uuid, roster: seq<Spot>, at: Spot)
    ensures Joined(db, event, roster + [at]) == Joined(db, event, roster) + Joined(db, event, [at])
  {
    if roster == [] {
      assert roster + [at] == [at];
    } else {
      assert (roster + [at])[1..] == roster[1..] + [at] && (roster + [at])[0] == roster[0];
      JoinedSnoc(db, event, roster[1..], at);
    }
  }

  lemma {:induction false} JoinedDropped(db: Db, event: Uuid, roster: seq<Spot>, at: Spot)
    requires at.0 != event
    ensures Joined(db, event, Dropped(roster, at)) == Joined(db, event, roster)
  {
    if roster != [] {
      var n := |roster| - 1;
      JoinedDropped(db, event, roster[..n], at);
      assert roster == roster[..n] + [roster[n]];
      if roster[n] == at {
        JoinedIgnores(db, event, roster[..n], at);
        assert Dropped(roster, at) == Dropped(roster[..n], at) + [] == Dropped(roster[..n], at);
      } else {
        JoinedSnoc(db, event, roster[..n], roster[n]);
        JoinedSnoc(db, event, Dropped(roster[..n], at), roster[n]);
      }
    }
  }

  /** A page that changes belongs to the event of a transaction whose handler announces it. */
  lemma ChangesAreAnnounced(db: Db, op: Op, event: Uuid)
    requires Page(Apply(db, op), event) != Page(db, event)
    ensures Notifies(db, op) && EventOf(op) == Some(event)
  {
    var after := Apply(db, op);
    if !(Notifies(db, op) && EventOf(op) == Some(event)) {
      SilentOrElsewhere(db, op, event);
    }
  }

  lemma SilentOrElsewhere(db: Db, op: Op, event: Uuid)
    requires !Notifies(db, op) || EventOf(op) != Some(event)
    ensures Ranking(Apply(db, op), event) == Ranking(db, event)
  {
    var after := Apply(db, op);
    JoinedSame(db, after, event, after.roster);
    if op.AssignTeam? && Notifies(db, op) {
      JoinedIgnores(db, event, db.roster, (op.event, op.team));
    }
    if op.UnassignTeam? {
      JoinedDropped(db, event, db.roster, (op.event, op.team));
    }
  }

  // ---------------------------------------------------------------- handlers one at a time

  /** What a hit on the key would return now is what a query would. */
  ghost predicate FreshAt(db: Db, cache: Cache, now: Time, key: string) {
    Hit(cache, key, now).Some? ==> ParseUuid(key).Some? && Hit(cache, key, now).value == Page(db, ParseUuid(key).value)
  }

  ghost predicate Fresh(db: Db, cache: Cache, now: Time) { forall key :: FreshAt(db, cache, now, key) }

  /** The cache after the query of a reader that missed. */
  function AfterRead(db: Db, cache: Cache, now: Time, text: string): Cache {
    if Hit(cache, text, now).Some? || ParseUuid(text).None? then cache
    else cache[text := Cached(Page(db, ParseUuid(text).value), now)]
  }

  /** scoreChanged drops the key as the request spelled it. */
  function AfterChange(db: Db, cache: Cache, text: string, op: Op): Cache {
    if Notifies(db, op) then cache - {text} else cache
  }

  /** A page of the event that the change alters is cached under another spelling than the writer's. */
  ghost predicate Missed(db: Db, cache: Cache, now: Time, text: string, op: Op) {
    EventOf(op).Some? &&
    var event := EventOf(op).value;
    Page(Apply(db, op), event) != Page(db, event) &&
    exists key :: MissedAt(cache, now, text, event, key)
  }

  ghost predicate MissedAt(cache: Cache, now: Time, text: string, event: Uuid, key: string) {
    key != text && ParseUuid(key) == Some(event) && Hit(cache, key, now).Some?
  }

  lemma ReadKeepsFresh(db: Db, cache: Cache, now: Time, text: string)
    requires Fresh(db, cache, now)
    ensures Fresh(db, AfterRead(db, cache, now, text), now)
  {
    forall key ensures FreshAt(db, AfterRead(db, cache, now, text), now, key) {
      assert FreshAt(db, cache, now, key);
    }
  }

  /** After a change every cached page is fresh again exactly when no cached page of the event was missed. */
  lemma ChangeKeepsFreshIff(db: Db, cache: Cache, now: Time, text: string, op: Op)
    requires Fresh(db, cache, now) && (EventOf(op).Some? ==> ParseUuid(text) == EventOf(op))
    ensures Fresh(Apply(db, op), AfterChange(db, cache, text, op), now) <==> !Missed(db, cache, now, text, op)
  {
    var after := AfterChange(db, cache, text, op);
    if Missed(db, cache, now, text, op) {
      var key :| MissedAt(cache, now, text, EventOf(op).value, key);
      assert FreshAt(db, cache, now, key);
      assert !FreshAt(Apply(db, op), after, now, key);
    } else {
      forall key ensures FreshAt(Apply(db, op), after, now, key) {
        if Hit(after, key, now).Some? {
          assert FreshAt(db, cache, now, key) && Hit(cache, key, now) == Hit(after, key, now);
          var event := ParseUuid(key).value;
          assert Notifies(db, op) ==> MissedAt(cache, now, text, event, key);
          if Page(Apply(db, op), event) != Page(db, event) {
            ChangesAreAnnounced(db, op, event);
          }
        }
      }
    }
  }

  class Server {
    var db: Db
    var cache: Cache
    var now: Time

    constructor (db: Db, now: Time)
      ensures this.db == db && this.now == now && cache == map[]
      ensures Fresh(db, cache, now)
    {
      this.db, this.now, cache := db, now, map[];
    }

    /** handleScoreboard, with every Redis call succeeding; `text` is the event id as the request spelled it. */
    method HandleScoreboard(text: string, limit: nat) returns (res: Result<Body>)
      modifies this`cache
      ensures cache == if limit == PageSize then AfterRead(db, old(cache), now, text) else old(cache)
      ensures limit == PageSize && Hit(old(cache), text, now).Some? ==> res == Ok(Hit(old(cache), text, now).value)
      ensures !(limit == PageSize && Hit(old(cache), text, now).Some?) ==>
                res == if ParseUuid(text).None? then Err(DbError)
                      else Ok(Limited(Ranking(db, ParseUuid(text).value), limit))
      ensures FreshAt(db, old(cache), now, text) && ParseUuid(text).Some? ==>
                res == Ok(Limited(Ranking(db, ParseUuid(text).value), limit))
      ensures Fresh(db, old(cache), now) ==> Fresh(db, cache, now)
    {
      if Fresh(db, cache, now) {
        ReadKeepsFresh(db, cache, now, text);
      }
      var useCache := limit == PageSize;
      if useCache {
        var hit := Hit(cache, text, now);
        if hit.Some? {
          return Ok(hit.value);
        }
      }
      var event := ParseUuid(text);
      if event.None? {
        return Err(DbError);
      }
      var rows := Limited(Ranking(db, event.value), limit);
      if useCache {
        cache := cache[text := Cached(rows, now)];
      }
      res := Ok(rows);
    }

    /** Any handler that commits a transaction, for the event its request names by `text` or for none. */
    method HandleChange(text: string, op: Op)
      requires EventOf(op).Some? ==> ParseUuid(text) == EventOf(op)
      modifies this`db, this`cache
      ensures db == Apply(old(db), op)
      ensures cache == AfterChange(old(db), old(cache), text, op)
      ensures Fresh(old(db), old(cache), now) ==>
                (Fresh(db, cache, now) <==> !Missed(old(db), old(cache), now, text, op))
    {
      if Fresh(db, cache, now) {
        ChangeKeepsFreshIff(db, cache, now, text, op);
      }
      var notify := Notifies(db, op);
      db := Apply(db, op);
      if notify {
        cache := cache - {text};
      }
    }

    method Wait(d: nat)
      modifies this`now
      ensures now == old(now) + d
      ensures Fresh(db, cache, old(now)) ==> Fresh(db, cache, now)
    {
      ghost var before := now;
      now := now + d;
      if Fresh(db, cache, before) {
        WaitKeepsFresh(db, cache, before, d);
      }
    }
  }

  lemma WaitKeepsFresh(db: Db, cache: Cache, now: Time, d: nat)
    requires Fresh(db, cache, now)
    ensures Fresh(db, cache, now + d)
  {
    var later := now + d;
    forall key ensures FreshAt(db, cache, later, key) {
      assert FreshAt(db, cache, now, key);
    }
  }

  // ---------------------------------------------------------------- what is cached, and who announces

  /** A page is the first hundred rows of the ranking, or all of them. */
  lemma PageIsTheTop(db: Db, event: Uuid)
    ensures Page(db, event) <= Ranking(db, event)
    ensures |Page(db, event)| == if |Ranking(db, event)| < 100 then |Ranking(db, event)| else 100
  {
  }

  /** An entry is shown for two seconds, and only under its own key. */
  lemma HitUntil(cache: Cache, key: string, now: Time)
    ensures Hit(cache, key, now).Some? <==> key in cache && now < cache[key].setAt + 2_000_000_000
    ensures Hit(cache, key, now).Some? ==> Hit(cache, key, now).value == cache[key].body
  {
  }

  /** A solve, an award or a reversal is announced exactly when it writes to the ledger. */
  lemma LedgerChangesAreAnnounced(db: Db, op: Op)
    requires op.Solve? || op.Award? || op.Revoke?
    ensures Notifies(db, op) <==> Apply(db, op).ledger != db.ledger
  {
    if op.Revoke? {
      var k := Key(op.event, PluginSource(op.plugin), op.ref);
      WithoutMembers(db.ledger, k);
      if HasKey(db.ledger, k) {
        assert RowOf(db.ledger, k) in db.ledger && RowOf(db.ledger, k) !in Without(db.ledger, k);
      }
    }
  }

  /** Nothing that edits challenges or records a wrong submission is announced; a team's leaving always is. */
  lemma OthersAreNot(db: Db, op: Op)
    requires !op.Solve? && !op.Award? && !op.Revoke?
    ensures Notifies(db, op) <==> op.UnassignTeam? || (op.AssignTeam? && op.event in db.events && op.team in db.teams)
  {
  }
}
