/** The King of the Hill plugin: webhook dedup in front of idempotent awards. */
module Koth {
  import opened Common
  import opened Ledger
  import opened LedgerFacts

  datatype Delivery = Delivery(id: string, event: string, timestamp: string, signed: bool)

  datatype Reply = BadSignature | Duplicate | Acknowledged

  const TickPoints := 5

  function TickRef(ts: string, target: string): string { "tick:" + ts + ":" + target }

  // ---------------------------------------------------------------- the webhook handler

  class Plugin {
    var seen: set<string>
    var launched: seq<Delivery>  // deliveries for which an award goroutine was started
    const configured: bool       // core URL, token, event and holder are all set

    constructor (configured: bool)
      ensures seen == {} && launched == [] && this.configured == configured
    {
      this.seen, this.launched, this.configured := {}, [], configured;
    }

    method Hooks(d: Delivery) returns (reply: Reply)
      modifies this
      ensures seen == HooksSeen(old(seen), d)
      ensures launched == old(launched) + if Launches(old(seen), d, configured) then [d] else []
      ensures reply == if !d.signed then BadSignature
                       else if d.id != "" && d.id in old(seen) then Duplicate else Acknowledged
    {
      if !d.signed {
        return BadSignature;
      }
      if d.id != "" {
        var dup := d.id in seen;
        seen := seen + {d.id};
        if dup {
          return Duplicate;
        }
      }
      if d.event == "tick.minute" && configured {
        launched := launched + [d];
      }
      reply := Acknowledged;
    }
  }

  function HooksSeen(seen: set<string>, d: Delivery): set<string> {
    if d.signed && d.id != "" then seen + {d.id} else seen
  }

  predicate Launches(seen: set<string>, d: Delivery, configured: bool) {
    d.signed && (d.id == "" || d.id !in seen) && d.event == "tick.minute" && configured
  }

  function SeenAfter(ds: seq<Delivery>): set<string> {
    if ds == [] then {} else HooksSeen(SeenAfter(ds[..|ds| - 1]), ds[|ds| - 1])
  }

  function LaunchedAfter(ds: seq<Delivery>, configured: bool): seq<Delivery> {
    if ds == [] then []
    else
      var n := |ds| - 1;
      LaunchedAfter(ds[..n], configured) + if Launches(SeenAfter(ds[..n]), ds[n], configured) then [ds[n]] else []
  }

  lemma {:induction false} LaunchedWereSeen(ds: seq<Delivery>, configured: bool)
    ensures forall d :: d in LaunchedAfter(ds, configured) ==>
              d.signed && d in ds && (d.id != "" ==> d.id in SeenAfter(ds))
  {
    if ds != [] {
      LaunchedWereSeen(ds[..|ds| - 1], configured);
    }
  }

  /** However often and in whatever order webhooks arrive, one delivery id launches at most one award. */
  lemma {:induction false} OneLaunchPerDelivery(ds: seq<Delivery>, configured: bool, i: nat, j: nat)
    requires i < j < |LaunchedAfter(ds, configured)| && LaunchedAfter(ds, configured)[i].id != ""
    ensures LaunchedAfter(ds, configured)[i].id != LaunchedAfter(ds, configured)[j].id
  {
    var n := |ds| - 1;
    var before := LaunchedAfter(ds[..n], configured);
    if j < |before| {
      OneLaunchPerDelivery(ds[..n], configured, i, j);
    } else {
      LaunchedWereSeen(ds[..n], configured);
      assert before[i] in before;
    }
  }

  // ---------------------------------------------------------------- what reaches the core

  /** A call the core commits: the plugin's award for a tick, or anything else. */
  datatype Call = Tick(ts: string, now: Time) | Other(op: Op)

  datatype Hill = Hill(event: Uuid, holder: Uuid, plugin: string, target: string)

  function OpOf(h: Hill, c: Call): Op {
    match c
    case Tick(ts, now) => Award(h.event, h.holder, h.plugin, TickRef(ts, h.target), TickPoints, now)
    case Other(op) => op
  }

  function OpsOf(h: Hill, cs: seq<Call>): seq<Op> { seq(|cs|, i requires 0 <= i < |cs| => OpOf(h, cs[i])) }

  /** The other calls leave the plugin's own source alone. */
  predicate Foreign(h: Hill, op: Op) {
    (op.Award? ==> op.plugin != h.plugin) && (op.Revoke? ==> op.plugin != h.plugin)
  }

  function Ticks(cs: seq<Call>): set<string> { set c | c in cs && c.Tick? :: c.ts }

  function TickKey(h: Hill, ts: string): Key { Key(h.event, PluginSource(h.plugin), TickRef(ts, h.target)) }

  predicate Credits(r: ScoreEvent, h: Hill) {
    r.event == h.event && r.team == h.holder && r.source == PluginSource(h.plugin)
  }

  /** Points of the holder's rows that come from the plugin. */
  function Credited(ledger: seq<ScoreEvent>, h: Hill): int {
    if ledger == [] then 0
    else
      var r := ledger[|ledger| - 1];
      Credited(ledger[..|ledger| - 1], h) + if Credits(r, h) then r.points else 0
  }

  lemma TickRefInjective(a: string, b: string, target: string)
    requires TickRef(a, target) == TickRef(b, target)
    ensures a == b
  {
    var x, y := TickRef(a, target), TickRef(b, target);
    assert x[5..|x| - |target| - 1] == a && y[5..|y| - |target| - 1] == b;
  }

  lemma PluginSourceInjective(a: string, b: string)
    requires PluginSource(a) == PluginSource(b)
    ensures a == b
  {
    assert PluginSource(a)[7..] == a && PluginSource(b)[7..] == b;
  }

  lemma CreditedAppend(l: seq<ScoreEvent>, r: ScoreEvent, h: Hill)
    ensures Credited(l + [r], h) == Credited(l, h) + if Credits(r, h) then r.points else 0
  {
    assert (l + [r])[..|l|] == l;
  }

  lemma {:induction false} CreditedWithout(l: seq<ScoreEvent>, k: Key, h: Hill)
    requires k.source != PluginSource(h.plugin)
    ensures Credited(Without(l, k), h) == Credited(l, h)
  {
    if l != [] {
      var n := |l| - 1;
      CreditedWithout(l[..n], k, h);
      if KeyOf(l[n]) == k {
        assert Without(l, k) == Without(l[..n], k);
        assert !Credits(l[n], h);
      } else {
        CreditedAppend(Without(l[..n], k), l[n], h);
      }
    }
  }

  lemma ForeignSolve(db: Db, h: Hill, op: Op, k: Key)
    requires op.Solve? && Accepted(db, op) && k.source == PluginSource(h.plugin)
    ensures Credited(AfterSolve(db, op).ledger, h) == Credited(db.ledger, h)
    ensures HasKey(AfterSolve(db, op).ledger, k) == HasKey(db.ledger, k)
  {
    SourcesDiffer(h.plugin);
    var l := db.ledger + [SolveRow(op)];
    CreditedAppend(db.ledger, SolveRow(op), h);
    CreditedAppend(l, BonusRow(op), h);
    HasKeyAppend(db.ledger, SolveRow(op), k);
    HasKeyAppend(l, BonusRow(op), k);
    assert AfterSolve(db, op).ledger == if EarnedBonus(db, op) > 0 then l + [BonusRow(op)] else l;
  }

  /** A call that is not the plugin's neither credits the holder nor takes one of its references. */
  lemma ForeignKeeps(db: Db, h: Hill, op: Op, k: Key)
    requires Foreign(h, op) && k.source == PluginSource(h.plugin)
    ensures Credited(Apply(db, op).ledger, h) == Credited(db.ledger, h)
    ensures HasKey(Apply(db, op).ledger, k) == HasKey(db.ledger, k)
  {
    if op.Solve? {
      if Accepted(db, op) {
        ForeignSolve(db, h, op, k);
      }
    } else if op.Award? {
      CreditedAppend(db.ledger, AwardRow(op), h);
      HasKeyAppend(db.ledger, AwardRow(op), k);
      if PluginSource(op.plugin) == PluginSource(h.plugin) {
        PluginSourceInjective(op.plugin, h.plugin);
      }
    } else if op.Revoke? {
      var m := Key(op.event, PluginSource(op.plugin), op.ref);
      if m.source == PluginSource(h.plugin) {
        PluginSourceInjective(op.plugin, h.plugin);
      }
      CreditedWithout(db.ledger, m, h);
      WithoutHasKey(db.ledger, m, k);
    }
  }

  lemma TickTaken(db: Db, h: Hill, ts: string, now: Time, t: string)
    requires References(db, h.event, h.holder)
    ensures HasKey(Apply(db, OpOf(h, Tick(ts, now))).ledger, TickKey(h, t)) <==>
            HasKey(db.ledger, TickKey(h, t)) || t == ts
  {
    HasKeyAppend(db.ledger, AwardRow(OpOf(h, Tick(ts, now))), TickKey(h, t));
    if TickKey(h, t) == TickKey(h, ts) {
      TickRefInjective(t, ts, h.target);
    }
  }

  /** The award for a tick counts unless that tick's reference is already there. */
  lemma TickOnce(db: Db, h: Hill, ts: string, now: Time)
    requires References(db, h.event, h.holder)
    ensures var db' := Apply(db, OpOf(h, Tick(ts, now)));
            && Credited(db'.ledger, h) ==
               Credited(db.ledger, h) + (if HasKey(db.ledger, TickKey(h, ts)) then 0 else TickPoints)
            && forall t :: HasKey(db'.ledger, TickKey(h, t)) <==> HasKey(db.ledger, TickKey(h, t)) || t == ts
  {
    var op := OpOf(h, Tick(ts, now));
    CreditedAppend(db.ledger, AwardRow(op), h);
    forall t {
      TickTaken(db, h, ts, now, t);
    }
  }

  /** After the ticks `ts` have reached the core: their references are taken, each has been credited once. */
  ghost predicate TicksCounted(db: Db, h: Hill, ticks: set<string>, start: int) {
    && References(db, h.event, h.holder)
    && Credited(db.ledger, h) == start + TickPoints * |ticks|
    && forall ts :: HasKey(db.ledger, TickKey(h, ts)) <==> ts in ticks
  }

  lemma TickCounts(db: Db, h: Hill, ticks: set<string>, start: int, ts: string, now: Time)
    requires TicksCounted(db, h, ticks, start)
    ensures TicksCounted(Apply(db, OpOf(h, Tick(ts, now))), h, ticks + {ts}, start)
  {
    TickOnce(db, h, ts, now);
    assert ts in ticks ==> ticks + {ts} == ticks;
  }

  lemma ForeignCounts(db: Db, h: Hill, ticks: set<string>, start: int, op: Op)
    requires TicksCounted(db, h, ticks, start) && Foreign(h, op)
    ensures TicksCounted(Apply(db, op), h, ticks, start)
  {
    ForeignKeeps(db, h, op, TickKey(h, ""));
    forall ts ensures HasKey(Apply(db, op).ledger, TickKey(h, ts)) <==> ts in ticks {
      ForeignKeeps(db, h, op, TickKey(h, ts));
    }
    assert References(Apply(db, op), h.event, h.holder);
  }

  lemma {:induction false} TicksCountedAlong(db: Db, h: Hill, cs: seq<Call>)
    requires TicksCounted(db, h, {}, Credited(db.ledger, h))
    requires forall c :: c in cs && c.Other? ==> Foreign(h, c.op)
    ensures TicksCounted(Run(db, OpsOf(h, cs)), h, Ticks(cs), Credited(db.ledger, h))
  {
    if cs != [] {
      var n := |cs| - 1;
      TicksCountedAlong(db, h, cs[..n]);
      assert OpsOf(h, cs)[..n] == OpsOf(h, cs[..n]);
      assert cs == cs[..n] + [cs[n]];
      var was := Run(db, OpsOf(h, cs[..n]));
      if cs[n].Tick? {
        assert Ticks(cs) == Ticks(cs[..n]) + {cs[n].ts};
        TickCounts(was, h, Ticks(cs[..n]), Credited(db.ledger, h), cs[n].ts, cs[n].now);
      } else {
        assert Ticks(cs) == Ticks(cs[..n]);
        ForeignCounts(was, h, Ticks(cs[..n]), Credited(db.ledger, h), cs[n].op);
      }
    }
  }

  /**
   * With calls lost, repeated and reordered in any way, and anything else going on, the holder is credited
   * exactly five points per distinct tick whose call reached the core.
   */
  lemma FivePointsPerTick(db: Db, h: Hill, cs: seq<Call>)
    requires References(db, h.event, h.holder) && (forall ts :: !HasKey(db.ledger, TickKey(h, ts)))
    requires forall c :: c in cs && c.Other? ==> Foreign(h, c.op)
    ensures Credited(Run(db, OpsOf(h, cs)).ledger, h) == Credited(db.ledger, h) + 5 * |Ticks(cs)|
  {
    TicksCountedAlong(db, h, cs);
  }

  // ---------------------------------------------------------------- from deliveries to points

  /** The distinct ticks among the signed deliveries. */
  function TicksDelivered(ds: seq<Delivery>): set<string> {
    set d | d in ds && d.signed && d.event == "tick.minute" :: d.timestamp
  }

  function TicksLaunched(ds: seq<Delivery>, configured: bool): set<string> {
    set d | d in LaunchedAfter(ds, configured) :: d.timestamp
  }

  /** Every tick the core was asked to award comes from a launch; calls may be lost, repeated and reordered. */
  ghost predicate CarriedFrom(cs: seq<Call>, ds: seq<Delivery>, configured: bool) {
    Ticks(cs) <= TicksLaunched(ds, configured)
  }

  lemma {:induction false} LaunchedAreTicks(ds: seq<Delivery>, configured: bool)
    ensures forall d :: d in LaunchedAfter(ds, configured) ==> d in ds && d.signed && d.event == "tick.minute"
  {
    if ds != [] {
      LaunchedAreTicks(ds[..|ds| - 1], configured);
    }
  }

  /**
   * End to end: whatever is delivered how often and in whatever order, and whatever happens to the calls, the holder
   * gains at most five points per distinct signed tick delivered, and exactly five per launched tick if every one of
   * those reached the core.
   */
  lemma PointsPerTickDelivered(db: Db, h: Hill, ds: seq<Delivery>, configured: bool, cs: seq<Call>)
    requires References(db, h.event, h.holder) && (forall ts :: !HasKey(db.ledger, TickKey(h, ts)))
    requires CarriedFrom(cs, ds, configured) && forall c :: c in cs && c.Other? ==> Foreign(h, c.op)
    ensures var gain := Credited(Run(db, OpsOf(h, cs)).ledger, h) - Credited(db.ledger, h);
            && gain <= 5 * |TicksLaunched(ds, configured)| <= 5 * |TicksDelivered(ds)|
            && (gain == 5 * |TicksLaunched(ds, configured)| <==> Ticks(cs) == TicksLaunched(ds, configured))
  {
    FivePointsPerTick(db, h, cs);
    LaunchedAreTicks(ds, configured);
    SubsetSize(Ticks(cs), TicksLaunched(ds, configured));
    SubsetSize(TicksLaunched(ds, configured), TicksDelivered(ds));
  }

  // ---------------------------------------------------------------- which deliveries launch

  ghost predicate SignedBefore(ds: seq<Delivery>, id: string) { exists d :: d in ds && d.signed && d.id == id }

  lemma {:induction false} SeenIs(ds: seq<Delivery>)
    ensures forall id :: id in SeenAfter(ds) <==> id != "" && SignedBefore(ds, id)
  {
    if ds != [] {
      var n := |ds| - 1;
      SeenIs(ds[..n]);
      assert ds == ds[..n] + [ds[n]];
      forall id ensures SignedBefore(ds, id) <==> SignedBefore(ds[..n], id) || (ds[n].signed && ds[n].id == id) {
        if d :| d in ds && d.signed && d.id == id {
          assert d in ds[..n] || d == ds[n];
        }
        if d :| d in ds[..n] && d.signed && d.id == id {
          assert d in ds;
        }
        assert ds[n] in ds;
      }
    }
  }

  /** A delivery launches an award exactly when it is a signed minute tick that no signed delivery before it repeats. */
  lemma LaunchesWhen(ds: seq<Delivery>, d: Delivery, configured: bool)
    ensures var fires := configured && d.signed && d.event == "tick.minute" &&
                         (d.id == "" || forall e :: e in ds && e.signed ==> e.id != d.id);
            LaunchedAfter(ds + [d], configured) == LaunchedAfter(ds, configured) + if fires then [d] else []
  {
    SeenIs(ds);
    assert (ds + [d])[..|ds|] == ds;
  }
}
