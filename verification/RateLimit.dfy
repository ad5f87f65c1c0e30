/** The in-memory fixed-window rate limiter, and the exact bound it enforces. */
module RateLimit {
  import opened Common

  datatype Bucket = Bucket(count: int, resetAt: Time)

  datatype Call = Call(key: string, at: Time)

  datatype Config = Config(limit: int, window: int)

  // ---------------------------------------------------------------- specification by call history

  predicate Opens(b: Option<Bucket>, now: Time) { b.None? || now > b.value.resetAt }

  predicate Lets(cfg: Config, b: Option<Bucket>, now: Time) { Opens(b, now) || b.value.count < cfg.limit }

  function Next(cfg: Config, b: Option<Bucket>, now: Time): Option<Bucket> {
    if Opens(b, now) then Some(Bucket(1, now + cfg.window))
    else if b.value.count >= cfg.limit then b
    else Some(b.value.(count := b.value.count + 1))
  }

  /** The bucket of a key after a history of calls. */
  function BucketAfter(cfg: Config, h: seq<Call>, key: string): Option<Bucket> {
    if h == [] then None
    else
      var n := |h| - 1;
      var b := BucketAfter(cfg, h[..n], key);
      if h[n].key == key then Next(cfg, b, h[n].at) else b
  }

  /** Whether the i-th call of the history was let through. */
  predicate Allowed(cfg: Config, h: seq<Call>, i: nat)
    requires i < |h|
  {
    Lets(cfg, BucketAfter(cfg, h[..i], h[i].key), h[i].at)
  }

  /** How many calls of a key within [from, to] were let through. */
  function CountAllowed(cfg: Config, h: seq<Call>, key: string, from: Time, to: Time): int {
    if h == [] then 0
    else
      var n := |h| - 1;
      CountAllowed(cfg, h[..n], key, from, to) +
      if h[n].key == key && from <= h[n].at <= to && Allowed(cfg, h, n) then 1 else 0
  }

  ghost predicate ClockForward(h: seq<Call>) { forall i, j :: 0 <= i < j < |h| ==> h[i].at <= h[j].at }

  // ---------------------------------------------------------------- the limiter

  class Limiter {
    var buckets: map<string, Bucket>
    const cfg: Config
    ghost var history: seq<Call>

    ghost predicate Valid()
      reads this
    {
      forall key :: Get(buckets, key) == BucketAfter(cfg, history, key)
    }

    constructor (limit: int, window: int)
      ensures Valid() && history == [] && cfg == Config(limit, window)
    {
      buckets, history, cfg := map[], [], Config(limit, window);
    }

    /** Records a call and says whether it is let through. */
    method Allow(key: string, now: Time) returns (ok: bool)
      requires Valid()
      modifies this
      ensures Valid() && history == old(history) + [Call(key, now)]
      ensures ok == Allowed(cfg, history, |history| - 1)
    {
      history := history + [Call(key, now)];
      assert history[..|history| - 1] == old(history);
      assert Get(buckets, key) == BucketAfter(cfg, old(history), key);
      if key !in buckets || now > buckets[key].resetAt {
        buckets := buckets[key := Bucket(1, now + cfg.window)];
        return true;
      }
      if buckets[key].count >= cfg.limit {
        return false;
      }
      buckets := buckets[key := buckets[key].(count := buckets[key].count + 1)];
      ok := true;
    }
  }

  function Get(m: map<string, Bucket>, key: string): Option<Bucket> { if key in m then Some(m[key]) else None }

  // ---------------------------------------------------------------- keys do not interfere

  function Only(h: seq<Call>, key: string): seq<Call> {
    if h == [] then []
    else Only(h[..|h| - 1], key) + if h[|h| - 1].key == key then [h[|h| - 1]] else []
  }

  /** A key's calls are treated as if nobody else called. */
  lemma {:induction false} KeysIndependent(cfg: Config, h: seq<Call>, key: string, from: Time, to: Time)
    ensures BucketAfter(cfg, Only(h, key), key) == BucketAfter(cfg, h, key)
    ensures CountAllowed(cfg, Only(h, key), key, from, to) == CountAllowed(cfg, h, key, from, to)
  {
    if h != [] {
      var n := |h| - 1;
      KeysIndependent(cfg, h[..n], key, from, to);
      var o := Only(h[..n], key);
      assert (o + [h[n]])[..|o|] == o;
      assert h[n].key != key ==> Only(h, key) == o;
    }
  }

  // ---------------------------------------------------------------- the bound

  /** What one bucket can let through: its opening call always passes. */
  function Cap(cfg: Config): int { Max(cfg.limit, 1) }

  /**
   * `c` calls passed from time `from` on, and the bucket is the (j+1)-th that let any of them through, or
   * the first if `j == 0`. Its opening call is one of the `c` unless the first of these buckets was opened
   * before `from`, which costs one.
   */
  ghost predicate Shape(cfg: Config, b: Bucket, from: Time, c: int, j: nat) {
    var birth := b.resetAt - cfg.window;
    || (j == 0 && birth < from && c <= b.count - 1 && (c > 0 ==> b.resetAt >= from))
    || (j >= 1 && birth > from + (j - 1) * cfg.window && c <= j * Cap(cfg) + b.count - 1)
    || (birth >= from + j * cfg.window && (j >= 1 ==> birth > from + j * cfg.window) && c <= j * Cap(cfg) + b.count)
  }

  lemma ShapeOpens(cfg: Config, b: Bucket, from: Time, c: int, j: nat, now: Time) returns (k: nat)
    requires cfg.window >= 0 && Shape(cfg, b, from, c, j) && 0 <= c && 1 <= b.count <= Cap(cfg) && now > b.resetAt
    ensures Shape(cfg, Bucket(1, now + cfg.window), from, if from <= now then c + 1 else c, k)
  {
    var w, birth := cfg.window, b.resetAt - cfg.window;
    assert (j + 1) * w == j * w + w && (j + 1) * Cap(cfg) == j * Cap(cfg) + Cap(cfg);
    if birth < from && c <= b.count - 1 && (c > 0 ==> b.resetAt >= from) {
      if c == 0 {
        k := 0;
      } else {
        k := 1;
        assert (k - 1) * w == 0 && k * Cap(cfg) == Cap(cfg);
      }
    } else {
      k := j + 1;
      assert j >= 1 ==> j * w == (j - 1) * w + w;
    }
  }

  /** The bucket of a key in terms of the calls let through since `from`. */
  lemma {:induction false} Windows(cfg: Config, h: seq<Call>, key: string, from: Time, to: Time) returns (j: nat)
    requires cfg.window >= 0 && ClockForward(h) && forall i :: 0 <= i < |h| ==> h[i].at <= to
    ensures var c, b := CountAllowed(cfg, h, key, from, to), BucketAfter(cfg, h, key);
            0 <= c && (b.None? ==> c == 0) &&
            (b.Some? ==> 1 <= b.value.count <= Cap(cfg) && Shape(cfg, b.value, from, c, j) &&
                         h != [] && b.value.resetAt <= h[|h| - 1].at + cfg.window)
  {
    j := 0;
    if h != [] {
      var n := |h| - 1;
      j := Windows(cfg, h[..n], key, from, to);
      var b, c := BucketAfter(cfg, h[..n], key), CountAllowed(cfg, h[..n], key, from, to);
      if b.None? {
        j := 0;
      } else if h[n].key == key && h[n].at > b.value.resetAt {
        j := ShapeOpens(cfg, b.value, from, c, j, h[n].at);
      }
    }
  }

  lemma MulStrict(x: int, y: int, w: int)
    requires w >= 0
    ensures x * w < y * w ==> x < y
  {
    if x >= y {
      assert x * w == y * w + (x - y) * w;
    }
  }

  lemma MulMono(x: int, y: int, l: int)
    requires l >= 0 && x <= y
    ensures x * l <= y * l
  {
    assert y * l == x * l + (y - x) * l;
  }

  /** What k+1 windows can hold, given that the first of several was opened before the interval. */
  function Bound(cfg: Config, k: nat): int { if k == 0 then Cap(cfg) else (k + 1) * Cap(cfg) - 1 }

  lemma ShapeBounded(cfg: Config, b: Bucket, from: Time, c: int, j: nat, k: nat)
    requires cfg.window >= 0 && 1 <= b.count <= Cap(cfg) && Shape(cfg, b, from, c, j)
    requires b.resetAt - cfg.window <= from + k * cfg.window
    ensures c <= Bound(cfg, k)
  {
    var w, birth, cap := cfg.window, b.resetAt - cfg.window, Cap(cfg);
    MulMono(1, k + 1, cap);
    if k > 0 {
      MulMono(2, k + 1, cap);
    }
    if j >= 1 && birth > from + (j - 1) * w && c <= j * cap + b.count - 1 {
      MulStrict(j - 1, k, w);
      MulMono(j, k, cap);
      assert (k + 1) * cap == k * cap + cap;
    } else if j >= 1 {
      MulStrict(j, k, w);
      MulMono(j + 1, k, cap);
      assert (j + 1) * cap == j * cap + cap && (k + 1) * cap == k * cap + cap;
    }
  }

  /**
   * In any history with a clock that never goes back, a key passes at most max(limit, 1) times within one
   * instant and at most (k+1) * max(limit, 1) - 1 times within a closed interval of k >= 1 windows.
   */
  lemma {:induction false} PassesBounded(cfg: Config, h: seq<Call>, key: string, from: Time, k: nat)
    requires cfg.window >= 0 && ClockForward(h)
    ensures CountAllowed(cfg, h, key, from, from + k * cfg.window) <= Bound(cfg, k)
  {
    var to := from + k * cfg.window;
    MulMono(1, k + 1, Cap(cfg));
    MulMono(0, k, cfg.window);
    if k > 0 {
      MulMono(2, k + 1, Cap(cfg));
    }
    if h != [] {
      var n := |h| - 1;
      if h[n].at > to {
        PassesBounded(cfg, h[..n], key, from, k);
      } else {
        var j := Windows(cfg, h, key, from, to);
        if BucketAfter(cfg, h, key).Some? {
          ShapeBounded(cfg, BucketAfter(cfg, h, key).value, from, CountAllowed(cfg, h, key, from, to), j, k);
        }
      }
    }
  }

  // ---------------------------------------------------------------- the bucket's age

  /** When the key's bucket was last opened: the latest call that found none, or one past its reset. */
  function OpenedAt(cfg: Config, h: seq<Call>, key: string): Option<Time> {
    if h == [] then None
    else
      var n := |h| - 1;
      if h[n].key == key && Opens(BucketAfter(cfg, h[..n], key), h[n].at) then Some(h[n].at)
      else OpenedAt(cfg, h[..n], key)
  }

  /** In every history a key has a bucket iff one was opened, and it resets one window after that. */
  lemma {:induction false} ResetsAfterOpening(cfg: Config, h: seq<Call>, key: string)
    ensures BucketAfter(cfg, h, key).Some? <==> OpenedAt(cfg, h, key).Some?
    ensures OpenedAt(cfg, h, key).Some? ==>
              BucketAfter(cfg, h, key).value.resetAt == OpenedAt(cfg, h, key).value + cfg.window
  {
    if h != [] {
      ResetsAfterOpening(cfg, h[..|h| - 1], key);
    }
  }

  /**
   * A key's first call, and any call more than one window after its bucket was opened, is let through; such calls are
   * the ones that open a bucket.
   */
  lemma LateCallPasses(cfg: Config, h: seq<Call>, i: nat)
    requires i < |h|
    ensures var opening := OpenedAt(cfg, h[..i], h[i].key);
            && (opening.None? || h[i].at > opening.value + cfg.window ==> Allowed(cfg, h, i))
            && (opening.None? || h[i].at > opening.value + cfg.window ==>
                 OpenedAt(cfg, h[..i + 1], h[i].key) == Some(h[i].at))
            && (opening.Some? && h[i].at <= opening.value + cfg.window ==>
                 OpenedAt(cfg, h[..i + 1], h[i].key) == opening)
  {
    ResetsAfterOpening(cfg, h[..i], h[i].key);
    assert h[..i + 1][..i] == h[..i];
  }
}
