/** Bursts that use everything the rate limiter lets through: its bound cannot be lowered. */
module RateLimitTight {
  import opened Common
  import opened RateLimit

  function Repeat(key: string, at: Time, n: nat): seq<Call> {
    if n == 0 then [] else Repeat(key, at, n - 1) + [Call(key, at)]
  }

  /** The opening of the i-th full window of the burst. */
  function BurstTime(cfg: Config, from: Time, i: nat): Time { from + i + (i - 1) * cfg.window }

  /**
   * Open a bucket one window before `from`, use up the rest of it at `from`, then open and fill k more
   * buckets as early as each may be opened.
   */
  function Burst(cfg: Config, key: string, from: Time, k: nat): seq<Call> {
    if k == 0 then [Call(key, from - cfg.window)] + Repeat(key, from, Cap(cfg) - 1)
    else Burst(cfg, key, from, k - 1) + Repeat(key, BurstTime(cfg, from, k), Cap(cfg))
  }

  // ---------------------------------------------------------------- calls at one instant

  lemma PassesAtEnd(cfg: Config, h: seq<Call>, c: Call, from: Time, to: Time)
    ensures BucketAfter(cfg, h + [c], c.key) == Next(cfg, BucketAfter(cfg, h, c.key), c.at)
    ensures CountAllowed(cfg, h + [c], c.key, from, to) ==
            CountAllowed(cfg, h, c.key, from, to) +
            if from <= c.at <= to && Lets(cfg, BucketAfter(cfg, h, c.key), c.at) then 1 else 0
  {
    assert (h + [c])[..|h|] == h;
  }

  /** After the history the key's bucket is `b` and it has passed `c` times within the interval. */
  ghost predicate Reached(cfg: Config, h: seq<Call>, key: string, b: Bucket, from: Time, to: Time, c: int) {
    BucketAfter(cfg, h, key) == Some(b) && CountAllowed(cfg, h, key, from, to) == c
  }

  lemma OneMore(cfg: Config, h: seq<Call>, key: string, b: Bucket, at: Time, from: Time, to: Time, c: int)
    requires Reached(cfg, h, key, b, from, to, c) && from <= at <= to && at <= b.resetAt && 1 <= b.count < Cap(cfg)
    ensures Reached(cfg, h + [Call(key, at)], key, Bucket(b.count + 1, b.resetAt), from, to, c + 1)
  {
    PassesAtEnd(cfg, h, Call(key, at), from, to);
  }

  lemma RepeatLast(h: seq<Call>, key: string, at: Time, n: nat)
    requires n >= 1
    ensures h + Repeat(key, at, n) == h + Repeat(key, at, n - 1) + [Call(key, at)]
  {
  }

  /** `n` more calls at one instant fill a bucket that has room for them. */
  lemma {:induction false} RepeatFills(cfg: Config, h: seq<Call>, key: string, b: Bucket, at: Time, n: nat,
                                       from: Time, to: Time, c: int)
    requires Reached(cfg, h, key, b, from, to, c) && from <= at <= to && at <= b.resetAt
    requires 1 <= b.count && b.count + n <= Cap(cfg)
    ensures Reached(cfg, h + Repeat(key, at, n), key, Bucket(b.count + n, b.resetAt), from, to, c + n)
  {
    if n == 0 {
      assert h + Repeat(key, at, 0) == h;
    } else {
      RepeatFills(cfg, h, key, b, at, n - 1, from, to, c);
      var g := h + Repeat(key, at, n - 1);
      OneMore(cfg, g, key, Bucket(b.count + n - 1, b.resetAt), at, from, to, c + n - 1);
      RepeatLast(h, key, at, n);
    }
  }

  lemma {:induction false} RepeatHead(key: string, at: Time, n: nat)
    requires n >= 1
    ensures Repeat(key, at, n) == [Call(key, at)] + Repeat(key, at, n - 1)
  {
    if n > 1 {
      RepeatHead(key, at, n - 1);
    }
  }

  /** max(limit, 1) calls at an instant past the reset open a bucket and fill it. */
  lemma FreshBucketFills(cfg: Config, h: seq<Call>, key: string, b: Bucket, at: Time, from: Time, to: Time, c: int)
    requires cfg.window >= 0 && from <= at <= to && at > b.resetAt && Reached(cfg, h, key, b, from, to, c)
    ensures Reached(cfg, h + Repeat(key, at, Cap(cfg)), key, Bucket(Cap(cfg), at + cfg.window), from, to, c + Cap(cfg))
  {
    var g := h + [Call(key, at)];
    PassesAtEnd(cfg, h, Call(key, at), from, to);
    RepeatHead(key, at, Cap(cfg));
    RepeatFills(cfg, g, key, Bucket(1, at + cfg.window), at, Cap(cfg) - 1, from, to, c + 1);
    assert h + Repeat(key, at, Cap(cfg)) == g + Repeat(key, at, Cap(cfg) - 1);
  }

  // ---------------------------------------------------------------- the burst

  lemma BurstTimeBounds(cfg: Config, from: Time, i: nat, k: nat)
    requires 1 <= i <= k <= cfg.window
    ensures from <= BurstTime(cfg, from, i) <= from + k * cfg.window
    ensures BurstTime(cfg, from, i) + cfg.window < BurstTime(cfg, from, i + 1)
  {
    MulMono(0, i - 1, cfg.window);
    MulMono(i, k, cfg.window);
    assert i * cfg.window == (i - 1) * cfg.window + cfg.window;
  }

  function BurstReset(cfg: Config, from: Time, i: nat): Time {
    if i == 0 then from else BurstTime(cfg, from, i) + cfg.window
  }

  lemma BurstStarts(cfg: Config, key: string, from: Time, to: Time)
    requires cfg.window >= 1 && from <= to
    ensures Reached(cfg, Burst(cfg, key, from, 0), key, Bucket(Cap(cfg), from), from, to, Cap(cfg) - 1)
  {
    var open := Call(key, from - cfg.window);
    PassesAtEnd(cfg, [], open, from, to);
    assert [] + [open] == [open];
    RepeatFills(cfg, [open], key, Bucket(1, from), from, Cap(cfg) - 1, from, to, 0);
  }

  /** The next full window of the burst. */
  lemma BurstGoesOn(cfg: Config, key: string, from: Time, i: nat, k: nat, c: int)
    requires 1 <= i <= k <= cfg.window
    requires Reached(cfg, Burst(cfg, key, from, i - 1), key, Bucket(Cap(cfg), BurstReset(cfg, from, i - 1)),
                     from, from + k * cfg.window, c)
    ensures Reached(cfg, Burst(cfg, key, from, i), key, Bucket(Cap(cfg), BurstReset(cfg, from, i)),
                    from, from + k * cfg.window, c + Cap(cfg))
  {
    BurstTimeBounds(cfg, from, i, k);
    if i > 1 {
      BurstTimeBounds(cfg, from, i - 1, k);
    }
    FreshBucketFills(cfg, Burst(cfg, key, from, i - 1), key, Bucket(Cap(cfg), BurstReset(cfg, from, i - 1)),
                     BurstTime(cfg, from, i), from, from + k * cfg.window, c);
  }

  /** What the burst has let through, and the full bucket it leaves behind. */
  lemma {:induction false} BurstPasses(cfg: Config, key: string, from: Time, i: nat, k: nat)
    requires i <= k && 1 <= k <= cfg.window
    ensures Reached(cfg, Burst(cfg, key, from, i), key, Bucket(Cap(cfg), BurstReset(cfg, from, i)),
                    from, from + k * cfg.window, (i + 1) * Cap(cfg) - 1)
  {
    if i == 0 {
      MulMono(0, k, cfg.window);
      BurstStarts(cfg, key, from, from + k * cfg.window);
    } else {
      BurstPasses(cfg, key, from, i - 1, k);
      BurstGoesOn(cfg, key, from, i, k, i * Cap(cfg) - 1);
      assert (i + 1) * Cap(cfg) == i * Cap(cfg) + Cap(cfg);
    }
  }

  // ---------------------------------------------------------------- its clock

  lemma {:induction false} RepeatTimes(key: string, at: Time, n: nat)
    ensures forall i :: 0 <= i < |Repeat(key, at, n)| ==> Repeat(key, at, n)[i] == Call(key, at)
  {
    if n > 0 {
      RepeatTimes(key, at, n - 1);
    }
  }

  lemma {:induction false} BurstClock(cfg: Config, key: string, from: Time, i: nat)
    requires cfg.window >= 1
    ensures ClockForward(Burst(cfg, key, from, i))
    ensures forall c :: c in Burst(cfg, key, from, i) ==> c.at <= if i == 0 then from else BurstTime(cfg, from, i)
  {
    if i == 0 {
      RepeatTimes(key, from, Cap(cfg) - 1);
    } else {
      var h, r := Burst(cfg, key, from, i - 1), Repeat(key, BurstTime(cfg, from, i), Cap(cfg));
      BurstClock(cfg, key, from, i - 1);
      RepeatTimes(key, BurstTime(cfg, from, i), Cap(cfg));
      MulMono(0, i - 1, cfg.window);
      assert i > 1 ==> (i - 1) * cfg.window == (i - 2) * cfg.window + cfg.window;
      var whole := h + r;
      forall a, b | 0 <= a < b < |whole| ensures whole[a].at <= whole[b].at {
        assert a < |h| ==> h[a] in h;
      }
    }
  }

  /** For every limit, and every k up to the window's length in clock ticks, some history passes exactly the bound. */
  lemma BoundIsReached(cfg: Config, key: string, from: Time, k: nat)
    requires 1 <= k <= cfg.window
    ensures var h := Burst(cfg, key, from, k);
            ClockForward(h) && CountAllowed(cfg, h, key, from, from + k * cfg.window) == Bound(cfg, k)
  {
    BurstPasses(cfg, key, from, k, k);
    BurstClock(cfg, key, from, k);
  }
}
