/** Whether a schedule is open at an instant, scanning recurrences on the fly. */
module Schedule {
  import opened Common

  const Day: int := 24 * 3600 * 1_000_000_000

  /** FREQ=DAILY with INTERVAL and COUNT (RFC 5545, section 3.3.10); 0 stands for an absent part. */
  datatype Recurrence = Daily(interval: nat, count: nat)

  datatype RRule = NoRule | BadRule | Rule(rec: Recurrence)

  /** `opensAt` is None when the text does not parse; `duration` is what parseISODuration returned. */
  datatype Window = Window(opensAt: Option<Time>, duration: int, rrule: RRule)

  /** The stored JSON: absent, the literal null, unparsable, or a schedule. */
  datatype Raw = Absent | Null | Invalid | Spec(windows: seq<Window>, closedBehavior: string)

  // ---------------------------------------------------------------- recurrences

  function Period(rec: Recurrence): (p: int)
    ensures p >= Day
  {
    if rec.interval == 0 then Day else rec.interval * Day
  }

  predicate HasIndex(rec: Recurrence, k: int) { 0 <= k && (rec.count == 0 || k < rec.count) }

  function Occurrence(rec: Recurrence, start: Time, k: int): Time { start + k * Period(rec) }

  ghost predicate Occurs(rec: Recurrence, start: Time, o: Time) {
    exists k :: HasIndex(rec, k) && o == Occurrence(rec, start, k)
  }

  lemma NextOccurrence(rec: Recurrence, start: Time, k: int)
    ensures Occurrence(rec, start, k + 1) == Occurrence(rec, start, k) + Period(rec)
  {
  }

  /** The library's Between: walks the occurrences from the first and keeps those in [lo, hi]. */
  function Scan(rec: Recurrence, start: Time, k: nat, lo: Time, hi: Time): seq<Time>
    decreases hi - Occurrence(rec, start, k)
  {
    var o := Occurrence(rec, start, k);
    if !HasIndex(rec, k) || o > hi then []
    else
      NextOccurrence(rec, start, k);
      (if o >= lo then [o] else []) + Scan(rec, start, k + 1, lo, hi)
  }

  function Between(rec: Recurrence, start: Time, lo: Time, hi: Time): seq<Time> { Scan(rec, start, 0, lo, hi) }

  lemma {:induction false} MultiplesRise(p: int, k: int, m: int)
    requires p > 0
    ensures k <= m ==> k * p <= m * p
    ensures k < m ==> k * p + p <= m * p
    decreases m - k
  {
    if k < m {
      MultiplesRise(p, k, m - 1);
      Distribute(p, m - 1);
    }
  }

  lemma Distribute(p: int, k: int)
    ensures (k + 1) * p == k * p + p
  {
  }

  lemma OccurrencesRise(rec: Recurrence, start: Time, k: int, m: int)
    ensures k <= m ==> Occurrence(rec, start, k) <= Occurrence(rec, start, m)
    ensures k < m ==> Occurrence(rec, start, k) + Period(rec) <= Occurrence(rec, start, m)
  {
    MultiplesRise(Period(rec), k, m);
  }

  ghost predicate OccursFrom(rec: Recurrence, start: Time, k: int, o: Time) {
    exists m :: m >= k && HasIndex(rec, m) && o == Occurrence(rec, start, m)
  }

  lemma {:induction false} ScanFinds(rec: Recurrence, start: Time, k: nat, lo: Time, hi: Time)
    ensures forall o :: o in Scan(rec, start, k, lo, hi) <==> lo <= o <= hi && OccursFrom(rec, start, k, o)
    decreases hi - Occurrence(rec, start, k)
  {
    var first := Occurrence(rec, start, k);
    if !HasIndex(rec, k) || first > hi {
      forall m | m >= k && HasIndex(rec, m) ensures Occurrence(rec, start, m) > hi {
        OccurrencesRise(rec, start, k, m);
      }
    } else {
      NextOccurrence(rec, start, k);
      ScanFinds(rec, start, k + 1, lo, hi);
      forall o ensures OccursFrom(rec, start, k, o) <==> o == first || OccursFrom(rec, start, k + 1, o) {
        if m :| m >= k && HasIndex(rec, m) && o == Occurrence(rec, start, m) && o != first {
          assert m >= k + 1;
        }
      }
    }
  }

  // ---------------------------------------------------------------- the decision

  predicate Within(t: Time, start: Time, dur: int) { !(t < start) && (dur <= 0 || t < start + dur) }

  /** A recurring window without a usable duration lasts a day. */
  function Lasting(dur: int): int { if dur <= 0 then Day else dur }

  /** What a window means, with no bound on the search for an occurrence. */
  ghost predicate WindowOpen(w: Window, t: Time) {
    w.opensAt.Some? &&
    match w.rrule
    case NoRule => Within(t, w.opensAt.value, w.duration)
    case BadRule => false
    case Rule(rec) => exists o :: Occurs(rec, w.opensAt.value, o) && o <= t < o + Lasting(w.duration)
  }

  ghost predicate AnyOpen(ws: seq<Window>, t: Time) { exists w :: w in ws && WindowOpen(w, t) }

  /** Scanning the occurrences of the last `dur` is enough to find one whose window is still open. */
  method OpenAt(raw: Raw, t: Time) returns (open: bool, closedBehavior: string)
    ensures !raw.Spec? || raw.windows == [] ==> open && closedBehavior == ""
    ensures raw.Spec? && raw.windows != [] ==>
              closedBehavior == (if raw.closedBehavior == "" then "hidden" else raw.closedBehavior) &&
              (open <==> AnyOpen(raw.windows, t))
  {
    if !raw.Spec? || |raw.windows| == 0 {
      return true, "";
    }
    var cb := raw.closedBehavior;
    if cb == "" {
      cb := "hidden";
    }
    for i := 0 to |raw.windows|
      invariant forall j :: 0 <= j < i ==> !WindowOpen(raw.windows[j], t)
    {
      var w := raw.windows[i];
      if w.opensAt.Some? {
        var start, dur := w.opensAt.value, w.duration;
        if w.rrule.NoRule? {
          if Within(t, start, dur) {
            assert WindowOpen(w, t) && w in raw.windows;
            return true, cb;
          }
        } else {
          if dur <= 0 {
            dur := Day;
          }
          if w.rrule.Rule? {
            var found := ScanWindow(w.rrule.rec, start, dur, t);
            if found {
              assert WindowOpen(w, t) && w in raw.windows;
              return true, cb;
            }
          }
        }
      }
    }
    return false, cb;
  }

  /** The inner loop over the occurrences in [t - dur, t]. */
  method ScanWindow(rec: Recurrence, start: Time, dur: int, t: Time) returns (found: bool)
    requires dur > 0
    ensures found <==> exists o :: Occurs(rec, start, o) && o <= t < o + dur
  {
    var occs := Between(rec, start, t - dur, t);
    ScanFinds(rec, start, 0, t - dur, t);
    for j := 0 to |occs|
      invariant forall m :: 0 <= m < j ==> !Within(t, occs[m], dur)
    {
      assert occs[j] in occs;
      if Within(t, occs[j], dur) {
        assert Occurs(rec, start, occs[j]) && occs[j] <= t < occs[j] + dur;
        return true;
      }
    }
    forall o | Occurs(rec, start, o) ensures !(o <= t < o + dur) {
      var k :| HasIndex(rec, k) && o == Occurrence(rec, start, k);
      if o in occs {
        var m :| 0 <= m < |occs| && occs[m] == o;
      }
    }
    found := false;
  }

  // ---------------------------------------------------------------- the closed form

  /** The last occurrence at or before t, by division, clipped to the count. */
  function LastIndex(rec: Recurrence, start: Time, t: Time): int {
    var k := (t - start) / Period(rec);
    if rec.count != 0 && k >= rec.count then rec.count - 1 else k
  }

  /**
   * A daily recurrence is open at t exactly when t is not before the first occurrence and lies less than
   * the duration after the last one not after it; overlapping windows included.
   */
  lemma DailyClosedForm(rec: Recurrence, start: Time, dur: int, t: Time)
    ensures (exists o :: Occurs(rec, start, o) && o <= t < o + dur) <==>
            start <= t < Occurrence(rec, start, LastIndex(rec, start, t)) + dur
  {
    var p, last := Period(rec), LastIndex(rec, start, t);
    if start <= t {
      var q := (t - start) / p;
      assert t - start == q * p + (t - start) % p;
      assert q >= 0 by { DivNonNegative(t - start, p); }
      assert HasIndex(rec, last) && last <= q;
      OccurrencesRise(rec, start, last, q);
      assert Occurs(rec, start, Occurrence(rec, start, last));
      forall o | Occurs(rec, start, o) && o <= t ensures o <= Occurrence(rec, start, last) {
        var k :| HasIndex(rec, k) && o == Occurrence(rec, start, k);
        OccurrencesRise(rec, start, q, k);
        assert k <= q;
        OccurrencesRise(rec, start, k, last);
      }
    } else {
      forall o | Occurs(rec, start, o) ensures o > t {
        var k :| HasIndex(rec, k) && o == Occurrence(rec, start, k);
        OccurrencesRise(rec, start, 0, k);
      }
    }
  }

  lemma DivNonNegative(x: int, p: int)
    requires x >= 0 && p > 0
    ensures x / p >= 0
  {
  }

  /** The order in which the windows are listed does not matter. */
  lemma WindowOrderIrrelevant(ws: seq<Window>, vs: seq<Window>, t: Time)
    requires multiset(ws) == multiset(vs)
    ensures AnyOpen(ws, t) <==> AnyOpen(vs, t)
  {
    forall w ensures w in ws <==> w in vs {
      assert w in ws <==> w in multiset(ws);
      assert w in vs <==> w in multiset(vs);
    }
  }

  // ---------------------------------------------------------------- in days and nanoseconds

  /** From the k-th occurrence on, every so many days, for the duration, or for a day if there is none. */
  ghost predicate InOccurrence(start: Time, days: nat, count: nat, dur: int, k: nat, t: Time) {
    && (count > 0 ==> k < count)
    && start + k * (days * 86_400_000_000_000) <= t
    && t < start + k * (days * 86_400_000_000_000) + if dur > 0 then dur else 86_400_000_000_000
  }

  /**
   * Once: from the start, for the duration or, without one, for good. DAILY: in one of the occurrences, `interval` days
   * apart and at most `count` of them, 0 standing for every day and for no limit.
   */
  ghost predicate Covers(w: Window, t: Time) {
    w.opensAt.Some? &&
    var start := w.opensAt.value;
    if w.rrule.NoRule? then start <= t && (w.duration > 0 ==> t < start + w.duration)
    else if w.rrule.BadRule? then false
    else exists k: nat :: InOccurrence(start, Max(w.rrule.rec.interval, 1), w.rrule.rec.count, w.duration, k, t)
  }

  lemma OccurrenceIs(rec: Recurrence, start: Time, k: nat)
    ensures Occurrence(rec, start, k) == start + k * (Max(rec.interval, 1) * 86_400_000_000_000)
  {
    assert Period(rec) == Max(rec.interval, 1) * 86_400_000_000_000;
  }

  lemma WindowCovers(w: Window, t: Time)
    ensures WindowOpen(w, t) <==> Covers(w, t)
  {
    if w.opensAt.Some? && w.rrule.Rule? {
      var rec, start := w.rrule.rec, w.opensAt.value;
      forall k: nat
        ensures InOccurrence(start, Max(rec.interval, 1), rec.count, w.duration, k, t) <==>
                HasIndex(rec, k) &&
                Occurrence(rec, start, k) <= t < Occurrence(rec, start, k) + Lasting(w.duration)
      {
        OccurrenceIs(rec, start, k);
      }
      if k: nat :| InOccurrence(start, Max(rec.interval, 1), rec.count, w.duration, k, t) {
        assert Occurs(rec, start, Occurrence(rec, start, k));
      }
    }
  }

  /** Whatever the windows: a schedule is open when one of them covers the instant, and always if it lists none. */
  ghost predicate OpensAt(raw: Raw, t: Time) {
    raw.Spec? && raw.windows != [] ==> exists i :: 0 <= i < |raw.windows| && Covers(raw.windows[i], t)
  }

  lemma AnyOpenCovers(ws: seq<Window>, t: Time)
    ensures AnyOpen(ws, t) <==> exists i :: 0 <= i < |ws| && Covers(ws[i], t)
  {
    if w :| w in ws && WindowOpen(w, t) {
      var i :| 0 <= i < |ws| && ws[i] == w;
      WindowCovers(w, t);
    }
    if i :| 0 <= i < |ws| && Covers(ws[i], t) {
      WindowCovers(ws[i], t);
      assert ws[i] in ws;
    }
  }
}
