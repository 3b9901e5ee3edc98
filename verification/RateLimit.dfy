/** Token-bucket rate limiter keyed by K, with lazy reclamation of idle buckets.
    Time is in seconds. */
module RateLimit {
  import opened Options

  const IDLE_TTL: real := 3600.0
  const SWEEP_ABOVE: nat := 64

  datatype Bucket = Bucket(tokens: real, lastRefill: real)

  datatype Limits = Limits(capacity: nat, refillPerSec: real)

  /** `now.duration_since(t)`, which saturates at zero. */
  function DurationSince(now: real, t: real): (d: real)
    ensures d >= 0.0
  {
    if now < t then 0.0 else now - t
  }

  function Min(a: real, b: real): real {
    if a < b then a else b
  }

  /** The tokens that accrue over d seconds. */
  function Accrued(l: Limits, d: real): real {
    d * l.refillPerSec
  }

  lemma AccruedMonotone(l: Limits, d: real, d': real)
    requires l.refillPerSec >= 0.0 && d <= d'
    ensures Accrued(l, d) <= Accrued(l, d')
    ensures d >= 0.0 ==> Accrued(l, d) >= 0.0
  {
  }

  lemma AccruedIs(l: Limits, d: real)
    ensures Accrued(l, d) == l.refillPerSec * d
  {
  }

  lemma AccruedAdds(l: Limits, x: real, y: real)
    ensures Accrued(l, x) + Accrued(l, y) == Accrued(l, x + y)
  {
  }

  function Fresh(l: Limits, now: real): Bucket {
    Bucket(l.capacity as real, now)
  }

  /** What a bucket holds at `now`, before the call takes a token. */
  function Refilled(l: Limits, b: Bucket, now: real): real {
    Min(b.tokens + Accrued(l, DurationSince(now, b.lastRefill)), l.capacity as real)
  }

  function Take(l: Limits, b: Bucket, now: real): (Bucket, bool) {
    var tokens := Refilled(l, b, now);
    if tokens >= 1.0 then (Bucket(tokens - 1.0, now), true) else (Bucket(tokens, now), false)
  }

  function Sweep<K>(buckets: map<K, Bucket>, now: real): map<K, Bucket> {
    if |buckets| > SWEEP_ABOVE then
      map k | k in buckets && DurationSince(now, buckets[k].lastRefill) < IDLE_TTL :: buckets[k]
    else buckets
  }

  /** One call: the bucket map it leaves and its answer. */
  function Acquire<K>(l: Limits, buckets: map<K, Bucket>, key: K, now: real): (map<K, Bucket>, bool) {
    var kept := Sweep(buckets, now);
    var (bucket, ok) := Take(l, if key in kept then kept[key] else Fresh(l, now), now);
    (kept[key := bucket], ok)
  }

  class RateLimiter<K(==)> {
    const limits: Limits
    var buckets: map<K, Bucket>

    constructor (capacity: nat, refillPerSec: real)
      ensures limits == Limits(capacity, refillPerSec) && buckets == map[]
    {
      limits := Limits(capacity, refillPerSec);
      buckets := map[];
    }

    method TryAcquire(key: K, now: real) returns (ok: bool)
      modifies this`buckets
      ensures (buckets, ok) == Acquire(limits, old(buckets), key, now)
    {
      ghost var kept := Sweep(buckets, now);
      ghost var start := if key in kept then kept[key] else Fresh(limits, now);
      if |buckets| > SWEEP_ABOVE {
        buckets := map k | k in buckets && DurationSince(now, buckets[k].lastRefill) < IDLE_TTL :: buckets[k];
      }
      assert buckets == kept;
      if key !in buckets {
        buckets := buckets[key := Bucket(limits.capacity as real, now)];
      }
      var bucket := buckets[key];
      assert bucket == start;
      var elapsed := DurationSince(now, bucket.lastRefill);
      var tokens := Min(bucket.tokens + elapsed * limits.refillPerSec, limits.capacity as real);
      assert tokens == Refilled(limits, start, now);
      bucket := Bucket(tokens, now);
      ok := bucket.tokens >= 1.0;
      if ok {
        bucket := bucket.(tokens := bucket.tokens - 1.0);
      }
      assert (bucket, ok) == Take(limits, start, now);
      buckets := buckets[key := bucket];
      assert buckets == kept[key := bucket];
    }
  }

  // ---------- Runs ----------

  datatype Call<K> = Call(key: K, at: real)

  ghost predicate Monotone<K>(calls: seq<Call<K>>) {
    forall i, j | 0 <= i < j < |calls| :: calls[i].at <= calls[j].at
  }

  /** The bucket map after a run. */
  function After<K>(l: Limits, m: map<K, Bucket>, calls: seq<Call<K>>): map<K, Bucket>
    decreases calls
  {
    if calls == [] then m else After(l, Acquire(l, m, calls[0].key, calls[0].at).0, calls[1..])
  }

  /** The answers a run gives to the calls for k. */
  function AnswersFor<K(==)>(l: Limits, m: map<K, Bucket>, calls: seq<Call<K>>, k: K): (answers: seq<bool>)
    ensures |answers| == |TimesFor(calls, k)|
    decreases calls
  {
    if calls == [] then []
    else
      var (m', ok) := Acquire(l, m, calls[0].key, calls[0].at);
      var rest := AnswersFor(l, m', calls[1..], k);
      if calls[0].key == k then [ok] + rest else rest
  }

  /** How many calls for k a run allows between times s and e. */
  function AllowedFor<K(==)>(l: Limits, m: map<K, Bucket>, calls: seq<Call<K>>, k: K, s: real, e: real): nat
    decreases calls
  {
    if calls == [] then 0
    else
      var (m', ok) := Acquire(l, m, calls[0].key, calls[0].at);
      var rest := AllowedFor(l, m', calls[1..], k, s, e);
      if calls[0].key == k && ok && s <= calls[0].at <= e then 1 + rest else rest
  }

  function TimesFor<K(==)>(calls: seq<Call<K>>, k: K): seq<real> {
    if calls == [] then []
    else if calls[0].key == k then [calls[0].at] + TimesFor(calls[1..], k)
    else TimesFor(calls[1..], k)
  }

  lemma OwnCallFirst<K>(calls: seq<Call<K>>, k: K)
    requires calls != [] && calls[0].key == k
    ensures TimesFor(calls, k)[0] == calls[0].at && TimesFor(calls, k)[1..] == TimesFor(calls[1..], k)
  {
  }

  // ---------- The reference: one bucket that nobody reclaims ----------

  function SoloStep(l: Limits, b: Option<Bucket>, at: real): (Bucket, bool) {
    Take(l, if b.Some? then b.value else Fresh(l, at), at)
  }

  function SoloAnswers(l: Limits, b: Option<Bucket>, times: seq<real>): seq<bool>
    decreases times
  {
    if times == [] then []
    else
      var (b', ok) := SoloStep(l, b, times[0]);
      [ok] + SoloAnswers(l, Some(b'), times[1..])
  }

  function SoloAllowed(l: Limits, b: Option<Bucket>, times: seq<real>, s: real, e: real): nat
    decreases times
  {
    if times == [] then 0
    else
      var (b', ok) := SoloStep(l, b, times[0]);
      var rest := SoloAllowed(l, Some(b'), times[1..], s, e);
      if ok && s <= times[0] <= e then 1 + rest else rest
  }

  // ---------- Reclaiming idle buckets is unobservable ----------

  /** A full bucket is back within the idle time-to-live. */
  ghost predicate RefillsWithinTtl(l: Limits) {
    l.capacity as real <= 3600.0 * l.refillPerSec
  }

  /** The map agrees with the reference bucket of k: either it holds the same bucket,
      or it holds none and the reference bucket is full by now. */
  ghost predicate Agrees<K>(l: Limits, m: map<K, Bucket>, k: K, b: Option<Bucket>, now: real) {
    && (k in m ==> b == Some(m[k]))
    && (b.Some? ==> 0.0 <= b.value.tokens && b.value.lastRefill <= now)
    && (k !in m && b.Some? ==> b.value.tokens + Accrued(l, now - b.value.lastRefill) >= l.capacity as real)
  }

  lemma RefillNonNegative(l: Limits)
    requires RefillsWithinTtl(l)
    ensures l.refillPerSec >= 0.0
  {
  }

  /** Agreement survives the passage of time and a sweep. */
  lemma AgreesAfterSweep<K>(l: Limits, m: map<K, Bucket>, k: K, b: Option<Bucket>, now: real, now': real)
    requires RefillsWithinTtl(l) && now <= now'
    requires Agrees(l, m, k, b, now)
    ensures Agrees(l, Sweep(m, now'), k, b, now')
  {
    RefillNonNegative(l);
    if b.Some? {
      var idle := now' - b.value.lastRefill;
      AccruedMonotone(l, now - b.value.lastRefill, idle);
      if k in m && idle >= IDLE_TTL {
        AccruedMonotone(l, IDLE_TTL, idle);
        assert b.value.tokens + Accrued(l, idle) >= l.capacity as real;
      }
    }
  }

  lemma StepAgrees<K>(l: Limits, m: map<K, Bucket>, key: K, k: K, b: Option<Bucket>, now: real, now': real)
    requires RefillsWithinTtl(l) && now <= now'
    requires Agrees(l, m, k, b, now)
    ensures var (m', ok) := Acquire(l, m, key, now');
            if key == k then
              ok == SoloStep(l, b, now').1 && Agrees(l, m', k, Some(SoloStep(l, b, now').0), now')
            else Agrees(l, m', k, b, now')
  {
    RefillNonNegative(l);
    AgreesAfterSweep(l, m, k, b, now, now');
    if b.Some? {
      AccruedMonotone(l, 0.0, now' - b.value.lastRefill);
    }
  }

  lemma {:induction false} RunAgrees<K>(l: Limits, m: map<K, Bucket>, calls: seq<Call<K>>, k: K,
                                        b: Option<Bucket>, now: real, s: real, e: real)
    requires RefillsWithinTtl(l) && Monotone(calls)
    requires calls != [] ==> now <= calls[0].at
    requires Agrees(l, m, k, b, now)
    ensures AnswersFor(l, m, calls, k) == SoloAnswers(l, b, TimesFor(calls, k))
    ensures AllowedFor(l, m, calls, k, s, e) == SoloAllowed(l, b, TimesFor(calls, k), s, e)
    decreases calls
  {
    if calls != [] {
      var c := calls[0];
      var m' := Acquire(l, m, c.key, c.at).0;
      StepAgrees(l, m, c.key, k, b, now, c.at);
      var b' := if c.key == k then Some(SoloStep(l, b, c.at).0) else b;
      RunAgrees(l, m', calls[1..], k, b', c.at, s, e);
      if c.key == k {
        OwnCallFirst(calls, k);
      }
    }
  }

  /** The answers for a key depend only on that key's own calls: every key might as well
      have a bucket to itself that is never reclaimed. */
  lemma SweepIsUnobservable<K>(l: Limits, calls: seq<Call<K>>, k: K)
    requires l.capacity == 0 || RefillsWithinTtl(l)
    requires Monotone(calls)
    ensures AnswersFor(l, map[], calls, k) == SoloAnswers(l, None, TimesFor(calls, k))
  {
    if l.capacity == 0 {
      ZeroCapacityDenies(l, map[], calls, k, None);
    } else if calls != [] {
      RunAgrees(l, map[], calls, k, None, calls[0].at, 0.0, 0.0);
    }
  }

  lemma {:induction false} ZeroCapacityDenies<K>(l: Limits, m: map<K, Bucket>, calls: seq<Call<K>>, k: K,
        b: Option<Bucket>)
    requires l.capacity == 0
    ensures AnswersFor(l, m, calls, k) == SoloAnswers(l, b, TimesFor(calls, k))
    decreases calls
  {
    if calls != [] {
      var c := calls[0];
      var b' := if c.key == k then Some(SoloStep(l, b, c.at).0) else b;
      ZeroCapacityDenies(l, Acquire(l, m, c.key, c.at).0, calls[1..], k, b');
      if c.key == k {
        OwnCallFirst(calls, k);
      }
    }
  }

  // ---------- The rate bound ----------

  ghost predicate Increasing(times: seq<real>) {
    forall i, j | 0 <= i < j < |times| :: times[i] <= times[j]
  }

  /** Allowed calls are paid for by the tokens held and those that accrue until e. */
  lemma {:induction false} SoloPaid(l: Limits, b: Bucket, times: seq<real>, s: real, e: real)
    requires l.refillPerSec >= 0.0 && s <= e && Increasing(times)
    requires times != [] ==> b.lastRefill <= times[0]
    requires 0.0 <= b.tokens <= l.capacity as real
    decreases times
    ensures s <= b.lastRefill <= e ==>
              SoloAllowed(l, Some(b), times, s, e) as real <= b.tokens + Accrued(l, e - b.lastRefill)
    ensures b.lastRefill < s ==>
              SoloAllowed(l, Some(b), times, s, e) as real <= l.capacity as real + Accrued(l, e - s)
    ensures b.lastRefill > e ==> SoloAllowed(l, Some(b), times, s, e) == 0
  {
    AccruedMonotone(l, 0.0, e - s);
    if b.lastRefill <= e {
      AccruedMonotone(l, 0.0, e - b.lastRefill);
    }
    if times != [] {
      var t := times[0];
      var b' := SoloStep(l, Some(b), t).0;
      AccruedMonotone(l, 0.0, t - b.lastRefill);
      SoloPaid(l, b', times[1..], s, e);
      if s <= t <= e {
        AccruedAdds(l, t - b.lastRefill, e - t);
        AccruedMonotone(l, e - t, e - s);
      }
    }
  }

  /** The window bound for one bucket, by what the limiter is set to. */
  lemma SoloWindow(l: Limits, b: Bucket, times: seq<real>, s: real, e: real)
    requires l.refillPerSec >= 0.0 && s <= e && Increasing(times)
    requires times != [] ==> b.lastRefill <= times[0]
    requires 0.0 <= b.tokens <= l.capacity as real
    ensures s <= b.lastRefill <= e ==>
              SoloAllowed(l, Some(b), times, s, e) as real <= b.tokens + l.refillPerSec * (e - b.lastRefill)
    ensures b.lastRefill < s ==>
              SoloAllowed(l, Some(b), times, s, e) as real <= l.capacity as real + l.refillPerSec * (e - s)
    ensures b.lastRefill > e ==> SoloAllowed(l, Some(b), times, s, e) == 0
  {
    hide Accrued, SoloAllowed;
    SoloPaid(l, b, times, s, e);
    AccruedIs(l, e - b.lastRefill);
    AccruedIs(l, e - s);
  }

  lemma {:induction false} TimesMonotone<K>(calls: seq<Call<K>>, k: K)
    requires Monotone(calls)
    ensures Increasing(TimesFor(calls, k))
    ensures forall t | t in TimesFor(calls, k) :: calls != [] && calls[0].at <= t
  {
    if calls != [] {
      TimesMonotone(calls[1..], k);
      if calls[0].key == k {
        var rest := TimesFor(calls[1..], k);
        assert forall i | 0 <= i < |rest| :: rest[i] in rest;
      }
    }
  }

  lemma PaidWindow<K>(l: Limits, calls: seq<Call<K>>, k: K, s: real, e: real)
    requires RefillsWithinTtl(l) && Monotone(calls) && s <= e
    ensures AllowedFor(l, map[], calls, k, s, e) as real <= l.capacity as real + Accrued(l, e - s)
  {
    RefillNonNegative(l);
    AccruedMonotone(l, 0.0, e - s);
    if calls != [] {
      RunAgrees(l, map[], calls, k, None, calls[0].at, s, e);
      var times := TimesFor(calls, k);
      TimesMonotone(calls, k);
      if times != [] {
        var b := Fresh(l, times[0]);
        assert SoloAllowed(l, None, times, s, e) == SoloAllowed(l, Some(b), times, s, e);
        SoloPaid(l, b, times, s, e);
        if s <= times[0] <= e {
          AccruedMonotone(l, e - times[0], e - s);
        }
      }
    }
  }

  /** Between times s and e no key gets more than capacity + refill * (e - s) calls through,
      whatever the other keys do and whenever the sweep runs. */
  lemma RateBound<K>(l: Limits, calls: seq<Call<K>>, k: K, s: real, e: real)
    requires RefillsWithinTtl(l) && Monotone(calls) && s <= e
    ensures AllowedFor(l, map[], calls, k, s, e) as real <= l.capacity as real + l.refillPerSec * (e - s)
  {
    hide Accrued, AllowedFor;
    PaidWindow(l, calls, k, s, e);
    AccruedIs(l, e - s);
  }

  // ---------- Exactly which calls are allowed ----------

  function SoloAfter(l: Limits, b: Option<Bucket>, times: seq<real>): Option<Bucket>
    decreases times
  {
    if times == [] then b else SoloAfter(l, Some(SoloStep(l, b, times[0]).0), times[1..])
  }

  lemma {:induction false} AfterAgrees<K>(l: Limits, m: map<K, Bucket>, calls: seq<Call<K>>, k: K, b: Option<Bucket>,
                                          now: real, end: real)
    requires RefillsWithinTtl(l) && Monotone(calls) && Agrees(l, m, k, b, now)
    requires now <= end && forall i | 0 <= i < |calls| :: now <= calls[i].at <= end
    ensures Agrees(l, After(l, m, calls), k, SoloAfter(l, b, TimesFor(calls, k)), end)
    decreases calls
  {
    if calls == [] {
      if b.Some? {
        RefillNonNegative(l);
        AccruedMonotone(l, now - b.value.lastRefill, end - b.value.lastRefill);
      }
    } else {
      hide Agrees, Acquire, SoloStep, RefillsWithinTtl;
      var c := calls[0];
      StepAgrees(l, m, c.key, k, b, now, c.at);
      var b' := if c.key == k then Some(SoloStep(l, b, c.at).0) else b;
      AfterAgrees(l, Acquire(l, m, c.key, c.at).0, calls[1..], k, b', c.at, end);
      if c.key == k {
        OwnCallFirst(calls, k);
      }
    }
  }

  lemma {:induction false} SoloWidens(l: Limits, b: Option<Bucket>, times: seq<real>, s: real, s': real, e: real)
    requires s <= s'
    ensures SoloAllowed(l, b, times, s', e) <= SoloAllowed(l, b, times, s, e)
    decreases times
  {
    if times != [] {
      SoloWidens(l, Some(SoloStep(l, b, times[0]).0), times[1..], s, s', e);
    }
  }

  /** Whatever a bucket lacks at e has been taken since it was last full, or since it was given. */
  lemma {:induction false} SoloSpent(l: Limits, b: Bucket, times: seq<real>, e: real) returns (s: real, full: bool)
    requires l.refillPerSec >= 0.0 && Increasing(times) && b.tokens <= l.capacity as real && b.lastRefill <= e
    requires forall i | 0 <= i < |times| :: b.lastRefill <= times[i] <= e
    ensures b.lastRefill <= s <= e && SoloAfter(l, Some(b), times).Some?
    ensures var held := Refilled(l, SoloAfter(l, Some(b), times).value, e);
            var taken := SoloAllowed(l, Some(b), times, s, e) as real;
            if full then held + taken >= l.capacity as real + Accrued(l, e - s)
            else s == b.lastRefill && held + taken >= b.tokens + Accrued(l, e - s)
    decreases times
  {
    AccruedMonotone(l, 0.0, 0.0);
    if times == [] {
      full := b.tokens + Accrued(l, e - b.lastRefill) > l.capacity as real;
      s := if full then e else b.lastRefill;
    } else {
      var t, rest := times[0], times[1..];
      var b' := SoloStep(l, Some(b), t).0;
      s, full := SoloSpent(l, b', rest, e);
      if !full && b.tokens + Accrued(l, t - b.lastRefill) >= l.capacity as real {
        full := true;
      } else if !full {
        SoloWidens(l, Some(b'), rest, b.lastRefill, t, e);
        AccruedAdds(l, t - b.lastRefill, e - t);
        s := b.lastRefill;
      }
    }
  }

  /** A window that has room for one call less than was taken in it by then, and this one. */
  ghost predicate RoomIn<K>(l: Limits, before: seq<Call<K>>, k: K, s: real, e: real) {
    AllowedFor(l, map[], before, k, s, e) as real + 1.0 <= l.capacity as real + l.refillPerSec * (e - s)
  }

  lemma {:induction false} AllowedConcat<K>(l: Limits, m: map<K, Bucket>, a: seq<Call<K>>, b: seq<Call<K>>, k: K,
                                            s: real, e: real)
    ensures AllowedFor(l, m, a + b, k, s, e) == AllowedFor(l, m, a, k, s, e) + AllowedFor(l, After(l, m, a), b, k, s, e)
    decreases a
  {
    if a == [] {
      assert a + b == b;
    } else {
      assert (a + b)[0] == a[0] && (a + b)[1..] == a[1..] + b;
      AllowedConcat(l, Acquire(l, m, a[0].key, a[0].at).0, a[1..], b, k, s, e);
    }
  }

  lemma OneCall<K>(l: Limits, m: map<K, Bucket>, k: K, s: real, e: real)
    requires s <= e
    ensures AllowedFor(l, m, [Call(k, e)], k, s, e) == if Acquire(l, m, k, e).1 then 1 else 0
  {
    var calls := [Call(k, e)];
    assert calls[0] == Call(k, e) && calls[1..] == [];
  }

  /** An allowed call has room in every window that ends with it. */
  lemma AllowedHasRoom<K>(l: Limits, before: seq<Call<K>>, k: K, s: real, e: real)
    requires RefillsWithinTtl(l) && Monotone(before + [Call(k, e)]) && s <= e
    requires Acquire(l, After(l, map[], before), k, e).1
    ensures RoomIn(l, before, k, s, e)
  {
    hide Acquire, AllowedFor, After, Monotone, RefillsWithinTtl;
    RateBound(l, before + [Call(k, e)], k, s, e);
    AllowedConcat(l, map[], before, [Call(k, e)], k, s, e);
    OneCall(l, After(l, map[], before), k, s, e);
  }

  lemma AnswerIsSolo<K>(l: Limits, before: seq<Call<K>>, k: K, e: real)
    requires RefillsWithinTtl(l) && Monotone(before + [Call(k, e)])
    ensures Acquire(l, After(l, map[], before), k, e).1 == SoloStep(l, SoloAfter(l, None, TimesFor(before, k)), e).1
    ensures forall s :: AllowedFor(l, map[], before, k, s, e) == SoloAllowed(l, None, TimesFor(before, k), s, e)
    ensures Increasing(TimesFor(before, k)) && forall t | t in TimesFor(before, k) :: t <= e
  {
    hide Acquire, SoloStep;
    var all := before + [Call(k, e)];
    assert forall i | 0 <= i < |before| :: all[i] == before[i];
    assert all[|before|] == Call(k, e);
    var start := if before == [] then e else before[0].at;
    assert forall i | 0 <= i < |before| :: start <= before[i].at <= e by {
      assert forall i | 0 <= i < |before| :: all[0].at <= all[i].at <= all[|before|].at;
    }
    AfterAgrees(l, map[], before, k, None, start, e);
    StepAgrees(l, After(l, map[], before), k, k, SoloAfter(l, None, TimesFor(before, k)), e, e);
    forall s
      ensures AllowedFor(l, map[], before, k, s, e) == SoloAllowed(l, None, TimesFor(before, k), s, e)
    {
      RunAgrees(l, map[], before, k, None, start, s, e);
    }
    TimesMonotone(before, k);
    TimesBefore(before, k, e);
  }

  lemma {:induction false} TimesBefore<K>(calls: seq<Call<K>>, k: K, e: real)
    requires forall i | 0 <= i < |calls| :: calls[i].at <= e
    ensures forall t | t in TimesFor(calls, k) :: t <= e
  {
    if calls != [] {
      TimesBefore(calls[1..], k, e);
    }
  }

  lemma SoloDenied(l: Limits, times: seq<real>, e: real) returns (s: real)
    requires l.refillPerSec >= 0.0 && Increasing(times) && forall t | t in times :: t <= e
    requires !SoloStep(l, SoloAfter(l, None, times), e).1
    ensures s <= e
    ensures SoloAllowed(l, None, times, s, e) as real + 1.0 > l.capacity as real + Accrued(l, e - s)
  {
    AccruedMonotone(l, 0.0, 0.0);
    if times == [] {
      s := e;
    } else {
      hide Accrued;
      var b := Fresh(l, times[0]);
      assert forall i | 0 <= i < |times| :: times[i] in times;
      assert SoloStep(l, None, times[0]) == SoloStep(l, Some(b), times[0]);
      var full;
      s, full := SoloSpent(l, b, times, e);
    }
  }

  /** A denied call has a window that ends with it and has no room. */
  lemma DeniedLacksRoom<K>(l: Limits, before: seq<Call<K>>, k: K, e: real) returns (s: real)
    requires RefillsWithinTtl(l) && Monotone(before + [Call(k, e)])
    requires !Acquire(l, After(l, map[], before), k, e).1
    ensures s <= e && !RoomIn(l, before, k, s, e)
  {
    RefillNonNegative(l);
    hide Acquire, Accrued, AllowedFor, After, SoloStep, SoloAfter, SoloAllowed, Monotone, Increasing, RefillsWithinTtl;
    AnswerIsSolo(l, before, k, e);
    s := SoloDenied(l, TimesFor(before, k), e);
    AccruedIs(l, e - s);
  }

  /** In every run of a limiter that refills within the idle time a call is allowed exactly when every window
      that ends with it has room: what was let through in it and this call stay within capacity + refill * (e - s). */
  lemma AllowedIff<K>(l: Limits, before: seq<Call<K>>, k: K, e: real)
    requires RefillsWithinTtl(l) && Monotone(before + [Call(k, e)])
    ensures Acquire(l, After(l, map[], before), k, e).1 <==> forall s | s <= e :: RoomIn(l, before, k, s, e)
  {
    hide Acquire, RoomIn, After;
    if Acquire(l, After(l, map[], before), k, e).1 {
      forall s | s <= e
        ensures RoomIn(l, before, k, s, e)
      {
        AllowedHasRoom(l, before, k, s, e);
      }
    } else {
      var s := DeniedLacksRoom(l, before, k, e);
    }
  }

  /** The Telegram limiter (burst 5, one per second): at most 5 + (e - s) commands per chat. */
  lemma TelegramRateBound(calls: seq<Call<int>>, chat: int, s: real, e: real)
    requires Monotone(calls) && s <= e
    ensures AllowedFor(Limits(5, 1.0), map[], calls, chat, s, e) as real <= 5.0 + (e - s)
  {
    RateBound(Limits(5, 1.0), calls, chat, s, e);
  }

  // ---------- Exactly when the sweep is unobservable ----------

  function KeysOf<K>(calls: seq<Call<K>>): set<K> {
    set c | c in calls :: c.key
  }

  /** On every run with at most n keys the answers for every key are those of a bucket of its own. */
  ghost predicate SweepUnobservable(l: Limits, n: nat) {
    forall calls: seq<Call<int>>, k: int | Monotone(calls) && |KeysOf(calls)| <= n ::
      AnswersFor(l, map[], calls, k) == SoloAnswers(l, None, TimesFor(calls, k))
  }

  ghost predicate AllAllowed(answers: seq<bool>) {
    forall i | 0 <= i < |answers| :: answers[i]
  }

  ghost predicate AllAt(calls: seq<Call<int>>, t: real) {
    forall i | 0 <= i < |calls| :: calls[i].at == t
  }

  /** n calls for key 0 at time t. */
  function Burst(n: nat, t: real): (calls: seq<Call<int>>)
    ensures |calls| == n && AllAt(calls, t)
  {
    if n == 0 then [] else [Call(0, t)] + Burst(n - 1, t)
  }

  /** One call at time t for each of the keys n, ..., 1. */
  function Crowd(n: nat, t: real): (calls: seq<Call<int>>)
    ensures |calls| == n && AllAt(calls, t)
  {
    if n == 0 then [] else [Call(n, t)] + Crowd(n - 1, t)
  }

  function CrowdKeys(n: nat): (keys: set<int>)
    ensures |keys| == n && forall k | k in keys :: 1 <= k <= n
  {
    if n == 0 then {} else CrowdKeys(n - 1) + {n}
  }

  /** Empty the bucket of key 0 and make the map large; come back after the idle time. */
  function Witness(capacity: nat): seq<Call<int>> {
    Burst(capacity, 0.0) + Crowd(SWEEP_ABOVE, 0.0) + Burst(capacity, IDLE_TTL)
  }

  lemma WitnessMonotone(capacity: nat)
    ensures Monotone(Witness(capacity))
  {
    var early := Burst(capacity, 0.0) + Crowd(SWEEP_ABOVE, 0.0);
    assert AllAt(early, 0.0);
  }

  lemma {:induction false} TimesConcat<K>(a: seq<Call<K>>, b: seq<Call<K>>, k: K)
    ensures TimesFor(a + b, k) == TimesFor(a, k) + TimesFor(b, k)
  {
    if a == [] {
      assert a + b == b;
    } else {
      assert (a + b)[0] == a[0] && (a + b)[1..] == a[1..] + b;
      TimesConcat(a[1..], b, k);
    }
  }

  lemma {:induction false} AfterConcat<K>(l: Limits, m: map<K, Bucket>, a: seq<Call<K>>, b: seq<Call<K>>)
    ensures After(l, m, a + b) == After(l, After(l, m, a), b)
    decreases a
  {
    if a == [] {
      assert a + b == b;
    } else {
      assert (a + b)[0] == a[0] && (a + b)[1..] == a[1..] + b;
      AfterConcat(l, Acquire(l, m, a[0].key, a[0].at).0, a[1..], b);
    }
  }

  lemma {:induction false} AnswersConcat<K>(l: Limits, m: map<K, Bucket>, a: seq<Call<K>>, b: seq<Call<K>>, k: K)
    ensures AnswersFor(l, m, a + b, k) == AnswersFor(l, m, a, k) + AnswersFor(l, After(l, m, a), b, k)
    decreases a
  {
    if a == [] {
      assert a + b == b;
    } else {
      assert (a + b)[0] == a[0] && (a + b)[1..] == a[1..] + b;
      AnswersConcat(l, Acquire(l, m, a[0].key, a[0].at).0, a[1..], b, k);
    }
  }

  lemma SameSize<K, V>(m: map<K, V>, m': map<K, V>)
    requires m.Keys == m'.Keys
    ensures |m| == |m'|
  {
    assert |m| == |m.Keys| && |m'| == |m'.Keys|;
  }

  /** A bucket that holds n tokens lets n calls at one moment through. */
  lemma {:induction false} BurstAllowed(l: Limits, m: map<int, Bucket>, n: nat, t: real)
    requires |m| <= SWEEP_ABOVE && 0 in m && m[0].lastRefill == t
    requires n as real <= m[0].tokens <= l.capacity as real
    ensures AllAllowed(AnswersFor(l, m, Burst(n, t), 0))
    ensures After(l, m, Burst(n, t)) == m[0 := Bucket(m[0].tokens - n as real, t)]
    decreases n
  {
    if n == 0 {
      assert m[0 := Bucket(m[0].tokens - n as real, t)] == m;
    } else {
      var (m', ok) := Acquire(l, m, 0, t);
      assert m' == m[0 := Bucket(m[0].tokens - 1.0, t)];
      assert m'.Keys == m.Keys;
      SameSize(m, m');
      BurstAllowed(l, m', n - 1, t);
      assert Burst(n, t)[1..] == Burst(n - 1, t);
    }
  }

  /** From an empty map, capacity calls at one moment pass and empty the bucket. */
  lemma FreshBurst(l: Limits, t: real)
    requires l.capacity >= 1
    ensures AllAllowed(AnswersFor(l, map[], Burst(l.capacity, t), 0))
    ensures After(l, map[], Burst(l.capacity, t)) == map[0 := Bucket(0.0, t)]
  {
    var m: map<int, Bucket> := map[];
    var (m', ok) := Acquire(l, m, 0, t);
    assert m' == map[0 := Bucket(l.capacity as real - 1.0, t)] && ok;
    BurstAllowed(l, m', l.capacity - 1, t);
    assert Burst(l.capacity, t)[1..] == Burst(l.capacity - 1, t);
    assert m'[0 := Bucket(m'[0].tokens - (l.capacity - 1) as real, t)] == map[0 := Bucket(0.0, t)];
  }

  ghost predicate AllRecent<K>(m: map<K, Bucket>, t: real) {
    forall k | k in m :: m[k].lastRefill == t
  }

  /** m' has the keys of m and some more, and every bucket was touched at t. */
  ghost predicate Joined<K>(m: map<K, Bucket>, m': map<K, Bucket>, keys: set<K>, t: real) {
    AllRecent(m', t) && m'.Keys == m.Keys + keys
  }

  lemma SweepKeepsRecent<K>(m: map<K, Bucket>, t: real)
    requires AllRecent(m, t)
    ensures Sweep(m, t) == m
  {
  }

  lemma KeyJoins<K>(l: Limits, m: map<K, Bucket>, key: K, t: real)
    requires AllRecent(m, t)
    ensures Joined(m, Acquire(l, m, key, t).0, {key}, t)
  {
    SweepKeepsRecent(m, t);
  }

  lemma JoinedTwice<K>(m: map<K, Bucket>, m1: map<K, Bucket>, m2: map<K, Bucket>, keys: set<K>, keys': set<K>,
                       t: real)
    requires Joined(m, m1, keys, t) && Joined(m1, m2, keys', t)
    ensures Joined(m, m2, keys' + keys, t)
  {
    assert (m.Keys + keys) + keys' == m.Keys + (keys' + keys);
  }

  lemma CrowdUnfolds(l: Limits, m: map<int, Bucket>, n: nat, t: real)
    requires n > 0
    ensures After(l, m, Crowd(n, t)) == After(l, Acquire(l, m, n, t).0, Crowd(n - 1, t))
  {
    assert Crowd(n, t)[0] == Call(n, t) && Crowd(n, t)[1..] == Crowd(n - 1, t);
  }

  /** Other chats: their buckets join, and nothing is idle yet. */
  lemma {:induction false} CrowdJoins(l: Limits, m: map<int, Bucket>, n: nat, t: real)
    requires AllRecent(m, t)
    ensures Joined(m, After(l, m, Crowd(n, t)), CrowdKeys(n), t)
    decreases n
  {
    if n > 0 {
      hide Acquire, Crowd;
      var m1 := Acquire(l, m, n, t).0;
      KeyJoins(l, m, n, t);
      CrowdJoins(l, m1, n - 1, t);
      CrowdUnfolds(l, m, n, t);
      JoinedTwice(m, m1, After(l, m1, Crowd(n - 1, t)), {n}, CrowdKeys(n - 1), t);
    }
  }

  lemma {:induction false} CrowdIsOthers(l: Limits, m: map<int, Bucket>, n: nat, t: real)
    ensures TimesFor(Crowd(n, t), 0) == [] && AnswersFor(l, m, Crowd(n, t), 0) == []
    decreases n
  {
    if n > 0 {
      assert Crowd(n, t)[0] == Call(n, t) && Crowd(n, t)[1..] == Crowd(n - 1, t);
      CrowdIsOthers(l, Acquire(l, m, n, t).0, n - 1, t);
    }
  }

  lemma SweepDropsIdle<K>(m: map<K, Bucket>)
    requires |m| > SWEEP_ABOVE && AllRecent(m, 0.0)
    ensures Sweep(m, IDLE_TTL) == map[]
  {
  }

  lemma SweptLikeEmpty(l: Limits, m: map<int, Bucket>, calls: seq<Call<int>>)
    requires calls != [] && Sweep(m, calls[0].at) == map[]
    ensures AnswersFor(l, m, calls, 0) == AnswersFor(l, map[], calls, 0)
  {
    var none: map<int, Bucket> := map[];
    assert Sweep(none, calls[0].at) == none;
    assert Acquire(l, m, calls[0].key, calls[0].at) == Acquire(l, none, calls[0].key, calls[0].at);
  }

  /** The 65th chat and the first call after the idle time. */
  lemma CrowdSweptAway(l: Limits, n: nat)
    requires n >= SWEEP_ABOVE
    ensures Sweep(After(l, map[0 := Bucket(0.0, 0.0)], Crowd(n, 0.0)), IDLE_TTL) == map[]
  {
    var m: map<int, Bucket> := map[0 := Bucket(0.0, 0.0)];
    CrowdJoins(l, m, n, 0.0);
    var m' := After(l, m, Crowd(n, 0.0));
    assert |m'| == |m'.Keys| == |{0} + CrowdKeys(n)|;
    SweepDropsIdle(m');
  }

  /** On the witness run the limiter lets every call for key 0 through. */
  lemma WitnessAllAllowed(l: Limits)
    requires l.capacity >= 1
    ensures AllAllowed(AnswersFor(l, map[], Witness(l.capacity), 0))
  {
    var n := SWEEP_ABOVE;
    var a, b, c := Burst(l.capacity, 0.0), Crowd(n, 0.0), Burst(l.capacity, IDLE_TTL);
    FreshBurst(l, 0.0);
    FreshBurst(l, IDLE_TTL);
    var m := After(l, map[], a);
    CrowdSweptAway(l, n);
    CrowdIsOthers(l, m, n, 0.0);
    SweptLikeEmpty(l, After(l, m, b), c);
    AfterConcat(l, map[], a, b);
    AnswersConcat(l, map[], a, b, 0);
    AnswersConcat(l, map[], a + b, c, 0);
  }

  /** At the moment of its last refill a call costs one of the tokens held. */
  lemma SoloTakesOne(l: Limits, b: Bucket)
    requires b.tokens <= l.capacity as real
    ensures var (b', ok) := SoloStep(l, Some(b), b.lastRefill);
            ok ==> b.tokens >= 1.0 && b' == Bucket(b.tokens - 1.0, b.lastRefill)
  {
    assert Accrued(l, 0.0) == 0.0;
  }

  lemma BurstFirst(n: nat, t: real, later: seq<real>)
    requires n > 0
    ensures var times := TimesFor(Burst(n, t), 0) + later;
            times != [] && times[0] == t && times[1..] == TimesFor(Burst(n - 1, t), 0) + later
  {
    assert Burst(n, t)[1..] == Burst(n - 1, t);
  }

  lemma SoloFirst(l: Limits, b: Bucket, times: seq<real>)
    requires times != [] && AllAllowed(SoloAnswers(l, Some(b), times))
    ensures var (b', ok) := SoloStep(l, Some(b), times[0]);
            ok && AllAllowed(SoloAnswers(l, Some(b'), times[1..]))
  {
    var (b', ok) := SoloStep(l, Some(b), times[0]);
    var answers := SoloAnswers(l, Some(b), times);
    assert answers[0] == ok && answers[1..] == SoloAnswers(l, Some(b'), times[1..]);
  }

  /** A reference bucket that lets n calls at one moment through held n tokens. */
  lemma {:induction false} SoloBurst(l: Limits, b: Bucket, n: nat, t: real, later: seq<real>)
    requires b.lastRefill == t && b.tokens <= l.capacity as real
    requires n > 0 || b.tokens >= 0.0
    requires AllAllowed(SoloAnswers(l, Some(b), TimesFor(Burst(n, t), 0) + later))
    ensures n as real <= b.tokens
    ensures AllAllowed(SoloAnswers(l, Some(Bucket(b.tokens - n as real, t)), later))
    decreases n
  {
    var times := TimesFor(Burst(n, t), 0) + later;
    if n == 0 {
      assert times == later;
      assert Bucket(b.tokens - n as real, t) == b;
    } else {
      hide SoloStep, SoloAnswers, Burst, TimesFor, AllAllowed;
      var b' := SoloStep(l, Some(b), t).0;
      BurstFirst(n, t, later);
      SoloFirst(l, b, times);
      SoloTakesOne(l, b);
      SoloBurst(l, b', n - 1, t, later);
      assert Bucket(b'.tokens - (n - 1) as real, t) == Bucket(b.tokens - n as real, t);
    }
  }

  lemma WitnessTimes(n: nat)
    ensures TimesFor(Witness(n), 0) == TimesFor(Burst(n, 0.0), 0) + TimesFor(Burst(n, IDLE_TTL), 0)
  {
    hide Crowd, Burst, TimesFor, AnswersFor;
    TimesConcat(Burst(n, 0.0), Crowd(SWEEP_ABOVE, 0.0), 0);
    TimesConcat(Burst(n, 0.0) + Crowd(SWEEP_ABOVE, 0.0), Burst(n, IDLE_TTL), 0);
    CrowdIsOthers(Limits(0, 0.0), map[], SWEEP_ABOVE, 0.0);
  }

  lemma SoloStartsFresh(l: Limits, times: seq<real>)
    requires times != []
    ensures SoloAnswers(l, None, times) == SoloAnswers(l, Some(Fresh(l, times[0])), times)
  {
  }

  /** An emptied bucket answers after the idle time like one that holds what accrued. */
  lemma SoloRefills(l: Limits, times: seq<real>)
    requires times != [] && times[0] == IDLE_TTL
    ensures SoloAnswers(l, Some(Bucket(0.0, 0.0)), times) ==
            SoloAnswers(l, Some(Bucket(Min(Accrued(l, IDLE_TTL), l.capacity as real), IDLE_TTL)), times)
  {
    var idle, held := Bucket(0.0, 0.0), Bucket(Min(Accrued(l, IDLE_TTL), l.capacity as real), IDLE_TTL);
    assert DurationSince(IDLE_TTL, 0.0) == IDLE_TTL && DurationSince(IDLE_TTL, IDLE_TTL) == 0.0;
    assert Accrued(l, 0.0) == 0.0;
    assert Refilled(l, idle, IDLE_TTL) == Refilled(l, held, IDLE_TTL);
    assert SoloStep(l, Some(idle), IDLE_TTL) == SoloStep(l, Some(held), IDLE_TTL);
  }

  /** If the reference bucket lets the witness run through, it refills within the idle time. */
  lemma WitnessNeedsRefill(l: Limits)
    requires l.capacity >= 1
    requires AllAllowed(SoloAnswers(l, None, TimesFor(Witness(l.capacity), 0)))
    ensures RefillsWithinTtl(l)
  {
    var n := l.capacity;
    WitnessTimes(n);
    var first, second := TimesFor(Burst(n, 0.0), 0), TimesFor(Burst(n, IDLE_TTL), 0);
    assert (first + second)[0] == 0.0;
    SoloStartsFresh(l, first + second);
    SoloBurst(l, Fresh(l, 0.0), n, 0.0, second);
    assert Bucket(Fresh(l, 0.0).tokens - n as real, 0.0) == Bucket(0.0, 0.0);
    SoloRefills(l, second);
    assert second + [] == second;
    SoloBurst(l, Bucket(Min(Accrued(l, IDLE_TTL), n as real), IDLE_TTL), n, IDLE_TTL, []);
  }

  lemma NotSwept<K>(l: Limits, m: map<K, Bucket>, key: K, at: real, keys: set<K>)
    requires m.Keys <= keys && key in keys && |keys| <= 64
    ensures Sweep(m, at) == m && Acquire(l, m, key, at).0.Keys <= keys
  {
    SubsetSize(m.Keys, keys);
  }

  /** With at most 64 keys nothing is ever dropped, whatever the limits. */
  lemma {:induction false} FewKeysKept<K>(l: Limits, m: map<K, Bucket>, calls: seq<Call<K>>, k: K, keys: set<K>)
    requires m.Keys <= keys && KeysOf(calls) <= keys && |keys| <= 64
    ensures AnswersFor(l, m, calls, k) == SoloAnswers(l, if k in m then Some(m[k]) else None, TimesFor(calls, k))
    decreases calls
  {
    if calls != [] {
      var c, rest := calls[0], calls[1..];
      assert c in calls && c.key in KeysOf(calls);
      assert forall d | d in rest :: d in calls && d.key in KeysOf(calls);
      NotSwept(l, m, c.key, c.at, keys);
      FewKeysKept(l, Acquire(l, m, c.key, c.at).0, rest, k, keys);
      if c.key == k {
        OwnCallFirst(calls, k);
      }
    }
  }

  lemma BurstKeys(n: nat, t: real)
    ensures KeysOf(Burst(n, t)) <= {0}
  {
  }

  lemma CrowdHasKeys(n: nat, t: real)
    ensures KeysOf(Crowd(n, t)) <= CrowdKeys(n)
  {
  }

  lemma {:induction false} SubsetSize<K>(a: set<K>, b: set<K>)
    requires a <= b
    ensures |a| <= |b|
  {
    if a != {} {
      var k :| k in a;
      SubsetSize(a - {k}, b - {k});
    }
  }

  lemma WitnessKeys(capacity: nat)
    ensures |KeysOf(Witness(capacity))| <= 65
  {
    var a, b, c := Burst(capacity, 0.0), Crowd(SWEEP_ABOVE, 0.0), Burst(capacity, IDLE_TTL);
    BurstKeys(capacity, 0.0);
    BurstKeys(capacity, IDLE_TTL);
    CrowdHasKeys(SWEEP_ABOVE, 0.0);
    var keys := {0} + CrowdKeys(SWEEP_ABOVE);
    forall call: Call<int> | call in a + b + c
      ensures call.key in keys
    {
      assert call.key in KeysOf(a) + KeysOf(b) + KeysOf(c);
    }
    SubsetSize(KeysOf(Witness(capacity)), keys);
  }

  /** Dropping idle buckets never shows exactly when at most 64 keys call, a full bucket refills within the
      idle time, or none ever lets a call through. */
  lemma SweepUnobservableIff(l: Limits, n: nat)
    ensures SweepUnobservable(l, n) <==> n <= 64 || l.capacity == 0 || RefillsWithinTtl(l)
  {
    if n <= 64 || l.capacity == 0 || RefillsWithinTtl(l) {
      forall calls: seq<Call<int>>, k: int | Monotone(calls) && |KeysOf(calls)| <= n
        ensures AnswersFor(l, map[], calls, k) == SoloAnswers(l, None, TimesFor(calls, k))
      {
        if n <= 64 {
          FewKeysKept(l, map[], calls, k, KeysOf(calls));
        } else {
          SweepIsUnobservable(l, calls, k);
        }
      }
    } else {
      WitnessMonotone(l.capacity);
      WitnessKeys(l.capacity);
      WitnessAllAllowed(l);
      if AllAllowed(SoloAnswers(l, None, TimesFor(Witness(l.capacity), 0))) {
        WitnessNeedsRefill(l);
      }
    }
  }

  // ---------- Exactly when the rate is bounded ----------

  /** On every run every key gets at most capacity + refill * (e - s) calls through between s and e. */
  ghost predicate RateBounded(l: Limits) {
    forall calls: seq<Call<int>>, k: int, s: real, e: real | Monotone(calls) && s <= e ::
      AllowedFor(l, map[], calls, k, s, e) as real <= l.capacity as real + l.refillPerSec * (e - s)
  }

  lemma {:induction false} AllowedInWindow<K>(l: Limits, m: map<K, Bucket>, calls: seq<Call<K>>, k: K, s: real, e: real)
    requires AllAllowed(AnswersFor(l, m, calls, k))
    requires forall t | t in TimesFor(calls, k) :: s <= t <= e
    ensures AllowedFor(l, m, calls, k, s, e) == |TimesFor(calls, k)|
    decreases calls
  {
    if calls != [] {
      var (m', ok) := Acquire(l, m, calls[0].key, calls[0].at);
      var rest := AnswersFor(l, m', calls[1..], k);
      if calls[0].key == k {
        OwnCallFirst(calls, k);
        assert AnswersFor(l, m, calls, k) == [ok] + rest;
        assert ([ok] + rest)[0] && forall i | 0 <= i < |rest| :: rest[i] == ([ok] + rest)[i + 1];
        assert calls[0].at in TimesFor(calls, k);
        assert forall t | t in TimesFor(calls[1..], k) :: t in TimesFor(calls, k);
      }
      AllowedInWindow(l, m', calls[1..], k, s, e);
    }
  }

  lemma {:induction false} BurstTimes(n: nat, t: real)
    ensures |TimesFor(Burst(n, t), 0)| == n && forall at | at in TimesFor(Burst(n, t), 0) :: at == t
  {
    if n > 0 {
      OwnCallFirst(Burst(n, t), 0);
      BurstTimes(n - 1, t);
    }
  }

  /** The witness run lets twice the capacity through within the idle time. */
  lemma WitnessAllowsTwice(l: Limits)
    requires l.capacity >= 1
    ensures AllowedFor(l, map[], Witness(l.capacity), 0, 0.0, IDLE_TTL) == 2 * l.capacity
  {
    var n := l.capacity;
    WitnessAllAllowed(l);
    WitnessTimes(n);
    BurstTimes(n, 0.0);
    BurstTimes(n, IDLE_TTL);
    AllowedInWindow(l, map[], Witness(n), 0, 0.0, IDLE_TTL);
  }

  /** The window bound holds on all runs exactly when a full bucket refills within the idle time. */
  lemma RateBoundedIff(l: Limits)
    ensures RateBounded(l) <==> RefillsWithinTtl(l)
  {
    if RefillsWithinTtl(l) {
      forall calls: seq<Call<int>>, k: int, s: real, e: real | Monotone(calls) && s <= e
        ensures AllowedFor(l, map[], calls, k, s, e) as real <= l.capacity as real + l.refillPerSec * (e - s)
      {
        RateBound(l, calls, k, s, e);
      }
    } else if l.capacity == 0 {
      var none: seq<Call<int>>, start, end := [], 0.0, 1.0;
      assert Monotone(none) && AllowedFor(l, map[], none, 0, start, end) == 0;
      assert l.refillPerSec * (end - start) < 0.0;
    } else {
      var start, end := 0.0, IDLE_TTL;
      WitnessMonotone(l.capacity);
      WitnessAllowsTwice(l);
      assert AllowedFor(l, map[], Witness(l.capacity), 0, start, end) == 2 * l.capacity;
      assert l.refillPerSec * (end - start) == 3600.0 * l.refillPerSec;
    }
  }
}
