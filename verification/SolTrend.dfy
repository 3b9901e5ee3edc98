/** The sliding window of SOL price samples behind the one-hour trend.
    Time is in nanoseconds of a clock that never runs backwards. */
module SolTrend {
  const MAX_SAMPLES: nat := 120
  const ONE_HOUR: nat := 3_600_000_000_000

  datatype Sample = Sample(at: nat, price: real)

  ghost predicate NotAfter(h: seq<Sample>, i: nat, j: nat)
    requires i < |h| && j < |h|
  {
    h[i].at <= h[j].at
  }

  ghost predicate Sorted(h: seq<Sample>) {
    forall i: nat, j: nat | i <= j < |h| :: NotAfter(h, i, j)
  }

  predicate IsRecent(s: Sample, now: nat) {
    now - s.at <= ONE_HOUR
  }

  /** Every sample of the history that lies within one hour of now. */
  function Recent(h: seq<Sample>, now: nat): (r: seq<Sample>)
    ensures |r| <= |h|
  {
    if h == [] then []
    else if IsRecent(h[0], now) then [h[0]] + Recent(h[1..], now)
    else Recent(h[1..], now)
  }

  function LastN(s: seq<Sample>, n: nat): seq<Sample> {
    if |s| <= n then s else s[|s| - n..]
  }

  /** What the buffer ought to hold: the newest 120 of the samples of the last hour. */
  function Window(h: seq<Sample>): seq<Sample> {
    if h == [] then [] else LastN(Recent(h, h[|h| - 1].at), MAX_SAMPLES)
  }

  /** Pops samples older than an hour off the front. */
  function DropStale(buf: seq<Sample>, now: nat): (rest: seq<Sample>)
    ensures |rest| <= |buf| && rest == buf[|buf| - |rest|..]
    ensures |rest| == |buf| || !IsRecent(buf[|buf| - |rest| - 1], now)
    ensures rest == [] || IsRecent(rest[0], now)
  {
    if buf != [] && !IsRecent(buf[0], now) then DropStale(buf[1..], now) else buf
  }

  function WithinCapacity(buf: seq<Sample>): seq<Sample> {
    if |buf| >= MAX_SAMPLES then buf[1..] else buf
  }

  /** One recording: stale samples go, then the oldest one of a full buffer, then s joins. */
  function Record(buf: seq<Sample>, s: Sample): seq<Sample> {
    WithinCapacity(DropStale(buf, s.at)) + [s]
  }

  /** The buffer after recording a whole history. */
  function RecordAll(h: seq<Sample>): seq<Sample> {
    if h == [] then [] else Record(RecordAll(h[..|h| - 1]), h[|h| - 1])
  }

  /** Percentage change from the oldest to the newest sample of a window. */
  function ChangePct(w: seq<Sample>): real {
    if |w| < 2 || w[0].price == 0.0 then 0.0
    else (w[|w| - 1].price - w[0].price) / w[0].price * 100.0
  }

  /** h[k..] is the longest suffix of h with at most 120 samples, all within an hour of now. */
  ghost predicate LongestRecentSuffix(h: seq<Sample>, k: nat, now: nat) {
    && k <= |h| <= k + 120
    && (forall i | k <= i < |h| :: now - h[i].at <= 3_600_000_000_000)
    && (k == 0 || |h| == k + 120 || now - h[k - 1].at > 3_600_000_000_000)
  }

  lemma SortedTail(h: seq<Sample>)
    requires Sorted(h) && h != []
    ensures Sorted(h[1..])
  {
    forall i: nat, j: nat | i <= j < |h[1..]|
      ensures NotAfter(h[1..], i, j)
    {
      assert NotAfter(h, i + 1, j + 1);
    }
  }

  /** In a sorted history the recent samples are a suffix. */
  lemma {:induction false} RecentIsSuffix(h: seq<Sample>, now: nat, k: nat)
    requires Sorted(h) && k <= |h|
    requires forall i | k <= i < |h| :: IsRecent(h[i], now)
    requires k == 0 || !IsRecent(h[k - 1], now)
    ensures Recent(h, now) == h[k..]
  {
    if h != [] {
      SortedTail(h);
      if k == 0 {
        RecentIsSuffix(h[1..], now, 0);
        assert h == [h[0]] + h[1..];
      } else {
        assert NotAfter(h, 0, k - 1);
        RecentIsSuffix(h[1..], now, k - 1);
        assert h[1..][k - 1..] == h[k..];
      }
    }
  }

  lemma {:induction false} FirstRecent(h: seq<Sample>, now: nat) returns (k: nat)
    requires Sorted(h)
    ensures k <= |h|
    ensures forall i | k <= i < |h| :: IsRecent(h[i], now)
    ensures forall i | 0 <= i < k :: !IsRecent(h[i], now)
  {
    k := |h|;
    while k > 0 && IsRecent(h[k - 1], now)
      invariant k <= |h|
      invariant forall i | k <= i < |h| :: IsRecent(h[i], now)
    {
      k := k - 1;
    }
    forall i | 0 <= i < k
      ensures !IsRecent(h[i], now)
    {
      assert NotAfter(h, i, k - 1);
    }
  }

  /** The filter over the whole history and the longest recent suffix are the same thing. */
  lemma WindowIsLongestRecentSuffix(h: seq<Sample>, k: nat)
    requires h != [] && Sorted(h)
    requires k <= |h|
    ensures LongestRecentSuffix(h, k, h[|h| - 1].at) <==> |h| - k == |Window(h)|
    ensures LongestRecentSuffix(h, k, h[|h| - 1].at) ==> h[k..] == Window(h)
  {
    var now := h[|h| - 1].at;
    var first := FirstRecent(h, now);
    RecentIsSuffix(h, now, first);
  }

  // ---------- The buffer is a filter over the whole history ----------

  lemma {:induction false} RecentSorted(h: seq<Sample>, now: nat)
    requires Sorted(h)
    ensures Sorted(Recent(h, now))
    ensures h != [] && IsRecent(h[0], now) ==> Recent(h, now) == h
  {
    if h != [] {
      SortedTail(h);
      RecentSorted(h[1..], now);
      if IsRecent(h[0], now) {
        assert h == [h[0]] + h[1..];
        if |h| > 1 {
          assert NotAfter(h, 0, 1);
        }
      }
    }
  }

  /** In a sorted buffer, popping from the front until a recent sample shows is filtering. */
  lemma {:induction false} DropStaleIsRecent(buf: seq<Sample>, now: nat)
    requires Sorted(buf)
    ensures DropStale(buf, now) == Recent(buf, now)
  {
    if buf != [] {
      RecentSorted(buf, now);
      SortedTail(buf);
      DropStaleIsRecent(buf[1..], now);
    }
  }

  lemma {:induction false} SortedLastN(s: seq<Sample>, n: nat)
    requires Sorted(s)
    ensures Sorted(LastN(s, n))
    ensures s != [] && |s| > n ==> LastN(s, n) == LastN(s[1..], n)
  {
    if |s| > n {
      SortedTail(s);
      SortedLastN(s[1..], n);
    }
  }

  /** Samples that the capacity pushed out never matter to a later window. */
  lemma {:induction false} RecentOfLastN(s: seq<Sample>, n: nat, now: nat)
    requires Sorted(s)
    ensures LastN(Recent(LastN(s, n), now), n) == LastN(Recent(s, now), n)
  {
    if |s| > n {
      SortedTail(s);
      SortedLastN(s, n);
      RecentOfLastN(s[1..], n, now);
      RecentSorted(s, now);
      if IsRecent(s[0], now) {
        SortedLastN(Recent(s, now), n);
      }
    }
  }

  /** Filtering twice with a later clock is filtering once. */
  lemma {:induction false} RecentOfRecent(h: seq<Sample>, before: nat, now: nat)
    requires before <= now
    ensures Recent(Recent(h, before), now) == Recent(h, now)
  {
    if h != [] {
      RecentOfRecent(h[1..], before, now);
      if IsRecent(h[0], before) {
        assert Recent(h, before)[1..] == Recent(h[1..], before);
      }
    }
  }

  lemma {:induction false} RecentOfAppend(h: seq<Sample>, s: Sample)
    ensures Recent(h + [s], s.at) == Recent(h, s.at) + [s]
  {
    if h == [] {
      assert h + [s] == [s];
    } else {
      assert (h + [s])[0] == h[0] && (h + [s])[1..] == h[1..] + [s];
      RecentOfAppend(h[1..], s);
    }
  }

  lemma MakeRoom(buf: seq<Sample>, s: Sample)
    requires |buf| <= MAX_SAMPLES
    ensures WithinCapacity(buf) + [s] == LastN(buf + [s], MAX_SAMPLES)
  {
  }

  /** One recording takes the window of a history to the window of the longer one. */
  lemma RecordWindow(h: seq<Sample>, s: Sample)
    requires Sorted(h) && (h != [] ==> h[|h| - 1].at <= s.at)
    ensures Record(Window(h), s) == Window(h + [s])
  {
    if h == [] {
      assert h + [s] == [s];
    } else {
      var before, n := h[|h| - 1].at, MAX_SAMPLES;
      var recent := Recent(h, before);
      RecentSorted(h, before);
      SortedLastN(recent, n);
      DropStaleIsRecent(Window(h), s.at);
      RecentOfLastN(recent, n, s.at);
      RecentOfRecent(h, before, s.at);
      RecentOfAppend(h, s);
      var kept := Recent(Window(h), s.at);
      MakeRoom(kept, s);
      LastNOfAppend(kept, Recent(h, s.at), s, n);
    }
  }

  lemma LastNOfAppend(a: seq<Sample>, b: seq<Sample>, s: Sample, n: nat)
    requires n > 0 && |a| <= n && LastN(a, n) == LastN(b, n)
    ensures LastN(a + [s], n) == LastN(b + [s], n)
  {
    if |b| > n {
      assert a == b[|b| - n..];
    }
  }

  lemma UnSnoc(h: seq<Sample>) returns (before: seq<Sample>, s: Sample)
    requires Sorted(h) && h != []
    ensures h == before + [s] && Sorted(before)
    ensures before != [] ==> before[|before| - 1].at <= s.at
    ensures RecordAll(h) == Record(RecordAll(before), s)
  {
    before, s := h[..|h| - 1], h[|h| - 1];
    var p := before;
    forall i: nat, j: nat | i <= j < |p|
      ensures NotAfter(p, i, j)
    {
      assert NotAfter(h, i, j);
    }
    if p != [] {
      assert NotAfter(h, |h| - 2, |h| - 1);
    }
  }

  /** Recording any history with a clock that never runs backwards leaves exactly the window:
      a filter over everything ever recorded, cut to the newest 120. */
  lemma {:induction false} RecordAllIsWindow(h: seq<Sample>)
    requires Sorted(h)
    ensures RecordAll(h) == Window(h)
    decreases |h|
  {
    if h != [] {
      var before, s := UnSnoc(h);
      RecordAllIsWindow(before);
      RecordWindow(before, s);
    }
  }

  /** After any history the change is that from the first sample of its longest recent suffix to the last one. */
  lemma ChangeOverHistory(h: seq<Sample>, k: nat)
    requires Sorted(h) && k < |h| && LongestRecentSuffix(h, k, h[|h| - 1].at)
    ensures var pct, first, last := ChangePct(RecordAll(h)), h[k].price, h[|h| - 1].price;
            if first == 0.0 then pct == 0.0 else first * (100.0 + pct) == 100.0 * last
  {
    hide RecordAll, Window, Sorted, LongestRecentSuffix;
    RecordAllIsWindow(h);
    WindowIsLongestRecentSuffix(h, k);
    ChangeOf(h[k..]);
  }

  lemma ChangeOf(w: seq<Sample>)
    requires w != []
    ensures var first, last := w[0].price, w[|w| - 1].price;
            if first == 0.0 then ChangePct(w) == 0.0 else first * (100.0 + ChangePct(w)) == 100.0 * last
  {
    var first, last := w[0].price, w[|w| - 1].price;
    if first != 0.0 {
      RelativeChange(first, last);
    }
  }

  lemma RelativeChange(first: real, last: real)
    requires first != 0.0
    ensures first * (100.0 + (last - first) / first * 100.0) == 100.0 * last
  {
    var ratio := (last - first) / first;
    assert first * ratio == last - first;
    assert first * (ratio * 100.0) == 100.0 * (first * ratio);
  }

  class SolTrendTracker {
    var prices: seq<Sample>
    const maxSamples: nat

    ghost predicate Valid()
      reads this
    {
      maxSamples == MAX_SAMPLES
    }

    constructor ()
      ensures Valid() && prices == []
    {
      prices := [];
      maxSamples := MAX_SAMPLES;
    }

    method RecordPrice(price: real, now: nat)
      requires Valid()
      modifies this`prices
      ensures prices == Record(old(prices), Sample(now, price))
    {
      var buf := prices;
      while buf != [] && now - buf[0].at > ONE_HOUR
        invariant DropStale(buf, now) == DropStale(prices, now)
        decreases |buf|
      {
        buf := buf[1..];
      }
      if |buf| >= maxSamples {
        buf := buf[1..];
      }
      prices := buf + [Sample(now, price)];
    }

    method Get1hChangePct() returns (pct: real)
      ensures pct == ChangePct(prices)
    {
      if |prices| < 2 {
        return 0.0;
      }
      var oldest, newest := prices[0].price, prices[|prices| - 1].price;
      if oldest == 0.0 {
        return 0.0;
      }
      pct := (newest - oldest) / oldest * 100.0;
    }
  }
}
