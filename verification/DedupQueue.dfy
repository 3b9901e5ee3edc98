/** Seen mints with a time-to-live. Time is in nanoseconds of a clock that never runs backwards. */
module DedupQueue {
  type Mint = string
  type Entries = map<Mint, nat>

  const NANOS_PER_SEC: nat := 1_000_000_000
  const DEFAULT_TTL: nat := 300 * NANOS_PER_SEC

  /** `now.duration_since(t)`, which saturates at zero. */
  function DurationSince(now: nat, t: nat): nat {
    if now < t then 0 else now - t
  }

  /** The mint was inserted and has not expired. */
  predicate Live(e: Entries, ttl: nat, mint: Mint, now: nat) {
    mint in e && DurationSince(now, e[mint]) < ttl
  }

  function Inserted(e: Entries, ttl: nat, mint: Mint, now: nat): Entries {
    if Live(e, ttl, mint, now) then e else e[mint := now]
  }

  function Cleaned(e: Entries, ttl: nat, now: nat): Entries {
    map m | m in e && DurationSince(now, e[m]) < ttl :: e[m]
  }

  class DeduplicationQueue {
    var entries: Entries
    const ttl: nat

    constructor (ttlSecs: nat)
      ensures entries == map[] && ttl == ttlSecs * NANOS_PER_SEC
    {
      entries := map[];
      ttl := ttlSecs * NANOS_PER_SEC;
    }

    method Insert(mint: Mint, now: nat) returns (isNew: bool)
      modifies this`entries
      ensures isNew == !Live(old(entries), ttl, mint, now)
      ensures entries == Inserted(old(entries), ttl, mint, now)
    {
      if mint in entries {
        if DurationSince(now, entries[mint]) < ttl {
          return false;
        }
      }
      entries := entries[mint := now];
      isNew := true;
    }

    predicate Contains(mint: Mint, now: nat)
      reads this`entries
    {
      if mint in entries then DurationSince(now, entries[mint]) < ttl else false
    }

    method Cleanup(now: nat)
      modifies this`entries
      ensures entries == Cleaned(old(entries), ttl, now)
    {
      entries := map m | m in entries && DurationSince(now, entries[m]) < ttl :: entries[m];
    }
  }

  /** No call at or after `now` can tell the two queues apart. */
  ghost predicate SameAnswers(e: Entries, e': Entries, ttl: nat, now: nat) {
    forall m: Mint, t: nat | now <= t :: Live(e, ttl, m, t) <==> Live(e', ttl, m, t)
  }

  /** A cleanup is unobservable: no later call answers differently, and only live mints remain. */
  lemma CleanupUnobservable(e: Entries, ttl: nat, now: nat)
    ensures SameAnswers(e, Cleaned(e, ttl, now), ttl, now)
    ensures forall m :: m in Cleaned(e, ttl, now) <==> Live(e, ttl, m, now)
  {
  }

  /** Inserting keeps two indistinguishable queues indistinguishable. */
  lemma InsertKeepsSameAnswers(e: Entries, e': Entries, ttl: nat, mint: Mint, now: nat)
    requires SameAnswers(e, e', ttl, now)
    ensures SameAnswers(Inserted(e, ttl, mint, now), Inserted(e', ttl, mint, now), ttl, now)
  {
    if !Live(e, ttl, mint, now) {
      assert !Live(e', ttl, mint, now);
      var f, f' := Inserted(e, ttl, mint, now), Inserted(e', ttl, mint, now);
      forall m: Mint, t: nat | now <= t
        ensures Live(f, ttl, m, t) <==> Live(f', ttl, m, t)
      {
        assert Live(e, ttl, m, t) <==> Live(e', ttl, m, t);
      }
    } else {
      assert Live(e', ttl, mint, now);
    }
  }
}
