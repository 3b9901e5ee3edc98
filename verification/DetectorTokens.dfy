/** What becomes of newborn tokens: none is lost or made up over any run, and what the order
    of the two sources can change. */
module DetectorTokens {
  import opened DedupQueue
  import opened Detector
  import opened DetectorRuns
  import opened Options

  // ---------- Conservation ----------

  datatype Tally = Tally(arrived: nat, skipped: nat, absorbed: nat, swept: nat)

  function Plus(a: Tally, b: Tally): Tally {
    Tally(a.arrived + b.arrived, a.skipped + b.skipped, a.absorbed + b.absorbed, a.swept + b.swept)
  }

  function TooOld(pending: map<Mint, PendingToken>, now: nat): map<Mint, PendingToken> {
    map m | m in pending && now >= pending[m].createdAt + 10_000_000_000 :: pending[m]
  }

  /** How many entries the end of this iteration throws away for being 10 seconds old. */
  function Swept(s: Engine, now: nat): nat {
    if (s.counter + 1) % 1000 == 0
    then |TooOld(s.pending, now)|
    else 0
  }

  /** A newborn arrival is skipped, absorbed by the entry that waits for it, or starts to wait. */
  function TallyOf(s: Engine, ev: Event): Tally {
    match ev
    case Timeout(order, now) => Tally(0, 0, 0, Swept(EmitAll(s, order, now).0, now))
    case Arrive(token, now) =>
      var mint := token.mint;
      if mint == "" || IsMigration(token) then Tally(0, 0, 0, 0)
      else if Live(s.newborn, DEFAULT_TTL, mint, now) then Tally(1, 1, 0, 0)
      else if mint in s.pending then Tally(1, 0, 1, Swept(s.(pending := s.pending - {mint}), now))
      else Tally(1, 0, 0, Swept(s.(pending := s.pending[mint := NewPending(token, now)]), now))
  }

  function RunTally(s: Engine, evs: seq<Event>): Tally
    decreases evs
  {
    if evs == [] then Tally(0, 0, 0, 0) else Plus(TallyOf(s, evs[0]), RunTally(Step(s, evs[0]).0, evs[1..]))
  }

  lemma RetainedOrTooOld(pending: map<Mint, PendingToken>, now: nat)
    ensures |Retained(pending, now)| + |TooOld(pending, now)| == |pending|
  {
    var kept, gone := Retained(pending, now), TooOld(pending, now);
    assert kept.Keys !! gone.Keys && kept.Keys + gone.Keys == pending.Keys;
    assert |kept| == |kept.Keys| && |gone| == |gone.Keys| && |pending| == |pending.Keys|;
  }

  lemma SweepCount(s: Engine, now: nat)
    ensures |Tick(s, now).pending| + Swept(s, now) == |s.pending|
  {
    hide Retained, TooOld, Cleaned;
    RetainedOrTooOld(s.pending, now);
  }

  lemma AddOne(p: map<Mint, PendingToken>, mint: Mint, entry: PendingToken)
    requires mint !in p
    ensures |p[mint := entry]| == |p| + 1
  {
    assert p[mint := entry].Keys == p.Keys + {mint};
    assert |p.Keys| == |p| && |p[mint := entry].Keys| == |p[mint := entry]|;
  }

  /** Only an arrival can sweep: a timeout sends everything a sweep would drop. */
  lemma TimeoutConserves(s: Engine, clock: nat, order: seq<Mint>, now: nat)
    requires Inv(s, clock) && clock <= now && Enabled(s, Timeout(order, now))
    ensures Swept(EmitAll(s, order, now).0, now) == 0
    ensures |Step(s, Timeout(order, now)).0.pending| + |order| == |s.pending|
  {
    InvLater(s, clock, now);
    EmitAllExact(s, order, now);
    var s1 := EmitAll(s, order, now).0;
    SweepCount(s1, now);
    assert TooOld(s1.pending, now) == map[];
  }

  /** The engine after a waiting entry and the arrival that completes it have been sent. */
  function OnMerge(s: Engine, token: TokenInfo, now: nat): Engine
    requires token.mint in s.pending
  {
    var merged := MergeTokenData(s.pending[token.mint], token).token;
    s.(pending := s.pending - {token.mint}, newborn := Inserted(s.newborn, DEFAULT_TTL, merged.mint, now))
  }

  lemma ArrivalConserves(s: Engine, token: TokenInfo, now: nat)
    ensures var t := TallyOf(s, Arrive(token, now));
            t.arrived + |s.pending|
            == t.skipped + t.absorbed + Handed(s, Arrive(token, now)) + |OnArrival(s, token, now).0.pending| + t.swept
  {
    hide TooOld, Retained, Cleaned, Live;
    var mint := token.mint;
    if mint != "" && !IsMigration(token) && !Live(s.newborn, DEFAULT_TTL, mint, now) {
      if mint in s.pending {
        RemoveOne(s.pending, mint);
        SweepCount(OnMerge(s, token, now), now);
      } else {
        AddOne(s.pending, mint, NewPending(token, now));
        SweepCount(s.(pending := s.pending[mint := NewPending(token, now)]), now);
      }
    }
  }

  lemma StepConserves(s: Engine, clock: nat, ev: Event)
    requires Inv(s, clock) && clock <= At(ev) && Enabled(s, ev)
    ensures var (s', out) := Step(s, ev);
            var t := TallyOf(s, ev);
            t.arrived + |s.pending| == t.skipped + t.absorbed + |OfNamespace(Newborn, out)| + |s'.pending| + t.swept
  {
    NothingRefused(s, clock, ev);
    OfNamespaceUniform(Newborn, Step(s, ev).1, if IsMigrationEvent(ev) then Migration else Newborn);
    match ev
    case Timeout(order, now) => TimeoutConserves(s, clock, order, now);
    case Arrive(token, now) => ArrivalConserves(s, token, now);
  }

  lemma {:induction false} RunConserves(s: Engine, clock: nat, evs: seq<Event>)
    requires Inv(s, clock) && ValidRun(s, clock, evs)
    ensures var t := RunTally(s, evs);
            t.arrived + |s.pending|
            == t.skipped + t.absorbed + |OfNamespace(Newborn, Outputs(s, evs))| + |Run(s, evs).pending| + t.swept
    decreases evs
  {
    if evs != [] {
      var (s1, out) := Step(s, evs[0]);
      StepConserves(s, clock, evs[0]);
      StepKeepsInv(s, clock, evs[0]);
      RunConserves(s1, At(evs[0]), evs[1..]);
      OfNamespaceConcat(Newborn, out, Outputs(s1, evs[1..]));
    }
  }

  /** Over any run every newborn arrival is accounted for exactly once: skipped as a duplicate,
      absorbed by a waiting entry, sent on, still waiting, or swept as too old. */
  lemma NewbornConservation(evs: seq<Event>)
    requires ValidRun(INIT, 0, evs)
    ensures var t := RunTally(INIT, evs);
            t.arrived
            == t.skipped + t.absorbed + |OfNamespace(Newborn, Outputs(INIT, evs))| + |Run(INIT, evs).pending| + t.swept
  {
    RunConserves(INIT, 0, evs);
  }

  // ---------- Provenance ----------

  /** An unmerged token goes out as it came, once its window is over. */
  ghost predicate SentAlone(o: Emission, a: Event) {
    a.Arrive? && o.token == a.token && o.at >= a.now + 250_000_000
  }

  /** The second text counts if it comes from PumpPortal and says something, or the first says nothing. */
  predicate TextOf(text: string, first: string, second: string, secondBackend: DetectionBackend) {
    text == if first == "" || (secondBackend == PumpPortal && second != "") then second else first
  }

  /** The second amount counts if it comes from PumpPortal and is positive. */
  predicate AmountOf(amount: real, first: real, second: real, secondBackend: DetectionBackend) {
    amount == if secondBackend == PumpPortal && second > 0.0 then second else first
  }

  /** One token out of two arrivals for a mint. */
  predicate MergeOf(t: TokenInfo, first: TokenInfo, second: TokenInfo) {
    && TextOf(t.name, first.name, second.name, second.backend)
    && TextOf(t.symbol, first.symbol, second.symbol, second.backend)
    && TextOf(t.creator, first.creator, second.creator, second.backend)
    && AmountOf(t.initialLiquiditySol, first.initialLiquiditySol, second.initialLiquiditySol, second.backend)
    && AmountOf(t.marketCapSol, first.marketCapSol, second.marketCapSol, second.backend)
    && t.poolAddress == (if first.poolAddress.Some? then first.poolAddress else second.poolAddress)
    && t.metadataUri == (if first.metadataUri.Some? then first.metadataUri else second.metadataUri)
    && t == first.(name := t.name, symbol := t.symbol, creator := t.creator,
                   initialLiquiditySol := t.initialLiquiditySol, marketCapSol := t.marketCapSol,
                   poolAddress := t.poolAddress, metadataUri := t.metadataUri)
  }

  /** A merged token goes out at once when the second arrival comes in. */
  ghost predicate SentMerged(o: Emission, a: Event, b: Event) {
    && a.Arrive? && b.Arrive?
    && a.token.mint == b.token.mint && a.now <= b.now
    && MergeOf(o.token, a.token, b.token) && o.at == b.now
  }

  ghost predicate Origin(o: Emission, past: seq<Event>) {
    || (exists a | a in past :: SentAlone(o, a))
    || (exists a, b | a in past && b in past :: SentMerged(o, a, b))
  }

  /** Every waiting entry is exactly one arrival of the past. */
  ghost predicate PendingArrived(s: Engine, past: seq<Event>) {
    forall m | m in s.pending ::
      && s.pending[m] == NewPending(s.pending[m].token, s.pending[m].createdAt)
      && Arrive(s.pending[m].token, s.pending[m].createdAt) in past
  }

  ghost predicate PastBefore(past: seq<Event>, clock: nat) {
    forall a | a in past :: At(a) <= clock
  }

  lemma OriginGrows(o: Emission, past: seq<Event>, more: seq<Event>)
    requires Origin(o, past)
    ensures Origin(o, past + more)
  {
    if a :| a in past && SentAlone(o, a) {
      assert a in past + more;
    } else {
      var a, b :| a in past && b in past && SentMerged(o, a, b);
      assert a in past + more && b in past + more;
    }
  }

  lemma {:induction false} EmitAllOrigin(s: Engine, order: seq<Mint>, now: nat, past: seq<Event>)
    requires PendingArrived(s, past)
    requires forall m | m in order && m in s.pending :: Expired(s.pending[m], now)
    ensures forall o | o in EmitAll(s, order, now).1 :: Origin(o, past)
    ensures PendingArrived(EmitAll(s, order, now).0, past)
    decreases |order|
  {
    if order != [] {
      if order[0] !in s.pending {
        EmitAllOrigin(s, order[1..], now, past);
      } else {
        var entry := s.pending[order[0]];
        var s1 := Sent(s, order[0], now);
        EmitAllOrigin(s1, order[1..], now, past);
        forall o | o in Emit(Newborn, s.newborn, entry.token, now)
          ensures Origin(o, past)
        {
          assert SentAlone(o, Arrive(entry.token, entry.createdAt));
        }
      }
    }
  }

  lemma TickKeepsArrived(s: Engine, now: nat, past: seq<Event>)
    requires PendingArrived(s, past)
    ensures PendingArrived(Tick(s, now), past)
  {
  }

  lemma StepKeepsArrived(s: Engine, ev: Event, past: seq<Event>)
    requires PendingArrived(s, past) && Enabled(s, ev)
    ensures PendingArrived(Step(s, ev).0, past + [ev])
  {
    assert PendingArrived(s, past + [ev]);
    match ev
    case Timeout(order, now) =>
      EmitAllOrigin(s, order, now, past + [ev]);
      TickKeepsArrived(EmitAll(s, order, now).0, now, past + [ev]);
    case Arrive(token, now) =>
      var mint := token.mint;
      if mint != "" && !IsMigration(token) && !Live(s.newborn, DEFAULT_TTL, mint, now) {
        if mint in s.pending {
          TickKeepsArrived(OnMerge(s, token, now), now, past + [ev]);
        } else {
          assert ev in past + [ev];
          TickKeepsArrived(s.(pending := s.pending[mint := NewPending(token, now)]), now, past + [ev]);
        }
      }
  }

  lemma StepOrigin(s: Engine, ev: Event, past: seq<Event>)
    requires Inv(s, At(ev)) && Enabled(s, ev)
    requires PendingArrived(s, past) && PastBefore(past, At(ev))
    ensures forall o | o in Step(s, ev).1 && o.ns == Newborn :: Origin(o, past + [ev])
  {
    hide Tick, Inserted;
    match ev
    case Timeout(order, now) =>
      EmitAllOrigin(s, order, now, past);
      forall o | o in Step(s, ev).1
        ensures Origin(o, past + [ev])
      {
        OriginGrows(o, past, [ev]);
      }
    case Arrive(token, now) =>
      if token.mint in s.pending {
        var entry := s.pending[token.mint];
        var first := Arrive(entry.token, entry.createdAt);
        assert first in past + [ev] && ev in past + [ev];
        assert MergeOf(MergeTokenData(entry, token).token, entry.token, token);
        forall o | o in Step(s, ev).1 && o.ns == Newborn
          ensures Origin(o, past + [ev])
        {
          assert SentMerged(o, first, ev);
        }
      }
  }

  lemma {:induction false} RunOrigin(s: Engine, clock: nat, evs: seq<Event>, past: seq<Event>)
    requires Inv(s, clock) && ValidRun(s, clock, evs)
    requires PendingArrived(s, past) && PastBefore(past, clock)
    ensures forall o | o in Outputs(s, evs) && o.ns == Newborn :: Origin(o, past + evs)
    decreases evs
  {
    if evs != [] {
      hide Step, Enabled, Inv, Origin, PendingArrived;
      var ev, rest := evs[0], evs[1..];
      InvLater(s, clock, At(ev));
      StepOrigin(s, ev, past);
      StepKeepsArrived(s, ev, past);
      StepKeepsInv(s, clock, ev);
      RunOrigin(Step(s, ev).0, At(ev), rest, past + [ev]);
      assert past + [ev] + rest == past + evs;
      forall o | o in Step(s, ev).1 && o.ns == Newborn
        ensures Origin(o, past + evs)
      {
        OriginGrows(o, past + [ev], rest);
      }
    }
  }

  /** No newborn output is made up: it is one arrival that waited out the merge window, or two
      arrivals for one mint merged, first into second, when the second came in. */
  lemma NewbornProvenance(evs: seq<Event>, o: Emission)
    requires ValidRun(INIT, 0, evs)
    requires o in Outputs(INIT, evs) && o.ns == Newborn
    ensures Origin(o, evs)
  {
    RunOrigin(INIT, 0, evs, []);
    assert [] + evs == evs;
  }

  // ---------- What the order of the two sources changes ----------

  /** What PumpPortal says if it says something, and what Helius says otherwise. */
  function PumpPortalFirst(helius: string, pumpPortal: string): string {
    if pumpPortal != "" then pumpPortal else helius
  }

  /** The merged token of a Helius and a PumpPortal arrival, whichever comes first. */
  lemma MergedValues(helius: TokenInfo, pumpPortal: TokenInfo, heliusFirst: bool)
    requires helius.backend == Helius && pumpPortal.backend == PumpPortal
    ensures var (first, second) := if heliusFirst then (helius, pumpPortal) else (pumpPortal, helius);
            var t := Merged(first, second);
            && t.name == PumpPortalFirst(helius.name, pumpPortal.name)
            && t.symbol == PumpPortalFirst(helius.symbol, pumpPortal.symbol)
            && t.creator == PumpPortalFirst(helius.creator, pumpPortal.creator)
            && t.initialLiquiditySol ==
               (if pumpPortal.initialLiquiditySol > 0.0 then pumpPortal else first).initialLiquiditySol
            && t.marketCapSol == (if pumpPortal.marketCapSol > 0.0 then pumpPortal else first).marketCapSol
            && t.poolAddress == (if first.poolAddress != None then first else second).poolAddress
            && t.metadataUri == (if first.metadataUri != None then first else second).metadataUri
            && t.mint == first.mint && t.source == first.source && t.decimals == first.decimals
            && t.backend == first.backend && t.detectedAt == first.detectedAt
            && t.initialLiquidityUsd == first.initialLiquidityUsd
            && t.vSolInBondingCurve == first.vSolInBondingCurve && t.initialBuySol == first.initialBuySol
  {
  }

  /** The text fields never depend on which source came first; the others do not exactly when
      the stated condition on the two arrivals holds. */
  lemma MergeOrderIndependentIff(helius: TokenInfo, pumpPortal: TokenInfo)
    requires helius.backend == Helius && pumpPortal.backend == PumpPortal
    ensures var hp, ph := Merged(helius, pumpPortal), Merged(pumpPortal, helius);
            && hp.name == ph.name && hp.symbol == ph.symbol && hp.creator == ph.creator
            && (hp.initialLiquiditySol == ph.initialLiquiditySol
                <==> || pumpPortal.initialLiquiditySol > 0.0
                     || helius.initialLiquiditySol == pumpPortal.initialLiquiditySol)
            && (hp.marketCapSol == ph.marketCapSol
                <==> pumpPortal.marketCapSol > 0.0 || helius.marketCapSol == pumpPortal.marketCapSol)
            && (hp.poolAddress == ph.poolAddress
                <==> || helius.poolAddress == None || pumpPortal.poolAddress == None
                     || helius.poolAddress == pumpPortal.poolAddress)
            && (hp.metadataUri == ph.metadataUri
                <==> || helius.metadataUri == None || pumpPortal.metadataUri == None
                     || helius.metadataUri == pumpPortal.metadataUri)
            && (hp.vSolInBondingCurve == ph.vSolInBondingCurve
                <==> helius.vSolInBondingCurve == pumpPortal.vSolInBondingCurve)
            && (hp.initialBuySol == ph.initialBuySol <==> helius.initialBuySol == pumpPortal.initialBuySol)
            && (hp.initialLiquidityUsd == ph.initialLiquidityUsd
                <==> helius.initialLiquidityUsd == pumpPortal.initialLiquidityUsd)
            && (hp.source == ph.source <==> helius.source == pumpPortal.source)
            && (hp.decimals == ph.decimals <==> helius.decimals == pumpPortal.decimals)
            && (hp.detectedAt == ph.detectedAt <==> helius.detectedAt == pumpPortal.detectedAt)
            && hp.backend != ph.backend
  {
  }
}
