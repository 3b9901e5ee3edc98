/** The order of exits over whole runs of the pipeline, and what a stale price freezes. */
module ExitOrder {
  import opened Options
  import opened TradingProfiles
  import opened Positions
  import opened PositionStore
  import opened TpSl
  import opened Pipeline
  import opened PipelineRuns

  // ---------- The facts about a mode that the order of exits rests on ----------

  predicate Sound(profile: TradingProfile, tiers: seq<Tier>) {
    && |tiers| > 0
    && var first := tiers[0].triggerPct;
    && first > 0.0 && profile.stopLossPct > 0.0 && first >= profile.timeStopMinPnl
    && 0.0 < profile.trailingStopPct < 100.0
    && profile.trailingGatePct > profile.maxAgeMinPnl && profile.trailingGatePct > 0.0 && profile.maxHoldSecs > 0
    && (100.0 + profile.trailingGatePct) * 100.0 >= (100.0 + first) * (100.0 - profile.trailingStopPct)
  }

  lemma ModesSound(mode: TradingMode, maxHoldOverride: nat)
    ensures Sound(FromMode(mode, maxHoldOverride), TiersForMode(mode))
  {
  }

  // ---------- Prices and percentages ----------

  lemma ScaleLess(scale: real, a: real, b: real)
    requires scale > 0.0
    ensures a < b ==> scale * a < scale * b
    ensures a <= b ==> scale * a <= scale * b
  {
  }

  lemma PnlPrice(entry: real, current: real)
    requires entry > 0.0
    ensures entry * (100.0 + (current / entry - 1.0) * 100.0) == 100.0 * current
  {
    assert current / entry * entry == current;
  }

  lemma DropPrice(high: real, current: real, trail: real)
    requires high > 0.0 && (high - current) / high * 100.0 >= trail
    ensures 100.0 * current <= high * (100.0 - trail)
  {
    var drop := (high - current) / high;
    assert drop * high == high - current;
    ScaleLess(high, trail, drop * 100.0);
    assert high * (drop * 100.0) == 100.0 * (high - current);
  }

  /** The first tier's price was reached. */
  predicate Reached(p: Position, first: real) {
    p.entryPrice > 0.0 && 100.0 * p.highestPrice >= p.entryPrice * (100.0 + first)
  }

  /** Price, high and PnL belong together. */
  predicate Priced(p: Position) {
    && p.highestPrice >= p.currentPrice && p.highestPrice >= p.entryPrice
    && p.pnlPct == (if p.entryPrice > 0.0 then (p.currentPrice / p.entryPrice - 1.0) * 100.0 else 0.0)
  }

  lemma AtHighHasPnl(p: Position, first: real)
    requires Priced(p) && Reached(p, first) && p.currentPrice == p.highestPrice
    ensures p.pnlPct >= first
  {
    PnlPrice(p.entryPrice, p.currentPrice);
    ScaleLess(p.entryPrice, 100.0 + p.pnlPct, 100.0 + first);
  }

  /** A price past the gate yet a full trailing distance below its high had reached the first tier. */
  lemma TrailingHasReached(profile: TradingProfile, tiers: seq<Tier>, p: Position)
    requires Sound(profile, tiers) && Priced(p) && p.trailingStopPct == Some(profile.trailingStopPct)
    requires p.pnlPct > profile.trailingGatePct && p.ShouldTrailingStop()
    ensures Reached(p, tiers[0].triggerPct) && p.currentPrice < p.highestPrice
  {
    var entry, first, keep := p.entryPrice, tiers[0].triggerPct, 100.0 - profile.trailingStopPct;
    PnlPrice(entry, p.currentPrice);
    DropPrice(p.highestPrice, p.currentPrice, profile.trailingStopPct);
    ScaleLess(entry, 100.0 + profile.trailingGatePct, 100.0 + p.pnlPct);
    Crossing(entry, p.highestPrice, p.currentPrice, 100.0 + profile.trailingGatePct, 100.0 + first, keep);
    ScaleLess(p.highestPrice, keep, 100.0);
  }

  lemma Crossing(entry: real, high: real, current: real, gate: real, first: real, keep: real)
    requires entry > 0.0 && keep > 0.0
    requires entry * gate < 100.0 * current <= high * keep
    requires gate * 100.0 >= first * keep
    ensures 100.0 * high >= entry * first
  {
    ScaleLess(entry, first * keep, gate * 100.0);
    assert entry * (gate * 100.0) == 100.0 * (entry * gate);
    assert entry * (first * keep) == keep * (entry * first);
    assert 100.0 * (high * keep) == keep * (100.0 * high);
    ScaleLess(keep, 100.0 * high, entry * first);
  }

  // ---------- The invariant ----------

  /** The first tier is marked, or the position is past its maximum age and leaves that way. */
  ghost predicate Passed(profile: TradingProfile, triggered: Triggered, p: Position) {
    0 in Marks(triggered, p.mint) || p.ageSecs > profile.maxHoldSecs
  }

  ghost predicate WellKept(profile: TradingProfile, p: Position) {
    Priced(p) && p.trailingStopPct == Some(profile.trailingStopPct) && p.stopLossPct == profile.stopLossPct
  }

  /** Its price is at its high, just updated and still to be evaluated. */
  ghost predicate AboutToBeSeen(s: System, p: Position) {
    s.looking == Some(p.mint) && !p.priceStale && p.currentPrice == p.highestPrice
  }

  ghost predicate Accounted(profile: TradingProfile, tiers: seq<Tier>, s: System, p: Position)
    requires |tiers| > 0
  {
    && WellKept(profile, p)
    && (Reached(p, tiers[0].triggerPct) ==> Passed(profile, s.triggered, p) || AboutToBeSeen(s, p))
  }

  ghost predicate Trusted(s: System, mint: Mint) {
    IsOpen(s.store.cache, mint) && s.store.cache[mint].id !in s.suspect
  }

  ghost predicate AllAccounted(profile: TradingProfile, tiers: seq<Tier>, s: System)
    requires |tiers| > 0
  {
    forall m | Trusted(s, m) :: Accounted(profile, tiers, s, s.store.cache[m])
  }

  ghost predicate AgesBy(cache: map<Mint, Position>, clock: Time) {
    forall m | m in cache :: cache[m].ageSecs <= cache[m].AgeAt(clock)
  }

  ghost predicate ExitInv(profile: TradingProfile, tiers: seq<Tier>, s: System, clock: Time)
    requires |tiers| > 0
  {
    StoreInv(s) && AllAccounted(profile, tiers, s) && AgesBy(s.store.cache, clock)
  }

  function ClockAfter(clock: Time, ev: Event): Time {
    match ev
    case PriceTick(_, _, _, now) => now
    case BuyTokens(_, _, _, _, _, _, now) => now
    case _ => clock
  }

  ghost predicate InOrder(clock: Time, evs: seq<Event>)
    decreases |evs|
  {
    evs == [] || (clock <= ClockAfter(clock, evs[0]) && InOrder(ClockAfter(clock, evs[0]), evs[1..]))
  }

  // ---------- One evaluation ----------

  /** Evaluating a fresh price at or above the first tier marks it, or lets the position go for its age. */
  lemma SeenIsPassed(profile: TradingProfile, tiers: seq<Tier>, triggered: Triggered, p: Position)
    requires Sound(profile, tiers) && p.stopLossPct == profile.stopLossPct && p.status == Open && !p.priceStale
    requires p.pnlPct >= tiers[0].triggerPct
    ensures Passed(profile, Evaluate(profile, tiers, triggered, p).0, p)
  {
    hide FirstTier;
    FirstTierAtZero(tiers, Marks(triggered, p.mint), p.pnlPct);
  }

  lemma FirstTierAtZero(tiers: seq<Tier>, marks: seq<nat>, pnlPct: real)
    requires |tiers| > 0 && pnlPct >= tiers[0].triggerPct
    ensures 0 in marks || FirstTier(tiers, marks, pnlPct, 0) == 0
  {
  }

  /** A trailing stop is sent only for a position that has passed the first tier. */
  lemma TrailingIsLate(profile: TradingProfile, tiers: seq<Tier>, s: System, triggered: Triggered, p: Position)
    requires Sound(profile, tiers)
    ensures var (t, c) := Evaluate(profile, tiers, triggered, p);
            (&& WellKept(profile, p)
             && (Reached(p, tiers[0].triggerPct) ==> Passed(profile, triggered, p) || AboutToBeSeen(s, p))
             && c.Some? && c.value.TrailingStop?) ==> 0 in Marks(t, p.mint)
  {
    hide Reached, Priced, FirstTier;
    var c := Evaluate(profile, tiers, triggered, p).1;
    if WellKept(profile, p) && c.Some? && c.value.TrailingStop? {
      TrailingHasReached(profile, tiers, p);
    }
  }

  /** An evaluation forgets nothing, and speaks only of its own mint. */
  lemma EvaluateFrame(profile: TradingProfile, tiers: seq<Tier>, triggered: Triggered, p: Position, mint: Mint)
    ensures var (t, c) := Evaluate(profile, tiers, triggered, p);
            && (mint != p.mint ==> Marks(t, mint) == Marks(triggered, mint))
            && (0 in Marks(triggered, mint) ==> 0 in Marks(t, mint))
            && (c.Some? ==> c.value.mint == p.mint)
  {
  }

  ghost predicate OrderKept(cache: map<Mint, Position>, suspect: set<Id>, triggered: Triggered, cs: seq<Command>) {
    forall c | c in cs && c.TrailingStop? && c.mint in cache && cache[c.mint].id !in suspect ::
      0 in Marks(triggered, c.mint)
  }

  ghost predicate Ready(profile: TradingProfile, tiers: seq<Tier>, triggered: Triggered, p: Position)
    requires |tiers| > 0
  {
    WellKept(profile, p) && (Reached(p, tiers[0].triggerPct) ==> Passed(profile, triggered, p))
  }

  lemma {:induction false} EvaluateAllOrder(profile: TradingProfile, tiers: seq<Tier>, s: System,
                                            triggered: Triggered, listed: seq<Position>)
    requires Sound(profile, tiers)
    requires forall p | p in listed :: p.mint in s.store.cache && s.store.cache[p.mint] == p
    requires forall p | p in listed && p.id !in s.suspect :: Ready(profile, tiers, triggered, p)
    ensures var (t, cs) := EvaluateAll(profile, tiers, triggered, listed);
            && OrderKept(s.store.cache, s.suspect, t, cs)
            && (forall m | 0 in Marks(triggered, m) :: 0 in Marks(t, m))
    decreases |listed|
  {
    if listed != [] {
      hide Evaluate, Reached, WellKept, Sound, Marks;
      SoundHasTiers(profile, tiers);
      var p, rest := listed[0], listed[1..];
      var (t, c) := Evaluate(profile, tiers, triggered, p);
      assert p in listed;
      forall m | 0 in Marks(triggered, m)
        ensures 0 in Marks(t, m)
      {
        EvaluateFrame(profile, tiers, triggered, p, m);
      }
      EvaluateFrame(profile, tiers, triggered, p, p.mint);
      if p.id !in s.suspect {
        TrailingIsLate(profile, tiers, s, triggered, p);
      }
      EvaluateAllOrder(profile, tiers, s, t, rest);
    }
  }

  // ---------- Every step keeps the invariant ----------

  lemma AgeGrows(p: Position, clock: Time, later: Time)
    requires clock <= later
    ensures p.AgeAt(clock) <= p.AgeAt(later)
  {
  }

  lemma AgesLater(cache: map<Mint, Position>, clock: Time, later: Time)
    requires AgesBy(cache, clock) && clock <= later
    ensures AgesBy(cache, later)
  {
    forall m | m in cache
      ensures cache[m].ageSecs <= cache[m].AgeAt(later)
    {
      AgeGrows(cache[m], clock, later);
    }
  }

  /** A tick keeps a position accounted for: a new high is about to be seen. */
  lemma RepricedAccounted(profile: TradingProfile, tiers: seq<Tier>, s: System, p: Position, price: real,
                          stale: bool, now: Time, s': System)
    requires |tiers| > 0 && s.looking.None? && Accounted(profile, tiers, s, p)
    requires p.ageSecs <= p.AgeAt(now)
    requires s'.looking == Some(p.mint) && s'.triggered == s.triggered
    ensures Accounted(profile, tiers, s', Repriced(p, price, stale, now))
  {
  }

  lemma TickAccounted(profile: TradingProfile, tiers: seq<Tier>, s: System, clock: Time, ev: Event)
    requires Sound(profile, tiers) && ExitInv(profile, tiers, s, clock) && Enabled(s, ev)
    requires ev.PriceTick? && clock <= ev.now
    ensures AllAccounted(profile, tiers, Step(profile, tiers, s, ev))
    ensures AgesBy(Step(profile, tiers, s, ev).store.cache, ev.now)
  {
    hide Accounted, Sound;
    SoundHasTiers(profile, tiers);
    var s' := Step(profile, tiers, s, ev);
    AgesLater(s.store.cache, clock, ev.now);
    forall m | Trusted(s', m)
      ensures Accounted(profile, tiers, s', s'.store.cache[m])
    {
      assert Trusted(s, m);
      if m == ev.mint {
        RepricedAccounted(profile, tiers, s, s.store.cache[m], ev.price, ev.stale, ev.now, s');
      } else {
        OtherAccounted(profile, tiers, s, s', s.store.cache[m]);
      }
    }
  }

  /** Not about to be seen, and with its marks kept, a position stays accounted for. */
  lemma OtherAccounted(profile: TradingProfile, tiers: seq<Tier>, s: System, s': System, p: Position)
    requires |tiers| > 0 && Accounted(profile, tiers, s, p) && s.looking != Some(p.mint)
    requires 0 in Marks(s.triggered, p.mint) ==> 0 in Marks(s'.triggered, p.mint)
    ensures Accounted(profile, tiers, s', p)
  {
  }

  lemma LookAccounted(profile: TradingProfile, tiers: seq<Tier>, s: System, clock: Time)
    requires Sound(profile, tiers) && ExitInv(profile, tiers, s, clock) && s.looking.Some?
    ensures AllAccounted(profile, tiers, Step(profile, tiers, s, LookAtTicked))
  {
    hide Sound, Evaluate, Reached, WellKept, StoreInv;
    SoundHasTiers(profile, tiers);
    var s' := Step(profile, tiers, s, LookAtTicked);
    assert Filed(s.store) by {
      FiledOf(s);
    }
    forall m | Trusted(s', m)
      ensures Accounted(profile, tiers, s', s'.store.cache[m])
    {
      var p := s.store.cache[m];
      assert Trusted(s, m) && Accounted(profile, tiers, s, p);
      if IsOpen(s.store.cache, s.looking.value) {
        EvaluateFrame(profile, tiers, s.triggered, s.store.cache[s.looking.value], m);
      }
      if m == s.looking.value && Reached(p, tiers[0].triggerPct) && AboutToBeSeen(s, p) {
        KeptIsPriced(profile, p);
        AtHighHasPnl(p, tiers[0].triggerPct);
        SeenIsPassed(profile, tiers, s.triggered, p);
      }
    }
  }

  lemma KeptIsPriced(profile: TradingProfile, p: Position)
    requires WellKept(profile, p)
    ensures Priced(p) && p.stopLossPct == profile.stopLossPct
  {
  }

  lemma FiledOf(s: System)
    requires StoreInv(s)
    ensures Filed(s.store)
  {
  }

  lemma ListedReady(profile: TradingProfile, tiers: seq<Tier>, s: System, listed: seq<Position>)
    requires |tiers| > 0 && AllAccounted(profile, tiers, s) && s.looking.None? && ListsOpen(s.store.cache, listed)
    requires Filed(s.store)
    ensures forall p | p in listed :: p.mint in s.store.cache && s.store.cache[p.mint] == p
    ensures var kept := Retained(s.triggered, MintsOf(listed));
            && (forall p | p in listed && p.id !in s.suspect :: Ready(profile, tiers, kept, p))
            && (forall m | IsOpen(s.store.cache, m) && 0 in Marks(s.triggered, m) :: 0 in Marks(kept, m))
  {
    hide Reached, WellKept;
    var kept := Retained(s.triggered, MintsOf(listed));
    forall m | IsOpen(s.store.cache, m) && 0 in Marks(s.triggered, m)
      ensures 0 in Marks(kept, m)
    {
      assert s.store.cache[m] in listed;
    }
    forall p | p in listed && p.id !in s.suspect
      ensures Ready(profile, tiers, kept, p)
    {
      assert Trusted(s, p.mint);
      assert Accounted(profile, tiers, s, p);
    }
  }

  lemma CheckAllAccounted(profile: TradingProfile, tiers: seq<Tier>, s: System, clock: Time, listed: seq<Position>)
    requires Sound(profile, tiers) && ExitInv(profile, tiers, s, clock) && Enabled(s, CheckAll(listed))
    ensures var s' := Step(profile, tiers, s, CheckAll(listed));
            && AllAccounted(profile, tiers, s')
            && OrderKept(s.store.cache, s.suspect, s'.triggered, Commands(profile, tiers, s, CheckAll(listed)).1)
  {
    hide Sound, Reached, WellKept, Evaluate, EvaluateAll, ListsOpen, Retained, Ready, Marks, StoreInv, Filed;
    SoundHasTiers(profile, tiers);
    FiledOf(s);
    ListedReady(profile, tiers, s, listed);
    EvaluateAllOrder(profile, tiers, s, Retained(s.triggered, MintsOf(listed)), listed);
    var s' := Step(profile, tiers, s, CheckAll(listed));
    forall m | Trusted(s', m)
      ensures Accounted(profile, tiers, s', s'.store.cache[m])
    {
      assert Trusted(s, m) && Accounted(profile, tiers, s, s.store.cache[m]);
      FiledAt(s.store, m);
    }
  }

  lemma FiledAt(s: Store, mint: Mint)
    requires Filed(s) && mint in s.cache
    ensures s.cache[mint].mint == mint
  {
  }

  lemma NewAccounted(profile: TradingProfile, tiers: seq<Tier>, s: System, p: Position)
    requires Sound(profile, tiers)
    requires p.entryPrice == p.currentPrice == p.highestPrice && p.pnlPct == 0.0
    requires p.trailingStopPct == Some(profile.trailingStopPct) && p.stopLossPct == profile.stopLossPct
    ensures Accounted(profile, tiers, s, p)
  {
    var first := tiers[0].triggerPct;
    if p.entryPrice > 0.0 {
      ScaleLess(p.entryPrice, 100.0, 100.0 + first);
    }
  }

  /** Same position but for its tokens, same watch: still accounted for. */
  lemma SameWatchAccounted(profile: TradingProfile, tiers: seq<Tier>, s: System, s': System, p: Position,
                           amount: real)
    requires |tiers| > 0 && Accounted(profile, tiers, s, p)
    requires s'.triggered == s.triggered && s'.looking == s.looking
    ensures Accounted(profile, tiers, s', p.(tokenAmount := amount))
  {
  }

  lemma BookAccounted(profile: TradingProfile, tiers: seq<Tier>, s: System, clock: Time, ev: Event)
    requires Sound(profile, tiers) && ExitInv(profile, tiers, s, clock) && Enabled(s, ev)
    requires ev.Settle? || ev.GiveUp? || ev.CloseFailed? || ev.Attempt?
    ensures AllAccounted(profile, tiers, Step(profile, tiers, s, ev))
    ensures AgesBy(Step(profile, tiers, s, ev).store.cache, clock)
  {
    hide Sound, Accounted, Agreement, SaneRows, ClosedRowsKept, Settled, FailedClosed, OutcomeOf;
    SoundHasTiers(profile, tiers);
    var s' := Step(profile, tiers, s, ev);
    var busy := s.executor.mint;
    if ev.Settle? {
      SettledKeeps(s.store, busy, s.executor.settlement, ev.tx, ev.now);
      SettledAge(s.store, busy, s.executor.settlement, ev.tx, ev.now);
    } else if ev.CloseFailed? {
      FailedClosedKeeps(s.store, busy, ev.now);
      FailedClosedAge(s.store, busy, ev.now);
    }
    forall m | Trusted(s', m)
      ensures Accounted(profile, tiers, s', s'.store.cache[m])
    {
      assert Trusted(s, m);
      var p := s.store.cache[m];
      SameWatchAccounted(profile, tiers, s, s', p, s'.store.cache[m].tokenAmount);
    }
  }

  lemma SettledAge(s: Store, mint: Mint, settlement: Settlement, tx: string, now: Time)
    requires mint in s.cache
    ensures var s' := Settled(s, mint, settlement, tx, now);
            && mint in s'.cache
            && s'.cache[mint].ageSecs == s.cache[mint].ageSecs && s'.cache[mint].openedAt == s.cache[mint].openedAt
  {
  }

  lemma FailedClosedAge(s: Store, mint: Mint, now: Time)
    requires mint in s.cache
    ensures var s' := FailedClosed(s, mint, now);
            && mint in s'.cache
            && s'.cache[mint].ageSecs == s.cache[mint].ageSecs && s'.cache[mint].openedAt == s.cache[mint].openedAt
  {
  }

  lemma BuyAccounted(profile: TradingProfile, tiers: seq<Tier>, s: System, clock: Time, ev: Event)
    requires Sound(profile, tiers) && ExitInv(profile, tiers, s, clock) && Enabled(s, ev)
    requires ev.BuyTokens? && clock <= ev.now
    ensures AllAccounted(profile, tiers, Step(profile, tiers, s, ev))
    ensures AgesBy(Step(profile, tiers, s, ev).store.cache, ev.now)
  {
    hide Sound, Accounted, Agreement, SaneRows;
    SoundHasTiers(profile, tiers);
    var s' := Step(profile, tiers, s, ev);
    AgesLater(s.store.cache, clock, ev.now);
    var bought := NewPosition(profile, ev.id, ev.mint, ev.entryPrice, ev.entryAmount, ev.tokenAmount,
                              ev.walletSolAtOpen, ev.now);
    forall m | Trusted(s', m)
      ensures Accounted(profile, tiers, s', s'.store.cache[m])
    {
      if s'.store.cache[m] == bought {
        NewAccounted(profile, tiers, s', bought);
      } else {
        assert Trusted(s, m);
        SameWatchAccounted(profile, tiers, s, s', s.store.cache[m], s.store.cache[m].tokenAmount);
      }
    }
  }

  /** After a restart every open position is a restored one, and young. */
  lemma RebootAccounted(profile: TradingProfile, tiers: seq<Tier>, s: System, clock: Time, order: seq<Id>)
    requires |tiers| > 0 && StoreInv(s) && Enabled(s, Reboot(order))
    ensures var s' := Step(profile, tiers, s, Reboot(order));
            AllAccounted(profile, tiers, s') && AgesBy(s'.store.cache, clock)
  {
    hide Accounted, SaneRows, Loaded;
    var s' := Step(profile, tiers, s, Reboot(order));
    RestartRecoversOpen(s.store, order);
    forall m | m in s'.store.cache
      ensures s'.store.cache[m].id in s'.suspect && s'.store.cache[m].ageSecs == 0
    {
      OpenRow(s.store, m);
      assert s.store.cache[m].id in order;
    }
  }

  lemma StepKeepsExitInv(profile: TradingProfile, tiers: seq<Tier>, s: System, clock: Time, ev: Event)
    requires Sound(profile, tiers) && ExitInv(profile, tiers, s, clock) && Enabled(s, ev)
    requires clock <= ClockAfter(clock, ev)
    ensures ExitInv(profile, tiers, Step(profile, tiers, s, ev), ClockAfter(clock, ev))
  {
    StepKeepsStore(profile, tiers, s, ev);
    hide Sound, StoreInv, AgesBy, Accounted, Evaluate, EvaluateAll, Settled, Cleared, FailedClosed;
    hide Opened, Loaded, Ticked, Requests;
    SoundHasTiers(profile, tiers);
    match ev
    case PriceTick(_, _, _, _) => TickAccounted(profile, tiers, s, clock, ev);
    case LookAtTicked => LookAccounted(profile, tiers, s, clock);
    case CheckAll(listed) => CheckAllAccounted(profile, tiers, s, clock, listed);
    case Settle(_, _) => BookAccounted(profile, tiers, s, clock, ev);
    case GiveUp => BookAccounted(profile, tiers, s, clock, ev);
    case CloseFailed(_) => BookAccounted(profile, tiers, s, clock, ev);
    case Attempt(_, _) => BookAccounted(profile, tiers, s, clock, ev);
    case BuyTokens(_, _, _, _, _, _, _) => BuyAccounted(profile, tiers, s, clock, ev);
    case Reboot(order) => RebootAccounted(profile, tiers, s, clock, order);
    case _ => QueueStep(profile, tiers, s, Step(profile, tiers, s, ev));
  }

  lemma QueueStep(profile: TradingProfile, tiers: seq<Tier>, s: System, s': System)
    requires |tiers| > 0 && AllAccounted(profile, tiers, s)
    requires s'.store == s.store && s'.triggered == s.triggered && s'.looking == s.looking && s'.suspect == s.suspect
    ensures AllAccounted(profile, tiers, s')
  {
    forall m | Trusted(s', m)
      ensures Accounted(profile, tiers, s', s'.store.cache[m])
    {
      assert Trusted(s, m) && Accounted(profile, tiers, s, s.store.cache[m]);
    }
  }

  lemma {:induction false} RunKeepsExitInv(profile: TradingProfile, tiers: seq<Tier>, s: System, clock: Time,
                                           evs: seq<Event>)
    returns (last: Time)
    requires Sound(profile, tiers) && ExitInv(profile, tiers, s, clock)
    requires ValidRun(profile, tiers, s, evs) && InOrder(clock, evs)
    ensures ExitInv(profile, tiers, Run(profile, tiers, s, evs), last)
    decreases |evs|
  {
    hide Sound, ExitInv, Step, Enabled;
    if evs == [] {
      last := clock;
    } else {
      SoundHasTiers(profile, tiers);
      StepKeepsExitInv(profile, tiers, s, clock, evs[0]);
      last := RunKeepsExitInv(profile, tiers, Step(profile, tiers, s, evs[0]), ClockAfter(clock, evs[0]), evs[1..]);
    }
  }

  lemma SoundHasTiers(profile: TradingProfile, tiers: seq<Tier>)
    requires Sound(profile, tiers)
    ensures |tiers| > 0
  {
  }

  lemma CommandsInOrder(profile: TradingProfile, tiers: seq<Tier>, s: System, clock: Time, ev: Event)
    requires Sound(profile, tiers) && ExitInv(profile, tiers, s, clock) && Enabled(s, ev)
    ensures OrderKept(s.store.cache, s.suspect, Step(profile, tiers, s, ev).triggered,
                      Commands(profile, tiers, s, ev).1)
  {
    hide Sound, Evaluate, Reached, WellKept;
    SoundHasTiers(profile, tiers);
    match ev
    case LookAtTicked =>
      var m := s.looking.value;
      if IsOpen(s.store.cache, m) {
        var p := s.store.cache[m];
        FiledAt(s.store, m);
        EvaluateFrame(profile, tiers, s.triggered, p, m);
        if p.id !in s.suspect {
          assert Trusted(s, m);
          TrailingIsLate(profile, tiers, s, s.triggered, p);
        }
      }
    case CheckAll(listed) => CheckAllAccounted(profile, tiers, s, clock, listed);
    case _ =>
  }

  /** In all three modes and over every run: a trailing stop is sent for a record opened in this
      process and with its PnL neither rewritten nor cleared only when its first tier is marked. */
  lemma TrailingFollowsFirstTier(mode: TradingMode, maxHoldOverride: nat, clock: Time, evs: seq<Event>,
                                 ev: Event, c: Command)
    requires var profile, tiers := FromMode(mode, maxHoldOverride), TiersForMode(mode);
             && ValidRun(profile, tiers, START, evs) && InOrder(clock, evs)
             && Enabled(Run(profile, tiers, START, evs), ev)
             && c in Commands(profile, tiers, Run(profile, tiers, START, evs), ev).1
    ensures var profile, tiers := FromMode(mode, maxHoldOverride), TiersForMode(mode);
            var s := Run(profile, tiers, START, evs);
            c.TrailingStop? && c.mint in s.store.cache && s.store.cache[c.mint].id !in s.suspect ==>
              0 in Marks(Step(profile, tiers, s, ev).triggered, c.mint)
  {
    hide Sound, Step, Commands, Run, ValidRun;
    var profile, tiers := FromMode(mode, maxHoldOverride), TiersForMode(mode);
    ModesSound(mode, maxHoldOverride);
    StartKeepsStore();
    var last := RunKeepsExitInv(profile, tiers, START, clock, evs);
    CommandsInOrder(profile, tiers, Run(profile, tiers, START, evs), last, ev);
  }
}
