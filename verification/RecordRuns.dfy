/** What a record carries from its buy on, and what the prices that come in make of it. */
module RecordRuns {
  import opened Options
  import opened TradingProfiles
  import opened Positions
  import opened PositionStore
  import opened TpSl
  import opened ExitRules
  import opened ExitRuns
  import opened ExitOrder
  import opened Pipeline
  import opened PipelineRuns
  import opened RequestOrigins
  import opened RecordTiers

  // ---------- The exits a record is bought with ----------

  predicate AsProfiled(profile: TradingProfile, p: Position) {
    && p.takeProfitPct == profile.takeProfitPct && p.stopLossPct == profile.stopLossPct
    && p.trailingStopPct == Some(profile.trailingStopPct)
  }

  ghost predicate AllProfiled(profile: TradingProfile, s: Store) {
    && (forall m | m in s.cache :: AsProfiled(profile, s.cache[m]))
    && (forall id | id in s.rows :: AsProfiled(profile, s.rows[id]))
  }

  lemma {:induction false} LoadedProfiled(profile: TradingProfile, s: Store, order: seq<Id>)
    requires AllProfiled(profile, s) && forall id | id in order :: id in s.rows
    ensures AllProfiled(profile, Loaded(s, order))
    decreases |order|
  {
    if order != [] {
      var row := s.rows[order[0]];
      assert order[0] in order && forall id | id in order[1..] :: id in order;
      LoadedProfiled(profile, s.(cache := s.cache[row.mint := AsRow(row)]), order[1..]);
    }
  }

  lemma StepKeepsProfiled(profile: TradingProfile, tiers: seq<Tier>, s: System, ev: Event)
    requires AllProfiled(profile, s.store) && Enabled(s, ev)
    ensures AllProfiled(profile, Step(profile, tiers, s, ev).store)
  {
    hide Evaluate, EvaluateAll, ListsOpen, OutcomeOf, AmountAfter;
    if ev.Reboot? {
      LoadedProfiled(profile, s.store.(cache := map[]), ev.order);
    }
  }

  lemma {:induction false} RunKeepsProfiled(profile: TradingProfile, tiers: seq<Tier>, s: System, evs: seq<Event>)
    requires AllProfiled(profile, s.store) && ValidRun(profile, tiers, s, evs)
    ensures AllProfiled(profile, Run(profile, tiers, s, evs).store)
    decreases |evs|
  {
    if evs != [] {
      hide AllProfiled, Step, Enabled;
      StepKeepsProfiled(profile, tiers, s, evs[0]);
      RunKeepsProfiled(profile, tiers, Step(profile, tiers, s, evs[0]), evs[1..]);
    }
  }

  /** The percentages and times of a mode. */
  function ByMode<T>(mode: TradingMode, snipe: T, scalp: T, hold: T): T {
    match mode
    case Snipe => snipe
    case Scalp => scalp
    case Hold => hold
  }

  /** How far below its entry a position may fall, in percent. */
  function StopAt(mode: TradingMode): real {
    ByMode(mode, 5.0, 10.0, 50.0)
  }

  predicate StagnantIn(mode: TradingMode, p: Position) {
    p.ageSecs > ByMode(mode, 30, 120, 600) && p.pnlPct < ByMode(mode, 1.0, 3.0, 10.0)
  }

  predicate OverdueIn(mode: TradingMode, maxHoldOverride: nat, p: Position) {
    && p.ageSecs > (if maxHoldOverride > 0 then maxHoldOverride else ByMode(mode, 120, 600, 14400))
    && p.pnlPct > ByMode(mode, 2.0, 5.0, 10.0)
  }

  /** No reason to leave, and a fresh price. */
  predicate EarningIn(mode: TradingMode, maxHoldOverride: nat, p: Position) {
    p.pnlPct > -StopAt(mode) && !StagnantIn(mode, p) && !OverdueIn(mode, maxHoldOverride, p) && !p.priceStale
  }

  /** The gains at which the tiers of a mode go off. */
  function TiersAt(mode: TradingMode): seq<real> {
    ByMode(mode, [5.0], [10.0, 20.0, 50.0], [50.0, 100.0, 200.0])
  }

  predicate ReachesIn(mode: TradingMode, marks: seq<nat>, p: Position, i: nat) {
    i < |TiersAt(mode)| && i !in marks && p.pnlPct >= TiersAt(mode)[i]
  }

  predicate TrailingIn(mode: TradingMode, p: Position) {
    && p.pnlPct > ByMode(mode, 3.0, 10.0, 30.0) && p.highestPrice > 0.0
    && 100.0 * (p.highestPrice - p.currentPrice) >= ByMode(mode, 3.0, 5.0, 30.0) * p.highestPrice
  }

  /** Which command a look at an open position sends, in the numbers of its mode. */
  ghost predicate DueIn(mode: TradingMode, maxHoldOverride: nat, marks: seq<nat>, p: Position, c: Command) {
    && !(p.pnlPct < -95.0 && p.ageSecs < 120)
    && match c
       case StopLoss(_, _) => p.pnlPct <= -StopAt(mode)
       case TimeStop(_, _, _) => p.pnlPct > -StopAt(mode) && StagnantIn(mode, p)
       case MaxAgeExit(_, _, _) =>
         p.pnlPct > -StopAt(mode) && !StagnantIn(mode, p) && OverdueIn(mode, maxHoldOverride, p)
       case PartialTakeProfit(_, _, _, i) =>
         && EarningIn(mode, maxHoldOverride, p)
         && ReachesIn(mode, marks, p, i) && (forall j: nat | j < i :: !ReachesIn(mode, marks, p, j))
       case TrailingStop(_, _) =>
         && EarningIn(mode, maxHoldOverride, p) && (forall i: nat :: !ReachesIn(mode, marks, p, i))
         && TrailingIn(mode, p)
       case TakeProfit(_, _) =>
         && EarningIn(mode, maxHoldOverride, p) && (forall i: nat :: !ReachesIn(mode, marks, p, i))
         && !TrailingIn(mode, p) && p.pnlPct >= ByMode(mode, 5.0, 20.0, 100.0)
  }

  lemma ReachesByMode(mode: TradingMode, marks: seq<nat>, p: Position, i: nat)
    ensures Reaches(TiersForMode(mode), marks, p, i) <==> ReachesIn(mode, marks, p, i)
  {
  }

  lemma DueByMode(mode: TradingMode, maxHoldOverride: nat, marks: seq<nat>, p: Position, c: Command)
    requires AsProfiled(FromMode(mode, maxHoldOverride), p)
    requires Due(FromMode(mode, maxHoldOverride), TiersForMode(mode), marks, p, c)
    ensures DueIn(mode, maxHoldOverride, marks, p, c)
  {
    hide Reaches, ReachesIn, TiersForMode;
    forall i: nat
      ensures Reaches(TiersForMode(mode), marks, p, i) <==> ReachesIn(mode, marks, p, i)
    {
      ReachesByMode(mode, marks, p, i);
    }
  }

  /** With the numbers of its mode a command is due for the position: here it is, with what it carries. */
  lemma DueCommand(mode: TradingMode, maxHoldOverride: nat, marks: seq<nat>, p: Position, c: Command)
    returns (due: Command)
    requires AsProfiled(FromMode(mode, maxHoldOverride), p) && p.status == Open
    requires DueIn(mode, maxHoldOverride, marks, p, c)
    ensures Due(FromMode(mode, maxHoldOverride), TiersForMode(mode), marks, p, due)
  {
    hide Reaches, ReachesIn, TiersForMode;
    forall i: nat
      ensures Reaches(TiersForMode(mode), marks, p, i) <==> ReachesIn(mode, marks, p, i)
    {
      ReachesByMode(mode, marks, p, i);
    }
    match c
    case StopLoss(_, _) => due := StopLoss(p.mint, p.pnlPct);
    case TimeStop(_, _, _) => due := TimeStop(p.mint, p.ageSecs, p.pnlPct);
    case MaxAgeExit(_, _, _) => due := MaxAgeExit(p.mint, p.ageSecs, p.pnlPct);
    case PartialTakeProfit(_, _, _, i) =>
      InTiers(mode, marks, p, i);
      due := PartialTakeProfit(p.mint, p.pnlPct, TiersForMode(mode)[i].sellPct, i);
    case TrailingStop(_, _) =>
      DropMeans(p, p.DropFromHigh());
      due := TrailingStop(p.mint, p.DropFromHigh());
    case TakeProfit(_, _) => due := TakeProfit(p.mint, p.pnlPct);
  }

  lemma InTiers(mode: TradingMode, marks: seq<nat>, p: Position, i: nat)
    requires Reaches(TiersForMode(mode), marks, p, i)
    ensures i < |TiersForMode(mode)|
  {
  }

  lemma ReachedProfiled(mode: TradingMode, maxHoldOverride: nat, before: seq<Event>, mint: Mint)
    requires var profile, tiers := FromMode(mode, maxHoldOverride), TiersForMode(mode);
             ValidRun(profile, tiers, START, before) && mint in Run(profile, tiers, START, before).store.cache
    ensures var p := Run(FromMode(mode, maxHoldOverride), TiersForMode(mode), START, before).store.cache[mint];
            AsProfiled(FromMode(mode, maxHoldOverride), p) && p.mint == mint
  {
    hide FromMode, TiersForMode, StoreInv, AsProfiled;
    var profile, tiers := FromMode(mode, maxHoldOverride), TiersForMode(mode);
    StartKeepsStore();
    RunKeepsStore(profile, tiers, START, before);
    var s := Run(profile, tiers, START, before);
    FiledOf(s);
    FiledAt(s.store, mint);
    assert AllProfiled(profile, START.store);
    RunKeepsProfiled(profile, tiers, START, before);
  }

  /** In every reachable state of every mode, restarts included, a look at an open position queues a command
      exactly when one is due by the numbers of the mode, and the one it queues is. */
  lemma SendsInMode(mode: TradingMode, maxHoldOverride: nat, before: seq<Event>, ev: Event, mint: Mint)
    requires var profile, tiers := FromMode(mode, maxHoldOverride), TiersForMode(mode);
             && ValidRun(profile, tiers, START, before)
             && var s := Run(profile, tiers, START, before);
             Enabled(s, ev) && LooksAt(s, ev, mint) && IsOpen(s.store.cache, mint)
    ensures var profile, tiers := FromMode(mode, maxHoldOverride), TiersForMode(mode);
            var s := Run(profile, tiers, START, before);
            var sent, p, marks := QueuedFor(profile, tiers, s, ev, mint), s.store.cache[mint], Marks(s.triggered, mint);
            && |sent| <= 1
            && (sent == [] <==> forall c :: !DueIn(mode, maxHoldOverride, marks, p, c))
            && (forall c | c in sent :: DueIn(mode, maxHoldOverride, marks, p, c))
  {
    var profile, tiers := FromMode(mode, maxHoldOverride), TiersForMode(mode);
    var s := Run(profile, tiers, START, before);
    ReachedProfiled(mode, maxHoldOverride, before, mint);
    hide FromMode, TiersForMode, Step, Run, ValidRun, Enabled, Due, DueIn, AsProfiled, Marks, QueuedFor;
    var sent, p, marks := QueuedFor(profile, tiers, s, ev, mint), s.store.cache[mint], Marks(s.triggered, mint);
    SendsWhatIsDue(profile, tiers, before, ev, mint, StopLoss(mint, 0.0));
    if sent != [] {
      assert sent == [sent[0]];
      SendsWhatIsDue(profile, tiers, before, ev, mint, sent[0]);
      DueByMode(mode, maxHoldOverride, marks, p, sent[0]);
    } else {
      forall c
        ensures !DueIn(mode, maxHoldOverride, marks, p, c)
      {
        if DueIn(mode, maxHoldOverride, marks, p, c) {
          var due := DueCommand(mode, maxHoldOverride, marks, p, c);
          SendsWhatIsDue(profile, tiers, before, ev, mint, due);
        }
      }
    }
  }

  /** In every reachable state, restarts included, a look at an open position queues a stop-loss for it exactly
      when it is down by the percentage of its mode and not more than 95% down within two minutes. */
  lemma StopLossIff(mode: TradingMode, maxHoldOverride: nat, before: seq<Event>, ev: Event, mint: Mint)
    requires var profile, tiers := FromMode(mode, maxHoldOverride), TiersForMode(mode);
             && ValidRun(profile, tiers, START, before)
             && var s := Run(profile, tiers, START, before);
             Enabled(s, ev) && LooksAt(s, ev, mint) && IsOpen(s.store.cache, mint)
    ensures var profile, tiers := FromMode(mode, maxHoldOverride), TiersForMode(mode);
            var s := Run(profile, tiers, START, before);
            var p := s.store.cache[mint];
            StopLoss(mint, p.pnlPct) in Step(profile, tiers, s, ev).commands[|s.commands|..] <==>
            p.pnlPct <= -StopAt(mode) && !(p.pnlPct < -95.0 && p.ageSecs < 120)
  {
    var profile, tiers := FromMode(mode, maxHoldOverride), TiersForMode(mode);
    var s := Run(profile, tiers, START, before);
    var p, c := s.store.cache[mint], StopLoss(mint, s.store.cache[mint].pnlPct);
    ReachedProfiled(mode, maxHoldOverride, before, mint);
    SendsWhatIsDue(profile, tiers, before, ev, mint, c);
    hide Step, Run, ValidRun, StoreInv, Enabled, TiersForMode;
    InForMint(Step(profile, tiers, s, ev).commands[|s.commands|..], c);
  }

  lemma {:induction false} InForMint(cs: seq<Command>, c: Command)
    ensures c in cs <==> c in ForMint(cs, c.mint)
  {
    if cs != [] {
      InForMint(cs[1..], c);
    }
  }

  // ---------- What the prices make of a record ----------

  function FreshOf(ev: Event, mint: Mint): seq<(real, Time)> {
    if ev.PriceTick? && ev.mint == mint && !ev.stale then [(ev.price, ev.now)] else []
  }

  /** The fresh prices for the mint, and when they came in. */
  function FreshPrices(evs: seq<Event>, mint: Mint): seq<(real, Time)> {
    if evs == [] then [] else FreshOf(evs[0], mint) + FreshPrices(evs[1..], mint)
  }

  /** The whole seconds from opening to this time, none if it is earlier. */
  predicate WholeSeconds(ageSecs: nat, openedAt: Time, now: Time) {
    if now < openedAt then ageSecs == 0
    else ageSecs * 1_000_000_000 <= now - openedAt < (ageSecs + 1) * 1_000_000_000
  }

  /** The record shows the last of these prices, the highest of them or of the one before, and its age then. */
  ghost predicate Shows(p: Position, was: Position, prices: seq<(real, Time)>) {
    && p.highestPrice >= was.highestPrice
    && (forall t | t in prices :: p.highestPrice >= t.0)
    && (p.highestPrice == was.highestPrice || exists t :: t in prices && p.highestPrice == t.0)
    && (if prices == [] then p.currentPrice == was.currentPrice && p.ageSecs == was.ageSecs
        else p.currentPrice == prices[|prices| - 1].0 && WholeSeconds(p.ageSecs, was.openedAt, prices[|prices| - 1].1))
  }

  predicate SameBuy(p: Position, was: Position) {
    && p.id == was.id && p.mint == was.mint && p.status == was.status
    && p.entryPrice == was.entryPrice && p.entryAmount == was.entryAmount
    && p.openedAt == was.openedAt && p.walletSolAtOpen == was.walletSolAtOpen
    && p.takeProfitPct == was.takeProfitPct && p.stopLossPct == was.stopLossPct
    && p.trailingStopPct == was.trailingStopPct
  }

  lemma AgeIsWhole(p: Position, now: Time)
    ensures WholeSeconds(p.AgeAt(now), p.openedAt, now)
  {
  }

  lemma TickShows(p: Position, price: real, stale: bool, now: Time)
    ensures var q := Repriced(p, price, stale, now);
            SameBuy(q, p) && Shows(q, p, if stale then [] else [(price, now)])
  {
    if !stale {
      AgeIsWhole(p, now);
      var prices := [(price, now)];
      assert prices[0] in prices && prices[0].0 == price;
    }
  }

  lemma ShowsNothing(q: Position, p: Position)
    requires q.highestPrice == p.highestPrice && q.currentPrice == p.currentPrice && q.ageSecs == p.ageSecs
    ensures Shows(q, p, [])
  {
  }

  lemma ShowsJoin(p: Position, a: seq<(real, Time)>, q: Position, b: seq<(real, Time)>, r: Position)
    requires Shows(q, p, a) && Shows(r, q, b) && q.openedAt == p.openedAt
    ensures Shows(r, p, a + b)
  {
    if b != [] {
      assert (a + b)[|a + b| - 1] == b[|b| - 1];
    } else {
      assert a + b == a;
    }
    assert forall t :: t in a + b <==> t in a || t in b;
  }

  lemma FreshOne(ev: Event, mint: Mint)
    ensures FreshPrices([ev], mint) == FreshOf(ev, mint)
  {
    assert [ev][0] == ev && [ev][1..] == [];
  }

  /** While the mint stays open, only a fresh price for it changes any of this. */
  lemma StepShows(profile: TradingProfile, tiers: seq<Tier>, s: System, ev: Event, mint: Mint)
    requires StoreInv(s) && Enabled(s, ev) && !ev.Reboot? && IsOpen(s.store.cache, mint)
    requires IsOpen(Step(profile, tiers, s, ev).store.cache, mint)
    ensures var p, q := s.store.cache[mint], Step(profile, tiers, s, ev).store.cache[mint];
            SameBuy(q, p) && Shows(q, p, FreshPrices([ev], mint))
  {
    hide Agreement, SaneRows, Evaluate, EvaluateAll, ListsOpen, OutcomeOf, Settled, FailedClosed, Shows, Repriced;
    var p, q := s.store.cache[mint], Step(profile, tiers, s, ev).store.cache[mint];
    FreshOne(ev, mint);
    if ev.PriceTick? && ev.mint == mint {
      TickShows(p, ev.price, ev.stale, ev.now);
    } else {
      match ev {
        case Settle(tx, now) => SettledKeeps(s.store, s.executor.mint, s.executor.settlement, tx, now);
        case CloseFailed(now) => FailedClosedKeeps(s.store, s.executor.mint, now);
        case _ =>
      }
      ShowsNothing(q, p);
    }
  }

  lemma {:induction false} FreshConcat(a: seq<Event>, b: seq<Event>, mint: Mint)
    ensures FreshPrices(a + b, mint) == FreshPrices(a, mint) + FreshPrices(b, mint)
  {
    if a == [] {
      assert a + b == b;
    } else {
      assert (a + b)[0] == a[0] && (a + b)[1..] == a[1..] + b;
      var first, rest, last := FreshOf(a[0], mint), FreshPrices(a[1..], mint), FreshPrices(b, mint);
      FreshConcat(a[1..], b, mint);
      assert first + (rest + last) == (first + rest) + last;
    }
  }

  lemma {:induction false} LifeShows(profile: TradingProfile, tiers: seq<Tier>, s: System, evs: seq<Event>, mint: Mint)
    requires StoreInv(s) && ValidRun(profile, tiers, s, evs) && SameLife(profile, tiers, s, evs, mint)
    requires IsOpen(Run(profile, tiers, s, evs).store.cache, mint)
    ensures IsOpen(s.store.cache, mint)
    ensures var p, q := s.store.cache[mint], Run(profile, tiers, s, evs).store.cache[mint];
            SameBuy(q, p) && Shows(q, p, FreshPrices(evs, mint))
    decreases |evs|
  {
    hide StoreInv, Step, Enabled, Rebuys, Shows;
    if evs == [] {
      ShowsNothing(s.store.cache[mint], s.store.cache[mint]);
    } else {
      var ev, rest := evs[0], evs[1..];
      var s1 := Step(profile, tiers, s, ev);
      assert ev in evs && forall e | e in rest :: e in evs;
      StepKeepsStore(profile, tiers, s, ev);
      StepKeepsRecord(profile, tiers, s, ev, mint);
      LifeShows(profile, tiers, s1, rest, mint);
      StepShows(profile, tiers, s, ev, mint);
      assert [ev] + rest == evs;
      FreshConcat([ev], rest, mint);
      ShowsJoin(s.store.cache[mint], FreshPrices([ev], mint), s1.store.cache[mint], FreshPrices(rest, mint),
                Run(profile, tiers, s, evs).store.cache[mint]);
    }
  }

  /** From its buy on and as long as it is open, before any restart, a record keeps what it was bought with; its
      price is the last fresh one, its high the highest one, and its age the whole seconds up to the last one. */
  lemma RecordFollowsPrices(profile: TradingProfile, tiers: seq<Tier>, before: seq<Event>, ev: Event, mint: Mint,
                            evs: seq<Event>)
    requires ValidRun(profile, tiers, START, before)
    requires var s := Run(profile, tiers, START, before);
             && Enabled(s, ev) && Rebuys(s, ev, mint)
             && var s1 := Step(profile, tiers, s, ev);
             && ValidRun(profile, tiers, s1, evs) && SameLife(profile, tiers, s1, evs, mint)
             && IsOpen(Run(profile, tiers, s1, evs).store.cache, mint)
    ensures var s1 := Step(profile, tiers, Run(profile, tiers, START, before), ev);
            var p, prices := Run(profile, tiers, s1, evs).store.cache[mint], FreshPrices(evs, mint);
            && p.id == ev.id && p.mint == mint && p.entryPrice == ev.entryPrice && p.entryAmount == ev.entryAmount
            && p.openedAt == ev.now && p.walletSolAtOpen == ev.walletSolAtOpen
            && p.takeProfitPct == profile.takeProfitPct && p.stopLossPct == profile.stopLossPct
            && p.trailingStopPct == Some(profile.trailingStopPct)
            && p.highestPrice >= ev.entryPrice && (forall t | t in prices :: p.highestPrice >= t.0)
            && (p.highestPrice == ev.entryPrice || exists t :: t in prices && p.highestPrice == t.0)
            && (if prices == [] then p.currentPrice == ev.entryPrice && p.ageSecs == 0
                else
                  && p.currentPrice == prices[|prices| - 1].0
                  && WholeSeconds(p.ageSecs, ev.now, prices[|prices| - 1].1))
  {
    var s := Run(profile, tiers, START, before);
    var s1 := Step(profile, tiers, s, ev);
    StartKeepsStore();
    RunKeepsStore(profile, tiers, START, before);
    StepKeepsStore(profile, tiers, s, ev);
    hide StoreInv, Run, ValidRun, SameLife;
    assert s1.store.cache[mint] == NewPosition(profile, ev.id, mint, ev.entryPrice, ev.entryAmount, ev.tokenAmount,
                                               ev.walletSolAtOpen, ev.now);
    LifeShows(profile, tiers, s1, evs, mint);
  }

  /** In every reachable state a fresh price gives a cached position its PnL: in SOL on the tokens still held, and
      in percent of the entry price; a stale one only marks the position as stale. */
  lemma PriceGivesPnl(profile: TradingProfile, tiers: seq<Tier>, before: seq<Event>, mint: Mint, price: real,
                      stale: bool, now: Time)
    requires ValidRun(profile, tiers, START, before)
    requires var s := Run(profile, tiers, START, before);
             Enabled(s, PriceTick(mint, price, stale, now)) && mint in s.store.cache
    ensures var s := Run(profile, tiers, START, before);
            var s' := Step(profile, tiers, s, PriceTick(mint, price, stale, now));
            var p := s.store.cache[mint];
            && s'.store.rows == s.store.rows && s'.store.cache.Keys == s.store.cache.Keys
            && (forall m | m in s.store.cache && m != mint :: s'.store.cache[m] == s.store.cache[m])
            && var q := s'.store.cache[mint];
            && q.priceStale == stale && q.tokenAmount == p.tokenAmount
            && (stale ==> q == p.(priceStale := true))
            && (!stale ==> q.lastPriceAt == Some(now))
            && (!stale ==> q.pnlSol == price * p.tokenAmount - p.entryPrice * p.tokenAmount)
            && (!stale && p.entryPrice > 0.0 ==> p.entryPrice * (100.0 + q.pnlPct) == 100.0 * price)
            && (!stale && p.entryPrice <= 0.0 ==> q.pnlPct == p.pnlPct)
  {
    hide Run, ValidRun;
    var p := Run(profile, tiers, START, before).store.cache[mint];
    if p.entryPrice > 0.0 {
      PnlPrice(p.entryPrice, price);
    }
    Spread(price, p.entryPrice, p.tokenAmount);
  }

  lemma Spread(a: real, b: real, c: real)
    ensures (a - b) * c == a * c - b * c
  {
  }
}
