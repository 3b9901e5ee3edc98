/** Concrete runs from the start state: where the order of exits, the books and the requests fail. */
module ConcreteRuns {
  import opened Options
  import opened TradingProfiles
  import opened Positions
  import opened PositionStore
  import opened TpSl
  import opened Pipeline
  import opened PipelineRuns
  import opened ExitOrder
  import opened RequestOrigins
  import opened ChainCoverage
  import opened SaleBooks
  import opened FullCloses
  import Sells
  import opened RecordTiers
  import opened TpSlRuns

  // ---------- Building a run event by event ----------

  function ClockEnd(clock: Time, evs: seq<Event>): Time
    decreases |evs|
  {
    if evs == [] then clock else ClockEnd(ClockAfter(clock, evs[0]), evs[1..])
  }

  ghost predicate Leads(profile: TradingProfile, tiers: seq<Tier>, from: System, o: Origins, clock: Time,
                        evs: seq<Event>, s: System, o': Origins, end: Time)
  {
    && ValidRun(profile, tiers, from, evs) && Run(profile, tiers, from, evs) == s
    && Parallel(from, o) && RunOrigins(profile, tiers, from, o, evs) == o'
    && InOrder(clock, evs) && ClockEnd(clock, evs) == end
  }

  /** The run leads from the start to this state, with a clock that never runs backwards. */
  ghost predicate Reaches(profile: TradingProfile, tiers: seq<Tier>, evs: seq<Event>, s: System, o: Origins,
                          end: Time) {
    Leads(profile, tiers, START, NO_ORIGINS, 0, evs, s, o, end)
  }

  lemma {:induction false} LeadsOn(profile: TradingProfile, tiers: seq<Tier>, from: System, o: Origins, clock: Time,
                                   evs: seq<Event>, s: System, o': Origins, end: Time, ev: Event)
    requires Leads(profile, tiers, from, o, clock, evs, s, o', end) && Enabled(s, ev) && end <= ClockAfter(end, ev)
    requires Parallel(s, o')
    ensures Leads(profile, tiers, from, o, clock, evs + [ev], Step(profile, tiers, s, ev),
                  StepOrigins(profile, tiers, s, o', ev), ClockAfter(end, ev))
    decreases |evs|
  {
    hide Step, StepOrigins, Enabled, Parallel;
    if evs == [] {
      var one := [ev];
      assert evs + [ev] == one && one[0] == ev && one[1..] == [];
      RunOne(profile, tiers, s, ev);
      var end' := ClockAfter(clock, ev);
      assert InOrder(end', one[1..]) && ClockEnd(end', one[1..]) == end';
      assert RunOrigins(profile, tiers, Step(profile, tiers, s, ev), StepOrigins(profile, tiers, s, o, ev), one[1..])
          == StepOrigins(profile, tiers, s, o, ev);
    } else {
      assert (evs + [ev])[0] == evs[0] && (evs + [ev])[1..] == evs[1..] + [ev];
      LeadsOn(profile, tiers, Step(profile, tiers, from, evs[0]), StepOrigins(profile, tiers, from, o, evs[0]),
              ClockAfter(clock, evs[0]), evs[1..], s, o', end, ev);
    }
  }

  lemma Start(profile: TradingProfile, tiers: seq<Tier>)
    ensures Reaches(profile, tiers, [], START, NO_ORIGINS, 0)
  {
  }

  lemma Next(profile: TradingProfile, tiers: seq<Tier>, evs: seq<Event>, s: System, o: Origins, ev: Event)
    returns (evs': seq<Event>, s': System, o': Origins)
    requires Reaches(profile, tiers, evs, s, o, 0) && Enabled(s, ev) && ClockAfter(0, ev) == 0
    ensures evs' == evs + [ev] && s' == Step(profile, tiers, s, ev)
    ensures Parallel(s, o) && o' == StepOrigins(profile, tiers, s, o, ev)
    ensures Reaches(profile, tiers, evs', s', o', 0)
  {
    LeadsOn(profile, tiers, START, NO_ORIGINS, 0, evs, s, o, 0, ev);
    evs', s', o' := evs + [ev], Step(profile, tiers, s, ev), StepOrigins(profile, tiers, s, o, ev);
  }

  // ---------- When the trailing stop waits for the first tier ----------

  /** A run that ends with a trailing stop for a mint whose first tier is not marked. */
  ghost predicate TrailsEarly(profile: TradingProfile, tiers: seq<Tier>, clock: Time, evs: seq<Event>, ev: Event,
                              c: Command) {
    && ValidRun(profile, tiers, START, evs) && InOrder(clock, evs) && Enabled(Run(profile, tiers, START, evs), ev)
    && c in Commands(profile, tiers, Run(profile, tiers, START, evs), ev).1
    && c.TrailingStop?
    && 0 !in Marks(Step(profile, tiers, Run(profile, tiers, START, evs), ev).triggered, c.mint)
  }

  ghost predicate TrailingAlwaysWaits(mode: TradingMode, maxHoldOverride: nat) {
    forall clock, evs, ev, c :: !TrailsEarly(FromMode(mode, maxHoldOverride), TiersForMode(mode), clock, evs, ev, c)
  }

  lemma ScalpWaits(maxHoldOverride: nat, triggered: Triggered, p: Position)
    ensures var (t, c) := Evaluate(FromMode(Scalp, maxHoldOverride), TiersForMode(Scalp), triggered, p);
            c.Some? && c.value.TrailingStop? ==> 0 in Marks(t, p.mint)
  {
    var tiers, marks := TiersForMode(Scalp), Marks(triggered, p.mint);
    if p.pnlPct >= tiers[0].triggerPct {
      FirstTierAtZero(tiers, marks, p.pnlPct);
    }
  }

  lemma {:induction false} ScalpAllWait(maxHoldOverride: nat, triggered: Triggered, listed: seq<Position>)
    ensures var (t, cs) := EvaluateAll(FromMode(Scalp, maxHoldOverride), TiersForMode(Scalp), triggered, listed);
            && (forall c | c in cs && c.TrailingStop? :: 0 in Marks(t, c.mint))
            && (forall m | 0 in Marks(triggered, m) :: 0 in Marks(t, m))
    decreases |listed|
  {
    if listed != [] {
      hide Evaluate, FromMode, TiersForMode, Marks;
      var profile, tiers, p := FromMode(Scalp, maxHoldOverride), TiersForMode(Scalp), listed[0];
      var (t, c) := Evaluate(profile, tiers, triggered, p);
      ScalpWaits(maxHoldOverride, triggered, p);
      forall m | 0 in Marks(triggered, m)
        ensures 0 in Marks(t, m)
      {
        EvaluateFrame(profile, tiers, triggered, p, m);
      }
      EvaluateFrame(profile, tiers, triggered, p, p.mint);
      ScalpAllWait(maxHoldOverride, t, listed[1..]);
    }
  }

  lemma ScalpNeverEarly(maxHoldOverride: nat, clock: Time, evs: seq<Event>, ev: Event, c: Command)
    ensures !TrailsEarly(FromMode(Scalp, maxHoldOverride), TiersForMode(Scalp), clock, evs, ev, c)
  {
    hide FromMode, TiersForMode, Evaluate, EvaluateAll, Run, ValidRun, Enabled, Marks;
    var profile, tiers := FromMode(Scalp, maxHoldOverride), TiersForMode(Scalp);
    if TrailsEarly(profile, tiers, clock, evs, ev, c) {
      var s := Run(profile, tiers, START, evs);
      match ev
      case LookAtTicked =>
        var p := s.store.cache[s.looking.value];
        ScalpWaits(maxHoldOverride, s.triggered, p);
        EvaluateFrame(profile, tiers, s.triggered, p, p.mint);
      case CheckAll(listed) => ScalpAllWait(maxHoldOverride, Retained(s.triggered, MintsOf(listed)), listed);
      case _ =>
    }
  }

  /** A price past the trailing gate but below the first tier. */
  function Between(mode: TradingMode): real {
    if mode == Hold then 1.4 else 1.04
  }

  /** A price below the first tier, and one above it, each a trailing distance above 1 and above Between. */
  function Peak(mode: TradingMode, above: bool): real {
    if mode == Hold then if above then 2.1 else 1.45 else if above then 1.08 else 1.04
  }

  function BuyAtOne(walletSolAtOpen: real): Event {
    BuyTokens("id", "mint", 1.0, 1.0, 100.0, walletSolAtOpen, 0)
  }

  function Tick(price: real): Event {
    PriceTick("mint", price, false, 0)
  }

  /** A verified sale of half of 100 tokens. */
  function HalfSold(walletSol: real): Event {
    Attempt(Sent(100, [Some(50), None, None], true, [], None), walletSol)
  }

  function BoughtAtOne(profile: TradingProfile, walletSolAtOpen: real): Position {
    NewPosition(profile, "id", "mint", 1.0, 1.0, 100.0, walletSolAtOpen, 0)
  }

  /** Bought at 1 and up to the peak, which the monitor has seen. */
  lemma Up(profile: TradingProfile, tiers: seq<Tier>, mode: TradingMode, maxHoldOverride: nat, above: bool,
           walletSolAtOpen: real)
    returns (evs: seq<Event>, s: System, o: Origins)
    requires mode != Scalp && profile == FromMode(mode, maxHoldOverride) && tiers == TiersForMode(mode)
    ensures Reaches(profile, tiers, evs, s, o, 0)
    ensures s.executor == Idle && s.looking == None && s.sells == [] && s.suspect == {}
    ensures s.triggered == map["mint" := if above then [0] else []]
    ensures var p := BoughtAtOne(profile, walletSolAtOpen).UpdatePnl(Peak(mode, above), 0);
            s.store.cache == map["mint" := p.(lastPriceAt := Some(0))]
    ensures s.store.rows.Keys == {"id"}
  {
    hide Reaches, StepOrigins;
    Start(profile, tiers);
    evs, s, o := Next(profile, tiers, [], START, NO_ORIGINS, BuyAtOne(walletSolAtOpen));
    evs, s, o := Next(profile, tiers, evs, s, o, Tick(Peak(mode, above)));
    var p := s.store.cache["mint"];
    evs, s, o := Next(profile, tiers, evs, s, o, LookAtTicked);
    FirstLook(profile, tiers, mode, maxHoldOverride, above, p);
  }

  lemma FirstLook(profile: TradingProfile, tiers: seq<Tier>, mode: TradingMode, maxHoldOverride: nat, above: bool,
                  p: Position)
    requires mode != Scalp && profile == FromMode(mode, maxHoldOverride) && tiers == TiersForMode(mode)
    requires p.mint == "mint" && p.status == Open && !p.priceStale && p.ageSecs == 0
    requires p.stopLossPct == profile.stopLossPct
    requires p.pnlPct == (Peak(mode, above) / 1.0 - 1.0) * 100.0
    ensures Evaluate(profile, tiers, map[], p).0 == map["mint" := if above then [0] else []]
  {
    var first := tiers[0].triggerPct;
    assert above <==> p.pnlPct >= first;
    assert forall j | 0 <= j < |tiers| :: tiers[j].triggerPct >= first;
    var none: Triggered, marks: seq<nat> := map[], [];
    assert SafetyNet(profile, p) == None && Marks(none, "mint") == marks;
    if above {
      FirstTierAtZero(tiers, marks, p.pnlPct);
      assert marks + [0] == [0];
    } else {
      assert FirstTier(tiers, marks, p.pnlPct, 0) == |tiers|;
    }
  }

  /** Up below the first tier and back at 1, which the monitor has seen: no tier is taken. */
  lemma UpAndBack(profile: TradingProfile, tiers: seq<Tier>, mode: TradingMode, maxHoldOverride: nat)
    returns (evs: seq<Event>, s: System, o: Origins)
    requires mode != Scalp && profile == FromMode(mode, maxHoldOverride) && tiers == TiersForMode(mode)
    ensures Reaches(profile, tiers, evs, s, o, 0)
    ensures s.executor == Idle && s.looking == None && s.sells == [] && s.triggered == map["mint" := []]
    ensures var p := BoughtAtOne(profile, 1.0).(highestPrice := Peak(mode, false), lastPriceAt := Some(0));
            s.store.cache == map["mint" := p]
  {
    hide Reaches, StepOrigins, Evaluate;
    evs, s, o := Up(profile, tiers, mode, maxHoldOverride, false, 1.0);
    evs, s, o := Next(profile, tiers, evs, s, o, Tick(1.0));
    BackLook(profile, tiers, mode, maxHoldOverride, s.store.cache["mint"]);
    evs, s, o := Next(profile, tiers, evs, s, o, LookAtTicked);
  }

  /** Back at 1 with no tier taken, half is sold and the wallet says otherwise: the PnL is rewritten. */
  lemma RewrittenRun(profile: TradingProfile, tiers: seq<Tier>, mode: TradingMode, maxHoldOverride: nat)
    returns (evs: seq<Event>, s: System, p: Position)
    requires mode != Scalp && profile == FromMode(mode, maxHoldOverride) && tiers == TiersForMode(mode)
    ensures ValidRun(profile, tiers, START, evs) && InOrder(0, evs) && Run(profile, tiers, START, evs) == s
    ensures s.looking == None && s.triggered == map["mint" := []] && s.store.cache == map["mint" := p]
    ensures p == BoughtAtOne(profile, 1.0).(highestPrice := Peak(mode, false), pnlPct := p.pnlPct, pnlSol := p.pnlSol,
                                            lastPriceAt := p.lastPriceAt)
    ensures p.pnlPct == (Between(mode) - 1.0) / 1.0 * 100.0
  {
    hide Reaches, StepOrigins, FromMode, TiersForMode, Evaluate;
    var o: Origins;
    evs, s, o := UpAndBack(profile, tiers, mode, maxHoldOverride);
    evs, s, o := Next(profile, tiers, evs, s, o, ManualSell("mint", 50));
    evs, s, o := Next(profile, tiers, evs, s, o, TakeSell(true));
    assert s.executor == Selling("mint", "id", 50, 0);
    evs, s, o := Next(profile, tiers, evs, s, o, HalfSold(Between(mode)));
    p := s.store.cache["mint"];
    ReachesRun(profile, tiers, evs, s, o);
  }

  lemma ReachesRun(profile: TradingProfile, tiers: seq<Tier>, evs: seq<Event>, s: System, o: Origins)
    requires Reaches(profile, tiers, evs, s, o, 0)
    ensures ValidRun(profile, tiers, START, evs) && InOrder(0, evs) && Run(profile, tiers, START, evs) == s
    ensures RunOrigins(profile, tiers, START, NO_ORIGINS, evs) == o
  {
  }

  lemma BackLook(profile: TradingProfile, tiers: seq<Tier>, mode: TradingMode, maxHoldOverride: nat, p: Position)
    requires mode != Scalp && profile == FromMode(mode, maxHoldOverride) && tiers == TiersForMode(mode)
    requires p.mint == "mint" && p.status == Open && !p.priceStale && p.ageSecs == 0 && p.pnlPct == 0.0
    requires p.stopLossPct == profile.stopLossPct && p.takeProfitPct == profile.takeProfitPct
    ensures Evaluate(profile, tiers, map["mint" := []], p) == (map["mint" := []], None)
  {
    assert SafetyNet(profile, p) == None;
    assert forall j | 0 <= j < |tiers| :: tiers[j].triggerPct > 0.0;
    assert FirstTier(tiers, [], p.pnlPct, 0) == |tiers|;
    var unmarked: Triggered := map["mint" := []];
    assert unmarked["mint" := []] == unmarked;
  }

  /** Past the gate, below the first tier and well off the high: the trailing stop comes, unmarked. */
  lemma EarlyVerdict(profile: TradingProfile, tiers: seq<Tier>, mode: TradingMode, maxHoldOverride: nat,
                     triggered: Triggered, p: Position)
    requires mode != Scalp && profile == FromMode(mode, maxHoldOverride) && tiers == TiersForMode(mode)
    requires p.mint == "mint" && p.status == Open && !p.priceStale && p.ageSecs == 0
    requires p.pnlPct == (Between(mode) - 1.0) * 100.0 && p.stopLossPct == profile.stopLossPct
    requires p.trailingStopPct == Some(profile.trailingStopPct) && Marks(triggered, "mint") == []
    requires || (p.highestPrice == Peak(mode, false) && p.currentPrice == 1.0)
             || (p.highestPrice == Peak(mode, true) && p.currentPrice == Between(mode))
    ensures var (t, c) := Evaluate(profile, tiers, triggered, p);
            Marks(t, "mint") == [] && c == Some(TrailingStop("mint", p.DropFromHigh()))
  {
    assert SafetyNet(profile, p) == None;
    assert forall j | 0 <= j < |tiers| :: tiers[j].triggerPct > p.pnlPct;
    assert FirstTier(tiers, [], p.pnlPct, 0) == |tiers|;
    assert p.ShouldTrailingStop();
  }

  /** Once a partial sale has rewritten the PnL from the wallet, a trailing stop can come although no
      tier was ever reached. */
  lemma RewrittenPnlTrailsEarly(mode: TradingMode, maxHoldOverride: nat)
    returns (evs: seq<Event>, ev: Event, c: Command)
    requires mode != Scalp
    ensures TrailsEarly(FromMode(mode, maxHoldOverride), TiersForMode(mode), 0, evs, ev, c)
  {
    hide Step;
    var profile, tiers := FromMode(mode, maxHoldOverride), TiersForMode(mode);
    var s, p;
    evs, s, p := RewrittenRun(profile, tiers, mode, maxHoldOverride);
    ev := CheckAll([p]);
    assert ListsOpen(s.store.cache, [p]) by {
      assert IsOpen(s.store.cache, "mint");
    }
    c := CheckOne(profile, tiers, mode, maxHoldOverride, s, p);
  }

  lemma CheckOne(profile: TradingProfile, tiers: seq<Tier>, mode: TradingMode, maxHoldOverride: nat, s: System,
                 p: Position)
    returns (c: Command)
    requires mode != Scalp && profile == FromMode(mode, maxHoldOverride) && tiers == TiersForMode(mode)
    requires Enabled(s, CheckAll([p])) && s.triggered == map["mint" := []]
    requires p == BoughtAtOne(profile, 1.0).(highestPrice := Peak(mode, false), pnlPct := p.pnlPct, pnlSol := p.pnlSol,
                                             lastPriceAt := p.lastPriceAt)
    requires p.pnlPct == (Between(mode) - 1.0) * 100.0
    ensures c in Commands(profile, tiers, s, CheckAll([p])).1 && c.TrailingStop? && c.mint == "mint"
    ensures Marks(Step(profile, tiers, s, CheckAll([p])).triggered, "mint") == []
  {
    hide Evaluate;
    var one := [p];
    assert one[0] == p && one[1..] == [] && MintsOf(one) == {"mint"};
    assert Retained(s.triggered, {"mint"}) == s.triggered;
    EarlyVerdict(profile, tiers, mode, maxHoldOverride, s.triggered, p);
    c := TrailingStop("mint", p.DropFromHigh());
    var t := Evaluate(profile, tiers, s.triggered, p).0;
    assert EvaluateAll(profile, tiers, t, one[1..]) == (t, []);
    assert EvaluateAll(profile, tiers, s.triggered, one) == (t, [c] + []);
  }

  /** The trailing stop waits for the first tier on every run from the start, whatever records it
      comes from, exactly in scalp mode. */
  lemma TrailingAlwaysWaitsIff(mode: TradingMode, maxHoldOverride: nat)
    ensures TrailingAlwaysWaits(mode, maxHoldOverride) <==> mode == Scalp
  {
    hide TrailsEarly, FromMode, TiersForMode;
    if mode == Scalp {
      forall clock, evs, ev, c
        ensures !TrailsEarly(FromMode(mode, maxHoldOverride), TiersForMode(mode), clock, evs, ev, c)
      {
        ScalpNeverEarly(maxHoldOverride, clock, evs, ev, c);
      }
    } else {
      var evs, ev, c := RewrittenPnlTrailsEarly(mode, maxHoldOverride);
    }
  }

  // ---------- A restart forgets the tiers ----------

  /** The first tier is taken and half is sold and booked, with no wallet balance to rewrite the PnL. */
  lemma SoldPastFirstTier(profile: TradingProfile, tiers: seq<Tier>, mode: TradingMode, maxHoldOverride: nat)
    returns (evs: seq<Event>, s: System, o: Origins)
    requires mode != Scalp && profile == FromMode(mode, maxHoldOverride) && tiers == TiersForMode(mode)
    ensures Reaches(profile, tiers, evs, s, o, 0)
    ensures s.suspect == {} && s.triggered == map["mint" := [0]]
    ensures s.store.cache.Keys == {"mint"} && s.store.rows.Keys == {"id"}
    ensures s.store.rows["id"] == BoughtAtOne(profile, 0.0).UpdatePnl(Peak(mode, true), 0).(
              lastPriceAt := Some(0), tokenAmount := s.store.rows["id"].tokenAmount)
    ensures s.store.cache["mint"].id == "id"
  {
    hide Reaches, StepOrigins;
    evs, s, o := Up(profile, tiers, mode, maxHoldOverride, true, 0.0);
    var p := s.store.cache["mint"];
    evs, s, o := Next(profile, tiers, evs, s, o, ManualSell("mint", 50));
    evs, s, o := Next(profile, tiers, evs, s, o, TakeSell(true));
    assert s.executor == Selling("mint", "id", 50, 0);
    evs, s, o := Next(profile, tiers, evs, s, o, HalfSold(0.0));
    HalfSettles(0.0);
    assert s.executor.Settling? && s.store.cache == map["mint" := p];
    HalfBooked(s.store, "mint", s.executor.settlement);
    evs, s, o := Next(profile, tiers, evs, s, o, Settle("sig", 0));
  }

  /** Half of 100 tokens is 50 percent. */
  lemma HalfSettles(walletSol: real)
    ensures SettlementOf(OutcomeOf(HalfSold(walletSol).submission)) == Some(Settlement(50, 50))
  {
    SoldPctIsShare(100, 50);
  }

  lemma HalfBooked(s: Store, mint: Mint, settlement: Settlement)
    requires IsOpen(s.cache, mint) && s.cache[mint].tokenAmount > 0.0 && settlement == Settlement(50, 50)
    ensures var p := s.cache[mint].(tokenAmount := AmountAfter(s.cache[mint].tokenAmount, 50));
            && Settled(s, mint, settlement, "sig", 0) == Written(s, mint, p)
            && p.tokenAmount == s.cache[mint].tokenAmount / 2.0
  {
  }

  /** A restored record can trail before its first tier too, with no PnL ever rewritten: the high
      survives the restart, the memory of the tiers does not. */
  lemma RestoredTrailsEarly(mode: TradingMode, maxHoldOverride: nat)
    returns (before: seq<Event>, after: seq<Event>, c: Command)
    requires mode != Scalp
    ensures after == [Reboot(["id"]), Tick(Between(mode))]
    ensures var profile, tiers := FromMode(mode, maxHoldOverride), TiersForMode(mode);
            && ValidRun(profile, tiers, START, before) && Run(profile, tiers, START, before).suspect == {}
            && TrailsEarly(profile, tiers, 0, before + after, LookAtTicked, c)
  {
    var profile, tiers := FromMode(mode, maxHoldOverride), TiersForMode(mode);
    var s, o;
    before, s, o := SoldPastFirstTier(profile, tiers, mode, maxHoldOverride);
    ReachesRun(profile, tiers, before, s, o);
    after, c := RestoredLook(profile, tiers, mode, maxHoldOverride, before, s, o);
  }

  lemma Restored(profile: TradingProfile, tiers: seq<Tier>, before: seq<Event>, s: System, o: Origins)
    returns (evs: seq<Event>, s1: System, o1: Origins)
    requires Reaches(profile, tiers, before, s, o, 0) && s.store.rows.Keys == {"id"}
    requires s.store.rows["id"].status == Open && s.store.rows["id"].mint == "mint"
    ensures evs == before + [Reboot(["id"])] && Reaches(profile, tiers, evs, s1, o1, 0)
    ensures s1.store.cache == map["mint" := AsRow(s.store.rows["id"])] && s1.looking == None && s1.triggered == map[]
  {
    hide Reaches, StepOrigins;
    var order := ["id"];
    assert ListsOpenRows(s.store.rows, order);
    assert order[0] == "id" && order[1..] == [];
    evs, s1, o1 := Next(profile, tiers, before, s, o, Reboot(order));
  }

  lemma RestoredLook(profile: TradingProfile, tiers: seq<Tier>, mode: TradingMode, maxHoldOverride: nat,
                     before: seq<Event>, s: System, o: Origins)
    returns (after: seq<Event>, c: Command)
    requires mode != Scalp && profile == FromMode(mode, maxHoldOverride) && tiers == TiersForMode(mode)
    requires Reaches(profile, tiers, before, s, o, 0)
    requires s.store.rows.Keys == {"id"}
    requires s.store.rows["id"] == BoughtAtOne(profile, 0.0).UpdatePnl(Peak(mode, true), 0).(
              lastPriceAt := Some(0), tokenAmount := s.store.rows["id"].tokenAmount)
    ensures after == [Reboot(["id"]), Tick(Between(mode))]
    ensures TrailsEarly(profile, tiers, 0, before + after, LookAtTicked, c)
  {
    hide Reaches, StepOrigins, FromMode, TiersForMode, Evaluate;
    var order := ["id"];
    var evs, s1, o1 := Restored(profile, tiers, before, s, o);
    var s2, o2;
    evs, s2, o2 := Next(profile, tiers, evs, s1, o1, Tick(Between(mode)));
    var p := s2.store.cache["mint"];
    EarlyVerdict(profile, tiers, mode, maxHoldOverride, map[], p);
    after, c := [Reboot(order), Tick(Between(mode))], TrailingStop("mint", p.DropFromHigh());
    assert before + after == before + [Reboot(order)] + [Tick(Between(mode))];
    ReachesRun(profile, tiers, evs, s2, o2);
  }

  // ---------- A lagging balance loses coverage ----------

  /** 100 tokens bought; a half-sale is booked, then another from the balance as it was before it. */
  lemma StaleBalanceLosesCoverage(mode: TradingMode, maxHoldOverride: nat) returns (evs: seq<Event>, chains: seq<nat>)
    ensures var profile, tiers := FromMode(mode, maxHoldOverride), TiersForMode(mode);
            && ValidRun(profile, tiers, START, evs) && |chains| == |evs|
            && PossibleChain(profile, tiers, START, "mint", 0, evs, chains)
            && var s := Run(profile, tiers, START, evs);
            && IsOpen(s.store.cache, "mint") && s.store.cache["mint"].tokenAmount == 25.0 && LastOr(chains, 0) == 50
  {
    var profile, tiers := FromMode(mode, maxHoldOverride), TiersForMode(mode);
    var s, o;
    Start(profile, tiers);
    evs, s, o := Next(profile, tiers, [], START, NO_ORIGINS, BuyAtOne(0.0));
    chains := [100];
    ChainNext(profile, tiers, [], [], START, BuyAtOne(0.0), 100);
    evs, s, chains, o := HalfSaleRun(profile, tiers, evs, s, chains, o, 100);
    evs, s, chains, o := HalfSaleRun(profile, tiers, evs, s, chains, o, 50);
    ReachesRun(profile, tiers, evs, s, o);
  }

  lemma {:induction false} ChainSnoc(profile: TradingProfile, tiers: seq<Tier>, from: System, chain: nat,
                                     evs: seq<Event>,
                                     chains: seq<nat>, s: System, ev: Event, chain': nat)
    requires ValidRun(profile, tiers, from, evs) && Run(profile, tiers, from, evs) == s && |chains| == |evs|
    requires PossibleChain(profile, tiers, from, "mint", chain, evs, chains)
    requires Enabled(s, ev) && PossibleChange(s, "mint", LastOr(chains, chain), ev, chain')
    ensures ValidRun(profile, tiers, from, evs + [ev])
    ensures PossibleChain(profile, tiers, from, "mint", chain, evs + [ev], chains + [chain'])
    decreases |evs|
  {
    hide Step, Enabled, PossibleChange;
    if evs == [] {
      var one, oneChain := [ev], [chain'];
      assert evs + [ev] == one && one[0] == ev && one[1..] == [];
      assert chains + [chain'] == oneChain && oneChain[0] == chain' && oneChain[1..] == [];
      RunOne(profile, tiers, s, ev);
      assert PossibleChain(profile, tiers, Step(profile, tiers, s, ev), "mint", chain', one[1..], oneChain[1..]);
    } else {
      assert (evs + [ev])[0] == evs[0] && (evs + [ev])[1..] == evs[1..] + [ev];
      assert (chains + [chain'])[0] == chains[0] && (chains + [chain'])[1..] == chains[1..] + [chain'];
      ChainSnoc(profile, tiers, Step(profile, tiers, from, evs[0]), chains[0], evs[1..], chains[1..], s, ev, chain');
    }
  }

  lemma ChainNext(profile: TradingProfile, tiers: seq<Tier>, evs: seq<Event>, chains: seq<nat>, s: System, ev: Event,
                  chain': nat)
    requires ValidRun(profile, tiers, START, evs) && Run(profile, tiers, START, evs) == s && |chains| == |evs|
    requires PossibleChain(profile, tiers, START, "mint", 0, evs, chains)
    requires Enabled(s, ev) && PossibleChange(s, "mint", LastOr(chains, 0), ev, chain')
    ensures ValidRun(profile, tiers, START, evs + [ev])
    ensures PossibleChain(profile, tiers, START, "mint", 0, evs + [ev], chains + [chain'])
  {
    ChainSnoc(profile, tiers, START, 0, evs, chains, s, ev, chain');
  }

  /** One more event, with the chain at 50 or 100 after it. */
  lemma Advance(profile: TradingProfile, tiers: seq<Tier>, evs: seq<Event>, s: System, chains: seq<nat>, o: Origins,
                ev: Event, chain': nat)
    returns (evs': seq<Event>, s': System, chains': seq<nat>, o': Origins)
    requires Reaches(profile, tiers, evs, s, o, 0) && Enabled(s, ev) && ClockAfter(0, ev) == 0
    requires |chains| == |evs| && ValidRun(profile, tiers, START, evs)
    requires PossibleChain(profile, tiers, START, "mint", 0, evs, chains)
    requires PossibleChange(s, "mint", LastOr(chains, 0), ev, chain')
    ensures evs' == evs + [ev] && s' == Step(profile, tiers, s, ev) && Reaches(profile, tiers, evs', s', o', 0)
    ensures |chains'| == |evs'| && ValidRun(profile, tiers, START, evs') && LastOr(chains', 0) == chain'
    ensures PossibleChain(profile, tiers, START, "mint", 0, evs', chains')
  {
    hide Step, Enabled, PossibleChange;
    ReachesRun(profile, tiers, evs, s, o);
    evs', s', o' := Next(profile, tiers, evs, s, o, ev);
    ChainNext(profile, tiers, evs, chains, s, ev, chain');
    chains' := chains + [chain'];
  }

  /** A manual sell of half is requested and taken. */
  lemma HalfSaleTaken(profile: TradingProfile, tiers: seq<Tier>, evs: seq<Event>, s: System, chains: seq<nat>,
                      o: Origins)
    returns (evs': seq<Event>, s': System, chains': seq<nat>, o': Origins)
    requires Reaches(profile, tiers, evs, s, o, 0)
    requires |chains| == |evs| && ValidRun(profile, tiers, START, evs)
    requires PossibleChain(profile, tiers, START, "mint", 0, evs, chains)
    requires s.executor == Idle && s.sells == [] && IsOpen(s.store.cache, "mint")
    ensures evs' == evs + [ManualSell("mint", 50), TakeSell(true)] && Reaches(profile, tiers, evs', s', o', 0)
    ensures |chains'| == |evs'| && ValidRun(profile, tiers, START, evs') && LastOr(chains', 0) == LastOr(chains, 0)
    ensures PossibleChain(profile, tiers, START, "mint", 0, evs', chains')
    ensures s'.executor == Selling("mint", s.store.cache["mint"].id, 50, 0) && s'.sells == [] && s'.store == s.store
  {
    hide Reaches, ValidRun, PossibleChain, LastOr;
    var chain := LastOr(chains, 0);
    evs', s', chains', o' := Advance(profile, tiers, evs, s, chains, o, ManualSell("mint", 50), chain);
    evs', s', chains', o' := Advance(profile, tiers, evs', s', chains', o', TakeSell(true), chain);
  }

  /** A manual half-sale, read as going from 100 to 50, with 50 on the chain afterwards. */
  lemma HalfSaleRun(profile: TradingProfile, tiers: seq<Tier>, evs: seq<Event>, s: System, chains: seq<nat>,
                    o: Origins, chain: nat)
    returns (evs': seq<Event>, s': System, chains': seq<nat>, o': Origins)
    requires Reaches(profile, tiers, evs, s, o, 0) && 50 <= chain <= 100
    requires |chains| == |evs| && ValidRun(profile, tiers, START, evs) && LastOr(chains, 0) == chain
    requires PossibleChain(profile, tiers, START, "mint", 0, evs, chains)
    requires s.executor == Idle && s.sells == [] && s.store.cache.Keys == {"mint"} && IsOpen(s.store.cache, "mint")
    requires s.store.cache["mint"].tokenAmount > 0.0
    ensures Reaches(profile, tiers, evs', s', o', 0)
    ensures |chains'| == |evs'| && ValidRun(profile, tiers, START, evs') && LastOr(chains', 0) == 50
    ensures PossibleChain(profile, tiers, START, "mint", 0, evs', chains')
    ensures s'.executor == Idle && s'.sells == [] && s'.store.cache.Keys == {"mint"} && IsOpen(s'.store.cache, "mint")
    ensures s'.store.cache["mint"].tokenAmount == s.store.cache["mint"].tokenAmount / 2.0
  {
    hide Reaches, ValidRun, PossibleChain, AmountAfter, OutcomeOf, LastOr, Evaluate, EvaluateAll;
    evs', s', chains', o' := HalfSaleTaken(profile, tiers, evs, s, chains, o);
    HalfSettles(0.0);
    evs', s', chains', o' := Advance(profile, tiers, evs', s', chains', o', HalfSold(0.0), 50);
    HalfBooked(s'.store, "mint", s'.executor.settlement);
    evs', s', chains', o' := Advance(profile, tiers, evs', s', chains', o', Settle("sig", 0), 50);
  }

  // ---------- A request outlives its record ----------

  function BuySecond(): Event {
    BuyTokens("second", "mint", 1.0, 1.0, 100.0, 0.0, 0)
  }

  /** Everything sold: no balance is left. */
  function AllSold(walletSol: real): Event {
    Attempt(Sent(100, [Some(0), None, None], true, [], None), walletSol)
  }

  /** Two sells are requested for a record, and the first one has been taken. */
  lemma TwoRequests(profile: TradingProfile, tiers: seq<Tier>, walletSolAtOpen: real)
    returns (evs: seq<Event>, s: System, o: Origins)
    ensures Reaches(profile, tiers, evs, s, o, 0)
    ensures s.executor == Selling("mint", "id", 100, 0) && s.sells == [("mint", 100)] && o.sells == [Some("id")]
    ensures s.store.cache == map["mint" := BoughtAtOne(profile, walletSolAtOpen)] && s.store.rows.Keys == {"id"}
    ensures s.looking == None && s.triggered == map[] && s.suspect == {}
  {
    hide Reaches;
    Start(profile, tiers);
    evs, s, o := Next(profile, tiers, [], START, NO_ORIGINS, BuyAtOne(walletSolAtOpen));
    evs, s, o := Next(profile, tiers, evs, s, o, ManualSell("mint", 100));
    evs, s, o := Next(profile, tiers, evs, s, o, ManualSell("mint", 100));
    assert o.sells == [Some("id"), Some("id")];
    evs, s, o := Next(profile, tiers, evs, s, o, TakeSell(true));
  }

  /** The first sell closes the record; the second request stays queued. */
  lemma FirstCloses(profile: TradingProfile, tiers: seq<Tier>) returns (evs: seq<Event>, s: System, o: Origins)
    ensures Reaches(profile, tiers, evs, s, o, 0)
    ensures s.executor == Idle && s.sells == [("mint", 100)] && o.sells == [Some("id")]
    ensures !IsOpen(s.store.cache, "mint") && s.store.rows.Keys == {"id"}
  {
    hide Reaches, Evaluate, EvaluateAll;
    evs, s, o := TwoRequests(profile, tiers, 0.0);
    AllSettles(0.0);
    evs, s, o := Next(profile, tiers, evs, s, o, AllSold(0.0));
    evs, s, o := Next(profile, tiers, evs, s, o, Settle("sig", 0));
  }

  lemma AllSettles(walletSol: real)
    ensures var settlement := SettlementOf(OutcomeOf(AllSold(walletSol).submission));
            settlement.Some? && settlement.value.left == 0
  {
  }

  /** Two sells are requested for a record; the first closes it, the mint is bought again, and the
      second request starts a sell of the new record. */
  lemma RequestOutlivesRecord(mode: TradingMode, maxHoldOverride: nat) returns (evs: seq<Event>)
    ensures var profile, tiers := FromMode(mode, maxHoldOverride), TiersForMode(mode);
            && ValidRun(profile, tiers, START, evs)
            && var s := Run(profile, tiers, START, evs);
            && Enabled(s, TakeSell(true))
            && Step(profile, tiers, s, TakeSell(true)).executor == Selling("mint", "second", 100, 0)
            && RunOrigins(profile, tiers, START, NO_ORIGINS, evs).sells[0] == Some("id")
  {
    hide Reaches, FromMode, TiersForMode, Evaluate, EvaluateAll;
    var profile, tiers := FromMode(mode, maxHoldOverride), TiersForMode(mode);
    var s, o;
    evs, s, o := FirstCloses(profile, tiers);
    evs, s, o := Next(profile, tiers, evs, s, o, BuySecond());
    ReachesRun(profile, tiers, evs, s, o);
  }

  // ---------- A fresh price hides the realized PnL ----------

  /** Bought with 1 SOL in the wallet and sold in full with 1.5 in it; a price comes in before the
      close, and the closed row shows a gain of 20 instead of 0.5. */
  lemma ClosedRowShowsPaperGain(mode: TradingMode, maxHoldOverride: nat) returns (evs: seq<Event>)
    ensures var profile, tiers := FromMode(mode, maxHoldOverride), TiersForMode(mode);
            && ValidRun(profile, tiers, START, evs)
            && var rows := Run(profile, tiers, START, evs).store.rows;
            && "id" in rows && rows["id"].status == ClosedManual && rows["id"].walletSolAtOpen == 1.0
            && AllSold(1.5) in evs && rows["id"].pnlSol == 20.0
  {
    hide Reaches, StepOrigins, FromMode, TiersForMode, Evaluate, EvaluateAll;
    var profile, tiers := FromMode(mode, maxHoldOverride), TiersForMode(mode);
    var s, o;
    evs, s, o := TwoRequests(profile, tiers, 1.0);
    AllSettles(1.5);
    evs, s, o := Next(profile, tiers, evs, s, o, AllSold(1.5));
    evs, s, o := Next(profile, tiers, evs, s, o, Tick(1.2));
    assert s.store.cache["mint"].pnlSol == 20.0;
    evs, s, o := Next(profile, tiers, evs, s, o, Settle("sig", 0));
    ReachesRun(profile, tiers, evs, s, o);
  }

  function NothingSent(): Event {
    Attempt(NotSent, 0.0)
  }

  /** Bought at 1; three sells fail before anything is sent. */
  lemma ThreeFailures(profile: TradingProfile, tiers: seq<Tier>) returns (evs: seq<Event>, s: System, o: Origins)
    ensures Reaches(profile, tiers, evs, s, o, 0)
    ensures s.executor == Selling("mint", "id", 100, 3) && s.looking == None && s.triggered == map[] && s.suspect == {}
    ensures s.store.cache == map["mint" := BoughtAtOne(profile, 0.0)] && s.store.rows.Keys == {"id"}
  {
    hide Reaches, StepOrigins, Evaluate, EvaluateAll;
    evs, s, o := TwoRequests(profile, tiers, 0.0);
    evs, s, o := Next(profile, tiers, evs, s, o, NothingSent());
    evs, s, o := Next(profile, tiers, evs, s, o, NothingSent());
    evs, s, o := Next(profile, tiers, evs, s, o, NothingSent());
  }

  /** The PnL of a record whose sell failed is cleared; a price comes in before its close, and its row
      shows a gain of 20. */
  lemma ErrorRowShowsPaperGain(mode: TradingMode, maxHoldOverride: nat) returns (evs: seq<Event>)
    ensures var profile, tiers := FromMode(mode, maxHoldOverride), TiersForMode(mode);
            && ValidRun(profile, tiers, START, evs + [GiveUp, Tick(1.2), CloseFailed(0)])
            && InOrder(0, evs + [GiveUp, Tick(1.2), CloseFailed(0)])
            && var rows := Run(profile, tiers, START, evs + [GiveUp, Tick(1.2), CloseFailed(0)]).store.rows;
            && "id" in rows && rows["id"].status == ClosedError && rows["id"].pnlSol == 20.0
  {
    hide Reaches, StepOrigins, FromMode, TiersForMode, Evaluate, EvaluateAll;
    var profile, tiers := FromMode(mode, maxHoldOverride), TiersForMode(mode);
    var all, s, o;
    evs, s, o := ThreeFailures(profile, tiers);
    all, s, o := Next(profile, tiers, evs, s, o, GiveUp);
    all, s, o := Next(profile, tiers, all, s, o, Tick(1.2));
    assert s.store.cache["mint"].pnlSol == 20.0;
    all, s, o := Next(profile, tiers, all, s, o, CloseFailed(0));
    assert all == evs + [GiveUp, Tick(1.2), CloseFailed(0)];
    ReachesRun(profile, tiers, all, s, o);
  }

  /** A record whose sell failed can trail before its first tier too, in the moment before it is closed:
      its PnL is cleared just before the monitor looks at the price that reached the tier. */
  lemma ClearedPnlTrailsEarly(mode: TradingMode, maxHoldOverride: nat)
    returns (before: seq<Event>, after: seq<Event>, c: Command)
    requires mode != Scalp
    ensures after == [Tick(Peak(mode, true)), GiveUp, LookAtTicked, Tick(Between(mode))]
    ensures var profile, tiers := FromMode(mode, maxHoldOverride), TiersForMode(mode);
            && ValidRun(profile, tiers, START, before) && Run(profile, tiers, START, before).suspect == {}
            && TrailsEarly(profile, tiers, 0, before + after, LookAtTicked, c)
  {
    hide Reaches, StepOrigins, FromMode, TiersForMode, Evaluate, EvaluateAll;
    var profile, tiers := FromMode(mode, maxHoldOverride), TiersForMode(mode);
    var all, s, o;
    before, s, o := ThreeFailures(profile, tiers);
    ReachesRun(profile, tiers, before, s, o);
    all, s, o := ClearedAtPeak(profile, tiers, mode, maxHoldOverride, before, s, o);
    all, s, o := Next(profile, tiers, all, s, o, Tick(Between(mode)));
    var p := s.store.cache["mint"];
    EarlyVerdict(profile, tiers, mode, maxHoldOverride, s.triggered, p);
    after := [Tick(Peak(mode, true)), GiveUp, LookAtTicked, Tick(Between(mode))];
    c := TrailingStop("mint", p.DropFromHigh());
    assert all == before + after;
    ReachesRun(profile, tiers, all, s, o);
  }

  lemma ClearedAtPeak(profile: TradingProfile, tiers: seq<Tier>, mode: TradingMode, maxHoldOverride: nat,
                      before: seq<Event>, s: System, o: Origins)
    returns (evs: seq<Event>, s': System, o': Origins)
    requires mode != Scalp && profile == FromMode(mode, maxHoldOverride) && tiers == TiersForMode(mode)
    requires Reaches(profile, tiers, before, s, o, 0)
    requires s.executor == Selling("mint", "id", 100, 3) && s.looking == None && s.triggered == map[]
    requires s.store.cache == map["mint" := BoughtAtOne(profile, 0.0)]
    ensures evs == before + [Tick(Peak(mode, true)), GiveUp, LookAtTicked] && Reaches(profile, tiers, evs, s', o', 0)
    ensures s'.looking == None && s'.triggered == map["mint" := []]
    ensures var p := BoughtAtOne(profile, 0.0).(highestPrice := Peak(mode, true), currentPrice := Peak(mode, true));
            s'.store.cache == map["mint" := p.(lastPriceAt := Some(0))]
  {
    hide Reaches, StepOrigins, Evaluate, EvaluateAll;
    evs, s', o' := Next(profile, tiers, before, s, o, Tick(Peak(mode, true)));
    evs, s', o' := Next(profile, tiers, evs, s', o', GiveUp);
    ClearedLook(profile, tiers, mode, maxHoldOverride, s'.store.cache["mint"]);
    evs, s', o' := Next(profile, tiers, evs, s', o', LookAtTicked);
  }

  lemma ClearedLook(profile: TradingProfile, tiers: seq<Tier>, mode: TradingMode, maxHoldOverride: nat, p: Position)
    requires mode != Scalp && profile == FromMode(mode, maxHoldOverride) && tiers == TiersForMode(mode)
    requires p.mint == "mint" && p.status == Open && !p.priceStale && p.ageSecs == 0 && p.pnlPct == 0.0
    requires p.stopLossPct == profile.stopLossPct && p.takeProfitPct == profile.takeProfitPct
    ensures Evaluate(profile, tiers, map[], p) == (map["mint" := []], None)
  {
    assert SafetyNet(profile, p) == None;
    assert forall j | 0 <= j < |tiers| :: tiers[j].triggerPct > 0.0;
    assert FirstTier(tiers, [], p.pnlPct, 0) == |tiers|;
  }

  // ---------- A record finds the marks of the one before it ----------

  /** The first record took its first tier and was sold; the second one is bought before the monitor's
      next pass, and finds that tier marked. */
  lemma SecondFindsMarks(profile: TradingProfile, tiers: seq<Tier>, mode: TradingMode, maxHoldOverride: nat)
    returns (before: seq<Event>, s: System, o: Origins)
    requires mode != Scalp && profile == FromMode(mode, maxHoldOverride) && tiers == TiersForMode(mode)
    ensures Reaches(profile, tiers, before + [BuySecond()], s, o, 0)
    ensures s.suspect == {} && s.triggered == map["mint" := [0]] && s.looking == None
    ensures s.store.cache
         == map["mint" := NewPosition(profile, "second", "mint", 1.0, 1.0, 100.0, 0.0, 0)]
  {
    hide Reaches, StepOrigins, Evaluate, EvaluateAll;
    var evs;
    evs, s, o := Up(profile, tiers, mode, maxHoldOverride, true, 0.0);
    evs, s, o := Next(profile, tiers, evs, s, o, ManualSell("mint", 100));
    evs, s, o := Next(profile, tiers, evs, s, o, TakeSell(true));
    assert s.executor == Selling("mint", "id", 100, 0);
    AllSettles(0.0);
    evs, s, o := Next(profile, tiers, evs, s, o, AllSold(0.0));
    evs, s, o := Next(profile, tiers, evs, s, o, Settle("sig", 0));
    assert !IsOpen(s.store.cache, "mint") && s.store.rows.Keys == {"id"};
    before := evs;
    evs, s, o := Next(profile, tiers, evs, s, o, BuySecond());
  }

  /** Prices short of the second tier: one past the first tier, and one a trailing distance below it. */
  function High(mode: TradingMode): real {
    if mode == Hold then 1.9 else 1.08
  }

  function Low(mode: TradingMode): real {
    if mode == Hold then 1.32 else 1.04
  }

  /** With the first tier marked, the high sends no tier and the low sends the trailing stop. */
  lemma MarkedVerdicts(profile: TradingProfile, tiers: seq<Tier>, mode: TradingMode, maxHoldOverride: nat, p: Position)
    requires mode != Scalp && profile == FromMode(mode, maxHoldOverride) && tiers == TiersForMode(mode)
    requires p.mint == "mint" && p.status == Open && !p.priceStale && p.ageSecs == 0
    requires p.highestPrice == High(mode) && p.pnlPct == (p.currentPrice / 1.0 - 1.0) * 100.0
    requires p.stopLossPct == profile.stopLossPct && p.trailingStopPct == Some(profile.trailingStopPct)
    requires p.currentPrice == High(mode) || p.currentPrice == Low(mode)
    ensures var (t, c) := Evaluate(profile, tiers, map["mint" := [0]], p);
            && t == map["mint" := [0]]
            && (p.currentPrice == Low(mode) ==> c == Some(TrailingStop("mint", p.DropFromHigh())))
  {
    var marked: Triggered := map["mint" := [0]];
    assert SafetyNet(profile, p) == None;
    assert forall j | 1 <= j < |tiers| :: tiers[j].triggerPct > p.pnlPct;
    assert FirstTier(tiers, [0], p.pnlPct, 0) == |tiers|;
    assert marked["mint" := [0]] == marked;
  }

  lemma StepOn(profile: TradingProfile, tiers: seq<Tier>, from: System, origins: Origins, evs: seq<Event>, s: System,
               o: Origins, ev: Event)
    returns (evs': seq<Event>, s': System, o': Origins)
    requires Leads(profile, tiers, from, origins, 0, evs, s, o, 0) && Enabled(s, ev) && ClockAfter(0, ev) == 0
    ensures evs' == evs + [ev] && s' == Step(profile, tiers, s, ev)
    ensures Leads(profile, tiers, from, origins, 0, evs', s', o', 0)
  {
    LeadsOn(profile, tiers, from, origins, 0, evs, s, o, 0, ev);
    evs', s', o' := evs + [ev], Step(profile, tiers, s, ev), StepOrigins(profile, tiers, s, o, ev);
  }

  /** From the second record on: up to the high, which is looked at, and down to the low. */
  lemma UpAndDown(profile: TradingProfile, tiers: seq<Tier>, mode: TradingMode, maxHoldOverride: nat, s: System,
                  o: Origins)
    returns (evs: seq<Event>, s': System)
    requires mode != Scalp && profile == FromMode(mode, maxHoldOverride) && tiers == TiersForMode(mode)
    requires Parallel(s, o) && s.suspect == {} && s.triggered == map["mint" := [0]] && s.looking == None
    requires s.store.cache == map["mint" := NewPosition(profile, "second", "mint", 1.0, 1.0, 100.0, 0.0, 0)]
    ensures evs == [Tick(High(mode)), LookAtTicked, Tick(Low(mode))]
    ensures ValidRun(profile, tiers, s, evs) && Run(profile, tiers, s, evs) == s'
    ensures s'.suspect == {} && s'.triggered == s.triggered && s'.looking == Some("mint")
    ensures IsOpen(s'.store.cache, "mint") && s'.store.cache["mint"].id == "second"
    ensures Commands(profile, tiers, s', LookAtTicked).1
         == [TrailingStop("mint", s'.store.cache["mint"].DropFromHigh())]
  {
    hide Evaluate, EvaluateAll, StepOrigins, Leads;
    assert Leads(profile, tiers, s, o, 0, [], s, o, 0) by {
      LeadsNowhere(profile, tiers, s, o);
    }
    var o';
    evs, s', o' := StepOn(profile, tiers, s, o, [], s, o, Tick(High(mode)));
    MarkedVerdicts(profile, tiers, mode, maxHoldOverride, s'.store.cache["mint"]);
    evs, s', o' := StepOn(profile, tiers, s, o, evs, s', o', LookAtTicked);
    evs, s', o' := StepOn(profile, tiers, s, o, evs, s', o', Tick(Low(mode)));
    MarkedVerdicts(profile, tiers, mode, maxHoldOverride, s'.store.cache["mint"]);
    LeadsRun(profile, tiers, s, o, evs, s', o');
  }

  lemma LeadsNowhere(profile: TradingProfile, tiers: seq<Tier>, s: System, o: Origins)
    requires Parallel(s, o)
    ensures Leads(profile, tiers, s, o, 0, [], s, o, 0)
  {
  }

  lemma LeadsRun(profile: TradingProfile, tiers: seq<Tier>, from: System, origins: Origins, evs: seq<Event>, s: System,
                 o: Origins)
    requires Leads(profile, tiers, from, origins, 0, evs, s, o, 0)
    ensures ValidRun(profile, tiers, from, evs) && Run(profile, tiers, from, evs) == s
  {
  }

  /** The second record gets its trailing stop although no tier was ever sent for it. */
  lemma InheritedMarksTrail(mode: TradingMode, maxHoldOverride: nat)
    returns (before: seq<Event>, evs: seq<Event>, c: Command)
    requires mode != Scalp
    ensures var profile, tiers := FromMode(mode, maxHoldOverride), TiersForMode(mode);
            && ValidRun(profile, tiers, START, before + [BuySecond()])
            && var s := Run(profile, tiers, START, before + [BuySecond()]);
            && ValidRun(profile, tiers, s, evs) && SameLife(profile, tiers, s, evs, "mint")
            && TiersSent(profile, tiers, s, evs, "mint") == []
            && var s' := Run(profile, tiers, s, evs);
            && Enabled(s', LookAtTicked) && Commands(profile, tiers, s', LookAtTicked).1 == [c]
            && c.TrailingStop? && c.mint == "mint"
            && IsOpen(s'.store.cache, "mint") && s'.store.cache["mint"].id == "second" && s'.suspect == {}
  {
    var profile, tiers := FromMode(mode, maxHoldOverride), TiersForMode(mode);
    var s, o, s';
    before, s, o := SecondFindsMarks(profile, tiers, mode, maxHoldOverride);
    ReachesRun(profile, tiers, before + [BuySecond()], s, o);
    evs, s' := UpAndDown(profile, tiers, mode, maxHoldOverride, s, o);
    c := TrailingStop("mint", s'.store.cache["mint"].DropFromHigh());
    StartKeepsStore();
    RunKeepsStore(profile, tiers, START, before + [BuySecond()]);
    ModeTiersAscend(mode);
    NoRebuysOf(profile, tiers, s, evs);
    OneMarkKept(tiers, s);
    LifeTakes(profile, tiers, s, evs, "mint");
    hide FromMode, TiersForMode, Reaches, Step, Run, ValidRun, TiersSent, Commands;
  }

  lemma OneMarkKept(tiers: seq<Tier>, s: System)
    requires |tiers| > 0 && s.triggered == map["mint" := [0]]
    ensures PrefixMarks(s.triggered, tiers)
  {
    assert Iota(0, 1) == [0];
  }

  lemma {:induction false} NoRebuysOf(profile: TradingProfile, tiers: seq<Tier>, s: System, evs: seq<Event>)
    requires ValidRun(profile, tiers, s, evs) && forall ev | ev in evs :: !ev.BuyTokens? && !ev.Reboot?
    ensures SameLife(profile, tiers, s, evs, "mint")
    decreases |evs|
  {
    if evs != [] {
      hide Step, Enabled;
      assert evs[0] in evs && forall ev | ev in evs[1..] :: ev in evs;
      NoRebuysOf(profile, tiers, Step(profile, tiers, s, evs[0]), evs[1..]);
    }
  }

  // ---------- A confirmed half-sale closes the position ----------

  /** A sell of half of 100 tokens whose one reading lags behind, and whose signature is confirmed. */
  function HalfConfirmed(): Event {
    Attempt(Sent(100, [Some(100), None, None], true, [Sells.Confirmed], None), 0.0)
  }

  lemma HalfConfirmedMeans()
    ensures OutcomeOf(HalfConfirmed().submission).SignatureConfirmed?
    ensures Sells.SellAmount(100, 50) == Sells.Amount(50)
  {
    var submission := HalfConfirmed().submission;
    var readings := submission.readings;
    assert Sells.Verdict(100, readings[1..][1..][1..], true, submission.polls, None) == Sells.SignatureConfirmed;
    assert !Sells.Shows(readings[0], 100) && readings[1..][0] == None && readings[1..][1..][0] == None;
    Sells.SellAmountIsShare(100, 50);
  }

  /** 100 tokens bought and a sell of half of them lands; the position is closed as fully sold with 50
      on the chain. */
  lemma ConfirmedHalfClosesAll(mode: TradingMode, maxHoldOverride: nat) returns (evs: seq<Event>, chains: seq<nat>)
    ensures var profile, tiers := FromMode(mode, maxHoldOverride), TiersForMode(mode);
            && evs == [BuyAtOne(0.0), ManualSell("mint", 50), TakeSell(true), HalfConfirmed(), Settle("sig", 0)]
            && ValidRun(profile, tiers, START, evs) && |chains| == |evs|
            && PossibleChain(profile, tiers, START, "mint", 0, evs, chains)
            && var rows := Run(profile, tiers, START, evs).store.rows;
            && "id" in rows && rows["id"].status == ClosedManual && LastOr(chains, 0) == 50
  {
    hide FromMode, TiersForMode, Evaluate, EvaluateAll, OutcomeOf;
    var profile, tiers := FromMode(mode, maxHoldOverride), TiersForMode(mode);
    var s, o;
    Start(profile, tiers);
    evs, s, o := Next(profile, tiers, [], START, NO_ORIGINS, BuyAtOne(0.0));
    chains := [100];
    ChainNext(profile, tiers, [], [], START, BuyAtOne(0.0), 100);
    hide Reaches, ValidRun, PossibleChain, LastOr;
    evs, s, chains, o := HalfSaleTaken(profile, tiers, evs, s, chains, o);
    HalfConfirmedMeans();
    assert Lands(s, "mint", 100, HalfConfirmed(), 50);
    evs, s, chains, o := Advance(profile, tiers, evs, s, chains, o, HalfConfirmed(), 50);
    evs, s, chains, o := Advance(profile, tiers, evs, s, chains, o, Settle("sig", 0), 50);
    ReachesRun(profile, tiers, evs, s, o);
  }
}
