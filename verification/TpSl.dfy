/** The take-profit / stop-loss monitor: a prioritised decision per position, with a memory
    per mint of the tiers already taken. */
module TpSl {
  import opened Options
  import opened TradingProfiles
  import opened Positions
  import opened PositionStore

  datatype Command =
    | TakeProfit(mint: Mint, pnlPct: real)
    | StopLoss(mint: Mint, pnlPct: real)
    | TrailingStop(mint: Mint, dropFromHighPct: real)
    | PartialTakeProfit(mint: Mint, pnlPct: real, sellPct: nat, tierIndex: nat)
    | TimeStop(mint: Mint, ageSecs: nat, pnlPct: real)
    | MaxAgeExit(mint: Mint, ageSecs: nat, pnlPct: real)

  type Triggered = map<Mint, seq<nat>>

  function Marks(triggered: Triggered, mint: Mint): seq<nat> {
    if mint in triggered then triggered[mint] else []
  }

  // ---------- The decision ----------

  /** More than 95% down within two minutes: the price feed is not believed. */
  predicate LooksBogus(pos: Position) {
    pos.pnlPct < -95.0 && pos.ageSecs < 120
  }

  /** The exits that run even on a stale price, in order of priority. */
  function SafetyNet(profile: TradingProfile, pos: Position): (r: Option<Command>)
    ensures r.Some? ==> r.value.StopLoss? || r.value.TimeStop? || r.value.MaxAgeExit?
  {
    if pos.ShouldStopLoss() then Some(StopLoss(pos.mint, pos.pnlPct))
    else if pos.ageSecs > profile.timeStopSecs && pos.pnlPct < profile.timeStopMinPnl then
      Some(TimeStop(pos.mint, pos.ageSecs, pos.pnlPct))
    else if profile.maxHoldSecs > 0 && pos.ageSecs > profile.maxHoldSecs && pos.pnlPct > profile.maxAgeMinPnl then
      Some(MaxAgeExit(pos.mint, pos.ageSecs, pos.pnlPct))
    else None
  }

  /** The first tier from `i` on that is not marked and is reached; past the end if there is none. */
  function FirstTier(tiers: seq<Tier>, marks: seq<nat>, pnlPct: real, i: nat): (r: nat)
    requires i <= |tiers|
    ensures i <= r <= |tiers|
    ensures r < |tiers| ==> r !in marks && pnlPct >= tiers[r].triggerPct
    ensures forall j | i <= j < r :: j in marks || pnlPct < tiers[j].triggerPct
    decreases |tiers| - i
  {
    if i == |tiers| then i
    else if i !in marks && pnlPct >= tiers[i].triggerPct then i
    else FirstTier(tiers, marks, pnlPct, i + 1)
  }

  /** The full exits that come after the tiers. */
  function ProfitExit(profile: TradingProfile, pos: Position): (r: Option<Command>)
    ensures r.Some? ==> r.value.TrailingStop? || r.value.TakeProfit?
  {
    if pos.pnlPct > profile.trailingGatePct && pos.ShouldTrailingStop() then
      Some(TrailingStop(pos.mint, pos.DropFromHigh()))
    else if pos.ShouldTakeProfit() then Some(TakeProfit(pos.mint, pos.pnlPct))
    else None
  }

  /** The memory after one evaluation, and the command it sends, if any. */
  function Evaluate(profile: TradingProfile, tiers: seq<Tier>, triggered: Triggered, pos: Position)
    : (Triggered, Option<Command>)
  {
    if pos.status != Open || LooksBogus(pos) then (triggered, None)
    else if SafetyNet(profile, pos).Some? then (triggered, SafetyNet(profile, pos))
    else if pos.priceStale then (triggered, None)
    else
      var marks := Marks(triggered, pos.mint);
      var i := FirstTier(tiers, marks, pos.pnlPct, 0);
      if i < |tiers| then
        (triggered[pos.mint := marks + [i]], Some(PartialTakeProfit(pos.mint, pos.pnlPct, tiers[i].sellPct, i)))
      else (triggered[pos.mint := marks], ProfitExit(profile, pos))
  }

  function AsSeq<T>(o: Option<T>): seq<T> {
    if o.Some? then [o.value] else []
  }

  function EvaluateAll(profile: TradingProfile, tiers: seq<Tier>, triggered: Triggered, positions: seq<Position>)
    : (Triggered, seq<Command>)
    decreases |positions|
  {
    if positions == [] then (triggered, [])
    else
      var (t, c) := Evaluate(profile, tiers, triggered, positions[0]);
      var (t', cs) := EvaluateAll(profile, tiers, t, positions[1..]);
      (t', AsSeq(c) + cs)
  }

  /** Forgets the tiers of every mint that is not open. */
  function Retained(triggered: Triggered, stillOpen: set<Mint>): Triggered {
    map m | m in triggered && m in stillOpen :: triggered[m]
  }

  /** What `get_open_positions` may return: every open position once, in the map's own order. */
  ghost predicate ListsOpen(cache: map<Mint, Position>, positions: seq<Position>) {
    && (forall i | 0 <= i < |positions| :: IsOpen(cache, positions[i].mint) && cache[positions[i].mint] == positions[i])
    && (forall m | IsOpen(cache, m) :: cache[m] in positions)
    && (forall i, j | 0 <= i < j < |positions| :: positions[i].mint != positions[j].mint)
  }

  function MintsOf(positions: seq<Position>): set<Mint> {
    set p | p in positions :: p.mint
  }

  class TpSlMonitor {
    const profile: TradingProfile
    const tiers: seq<Tier>
    const positions: PositionManager
    var triggered: Triggered
    var sent: seq<Command>

    constructor (positions: PositionManager)
      ensures this.positions == positions && profile == positions.profile && tiers == TiersForMode(profile.mode)
      ensures triggered == map[] && sent == []
    {
      profile := positions.profile;
      tiers := TiersForMode(positions.profile.mode);
      this.positions := positions;
      triggered := map[];
      sent := [];
    }

    method EvaluatePosition(pos: Position)
      modifies this
      ensures var (t, c) := Evaluate(profile, tiers, old(triggered), pos);
              triggered == t && sent == old(sent) + AsSeq(c)
    {
      if pos.status != Open {
        return;
      }
      if pos.pnlPct < -95.0 && pos.ageSecs < 120 {
        return;
      }
      if pos.ShouldStopLoss() {
        sent := sent + [StopLoss(pos.mint, pos.pnlPct)];
        return;
      }
      if pos.ageSecs > profile.timeStopSecs && pos.pnlPct < profile.timeStopMinPnl {
        sent := sent + [TimeStop(pos.mint, pos.ageSecs, pos.pnlPct)];
        return;
      }
      if profile.maxHoldSecs > 0 && pos.ageSecs > profile.maxHoldSecs && pos.pnlPct > profile.maxAgeMinPnl {
        sent := sent + [MaxAgeExit(pos.mint, pos.ageSecs, pos.pnlPct)];
        return;
      }
      if pos.priceStale {
        return;
      }
      var marks := if pos.mint in triggered then triggered[pos.mint] else [];
      triggered := triggered[pos.mint := marks];
      for i := 0 to |tiers|
        invariant triggered == old(triggered)[pos.mint := marks] && sent == old(sent)
        invariant FirstTier(tiers, marks, pos.pnlPct, 0) == FirstTier(tiers, marks, pos.pnlPct, i)
      {
        if i in marks {
          continue;
        }
        if pos.pnlPct >= tiers[i].triggerPct {
          triggered := triggered[pos.mint := marks + [i]];
          sent := sent + [PartialTakeProfit(pos.mint, pos.pnlPct, tiers[i].sellPct, i)];
          return;
        }
      }
      if pos.pnlPct > profile.trailingGatePct && pos.ShouldTrailingStop() {
        var drop :=
          if pos.highestPrice > 0.0 then (pos.highestPrice - pos.currentPrice) / pos.highestPrice * 100.0 else 0.0;
        sent := sent + [TrailingStop(pos.mint, drop)];
        return;
      }
      if pos.ShouldTakeProfit() {
        sent := sent + [TakeProfit(pos.mint, pos.pnlPct)];
      }
    }

    method HandlePriceUpdate(mint: Mint, price: real, stale: bool, now: Time)
      requires positions.profile == profile
      modifies this, positions
      ensures positions.State() == Ticked(old(positions.State()), mint, price, stale, now)
      ensures if IsOpen(positions.positions, mint) then
                var (t, c) := Evaluate(profile, tiers, old(triggered), positions.positions[mint]);
                triggered == t && sent == old(sent) + AsSeq(c)
              else triggered == old(triggered) && sent == old(sent)
    {
      positions.UpdatePriceWithStale(mint, price, stale, now);
      if positions.IsOpenPosition(mint) {
        EvaluatePosition(positions.positions[mint]);
      }
    }

    /** `listed` is what `get_open_positions` returned. */
    method CheckAllPositions(listed: seq<Position>)
      requires ListsOpen(positions.positions, listed)
      modifies this
      ensures var (t, cs) := EvaluateAll(profile, tiers, Retained(old(triggered), MintsOf(listed)), listed);
              triggered == t && sent == old(sent) + cs
    {
      hide Evaluate, ListsOpen, AsSeq;
      var openMints := set p | p in listed :: p.mint;
      triggered := map m | m in triggered && m in openMints :: triggered[m];
      ghost var goal := EvaluateAll(profile, tiers, triggered, listed);
      assert listed[0..] == listed;
      for i := 0 to |listed|
        invariant goal.0 == EvaluateAll(profile, tiers, triggered, listed[i..]).0
        invariant old(sent) + goal.1 == sent + EvaluateAll(profile, tiers, triggered, listed[i..]).1
      {
        assert listed[i..][0] == listed[i] && listed[i..][1..] == listed[i + 1..];
        ghost var before := sent;
        ghost var (t, c) := Evaluate(profile, tiers, triggered, listed[i]);
        ghost var later := EvaluateAll(profile, tiers, t, listed[i + 1..]).1;
        EvaluatePosition(listed[i]);
        assert before + (AsSeq(c) + later) == sent + later;
      }
      assert listed[|listed|..] == [];
    }
  }
}

/** What the monitor does over whole runs, whatever prices arrive. */
module TpSlRuns {
  import opened TradingProfiles
  import opened Positions
  import opened TpSl

  // ---------- Tiers go off in order ----------

  ghost predicate Ascending(tiers: seq<Tier>) {
    forall i, j | 0 <= i < j < |tiers| :: tiers[i].triggerPct < tiers[j].triggerPct
  }

  /** start, start + 1, ..., end - 1 */
  function Iota(start: nat, end: nat): (r: seq<nat>)
    requires start <= end
    ensures |r| == end - start
    ensures forall i | 0 <= i < |r| :: r[i] == start + i
    decreases end - start
  {
    if start == end then [] else [start] + Iota(start + 1, end)
  }

  lemma IotaIn(end: nat, i: nat)
    ensures i in Iota(0, end) <==> i < end
  {
    if i < end {
      assert Iota(0, end)[i] == i;
    }
  }

  lemma IotaSnoc(start: nat, end: nat)
    requires start <= end
    ensures Iota(start, end) + [end] == Iota(start, end + 1)
  {
  }

  lemma IotaJoin(a: nat, b: nat, c: nat)
    requires a <= b <= c
    ensures Iota(a, b) + Iota(b, c) == Iota(a, c)
  {
  }

  /** The marks of every mint are 0, 1, ..., k - 1. */
  ghost predicate PrefixMarks(triggered: Triggered, tiers: seq<Tier>) {
    forall m | m in triggered :: |triggered[m]| <= |tiers| && triggered[m] == Iota(0, |triggered[m]|)
  }

  lemma MarksArePrefix(triggered: Triggered, tiers: seq<Tier>, mint: Mint)
    requires PrefixMarks(triggered, tiers)
    ensures |Marks(triggered, mint)| <= |tiers| && Marks(triggered, mint) == Iota(0, |Marks(triggered, mint)|)
  {
  }

  lemma FirstTierIsNext(tiers: seq<Tier>, k: nat, pnlPct: real)
    requires Ascending(tiers) && k <= |tiers|
    ensures FirstTier(tiers, Iota(0, k), pnlPct, 0)
         == if k < |tiers| && pnlPct >= tiers[k].triggerPct then k else |tiers|
  {
    var r := FirstTier(tiers, Iota(0, k), pnlPct, 0);
    IotaIn(k, r);
    IotaIn(k, k);
    if k < |tiers| {
      assert forall j | k <= j < |tiers| :: tiers[k].triggerPct <= tiers[j].triggerPct;
    }
  }

  lemma ModeTiersAscend(mode: TradingMode)
    ensures Ascending(TiersForMode(mode))
  {
  }

  /** One evaluation takes the next tier of its own mint or none, and touches no other mint. */
  lemma EvaluateTakesNext(profile: TradingProfile, tiers: seq<Tier>, triggered: Triggered, pos: Position)
    requires Ascending(tiers) && PrefixMarks(triggered, tiers)
    ensures var (t, c) := Evaluate(profile, tiers, triggered, pos);
            var k := |Marks(triggered, pos.mint)|;
            && t.Keys <= triggered.Keys + {pos.mint}
            && (forall m | m != pos.mint :: Marks(t, m) == Marks(triggered, m))
            && (if c.Some? && c.value.PartialTakeProfit? then
                  c.value.mint == pos.mint && c.value.tierIndex == k < |tiers| && Marks(t, pos.mint) == Iota(0, k + 1)
                else Marks(t, pos.mint) == Marks(triggered, pos.mint))
  {
    hide FirstTier, SafetyNet, ProfitExit, LooksBogus, Ascending;
    MarksArePrefix(triggered, tiers, pos.mint);
    var k := |Marks(triggered, pos.mint)|;
    FirstTierIsNext(tiers, k, pos.pnlPct);
    IotaSnoc(0, k);
  }

  /** What one evaluation does to the marks of any mint, and the tiers it sends for it. */
  lemma EvaluateMarks(profile: TradingProfile, tiers: seq<Tier>, triggered: Triggered, pos: Position, mint: Mint)
    requires Ascending(tiers) && PrefixMarks(triggered, tiers)
    ensures var (t, c) := Evaluate(profile, tiers, triggered, pos);
            && PrefixMarks(t, tiers)
            && |Marks(triggered, mint)| <= |Marks(t, mint)|
            && TierIndexes(AsSeq(c), mint) == Iota(|Marks(triggered, mint)|, |Marks(t, mint)|)
  {
    hide Evaluate, Ascending;
    EvaluateTakesNext(profile, tiers, triggered, pos);
    var t := Evaluate(profile, tiers, triggered, pos).0;
    forall m | m in t
      ensures |t[m]| <= |tiers| && t[m] == Iota(0, |t[m]|)
    {
      MarksArePrefix(triggered, tiers, m);
      assert t[m] == Marks(t, m);
    }
    var k := |Marks(triggered, mint)|;
    assert Iota(k, k) == [] && Iota(k, k + 1) == [k];
  }

  /** The tiers a list of commands takes for one mint, in order. */
  function TierIndexes(cs: seq<Command>, mint: Mint): seq<nat> {
    if cs == [] then []
    else (if cs[0].PartialTakeProfit? && cs[0].mint == mint then [cs[0].tierIndex] else []) + TierIndexes(cs[1..], mint)
  }

  lemma {:induction false} TierIndexesConcat(a: seq<Command>, b: seq<Command>, mint: Mint)
    ensures TierIndexes(a + b, mint) == TierIndexes(a, mint) + TierIndexes(b, mint)
  {
    if a == [] {
      assert a + b == b;
    } else {
      assert (a + b)[0] == a[0] && (a + b)[1..] == a[1..] + b;
      TierIndexesConcat(a[1..], b, mint);
    }
  }

  /** Anything the monitor can be asked: to look at a position, in whatever state that is, or to
      forget the mints that are no longer open. */
  datatype Look = LookAt(position: Position) | CleanUp(stillOpen: set<Mint>)

  function AfterLook(profile: TradingProfile, tiers: seq<Tier>, t: Triggered, look: Look): (Triggered, seq<Command>) {
    match look
    case LookAt(position) =>
      var (t', c) := Evaluate(profile, tiers, t, position);
      (t', AsSeq(c))
    case CleanUp(stillOpen) => (Retained(t, stillOpen), [])
  }

  function AfterLooks(profile: TradingProfile, tiers: seq<Tier>, t: Triggered, looks: seq<Look>): (Triggered,
                      seq<Command>)
    decreases |looks|
  {
    if looks == [] then (t, [])
    else
      var (t', cs) := AfterLook(profile, tiers, t, looks[0]);
      var (t'', cs') := AfterLooks(profile, tiers, t', looks[1..]);
      (t'', cs + cs')
  }

  /** Over any run the marks of every mint are 0, ..., k - 1; as long as a mint is not forgotten
      the tiers sent for it are exactly the marks added, in order, so no tier goes off twice. */
  lemma {:induction false} TiersInOrder(profile: TradingProfile, tiers: seq<Tier>, t: Triggered,
                                        looks: seq<Look>, mint: Mint)
    requires Ascending(tiers) && PrefixMarks(t, tiers)
    ensures var (t', cs) := AfterLooks(profile, tiers, t, looks);
            && PrefixMarks(t', tiers)
            && ((forall l | l in looks && l.CleanUp? :: mint in l.stillOpen) ==>
                && |Marks(t, mint)| <= |Marks(t', mint)| <= |tiers|
                && TierIndexes(cs, mint) == Iota(|Marks(t, mint)|, |Marks(t', mint)|))
    decreases |looks|
  {
    MarksArePrefix(t, tiers, mint);
    if looks == [] {
      assert Iota(|Marks(t, mint)|, |Marks(t, mint)|) == [];
    } else {
      var (t', cs) := AfterLook(profile, tiers, t, looks[0]);
      LookMarks(profile, tiers, t, looks[0], mint);
      TiersInOrder(profile, tiers, t', looks[1..], mint);
      var (t'', cs') := AfterLooks(profile, tiers, t', looks[1..]);
      TierIndexesConcat(cs, cs', mint);
      if forall l | l in looks && l.CleanUp? :: mint in l.stillOpen {
        assert looks[0] in looks && forall l | l in looks[1..] :: l in looks;
        IotaJoin(|Marks(t, mint)|, |Marks(t', mint)|, |Marks(t'', mint)|);
      }
    }
  }

  lemma LookMarks(profile: TradingProfile, tiers: seq<Tier>, t: Triggered, look: Look, mint: Mint)
    requires Ascending(tiers) && PrefixMarks(t, tiers)
    ensures var (t', cs) := AfterLook(profile, tiers, t, look);
            && PrefixMarks(t', tiers)
            && ((look.CleanUp? ==> mint in look.stillOpen) ==>
                && |Marks(t, mint)| <= |Marks(t', mint)|
                && TierIndexes(cs, mint) == Iota(|Marks(t, mint)|, |Marks(t', mint)|))
  {
    match look
    case LookAt(position) => EvaluateMarks(profile, tiers, t, position, mint);
    case CleanUp(stillOpen) => assert Iota(|Marks(t, mint)|, |Marks(t, mint)|) == [];
  }

  /** The property for a trading mode, from a monitor that has seen nothing. */
  lemma EachTierOncePerMint(mode: TradingMode, maxHoldOverride: nat, looks: seq<Look>, mint: Mint)
    requires forall l | l in looks && l.CleanUp? :: mint in l.stillOpen
    ensures var (t, cs) := AfterLooks(FromMode(mode, maxHoldOverride), TiersForMode(mode), map[], looks);
            && |Marks(t, mint)| <= |TiersForMode(mode)|
            && Marks(t, mint) == Iota(0, |Marks(t, mint)|)
            && TierIndexes(cs, mint) == Marks(t, mint)
  {
    var tiers := TiersForMode(mode);
    ModeTiersAscend(mode);
    TiersInOrder(FromMode(mode, maxHoldOverride), tiers, map[], looks, mint);
    MarksArePrefix(AfterLooks(FromMode(mode, maxHoldOverride), tiers, map[], looks).0, tiers, mint);
  }

  // ---------- One evaluation ----------

  /** The trailing stop needs the first tier: it is marked once the command is sent. */
  ghost predicate TrailsOnlyAfterFirstTier(mode: TradingMode, maxHoldOverride: nat, triggered: Triggered,
                                           pos: Position) {
    var (t, c) := Evaluate(FromMode(mode, maxHoldOverride), TiersForMode(mode), triggered, pos);
    c.Some? && c.value.TrailingStop? ==> 0 in Marks(t, pos.mint)
  }

  /** For positions in any state at all, restored ones included, the trailing stop waits for the
      first tier exactly in scalp mode. */
  lemma TrailingWaitsIff(mode: TradingMode, maxHoldOverride: nat)
    ensures (forall triggered, pos :: TrailsOnlyAfterFirstTier(mode, maxHoldOverride, triggered, pos))
            <==> mode == Scalp
  {
    if mode == Scalp {
      forall triggered, pos
        ensures TrailsOnlyAfterFirstTier(mode, maxHoldOverride, triggered, pos)
      {
        var marks := Marks(triggered, pos.mint);
        var tiers := TiersForMode(mode);
        assert 0 in marks || pos.pnlPct < tiers[0].triggerPct || FirstTier(tiers, marks, pos.pnlPct, 0) == 0;
      }
    } else {
      assert !TrailsOnlyAfterFirstTier(mode, maxHoldOverride, map[], BelowFirstTier(mode));
    }
  }

  /** A position past the trailing gate and well off its high, with the first tier not reached. */
  function BelowFirstTier(mode: TradingMode): Position {
    var p := NewPosition(FromMode(mode, 0), "restored", "mint", 1.0, 1.0, 1.0, 0.0, 0);
    if mode == Hold then p.(currentPrice := 1.4, highestPrice := 2.1, pnlPct := 40.0)
    else p.(currentPrice := 1.04, highestPrice := 1.08, pnlPct := 4.0)
  }

  /** The tier whose trigger is the mode's classic take-profit level. */
  function TakeProfitTier(mode: TradingMode): nat {
    match mode
    case Snipe => 0
    case Scalp => 1
    case Hold => 1
  }

  /** The classic take-profit never goes off before the tier at the same level was taken. */
  lemma TakeProfitFollowsItsTier(mode: TradingMode, maxHoldOverride: nat, triggered: Triggered, pos: Position)
    requires pos.takeProfitPct == FromMode(mode, maxHoldOverride).takeProfitPct
    ensures var (t, c) := Evaluate(FromMode(mode, maxHoldOverride), TiersForMode(mode), triggered, pos);
            c.Some? && c.value.TakeProfit? ==> TakeProfitTier(mode) in Marks(triggered, pos.mint)
  {
    var tiers, marks, i := TiersForMode(mode), Marks(triggered, pos.mint), TakeProfitTier(mode);
    assert tiers[i].triggerPct == pos.takeProfitPct;
    var r := FirstTier(tiers, marks, pos.pnlPct, 0);
    if i < r {
      assert i in marks || pos.pnlPct < tiers[i].triggerPct;
    }
  }
}
