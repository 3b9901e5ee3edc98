/** When each exit is due: the monitor's decision as conditions on status, age, price and PnL, in order
    of priority. */
module ExitRules {
  import opened Options
  import opened TradingProfiles
  import opened Positions
  import opened TpSl

  /** Open, and not more than 95% down within two minutes. */
  predicate Considered(p: Position) {
    p.status == Open && !(p.pnlPct < -95.0 && p.ageSecs < 120)
  }

  predicate Losing(p: Position) {
    p.pnlPct <= -p.stopLossPct
  }

  predicate Stagnant(profile: TradingProfile, p: Position) {
    p.ageSecs > profile.timeStopSecs && p.pnlPct < profile.timeStopMinPnl
  }

  predicate Overdue(profile: TradingProfile, p: Position) {
    profile.maxHoldSecs > 0 && p.ageSecs > profile.maxHoldSecs && p.pnlPct > profile.maxAgeMinPnl
  }

  /** Profit is taken at a fresh price only, when nothing makes the position leave. */
  predicate Earning(profile: TradingProfile, p: Position) {
    !Losing(p) && !Stagnant(profile, p) && !Overdue(profile, p) && !p.priceStale
  }

  predicate Reaches(tiers: seq<Tier>, marks: seq<nat>, p: Position, i: nat) {
    i < |tiers| && i !in marks && p.pnlPct >= tiers[i].triggerPct
  }

  /** No tier that is not marked is reached. */
  ghost predicate NoTier(tiers: seq<Tier>, marks: seq<nat>, p: Position) {
    forall i: nat :: !Reaches(tiers, marks, p, i)
  }

  /** Past the gate, and the trailing distance below the high. */
  predicate Trailing(profile: TradingProfile, p: Position) {
    && p.pnlPct > profile.trailingGatePct && p.trailingStopPct.Some? && p.highestPrice > 0.0
    && 100.0 * (p.highestPrice - p.currentPrice) >= p.trailingStopPct.value * p.highestPrice
  }

  ghost predicate Due(profile: TradingProfile, tiers: seq<Tier>, marks: seq<nat>, p: Position, c: Command) {
    && Considered(p) && c.mint == p.mint
    && match c
       case StopLoss(_, pnlPct) => pnlPct == p.pnlPct && Losing(p)
       case TimeStop(_, ageSecs, pnlPct) =>
         ageSecs == p.ageSecs && pnlPct == p.pnlPct && !Losing(p) && Stagnant(profile, p)
       case MaxAgeExit(_, ageSecs, pnlPct) =>
         ageSecs == p.ageSecs && pnlPct == p.pnlPct && !Losing(p) && !Stagnant(profile, p) && Overdue(profile, p)
       case PartialTakeProfit(_, pnlPct, sellPct, i) =>
         && pnlPct == p.pnlPct && Earning(profile, p)
         && Reaches(tiers, marks, p, i) && (forall j: nat | j < i :: !Reaches(tiers, marks, p, j))
         && sellPct == tiers[i].sellPct
       case TrailingStop(_, drop) =>
         && Earning(profile, p) && NoTier(tiers, marks, p) && Trailing(profile, p)
         && drop * p.highestPrice == 100.0 * (p.highestPrice - p.currentPrice)
       case TakeProfit(_, pnlPct) =>
         && pnlPct == p.pnlPct && Earning(profile, p) && NoTier(tiers, marks, p) && !Trailing(profile, p)
         && p.pnlPct >= p.takeProfitPct
  }

  lemma DropMeans(p: Position, drop: real)
    requires p.highestPrice > 0.0
    ensures drop * p.highestPrice == 100.0 * (p.highestPrice - p.currentPrice) <==> drop == p.DropFromHigh()
    ensures p.trailingStopPct.Some? ==>
      (p.DropFromHigh() >= p.trailingStopPct.value <==>
       100.0 * (p.highestPrice - p.currentPrice) >= p.trailingStopPct.value * p.highestPrice)
  {
    var high, part := p.highestPrice, p.highestPrice - p.currentPrice;
    QuotientOf(part, high);
    assert p.DropFromHigh() * high == 100.0 * part by {
      Regroup(part / high, high);
    }
    CompareScaled(drop, p.DropFromHigh(), high);
    if p.trailingStopPct.Some? {
      CompareScaled(p.DropFromHigh(), p.trailingStopPct.value, high);
    }
  }

  lemma Regroup(ratio: real, high: real)
    ensures ratio * 100.0 * high == 100.0 * (ratio * high)
  {
  }

  lemma QuotientOf(part: real, whole: real)
    requires whole > 0.0
    ensures part / whole * whole == part
  {
  }

  lemma CompareScaled(a: real, b: real, scale: real)
    requires scale > 0.0
    ensures a >= b <==> a * scale >= b * scale
    ensures a == b <==> a * scale == b * scale
  {
    if a > b {
      assert (a - b) * scale > 0.0;
    } else if a < b {
      assert (b - a) * scale > 0.0;
    }
  }

  lemma FirstTierMeans(tiers: seq<Tier>, marks: seq<nat>, p: Position)
    ensures var i := FirstTier(tiers, marks, p.pnlPct, 0);
            if i < |tiers| then
              Reaches(tiers, marks, p, i) && forall j: nat | j < i :: !Reaches(tiers, marks, p, j)
            else NoTier(tiers, marks, p)
  {
  }

  /** The decision is the one command that is due; in particular at most one is. */
  lemma EvaluateIff(profile: TradingProfile, tiers: seq<Tier>, triggered: Triggered, p: Position, c: Command)
    ensures Evaluate(profile, tiers, triggered, p).1 == Some(c) <==>
            Due(profile, tiers, Marks(triggered, p.mint), p, c)
  {
    hide FirstTier, Reaches, Position.DropFromHigh, Marks;
    var marks := Marks(triggered, p.mint);
    FirstTierMeans(tiers, marks, p);
    if p.highestPrice > 0.0 {
      DropMeans(p, if c.TrailingStop? then c.dropFromHighPct else 0.0);
    }
  }

  /** A tier that goes off is marked after the ones marked before it; nothing else is marked. */
  lemma EvaluateMarksIff(profile: TradingProfile, tiers: seq<Tier>, triggered: Triggered, p: Position)
    ensures var (t, c) := Evaluate(profile, tiers, triggered, p);
            && (forall mint | mint != p.mint :: Marks(t, mint) == Marks(triggered, mint))
            && Marks(t, p.mint) == Marks(triggered, p.mint) + TierOf(c)
  {
    hide FirstTier, SafetyNet, ProfitExit;
  }

  function TierOf(c: Option<Command>): seq<nat> {
    if c.Some? && c.value.PartialTakeProfit? then [c.value.tierIndex] else []
  }
}
