/** What the command processor makes of the monitor's commands. */
module ExitRequests {
  import opened TradingProfiles
  import opened Positions
  import opened PositionStore
  import opened TpSl
  import opened ExitRules
  import opened Pipeline

  /** The commands whose mints are open, in order. */
  function OpenOnes(cache: map<Mint, Position>, commands: seq<Command>): seq<Command> {
    if commands == [] then []
    else
      var rest := OpenOnes(cache, commands[1..]);
      if IsOpen(cache, commands[0].mint) then [commands[0]] + rest else rest
  }

  /** How much a command sells, given the shares of the tiers. */
  predicate Sells(c: Command, pct: nat, shares: seq<nat>) {
    match c
    case TakeProfit(_, _) => pct == 100
    case StopLoss(_, _) => pct == 100
    case TrailingStop(_, _) => pct == 100
    case TimeStop(_, _, _) => pct == 100
    case MaxAgeExit(_, _, _) => pct == 100
    case PartialTakeProfit(_, _, _, i) => i < |shares| && pct == shares[i]
  }

  /** A tier's command carries the share of its tier. */
  ghost predicate CarryShares(cs: seq<Command>, shares: seq<nat>) {
    forall c | c in cs && c.PartialTakeProfit? :: c.tierIndex < |shares| && c.sellPct == shares[c.tierIndex]
  }

  /** This request is what the command of an open mint asks for. */
  predicate Serves(cache: map<Mint, Position>, request: SellRequest, c: Command, shares: seq<nat>) {
    IsOpen(cache, c.mint) && request.0 == c.mint && Sells(c, request.1, shares)
  }

  ghost predicate ServesInOrder(cache: map<Mint, Position>, requests: seq<SellRequest>, cs: seq<Command>,
                                shares: seq<nat>) {
    |requests| == |cs| && forall i | 0 <= i < |cs| :: Serves(cache, requests[i], cs[i], shares)
  }

  lemma OneMore(cache: map<Mint, Position>, request: SellRequest, c: Command, requests: seq<SellRequest>,
                cs: seq<Command>, shares: seq<nat>)
    requires Serves(cache, request, c, shares) && ServesInOrder(cache, requests, cs, shares)
    ensures ServesInOrder(cache, [request] + requests, [c] + cs, shares)
  {
  }

  lemma RequestServes(cache: map<Mint, Position>, c: Command, shares: seq<nat>)
    requires IsOpen(cache, c.mint) && CarryShares([c], shares)
    ensures Serves(cache, RequestFor(c), c, shares)
  {
    assert c in [c];
  }

  lemma OneCarries(cs: seq<Command>, c: Command, shares: seq<nat>)
    requires CarryShares(cs, shares) && c in cs
    ensures CarryShares([c], shares)
  {
  }

  /** The requests are the commands of open mints, one for one and in order. */
  lemma {:induction false} RequestsMatchOpenOnes(cache: map<Mint, Position>, commands: seq<Command>, shares: seq<nat>)
    requires CarryShares(commands, shares)
    ensures var requests, open := Requests(cache, commands), OpenOnes(cache, commands);
            ServesInOrder(cache, requests, open, shares)
    decreases |commands|
  {
    if commands != [] {
      assert CarryShares(commands[1..], shares) by {
        assert forall c | c in commands[1..] :: c in commands;
      }
      OneCarries(commands, commands[0], shares);
      hide ServesInOrder, Serves, CarryShares, RequestFor, IsOpen;
      RequestsMatchOpenOnes(cache, commands[1..], shares);
      if IsOpen(cache, commands[0].mint) {
        RequestServes(cache, commands[0], shares);
        OneMore(cache, RequestFor(commands[0]), commands[0], Requests(cache, commands[1..]),
                OpenOnes(cache, commands[1..]), shares);
      }
    }
  }

  /** The shares that the tiers of a mode sell. */
  function Shares(mode: TradingMode): seq<nat> {
    match mode
    case Snipe => [100]
    case Scalp => [50, 70, 100]
    case Hold => [50, 60, 100]
  }

  lemma TiersHaveShares(mode: TradingMode)
    ensures |TiersForMode(mode)| == |Shares(mode)|
    ensures forall i | 0 <= i < |Shares(mode)| :: TiersForMode(mode)[i].sellPct == Shares(mode)[i]
  {
  }

  lemma OneCarriesShare(mode: TradingMode, profile: TradingProfile, triggered: Triggered, p: Position)
    ensures CarryShares(AsSeq(Evaluate(profile, TiersForMode(mode), triggered, p).1), Shares(mode))
  {
    hide Evaluate, TiersForMode;
    var c := Evaluate(profile, TiersForMode(mode), triggered, p).1;
    TiersHaveShares(mode);
    if c.Some? {
      EvaluateIff(profile, TiersForMode(mode), triggered, p, c.value);
    }
  }

  lemma {:induction false} AllCarryShares(mode: TradingMode, profile: TradingProfile, triggered: Triggered,
                                          listed: seq<Position>)
    ensures CarryShares(EvaluateAll(profile, TiersForMode(mode), triggered, listed).1, Shares(mode))
    decreases |listed|
  {
    if listed != [] {
      hide Evaluate, TiersForMode, Shares;
      OneCarriesShare(mode, profile, triggered, listed[0]);
      AllCarryShares(mode, profile, Evaluate(profile, TiersForMode(mode), triggered, listed[0]).0, listed[1..]);
    }
  }

  lemma StepKeepsShares(mode: TradingMode, profile: TradingProfile, s: System, ev: Event)
    requires Enabled(s, ev) && CarryShares(s.commands, Shares(mode))
    ensures CarryShares(Step(profile, TiersForMode(mode), s, ev).commands, Shares(mode))
  {
    hide Evaluate, EvaluateAll, TiersForMode, Shares, ListsOpen, OutcomeOf;
    match ev
    case LookAtTicked =>
      if IsOpen(s.store.cache, s.looking.value) {
        OneCarriesShare(mode, profile, s.triggered, s.store.cache[s.looking.value]);
      }
    case CheckAll(listed) => AllCarryShares(mode, profile, Retained(s.triggered, MintsOf(listed)), listed);
    case ProcessCommand => assert forall c | c in s.commands[1..] :: c in s.commands;
    case _ =>
  }

  lemma {:induction false} RunKeepsShares(mode: TradingMode, profile: TradingProfile, s: System, evs: seq<Event>)
    requires CarryShares(s.commands, Shares(mode)) && ValidRun(profile, TiersForMode(mode), s, evs)
    ensures CarryShares(Run(profile, TiersForMode(mode), s, evs).commands, Shares(mode))
    decreases |evs|
  {
    if evs != [] {
      hide CarryShares, Step, Enabled, TiersForMode, Shares;
      StepKeepsShares(mode, profile, s, evs[0]);
      RunKeepsShares(mode, profile, Step(profile, TiersForMode(mode), s, evs[0]), evs[1..]);
    }
  }

  /** In every reachable state of every mode the next command, if its mint is open, becomes one more request,
      behind the others: for its tier's share of that mode, or for everything. */
  lemma RequestAsksItsShare(mode: TradingMode, maxHoldOverride: nat, before: seq<Event>)
    requires ValidRun(FromMode(mode, maxHoldOverride), TiersForMode(mode), START, before)
    requires Run(FromMode(mode, maxHoldOverride), TiersForMode(mode), START, before).commands != []
    ensures var profile, tiers := FromMode(mode, maxHoldOverride), TiersForMode(mode);
            var s := Run(profile, tiers, START, before);
            var s', c := Step(profile, tiers, s, ProcessCommand), s.commands[0];
            && s'.commands == s.commands[1..] && s'.store == s.store
            && (if IsOpen(s.store.cache, c.mint) then
                  exists pct :: s'.sells == s.sells + [(c.mint, pct)] && Sells(c, pct, Shares(mode))
                else s'.sells == s.sells)
  {
    hide FromMode, TiersForMode, Shares, Run, ValidRun;
    var profile, tiers := FromMode(mode, maxHoldOverride), TiersForMode(mode);
    RunKeepsShares(mode, profile, START, before);
    var s := Run(profile, tiers, START, before);
    var c := s.commands[0];
    RequestsOfOne(s.store.cache, c);
    assert s.commands[0] in s.commands;
    if IsOpen(s.store.cache, c.mint) {
      assert Step(profile, tiers, s, ProcessCommand).sells == s.sells + [(c.mint, RequestFor(c).1)];
    }
  }

  lemma RequestsOfOne(cache: map<Mint, Position>, c: Command)
    ensures Requests(cache, [c]) == if IsOpen(cache, c.mint) then [(c.mint, RequestFor(c).1)] else []
  {
    assert [c][0] == c && [c][1..] == [];
  }
}
