/** The exit pipeline: price ticks, the monitor, its command queue, the sell queue and the one
    sell executor, over the shared position store. */
module Pipeline {
  import opened MachineInts
  import opened Options
  import opened TradingProfiles
  import opened Positions
  import opened PositionStore
  import opened TpSl
  import Sells

  const MAX_ATTEMPTS: nat := 3

  type SellRequest = (Mint, nat)

  // ---------- The command processor ----------

  /** Every full exit sells everything; a tier sells its share. */
  function RequestFor(c: Command): SellRequest {
    (c.mint, if c.PartialTakeProfit? then c.sellPct else 100)
  }

  function Requests(cache: map<Mint, Position>, commands: seq<Command>): seq<SellRequest> {
    if commands == [] then []
    else (if IsOpen(cache, commands[0].mint) then [RequestFor(commands[0])] else []) + Requests(cache, commands[1..])
  }

  lemma {:induction false} RequestsSnoc(cache: map<Mint, Position>, commands: seq<Command>, i: nat)
    requires i < |commands|
    ensures Requests(cache, commands[..i + 1])
         == Requests(cache, commands[..i]) + if IsOpen(cache, commands[i].mint) then [RequestFor(commands[i])] else []
    decreases i
  {
    if i == 0 {
      assert commands[..1][1..] == commands[..0] == [];
    } else {
      RequestsSnoc(cache, commands[1..], i - 1);
      assert commands[..i + 1][1..] == commands[1..][..i] && commands[..i][1..] == commands[1..][..i - 1];
    }
  }

  /** Drains the commands received so far. */
  method ProcessTpSlCommands(commands: seq<Command>, positions: PositionManager) returns (sells: seq<SellRequest>)
    ensures sells == Requests(positions.positions, commands)
  {
    sells := [];
    for i := 0 to |commands|
      invariant sells == Requests(positions.positions, commands[..i])
    {
      hide Requests;
      var cmd := commands[i];
      RequestsSnoc(positions.positions, commands, i);
      if !positions.IsOpenPosition(cmd.mint) {
        continue;
      }
      match cmd
      case PartialTakeProfit(mint, _, sellPct, _) => sells := sells + [(mint, sellPct)];
      case _ => sells := sells + [(cmd.mint, 100)];
    }
    assert commands[..|commands|] == commands;
  }

  // ---------- The sell executor ----------

  /** One attempt: it may fail before anything is sent, or it is sent and its outcome verified. */
  datatype Submission =
    | NotSent
    | Sent(pre: u64, readings: seq<Option<u64>>, validSignature: bool, polls: seq<Sells.Poll>, recheck: Option<u64>)

  function OutcomeOf(submission: Submission): Sells.SellOutcome {
    match submission
    case NotSent => Sells.Failed
    case Sent(pre, readings, validSignature, polls, recheck) =>
      Sells.Verdict(pre, readings, validSignature, polls, recheck)
  }

  /** What a successful sale leaves: the balance, and the whole percentage sold. */
  datatype Settlement = Settlement(left: nat, sellPct: nat)

  function SettlementOf(outcome: Sells.SellOutcome): Option<Settlement> {
    match outcome
    case Failed => None
    case SignatureConfirmed => Some(Settlement(0, 100))
    case BalanceReduced(post, _, pct) => Some(Settlement(post as nat, pct))
  }

  /** With nothing left the position is closed by hand, otherwise it is reduced. */
  function Settled(s: Store, mint: Mint, settlement: Settlement, tx: string, now: Time): Store {
    if settlement.left == 0 then ClosedWith(s, mint, tx, ClosedManual, now)
    else Reduced(s, mint, settlement.sellPct, tx, now)
  }

  /** The rest of a sell from the given attempt on. */
  function SellFrom(s: Store, mint: Mint, submissions: seq<Submission>, attempt: nat, walletSol: real,
                    tx: string, now: Time)
    : Store
    requires attempt <= |submissions|
    decreases |submissions| - attempt
  {
    if attempt == |submissions| then ErrorClosed(s, mint, now)
    else
      var settlement := SettlementOf(OutcomeOf(submissions[attempt]));
      if settlement.Some? then Settled(Realized(s, mint, walletSol), mint, settlement.value, tx, now)
      else SellFrom(s, mint, submissions, attempt + 1, walletSol, tx, now)
  }

  class SellExecutor {
    const positions: PositionManager

    constructor (positions: PositionManager)
      ensures this.positions == positions
    {
      this.positions := positions;
    }

    method ExecuteSell(mint: Mint, submission: Submission, walletSol: real, tx: string, now: Time) returns (ok: bool)
      requires submission.Sent? ==> |submission.readings| == 3
      modifies positions
      ensures var settlement := SettlementOf(OutcomeOf(submission));
              && ok == settlement.Some?
              && positions.State() ==
                 if ok then Settled(Realized(old(positions.State()), mint, walletSol), mint, settlement.value, tx, now)
                 else old(positions.State())
    {
      match submission
      case NotSent => ok := false;
      case Sent(pre, readings, validSignature, polls, recheck) =>
        var outcome := Sells.VerifySellOutcome(pre, readings, validSignature, polls, recheck);
        var left, pct;
        match outcome {
          case BalanceReduced(post, _, sellPct) => left, pct := post as nat, sellPct;
          case SignatureConfirmed => left, pct := 0, 100;
          case Failed => return false;
        }
        positions.UpdatePnlRealized(mint, walletSol);
        if left == 0 {
          positions.ClosePosition(mint, tx, now);
        } else {
          positions.ReducePosition(mint, pct, tx, now);
        }
        ok := true;
    }

    /** One command of the sell loop, with the attempts it would make. */
    method ProcessSell(mint: Mint, walletOk: bool, submissions: seq<Submission>, walletSol: real, tx: string,
                       now: Time)
      requires |submissions| == MAX_ATTEMPTS
      requires forall submission | submission in submissions && submission.Sent? :: |submission.readings| == 3
      modifies positions
      ensures positions.State()
           == if IsOpen(old(positions.positions), mint) && walletOk
              then SellFrom(old(positions.State()), mint, submissions, 0, walletSol, tx, now)
              else old(positions.State())
    {
      if !positions.IsOpenPosition(mint) || !walletOk {
        return;
      }
      var sellOk := false;
      for attempt := 0 to MAX_ATTEMPTS
        invariant !sellOk && positions.State() == old(positions.State())
        invariant SellFrom(old(positions.State()), mint, submissions, 0, walletSol, tx, now)
               == SellFrom(old(positions.State()), mint, submissions, attempt, walletSol, tx, now)
      {
        sellOk := ExecuteSell(mint, submissions[attempt], walletSol, tx, now);
        if sellOk {
          return;
        }
      }
      positions.ClosePositionError(mint, now);
    }
  }

  // ---------- The whole system, one atomic step at a time ----------

  /** What the executor is doing, and the record it took the command for. */
  datatype Executor =
    | Idle
    | Selling(mint: Mint, id: Id, pct: nat, failures: nat)
    | Settling(mint: Mint, id: Id, settlement: Settlement)
    | Failing(mint: Mint, id: Id)

  /** `looking` is the mint whose price was just updated and is yet to be evaluated. `suspect` is
      history: the records restored from the database, or with a PnL rewritten from the wallet or cleared. */
  datatype System = System(
    store: Store,
    triggered: Triggered,
    commands: seq<Command>,
    sells: seq<SellRequest>,
    executor: Executor,
    looking: Option<Mint>,
    suspect: set<Id>)

  datatype Event =
    | PriceTick(mint: Mint, price: real, stale: bool, now: Time)
    | LookAtTicked
    | CheckAll(listed: seq<Position>)
    | ProcessCommand
    | ManualSell(mint: Mint, pct: nat)
    | TakeSell(walletOk: bool)
    | Attempt(submission: Submission, walletSol: real)
    | Settle(tx: string, now: Time)
    | GiveUp
    | CloseFailed(now: Time)
    | BuyTokens(id: Id, mint: Mint, entryPrice: real, entryAmount: real, tokenAmount: real, walletSolAtOpen: real,
                now: Time)
    | Reboot(order: seq<Id>)

  const START: System := System(EMPTY, map[], [], [], Idle, None, {})

  ghost predicate Enabled(s: System, ev: Event) {
    match ev
    case PriceTick(_, _, _, _) => s.looking.None?
    case LookAtTicked => s.looking.Some?
    case CheckAll(listed) => s.looking.None? && ListsOpen(s.store.cache, listed)
    case ProcessCommand => s.commands != []
    case ManualSell(_, _) => true
    case TakeSell(_) => s.executor.Idle? && s.sells != []
    case Attempt(submission, _) =>
      s.executor.Selling? && s.executor.failures < MAX_ATTEMPTS && (submission.Sent? ==> 1 <= s.executor.pct <= 100)
    case Settle(_, _) => s.executor.Settling?
    case GiveUp => s.executor.Selling? && s.executor.failures == MAX_ATTEMPTS
    case CloseFailed(_) => s.executor.Failing?
    case BuyTokens(id, _, _, _, tokenAmount, _, _) => id !in s.store.rows && tokenAmount > 0.0
    case Reboot(order) => ListsOpenRows(s.store.rows, order)
  }

  /** The commands one event makes the monitor send. */
  function Commands(profile: TradingProfile, tiers: seq<Tier>, s: System, ev: Event): (Triggered, seq<Command>) {
    match ev
    case LookAtTicked =>
      if s.looking.Some? && IsOpen(s.store.cache, s.looking.value) then
        var (t, c) := Evaluate(profile, tiers, s.triggered, s.store.cache[s.looking.value]);
        (t, AsSeq(c))
      else (s.triggered, [])
    case CheckAll(listed) => EvaluateAll(profile, tiers, Retained(s.triggered, MintsOf(listed)), listed)
    case _ => (s.triggered, [])
  }

  /** Rewriting the PnL of a record makes it suspect. */
  function RewrittenIds(s: Store, mint: Mint): set<Id> {
    if mint in s.cache && s.cache[mint].walletSolAtOpen > 0.0 then {s.cache[mint].id} else {}
  }

  function TakeNext(s: System, walletOk: bool): System
    requires s.sells != []
  {
    var (mint, pct) := s.sells[0];
    s.(sells := s.sells[1..],
       executor :=
         if IsOpen(s.store.cache, mint) && walletOk then Selling(mint, s.store.cache[mint].id, pct, 0) else Idle)
  }

  function AfterAttempt(s: System, submission: Submission, walletSol: real): System
    requires s.executor.Selling?
  {
    var e := s.executor;
    var settlement := SettlementOf(OutcomeOf(submission));
    if settlement.None? then s.(executor := e.(failures := e.failures + 1))
    else s.(store := Realized(s.store, e.mint, walletSol),
            suspect := s.suspect + RewrittenIds(s.store, e.mint),
            executor := Settling(e.mint, e.id, settlement.value))
  }

  /** All attempts have failed: the PnL of a record still open is cleared, and its close is to follow. */
  function AfterLastFailure(s: System): System
    requires s.executor.Selling?
  {
    var e := s.executor;
    if !IsOpen(s.store.cache, e.mint) then s.(executor := Idle)
    else s.(store := Cleared(s.store, e.mint),
            suspect := s.suspect + if s.store.cache[e.mint].pnlSol != 0.0 then {s.store.cache[e.mint].id} else {},
            executor := Failing(e.mint, e.id))
  }

  ghost function Step(profile: TradingProfile, tiers: seq<Tier>, s: System, ev: Event): System
    requires Enabled(s, ev)
  {
    match ev
    case PriceTick(mint, price, stale, now) =>
      s.(store := Ticked(s.store, mint, price, stale, now), looking := Some(mint))
    case LookAtTicked =>
      var (t, cs) := Commands(profile, tiers, s, ev);
      s.(triggered := t, commands := s.commands + cs, looking := None)
    case CheckAll(listed) =>
      var (t, cs) := Commands(profile, tiers, s, ev);
      s.(triggered := t, commands := s.commands + cs)
    case ProcessCommand => s.(commands := s.commands[1..], sells := s.sells + Requests(s.store.cache, [s.commands[0]]))
    case ManualSell(mint, pct) => s.(sells := s.sells + [(mint, pct)])
    case TakeSell(walletOk) => TakeNext(s, walletOk)
    case Attempt(submission, walletSol) => AfterAttempt(s, submission, walletSol)
    case Settle(tx, now) =>
      s.(store := Settled(s.store, s.executor.mint, s.executor.settlement, tx, now), executor := Idle)
    case GiveUp => AfterLastFailure(s)
    case CloseFailed(now) => s.(store := FailedClosed(s.store, s.executor.mint, now), executor := Idle)
    case BuyTokens(id, mint, entryPrice, entryAmount, tokenAmount, walletSolAtOpen, now) =>
      var p := NewPosition(profile, id, mint, entryPrice, entryAmount, tokenAmount, walletSolAtOpen, now);
      s.(store := Opened(s.store, p))
    case Reboot(order) =>
      System(Loaded(s.store.(cache := map[]), order), map[], [], [], Idle, None, s.suspect + set id | id in order)
  }

  ghost predicate ValidRun(profile: TradingProfile, tiers: seq<Tier>, s: System, evs: seq<Event>)
    decreases |evs|
  {
    evs == [] || (Enabled(s, evs[0]) && ValidRun(profile, tiers, Step(profile, tiers, s, evs[0]), evs[1..]))
  }

  ghost function Run(profile: TradingProfile, tiers: seq<Tier>, s: System, evs: seq<Event>): System
    requires ValidRun(profile, tiers, s, evs)
    decreases |evs|
  {
    if evs == [] then s else Run(profile, tiers, Step(profile, tiers, s, evs[0]), evs[1..])
  }
}
