/** What the exit pipeline keeps in every interleaving of its tasks, across restarts. */
module PipelineRuns {
  import opened Options
  import opened TradingProfiles
  import opened Positions
  import opened PositionStore
  import opened TpSl
  import opened Pipeline
  import Sells

  // ---------- The store and the executor ----------

  /** A busy executor works for the record it took, and that record is open. */
  ghost predicate ExecutorHolds(s: System) {
    && (!s.executor.Idle? ==>
          IsOpen(s.store.cache, s.executor.mint) && s.store.cache[s.executor.mint].id == s.executor.id)
    && (s.executor.Settling? ==> s.executor.settlement.left == 0 || s.executor.settlement.sellPct < 100)
    && (s.executor.Selling? ==> s.executor.failures <= MAX_ATTEMPTS)
  }

  ghost predicate SaneRows(rows: map<Id, Position>) {
    forall id | id in rows ::
      rows[id].status in {Open, ClosedManual, ClosedError} && (rows[id].status == Open ==> rows[id].tokenAmount > 0.0)
  }

  ghost predicate StoreInv(s: System) {
    Agreement(s.store) && ExecutorHolds(s) && SaneRows(s.store.rows)
  }

  /** No row that has left Open is written again. */
  ghost predicate ClosedRowsKept(rows: map<Id, Position>, rows': map<Id, Position>) {
    forall id | id in rows && rows[id].status != Open :: id in rows' && rows'[id] == rows[id]
  }

  lemma OpenRow(s: Store, mint: Mint)
    requires Agreement(s) && IsOpen(s.cache, mint)
    ensures var id := s.cache[mint].id; id in s.rows && SameRecord(s.cache[mint], s.rows[id])
  {
  }

  lemma OpenHolds(s: Store, mint: Mint)
    requires Agreement(s) && SaneRows(s.rows) && IsOpen(s.cache, mint)
    ensures s.cache[mint].tokenAmount > 0.0
  {
    OpenRow(s, mint);
  }

  /** Writing the cached open position of a mint touches no closed row. */
  lemma WrittenKeepsRows(s: Store, mint: Mint, p: Position)
    requires Agreement(s) && IsOpen(s.cache, mint) && p.id == s.cache[mint].id
    requires SaneRows(s.rows)
    requires p.status in {Open, ClosedManual, ClosedError} && (p.status == Open ==> p.tokenAmount > 0.0)
    ensures ClosedRowsKept(s.rows, Written(s, mint, p).rows) && SaneRows(Written(s, mint, p).rows)
  {
    OpenRow(s, mint);
  }

  lemma LessThanAll(amount: real, sellPct: nat)
    requires amount > 0.0 && sellPct < 100
    ensures AmountAfter(amount, sellPct) > 0.0
  {
    var share := sellPct as real / 100.0;
    assert amount - amount * share == amount * (1.0 - share);
    assert share < 1.0;
  }

  /** A whole percentage below 100 leaves something, so a reduction never closes the position. */
  lemma ReductionStaysOpen(p: Position, sellPct: nat, tx: string, now: Time)
    requires p.tokenAmount > 0.0 && sellPct < 100
    ensures AfterSale(p, sellPct, tx, now) == p.(tokenAmount := AmountAfter(p.tokenAmount, sellPct))
    ensures AfterSale(p, sellPct, tx, now).tokenAmount > 0.0
  {
    hide AmountAfter;
    LessThanAll(p.tokenAmount, sellPct);
  }

  lemma SettledKeeps(s: Store, mint: Mint, settlement: Settlement, tx: string, now: Time)
    requires Agreement(s) && IsOpen(s.cache, mint) && SaneRows(s.rows)
    requires settlement.left == 0 || settlement.sellPct < 100
    ensures var s' := Settled(s, mint, settlement, tx, now);
            && Agreement(s') && SaneRows(s'.rows) && ClosedRowsKept(s.rows, s'.rows)
            && s'.cache == s.cache[mint := s'.cache[mint]]
            && (settlement.left == 0 <==> s'.cache[mint].status != Open)
            && (settlement.left == 0 ==> s'.cache[mint].status == ClosedManual)
            && (settlement.left > 0 ==>
                  s'.cache[mint] == s.cache[mint].(tokenAmount := s'.cache[mint].tokenAmount))
  {
    hide Agreement, SaneRows, ClosedRowsKept, AfterSale;
    var p := s.cache[mint];
    OpenHolds(s, mint);
    if settlement.left == 0 {
      ApplyAgrees(s, Close(mint, tx, ClosedManual, now));
      WrittenKeepsRows(s, mint, p.(status := ClosedManual, sellTx := Some(tx), closedAt := Some(now)));
    } else {
      ReductionStaysOpen(p, settlement.sellPct, tx, now);
      ApplyAgrees(s, Reduce(mint, settlement.sellPct, tx, now));
      WrittenKeepsRows(s, mint, AfterSale(p, settlement.sellPct, tx, now));
    }
  }

  lemma ClearedKeeps(s: Store, mint: Mint)
    requires Agreement(s) && IsOpen(s.cache, mint)
    ensures var s' := Cleared(s, mint);
            && Agreement(s') && s'.rows == s.rows
            && s'.cache == s.cache[mint := WithoutPnl(s.cache[mint])] && IsOpen(s'.cache, mint)
  {
    hide Agreement;
    ApplyAgrees(s, ClearPnl(mint));
  }

  lemma FailedClosedKeeps(s: Store, mint: Mint, now: Time)
    requires Agreement(s) && IsOpen(s.cache, mint) && SaneRows(s.rows)
    ensures var s' := FailedClosed(s, mint, now);
            && Agreement(s') && SaneRows(s'.rows) && ClosedRowsKept(s.rows, s'.rows)
            && s'.cache == s.cache[mint := s'.cache[mint]] && s'.cache[mint].status == ClosedError
  {
    hide Agreement, SaneRows, ClosedRowsKept;
    ApplyAgrees(s, Close(mint, "sell_failed", ClosedError, now));
    var closed := s.cache[mint].(status := ClosedError, sellTx := Some("sell_failed"), closedAt := Some(now));
    WrittenKeepsRows(s, mint, closed);
  }

  lemma OpenedKeeps(s: Store, p: Position)
    requires Agreement(s) && SaneRows(s.rows) && p.id !in s.rows && p.status == Open && p.tokenAmount > 0.0
    ensures var s' := Opened(s, p);
            && Agreement(s') && SaneRows(s'.rows) && ClosedRowsKept(s.rows, s'.rows)
            && (forall m | IsOpen(s.cache, m) :: IsOpen(s'.cache, m) && s'.cache[m] == s.cache[m])
  {
    ApplyAgrees(s, Buy(p));
  }

  /** A verified reduction sells less than 100%, because 100% means nothing is left. */
  lemma SettlementSane(submission: Submission)
    ensures var settlement := SettlementOf(OutcomeOf(submission));
            settlement.Some? ==> settlement.value.left == 0 || settlement.value.sellPct < 100
  {
    match submission
    case NotSent =>
    case Sent(pre, readings, validSignature, polls, recheck) =>
      Sells.VerdictHasEvidence(pre, readings, validSignature, polls, recheck);
      var outcome := Sells.Verdict(pre, readings, validSignature, polls, recheck);
      if outcome.BalanceReduced? {
        Sells.SoldPctMeans(pre, outcome.postBalance);
      }
  }

  lemma StepKeepsStore(profile: TradingProfile, tiers: seq<Tier>, s: System, ev: Event)
    requires StoreInv(s) && Enabled(s, ev)
    ensures StoreInv(Step(profile, tiers, s, ev))
    ensures ClosedRowsKept(s.store.rows, Step(profile, tiers, s, ev).store.rows)
  {
    hide Agreement, SaneRows, ClosedRowsKept, Evaluate, EvaluateAll, Loaded, Settled, Cleared, FailedClosed;
    hide ListsOpenRows, ListsOpen;
    SameRowsKept(s.store.rows);
    match ev
    case PriceTick(mint, price, stale, now) => ApplyAgrees(s.store, Price(mint, price, stale, now));
    case Attempt(submission, walletSol) =>
      SettlementSane(submission);
      ApplyAgrees(s.store, RealizePnl(s.executor.mint, walletSol));
    case Settle(tx, now) => SettledKeeps(s.store, s.executor.mint, s.executor.settlement, tx, now);
    case GiveUp => ClearedKeeps(s.store, s.executor.mint);
    case CloseFailed(now) => FailedClosedKeeps(s.store, s.executor.mint, now);
    case BuyTokens(id, mint, entryPrice, entryAmount, tokenAmount, walletSolAtOpen, now) =>
      OpenedKeeps(s.store, NewPosition(profile, id, mint, entryPrice, entryAmount, tokenAmount, walletSolAtOpen, now));
    case Reboot(order) => RestartRecoversOpen(s.store, order);
    case _ =>
  }

  lemma SameRowsKept(rows: map<Id, Position>)
    ensures ClosedRowsKept(rows, rows)
  {
  }

  lemma ClosedRowsKeptTrans(a: map<Id, Position>, b: map<Id, Position>, c: map<Id, Position>)
    requires ClosedRowsKept(a, b) && ClosedRowsKept(b, c)
    ensures ClosedRowsKept(a, c)
  {
  }

  lemma {:induction false} RunKeepsStore(profile: TradingProfile, tiers: seq<Tier>, s: System, evs: seq<Event>)
    requires StoreInv(s) && ValidRun(profile, tiers, s, evs)
    ensures StoreInv(Run(profile, tiers, s, evs))
    ensures ClosedRowsKept(s.store.rows, Run(profile, tiers, s, evs).store.rows)
    decreases |evs|
  {
    hide StoreInv, ClosedRowsKept, Step, Enabled;
    if evs == [] {
      SameRowsKept(s.store.rows);
    } else {
      var s1 := Step(profile, tiers, s, evs[0]);
      StepKeepsStore(profile, tiers, s, evs[0]);
      RunKeepsStore(profile, tiers, s1, evs[1..]);
      ClosedRowsKeptTrans(s.store.rows, s1.store.rows, Run(profile, tiers, s1, evs[1..]).store.rows);
    }
  }

  lemma StartKeepsStore()
    ensures StoreInv(START)
  {
  }

  /** Closed is final: whatever happens after any run, restarts included, a record that has left
      Open keeps its row as it was closed; and only two closed statuses ever occur. */
  lemma ClosedIsFinal(profile: TradingProfile, tiers: seq<Tier>, before: seq<Event>, after: seq<Event>, id: Id)
    requires ValidRun(profile, tiers, START, before)
    requires ValidRun(profile, tiers, Run(profile, tiers, START, before), after)
    ensures var s := Run(profile, tiers, START, before);
            var s' := Run(profile, tiers, s, after);
            id in s.store.rows && s.store.rows[id].status != Open ==>
              && id in s'.store.rows && s'.store.rows[id] == s.store.rows[id]
              && s.store.rows[id].status in {ClosedManual, ClosedError}
  {
    StartKeepsStore();
    RunKeepsStore(profile, tiers, START, before);
    RunKeepsStore(profile, tiers, Run(profile, tiers, START, before), after);
  }

  /** Closed is final because a buy writes its row together with its cached entry. Were the row written
      later, after the record was closed, it would be open again, and a restart would take it up. */
  lemma LateRowRevives(s: Store, p: Position, tx: string, status: Status, now: Time, order: seq<Id>)
    requires Agreement(s) && p.status == Open && p.id !in s.rows && !IsOpen(s.cache, p.mint) && status != Open
    requires var closed := ClosedWith(s.(cache := s.cache[p.mint := p]), p.mint, tx, status, now);
             ListsOpenRows(Persisted(closed, p).rows, order)
    ensures var closed := ClosedWith(s.(cache := s.cache[p.mint := p]), p.mint, tx, status, now);
            var late := Persisted(closed, p);
            && closed.rows[p.id].status == status
            && !IsOpen(late.cache, p.mint) && late.rows[p.id].status == Open
            && IsOpen(Loaded(late.(cache := map[]), order).cache, p.mint)
    ensures var ordered := ClosedWith(Opened(s, p), p.mint, tx, status, now);
            Agreement(ordered) && ordered.rows[p.id].status == status
  {
    var late := Persisted(ClosedWith(s.(cache := s.cache[p.mint := p]), p.mint, tx, status, now), p);
    hide Agreement, Loaded, OneRowPerMint;
    ApplyAgrees(s, Buy(p));
    ApplyAgrees(Opened(s, p), Close(p.mint, tx, status, now));
    assert Opened(s, p).rows == late.rows;
    assert p.id in order && late.rows[p.id] == AsRow(p);
    hide ListsOpenRows;
    OpenRowsDistinct(Opened(s, p), order);
    LoadedExactly(late.(cache := map[]), order);
  }

  /** No sell starts, is attempted or is booked unless the record it was taken for is open. */
  lemma SellsOnlyOpenRecords(profile: TradingProfile, tiers: seq<Tier>, evs: seq<Event>, ev: Event)
    requires ValidRun(profile, tiers, START, evs)
    requires Enabled(Run(profile, tiers, START, evs), ev)
    ensures var s := Run(profile, tiers, START, evs);
            var s' := Step(profile, tiers, s, ev);
            && (!s.executor.Idle? ==>
                  var row := s.executor.id;
                  && IsOpen(s.store.cache, s.executor.mint) && s.store.cache[s.executor.mint].id == row
                  && row in s.store.rows && s.store.rows[row].status == Open)
            && (s.executor.Idle? && !s'.executor.Idle? ==> IsOpen(s.store.cache, s'.executor.mint))
  {
    StartKeepsStore();
    RunKeepsStore(profile, tiers, START, evs);
    var s := Run(profile, tiers, START, evs);
    if !s.executor.Idle? {
      OpenRow(s.store, s.executor.mint);
    }
  }

  // ---------- The sell loop is the system left alone ----------

  /** The events of one sell from the given attempt on; the error close finds its record open or not. */
  ghost function SellLoopEvents(open: bool, submissions: seq<Submission>, attempt: nat, walletSol: real, tx: string,
                                now: Time): seq<Event>
    requires attempt <= |submissions|
    decreases |submissions| - attempt
  {
    if attempt == |submissions| then if open then [GiveUp, CloseFailed(now)] else [GiveUp]
    else
      [Attempt(submissions[attempt], walletSol)] +
      (if SettlementOf(OutcomeOf(submissions[attempt])).Some? then [Settle(tx, now)]
       else SellLoopEvents(open, submissions, attempt + 1, walletSol, tx, now))
  }

  lemma RunOne(profile: TradingProfile, tiers: seq<Tier>, s: System, ev: Event)
    requires Enabled(s, ev)
    ensures ValidRun(profile, tiers, s, [ev]) && Run(profile, tiers, s, [ev]) == Step(profile, tiers, s, ev)
  {
    var evs := [ev];
    assert evs[0] == ev && evs[1..] == [];
    assert ValidRun(profile, tiers, Step(profile, tiers, s, ev), evs[1..]);
    assert Run(profile, tiers, Step(profile, tiers, s, ev), evs[1..]) == Step(profile, tiers, s, ev);
  }

  /** Run without interruption, the steps of one sell do what the sell loop does. */
  lemma {:induction false} UninterruptedSell(profile: TradingProfile, tiers: seq<Tier>, s: System,
                                             submissions: seq<Submission>,
                                             attempt: nat, walletSol: real, tx: string, now: Time)
    requires |submissions| == MAX_ATTEMPTS && attempt <= MAX_ATTEMPTS
    requires s.executor.Selling? && s.executor.failures == attempt && 1 <= s.executor.pct <= 100
    ensures var evs := SellLoopEvents(IsOpen(s.store.cache, s.executor.mint), submissions, attempt, walletSol, tx, now);
            && ValidRun(profile, tiers, s, evs)
            && Run(profile, tiers, s, evs).store
               == SellFrom(s.store, s.executor.mint, submissions, attempt, walletSol, tx, now)
            && Run(profile, tiers, s, evs).executor == Idle
    decreases MAX_ATTEMPTS - attempt
  {
    hide Settled, FailedClosed, Cleared, Realized, OutcomeOf, SettlementOf;
    var open := IsOpen(s.store.cache, s.executor.mint);
    var evs := SellLoopEvents(open, submissions, attempt, walletSol, tx, now);
    if attempt == MAX_ATTEMPTS && open {
      assert evs[1..] == [CloseFailed(now)];
      RunOne(profile, tiers, Step(profile, tiers, s, GiveUp), CloseFailed(now));
    } else if attempt == MAX_ATTEMPTS {
      RunOne(profile, tiers, s, GiveUp);
    } else {
      var s1 := Step(profile, tiers, s, evs[0]);
      if SettlementOf(OutcomeOf(submissions[attempt])).Some? {
        assert evs[1..] == [Settle(tx, now)];
        RunOne(profile, tiers, s1, Settle(tx, now));
      } else {
        assert evs[1..] == SellLoopEvents(open, submissions, attempt + 1, walletSol, tx, now);
        UninterruptedSell(profile, tiers, s1, submissions, attempt + 1, walletSol, tx, now);
      }
    }
  }
}
