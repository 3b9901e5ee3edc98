/** What the PnL columns of closed rows show. */
module PnlRows {
  import opened Options
  import opened TradingProfiles
  import opened Positions
  import opened PositionStore
  import opened TpSl
  import opened Pipeline
  import opened PipelineRuns

  // ---------- PnL in SOL and in percent ----------

  /** No PnL in SOL means none in percent. */
  predicate Paired(p: Position) {
    p.entryPrice > 0.0 && p.pnlSol == 0.0 ==> p.pnlPct == 0.0
  }

  ghost predicate CachePaired(cache: map<Mint, Position>) {
    forall m | IsOpen(cache, m) :: Paired(cache[m])
  }

  predicate RowSane(row: Position) {
    row.status == Open ==> Paired(row)
  }

  ghost predicate RowsPaired(rows: map<Id, Position>) {
    forall id | id in rows :: RowSane(rows[id])
  }

  ghost predicate PnlInv(s: System) {
    StoreInv(s) && CachePaired(s.store.cache) && RowsPaired(s.store.rows)
  }

  lemma ZeroProduct(a: real, b: real)
    ensures b > 0.0 && a * b == 0.0 ==> a == 0.0
  {
  }

  lemma RepricedPaired(p: Position, price: real, stale: bool, now: Time)
    requires Paired(p) && p.tokenAmount > 0.0
    ensures Paired(Repriced(p, price, stale, now))
  {
    ZeroProduct(price - p.entryPrice, p.tokenAmount);
  }

  lemma RealizedPaired(p: Position, walletSol: real)
    requires Paired(p)
    ensures Paired(WithRealizedPnl(p, walletSol))
  {
  }

  lemma WrittenPaired(s: Store, mint: Mint, p: Position)
    requires CachePaired(s.cache) && RowsPaired(s.rows) && RowSane(p)
    ensures CachePaired(Written(s, mint, p).cache) && RowsPaired(Written(s, mint, p).rows)
  {
  }

  lemma SettledPaired(s: Store, mint: Mint, settlement: Settlement, tx: string, now: Time)
    requires Agreement(s) && SaneRows(s.rows) && IsOpen(s.cache, mint) && CachePaired(s.cache) && RowsPaired(s.rows)
    requires settlement.left == 0 || settlement.sellPct < 100
    ensures var s' := Settled(s, mint, settlement, tx, now); CachePaired(s'.cache) && RowsPaired(s'.rows)
  {
    hide Agreement, SaneRows, CachePaired, RowsPaired, AfterSale;
    var p := s.cache[mint];
    OpenHolds(s, mint);
    PairedAt(s.cache, mint);
    if settlement.left == 0 {
      WrittenPaired(s, mint, p.(status := ClosedManual, sellTx := Some(tx), closedAt := Some(now)));
    } else {
      ReductionStaysOpen(p, settlement.sellPct, tx, now);
      WrittenPaired(s, mint, AfterSale(p, settlement.sellPct, tx, now));
    }
  }

  lemma PairedAt(cache: map<Mint, Position>, mint: Mint)
    requires CachePaired(cache) && IsOpen(cache, mint)
    ensures Paired(cache[mint])
  {
  }

  lemma ClearedPaired(s: Store, mint: Mint)
    requires CachePaired(s.cache)
    ensures CachePaired(Cleared(s, mint).cache)
  {
  }

  lemma FailedClosedPaired(s: Store, mint: Mint, now: Time)
    requires mint in s.cache && CachePaired(s.cache) && RowsPaired(s.rows)
    ensures var s' := FailedClosed(s, mint, now); CachePaired(s'.cache) && RowsPaired(s'.rows)
  {
    var closed := s.cache[mint].(status := ClosedError, sellTx := Some("sell_failed"), closedAt := Some(now));
    WrittenPaired(s, mint, closed);
  }

  lemma StepKeepsPnl(profile: TradingProfile, tiers: seq<Tier>, s: System, ev: Event)
    requires PnlInv(s) && Enabled(s, ev)
    ensures PnlInv(Step(profile, tiers, s, ev))
  {
    StepKeepsStore(profile, tiers, s, ev);
    hide StoreInv, CachePaired, RowsPaired, Paired, Ticked, Realized, Settled, Cleared, FailedClosed, Loaded;
    hide Evaluate, EvaluateAll, ListsOpen, ListsOpenRows, OutcomeOf;
    match ev
    case PriceTick(mint, price, stale, now) => TickedPaired(s, mint, price, stale, now);
    case Attempt(_, walletSol) => RealizedStorePaired(s, walletSol);
    case Settle(tx, now) =>
      HeldOpen(s);
      SettledPaired(s.store, s.executor.mint, s.executor.settlement, tx, now);
    case GiveUp => ClearedPaired(s.store, s.executor.mint);
    case CloseFailed(now) =>
      HeldOpen(s);
      FailedClosedPaired(s.store, s.executor.mint, now);
    case BuyTokens(id, mint, entryPrice, entryAmount, tokenAmount, walletSolAtOpen, now) =>
      BoughtPaired(s.store, NewPosition(profile, id, mint, entryPrice, entryAmount, tokenAmount, walletSolAtOpen, now));
    case Reboot(order) => LoadedPaired(s, order);
    case _ =>
  }

  lemma TickedPaired(s: System, mint: Mint, price: real, stale: bool, now: Time)
    requires StoreInv(s) && CachePaired(s.store.cache)
    ensures CachePaired(Ticked(s.store, mint, price, stale, now).cache)
  {
    hide StoreInv, Paired, Repriced;
    RepricedStatus(s.store, mint, price, stale, now);
    if IsOpen(s.store.cache, mint) {
      HoldsOf(s, mint);
      RepricedPaired(s.store.cache[mint], price, stale, now);
    }
  }

  lemma RealizedStorePaired(s: System, walletSol: real)
    requires StoreInv(s) && !s.executor.Idle? && CachePaired(s.store.cache)
    ensures CachePaired(Realized(s.store, s.executor.mint, walletSol).cache)
  {
    hide StoreInv, Paired;
    HeldOpen(s);
    RealizedPaired(s.store.cache[s.executor.mint], walletSol);
  }

  lemma RepricedStatus(s: Store, mint: Mint, price: real, stale: bool, now: Time)
    ensures mint in s.cache ==> Repriced(s.cache[mint], price, stale, now).status == s.cache[mint].status
  {
  }

  lemma HoldsOf(s: System, mint: Mint)
    requires StoreInv(s) && IsOpen(s.store.cache, mint)
    ensures s.store.cache[mint].tokenAmount > 0.0
  {
    OpenHolds(s.store, mint);
  }

  lemma HeldOpen(s: System)
    requires StoreInv(s) && !s.executor.Idle?
    ensures IsOpen(s.store.cache, s.executor.mint) && Agreement(s.store) && SaneRows(s.store.rows)
    ensures s.executor.Settling? ==> s.executor.settlement.left == 0 || s.executor.settlement.sellPct < 100
  {
  }

  lemma HeldFiled(s: System)
    requires StoreInv(s) && !s.executor.Idle?
    ensures s.store.cache[s.executor.mint].id == s.executor.id && s.store.cache[s.executor.mint].mint == s.executor.mint
  {
  }

  lemma BoughtPaired(s: Store, p: Position)
    requires CachePaired(s.cache) && RowsPaired(s.rows) && p.status == Open && Paired(p)
    ensures CachePaired(Opened(s, p).cache) && RowsPaired(Opened(s, p).rows)
  {
    hide Paired;
    if !IsOpen(s.cache, p.mint) {
      WrittenPaired(s, p.mint, p);
    }
  }

  lemma LoadedPaired(s: System, order: seq<Id>)
    requires PnlInv(s) && Enabled(s, Reboot(order))
    ensures var s' := Loaded(s.store.(cache := map[]), order); CachePaired(s'.cache) && s'.rows == s.store.rows
  {
    hide Loaded, SaneRows;
    RestartRecoversOpen(s.store, order);
    var s' := Loaded(s.store.(cache := map[]), order);
    forall m | IsOpen(s'.cache, m)
      ensures Paired(s'.cache[m])
    {
      OpenRow(s.store, m);
      assert RowSane(s.store.rows[s.store.cache[m].id]);
    }
  }

  lemma {:induction false} RunKeepsPnl(profile: TradingProfile, tiers: seq<Tier>, s: System, evs: seq<Event>)
    requires PnlInv(s) && ValidRun(profile, tiers, s, evs)
    ensures PnlInv(Run(profile, tiers, s, evs))
    decreases |evs|
  {
    if evs != [] {
      hide PnlInv, Step, Enabled;
      StepKeepsPnl(profile, tiers, s, evs[0]);
      RunKeepsPnl(profile, tiers, Step(profile, tiers, s, evs[0]), evs[1..]);
    }
  }

  // ---------- What a row shows once its record is booked ----------

  /** Reprices the mint with a fresh price. */
  predicate FreshTick(ev: Event, mint: Mint) {
    ev.PriceTick? && ev.mint == mint && !ev.stale
  }

  /** The last fresh price for the mint. */
  function LastFresh(evs: seq<Event>, mint: Mint): Option<real> {
    if evs == [] then None
    else
      var later := LastFresh(evs[1..], mint);
      if later.Some? then later else if FreshTick(evs[0], mint) then Some(evs[0].price) else None
  }

  /** The gain on paper at a price. */
  function Paper(entryPrice: real, tokenAmount: real, price: real): real {
    (price - entryPrice) * tokenAmount
  }

  /** The PnL shown after the last fresh price, if there was any. */
  function Shown(pnlSol: real, entryPrice: real, tokenAmount: real, last: Option<real>): real {
    if last.Some? then Paper(entryPrice, tokenAmount, last.value) else pnlSol
  }

  /** The executor is about to book a sale, or the failure of one. */
  predicate Booking(e: Executor) {
    e.Settling? || e.Failing?
  }

  /** It waits to do so for an open record with the given numbers. */
  ghost predicate WaitsToBook(s: System, mint: Mint, executor: Executor, entryPrice: real, tokenAmount: real,
                              pnlSol: real) {
    && StoreInv(s)
    && s.executor == executor && Booking(executor) && executor.mint == mint
    && s.store.cache[mint].entryPrice == entryPrice && s.store.cache[mint].tokenAmount == tokenAmount
    && s.store.cache[mint].pnlSol == pnlSol
  }

  lemma RepricedShows(p: Position, price: real, stale: bool, now: Time)
    ensures var q := Repriced(p, price, stale, now);
            && q.entryPrice == p.entryPrice && q.tokenAmount == p.tokenAmount
            && q.pnlSol == if stale then p.pnlSol else Paper(p.entryPrice, p.tokenAmount, price)
  {
  }

  /** Neither a booking nor a restart. */
  predicate Meanwhile(ev: Event) {
    !ev.Settle? && !ev.CloseFailed? && !ev.Reboot?
  }

  lemma WaitingStep(profile: TradingProfile, tiers: seq<Tier>, s: System, ev: Event, mint: Mint, executor: Executor,
                    entryPrice: real, tokenAmount: real, pnlSol: real)
    requires WaitsToBook(s, mint, executor, entryPrice, tokenAmount, pnlSol) && Enabled(s, ev) && Meanwhile(ev)
    ensures var shown := if FreshTick(ev, mint) then Paper(entryPrice, tokenAmount, ev.price) else pnlSol;
            WaitsToBook(Step(profile, tiers, s, ev), mint, executor, entryPrice, tokenAmount, shown)
  {
    StepKeepsStore(profile, tiers, s, ev);
    hide StoreInv, Evaluate, EvaluateAll, Commands, ListsOpen, OutcomeOf, Paper, Repriced, Requests;
    HeldOpen(s);
    HeldFiled(s);
    if ev.PriceTick? {
      RepricedShows(s.store.cache[mint], ev.price, ev.stale, ev.now);
    }
  }

  lemma {:induction false} WaitingRun(profile: TradingProfile, tiers: seq<Tier>, s: System, evs: seq<Event>, mint: Mint,
                                      executor: Executor, entryPrice: real, tokenAmount: real, pnlSol: real)
    requires WaitsToBook(s, mint, executor, entryPrice, tokenAmount, pnlSol)
    requires ValidRun(profile, tiers, s, evs) && forall ev | ev in evs :: Meanwhile(ev)
    ensures WaitsToBook(Run(profile, tiers, s, evs), mint, executor, entryPrice, tokenAmount,
                        Shown(pnlSol, entryPrice, tokenAmount, LastFresh(evs, mint)))
    decreases |evs|
  {
    if evs != [] {
      hide WaitsToBook, Step, Enabled, FreshTick, Paper, Meanwhile;
      assert evs[0] in evs && forall ev | ev in evs[1..] :: ev in evs;
      WaitingStep(profile, tiers, s, evs[0], mint, executor, entryPrice, tokenAmount, pnlSol);
      var shown := if FreshTick(evs[0], mint) then Paper(entryPrice, tokenAmount, evs[0].price) else pnlSol;
      WaitingRun(profile, tiers, Step(profile, tiers, s, evs[0]), evs[1..], mint, executor, entryPrice, tokenAmount,
                 shown);
    }
  }

  lemma BookedRowShows(profile: TradingProfile, tiers: seq<Tier>, s: System, mint: Mint, id: Id, settlement: Settlement,
                       entryPrice: real, tokenAmount: real, pnlSol: real, tx: string, now: Time)
    requires WaitsToBook(s, mint, Settling(mint, id, settlement), entryPrice, tokenAmount, pnlSol)
    ensures Enabled(s, Settle(tx, now))
    ensures var rows := Step(profile, tiers, s, Settle(tx, now)).store.rows;
            && id in rows && rows[id].pnlSol == pnlSol
            && rows[id].status == if settlement.left == 0 then ClosedManual else Open
  {
    hide StoreInv, Agreement, SaneRows, AmountAfter;
    HeldOpen(s);
    HeldFiled(s);
    OpenHolds(s.store, mint);
    if settlement.left > 0 {
      ReductionStaysOpen(s.store.cache[mint], settlement.sellPct, tx, now);
    }
  }

  lemma AttemptWaits(profile: TradingProfile, tiers: seq<Tier>, s: System, submission: Submission, walletSol: real)
    requires StoreInv(s) && Enabled(s, Attempt(submission, walletSol)) && IsOpen(s.store.cache, s.executor.mint)
    requires SettlementOf(OutcomeOf(submission)).Some?
    ensures var p := s.store.cache[s.executor.mint];
            WaitsToBook(Step(profile, tiers, s, Attempt(submission, walletSol)), s.executor.mint,
                        Settling(s.executor.mint, s.executor.id, SettlementOf(OutcomeOf(submission)).value),
                        p.entryPrice, p.tokenAmount, WithRealizedPnl(p, walletSol).pnlSol)
  {
    StepKeepsStore(profile, tiers, s, Attempt(submission, walletSol));
    hide StoreInv, OutcomeOf;
  }

  /** Whatever runs between a verified sale and its booking, the row shows the wallet's gain since the
      buy exactly when no fresh price for the mint came in between, or the gain on paper at the last
      one happens to be the same. */
  lemma RealizedPnlReachesRowIff(profile: TradingProfile, tiers: seq<Tier>, s: System, submission: Submission,
                                 walletSol: real, between: seq<Event>, tx: string, now: Time)
    requires StoreInv(s) && Enabled(s, Attempt(submission, walletSol))
    requires SettlementOf(OutcomeOf(submission)).Some?
    requires ValidRun(profile, tiers, Step(profile, tiers, s, Attempt(submission, walletSol)), between)
    requires forall ev | ev in between :: Meanwhile(ev)
    ensures var p, id := s.store.cache[s.executor.mint], s.executor.id;
            var s' := Run(profile, tiers, Step(profile, tiers, s, Attempt(submission, walletSol)), between);
            && Enabled(s', Settle(tx, now))
            && var rows, last := Step(profile, tiers, s', Settle(tx, now)).store.rows, LastFresh(between, p.mint);
            && id in rows
            && (rows[id].status == ClosedManual <==> SettlementOf(OutcomeOf(submission)).value.left == 0)
            && rows[id].pnlSol == Shown(WithRealizedPnl(p, walletSol).pnlSol, p.entryPrice, p.tokenAmount, last)
            && (p.walletSolAtOpen > 0.0 ==>
                  (rows[id].pnlSol == walletSol - p.walletSolAtOpen <==>
                   last == None || Paper(p.entryPrice, p.tokenAmount, last.value) == walletSol - p.walletSolAtOpen))
  {
    hide StoreInv, OutcomeOf, SettlementOf, Step, Paper;
    HeldOpen(s);
    HeldFiled(s);
    var mint, id, p := s.executor.mint, s.executor.id, s.store.cache[s.executor.mint];
    var settlement := SettlementOf(OutcomeOf(submission)).value;
    var s1 := Step(profile, tiers, s, Attempt(submission, walletSol));
    var booked := WithRealizedPnl(p, walletSol).pnlSol;
    AttemptWaits(profile, tiers, s, submission, walletSol);
    WaitingRun(profile, tiers, s1, between, mint, Settling(mint, id, settlement), p.entryPrice, p.tokenAmount, booked);
    BookedRowShows(profile, tiers, Run(profile, tiers, s1, between), mint, id, settlement, p.entryPrice, p.tokenAmount,
                   Shown(booked, p.entryPrice, p.tokenAmount, LastFresh(between, mint)), tx, now);
  }

  lemma FailedRowShows(profile: TradingProfile, tiers: seq<Tier>, s: System, mint: Mint, id: Id,
                       entryPrice: real, tokenAmount: real, pnlSol: real, now: Time)
    requires WaitsToBook(s, mint, Failing(mint, id), entryPrice, tokenAmount, pnlSol)
    ensures Enabled(s, CloseFailed(now))
    ensures var p := s.store.cache[mint];
            var row := AsRow(p.(status := ClosedError, sellTx := Some("sell_failed"), closedAt := Some(now)));
            && var rows := Step(profile, tiers, s, CloseFailed(now)).store.rows;
            && id in rows && rows[id] == row && row.pnlSol == pnlSol && row.entryPrice == entryPrice
  {
    hide StoreInv;
    HeldOpen(s);
    HeldFiled(s);
  }

  lemma GiveUpWaits(profile: TradingProfile, tiers: seq<Tier>, s: System)
    requires StoreInv(s) && Enabled(s, GiveUp)
    ensures IsOpen(s.store.cache, s.executor.mint)
    ensures var p := s.store.cache[s.executor.mint];
            WaitsToBook(Step(profile, tiers, s, GiveUp), s.executor.mint, Failing(s.executor.mint, s.executor.id),
                        p.entryPrice, p.tokenAmount, 0.0)
  {
    StepKeepsStore(profile, tiers, s, GiveUp);
    HeldOpen(s);
    hide StoreInv;
  }

  lemma PaperZeroIff(entryPrice: real, tokenAmount: real, price: real)
    requires tokenAmount > 0.0
    ensures Paper(entryPrice, tokenAmount, price) == 0.0 <==> price == entryPrice
  {
    ZeroProduct(price - entryPrice, tokenAmount);
  }

  /** Whatever runs between the lock section that clears the PnL of a record whose sell failed and the one
      that closes it, its row shows no PnL exactly when no fresh price for the mint came in between, or
      the last one is the entry price; and then it shows none in percent either. */
  lemma ErrorRowShowsNoPnlIff(profile: TradingProfile, tiers: seq<Tier>, before: seq<Event>, between: seq<Event>,
                               now: Time)
    requires ValidRun(profile, tiers, START, before) && Enabled(Run(profile, tiers, START, before), GiveUp)
    requires ValidRun(profile, tiers, Step(profile, tiers, Run(profile, tiers, START, before), GiveUp), between)
    requires forall ev | ev in between :: Meanwhile(ev)
    ensures var s := Run(profile, tiers, START, before);
            && s.executor.mint in s.store.cache
            && var p, id := s.store.cache[s.executor.mint], s.executor.id;
            && var s' := Run(profile, tiers, Step(profile, tiers, s, GiveUp), between);
            && Enabled(s', CloseFailed(now))
            && var rows := Step(profile, tiers, s', CloseFailed(now)).store.rows;
            && var last := LastFresh(between, s.executor.mint);
            && id in rows && rows[id].status == ClosedError
            && rows[id].pnlSol == Shown(0.0, p.entryPrice, p.tokenAmount, last)
            && (rows[id].pnlSol == 0.0 <==> last == None || last == Some(p.entryPrice))
            && (rows[id].pnlSol == 0.0 && p.entryPrice > 0.0 ==> rows[id].pnlPct == 0.0)
  {
    StartKeepsStore();
    RunKeepsPnl(profile, tiers, START, before);
    var s := Run(profile, tiers, START, before);
    var s1 := Step(profile, tiers, s, GiveUp);
    StepKeepsPnl(profile, tiers, s, GiveUp);
    RunKeepsPnl(profile, tiers, s1, between);
    GiveUpWaits(profile, tiers, s);
    HoldsOf(s, s.executor.mint);
    hide StoreInv, Step, Paper, Run, ValidRun, Paired;
    var p, mint, id := s.store.cache[s.executor.mint], s.executor.mint, s.executor.id;
    var last := LastFresh(between, mint);
    WaitingRun(profile, tiers, s1, between, mint, Failing(mint, id), p.entryPrice, p.tokenAmount, 0.0);
    var s' := Run(profile, tiers, s1, between);
    FailedRowShows(profile, tiers, s', mint, id, p.entryPrice, p.tokenAmount,
                   Shown(0.0, p.entryPrice, p.tokenAmount, last), now);
    HeldOpen(s');
    PairedAt(s'.store.cache, mint);
    PairedZero(s'.store.cache[mint]);
    if last.Some? {
      PaperZeroIff(p.entryPrice, p.tokenAmount, last.value);
    }
  }

  lemma PairedZero(p: Position)
    requires Paired(p)
    ensures p.entryPrice > 0.0 && p.pnlSol == 0.0 ==> p.pnlPct == 0.0
  {
  }
}
