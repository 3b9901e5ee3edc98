# A verified model of a Solana trading bot

This project models the parts of the bot that decide and keep books, and proves what they keep over
all inputs and all runs. `dafny verify dfyconfig.toml` checks everything.

| file | what it models |
|---|---|
| `MachineInts.dfy`, `Options.dfy` | fixed-width integers, facts about quotients, optional values |
| `Amm.dfy` | constant-product swap quotes: the Pump.fun bonding curve and the Raydium pool |
| `RateLimit.dfy` | the token-bucket rate limiter with lazy reclamation of idle buckets |
| `DedupQueue.dfy`, `Detector.dfy` | the dedup queues and the hybrid merge engine, as classes and as one transition function |
| `DetectorRuns.dfy`, `DetectorTokens.dfy` | runs of the merge engine: isolation, spacing, conservation, provenance |
| `DetectorAnswers.dfy` | what every arrival and timeout leads to, told by the history alone |
| `Positions.dfy` | trading profiles, positions, and the position manager with its cache and database rows |
| `TpSl.dfy` | the take-profit / stop-loss monitor and its tiers |
| `Sells.dfy`, `SaleBooks.dfy` | sell amounts, verification of a sell, slippage escalation; booking sales against the tracked amount |
| `ExitRules.dfy`, `ExitRuns.dfy`, `ExitRequests.dfy` | when each exit is due, that exactly the due ones are sent, and what is requested for them |
| `Pipeline.dfy` | the command processor, the sell loop, and the whole exit pipeline as a step system |
| `PipelineRuns.dfy`, `ExitOrder.dfy`, `StaleRuns.dfy`, `PnlRows.dfy` | what the pipeline keeps in every interleaving, restarts included |
| `SellOutcomes.dfy` | what the sell loop makes of a position, by the outcomes of its attempts |
| `RecordRuns.dfy` | what a record carries from its buy on, and what prices make of it |
| `RecordTiers.dfy` | which tiers go off for one record, and what its trailing stop waits for |
| `ChainCoverage.dfy`, `FullCloses.dfy`, `RequestOrigins.dfy` | the pipeline with the chain balance, and with the origin of each request, carried beside it |
| `ConcreteRuns.dfy` | concrete runs from the start state that show where a condition is needed |
| `SolTrend.dfy` | the sliding window of SOL price samples |
| `ByteCodec.dfy`, `TokenMetadata.dfy` | length-prefixed decoding, the Pump.fun create instruction, the Metaplex metadata walk |

Code that works in place is a class (`RateLimiter`, `DeduplicationQueue`, `DetectorEngine`,
`PositionManager`, `TpSlMonitor`, `SellExecutor`, `SolTrendTracker`) whose methods are proved against
functions on values; the properties over runs are proved about those functions. Clock readings, RPC
answers, channel deliveries, the iteration order of hash maps and the row order of SQL queries are
parameters. A theorem that does not hold for all of their values states the condition it needs: clocks
that never run backwards, balance readings that lag but do not invent tokens, and, for the tracked
amount to cover the chain, a balance before each sell that passes a check against the books.

## What turned out

- The quotes subtract a floored quotient and so round the output **up**. Selling back what a Raydium
  buy returned can pay more than it cost; it never does exactly when the buy leaves no token or at
  least 399 of them in the pool (`RoundTripSafeIff`).
- The limiter's window bound holds on all runs exactly when a full bucket refills within the idle time
  (`RateBoundedIff`), and then it is all there is: a call is denied only if it would break the bound in
  some window that ends with it (`AllowedIff`). Dropping idle buckets is unobservable exactly when at most
  64 keys call, a full bucket refills within the idle time, or the capacity is zero (`SweepUnobservableIff`).
- The trailing stop waits for the first take-profit tier in every mode for records opened in this process
  whose PnL no sale has rewritten and no failed one cleared (`TrailingFollowsFirstTier`). Over all runs
  from the start and all records it does so exactly in scalp mode (`TrailingAlwaysWaitsIff`): in the two
  other modes all three exclusions are needed, as runs with a rewritten PnL (`RewrittenPnlTrailsEarly`),
  with a cleared one (`ClearedPnlTrailsEarly`) and through a restart (`RestoredTrailsEarly`) show.
- Tier marks are kept by mint and cleared only by the monitor's own pass. The tiers sent for a record follow the
  ones marked when it is bought (`RecordTiersInOrder`), so it can take its own first tier exactly when none is
  marked then (`OwnFirstTierIff`), and its trailing stop then waits for that tier (`TrailingFollowsOwnTier`).
  A pass after the close clears the marks (`ClearedBeforeBuy`); without one the next record can trail with no tier
  ever sent for it (`InheritedMarksTrail`).
- The tracked amount of a position covers the chain as long as the balance read before every verified sell
  passes a check against it (`TrackedCoversChainInRuns`): keeping any of 1 to 99 percent of the tracked
  amount must cover the balance that those percent can stand for (`PreCovered`). That check is exact
  (`AttemptsSafeIff`); a balance not above the tracked amount always passes (`WithinPasses`), and one
  divisible by 2 or 5 passes only so once a whole unit is tracked (`SafePreWithinIff`). The balance before a
  sell comes from the same RPC call as the readings after it and may lag as they do; then coverage can be lost
  (`StaleBalanceLosesCoverage`: 100 bought, 50 left, 25 tracked).
- A sell whose signature is confirmed while its readings still show the old balance is booked as a full sale,
  whatever share it asked for. Closes as ClosedManual leave nothing on the chain exactly when the amount asked for
  covers the chain, that is, from an up-to-date balance, when all of it is sold (`FullSalesEmptyIff`,
  `ClosedManualLeavesNothing`); `ConfirmedHalfClosesAll` closes with 50 of 100 tokens left there.
- Commands and requests carry only the mint, so a request can sell a record bought after it was raised
  (`RequestOutlivesRecord`). After any run a buy that opens a mint is harmless, in that however the run goes
  on up to the next such buy every sell of the mint serves the record that was open when it was requested,
  exactly when no command and no request for the mint is queued at the buy (`BuyHarmlessIff`).
- src/executor/mod.rs:1015-1016 writes the realized PnL before the booking so that the row shows it. The row
  does exactly when no fresh price for the mint comes in between, or the gain on paper at the last one
  happens to be the same (`RealizedPnlReachesRowIff`); `ClosedRowShowsPaperGain` is a run in which a close
  that realized 0.5 SOL shows 20.
- src/executor/positions.rs:283-287 says that a failed sell clears the PnL so that no paper gain is shown. The
  clearing and the close take the lock one after the other. The row shows no PnL exactly when no fresh price for
  the mint comes in between, or the last one is the entry price (`ErrorRowShowsNoPnlIff`);
  `ErrorRowShowsPaperGain` is a run whose failed sell shows a gain of 20.
- The comments in src/executor/tp_sl.rs:237-244 and src/executor/positions.rs:278-281 speak of sells
  that end as ClosedTp or ClosedSl. In the code a complete sell always ends as ClosedManual, and the
  branch that sets ClosedTp on a reduction is never reached from the sell paths; the model follows
  the code (`ClosedIsFinal`, `ReductionStaysOpen`).
- The comment in src/detector/mod.rs:243-247 says that PumpPortal wins ties for `metadata_uri`; the code
  (src/detector/mod.rs:430-433) keeps the first one present, so the order of arrival decides. It also says
  to prefer PumpPortal's liquidity and market cap; one that PumpPortal reports as zero leaves the order of
  arrival to decide. Fields the comment does not name come from the first arrival
  (`MergeOrderIndependentIff`).

## Model

| member | source | states |
|---|---|---|
| `Amm.NewReserve` | src/executor/raydium.rs:314-320 | the reserve that keeps the product, in 128 bits without overflow; never above the old reserve, so neither the saturating subtraction nor the `unwrap_or` of the quotes is ever needed |
| `Amm.CalculateBondingCurvePrice` | src/executor/pumpfun_buy.rs:88-110 | the payout is the exact share T·a/(S+a) rounded up, for all 64-bit inputs; zero on an empty SOL side |
| `Amm.QuoteBuyExactIn` | src/executor/raydium.rs:305-321 | the payout is ⌈T·a/(S+a)⌉ for the after-fee input a, in every branch, and never more than the reserve |
| `Amm.QuoteSellExactIn` | src/executor/raydium.rs:324-337 | the mirror statement for selling tokens |
| `Amm.BuyQuoteIsBondingCurvePriceAfterFee` | src/executor/raydium.rs:305-321 | the Raydium buy quote is the bonding-curve price of the input after the floored fee, on all inputs |
| `Amm.SellQuoteMirrorsBuyQuote` | src/executor/raydium.rs:324-337 | selling is buying in the pool with exchanged reserves |
| `Amm.BuyQuoteLeast` | src/executor/raydium.rs:305-321 | the payout is the least q with q·(S+a) ≥ T·a |
| `Amm.BuyQuoteMonotone` | src/executor/raydium.rs:305-321 | the buy quote grows with the input and the token reserve and shrinks with the SOL reserve |
| `Amm.SellQuoteMonotone` | src/executor/raydium.rs:324-337 | the sell quote grows with the input and the SOL reserve and shrinks with the token reserve |
| `Amm.BuyDrainsPoolIff` | src/executor/raydium.rs:305-321 | a buy empties the token side if and only if the after-fee input exceeds S·(T−1) |
| `Amm.OrderSplitting` | src/executor/pumpfun_buy.rs:88-110 | n successive buys on updated reserves yield at least the single buy of the total and at most n−1 units more |
| `Amm.OrderSplittingBoundIsTight` | src/executor/pumpfun_buy.rs:88-110 | the upper bound is met for every n by one-lamport orders in a deep pool |
| `Amm.NoProfitIfEnoughLeft` | src/executor/raydium.rs:305-337 | buying and selling back on the updated reserves never pays more than it cost once 399 units are left |
| `Amm.RoundTripSafeIff` | src/executor/raydium.rs:595-607 | no round trip that leaves `left` units profits, over all pools and amounts, if and only if left is 0 or at least 399 |
| `RateLimit.RateLimiter.TryAcquire` | src/security/ratelimit.rs:57-89 | sweep, refill, cap and take, in place, are one step on the bucket map and its answer, which `AllowedIff` characterises |
| `RateLimit.AllowedIff` | src/security/ratelimit.rs:57-89 | in every run of a limiter that refills within the idle time a call at e is allowed if and only if for every s ≤ e the calls of its key let through since s and this one are at most capacity + refill·(e−s), whatever other keys do and whenever the sweep runs |
| `RateLimit.RunAgrees` | src/security/ratelimit.rs:57-89 | on every run with any keys and sweeps the map answers a key as one bucket of its own would |
| `RateLimit.SweepIsUnobservable` | src/security/ratelimit.rs:68-81 | the answers for a key depend only on that key's own calls, as if nothing was ever reclaimed |
| `RateLimit.SweepUnobservableIff` | src/security/ratelimit.rs:68-81 | that holds on all runs with at most n keys if and only if n ≤ 64, the capacity is zero, or capacity ≤ 3600·refill |
| `RateLimit.SoloWindow` | src/security/ratelimit.rs:57-89 | the calls a bucket allows from its last refill to e are at most its tokens + refill·(e−last), and in any later window at most capacity + refill·(e−s) |
| `RateLimit.RateBound` | src/security/ratelimit.rs:57-89 | if capacity ≤ 3600·refill, at most capacity + refill·(e−s) calls of any one key pass between s and e, over every run |
| `RateLimit.RateBoundedIff` | src/security/ratelimit.rs:57-89 | that bound holds on all runs if and only if capacity ≤ 3600·refill |
| `RateLimit.TelegramRateBound` | src/telegram/mod.rs:89 | the bound for the configured limiter: at most 5 + (e−s) commands per chat |
| `DedupQueue.DeduplicationQueue.Insert` | src/detector/queue.rs:27-38 | reports new exactly when the mint is not live, and records it exactly then |
| `DedupQueue.CleanupUnobservable` | src/detector/queue.rs:50-54 | after a cleanup no later call answers differently, and exactly the live mints remain |
| `DedupQueue.InsertKeepsSameAnswers` | src/detector/queue.rs:27-54 | two queues no later call can tell apart stay so under the same insertion |
| `Detector.DetectorEngine.Receive` | src/detector/mod.rs:283-345 | handling one arrival in place is the specified transition: migration fast path, dedup skip, merge, first source |
| `Detector.DetectorEngine.WindowExpired` | src/detector/mod.rs:347-384 | emitting the expired entries in any order is the specified transition |
| `Detector.DetectorEngine.EmitToken` | src/detector/mod.rs:437-444 | a token goes out unless its mint is live in the given queue |
| `DetectorRuns.StepKeepsInv` | src/detector/mod.rs:259-385 | every event keeps: pending entries are newborns under their own mint, none live in the newborn queue |
| `DetectorRuns.NothingRefused` | src/detector/mod.rs:437-444 | whatever is handed to emission goes out, once, in its own namespace: the refusal branch is never taken |
| `DetectorRuns.TimeoutClearsWindow` | src/detector/mod.rs:347-374 | after a timeout no pending entry is older than the merge window and the others are untouched |
| `DetectorRuns.NewbornsIgnoreMigrations` | src/detector/mod.rs:259-385 | erasing all migration events from a run leaves the newborn outputs unchanged |
| `DetectorRuns.MigrationsIgnoreNewborns` | src/detector/mod.rs:259-385 | erasing all newborn arrivals and timeouts leaves the migration outputs unchanged |
| `DetectorRuns.MarkerSeparatesOutputs` | src/detector/mod.rs:296-309 | over every run an output carries the migration marker exactly when it is a migration output |
| `DetectorRuns.EmissionSpacing` | src/detector/queue.rs:27-54 | in each namespace two emissions of one mint are at least the time-to-live apart, on every run |
| `DetectorAnswers.MigrationAnswer` | src/detector/mod.rs:292-313 | after any run a migration goes out exactly as it came, at once, unless its mint went out as one within the last 300 seconds; it touches nothing else |
| `DetectorAnswers.NewbornAnswer` | src/detector/mod.rs:315-345 | after any run a newborn is dropped if and only if its mint is empty or went out within the last 300 seconds; otherwise it completes the arrival that waits for it, and the two go out merged at once, or it starts to wait; other entries stay, but on every thousandth iteration those of 10 seconds go, and what the queues held for 300 |
| `DetectorAnswers.TimeoutAnswer` | src/detector/mod.rs:347-384 | a timeout sends exactly the arrivals that have waited 250 ms, each once and as it came, and keeps all others |
| `DetectorTokens.NewbornConservation` | src/detector/mod.rs:315-384 | every newborn arrival of a run is skipped, absorbed, sent on, still waiting or swept, exactly once |
| `DetectorTokens.TimeoutConserves` | src/detector/mod.rs:347-384 | a timeout step takes out exactly the listed entries and its sweep finds nothing |
| `DetectorTokens.NewbornProvenance` | src/detector/mod.rs:315-434 | each newborn output is one arrival that waited out 250 ms, or two arrivals of one mint when the second came, merged field by field: text from a PumpPortal second if it says something, its amounts if positive, the first link present, and the first arrival for the rest |
| `DetectorTokens.MergedValues` | src/detector/mod.rs:391-434 | of a Helius and a PumpPortal arrival in either order: name, symbol and creator are PumpPortal's unless empty, liquidity and market cap PumpPortal's if positive and else the first one's, pool and URI the first one present, and all else the first one's |
| `DetectorTokens.MergeOrderIndependentIff` | src/detector/mod.rs:391-434 | for every field but the mint: name, symbol and creator never depend on which source came first, the backend always does, and each other one does not if and only if the stated condition on the two arrivals holds |
| `PositionStore.PositionManager.OpenPosition` | src/executor/positions.rs:49-143 | refuses exactly when the mint is open; otherwise the new position replaces the cached one and is written |
| `PositionStore.PositionManager.ClosePositionError` | src/executor/positions.rs:288-328 | changes nothing unless the position is open; otherwise clears its PnL and closes it |
| `PositionStore.PositionManager.LoadFromDb` | src/executor/positions.rs:554-641 | loads the open rows in whatever order they come |
| `PositionStore.AlwaysAgree` | src/executor/positions.rs:110-389 | after any operations and restarts every cached position has its row, and every open row is the cached position of its mint |
| `PositionStore.RestartRecoversOpen` | src/executor/positions.rs:554-641 | a restart recovers exactly the open positions, unchanged in everything that prices do not move |
| `PositionStore.RiskCheckSeesEveryOpenPosition` | src/risk/manager.rs:77-85 | over any history the database count equals the open positions in memory, with at most one open row per mint |
| `PositionStore.SequentialBuysKeepLimit` | src/risk/manager.rs:46-54 | buys taken one at a time after the check never open more positions than allowed |
| `TpSl.TpSlMonitor.EvaluatePosition` | src/executor/tp_sl.rs:237-463 | the guarded cascade with its loop over tiers sends the decision that `EvaluateIff` characterises, and keeps its memory |
| `ExitRules.EvaluateIff` | src/executor/tp_sl.rs:237-463 | for every position, profile and memory, which of the six commands is sent, with what in it, if and only if which conditions on status, age, PnL, price and tiers hold; at most one is |
| `ExitRuns.SendsWhatIsDue` | src/executor/tp_sl.rs:191-234 | in every reachable state a look at an open position, alone or in a pass over all of them, queues exactly the command that is due for it and marks the tier it takes; a pass forgets the mints that are not open, and nothing is queued for any other mint |
| `ExitRuns.PassIsAlone` | src/executor/tp_sl.rs:216-234 | a pass queues, position by position in the order of the list, what looking at each one alone would send |
| `RecordRuns.SendsInMode` | src/config.rs:69-111 | in every reachable state of every mode a look at an open position queues a command if and only if one is due by the numbers of the mode, which are written out, and the one it queues is |
| `RecordRuns.StopLossIff` | src/executor/tp_sl.rs:290-310 | in every reachable state, restarts included, a look queues the stop-loss of an open position if and only if it is down by 5, 10 or 50 percent as its mode says and not by more than 95 within two minutes |
| `RecordRuns.RecordFollowsPrices` | src/models/position.rs:60-93 | from its buy on, until it is closed or the process restarts, a record keeps its entry and exits; its price is the last fresh one, its high the highest one, and its age the whole seconds up to the last one |
| `RecordRuns.PriceGivesPnl` | src/executor/positions.rs:213-232 | in every reachable state a fresh price sets the PnL of its mint, in SOL on the tokens still held and in percent of the entry; a stale one only marks it; no other position and no row changes |
| `TpSl.TpSlMonitor.HandlePriceUpdate` | src/executor/tp_sl.rs:191-213 | updates the price, then evaluates the position if it is open |
| `TpSl.TpSlMonitor.CheckAllPositions` | src/executor/tp_sl.rs:216-234 | one pass in place is the step whose effect on each position `SendsWhatIsDue` states |
| `TpSlRuns.TiersInOrder` | src/executor/tp_sl.rs:373-410 | whatever positions are looked at, the tiers sent for a mint between forgettings are exactly the marks added, in ascending order |
| `TpSlRuns.EachTierOncePerMint` | src/executor/tp_sl.rs:22-54 | for each mode the tiers sent for a mint are 0, 1, …, k−1, so none goes off twice |
| `TpSlRuns.TrailingWaitsIff` | src/executor/tp_sl.rs:412-441 | for positions in any state the trailing stop needs the first tier if and only if the mode is scalp |
| `TpSlRuns.TakeProfitFollowsItsTier` | src/executor/tp_sl.rs:443-462 | the classic take-profit never goes off before the tier at the same level was taken, in every mode |
| `Pipeline.ProcessTpSlCommands` | src/executor/tp_sl.rs:468-559 | the loop sends the requests that `RequestsMatchOpenOnes` characterises |
| `ExitRequests.RequestsMatchOpenOnes` | src/executor/tp_sl.rs:475-559 | the requests are the commands of open mints, one for one and in order: 100 for each of the five full exits, and the share of its tier for a partial one |
| `ExitRequests.RequestAsksItsShare` | src/executor/tp_sl.rs:22-54 | in every reachable state of every mode the next command, if its mint is open, becomes one request behind the others: for 100, or for the share of its tier, which is 100 in snipe, 50, 70, 100 in scalp and 50, 60, 100 in hold mode |
| `Pipeline.SellExecutor.ExecuteSell` | src/executor/mod.rs:973-1027 | a verified sell books realized PnL and then closes or reduces; a failed one changes nothing |
| `Pipeline.SellExecutor.ProcessSell` | src/main.rs:979-1097 | the open check, up to three attempts and the error close, as one function of the store |
| `SellOutcomes.SellLoopMeans` | src/executor/mod.rs:978-1027 | the first attempt that does not fail is booked: with the wallet's gain in SOL and percent, and as a close with its signature if nothing is left, or cut to the share not sold; if all fail the position closes as an error with no PnL; nothing else changes in the cache or the rows |
| `PipelineRuns.UninterruptedSell` | src/main.rs:1036-1097 | the step system left alone does what the sell loop does |
| `PipelineRuns.ClosedIsFinal` | src/executor/positions.rs:235-340 | in every interleaving in which a buy writes its row together with its cached entry, restarts included, a row that has left Open is never written again, and its status is ClosedManual or ClosedError |
| `PipelineRuns.LateRowRevives` | src/executor/positions.rs:110-131 | the condition is needed: a buy's row written after its record was closed is open again, and the next restart takes the position up; in order the row stays closed |
| `PipelineRuns.SellsOnlyOpenRecords` | src/main.rs:979-985 | in every reachable state a sell starts, is tried and is booked only for the open record it was taken for |
| `PipelineRuns.ReductionStaysOpen` | src/executor/positions.rs:374-382 | a reduction below 100% never reaches the fully-sold branch |
| `PipelineRuns.SettlementSane` | src/executor/mod.rs:1022-1027 | a sell that is booked as a reduction sold a whole percentage below 100 |
| `PnlRows.ErrorRowShowsNoPnlIff` | src/executor/positions.rs:283-360 | after any run, whatever runs between the clearing of the PnL of a record whose sell failed and its close, its row is ClosedError and shows no PnL in SOL if and only if no fresh price for the mint came in, or the last one is the entry price; then it shows none in percent either if the entry price is positive |
| `ConcreteRuns.ErrorRowShowsPaperGain` | src/executor/positions.rs:307-327 | a run from the start in which a price between the clearing and the close leaves a ClosedError row that shows 20 |
| `PnlRows.RealizedPnlReachesRowIff` | src/executor/mod.rs:1015-1027 | whatever runs between a verified sale and its booking, the row shows the wallet's gain since the buy if and only if no fresh price for the mint came in, or the paper gain at the last one equals it |
| `ConcreteRuns.ClosedRowShowsPaperGain` | src/executor/positions.rs:213-263 | a run in which a full sale that gained 0.5 SOL in the wallet closes with a row that shows 20 |
| `RequestOrigins.SellServesItsRequest` | src/executor/tp_sl.rs:475-506 | over every run in which a mint is not bought again while something for it is queued, a sell that starts serves the record that was open when it was requested |
| `RequestOrigins.BuyHarmlessIff` | src/executor/positions.rs:110-128 | after any run, the next buy that opens a mint leaves every later sell of the mint to the record it was requested for, over all continuations without another such buy, if and only if nothing for the mint is queued |
| `ConcreteRuns.RequestOutlivesRecord` | src/main.rs:979-986 | a run in which a request raised for one record starts a sell of the next one of its mint |
| `ExitOrder.TrailingFollowsFirstTier` | src/executor/tp_sl.rs:340-441 | in all modes and over every run a trailing stop for a record opened here with its PnL neither rewritten nor cleared comes only with the first tier of its mint marked |
| `RecordTiers.RecordTiersInOrder` | src/executor/tp_sl.rs:373-410 | from the buy of a record on, until the mint is bought again or the process restarts, the tiers sent for it are the ones after those its mint had marked at the buy, in order |
| `RecordTiers.OwnFirstTierIff` | src/executor/tp_sl.rs:216-234 | after any run, a record with a positive entry price can take its own first tier before any restart if and only if no tier of its mint is marked at the buy |
| `RecordTiers.ClearedBeforeBuy` | src/executor/tp_sl.rs:216-228 | once a pass over the open positions finds the mint closed, no tier of it is marked until it is bought |
| `RecordTiers.TrailingFollowsOwnTier` | src/executor/tp_sl.rs:340-441 | a record bought with no tier of its mint marked, whose PnL is neither rewritten nor cleared, gets a trailing stop only when its own first tier has been sent |
| `ConcreteRuns.InheritedMarksTrail` | src/executor/tp_sl.rs:216-228 | in snipe and in hold mode a run in which a record bought with marks of the one before it gets a trailing stop with no tier sent for it |
| `ExitOrder.TrailingHasReached` | src/models/position.rs:60-93 | past the gate and a trailing distance below the high, the high had reached the first tier's price |
| `ExitOrder.ModesSound` | src/config.rs:69-111 | the constants of every mode, whatever the hold override, meet what the order of exits rests on |
| `ConcreteRuns.TrailingAlwaysWaitsIff` | src/executor/tp_sl.rs:340-441 | over all runs from the start and all records, restored and rewritten ones included, a trailing stop comes only with the first tier marked if and only if the mode is scalp |
| `ConcreteRuns.RewrittenPnlTrailsEarly` | src/executor/positions.rs:172-209 | in snipe and in hold mode a run in which a rewritten PnL leads to a trailing stop with no tier ever reached |
| `ConcreteRuns.ClearedPnlTrailsEarly` | src/executor/positions.rs:307-327 | in both modes a run in which a PnL cleared before the monitor looks at the price that reached the first tier leads to a trailing stop, still before the close, with no tier marked |
| `ConcreteRuns.RestoredTrailsEarly` | src/executor/positions.rs:554-641 | in both modes a run through a restart, with no PnL rewritten before it, that ends in a trailing stop with no tier marked |
| `StaleRuns.FrozenWhileStale` | src/executor/positions.rs:213-232 | over any run that leaves it stale a position does not move, no tier of its mint is marked, and every command for it is the stop-loss, time stop or age exit that its frozen values already called for |
| `StaleRuns.TiersArePrefix` | src/executor/tp_sl.rs:373-410 | in every reachable state the tiers taken for a mint are the lowest ones, in order |
| `Sells.SellAmountIsShare` | src/executor/mod.rs:805-824 | the amount is the requested share rounded down without wrap-around, refused exactly when it would be zero, and everything exactly for 100% |
| `Sells.VerifySellOutcome` | src/executor/mod.rs:1399-1521 | the three balance checks and the polling loop give the outcome that `VerdictIff` characterises |
| `Sells.VerdictIff` | src/executor/mod.rs:1399-1521 | the first reading that shows a reduction is reported; without one the first decided poll counts: confirmed, the recheck is reported if it shows a reduction and else the signature; the sell has failed if and only if no reading shows a reduction and the signature is invalid, that poll is a rejection or every poll is undecided |
| `Sells.VerdictHasEvidence` | src/executor/mod.rs:1399-1521 | a reported balance was read, and a full sale is assumed only on a confirmed signature that no reading contradicts |
| `Sells.SoldPctMeans` | src/executor/mod.rs:1413-1422 | the whole percentage is the sold share rounded down, and 100 exactly when nothing is left |
| `SaleBooks.TrackedCoversChain` | src/executor/mod.rs:1022-1027 | over any run of sells without inflow, with lagging readings before and after each, the tracked amount never drops below the chain as long as the balance before every verified sell passes the 99 comparisons of `PreCovered` |
| `SaleBooks.WithinPasses` | src/executor/mod.rs:812-819 | a balance not above the tracked amount passes them |
| `SaleBooks.SafePreIff` | src/executor/mod.rs:812-819 | a balance before a sell is safe for every later reading and every remainder if and only if 99 comparisons of it with the tracked amount hold |
| `SaleBooks.SafePreWithinIff` | src/executor/mod.rs:812-819 | with at least one unit tracked, a balance divisible by 2 or 5 is safe if and only if it is not above the tracked amount |
| `SaleBooks.StalePreReadingLoses` | src/executor/mod.rs:1074-1076 | two sells booked from the same lagging balance leave 25 tracked with 50 on the chain |
| `SaleBooks.PartialSaleDrift` | src/executor/positions.rs:367-389 | whatever was read before it, one verified partial sell drifts by less than one percent of the tracked amount beyond the drift there was and the lag of its reading; never below that reading if the balance before it was within the tracked amount |
| `SaleBooks.TotalDrift` | src/executor/positions.rs:367-389 | n sells of any kind and with any lag drift by less than n percent of the amount bought beyond what the books could not see |
| `ChainCoverage.SettlementBooks` | src/executor/mod.rs:978-1027 | the percentage the pipeline books for a verified partial sell is that of the booked sale |
| `ChainCoverage.TrackedCoversChainInRuns` | src/executor/mod.rs:1015-1027 | in every interleaving with the chain balance beside it, unseen sales and restarts included, an open position tracks at least what the chain holds as long as the balance before every verified sell passes `PreCovered` |
| `ChainCoverage.AttemptsSafeIff` | src/executor/mod.rs:973-1027 | in any state about to send a sell, all verified outcomes keep the position covered if and only if the balance before it passes `PreCovered` |
| `ConcreteRuns.StaleBalanceLosesCoverage` | src/executor/mod.rs:1074-1076 | a run of the pipeline in which a lagging balance leaves half of what the chain holds untracked |
| `FullCloses.FullSalesEmptyIff` | src/executor/mod.rs:805-1024 | all attempts from a balance that are booked as full sales leave nothing on the chain if and only if the amount asked for, if any is sent, covers the chain; always for 100%, and from an up-to-date balance only then |
| `FullCloses.ClosedManualLeavesNothing` | src/executor/mod.rs:978-1024 | in every interleaving with the chain balance beside it, a sale booked as ClosedManual leaves nothing on the chain as long as every sell that ended with a confirmed signature only had asked for all there was |
| `ConcreteRuns.ConfirmedHalfClosesAll` | src/executor/mod.rs:997-1006 | a run from the start in which a sell of half lands and the position closes as ClosedManual with 50 of 100 tokens on the chain |
| `Sells.PumpPortalSell` | src/executor/mod.rs:1067-1166 | Pump.fun tries 25, 30 and 35 percent slippage, PumpSwap 15, 20 and 25, and both give up on slippage errors only after the third |
| `Sells.SellWithEscalation` | src/executor/mod.rs:1088-1166 | at most three submissions, each 500 bps above the last and never escalated beyond the cap, only after slippage errors |
| `SolTrend.SolTrendTracker.RecordPrice` | src/analyzer/opportunity.rs:149-169 | popping and pushing in place is the specified recording |
| `SolTrend.WindowIsLongestRecentSuffix` | src/analyzer/opportunity.rs:149-169 | the filter over the whole history is its longest suffix of at most 120 samples within the hour |
| `SolTrend.RecordAllIsWindow` | src/analyzer/opportunity.rs:149-169 | after any history with a nondecreasing clock the buffer is exactly that window |
| `SolTrend.ChangeOverHistory` | src/analyzer/opportunity.rs:171-185 | after any such history the reported change is that from the first sample of its longest recent suffix to its last one, and zero if that first price is zero |
| `ByteCodec.ExtractU64LeRoundTrip` | src/detector/parser.rs:78-91 | every 64-bit number is read back from its eight little-endian bytes, wherever they stand |
| `ByteCodec.HigherByte` | src/detector/parser.rs:78-91 | each further byte of a number counts 256 times as much as the one before it |
| `ByteCodec.ExtractsExactlyPrefixed` | src/detector/parser.rs:95-116 | extraction succeeds if and only if a valid string is stored there with its length, and returns it |
| `ByteCodec.ExtractErrorsIff` | src/detector/parser.rs:95-116 | it fails for a short prefix, for bytes missing behind it or for bytes that are not text, each if and only if that is the case |
| `PumpFunCreate.ParseCreateRoundTrip` | src/detector/pumpfun.rs:56-68 | every well-formed name, symbol and URI is recovered whatever bytes follow |
| `PumpFunCreate.RecognisesExactlyCreates` | src/detector/pumpfun.rs:35-53 | the instructions recognised are exactly discriminator, name, symbol, URI and anything after |
| `TokenMetadata.CheckMetadataImmutable` | src/analyzer/metadata.rs:46-119 | the walk stays in bounds and does not wrap on arbitrary bytes, and answers or names the field that is cut off |
| `TokenMetadata.CutStringIff` | src/analyzer/metadata.rs:46-119 | name, symbol or URI is named if and only if its prefix is the first one cut off |
| `TokenMetadata.CutFieldIff` | src/analyzer/metadata.rs:46-119 | likewise for a short header, the list of creators and the flag |
| `TokenMetadata.FlagFound` | src/analyzer/metadata.rs:46-119 | whatever the strings and the number of creators, the walk lands on the is_mutable byte |
| `TokenMetadata.AnswersExactlyLayouts` | src/analyzer/metadata.rs:46-119 | an answer is given if and only if the bytes start with a serialized account, and it is the negated flag |

## Left out

- Floating point: prices, percentages and token amounts are real numbers. With `f64` a sold percentage can round up to 100 for balances above 2^53; that rounding is not modelled.
- PositionStore.PositionManager: its calls are atomic, and every database write succeeds. The source writes rows after it drops the lock (`LateRowRevives` says what a late one does). The error close is atomic here; in the step system its clearing and its close are two steps, as they are two lock sections.
- Positions.Position: a value in the manager's map, as the source's map owns it and hands out clones; fields that are only carried along (symbol, wallet, buy signature, score, source, pool, decimals) are not modelled.
- Detector.Tick: one clock reading serves a whole iteration, and the cleanup counter does not wrap around.
- Detector.Emit: what is handed on counts as sent; a full or closed channel is not modelled.
- Pipeline.Step: the command and sell queues are unbounded, lock poisoning does not happen, and record identifiers are fresh.
- Pipeline.Step: a monitor step queues its commands together with the snapshot it decides on, and the command processor pops, checks and forwards at once. In the source each send comes after an await, so a command in hand counts as queued here, and may end up behind later requests there.
- Pipeline.Submission: one attempt stands for its final outcome. A direct Raydium sell that fails verification falls through to Jupiter with the balance read before it (src/executor/mod.rs:848-875), so one attempt can send two transactions.
- ChainCoverage.PossibleChange: tokens come in only with the buy that opens a position, and no reading lags back to before that buy.
- FullCloses.Lands: a transaction whose signature is confirmed takes the amount it asked for, all of it.
- PositionStore.SequentialBuysKeepLimit: holds for buys one at a time; concurrent buyers can pass the check together.
- ByteCodec.ExtractLengthPrefixedString: UTF-8 validity is a parameter, since text decoding belongs to the standard library.
- Setting take-profit and stop-loss by hand, backfilling decimals, and totals of PnL: single assignments and sums over the same map.
- Minimum output, maximum cost and price-impact arithmetic, and the spot price of a pool: one-line formulas.
- Score tables, entry filters, cooldowns and the blacklist.
- RPC, HTTP, WebSocket and Telegram plumbing, transaction building and signing, wallets and encryption, SQL text and configuration parsing.
