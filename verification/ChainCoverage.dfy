/** The tracked amount against the balance on the chain, over whole runs of the pipeline. The chain
    balance is carried beside the system; the pipeline never sees it but through readings that lag. */
module ChainCoverage {
  import opened MachineInts
  import opened Options
  import opened TradingProfiles
  import opened Positions
  import opened PositionStore
  import opened Pipeline
  import opened PipelineRuns
  import opened SaleBooks
  import opened TpSl
  import Sells

  predicate BusySelling(s: System, mint: Mint) {
    s.executor.Selling? && s.executor.mint == mint
  }

  /** A lagging reading shows at least what is on the chain. */
  predicate ShowsAtLeast(reading: Option<u64>, chain: nat) {
    reading.Some? ==> reading.value as nat >= chain
  }

  /** How the balance of a mint may change with an event. Tokens come in only with the buy that opens
      a position, which tracks at least what then is on the chain; any event may see tokens leave. */
  ghost predicate PossibleChange(s: System, mint: Mint, chain: nat, ev: Event, chain': nat) {
    match ev
    case BuyTokens(_, m, _, _, amount, _, _) =>
      if m == mint && !IsOpen(s.store.cache, mint) then chain' as real <= amount else chain' <= chain
    case Attempt(submission, _) =>
      && chain' <= chain
      && (BusySelling(s, mint) && submission.Sent? ==>
            && chain <= submission.pre as nat
            && forall reading | reading in submission.readings + [submission.recheck] :: ShowsAtLeast(reading, chain'))
    case _ => chain' <= chain
  }

  /** The balance read before a verified sale passes the check against the tracked amount. */
  predicate PreChecked(s: System, mint: Mint, ev: Event) {
    ev.Attempt? && BusySelling(s, mint) && OutcomeOf(ev.submission).BalanceReduced? && mint in s.store.cache ==>
      PassesCheck(s.store.cache[mint].tokenAmount, ev.submission.pre as nat)
  }

  /** What is tracked, and what will be once a sale under way is booked, covers the chain. */
  ghost predicate Covered(s: System, mint: Mint, chain: nat) {
    IsOpen(s.store.cache, mint) ==>
      && s.store.cache[mint].tokenAmount >= chain as real
      && (s.executor.Settling? && s.executor.mint == mint && s.executor.settlement.left > 0 ==>
            AmountAfter(s.store.cache[mint].tokenAmount, s.executor.settlement.sellPct) >= chain as real)
  }

  /** What the pipeline books for a verified partial sale is the booking of that sale. */
  lemma SettlementBooks(submission: Submission, tracked: real, left: nat)
    requires OutcomeOf(submission).BalanceReduced?
    ensures var post := OutcomeOf(submission).postBalance;
            && submission.Sent? && post < submission.pre
            && Some(post) in submission.readings + [submission.recheck]
            && SettlementOf(OutcomeOf(submission)).Some?
            && SettlementOf(OutcomeOf(submission)).value.left == post as nat
            && AmountAfter(tracked, SettlementOf(OutcomeOf(submission)).value.sellPct)
               == Booked(tracked, Verified(submission.pre as nat, post as nat, left))
  {
    hide AmountAfter, Sells.SoldPct, SharePct, Sells.Verdict;
    var post := OutcomeOf(submission).postBalance;
    Sells.VerdictHasEvidence(submission.pre, submission.readings, submission.validSignature, submission.polls,
                             submission.recheck);
    SoldPctIsShare(submission.pre, post);
  }

  lemma AttemptCovers(s: System, mint: Mint, chain: nat, submission: Submission, walletSol: real, chain': nat)
    requires s.executor.Selling? && Covered(s, mint, chain)
    requires PossibleChange(s, mint, chain, Attempt(submission, walletSol), chain')
    requires PreChecked(s, mint, Attempt(submission, walletSol))
    ensures Covered(AfterAttempt(s, submission, walletSol), mint, chain')
  {
    hide AmountAfter, OutcomeOf, SharePct, PreCovered;
    var outcome := OutcomeOf(submission);
    if IsOpen(s.store.cache, mint) && s.executor.mint == mint && outcome.BalanceReduced? {
      var tracked := s.store.cache[mint].tokenAmount;
      var post := outcome.postBalance;
      SettlementBooks(submission, tracked, chain');
      assert ShowsAtLeast(Some(post), chain');
      if post > 0 {
        SafeIfCovered(tracked, submission.pre as nat, post as nat, chain');
      }
    }
  }

  lemma SettledAmount(s: Store, mint: Mint, settlement: Settlement, tx: string, now: Time)
    requires Agreement(s) && SaneRows(s.rows) && IsOpen(s.cache, mint)
    requires settlement.left > 0 && settlement.sellPct < 100
    ensures var s' := Settled(s, mint, settlement, tx, now);
            var left := AmountAfter(s.cache[mint].tokenAmount, settlement.sellPct);
            s'.cache == s.cache[mint := s.cache[mint].(tokenAmount := left)]
  {
    hide AmountAfter, Agreement, SaneRows;
    OpenHolds(s, mint);
    ReductionStaysOpen(s.cache[mint], settlement.sellPct, tx, now);
  }

  lemma SettleCovers(s: System, mint: Mint, chain: nat, tx: string, now: Time)
    requires StoreInv(s) && s.executor.Settling? && Covered(s, mint, chain)
    ensures var store := Settled(s.store, s.executor.mint, s.executor.settlement, tx, now);
            Covered(s.(store := store, executor := Idle), mint, chain)
  {
    hide AmountAfter, Agreement, SaneRows;
    if s.executor.settlement.left > 0 {
      SettledAmount(s.store, s.executor.mint, s.executor.settlement, tx, now);
    } else {
      SettledKeeps(s.store, s.executor.mint, s.executor.settlement, tx, now);
    }
  }

  lemma RebootCovers(s: System, mint: Mint, chain: nat, order: seq<Id>)
    requires StoreInv(s) && Enabled(s, Reboot(order)) && Covered(s, mint, chain)
    ensures var cache := Loaded(s.store.(cache := map[]), order).cache;
            IsOpen(cache, mint) ==> cache[mint].tokenAmount >= chain as real
  {
    hide Loaded, AmountAfter;
    RestartRecoversOpen(s.store, order);
  }

  lemma StepCovers(profile: TradingProfile, tiers: seq<Tier>, s: System, mint: Mint, chain: nat, ev: Event, chain': nat)
    requires StoreInv(s) && Enabled(s, ev) && Covered(s, mint, chain)
    requires PossibleChange(s, mint, chain, ev, chain') && PreChecked(s, mint, ev)
    ensures Covered(Step(profile, tiers, s, ev), mint, chain')
  {
    hide AmountAfter, Loaded, Settled, FailedClosed, Agreement, SaneRows, ListsOpenRows, OutcomeOf;
    match ev
    case Attempt(submission, walletSol) => AttemptCovers(s, mint, chain, submission, walletSol, chain');
    case Settle(tx, now) => SettleCovers(s, mint, chain, tx, now);
    case CloseFailed(now) => FailedClosedKeeps(s.store, s.executor.mint, now);
    case Reboot(order) => RebootCovers(s, mint, chain, order);
    case _ =>
      hide Evaluate, EvaluateAll, ListsOpen;
  }

  // ---------- Runs ----------

  /** `chains[i]` is the balance after the i-th event. */
  ghost predicate PossibleChain(profile: TradingProfile, tiers: seq<Tier>, s: System, mint: Mint, chain: nat,
                                evs: seq<Event>, chains: seq<nat>)
    requires ValidRun(profile, tiers, s, evs) && |chains| == |evs|
    decreases |evs|
  {
    evs == [] ||
    (PossibleChange(s, mint, chain, evs[0], chains[0]) &&
     PossibleChain(profile, tiers, Step(profile, tiers, s, evs[0]), mint, chains[0], evs[1..], chains[1..]))
  }

  ghost predicate AllPreChecked(profile: TradingProfile, tiers: seq<Tier>, s: System, mint: Mint, evs: seq<Event>)
    requires ValidRun(profile, tiers, s, evs)
    decreases |evs|
  {
    evs == [] ||
    (PreChecked(s, mint, evs[0]) && AllPreChecked(profile, tiers, Step(profile, tiers, s, evs[0]), mint, evs[1..]))
  }

  function LastOr(chains: seq<nat>, chain: nat): nat {
    if chains == [] then chain else chains[|chains| - 1]
  }

  lemma {:induction false} RunCovers(profile: TradingProfile, tiers: seq<Tier>, s: System, mint: Mint, chain: nat,
                                     evs: seq<Event>, chains: seq<nat>)
    requires StoreInv(s) && Covered(s, mint, chain)
    requires ValidRun(profile, tiers, s, evs) && |chains| == |evs|
    requires PossibleChain(profile, tiers, s, mint, chain, evs, chains) && AllPreChecked(profile, tiers, s, mint, evs)
    ensures Covered(Run(profile, tiers, s, evs), mint, LastOr(chains, chain))
    decreases |evs|
  {
    if evs != [] {
      hide StoreInv, Covered, Step, Enabled, PossibleChange, PreChecked;
      StepCovers(profile, tiers, s, mint, chain, evs[0], chains[0]);
      StepKeepsStore(profile, tiers, s, evs[0]);
      RunCovers(profile, tiers, Step(profile, tiers, s, evs[0]), mint, chains[0], evs[1..], chains[1..]);
    }
  }

  /** In every interleaving, with lagging readings, sales that land unseen and restarts, an open
      position tracks at least what the chain holds, as long as the balance before every verified
      sale passes the check against the tracked amount. */
  lemma TrackedCoversChainInRuns(profile: TradingProfile, tiers: seq<Tier>, mint: Mint, chain: nat,
                                 evs: seq<Event>, chains: seq<nat>)
    requires ValidRun(profile, tiers, START, evs) && |chains| == |evs|
    requires PossibleChain(profile, tiers, START, mint, chain, evs, chains)
    requires AllPreChecked(profile, tiers, START, mint, evs)
    ensures var s := Run(profile, tiers, START, evs);
            IsOpen(s.store.cache, mint) ==> s.store.cache[mint].tokenAmount >= LastOr(chains, chain) as real
  {
    StartKeepsStore();
    RunCovers(profile, tiers, START, mint, chain, evs, chains);
  }

  // ---------- Which balance is safe to sell from ----------

  predicate ReducedFrom(submission: Submission, pre: u64) {
    submission.Sent? && submission.pre == pre && OutcomeOf(submission).BalanceReduced?
  }

  /** Every verified attempt from this balance that the chain allows leaves the position covered. */
  ghost predicate AttemptsSafe(s: System, pre: u64)
    requires s.executor.Selling? && IsOpen(s.store.cache, s.executor.mint)
  {
    forall chain: nat, submission: Submission, walletSol: real, chain': nat
      | && chain as real <= s.store.cache[s.executor.mint].tokenAmount && ReducedFrom(submission, pre)
        && PossibleChange(s, s.executor.mint, chain, Attempt(submission, walletSol), chain')
      :: Covered(AfterAttempt(s, submission, walletSol), s.executor.mint, chain')
  }

  lemma SafeAttempt(s: System, pre: u64, chain: nat, submission: Submission, walletSol: real, chain': nat)
    requires s.executor.Selling? && IsOpen(s.store.cache, s.executor.mint) && ReducedFrom(submission, pre)
    requires s.store.cache[s.executor.mint].tokenAmount >= chain as real
    requires PreCovered(s.store.cache[s.executor.mint].tokenAmount, pre as nat)
    requires PossibleChange(s, s.executor.mint, chain, Attempt(submission, walletSol), chain')
    ensures Covered(AfterAttempt(s, submission, walletSol), s.executor.mint, chain')
  {
    hide AmountAfter, OutcomeOf, PreCovered, SharePct;
    var mint := s.executor.mint;
    AttemptCovers(s, mint, chain, submission, walletSol, chain');
  }

  lemma UnsafeAttempt(s: System, pre: u64, kept: nat) returns (chain: nat, submission: Submission, walletSol: real)
    requires s.executor.Selling? && IsOpen(s.store.cache, s.executor.mint)
    requires s.store.cache[s.executor.mint].tokenAmount >= 0.0 && 1 <= kept <= 99
    requires !KeepsEnough(s.store.cache[s.executor.mint].tokenAmount, pre as nat, kept)
    ensures chain as real <= s.store.cache[s.executor.mint].tokenAmount && ReducedFrom(submission, pre)
    ensures PossibleChange(s, s.executor.mint, chain, Attempt(submission, walletSol), chain)
    ensures !Covered(AfterAttempt(s, submission, walletSol), s.executor.mint, chain)
  {
    hide AmountAfter, KeepsEnough, SharePct, Sells.SoldPct;
    var tracked := s.store.cache[s.executor.mint].tokenAmount;
    var reading, left := UncoveredLoses(tracked, pre as nat, kept);
    chain, submission, walletSol := left, Sent(pre, [Some(reading as u64), None, None], true, [], None), 0.0;
    assert OutcomeOf(submission) == Sells.Reduced(pre, reading as u64);
    SettlementBooks(submission, tracked, left);
  }

  /** A sell that is about to be sent keeps the position covered, whatever is read after it and
      whatever lands, exactly when the balance read before it passes the check on the books. */
  lemma AttemptsSafeIff(s: System, pre: u64)
    requires s.executor.Selling? && IsOpen(s.store.cache, s.executor.mint)
    requires s.store.cache[s.executor.mint].tokenAmount >= 0.0
    ensures AttemptsSafe(s, pre) <==> PreCovered(s.store.cache[s.executor.mint].tokenAmount, pre as nat)
  {
    hide KeepsEnough, Covered, PossibleChange, ReducedFrom;
    var mint := s.executor.mint;
    if PreCovered(s.store.cache[mint].tokenAmount, pre as nat) {
      forall chain: nat, submission: Submission, walletSol: real, chain': nat
        | && chain as real <= s.store.cache[mint].tokenAmount && ReducedFrom(submission, pre)
          && PossibleChange(s, mint, chain, Attempt(submission, walletSol), chain')
        ensures Covered(AfterAttempt(s, submission, walletSol), mint, chain')
      {
        SafeAttempt(s, pre, chain, submission, walletSol, chain');
      }
    } else {
      var kept :| 1 <= kept <= 99 && !KeepsEnough(s.store.cache[mint].tokenAmount, pre as nat, kept);
      var chain, submission, walletSol := UnsafeAttempt(s, pre, kept);
    }
  }
}
