/** When a position closed as fully sold leaves nothing on the chain. A confirmed signature that no
    reading contradicts is booked as a full sale, whatever share of the balance the sell asked for. */
module FullCloses {
  import opened MachineInts
  import opened Options
  import opened TradingProfiles
  import opened Positions
  import opened PositionStore
  import opened Pipeline
  import opened PipelineRuns
  import opened RequestOrigins
  import opened ChainCoverage
  import opened TpSl
  import Sells

  /** What the sell under way asks the chain to take, given the balance read before it. */
  function Asked(s: System, pre: u64): Sells.SellSize
    requires s.executor.Selling?
  {
    if s.executor.pct <= 100 then Sells.SellAmount(pre, s.executor.pct as u8)
    else Sells.Refused(Sells.InvalidPercentage)
  }

  /** A sell is sent only if its amount is not refused, and one whose signature is confirmed took it. */
  predicate Lands(s: System, mint: Mint, chain: nat, ev: Event, chain': nat) {
    ev.Attempt? && BusySelling(s, mint) && ev.submission.Sent? ==>
      && Asked(s, ev.submission.pre).Amount?
      && (OutcomeOf(ev.submission).SignatureConfirmed? ==> chain' + Asked(s, ev.submission.pre).value as nat <= chain)
  }

  predicate FullyBooked(submission: Submission) {
    var settlement := SettlementOf(OutcomeOf(submission));
    settlement.Some? && settlement.value.left == 0
  }

  /** A sell that ends with a confirmed signature only had asked for all there was. */
  predicate AsksForAll(s: System, mint: Mint, chain: nat, ev: Event) {
    ev.Attempt? && BusySelling(s, mint) && ev.submission.Sent? && OutcomeOf(ev.submission).SignatureConfirmed?
    && Asked(s, ev.submission.pre).Amount? ==>
      chain <= Asked(s, ev.submission.pre).value as nat
  }

  lemma FullSaleEmpties(s: System, mint: Mint, chain: nat, submission: Submission, walletSol: real, chain': nat)
    requires BusySelling(s, mint) && FullyBooked(submission)
    requires var ev := Attempt(submission, walletSol);
             && PossibleChange(s, mint, chain, ev, chain') && Lands(s, mint, chain, ev, chain')
             && AsksForAll(s, mint, chain, ev)
    ensures chain' == 0
  {
    hide Asked, Sells.Verdict, AmountAfter;
    if OutcomeOf(submission).BalanceReduced? {
      SettlementBooks(submission, 0.0, 0);
      assert ShowsAtLeast(Some(OutcomeOf(submission).postBalance), chain');
    }
  }

  // ---------- One attempt ----------

  /** Every attempt from this balance that the chain allows and that is booked as a full sale empties it. */
  ghost predicate FullSalesEmpty(s: System, pre: u64, chain: nat)
    requires s.executor.Selling?
  {
    forall submission: Submission, walletSol: real, chain': nat
      | && submission.Sent? && submission.pre == pre && FullyBooked(submission)
        && PossibleChange(s, s.executor.mint, chain, Attempt(submission, walletSol), chain')
        && Lands(s, s.executor.mint, chain, Attempt(submission, walletSol), chain')
      :: chain' == 0
  }

  /** No reading says anything, and the signature is confirmed. */
  function OnlyConfirmed(pre: u64): Submission {
    Sent(pre, [None, None, None], true, [Sells.Confirmed], None)
  }

  lemma ConfirmedIsFull(pre: u64)
    ensures OutcomeOf(OnlyConfirmed(pre)).SignatureConfirmed? && FullyBooked(OnlyConfirmed(pre))
  {
  }

  /** Closes as fully sold leave nothing, whatever is read and whatever lands, exactly when the amount
      asked for covers the chain; from an up-to-date balance, exactly when the sell is one of 100%. */
  lemma FullSalesEmptyIff(s: System, pre: u64, chain: nat)
    requires s.executor.Selling? && 1 <= s.executor.pct <= 100 && chain <= pre as nat
    ensures FullSalesEmpty(s, pre, chain) <==> (Asked(s, pre).Amount? ==> chain <= Asked(s, pre).value as nat)
    ensures s.executor.pct == 100 ==> FullSalesEmpty(s, pre, chain)
    ensures chain == pre as nat && Asked(s, pre).Amount? ==> (FullSalesEmpty(s, pre, chain) <==> s.executor.pct == 100)
  {
    var mint := s.executor.mint;
    if pre > 0 {
      Sells.SellAmountIsShare(pre, s.executor.pct as u8);
    }
    hide Sells.SellAmount, OutcomeOf, FullyBooked;
    if Asked(s, pre).Amount? && Asked(s, pre).value as nat < chain {
      var submission, chain' := OnlyConfirmed(pre), chain - Asked(s, pre).value as nat;
      ConfirmedIsFull(pre);
      var ev := Attempt(submission, 0.0);
      assert PossibleChange(s, mint, chain, ev, chain') && Lands(s, mint, chain, ev, chain');
    } else {
      forall submission: Submission, walletSol: real, chain': nat
        | && submission.Sent? && submission.pre == pre && FullyBooked(submission)
          && PossibleChange(s, mint, chain, Attempt(submission, walletSol), chain')
          && Lands(s, mint, chain, Attempt(submission, walletSol), chain')
        ensures chain' == 0
      {
        FullSaleEmpties(s, mint, chain, submission, walletSol, chain');
      }
    }
  }

  // ---------- Runs ----------

  /** Once a full sale of the mint waits to be booked, the chain holds nothing of it. */
  ghost predicate Emptied(s: System, mint: Mint, chain: nat) {
    s.executor.Settling? && s.executor.mint == mint && s.executor.settlement.left == 0 ==> chain == 0
  }

  lemma StepEmpties(profile: TradingProfile, tiers: seq<Tier>, s: System, mint: Mint, chain: nat, ev: Event,
                    chain': nat)
    requires StoreInv(s) && Enabled(s, ev) && Emptied(s, mint, chain) && PossibleChange(s, mint, chain, ev, chain')
    requires Lands(s, mint, chain, ev, chain') && AsksForAll(s, mint, chain, ev)
    ensures Emptied(Step(profile, tiers, s, ev), mint, chain')
  {
    hide Agreement, SaneRows, OutcomeOf, Asked, Evaluate, EvaluateAll, ListsOpen, ListsOpenRows;
    if ev.Attempt? && s.executor.mint == mint && FullyBooked(ev.submission) {
      FullSaleEmpties(s, mint, chain, ev.submission, ev.walletSol, chain');
    }
  }

  /** Every confirmed sell of the mint lands, and had asked for all there was. */
  ghost predicate FullAsked(profile: TradingProfile, tiers: seq<Tier>, s: System, mint: Mint, chain: nat,
                            evs: seq<Event>, chains: seq<nat>)
    requires ValidRun(profile, tiers, s, evs) && |chains| == |evs|
    decreases |evs|
  {
    evs == [] ||
    (Lands(s, mint, chain, evs[0], chains[0]) && AsksForAll(s, mint, chain, evs[0]) &&
     FullAsked(profile, tiers, Step(profile, tiers, s, evs[0]), mint, chains[0], evs[1..], chains[1..]))
  }

  lemma {:induction false} RunEmpties(profile: TradingProfile, tiers: seq<Tier>, s: System, mint: Mint, chain: nat,
                                      evs: seq<Event>, chains: seq<nat>)
    requires StoreInv(s) && Emptied(s, mint, chain) && ValidRun(profile, tiers, s, evs) && |chains| == |evs|
    requires PossibleChain(profile, tiers, s, mint, chain, evs, chains)
    requires FullAsked(profile, tiers, s, mint, chain, evs, chains)
    ensures Emptied(Run(profile, tiers, s, evs), mint, LastOr(chains, chain))
    decreases |evs|
  {
    if evs != [] {
      hide StoreInv, Emptied, Step, Enabled, PossibleChange, Lands, AsksForAll;
      StepEmpties(profile, tiers, s, mint, chain, evs[0], chains[0]);
      StepKeepsStore(profile, tiers, s, evs[0]);
      RunEmpties(profile, tiers, Step(profile, tiers, s, evs[0]), mint, chains[0], evs[1..], chains[1..]);
    }
  }

  lemma SettleStatus(s: System, tx: string, now: Time)
    requires StoreInv(s) && s.executor.Settling?
    ensures var rows := Settled(s.store, s.executor.mint, s.executor.settlement, tx, now).rows;
            && s.executor.id in rows
            && (rows[s.executor.id].status == ClosedManual <==> s.executor.settlement.left == 0)
  {
    var mint := s.executor.mint;
    SettledKeeps(s.store, mint, s.executor.settlement, tx, now);
    SettledId(s.store, mint, s.executor.settlement, tx, now);
    hide AmountAfter, SaneRows;
  }

  /** In every interleaving with the chain balance beside it: a sale booked as ClosedManual leaves nothing
      on the chain, as long as every sell that ended with a confirmed signature only had asked for all. */
  lemma ClosedManualLeavesNothing(profile: TradingProfile, tiers: seq<Tier>, mint: Mint, chain: nat,
                                  evs: seq<Event>, chains: seq<nat>, tx: string, now: Time)
    requires ValidRun(profile, tiers, START, evs) && |chains| == |evs|
    requires PossibleChain(profile, tiers, START, mint, chain, evs, chains)
    requires FullAsked(profile, tiers, START, mint, chain, evs, chains)
    requires var s := Run(profile, tiers, START, evs); Enabled(s, Settle(tx, now)) && s.executor.mint == mint
    ensures var s := Run(profile, tiers, START, evs);
            var rows := Step(profile, tiers, s, Settle(tx, now)).store.rows;
            && s.executor.id in rows
            && (rows[s.executor.id].status == ClosedManual ==> LastOr(chains, chain) == 0)
  {
    StartKeepsStore();
    RunEmpties(profile, tiers, START, mint, chain, evs, chains);
    RunKeepsStore(profile, tiers, START, evs);
    SettleStatus(Run(profile, tiers, START, evs), tx, now);
  }
}
