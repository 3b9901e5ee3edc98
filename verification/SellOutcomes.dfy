/** What the sell loop makes of a position, by the outcomes of its attempts. */
module SellOutcomes {
  import opened Options
  import opened Positions
  import opened PositionStore
  import opened Pipeline
  import opened PipelineRuns
  import Sells

  function Outcome(submissions: seq<Submission>, i: nat): Sells.SellOutcome
    requires i < |submissions|
  {
    OutcomeOf(submissions[i])
  }

  ghost predicate AllFail(submissions: seq<Submission>) {
    forall i | 0 <= i < |submissions| :: Outcome(submissions, i).Failed?
  }

  /** The first attempt that does not fail. */
  ghost predicate FirstSold(submissions: seq<Submission>, i: nat) {
    i < |submissions| && !Outcome(submissions, i).Failed? && forall k | 0 <= k < i :: Outcome(submissions, k).Failed?
  }

  /** This position takes the place of the mint's, in the cache and in its row, and nothing else changes. */
  ghost predicate Becomes(s: Store, s': Store, mint: Mint, q: Position) {
    s'.cache == s.cache[mint := q] && s'.rows == s.rows[q.id := q.(ageSecs := 0)]
  }

  /** The PnL is what the wallet gained since the buy, in SOL and in percent of the amount paid, if the wallet's
      balance was recorded at the buy. */
  predicate GainBooked(q: Position, p: Position, walletSol: real) {
    if p.walletSolAtOpen > 0.0 then
      var gain := walletSol - p.walletSolAtOpen;
      q.pnlSol == gain && (if p.entryAmount > 0.0 then q.pnlPct * p.entryAmount == 100.0 * gain else q.pnlPct == 0.0)
    else q.pnlSol == p.pnlSol && q.pnlPct == p.pnlPct
  }

  predicate ClosedAs(q: Position, p: Position, status: Status, tx: string, now: Time) {
    && q.status == status && q.sellTx == Some(tx) && q.closedAt == Some(now)
    && q == p.(status := q.status, sellTx := q.sellTx, closedAt := q.closedAt, pnlSol := q.pnlSol, pnlPct := q.pnlPct)
  }

  /** Only the share that was not sold is left; the position stays open. */
  predicate CutBy(q: Position, p: Position, pct: nat) {
    && 100.0 * q.tokenAmount == p.tokenAmount * (100 - pct) as real && q.tokenAmount > 0.0
    && q == p.(tokenAmount := q.tokenAmount, pnlSol := q.pnlSol, pnlPct := q.pnlPct)
  }

  /** What a sale with this outcome leaves of the position. */
  predicate SoldWith(q: Position, p: Position, outcome: Sells.SellOutcome, walletSol: real, tx: string, now: Time) {
    && GainBooked(q, p, walletSol)
    && match outcome
       case Failed => false
       case SignatureConfirmed => ClosedAs(q, p, ClosedManual, tx, now)
       case BalanceReduced(post, _, pct) =>
         if post == 0 then ClosedAs(q, p, ClosedManual, tx, now) else CutBy(q, p, pct)
  }

  lemma GainMeans(p: Position, walletSol: real)
    ensures GainBooked(WithRealizedPnl(p, walletSol), p, walletSol)
  {
    if p.entryAmount > 0.0 {
      ShareOfAmount(walletSol - p.walletSolAtOpen, p.entryAmount);
    }
  }

  lemma ShareOfAmount(gain: real, amount: real)
    requires amount > 0.0
    ensures gain / amount * 100.0 * amount == 100.0 * gain
  {
    var ratio := gain / amount;
    assert ratio * amount == gain;
    assert ratio * 100.0 * amount == 100.0 * (ratio * amount);
  }

  lemma CutMeans(amount: real, pct: nat)
    requires pct <= 100
    ensures 100.0 * AmountAfter(amount, pct) == amount * (100 - pct) as real
  {
    var share := pct as real / 100.0;
    assert 100.0 * (amount * share) == amount * (100.0 * share);
  }

  lemma SoldMeans(s: Store, mint: Mint, submission: Submission, walletSol: real, tx: string, now: Time)
    returns (q: Position)
    requires IsOpen(s.cache, mint) && s.cache[mint].tokenAmount > 0.0 && !OutcomeOf(submission).Failed?
    ensures SettlementOf(OutcomeOf(submission)).Some?
    ensures var settlement := SettlementOf(OutcomeOf(submission)).value;
            Becomes(s, Settled(Realized(s, mint, walletSol), mint, settlement, tx, now), mint, q)
    ensures SoldWith(q, s.cache[mint], OutcomeOf(submission), walletSol, tx, now)
  {
    hide OutcomeOf, AmountAfter;
    var p := s.cache[mint];
    var settlement := SettlementOf(OutcomeOf(submission)).value;
    SettlementSane(submission);
    GainMeans(p, walletSol);
    q := Settled(Realized(s, mint, walletSol), mint, settlement, tx, now).cache[mint];
    if settlement.left > 0 {
      CutMeans(p.tokenAmount, settlement.sellPct);
      LessThanAll(p.tokenAmount, settlement.sellPct);
    }
  }

  lemma {:induction false} FromFirstSold(s: Store, mint: Mint, submissions: seq<Submission>, attempt: nat, i: nat,
                                         walletSol: real, tx: string, now: Time)
    requires FirstSold(submissions, i) && attempt <= i
    ensures SettlementOf(Outcome(submissions, i)).Some?
    ensures SellFrom(s, mint, submissions, attempt, walletSol, tx, now)
         == Settled(Realized(s, mint, walletSol), mint, SettlementOf(Outcome(submissions, i)).value, tx, now)
    decreases i - attempt
  {
    hide OutcomeOf, Settled, Realized;
    if attempt < i {
      assert Outcome(submissions, attempt).Failed?;
      FromFirstSold(s, mint, submissions, attempt + 1, i, walletSol, tx, now);
    }
  }

  lemma {:induction false} FromAllFailed(s: Store, mint: Mint, submissions: seq<Submission>, attempt: nat,
                                         walletSol: real, tx: string, now: Time)
    requires AllFail(submissions) && attempt <= |submissions|
    ensures SellFrom(s, mint, submissions, attempt, walletSol, tx, now) == ErrorClosed(s, mint, now)
    decreases |submissions| - attempt
  {
    hide OutcomeOf, Settled, Realized, ErrorClosed;
    if attempt < |submissions| {
      assert Outcome(submissions, attempt).Failed?;
      FromAllFailed(s, mint, submissions, attempt + 1, walletSol, tx, now);
    }
  }

  /** The sell loop books the first attempt that does not fail and tries no more after it; when all of them fail it
      closes the position as an error with no PnL. Nothing but this position changes, in the cache and in its row. */
  lemma SellLoopMeans(s: Store, mint: Mint, submissions: seq<Submission>, walletSol: real, tx: string, now: Time)
    returns (q: Position)
    requires IsOpen(s.cache, mint) && s.cache[mint].tokenAmount > 0.0
    ensures Becomes(s, SellFrom(s, mint, submissions, 0, walletSol, tx, now), mint, q)
    ensures forall i: nat | FirstSold(submissions, i) ::
      SoldWith(q, s.cache[mint], Outcome(submissions, i), walletSol, tx, now)
    ensures AllFail(submissions) ==>
      ClosedAs(q, s.cache[mint], ClosedError, "sell_failed", now) && q.pnlSol == 0.0
    ensures AllFail(submissions) <==> !exists i: nat :: FirstSold(submissions, i)
  {
    hide SellFrom, SoldWith, Outcome;
    if AllFail(submissions) {
      FromAllFailed(s, mint, submissions, 0, walletSol, tx, now);
      q := ErrorClosed(s, mint, now).cache[mint];
    } else {
      var i := FirstOf(submissions);
      q := BookedFirst(s, mint, submissions, i, walletSol, tx, now);
      forall k: nat | FirstSold(submissions, k)
        ensures k == i
      {
      }
    }
  }

  lemma BookedFirst(s: Store, mint: Mint, submissions: seq<Submission>, i: nat, walletSol: real, tx: string, now: Time)
    returns (q: Position)
    requires IsOpen(s.cache, mint) && s.cache[mint].tokenAmount > 0.0 && FirstSold(submissions, i)
    ensures Becomes(s, SellFrom(s, mint, submissions, 0, walletSol, tx, now), mint, q)
    ensures SoldWith(q, s.cache[mint], Outcome(submissions, i), walletSol, tx, now)
  {
    hide SellFrom, SoldWith, OutcomeOf, Settled, Realized, Becomes;
    FromFirstSold(s, mint, submissions, 0, i, walletSol, tx, now);
    q := SoldMeans(s, mint, submissions[i], walletSol, tx, now);
  }

  lemma FirstOf(submissions: seq<Submission>) returns (i: nat)
    requires !AllFail(submissions)
    ensures FirstSold(submissions, i)
  {
    i := 0;
    while Outcome(submissions, i).Failed?
      invariant i < |submissions| && forall k | 0 <= k < i :: Outcome(submissions, k).Failed?
      decreases |submissions| - i
    {
      assert exists k :: 0 <= k < |submissions| && !Outcome(submissions, k).Failed?;
      i := i + 1;
    }
  }
}
