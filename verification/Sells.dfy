/** Selling: how much to sell, how the outcome is verified, and what is booked. Readings of the
    chain are inputs; an absent reading is a failed call. */
module Sells {
  import opened MachineInts
  import opened Options
  import opened NatArithmetic

  // ---------- The amount to sell ----------

  datatype SellError = InvalidPercentage | ZeroBalance | ZeroAmount

  datatype SellSize = Amount(value: u64) | Refused(error: SellError)

  /** `(total as u128 * pct as u128 / 100) as u64` */
  function ShareOf(total: u64, pct: u8): u64
    requires pct <= 100
  {
    MulBounded(total as nat, pct as nat, U64_MAX as nat, 100);
    var product := total as u128 * pct as u128;
    TruncateToU64(product / 100)
  }

  function SellAmount(total: u64, pct: u8): SellSize {
    if pct == 0 || pct > 100 then Refused(InvalidPercentage)
    else if total == 0 then Refused(ZeroBalance)
    else if ShareOf(total, pct) == 0 then Refused(ZeroAmount)
    else Amount(ShareOf(total, pct))
  }

  lemma ShareBelow(n: int, total: nat)
    requires 0 <= n <= 100 * total
    ensures 0 <= n / 100 <= total
    ensures n == 100 * total ==> n / 100 == total
    ensures n <= 99 * total && total > 0 ==> n / 100 < total
  {
  }

  lemma ShareOfIsFloor(total: u64, pct: u8)
    requires pct <= 100
    ensures ShareOf(total, pct) as int == total as int * pct as int / 100
  {
    var n := total as int * pct as int;
    MulBounded(total as nat, pct as nat, total as nat, 100);
    ShareBelow(n, total as nat);
  }

  /** The amount never wraps: it is the requested share rounded down, all of it exactly for 100%. */
  lemma SellAmountIsShare(total: u64, pct: u8)
    requires 0 < pct <= 100 && total > 0
    ensures SellAmount(total, pct) == Refused(ZeroAmount) <==> total as int * pct as int < 100
    ensures SellAmount(total, pct).Amount? ==>
      var amount := SellAmount(total, pct).value as int;
      && 100 * amount <= total as int * pct as int < 100 * amount + 100
      && amount <= total as int && (amount == total as int <==> pct == 100)
  {
    hide ShareOf;
    var n := total as int * pct as int;
    MulMonotone(pct as nat, if pct == 100 then 100 else 99, total as nat);
    ShareOfIsFloor(total, pct);
    ShareBelow(n, total as nat);
  }

  // ---------- Verifying the outcome ----------

  datatype SellOutcome =
    | BalanceReduced(postBalance: u64, actualSold: u64, actualSellPct: nat)
    | SignatureConfirmed
    | Failed

  /** `((sold / pre) * 100.0) as u8` over the reals. */
  function SoldPct(pre: u64, post: u64): nat
    requires post < pre
  {
    var pct := ((pre - post) as real / pre as real * 100.0).Floor;
    SoldPctRange(pre, post);
    pct
  }

  lemma SoldPctRange(pre: u64, post: u64)
    requires post < pre
    ensures var pct := ((pre - post) as real / pre as real * 100.0).Floor; 0 <= pct <= 100
  {
    var share := (pre - post) as real / pre as real;
    ShareBounds((pre - post) as real, pre as real);
    assert 0.0 <= share * 100.0 <= 100.0;
  }

  lemma ShareBounds(part: real, whole: real)
    requires 0.0 < part <= whole
    ensures 0.0 < part / whole <= 1.0
    ensures part / whole * whole == part
    ensures part / whole == 1.0 <==> part == whole
  {
  }

  /** The whole percentage is the sold share rounded down; it is 100 exactly when nothing is left. */
  lemma SoldPctMeans(pre: u64, post: u64)
    requires post < pre
    ensures var pct := SoldPct(pre, post);
            var sold := pre as int - post as int;
            && pct * pre as int <= 100 * sold < (pct + 1) * pre as int
            && (pct == 100 <==> post == 0)
            && pct <= 100
  {
    var sold := pre as int - post as int;
    var pct := SoldPct(pre, post);
    WholeShare(sold as real, pre as real);
    SoldPctRange(pre, post);
    ProductAsReal(pct, pre as int);
  }

  lemma WholeShare(part: real, whole: real)
    requires 0.0 < part <= whole
    ensures var n := (part / whole * 100.0).Floor;
            && n as real * whole <= 100.0 * part < n as real * whole + whole
            && (n == 100 ==> part == whole) && (part == whole ==> n >= 100)
  {
    var share := part / whole;
    ShareBounds(part, whole);
    Rearranged(share, whole, part);
    FloorScaled((share * 100.0).Floor, share * 100.0, whole, 100.0 * part);
  }

  lemma Rearranged(share: real, whole: real, part: real)
    requires share * whole == part
    ensures share * 100.0 * whole == 100.0 * part
  {
  }

  lemma FloorScaled(n: int, x: real, scale: real, scaled: real)
    requires n as real <= x < n as real + 1.0 && scale > 0.0
    requires x * scale == scaled
    ensures n as real * scale <= scaled < n as real * scale + scale
  {
    var r := x - n as real;
    assert r * scale == scaled - n as real * scale;
    FractionOf(r, scale);
  }

  lemma FractionOf(r: real, scale: real)
    requires 0.0 <= r < 1.0 && scale > 0.0
    ensures 0.0 <= r * scale < scale
  {
  }

  lemma ProductAsReal(a: int, b: int)
    ensures a as real * b as real == (a * b) as real
  {
  }

  predicate Shows(reading: Option<u64>, pre: u64) {
    reading.Some? && reading.value < pre
  }

  function Reduced(pre: u64, post: u64): SellOutcome
    requires post < pre
  {
    BalanceReduced(post, pre - post, SoldPct(pre, post))
  }

  datatype Poll = Confirmed | RejectedOnChain | NotYet | RpcError

  /** The outcome that the readings and polls add up to: the first reduced balance decides, then
      the first poll with a verdict. */
  function Verdict(pre: u64, readings: seq<Option<u64>>, validSignature: bool, polls: seq<Poll>, recheck: Option<u64>)
    : SellOutcome
    decreases |readings|, |polls|
  {
    if readings != [] then
      if Shows(readings[0], pre) then Reduced(pre, readings[0].value)
      else Verdict(pre, readings[1..], validSignature, polls, recheck)
    else if !validSignature || polls == [] then Failed
    else
      match polls[0]
      case Confirmed => if Shows(recheck, pre) then Reduced(pre, recheck.value) else SignatureConfirmed
      case RejectedOnChain => Failed
      case _ => Verdict(pre, [], validSignature, polls[1..], recheck)
  }

  /** `readings` are the three balance checks and `polls` the status polls of thirty seconds. */
  method VerifySellOutcome(pre: u64, readings: seq<Option<u64>>, validSignature: bool, polls: seq<Poll>,
                           recheck: Option<u64>)
    returns (r: SellOutcome)
    requires |readings| == 3
    ensures r == Verdict(pre, readings, validSignature, polls, recheck)
  {
    assert readings[0..] == readings;
    for attempt := 0 to 3
      invariant Verdict(pre, readings, validSignature, polls, recheck)
             == Verdict(pre, readings[attempt..], validSignature, polls, recheck)
    {
      assert readings[attempt..][0] == readings[attempt] && readings[attempt..][1..] == readings[attempt + 1..];
      match readings[attempt]
      case Some(post) =>
        if post < pre {
          var actualSold := pre - post;
          var pct := SoldPct(pre, post);
          return BalanceReduced(post, actualSold, pct);
        }
      case None =>
    }
    assert readings[3..] == [];
    if !validSignature {
      return Failed;
    }
    assert polls[0..] == polls;
    for i := 0 to |polls|
      invariant Verdict(pre, readings, validSignature, polls, recheck)
             == Verdict(pre, [], validSignature, polls[i..], recheck)
    {
      assert polls[i..][0] == polls[i] && polls[i..][1..] == polls[i + 1..];
      match polls[i]
      case Confirmed =>
        if recheck.Some? && recheck.value < pre {
          return BalanceReduced(recheck.value, pre - recheck.value, SoldPct(pre, recheck.value));
        }
        return SignatureConfirmed;
      case RejectedOnChain => return Failed;
      case _ =>
    }
    assert polls[|polls|..] == [];
    r := Failed;
  }

  /** A reported balance was read; an assumed full sale was confirmed and no reading contradicts it. */
  lemma {:induction false} VerdictHasEvidence(pre: u64, readings: seq<Option<u64>>, validSignature: bool,
                                              polls: seq<Poll>,
                                              recheck: Option<u64>)
    ensures var r := Verdict(pre, readings, validSignature, polls, recheck);
            && (r.BalanceReduced? ==>
                  && Some(r.postBalance) in readings + [recheck]
                  && r.postBalance < pre && r.actualSold as int == pre as int - r.postBalance as int
                  && r.actualSellPct == SoldPct(pre, r.postBalance))
            && (r.SignatureConfirmed? ==>
                  && Confirmed in polls && !Shows(recheck, pre)
                  && forall reading | reading in readings :: !Shows(reading, pre))
            && (r.Failed? ==> forall reading | reading in readings :: !Shows(reading, pre))
    decreases |readings|, |polls|
  {
    if readings != [] {
      VerdictHasEvidence(pre, readings[1..], validSignature, polls, recheck);
      assert readings == [readings[0]] + readings[1..];
    } else if polls != [] {
      VerdictHasEvidence(pre, [], validSignature, polls[1..], recheck);
    }
  }

  predicate ShowsReduction(pre: u64, reading: Option<u64>) {
    reading.Some? && reading.value < pre
  }

  ghost predicate FirstReduced(pre: u64, readings: seq<Option<u64>>, i: nat) {
    i < |readings| && ShowsReduction(pre, readings[i]) && forall k | 0 <= k < i :: !ShowsReduction(pre, readings[k])
  }

  ghost predicate NoneReduced(pre: u64, readings: seq<Option<u64>>) {
    forall i | 0 <= i < |readings| :: !ShowsReduction(pre, readings[i])
  }

  predicate Undecided(poll: Poll) {
    poll == NotYet || poll == RpcError
  }

  /** The first poll that is not undecided answers this. */
  ghost predicate FirstDecided(polls: seq<Poll>, answer: Poll) {
    !Undecided(answer) &&
    exists j | 0 <= j < |polls| :: polls[j] == answer && forall k | 0 <= k < j :: Undecided(polls[k])
  }

  /** The balance went down to this one, by the whole percentage rounded down. */
  predicate ReportsReduction(r: SellOutcome, pre: u64, post: u64) {
    && r.BalanceReduced? && r.postBalance == post && r.actualSold as int == pre as int - post as int
    && r.actualSellPct * pre as int <= 100 * (pre as int - post as int) < (r.actualSellPct + 1) * pre as int
  }

  lemma ReducedReports(pre: u64, post: u64)
    requires post < pre
    ensures ReportsReduction(Reduced(pre, post), pre, post)
  {
    SoldPctMeans(pre, post);
  }

  lemma FirstDecidedNext(polls: seq<Poll>, answer: Poll)
    requires polls != []
    ensures FirstDecided(polls, answer) <==>
            if Undecided(polls[0]) then FirstDecided(polls[1..], answer) else polls[0] == answer
  {
    if Undecided(polls[0]) && FirstDecided(polls[1..], answer) {
      var j :| 0 <= j < |polls| - 1 && polls[1..][j] == answer && forall k | 0 <= k < j :: Undecided(polls[1..][k]);
      assert polls[j + 1] == answer && forall k | 0 < k < j + 1 :: polls[k] == polls[1..][k - 1];
    }
    if Undecided(polls[0]) && FirstDecided(polls, answer) {
      var j :| 0 <= j < |polls| && polls[j] == answer && forall k | 0 <= k < j :: Undecided(polls[k]);
      assert polls[1..][j - 1] == answer && forall k | 0 <= k < j - 1 :: polls[1..][k] == polls[k + 1];
    }
  }

  /** With no reading that shows a reduction the first decided poll is what counts. */
  lemma {:induction false} PollsDecide(pre: u64, polls: seq<Poll>, recheck: Option<u64>)
    ensures var r := Verdict(pre, [], true, polls, recheck);
            && (r == Failed <==> !FirstDecided(polls, Confirmed))
            && (r == SignatureConfirmed <==> FirstDecided(polls, Confirmed) && !ShowsReduction(pre, recheck))
            && (r.BalanceReduced? ==> ReportsReduction(r, pre, recheck.value))
    decreases polls
  {
    if polls != [] {
      FirstDecidedNext(polls, Confirmed);
      if polls[0] == Confirmed && ShowsReduction(pre, recheck) {
        ReducedReports(pre, recheck.value);
      } else if Undecided(polls[0]) {
        PollsDecide(pre, polls[1..], recheck);
      }
    }
  }

  lemma {:induction false} ReadingsDecide(pre: u64, readings: seq<Option<u64>>, validSignature: bool, polls: seq<Poll>,
                                          recheck: Option<u64>)
    ensures var r := Verdict(pre, readings, validSignature, polls, recheck);
            && (forall i: nat | FirstReduced(pre, readings, i) :: ReportsReduction(r, pre, readings[i].value))
            && (NoneReduced(pre, readings) ==>
                  r == if validSignature then Verdict(pre, [], true, polls, recheck) else Failed)
    decreases |readings|
  {
    if readings == [] {
      if !validSignature {
        assert Verdict(pre, [], validSignature, polls, recheck) == Failed;
      }
    } else {
      var rest := readings[1..];
      ReadingsDecide(pre, rest, validSignature, polls, recheck);
      if ShowsReduction(pre, readings[0]) {
        ReducedReports(pre, readings[0].value);
      } else {
        forall i: nat | FirstReduced(pre, readings, i)
          ensures FirstReduced(pre, rest, i - 1) && rest[i - 1] == readings[i]
        {
          assert forall k | 0 <= k < i - 1 :: rest[k] == readings[k + 1];
        }
        assert forall i | 0 <= i < |rest| :: rest[i] == readings[i + 1];
      }
    }
  }

  lemma DecidedOnce(polls: seq<Poll>)
    ensures !(FirstDecided(polls, Confirmed) && FirstDecided(polls, RejectedOnChain))
    ensures FirstDecided(polls, Confirmed) || FirstDecided(polls, RejectedOnChain) ||
            forall poll | poll in polls :: Undecided(poll)
    decreases polls
  {
    if polls != [] {
      FirstDecidedNext(polls, Confirmed);
      FirstDecidedNext(polls, RejectedOnChain);
      DecidedOnce(polls[1..]);
    }
  }

  /** Exactly when each outcome is reported: the first reading that shows a reduction decides; without one, the
      first decided poll does; and a sell fails only on a bad signature, a rejection or polls that say nothing. */
  lemma VerdictIff(pre: u64, readings: seq<Option<u64>>, validSignature: bool, polls: seq<Poll>, recheck: Option<u64>)
    ensures var r := Verdict(pre, readings, validSignature, polls, recheck);
            && (forall i: nat | FirstReduced(pre, readings, i) :: ReportsReduction(r, pre, readings[i].value))
            && (r.Failed? <==>
                && NoneReduced(pre, readings)
                && (|| !validSignature || FirstDecided(polls, RejectedOnChain)
                    || forall poll | poll in polls :: Undecided(poll)))
            && (r.SignatureConfirmed? <==>
                && NoneReduced(pre, readings) && validSignature && FirstDecided(polls, Confirmed)
                && !ShowsReduction(pre, recheck))
            && (NoneReduced(pre, readings) && validSignature && FirstDecided(polls, Confirmed) ==>
                  ShowsReduction(pre, recheck) ==> ReportsReduction(r, pre, recheck.value))
  {
    hide Verdict, ReportsReduction, FirstDecided;
    ReadingsDecide(pre, readings, validSignature, polls, recheck);
    PollsDecide(pre, polls, recheck);
    DecidedOnce(polls);
    UndecidedNone(polls);
    if !NoneReduced(pre, readings) {
      var i := FirstOf(pre, readings);
      assert ReportsReduction(Verdict(pre, readings, validSignature, polls, recheck), pre, readings[i].value);
      NotFailed(Verdict(pre, readings, validSignature, polls, recheck), pre, readings[i].value);
    }
  }

  lemma NotFailed(r: SellOutcome, pre: u64, post: u64)
    requires ReportsReduction(r, pre, post)
    ensures r.BalanceReduced?
  {
  }

  lemma UndecidedNone(polls: seq<Poll>)
    ensures (forall poll | poll in polls :: Undecided(poll)) ==> !FirstDecided(polls, Confirmed)
  {
  }

  lemma FirstOf(pre: u64, readings: seq<Option<u64>>) returns (i: nat)
    requires !NoneReduced(pre, readings)
    ensures FirstReduced(pre, readings, i)
  {
    i := 0;
    while !ShowsReduction(pre, readings[i])
      invariant i < |readings| && forall k | 0 <= k < i :: !ShowsReduction(pre, readings[k])
      decreases |readings| - i
    {
      assert exists k :: 0 <= k < |readings| && ShowsReduction(pre, readings[k]);
      i := i + 1;
    }
  }

  // ---------- Slippage escalation on the PumpPortal route ----------

  const ESCALATION_BPS: u16 := 500
  const HARD_CAP_BPS: u16 := 3500
  const MAX_ATTEMPTS: nat := 3

  datatype Attempt = Sent(signature: string) | SlippageError | OtherError

  datatype Escalation = Submitted(signature: string) | Bailed | Exhausted

  function SaturatingAdd(a: u16, b: u16): u16 {
    if a as int + b as int > 0xFFFF then 0xFFFF else a + b
  }

  function BaseSlippage(source: string, configured: u16): u16 {
    if source == "PumpFun" then 2500 else if source == "PumpSwap" then 1500 else configured
  }

  /** `attempts[i]` is how the i-th submission ends; `tried` lists the slippage of each one made.
      Only a slippage error leads to another try, 500 bps higher and never beyond the cap. */
  method SellWithEscalation(base: u16, attempts: seq<Attempt>) returns (r: Escalation, tried: seq<u16>)
    requires |attempts| == MAX_ATTEMPTS
    ensures 1 <= |tried| <= MAX_ATTEMPTS
    ensures forall i | 0 <= i < |tried| :: tried[i] as int == base as int + 500 * i
    ensures forall i | 1 <= i < |tried| :: tried[i] <= 3500
    ensures forall i | 0 <= i < |tried| - 1 :: attempts[i] == SlippageError
    ensures match attempts[|tried| - 1]
            case Sent(signature) => r == if signature != "" then Submitted(signature) else Exhausted
            case OtherError => r == Bailed
            case SlippageError =>
              r == Exhausted && (|tried| == 3 || tried[|tried| - 1] as int + 500 > 3500)
  {
    var current, signature := base, "";
    tried := [];
    for attempt := 0 to MAX_ATTEMPTS
      invariant |tried| == attempt && signature == ""
      invariant current as int == base as int + 500 * attempt && (attempt > 0 ==> current <= HARD_CAP_BPS)
      invariant forall i | 0 <= i < |tried| :: tried[i] as int == base as int + 500 * i
      invariant forall i | 1 <= i < |tried| :: tried[i] <= HARD_CAP_BPS
      invariant forall i | 0 <= i < attempt :: attempts[i] == SlippageError
    {
      tried := tried + [current];
      match attempts[attempt]
      case Sent(s) =>
        signature := s;
        break;
      case OtherError =>
        r := Bailed;
        return;
      case SlippageError =>
        var next := SaturatingAdd(current, ESCALATION_BPS);
        if next > HARD_CAP_BPS {
          break;
        }
        current := next;
    }
    r := if signature == "" then Exhausted else Submitted(signature);
  }

  /** The PumpPortal route: Pump.fun starts at 25%, PumpSwap at 15%, and each has three tries below
      the cap. */
  method PumpPortalSell(source: string, configured: u16, attempts: seq<Attempt>)
    returns (r: Escalation, tried: seq<u16>)
    requires |attempts| == MAX_ATTEMPTS
    ensures 1 <= |tried| <= MAX_ATTEMPTS
    ensures source == "PumpFun" ==> tried <= [2500, 3000, 3500]
    ensures source == "PumpSwap" ==> tried <= [1500, 2000, 2500]
    ensures source !in {"PumpFun", "PumpSwap"} ==> tried[0] == configured
    ensures r.Submitted? <==> attempts[|tried| - 1].Sent? && attempts[|tried| - 1].signature != ""
    ensures source in {"PumpFun", "PumpSwap"} && attempts[|tried| - 1] == SlippageError ==> |tried| == MAX_ATTEMPTS
  {
    r, tried := SellWithEscalation(BaseSlippage(source, configured), attempts);
  }
}
