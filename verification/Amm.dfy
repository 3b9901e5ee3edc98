/** Constant-product swap quotes: the Pump.fun bonding curve and the Raydium CPMM pool.

    Both quotes subtract a floored quotient from the reserve, so they round the amount
    paid out UP. All exact bounds below come from that. */
module Amm {
  import opened MachineInts
  import opened NatArithmetic

  const FEE_NUMERATOR: u128 := 9_975
  const FEE_DENOMINATOR: u128 := 10_000

  /** What is left of an input of x after the 0.25% fee, rounded down. */
  function AfterFee(x: nat): (a: nat)
    ensures a <= x
    ensures 10_000 * a <= 9_975 * x < 10_000 * a + 10_000
  {
    x * 9_975 / 10_000
  }

  // ---------- The quotes, on machine integers ----------

  /** x * y as a 128-bit product, which never overflows. */
  function Product(x: u64, y: u64): (k: u128)
    ensures k as int == x as int * y as int
  {
    MulBounded(x as int, y as int, U64_MAX as int, U64_MAX as int);
    x as u128 * y as u128
  }

  /** The 0.25% fee taken off an input, in 128 bits. */
  function AmountInAfterFee(x: u64): (a: u128)
    ensures a as int == AfterFee(x as int)
  {
    x as u128 * FEE_NUMERATOR / FEE_DENOMINATOR
  }

  /** The reserve of the outgoing side that keeps reserveIn * reserveOut constant. */
  function NewReserve(reserveIn: u64, reserveOut: u64, amountIn: u128): (r: u128)
    requires reserveIn != 0 && amountIn <= U64_MAX as u128
    ensures r <= reserveOut as u128
    ensures reserveOut as int - r as int ==
            CeilDiv(reserveOut as int * amountIn as int, reserveIn as int + amountIn as int)
  {
    var k, newReserveIn := Product(reserveIn, reserveOut), reserveIn as u128 + amountIn;
    var r := k / newReserveIn;
    assert r as int == (k as int) / (newReserveIn as int);
    FloorComplement(reserveOut as int, amountIn as int, reserveIn as int);
    r
  }

  /** The bonding curve pays the exact share, rounded up to a whole base unit.
      (The second zero test of the source is implied by the first.) */
  function CalculateBondingCurvePrice(amountSolLamports: u64, virtualSolReserves: u64,
                                      virtualTokenReserves: u64): (out: u64)
    ensures virtualSolReserves == 0 ==> out == 0
    ensures virtualSolReserves != 0 ==>
              out as int == CeilDiv(virtualTokenReserves as int * amountSolLamports as int,
                                    virtualSolReserves as int + amountSolLamports as int)
    ensures out <= virtualTokenReserves
  {
    if virtualSolReserves == 0 then 0
    else
      var newTokenReserves := NewReserve(virtualSolReserves, virtualTokenReserves, amountSolLamports as u128);
      TruncateToU64(virtualTokenReserves as u128 - newTokenReserves)
  }

  /** Nothing in, or nothing to pay out, is a share of nothing. */
  lemma EmptyShare(x: nat, reserveIn: nat, reserveOut: nat)
    ensures reserveIn != 0 && (x == 0 || reserveOut == 0) ==>
              CeilDiv(reserveOut * AfterFee(x), reserveIn + AfterFee(x)) == 0
  {
    if reserveIn != 0 && (x == 0 || reserveOut == 0) {
      assert reserveOut * AfterFee(x) == 0;
      CeilDivLeast(0, reserveIn + AfterFee(x), 0);
    }
  }

  /** Raydium: tokens for an exact amount of SOL. */
  function QuoteBuyExactIn(solInLamports: u64, solReserves: u64, tokenReserves: u64): (out: u64)
    ensures solReserves == 0 ==> out == 0
    ensures solReserves != 0 ==>
              out as int == CeilDiv(tokenReserves as int * AfterFee(solInLamports as int),
                                    solReserves as int + AfterFee(solInLamports as int))
    ensures out <= tokenReserves
  {
    if solReserves == 0 || tokenReserves == 0 || solInLamports == 0 then
      EmptyShare(solInLamports as nat, solReserves as nat, tokenReserves as nat);
      0
    else
      var newToken := NewReserve(solReserves, tokenReserves, AmountInAfterFee(solInLamports));
      SaturatingSub(tokenReserves, TryIntoU64OrMax(newToken))
  }

  /** Raydium: lamports for an exact amount of tokens. */
  function QuoteSellExactIn(tokenIn: u64, solReserves: u64, tokenReserves: u64): (out: u64)
    ensures tokenReserves == 0 ==> out == 0
    ensures tokenReserves != 0 ==>
              out as int == CeilDiv(solReserves as int * AfterFee(tokenIn as int),
                                    tokenReserves as int + AfterFee(tokenIn as int))
    ensures out <= solReserves
  {
    if solReserves == 0 || tokenReserves == 0 || tokenIn == 0 then
      EmptyShare(tokenIn as nat, tokenReserves as nat, solReserves as nat);
      0
    else
      var newSol := NewReserve(tokenReserves, solReserves, AmountInAfterFee(tokenIn));
      SaturatingSub(solReserves, TryIntoU64OrMax(newSol))
  }

  // ---------- Exactness and monotonicity ----------

  /** The Raydium buy is the bonding-curve price of the after-fee input. */
  lemma BuyQuoteIsBondingCurvePriceAfterFee(x: u64, solReserves: u64, tokenReserves: u64)
    ensures AfterFee(x as int) < TWO_64
    ensures QuoteBuyExactIn(x, solReserves, tokenReserves) ==
            CalculateBondingCurvePrice(AfterFee(x as int) as u64, solReserves, tokenReserves)
  {
  }

  /** Selling is buying in the pool with the two reserves exchanged. */
  lemma SellQuoteMirrorsBuyQuote(n: u64, solReserves: u64, tokenReserves: u64)
    ensures QuoteSellExactIn(n, solReserves, tokenReserves) == QuoteBuyExactIn(n, tokenReserves, solReserves)
  {
  }

  /** A buy pays out the least amount q with q * (S + a) >= T * a. */
  lemma BuyQuoteLeast(x: u64, solReserves: u64, tokenReserves: u64, q: nat)
    requires solReserves != 0
    ensures var a := AfterFee(x as int);
            QuoteBuyExactIn(x, solReserves, tokenReserves) as int <= q <==>
            tokenReserves as int * a <= q * (solReserves as int + a)
  {
    var a := AfterFee(x as int);
    CeilDivLeast(tokenReserves as int * a, solReserves as int + a, q);
  }

  /** Shares grow with the input and the reserve paid from, and shrink with the other reserve. */
  lemma ShareMonotone(a: nat, a': nat, s: nat, s': nat, t: nat, t': nat)
    requires a <= a' && 0 < s' <= s && t <= t'
    ensures CeilDiv(t * a, s + a) <= CeilDiv(t' * a', s' + a')
  {
    var q := CeilDiv(t' * a', s' + a');
    CeilDivLeast(t' * a', s' + a', q);
    CeilDivLeast(t' * a', s' + a', t');
    assert t' * a' <= t' * (s' + a') by { MulMonotone(a', s' + a', t'); }
    var k: nat := a' - a;
    assert t' * a <= q * (s' + a) by {
      assert t' * (a + k) == t' * a + t' * k;
      assert q * (s' + a + k) == q * (s' + a) + q * k;
      MulMonotone(q, t', k);
    }
    MulMonotone(t, t', a);
    MulMonotone(s' + a, s + a, q);
    CeilDivLeast(t * a, s + a, q);
  }

  lemma BuyQuoteMonotone(x: u64, x': u64, s: u64, s': u64, t: u64, t': u64)
    requires x <= x' && 0 < s' <= s && t <= t'
    ensures QuoteBuyExactIn(x, s, t) <= QuoteBuyExactIn(x', s', t')
  {
    DivMonotone(x as int * 9_975, x' as int * 9_975, 10_000);
    ShareMonotone(AfterFee(x as int), AfterFee(x' as int), s as int, s' as int, t as int, t' as int);
  }

  lemma SellQuoteMonotone(n: u64, n': u64, s: u64, s': u64, t: u64, t': u64)
    requires n <= n' && s <= s' && 0 < t' <= t
    ensures QuoteSellExactIn(n, s, t) <= QuoteSellExactIn(n', s', t')
  {
    SellQuoteMirrorsBuyQuote(n, s, t);
    SellQuoteMirrorsBuyQuote(n', s', t');
    BuyQuoteMonotone(n, n', t, t', s, s');
  }

  /** Rounding up lets a buy empty the pool: exactly when the after-fee input exceeds S * (T - 1). */
  lemma BuyDrainsPoolIff(x: u64, solReserves: u64, tokenReserves: u64)
    requires solReserves != 0 && tokenReserves != 0
    ensures QuoteBuyExactIn(x, solReserves, tokenReserves) == tokenReserves <==>
            AfterFee(x as int) > solReserves as int * (tokenReserves as int - 1)
  {
    var a, s, t := AfterFee(x as int), solReserves as int, tokenReserves as int;
    BuyQuoteLeast(x, solReserves, tokenReserves, t - 1);
    assert (t - 1) * (s + a) == s * (t - 1) + t * a - a;
  }

  // ---------- Order splitting on the bonding curve ----------

  function Total(amounts: seq<u64>): nat {
    if amounts == [] then 0 else amounts[0] as int + Total(amounts[1..])
  }

  /** Tokens received from successive buys, each against the reserves the last one left. */
  function BuyInTurn(amounts: seq<u64>, sol: u64, token: u64): (bought: nat)
    requires sol as int + Total(amounts) < TWO_64
    ensures bought <= token as int
  {
    if amounts == [] then 0
    else
      var out := CalculateBondingCurvePrice(amounts[0], sol, token);
      out as int + BuyInTurn(amounts[1..], sol + amounts[0], token - out)
  }

  /** Each buy loses less than one new SOL reserve of the pool's product, and never gains. */
  lemma ProductAfterBuy(a: u64, sol: u64, token: u64)
    requires sol != 0
    ensures var left := token as int - CalculateBondingCurvePrice(a, sol, token) as int;
            var n := sol as int + a as int;
            n * left <= sol as int * token as int < n * left + n
  {
    FloorComplement(token as int, a as int, sol as int);
    DivBounds(sol as int * token as int, sol as int + a as int);
  }

  /** After m buys that end with n in the SOL reserve and `left` in the token reserve,
      the product k they started from is within m reserves of n * left. */
  ghost predicate SplitBounds(k: nat, n: nat, left: nat, m: nat) {
    n * left <= k <= n * (left + m) && (m > 0 ==> k < n * (left + m))
  }

  lemma ProductChain(k: nat, k1: nat, s1: nat, n: nat, left: nat, m: nat)
    requires k1 <= k < k1 + s1 && s1 <= n
    requires SplitBounds(k1, n, left, m)
    ensures SplitBounds(k, n, left, m + 1)
  {
    assert n * (left + m + 1) == n * (left + m) + n;
  }

  /** The first of several buys, and the reserves it leaves to the others. */
  lemma BuyFirst(amounts: seq<u64>, sol: u64, token: u64) returns (sol1: u64, token1: u64)
    requires amounts != [] && sol != 0
    requires sol as int + Total(amounts) < TWO_64
    ensures sol1 != 0 && sol1 as int + Total(amounts[1..]) == sol as int + Total(amounts)
    ensures token1 as int - BuyInTurn(amounts[1..], sol1, token1) == token as int - BuyInTurn(amounts, sol, token)
    ensures var k, k1 := sol as int * token as int, sol1 as int * token1 as int; k1 <= k < k1 + sol1 as int
  {
    var out := CalculateBondingCurvePrice(amounts[0], sol, token);
    sol1, token1 := sol + amounts[0], token - out;
    ProductAfterBuy(amounts[0], sol, token);
  }

  lemma {:induction false} ProductAfterBuys(amounts: seq<u64>, sol: u64, token: u64)
    requires sol != 0
    requires sol as int + Total(amounts) < TWO_64
    ensures SplitBounds(sol as int * token as int, sol as int + Total(amounts),
                        token as int - BuyInTurn(amounts, sol, token), |amounts|)
    decreases |amounts|
  {
    if amounts == [] {
    } else {
      hide SplitBounds, BuyInTurn, Total;
      var sol1, token1 := BuyFirst(amounts, sol, token);
      var n, left := sol as int + Total(amounts), token as int - BuyInTurn(amounts, sol, token);
      ProductAfterBuys(amounts[1..], sol1, token1);
      ProductChain(sol as int * token as int, sol1 as int * token1 as int, sol1 as int, n, left, |amounts| - 1);
    }
  }

  /** Splitting an order into n buys yields at least the single buy, and at most n - 1 units more. */
  lemma OrderSplitting(amounts: seq<u64>, sol: u64, token: u64)
    requires amounts != [] && sol != 0
    requires sol as int + Total(amounts) < TWO_64
    ensures var single := CalculateBondingCurvePrice(Total(amounts) as u64, sol, token) as int;
            single <= BuyInTurn(amounts, sol, token) <= single + |amounts| - 1
  {
    ProductAfterBuys(amounts, sol, token);
    var single := CalculateBondingCurvePrice(Total(amounts) as u64, sol, token) as int;
    ProductAfterBuy(Total(amounts) as u64, sol, token);
    var n, leftSingle := sol as int + Total(amounts), token as int - single;
    var left := token as int - BuyInTurn(amounts, sol, token);
    MulStep(n, leftSingle, left);
    MulStep(n, leftSingle, left - 1);
    MulStep(n, left + |amounts|, leftSingle);
    MulStep(n, left + |amounts| - 1, leftSingle);
  }

  /** n orders of one lamport. */
  function Dust(n: nat): (amounts: seq<u64>)
    ensures |amounts| == n
  {
    if n == 0 then [] else [1] + Dust(n - 1)
  }

  lemma {:induction false} DustTotal(n: nat)
    ensures Total(Dust(n)) == n
  {
    if n > 0 {
      assert Dust(n)[1..] == Dust(n - 1);
      DustTotal(n - 1);
    }
  }

  /** A buy worth at most one unit still pays one unit. */
  lemma SmallBuyPaysOne(amount: u64, sol: u64, token: u64)
    requires 0 < token as int * amount as int <= sol as int + amount as int
    requires sol != 0
    ensures CalculateBondingCurvePrice(amount, sol, token) == 1
  {
    CeilDivOne(token as int * amount as int, sol as int + amount as int);
  }

  lemma CeilDivOne(n: nat, d: nat)
    requires 0 < n <= d
    ensures CeilDiv(n, d) == 1
  {
    DivUnique(n + d - 1, d, 1);
  }

  lemma {:induction false} DustBuys(n: nat, sol: u64, token: u64)
    requires Total(Dust(n)) == n && sol as int + n < TWO_64
    requires n <= token as int && token <= sol
    ensures BuyInTurn(Dust(n), sol, token) == n
  {
    if n > 0 {
      DustTotal(n - 1);
      SmallBuyPaysOne(1, sol, token);
      DustBuys(n - 1, sol + 1, token - 1);
      assert Dust(n)[1..] == Dust(n - 1);
    }
  }

  /** The upper bound is met: n one-lamport buys in a deep pool pay n units where one buy pays 1. */
  lemma OrderSplittingBoundIsTight(n: nat, sol: u64, token: u64)
    requires n >= 1 && n <= token as int && sol as int + n < TWO_64
    requires token as int * n <= sol as int
    ensures Total(Dust(n)) == n
    ensures BuyInTurn(Dust(n), sol, token) == CalculateBondingCurvePrice(n as u64, sol, token) as int + n - 1
  {
    MulMonotone(1, n, token as int);
    DustTotal(n);
    DustBuys(n, sol, token);
    SmallBuyPaysOne(n as u64, sol, token);
  }

  // ---------- Buy, then sell everything back ----------

  /** The lamports paid back when a Raydium buy is sold again on the updated reserves. */
  function SellBack(x: u64, sol: u64, token: u64): u64
    requires sol as int + x as int < TWO_64
  {
    var bought := QuoteBuyExactIn(x, sol, token);
    QuoteSellExactIn(bought, sol + x, token - bought)
  }

  /** Profit or not is one comparison of products. */
  lemma SellBackBound(x: u64, sol: u64, token: u64)
    requires sol as int + x as int < TWO_64
    ensures var bought := QuoteBuyExactIn(x, sol, token);
            bought < token ==>
              (SellBack(x, sol, token) <= x <==>
               sol as int * AfterFee(bought as int) <= x as int * (token - bought) as int)
  {
    var bought := QuoteBuyExactIn(x, sol, token);
    if bought < token {
      var c, left := AfterFee(bought as int), (token - bought) as int;
      SellQuoteMirrorsBuyQuote(bought, sol + x, token - bought);
      BuyQuoteLeast(bought, token - bought, sol + x, x as int);
      CancelCommonTerm(sol as int, x as int, c, left);
    }
  }

  lemma CancelCommonTerm(s: nat, x: nat, c: nat, left: nat)
    ensures (s + x) * c <= x * (left + c) <==> s * c <= x * left
  {
    assert (s + x) * c == s * c + x * c;
    assert x * (left + c) == x * left + x * c;
  }

  /** At least one token unit is always lost to the sell fee. */
  lemma BoughtAgainstSpent(x: u64, sol: u64, token: u64)
    requires sol != 0
    ensures var bought, a := QuoteBuyExactIn(x, sol, token) as int, AfterFee(x as int);
            && (bought == 0 || (bought - 1) * sol as int < a * (token as int - bought + 1))
            && (bought == 0 || AfterFee(bought) <= bought - 1)
  {
    var bought, a, s, t := QuoteBuyExactIn(x, sol, token) as int, AfterFee(x as int), sol as int, token as int;
    if bought != 0 {
      BuyQuoteLeast(x, sol, token, bought - 1);
      assert (bought - 1) * (s + a) == (bought - 1) * s + (bought - 1) * a;
      assert a * (t - bought + 1) == t * a - (bought - 1) * a;
    }
  }

  /** With 399 units left in the pool the fees outweigh all the rounding. */
  lemma NoProfitIfEnoughLeft(x: u64, sol: u64, token: u64)
    requires sol as int + x as int < TWO_64
    ensures token as int - QuoteBuyExactIn(x, sol, token) as int >= 399 ==> SellBack(x, sol, token) <= x
  {
    if sol != 0 && token as int - QuoteBuyExactIn(x, sol, token) as int >= 399 {
      var bought := QuoteBuyExactIn(x, sol, token);
      var a, left, s := AfterFee(x as int), (token - bought) as int, sol as int;
      SellBackBound(x, sol, token);
      BoughtAgainstSpent(x, sol, token);
      if bought != 0 {
        MulMonotone(AfterFee(bought as int), bought as int - 1, s);
        assert s * (bought as int - 1) == (bought as int - 1) * s;
        assert a * (left + 1) <= x as int * left by { FeeOutweighsOneUnit(x as int, left); }
      }
    }
  }

  lemma FeeOutweighsOneUnit(x: nat, left: nat)
    requires left >= 399
    ensures AfterFee(x) * (left + 1) <= x * left
  {
    var a := AfterFee(x);
    assert 400 * a <= 399 * x;
    MulMonotone(400 * a, 399 * x, left + 1);
    assert (400 * a) * (left + 1) == 400 * (a * (left + 1));
    assert 399 * x * (left + 1) == 399 * (x * left) + 399 * x;
    MulMonotone(399, left, x);
  }

  /** For 1 to 398 units left there is a pool and a buy that profits: it gets two units for 800 lamports. */
  lemma ProfitIfFewLeft(left: nat) returns (x: u64, sol: u64, token: u64)
    requires 1 <= left <= 398
    ensures sol as int + x as int < TWO_64
    ensures token as int - QuoteBuyExactIn(x, sol, token) as int == left
    ensures SellBack(x, sol, token) > x
  {
    x, sol, token := 800, (798 * (left + 1) - 1) as u64, (left + 2) as u64;
    var a, s, t := AfterFee(x as int), sol as int, token as int;
    assert a == 798;
    BuyQuoteLeast(x, sol, token, 2);
    BuyQuoteLeast(x, sol, token, 1);
    assert QuoteBuyExactIn(x, sol, token) == 2;
    SellBackBound(x, sol, token);
    assert AfterFee(2) == 1;
  }

  /** No round trip profits whose buy leaves `left` units: no pool, no amount. */
  ghost predicate RoundTripSafe(left: nat) {
    forall x: u64, sol: u64, token: u64
      | sol as int + x as int < TWO_64 && token as int - QuoteBuyExactIn(x, sol, token) as int == left
      :: SellBack(x, sol, token) <= x
  }

  /** The exact side condition: an emptied pool quotes nothing back, and from 399 units on fees win. */
  lemma RoundTripSafeIff(left: nat)
    ensures RoundTripSafe(left) <==> left == 0 || left >= 399
  {
    if left == 0 {
    } else if left >= 399 {
      forall x: u64, sol: u64, token: u64
        | sol as int + x as int < TWO_64 && token as int - QuoteBuyExactIn(x, sol, token) as int == left
        ensures SellBack(x, sol, token) <= x
      {
        NoProfitIfEnoughLeft(x, sol, token);
      }
    } else {
      var x, sol, token := ProfitIfFewLeft(left);
    }
  }
}
