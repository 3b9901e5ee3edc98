/** Booking sells against the tracked amount of a position, over any run of sells. Nothing flows in;
    every balance reading may lag, so it may show more than the chain still holds. */
module SaleBooks {
  import opened MachineInts
  import opened NatArithmetic
  import Sells
  import PositionStore

  /** One sale of a position; the chain holds `left` afterwards. A verified sale was booked from a
      balance read before it and one read after it. An unverified one landed, in whole or in part,
      although it was reported as failed. */
  datatype Sale = Verified(pre: nat, reading: nat, left: nat) | Unverified(left: nat)

  predicate PossibleSale(chain: nat, sale: Sale) {
    match sale
    case Verified(pre, reading, left) => chain <= pre && 0 < reading < pre && left <= chain && left <= reading
    case Unverified(left) => left <= chain
  }

  ghost predicate PossibleSales(chain: nat, sales: seq<Sale>)
    decreases |sales|
  {
    sales == [] || (PossibleSale(chain, sales[0]) && PossibleSales(sales[0].left, sales[1..]))
  }

  /** The whole percentage sold, in integers. */
  function SharePct(pre: nat, post: nat): (pct: nat)
    requires post < pre
    ensures pct <= 100
  {
    DivBounds(100 * (pre - post), pre);
    MulStep(pre, 100, 100 * (pre - post) / pre);
    100 * (pre - post) / pre
  }

  /** It is the percentage the code computes from the two balances. */
  lemma SoldPctIsShare(pre: u64, post: u64)
    requires post < pre
    ensures Sells.SoldPct(pre, post) == SharePct(pre as nat, post as nat)
  {
    Sells.SoldPctMeans(pre, post);
    var pct, whole := Sells.SoldPct(pre, post), pre as int;
    assert pct * whole == whole * pct && (pct + 1) * whole == whole * pct + whole;
    DivUnique(100 * (whole - post as int), whole, pct);
  }

  function Booked(tracked: real, sale: Sale): real
    requires sale.Verified? ==> sale.reading < sale.pre
  {
    match sale
    case Verified(pre, reading, _) => PositionStore.AmountAfter(tracked, SharePct(pre, reading))
    case Unverified(_) => tracked
  }

  ghost function AllBooked(tracked: real, chain: nat, sales: seq<Sale>): real
    requires PossibleSales(chain, sales)
    decreases |sales|
  {
    if sales == [] then tracked else AllBooked(Booked(tracked, sales[0]), sales[0].left, sales[1..])
  }

  ghost function LeftOnChain(chain: nat, sales: seq<Sale>): nat {
    if sales == [] then chain else sales[|sales| - 1].left
  }

  // ---------- What one booking keeps ----------

  /** The percentage that stays booked, against the share that was read to be left. */
  lemma KeptPct(pre: nat, post: nat)
    requires post < pre
    ensures var kept := 100 - SharePct(pre, post);
            0 <= kept <= 100 && pre * (kept - 1) < 100 * post <= pre * kept
  {
    var pct := 100 * (pre - post) / pre;
    DivBounds(100 * (pre - post), pre);
    assert pre * (100 - pct) == 100 * pre - pre * pct;
    assert pre * (100 - pct - 1) == 100 * pre - pre * pct - pre;
  }

  lemma AmountKept(tracked: real, pct: nat)
    requires pct <= 100
    ensures 100.0 * PositionStore.AmountAfter(tracked, pct) == tracked * (100 - pct) as real
    ensures tracked >= 0.0 ==> 0.0 <= PositionStore.AmountAfter(tracked, pct) <= tracked
  {
    var share := pct as real / 100.0;
    assert (100 - pct) as real == 100.0 - 100.0 * share;
    Distribute(tracked, share);
    if tracked >= 0.0 {
      MulUnit(tracked, share);
    }
  }

  lemma Distribute(tracked: real, share: real)
    ensures tracked * (100.0 - 100.0 * share) == 100.0 * (tracked - tracked * share)
  {
  }

  lemma MulUnit(d: real, p: real)
    requires d >= 0.0 && 0.0 <= p <= 1.0
    ensures 0.0 <= d * p <= d
  {
  }

  lemma ScaleReal(a: real, b: real, scale: real)
    requires a <= b && scale >= 0.0
    ensures a * scale <= b * scale
  {
  }

  lemma ProductAsReal(a: int, b: int)
    ensures a as real * b as real == (a * b) as real
  {
  }

  /** A booking from a balance within the tracked amount keeps at least the balance read after it. */
  lemma BookedAtLeast(tracked: real, pre: nat, reading: nat)
    requires pre as real <= tracked && reading < pre
    ensures PositionStore.AmountAfter(tracked, SharePct(pre, reading)) >= reading as real
  {
    hide SharePct, PositionStore.AmountAfter;
    var pct := SharePct(pre, reading);
    KeptPct(pre, reading);
    AmountKept(tracked, pct);
    ProductAsReal(pre, 100 - pct);
    ScaleReal(pre as real, tracked, (100 - pct) as real);
  }

  function Excess(tracked: real, amount: nat): real {
    if tracked > amount as real then tracked - amount as real else 0.0
  }

  /** Whatever balance was read before it, a booking keeps less than the balance read after it, plus
      what was tracked in excess, plus one percent. */
  lemma BookedBelow(tracked: real, pre: nat, reading: nat)
    requires tracked >= 0.0 && 0 < reading < pre
    ensures PositionStore.AmountAfter(tracked, SharePct(pre, reading))
            < reading as real + Excess(tracked, pre) + tracked / 100.0
  {
    hide SharePct, PositionStore.AmountAfter;
    var pct := SharePct(pre, reading);
    KeptPct(pre, reading);
    AmountKept(tracked, pct);
    ProductAsReal(pre, 100 - pct - 1);
    KeptBelow(tracked, pre as real, reading as real, (100 - pct) as real);
  }

  lemma KeptBelow(tracked: real, pre: real, reading: real, kept: real)
    requires tracked >= 0.0 && 0.0 < reading && 0.0 <= kept <= 100.0 && pre > 0.0
    requires pre * (kept - 1.0) < 100.0 * reading
    ensures tracked * kept < 100.0 * (reading + (if tracked > pre then tracked - pre else 0.0)) + tracked
  {
    var over, rest := if tracked > pre then tracked - pre else 0.0, kept - 1.0;
    assert tracked * kept == tracked * rest + tracked;
    if rest <= 0.0 {
      NotPositive(tracked, rest);
    } else {
      ScaleReal(tracked, pre + over, rest);
      ScaleReal(0.0, over, 100.0 - rest);
      assert (pre + over) * rest == pre * rest + over * rest;
      assert over * (100.0 - rest) == 100.0 * over - over * rest;
    }
  }

  lemma NotNegative(a: real, b: real)
    requires a >= 0.0 && b >= 0.0
    ensures a * b >= 0.0
  {
  }

  lemma NotPositive(a: real, b: real)
    requires a >= 0.0 && b <= 0.0
    ensures a * b <= 0.0
  {
  }

  // ---------- The tracked amount covers the chain ----------

  /** The balance read before a sale is not more than what is tracked. */
  predicate PreWithin(tracked: real, sale: Sale) {
    sale.Verified? ==> sale.pre as real <= tracked
  }

  lemma BookedCovers(tracked: real, chain: nat, sale: Sale)
    requires chain as real <= tracked && PossibleSale(chain, sale) && PreWithin(tracked, sale)
    ensures Booked(tracked, sale) >= sale.left as real
  {
    if sale.Verified? {
      BookedAtLeast(tracked, sale.pre, sale.reading);
    }
  }

  /** Every verified sale after that reading keeps the chain covered, whatever the later reading
      shows and whatever is left. */
  ghost predicate SafePre(tracked: real, pre: nat) {
    forall chain: nat, reading: nat, left: nat
      | chain as real <= tracked && PossibleSale(chain, Verified(pre, reading, left))
      :: Booked(tracked, Verified(pre, reading, left)) >= left as real
  }

  function Lesser(a: nat, b: nat): nat {
    if a < b then a else b
  }

  /** Keeping `kept` percent of the tracked amount covers all that those percent can stand for. */
  predicate KeepsEnough(tracked: real, pre: nat, kept: nat)
    requires tracked >= 0.0
  {
    tracked * kept as real >= 100.0 * Lesser(kept * pre / 100, tracked.Floor) as real
  }

  /** A check on the two numbers known before the sale. */
  predicate PreCovered(tracked: real, pre: nat)
    requires tracked >= 0.0
  {
    forall kept | 1 <= kept <= 99 :: KeepsEnough(tracked, pre, kept)
  }

  lemma CoversReading(pre: nat, reading: nat, kept: int)
    requires 0 < reading && 100 * reading <= pre * kept
    ensures kept > 0 && reading <= kept * pre / 100
  {
    assert pre * kept == kept * pre;
    if kept <= 0 {
      MulStep(pre, kept, 0);
    }
  }

  lemma KeepsAtLeast(tracked: real, pre: nat, kept: nat, left: nat)
    requires tracked >= 0.0 && KeepsEnough(tracked, pre, kept)
    requires left <= kept * pre / 100 && left as real <= tracked
    ensures tracked * kept as real >= 100.0 * left as real
  {
    assert left <= tracked.Floor;
  }

  lemma SafeIfCovered(tracked: real, pre: nat, reading: nat, left: nat)
    requires tracked >= 0.0 && PreCovered(tracked, pre)
    requires 0 < reading < pre && left <= reading && left as real <= tracked
    ensures PositionStore.AmountAfter(tracked, SharePct(pre, reading)) >= left as real
  {
    hide SharePct, PositionStore.AmountAfter, KeepsEnough;
    var pct := SharePct(pre, reading);
    KeptPct(pre, reading);
    AmountKept(tracked, pct);
    CoversReading(pre, reading, 100 - pct);
    if pct > 0 {
      KeepsAtLeast(tracked, pre, 100 - pct, left);
    }
  }

  lemma ReadingFor(pre: nat, kept: nat)
    requires 1 <= kept <= 99 && kept * pre / 100 > 0
    ensures var reading := kept * pre / 100;
            reading < pre && 100 - SharePct(pre, reading) <= kept
  {
    hide SharePct;
    var reading := kept * pre / 100;
    assert kept * pre == pre * kept;
    MulStep(pre, kept, 99);
    KeptPct(pre, reading);
    MulStep(pre, kept, 100 - SharePct(pre, reading) - 1);
  }

  /** Where the check fails there is a reading that books too little. */
  lemma UncoveredLoses(tracked: real, pre: nat, kept: nat) returns (reading: nat, left: nat)
    requires tracked >= 0.0 && 1 <= kept <= 99 && !KeepsEnough(tracked, pre, kept)
    ensures 0 < reading < pre && left <= reading && left as real <= tracked
    ensures PositionStore.AmountAfter(tracked, SharePct(pre, reading)) < left as real
  {
    hide SharePct, PositionStore.AmountAfter;
    reading, left := kept * pre / 100, Lesser(kept * pre / 100, tracked.Floor);
    NotNegative(tracked, kept as real);
    ReadingFor(pre, kept);
    var pct := SharePct(pre, reading);
    AmountKept(tracked, pct);
    KeepsMore(tracked, 100 - pct, kept);
  }

  lemma KeepsMore(tracked: real, a: nat, b: nat)
    requires tracked >= 0.0 && a <= b
    ensures tracked * a as real <= tracked * b as real
  {
    ScaleReal(a as real, b as real, tracked);
  }

  /** Exactly when a balance read before a sale is safe: at most 99 comparisons of numbers at hand. */
  lemma SafePreIff(tracked: real, pre: nat)
    requires tracked >= 0.0
    ensures SafePre(tracked, pre) <==> PreCovered(tracked, pre)
  {
    if PreCovered(tracked, pre) {
      forall chain: nat, reading: nat, left: nat
        | chain as real <= tracked && PossibleSale(chain, Verified(pre, reading, left))
        ensures Booked(tracked, Verified(pre, reading, left)) >= left as real
      {
        SafeIfCovered(tracked, pre, reading, left);
      }
    } else {
      var kept :| 1 <= kept <= 99 && !KeepsEnough(tracked, pre, kept);
      var reading, left := UncoveredLoses(tracked, pre, kept);
      assert PossibleSale(left, Verified(pre, reading, left));
    }
  }

  /** Half of an even balance, or a fifth of one divisible by five, is a reading that fails. */
  lemma TooMuchRead(tracked: real, pre: nat)
    requires tracked >= 1.0 && pre as real > tracked && (pre % 2 == 0 || pre % 5 == 0)
    ensures !PreCovered(tracked, pre)
  {
    var n := tracked.Floor;
    if pre % 2 == 0 {
      assert 50 * pre / 100 == pre / 2;
      assert !KeepsEnough(tracked, pre, 50);
    } else {
      assert 20 * pre / 100 == pre / 5;
      assert !KeepsEnough(tracked, pre, 20);
    }
  }

  /** For a balance divisible by 2 or by 5, and at least one unit tracked, that is one comparison. */
  lemma SafePreWithinIff(tracked: real, pre: nat)
    requires tracked >= 1.0 && (pre % 2 == 0 || pre % 5 == 0)
    ensures SafePre(tracked, pre) <==> pre as real <= tracked
  {
    hide SafePre, PreCovered;
    SafePreIff(tracked, pre);
    if pre as real <= tracked {
      WithinPasses(tracked, pre);
    } else {
      TooMuchRead(tracked, pre);
    }
  }

  /** Within the tracked amount every balance passes the check. */
  lemma WithinPasses(tracked: real, pre: nat)
    requires pre as real <= tracked
    ensures PreCovered(tracked, pre)
  {
    hide Booked, PreCovered;
    forall chain: nat, reading: nat, left: nat
      | chain as real <= tracked && PossibleSale(chain, Verified(pre, reading, left))
      ensures Booked(tracked, Verified(pre, reading, left)) >= left as real
    {
      BookedCovers(tracked, chain, Verified(pre, reading, left));
    }
    SafePreIff(tracked, pre);
  }

  // ---------- Runs of sales ----------

  /** The check, for any tracked amount. */
  predicate PassesCheck(tracked: real, pre: nat) {
    tracked >= 0.0 ==> PreCovered(tracked, pre)
  }

  ghost predicate AllPassCheck(tracked: real, chain: nat, sales: seq<Sale>)
    requires PossibleSales(chain, sales)
    decreases |sales|
  {
    sales == [] ||
    ((sales[0].Verified? ==> PassesCheck(tracked, sales[0].pre)) &&
     AllPassCheck(Booked(tracked, sales[0]), sales[0].left, sales[1..]))
  }

  /** Over any run of sales, whose readings may all lag, the tracked amount never drops below what
      the chain holds, as long as the balance before every verified sale passes the check. */
  lemma {:induction false} TrackedCoversChain(tracked: real, chain: nat, sales: seq<Sale>)
    requires chain as real <= tracked && PossibleSales(chain, sales) && AllPassCheck(tracked, chain, sales)
    ensures AllBooked(tracked, chain, sales) >= LeftOnChain(chain, sales) as real
    decreases |sales|
  {
    if sales != [] {
      hide PreCovered, SharePct, PositionStore.AmountAfter;
      if sales[0].Verified? {
        SafeIfCovered(tracked, sales[0].pre, sales[0].reading, sales[0].left);
      }
      TrackedCoversChain(Booked(tracked, sales[0]), sales[0].left, sales[1..]);
    }
  }

  /** A lagging balance before the second sale: 100 were bought, half is left, and a quarter is booked. */
  lemma StalePreReadingLoses()
    ensures var sales := [Verified(100, 50, 50), Verified(100, 50, 50)];
            && PossibleSales(100, sales)
            && AllBooked(100.0, 100, sales) == 25.0 && LeftOnChain(100, sales) == 50
  {
    var sales := [Verified(100, 50, 50), Verified(100, 50, 50)];
    assert sales[1..] == [Verified(100, 50, 50)] && sales[1..][1..] == [];
    assert PossibleSales(50, sales[1..]);
    assert SharePct(100, 50) == 50;
    assert Booked(100.0, sales[0]) == 50.0 && Booked(50.0, sales[1]) == 25.0;
    assert AllBooked(50.0, 50, sales[1..]) == 25.0;
  }

  // ---------- Drift ----------

  /** n percent of an amount */
  function Percent(n: nat, amount: nat): real {
    n as real * (amount as real / 100.0)
  }

  lemma PercentSteps(n: nat, amount: nat)
    ensures Percent(0, amount) == 0.0
    ensures Percent(n + 1, amount) == Percent(n, amount) + amount as real / 100.0
  {
  }

  /** What a sale took off the chain without the books being able to see it. */
  function Hidden(chain: nat, sale: Sale): nat
    requires PossibleSale(chain, sale)
  {
    match sale
    case Verified(_, reading, left) => reading - left
    case Unverified(left) => chain - left
  }

  ghost function AllHidden(chain: nat, sales: seq<Sale>): nat
    requires PossibleSales(chain, sales)
    decreases |sales|
  {
    if sales == [] then 0 else Hidden(chain, sales[0]) + AllHidden(sales[0].left, sales[1..])
  }

  /** One verified partial sale drifts by less than one percent of the tracked amount, beyond the
      drift there was and the lag of the reading it is booked from; and it drifts upwards if the
      balance read before it was within the tracked amount. */
  lemma PartialSaleDrift(tracked: real, chain: nat, sale: Sale)
    requires tracked >= 0.0 && PossibleSale(chain, sale) && sale.Verified?
    ensures Booked(tracked, sale) - sale.left as real
            < Excess(tracked, chain) + Hidden(chain, sale) as real + tracked / 100.0
    ensures PreWithin(tracked, sale) ==> Booked(tracked, sale) >= sale.reading as real
  {
    BookedBelow(tracked, sale.pre, sale.reading);
    if PreWithin(tracked, sale) {
      BookedAtLeast(tracked, sale.pre, sale.reading);
    }
  }

  lemma SaleDrift(tracked: real, chain: nat, bought: nat, sale: Sale)
    requires 0.0 <= tracked <= bought as real && 0 < bought && PossibleSale(chain, sale)
    ensures 0.0 <= Booked(tracked, sale) <= bought as real
    ensures Excess(Booked(tracked, sale), sale.left)
            < Excess(tracked, chain) + Hidden(chain, sale) as real + bought as real / 100.0
  {
    if sale.Verified? {
      PartialSaleDrift(tracked, chain, sale);
      AmountKept(tracked, SharePct(sale.pre, sale.reading));
    }
  }

  lemma {:induction false} DriftPerSale(tracked: real, chain: nat, bought: nat, sales: seq<Sale>)
    requires 0.0 <= tracked <= bought as real && 0 < bought && PossibleSales(chain, sales)
    ensures var drift, bound := Excess(AllBooked(tracked, chain, sales), LeftOnChain(chain, sales)),
                                Excess(tracked, chain) + AllHidden(chain, sales) as real + Percent(|sales|, bought);
            if sales == [] then drift == bound else drift < bound
    decreases |sales|
  {
    hide Percent, Excess, Hidden, PositionStore.AmountAfter, SharePct;
    PercentSteps(if sales == [] then 0 else |sales| - 1, bought);
    if sales != [] {
      SaleDrift(tracked, chain, bought, sales[0]);
      DriftPerSale(Booked(tracked, sales[0]), sales[0].left, bought, sales[1..]);
      assert LeftOnChain(chain, sales) == LeftOnChain(sales[0].left, sales[1..]);
    }
  }

  /** Bought and tracked exactly, n sales of any kind and with any lag drift by less than n percent of
      the amount bought, beyond what the books could not see; and never downwards as long as the
      balance before every verified sale passes the check. */
  lemma TotalDrift(bought: nat, sales: seq<Sale>)
    requires 0 < bought && PossibleSales(bought, sales) && sales != []
    ensures var drift := AllBooked(bought as real, bought, sales) - LeftOnChain(bought, sales) as real;
            && drift < AllHidden(bought, sales) as real + Percent(|sales|, bought)
            && (AllPassCheck(bought as real, bought, sales) ==> drift >= 0.0)
  {
    DriftPerSale(bought as real, bought, bought, sales);
    if AllPassCheck(bought as real, bought, sales) {
      TrackedCoversChain(bought as real, bought, sales);
    }
  }
}
