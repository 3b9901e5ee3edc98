/** Trading modes, the parameters each one derives, and its graduated take-profit tiers.
    Percentages and prices are real numbers. */
module TradingProfiles {
  datatype TradingMode = Snipe | Scalp | Hold

  datatype TradingProfile = TradingProfile(
    mode: TradingMode,
    takeProfitPct: real,
    stopLossPct: real,
    trailingStopPct: real,
    trailingGatePct: real,
    timeStopSecs: nat,
    timeStopMinPnl: real,
    maxHoldSecs: nat,
    maxAgeMinPnl: real)

  function FromMode(mode: TradingMode, maxHoldOverride: nat): TradingProfile {
    match mode
    case Snipe =>
      TradingProfile(mode, takeProfitPct := 5.0, stopLossPct := 5.0, trailingStopPct := 3.0, trailingGatePct := 3.0,
                     timeStopSecs := 30, timeStopMinPnl := 1.0,
                     maxHoldSecs := if maxHoldOverride > 0 then maxHoldOverride else 120, maxAgeMinPnl := 2.0)
    case Scalp =>
      TradingProfile(mode, takeProfitPct := 20.0, stopLossPct := 10.0, trailingStopPct := 5.0, trailingGatePct := 10.0,
                     timeStopSecs := 120, timeStopMinPnl := 3.0,
                     maxHoldSecs := if maxHoldOverride > 0 then maxHoldOverride else 600, maxAgeMinPnl := 5.0)
    case Hold =>
      TradingProfile(mode, takeProfitPct := 100.0, stopLossPct := 50.0, trailingStopPct := 30.0,
                     trailingGatePct := 30.0, timeStopSecs := 600, timeStopMinPnl := 10.0,
                     maxHoldSecs := if maxHoldOverride > 0 then maxHoldOverride else 14400, maxAgeMinPnl := 10.0)
  }

  datatype Tier = Tier(triggerPct: real, sellPct: nat)

  function TiersForMode(mode: TradingMode): seq<Tier> {
    match mode
    case Snipe => [Tier(5.0, 100)]
    case Scalp => [Tier(10.0, 50), Tier(20.0, 70), Tier(50.0, 100)]
    case Hold => [Tier(50.0, 50), Tier(100.0, 60), Tier(200.0, 100)]
  }
}

/** One trading position: what a price does to it and the exit conditions it answers. */
module Positions {
  import opened Options
  import opened TradingProfiles

  type Mint = string
  type Id = string

  /** Nanoseconds of the wall clock. */
  type Time = int

  const NANOS_PER_SEC: int := 1_000_000_000

  datatype Status = Open | ClosedTp | ClosedSl | ClosedManual | ClosedError

  datatype Position = Position(
    id: Id,
    mint: Mint,
    entryPrice: real,
    entryAmount: real,
    tokenAmount: real,
    currentPrice: real,
    highestPrice: real,
    takeProfitPct: real,
    stopLossPct: real,
    trailingStopPct: Option<real>,
    pnlSol: real,
    pnlPct: real,
    status: Status,
    sellTx: Option<string>,
    openedAt: Time,
    closedAt: Option<Time>,
    ageSecs: nat,
    priceStale: bool,
    lastPriceAt: Option<Time>,
    walletSolAtOpen: real)
  {
    /** Whole seconds since opening, never negative. */
    function AgeAt(now: Time): nat {
      if now < openedAt then 0 else (now - openedAt) / NANOS_PER_SEC
    }

    function UpdatePnl(price: real, now: Time): Position {
      this.(currentPrice := price,
            highestPrice := if price > highestPrice then price else highestPrice,
            pnlSol := (price - entryPrice) * tokenAmount,
            pnlPct := if entryPrice > 0.0 then (price / entryPrice - 1.0) * 100.0 else pnlPct,
            ageSecs := AgeAt(now))
    }

    predicate ShouldTakeProfit() {
      pnlPct >= takeProfitPct
    }

    predicate ShouldStopLoss() {
      pnlPct <= -stopLossPct
    }

    /** How far the price is below its high, in percent of the high. */
    function DropFromHigh(): real {
      if highestPrice > 0.0 then (highestPrice - currentPrice) / highestPrice * 100.0 else 0.0
    }

    predicate ShouldTrailingStop() {
      trailingStopPct.Some? && highestPrice > 0.0 && DropFromHigh() >= trailingStopPct.value
    }
  }

  /** A position as a buy opens it. */
  function NewPosition(profile: TradingProfile, id: Id, mint: Mint, entryPrice: real, entryAmount: real,
                       tokenAmount: real, walletSolAtOpen: real, now: Time): Position
  {
    Position(id, mint, entryPrice, entryAmount, tokenAmount, entryPrice, entryPrice,
             profile.takeProfitPct, profile.stopLossPct, Some(profile.trailingStopPct),
             0.0, 0.0, Open, None, now, None, 0, false, None, walletSolAtOpen)
  }
}

/** The position manager: an in-memory cache by mint in front of database rows by id. */
module PositionStore {
  import opened Options
  import opened TradingProfiles
  import opened Positions

  datatype Store = Store(cache: map<Mint, Position>, rows: map<Id, Position>)

  const EMPTY: Store := Store(map[], map[])

  predicate IsOpen(cache: map<Mint, Position>, mint: Mint) {
    mint in cache && cache[mint].status == Open
  }

  /** The columns of a row: everything but the age, which loads back as zero. */
  function AsRow(p: Position): Position {
    p.(ageSecs := 0)
  }

  function Persisted(s: Store, p: Position): Store {
    s.(rows := s.rows[p.id := AsRow(p)])
  }

  /** Replaces the cached entry and writes it through. */
  function Written(s: Store, mint: Mint, p: Position): Store {
    Persisted(s.(cache := s.cache[mint := p]), p)
  }

  function Opened(s: Store, p: Position): Store {
    if IsOpen(s.cache, p.mint) then s else Written(s, p.mint, p)
  }

  function Repriced(p: Position, price: real, stale: bool, now: Time): Position {
    if stale then p.(priceStale := true)
    else p.(priceStale := false).UpdatePnl(price, now).(lastPriceAt := Some(now))
  }

  /** A price tick stays in memory. */
  function Ticked(s: Store, mint: Mint, price: real, stale: bool, now: Time): Store {
    if mint !in s.cache then s
    else s.(cache := s.cache[mint := Repriced(s.cache[mint], price, stale, now)])
  }

  function WithRealizedPnl(p: Position, walletSol: real): Position {
    if p.walletSolAtOpen <= 0.0 then p
    else
      var realized := walletSol - p.walletSolAtOpen;
      p.(pnlSol := realized,
         pnlPct := if p.entryAmount > 0.0 then realized / p.entryAmount * 100.0 else 0.0)
  }

  function Realized(s: Store, mint: Mint, walletSol: real): Store {
    if mint !in s.cache then s
    else s.(cache := s.cache[mint := WithRealizedPnl(s.cache[mint], walletSol)])
  }

  function ClosedWith(s: Store, mint: Mint, tx: string, status: Status, now: Time): Store {
    if mint !in s.cache then s
    else Written(s, mint, s.cache[mint].(status := status, sellTx := Some(tx), closedAt := Some(now)))
  }

  function WithoutPnl(p: Position): Position {
    if p.pnlSol != 0.0 then p.(pnlSol := 0.0, pnlPct := 0.0) else p
  }

  function Cleared(s: Store, mint: Mint): Store {
    if mint !in s.cache then s else s.(cache := s.cache[mint := WithoutPnl(s.cache[mint])])
  }

  function FailedClosed(s: Store, mint: Mint, now: Time): Store {
    ClosedWith(s, mint, "sell_failed", ClosedError, now)
  }

  /** A failed sell: the PnL is cleared under one lock, and the position closed under another. */
  function ErrorClosed(s: Store, mint: Mint, now: Time): Store {
    if !IsOpen(s.cache, mint) then s else FailedClosed(Cleared(s, mint), mint, now)
  }

  function AmountAfter(amount: real, sellPct: nat): real {
    amount - amount * (sellPct as real / 100.0)
  }

  function AfterSale(p: Position, sellPct: nat, tx: string, now: Time): Position {
    var left := AmountAfter(p.tokenAmount, sellPct);
    if left <= 0.0 then p.(tokenAmount := 0.0, status := ClosedTp, sellTx := Some(tx), closedAt := Some(now))
    else p.(tokenAmount := left)
  }

  function Reduced(s: Store, mint: Mint, sellPct: nat, tx: string, now: Time): Store {
    if mint !in s.cache then s else Written(s, mint, AfterSale(s.cache[mint], sellPct, tx, now))
  }

  /** Reads the listed rows into the cache, one after the other. */
  function Loaded(s: Store, order: seq<Id>): Store
    requires forall id | id in order :: id in s.rows
    decreases |order|
  {
    if order == [] then s
    else
      var row := s.rows[order[0]];
      Loaded(s.(cache := s.cache[row.mint := AsRow(row)]), order[1..])
  }

  /** What `SELECT ... WHERE status = 'Open'` may return: every open row once, in any order. */
  ghost predicate ListsOpenRows(rows: map<Id, Position>, order: seq<Id>) {
    && (forall id :: id in order <==> id in rows && rows[id].status == Open)
    && (forall i, j | 0 <= i < j < |order| :: order[i] != order[j])
  }

  class PositionManager {
    var positions: map<Mint, Position>
    var db: map<Id, Position>
    const profile: TradingProfile

    ghost function State(): Store
      reads this
    {
      Store(positions, db)
    }

    constructor (profile: TradingProfile, db: map<Id, Position>)
      ensures State() == Store(map[], db) && this.profile == profile
    {
      positions := map[];
      this.db := db;
      this.profile := profile;
    }

    method PersistPosition(p: Position)
      modifies this`db
      ensures State() == Persisted(old(State()), p)
    {
      db := db[p.id := AsRow(p)];
    }

    /** The check and the insert happen under one lock; the row is written after it. */
    method OpenPosition(id: Id, mint: Mint, entryPrice: real, entryAmount: real, tokenAmount: real,
                        walletSolAtOpen: real, now: Time) returns (r: Option<Position>)
      modifies this
      ensures var p := NewPosition(profile, id, mint, entryPrice, entryAmount, tokenAmount, walletSolAtOpen, now);
              && State() == Opened(old(State()), p)
              && r == (if IsOpen(old(positions), mint) then None else Some(p))
    {
      var position := NewPosition(profile, id, mint, entryPrice, entryAmount, tokenAmount, walletSolAtOpen, now);
      if mint in positions {
        if positions[mint].status == Open {
          return None;
        }
      }
      positions := positions[mint := position];
      PersistPosition(position);
      r := Some(position);
    }

    method UpdatePriceWithStale(mint: Mint, price: real, stale: bool, now: Time)
      modifies this`positions
      ensures State() == Ticked(old(State()), mint, price, stale, now)
    {
      if mint in positions {
        var pos := positions[mint].(priceStale := stale);
        if !stale {
          pos := pos.UpdatePnl(price, now);
          pos := pos.(lastPriceAt := Some(now));
        }
        positions := positions[mint := pos];
      }
    }

    method UpdatePnlRealized(mint: Mint, currentWalletSol: real)
      modifies this`positions
      ensures State() == Realized(old(State()), mint, currentWalletSol)
    {
      if mint in positions {
        var pos := positions[mint];
        if pos.walletSolAtOpen <= 0.0 {
          assert positions[mint := pos] == positions;
          return;
        }
        var realized := currentWalletSol - pos.walletSolAtOpen;
        var pct := if pos.entryAmount > 0.0 then realized / pos.entryAmount * 100.0 else 0.0;
        positions := positions[mint := pos.(pnlSol := realized, pnlPct := pct)];
      }
    }

    method ClosePositionWithStatus(mint: Mint, sellTx: string, status: Status, now: Time)
      modifies this
      ensures State() == ClosedWith(old(State()), mint, sellTx, status, now)
    {
      if mint in positions {
        var pos := positions[mint];
        pos := pos.(status := status, sellTx := Some(sellTx), closedAt := Some(now));
        positions := positions[mint := pos];
        PersistPosition(pos);
      }
    }

    method ClosePosition(mint: Mint, sellTx: string, now: Time)
      modifies this
      ensures State() == ClosedWith(old(State()), mint, sellTx, ClosedManual, now)
    {
      ClosePositionWithStatus(mint, sellTx, ClosedManual, now);
    }

    method ClosePositionError(mint: Mint, now: Time)
      modifies this
      ensures State() == ErrorClosed(old(State()), mint, now)
    {
      var alreadyClosed := if mint in positions then positions[mint].status != Open else true;
      if alreadyClosed {
        return;
      }
      var pos := positions[mint];
      if pos.pnlSol != 0.0 {
        pos := pos.(pnlSol := 0.0, pnlPct := 0.0);
      }
      positions := positions[mint := pos];
      ClosePositionWithStatus(mint, "sell_failed", ClosedError, now);
    }

    method ReducePosition(mint: Mint, sellPct: nat, sellTx: string, now: Time)
      modifies this
      ensures State() == Reduced(old(State()), mint, sellPct, sellTx, now)
    {
      if mint in positions {
        var pos := positions[mint];
        var reduction := pos.tokenAmount * (sellPct as real / 100.0);
        assert pos.tokenAmount - reduction == AmountAfter(pos.tokenAmount, sellPct);
        pos := pos.(tokenAmount := pos.tokenAmount - reduction);
        if pos.tokenAmount <= 0.0 {
          pos := pos.(tokenAmount := 0.0, status := ClosedTp, sellTx := Some(sellTx), closedAt := Some(now));
        }
        assert pos == AfterSale(positions[mint], sellPct, sellTx, now);
        positions := positions[mint := pos];
        PersistPosition(pos);
      }
    }

    predicate IsOpenPosition(mint: Mint)
      reads this`positions
    {
      if mint in positions then positions[mint].status == Open else false
    }

    /** `order` is the order in which the database returns the open rows. */
    method LoadFromDb(order: seq<Id>)
      requires ListsOpenRows(db, order)
      modifies this`positions
      ensures State() == Loaded(old(State()), order)
    {
      ghost var goal := Loaded(State(), order);
      assert order[0..] == order;
      for i := 0 to |order|
        invariant Loaded(State(), order[i..]) == goal
      {
        assert order[i..][0] == order[i] && order[i..][1..] == order[i + 1..];
        assert order[i] in order;
        var row := AsRow(db[order[i]]);
        positions := positions[row.mint := row];
      }
      assert order[|order|..] == [];
    }
  }

  // ---------- Operations as one transition function ----------

  datatype Op =
    | Buy(position: Position)
    | Price(mint: Mint, price: real, stale: bool, now: Time)
    | RealizePnl(mint: Mint, walletSol: real)
    | ClearPnl(mint: Mint)
    | Close(mint: Mint, tx: string, status: Status, now: Time)
    | Reduce(mint: Mint, sellPct: nat, tx: string, now: Time)
    | Restart(order: seq<Id>)

  /** A buy carries a fresh id, and a restart reads back what the database holds. */
  ghost predicate CanApply(s: Store, op: Op) {
    && (op.Buy? ==> op.position.id !in s.rows && op.position.status == Open)
    && (op.Close? ==> op.status != Open)
    && (op.Restart? ==> ListsOpenRows(s.rows, op.order))
  }

  ghost function Apply(s: Store, op: Op): Store
    requires CanApply(s, op)
  {
    match op
    case Buy(p) => Opened(s, p)
    case Price(mint, price, stale, now) => Ticked(s, mint, price, stale, now)
    case RealizePnl(mint, walletSol) => Realized(s, mint, walletSol)
    case ClearPnl(mint) => Cleared(s, mint)
    case Close(mint, tx, status, now) => ClosedWith(s, mint, tx, status, now)
    case Reduce(mint, sellPct, tx, now) => Reduced(s, mint, sellPct, tx, now)
    case Restart(order) => Loaded(s.(cache := map[]), order)
  }

  ghost predicate CanApplyAll(s: Store, ops: seq<Op>)
    decreases |ops|
  {
    ops == [] || (CanApply(s, ops[0]) && CanApplyAll(Apply(s, ops[0]), ops[1..]))
  }

  ghost function ApplyAll(s: Store, ops: seq<Op>): Store
    requires CanApplyAll(s, ops)
    decreases |ops|
  {
    if ops == [] then s else ApplyAll(Apply(s, ops[0]), ops[1..])
  }

  // ---------- Cache and database agree ----------

  ghost predicate Filed(s: Store) {
    forall m | m in s.cache :: s.cache[m].mint == m
  }

  /** Same record in everything that survives a restart unchanged by price ticks. */
  predicate SameRecord(p: Position, row: Position) {
    && p.id == row.id && p.mint == row.mint && p.status == row.status
    && p.entryPrice == row.entryPrice && p.entryAmount == row.entryAmount && p.tokenAmount == row.tokenAmount
    && p.takeProfitPct == row.takeProfitPct && p.stopLossPct == row.stopLossPct
    && p.trailingStopPct == row.trailingStopPct
    && p.sellTx == row.sellTx && p.openedAt == row.openedAt && p.closedAt == row.closedAt
    && p.walletSolAtOpen == row.walletSolAtOpen
  }

  ghost predicate CacheWritten(s: Store) {
    forall m | m in s.cache :: s.cache[m].id in s.rows && SameRecord(s.cache[m], s.rows[s.cache[m].id])
  }

  ghost predicate OpenRowsCached(s: Store) {
    forall id | id in s.rows ::
      && s.rows[id].id == id
      && (s.rows[id].status == Open ==> s.rows[id].mint in s.cache && s.cache[s.rows[id].mint].id == id)
  }

  /** Every cached position has its row, and every open row is the cached position of its mint. */
  ghost predicate Agreement(s: Store) {
    Filed(s) && CacheWritten(s) && OpenRowsCached(s)
  }

  /** Changing only what a row does not carry keeps the agreement. */
  lemma MemoryOnlyAgrees(s: Store, mint: Mint, p: Position)
    requires Agreement(s) && mint in s.cache && SameRecord(p, s.cache[mint])
    ensures Agreement(s.(cache := s.cache[mint := p]))
  {
  }

  /** Writing a changed record of the same position through keeps the agreement. */
  lemma WrittenAgrees(s: Store, mint: Mint, p: Position)
    requires Agreement(s) && mint in s.cache && p.mint == mint && p.id == s.cache[mint].id
    requires s.cache[mint].status == Open || p.status != Open
    ensures Agreement(Written(s, mint, p))
  {
    var s' := Written(s, mint, p);
    forall m | m in s'.cache
      ensures s'.cache[m].id in s'.rows && SameRecord(s'.cache[m], s'.rows[s'.cache[m].id])
    {
      if m != mint {
        assert SameRecord(s.cache[m], s.rows[s.cache[m].id]) && SameRecord(s.cache[mint], s.rows[p.id]);
      }
    }
  }

  lemma OpenedAgrees(s: Store, p: Position)
    requires Agreement(s) && p.id !in s.rows && p.status == Open
    ensures Agreement(Opened(s, p))
  {
    if !IsOpen(s.cache, p.mint) {
      var s' := Written(s, p.mint, p);
      forall id | id in s'.rows
        ensures s'.rows[id].id == id
        ensures s'.rows[id].status == Open ==> s'.rows[id].mint in s'.cache && s'.cache[s'.rows[id].mint].id == id
      {
        if id != p.id && s.rows[id].status == Open {
          assert s.rows[id].mint != p.mint by {
            assert SameRecord(s.cache[s.rows[id].mint], s.rows[id]);
          }
        }
      }
    }
  }

  lemma AfterSaleSameId(p: Position, sellPct: nat, tx: string, now: Time)
    ensures var q := AfterSale(p, sellPct, tx, now);
            q.id == p.id && q.mint == p.mint && (p.status == Open || q.status != Open)
  {
  }

  // ---------- Restart ----------

  /** The open part of the store as the rows tell it. */
  function OpenRows(s: Store): map<Mint, Position>
    requires forall m | m in s.cache :: s.cache[m].id in s.rows
  {
    map m | m in s.cache && s.cache[m].status == Open :: AsRow(s.rows[s.cache[m].id])
  }

  ghost predicate OneRowPerMint(rows: map<Id, Position>, order: seq<Id>) {
    && (forall id | id in order :: id in rows)
    && (forall i, j | 0 <= i < j < |order| :: rows[order[i]].mint != rows[order[j]].mint)
  }

  lemma OneRowPerMintRest(rows: map<Id, Position>, order: seq<Id>)
    requires OneRowPerMint(rows, order) && order != []
    ensures OneRowPerMint(rows, order[1..])
    ensures forall id | id in order[1..] :: rows[id].mint != rows[order[0]].mint
  {
    var rest := order[1..];
    assert forall i | 0 <= i < |rest| :: rest[i] == order[i + 1];
    forall id | id in rest
      ensures id in order && rows[id].mint != rows[order[0]].mint
    {
      var i :| 0 <= i < |rest| && rest[i] == id;
      assert order[i + 1] == id;
    }
  }

  lemma {:induction false} LoadedExactly(s: Store, order: seq<Id>)
    requires OneRowPerMint(s.rows, order)
    ensures Loaded(s, order).rows == s.rows
    ensures forall id | id in order ::
      s.rows[id].mint in Loaded(s, order).cache && Loaded(s, order).cache[s.rows[id].mint] == AsRow(s.rows[id])
    ensures forall m | m in s.cache && (forall id | id in order :: s.rows[id].mint != m) ::
      m in Loaded(s, order).cache && Loaded(s, order).cache[m] == s.cache[m]
    ensures forall m | m in Loaded(s, order).cache :: m in s.cache || exists id :: id in order && s.rows[id].mint == m
    decreases |order|
  {
    if order != [] {
      var row := s.rows[order[0]];
      var s1 := s.(cache := s.cache[row.mint := AsRow(row)]);
      OneRowPerMintRest(s.rows, order);
      LoadedExactly(s1, order[1..]);
      assert forall id :: id in order <==> id == order[0] || id in order[1..];
      assert Loaded(s, order) == Loaded(s1, order[1..]);
    }
  }

  lemma OpenRowsDistinct(s: Store, order: seq<Id>)
    requires Agreement(s) && ListsOpenRows(s.rows, order)
    ensures OneRowPerMint(s.rows, order)
  {
    forall i, j | 0 <= i < j < |order|
      ensures s.rows[order[i]].mint != s.rows[order[j]].mint
    {
      assert order[i] in order && order[j] in order && order[i] != order[j];
    }
  }

  lemma LoadedOpen(s: Store, order: seq<Id>)
    requires Agreement(s) && ListsOpenRows(s.rows, order)
    ensures Loaded(s.(cache := map[]), order) == Store(OpenRows(s), s.rows)
  {
    OpenRowsDistinct(s, order);
    LoadedExactly(s.(cache := map[]), order);
    var s' := Loaded(s.(cache := map[]), order);
    forall m | m in s'.cache
      ensures m in OpenRows(s) && s'.cache[m] == OpenRows(s)[m]
    {
      var id :| id in order && s.rows[id].mint == m;
      assert SameRecord(s.cache[m], s.rows[id]);
    }
    forall m | m in OpenRows(s)
      ensures m in s'.cache
    {
      var id := s.cache[m].id;
      assert SameRecord(s.cache[m], s.rows[id]) && id in order;
    }
    assert s'.cache == OpenRows(s);
  }

  /** A restart recovers exactly the open positions, whatever order the rows come in. */
  lemma RestartRecoversOpen(s: Store, order: seq<Id>)
    requires Agreement(s) && ListsOpenRows(s.rows, order)
    ensures var s' := Loaded(s.(cache := map[]), order);
            && s'.rows == s.rows
            && (forall m :: m in s'.cache <==> IsOpen(s.cache, m))
            && (forall m | m in s'.cache ::
                  SameRecord(s'.cache[m], s.cache[m]) && s'.cache[m] == AsRow(s.rows[s.cache[m].id]))
            && Agreement(s')
  {
    hide ListsOpenRows, Loaded;
    LoadedOpen(s, order);
  }

  lemma ApplyAgrees(s: Store, op: Op)
    requires Agreement(s) && CanApply(s, op)
    ensures Agreement(Apply(s, op))
  {
    match op
    case Buy(p) => OpenedAgrees(s, p);
    case Price(mint, price, stale, now) =>
      if mint in s.cache {
        MemoryOnlyAgrees(s, mint, Repriced(s.cache[mint], price, stale, now));
      }
    case RealizePnl(mint, walletSol) =>
      if mint in s.cache {
        MemoryOnlyAgrees(s, mint, WithRealizedPnl(s.cache[mint], walletSol));
      }
    case ClearPnl(mint) =>
      if mint in s.cache {
        MemoryOnlyAgrees(s, mint, WithoutPnl(s.cache[mint]));
      }
    case Close(mint, tx, status, now) =>
      if mint in s.cache {
        WrittenAgrees(s, mint, s.cache[mint].(status := status, sellTx := Some(tx), closedAt := Some(now)));
      }
    case Reduce(mint, sellPct, tx, now) =>
      if mint in s.cache {
        AfterSaleSameId(s.cache[mint], sellPct, tx, now);
        WrittenAgrees(s, mint, AfterSale(s.cache[mint], sellPct, tx, now));
      }
    case Restart(order) => RestartRecoversOpen(s, order);
  }

  /** Cache and database agree after any sequence of operations and restarts. */
  lemma {:induction false} AlwaysAgree(s: Store, ops: seq<Op>)
    requires Agreement(s) && CanApplyAll(s, ops)
    ensures Agreement(ApplyAll(s, ops))
    decreases |ops|
  {
    if ops != [] {
      ApplyAgrees(s, ops[0]);
      AlwaysAgree(Apply(s, ops[0]), ops[1..]);
    }
  }

  // ---------- Counting open positions ----------

  function OpenMints(cache: map<Mint, Position>): set<Mint> {
    set m | m in cache && cache[m].status == Open
  }

  /** `SELECT COUNT(*) ... WHERE status = 'Open'` */
  function CountOpenRows(rows: map<Id, Position>): nat {
    |set id | id in rows && rows[id].status == Open|
  }

  lemma {:induction false} DistinctIds(cache: map<Mint, Position>, ms: set<Mint>)
    requires forall m | m in ms :: m in cache
    requires forall m, n | m in ms && n in ms && m != n :: cache[m].id != cache[n].id
    ensures |set m | m in ms :: cache[m].id| == |ms|
    decreases |ms|
  {
    if ms != {} {
      var m :| m in ms;
      var rest := ms - {m};
      DistinctIds(cache, rest);
      var ids, restIds := set n | n in ms :: cache[n].id, set n | n in rest :: cache[n].id;
      assert ids == restIds + {cache[m].id};
    }
  }

  /** The count the risk check reads from the database is the number of open positions in memory. */
  lemma CountsAgree(s: Store)
    requires Agreement(s)
    ensures CountOpenRows(s.rows) == |OpenMints(s.cache)|
  {
    var ms := OpenMints(s.cache);
    forall m, n | m in ms && n in ms && m != n
      ensures s.cache[m].id != s.cache[n].id
    {
      assert SameRecord(s.cache[m], s.rows[s.cache[m].id]) && SameRecord(s.cache[n], s.rows[s.cache[n].id]);
    }
    DistinctIds(s.cache, ms);
    var openIds := set id | id in s.rows && s.rows[id].status == Open;
    var cachedIds := set m | m in ms :: s.cache[m].id;
    forall id | id in openIds
      ensures id in cachedIds
    {
      var m := s.rows[id].mint;
      assert SameRecord(s.cache[m], s.rows[id]) && m in ms;
    }
    forall id | id in cachedIds
      ensures id in openIds
    {
      var m :| m in ms && s.cache[m].id == id;
      assert SameRecord(s.cache[m], s.rows[id]);
    }
    assert openIds == cachedIds;
  }

  /** Over any history, both counts are equal and at most one open row exists per mint. */
  lemma RiskCheckSeesEveryOpenPosition(ops: seq<Op>)
    requires CanApplyAll(EMPTY, ops)
    ensures var s := ApplyAll(EMPTY, ops);
            && CountOpenRows(s.rows) == |OpenMints(s.cache)|
            && (forall a, b | a in s.rows && b in s.rows && s.rows[a].status == Open && s.rows[b].status == Open
                              && s.rows[a].mint == s.rows[b].mint :: a == b)
  {
    AlwaysAgree(EMPTY, ops);
    CountsAgree(ApplyAll(EMPTY, ops));
  }

  // ---------- The limit on open positions ----------

  /** Buys one at a time, each after the risk check has found fewer than `max` open rows. */
  ghost predicate CheckedBuys(max: nat, s: Store, ops: seq<Op>)
    requires CanApplyAll(s, ops)
    decreases |ops|
  {
    ops == [] || ((ops[0].Buy? ==> CountOpenRows(s.rows) < max) && CheckedBuys(max, Apply(s, ops[0]), ops[1..]))
  }

  lemma OnlyBuysOpen(s: Store, op: Op)
    requires Agreement(s) && CanApply(s, op)
    ensures OpenMints(Apply(s, op).cache) <= OpenMints(s.cache) + (if op.Buy? then {op.position.mint} else {})
  {
    if op.Restart? {
      RestartRecoversOpen(s, op.order);
    }
  }

  lemma AtMostOneMore(a: set<Mint>, b: set<Mint>, m: Mint)
    ensures a <= b ==> |a| <= |b|
    ensures a <= b + {m} ==> |a| <= |b| + 1
  {
    if a <= b {
      assert |b| == |a| + |b - a| by {
        assert b == a + (b - a);
      }
    }
    if a <= b + {m} {
      var c := b + {m};
      assert c == a + (c - a) && |c| == |a| + |c - a|;
      assert |c| <= |b| + 1;
    }
  }

  /** As long as buys are taken one at a time, no history opens more positions than allowed. */
  lemma {:induction false} SequentialBuysKeepLimit(max: nat, s: Store, ops: seq<Op>)
    requires Agreement(s) && CountOpenRows(s.rows) <= max
    requires CanApplyAll(s, ops) && CheckedBuys(max, s, ops)
    ensures CountOpenRows(ApplyAll(s, ops).rows) <= max
    decreases |ops|
  {
    if ops != [] {
      hide Apply, CanApply, Agreement, CountOpenRows, OpenMints;
      var s1 := Apply(s, ops[0]);
      ApplyAgrees(s, ops[0]);
      CountsAgree(s);
      CountsAgree(s1);
      OnlyBuysOpen(s, ops[0]);
      AtMostOneMore(OpenMints(s1.cache), OpenMints(s.cache), if ops[0].Buy? then ops[0].position.mint else "");
      SequentialBuysKeepLimit(max, s1, ops[1..]);
    }
  }
}
