/** The hybrid merge engine: two dedup namespaces, a merge window and a periodic cleanup. */
module Detector {
  import opened DedupQueue
  import opened Options

  const MERGE_WINDOW: nat := 250_000_000
  const PENDING_LIMIT: nat := 10 * NANOS_PER_SEC
  const CLEANUP_EVERY: nat := 1000
  const MIGRATION_EVENT_MARKER: string := "MIGRATION_EVENT"

  datatype TokenSource = PumpFun | Raydium | PumpSwap | Unknown

  datatype DetectionBackend = Helius | PumpPortal

  datatype TokenInfo = TokenInfo(
    mint: Mint,
    name: string,
    symbol: string,
    source: TokenSource,
    creator: string,
    initialLiquiditySol: real,
    initialLiquidityUsd: real,
    poolAddress: Option<string>,
    metadataUri: Option<string>,
    decimals: nat,
    detectedAt: nat,
    backend: DetectionBackend,
    marketCapSol: real,
    vSolInBondingCurve: real,
    initialBuySol: real)

  datatype PendingToken = PendingToken(token: TokenInfo, createdAt: nat, hasHelius: bool, hasPumpPortal: bool)

  predicate IsMigration(t: TokenInfo) {
    t.creator == MIGRATION_EVENT_MARKER
  }

  // ---------- Merging ----------

  function PreferText(current: string, incoming: string, isPumpPortal: bool): string {
    if current == "" || (isPumpPortal && incoming != "") then incoming else current
  }

  function PreferPositive(current: real, incoming: real, isPumpPortal: bool): real {
    if isPumpPortal && incoming > 0.0 then incoming else current
  }

  function PreferPresent(current: Option<string>, incoming: Option<string>): Option<string> {
    if current == None then incoming else current
  }

  function MergeTokenData(p: PendingToken, incoming: TokenInfo): PendingToken {
    var isPp := incoming.backend == PumpPortal;
    var t := p.token;
    p.(hasPumpPortal := p.hasPumpPortal || isPp,
       hasHelius := p.hasHelius || !isPp,
       token := t.(name := PreferText(t.name, incoming.name, isPp),
                   symbol := PreferText(t.symbol, incoming.symbol, isPp),
                   creator := PreferText(t.creator, incoming.creator, isPp),
                   initialLiquiditySol := PreferPositive(t.initialLiquiditySol, incoming.initialLiquiditySol, isPp),
                   marketCapSol := PreferPositive(t.marketCapSol, incoming.marketCapSol, isPp),
                   poolAddress := PreferPresent(t.poolAddress, incoming.poolAddress),
                   metadataUri := PreferPresent(t.metadataUri, incoming.metadataUri)))
  }

  function NewPending(t: TokenInfo, now: nat): PendingToken {
    PendingToken(t, now, t.backend == Helius, t.backend != Helius)
  }

  /** What two arrivals for one mint merge into. */
  function Merged(first: TokenInfo, second: TokenInfo): TokenInfo {
    MergeTokenData(NewPending(first, 0), second).token
  }

  // ---------- The engine as a transition function ----------

  datatype Engine = Engine(newborn: Entries, migration: Entries, pending: map<Mint, PendingToken>, counter: nat)

  datatype Namespace = Newborn | Migration

  /** A token sent on to the analyzer. */
  datatype Emission = Emission(ns: Namespace, token: TokenInfo, at: nat)

  /** What the select loop can wake up for. On a timeout the expired mints come in the
      hash map's own order, which nobody controls. */
  datatype Event =
    | Arrive(token: TokenInfo, now: nat)
    | Timeout(order: seq<Mint>, now: nat)

  const INIT: Engine := Engine(map[], map[], map[], 0)

  predicate Expired(p: PendingToken, now: nat) {
    now >= p.createdAt + MERGE_WINDOW
  }

  predicate RecentEnough(p: PendingToken, now: nat) {
    DurationSince(now, p.createdAt) < PENDING_LIMIT
  }

  /** What the periodic cleanup keeps of the pending entries. */
  function Retained(pending: map<Mint, PendingToken>, now: nat): map<Mint, PendingToken> {
    map m | m in pending && RecentEnough(pending[m], now) :: pending[m]
  }

  /** The end of an iteration: count it, and clean up on every thousandth. */
  function Tick(s: Engine, now: nat): Engine {
    var s1 := s.(counter := s.counter + 1);
    if s1.counter % CLEANUP_EVERY == 0 then
      s1.(newborn := Cleaned(s1.newborn, DEFAULT_TTL, now),
          migration := Cleaned(s1.migration, DEFAULT_TTL, now),
          pending := Retained(s1.pending, now))
    else s1
  }

  /** emit_token: refuses a mint that is still live in its queue. */
  function Emit(ns: Namespace, e: Entries, token: TokenInfo, now: nat): seq<Emission> {
    if Live(e, DEFAULT_TTL, token.mint, now) then [] else [Emission(ns, token, now)]
  }

  function OnArrival(s: Engine, token: TokenInfo, now: nat): (Engine, seq<Emission>) {
    var mint := token.mint;
    if mint == "" then (s, [])
    else if IsMigration(token) then
      if Live(s.migration, DEFAULT_TTL, mint, now) then (s, [])
      else (s.(migration := Inserted(s.migration, DEFAULT_TTL, mint, now)), Emit(Migration, s.migration, token, now))
    else if Live(s.newborn, DEFAULT_TTL, mint, now) then (s, [])
    else if mint in s.pending then
      var merged := MergeTokenData(s.pending[mint], token).token;
      (Tick(s.(pending := s.pending - {mint}, newborn := Inserted(s.newborn, DEFAULT_TTL, merged.mint, now)), now),
       Emit(Newborn, s.newborn, merged, now))
    else (Tick(s.(pending := s.pending[mint := NewPending(token, now)]), now), [])
  }

  /** Emits the listed pending entries one after the other. */
  function EmitAll(s: Engine, order: seq<Mint>, now: nat): (Engine, seq<Emission>)
    decreases |order|
  {
    if order == [] then (s, [])
    else if order[0] !in s.pending then EmitAll(s, order[1..], now)
    else
      var token := s.pending[order[0]].token;
      var s1 := s.(pending := s.pending - {order[0]}, newborn := Inserted(s.newborn, DEFAULT_TTL, token.mint, now));
      var (s2, out) := EmitAll(s1, order[1..], now);
      (s2, Emit(Newborn, s.newborn, token, now) + out)
  }

  function Step(s: Engine, ev: Event): (Engine, seq<Emission>) {
    match ev
    case Arrive(token, now) => OnArrival(s, token, now)
    case Timeout(order, now) =>
      var (s1, out) := EmitAll(s, order, now);
      (Tick(s1, now), out)
  }

  /** A timeout fires once a pending entry has expired, and takes all that have. */
  ghost predicate Enabled(s: Engine, ev: Event) {
    ev.Timeout? ==>
      && ev.order != []
      && (forall m :: m in ev.order <==> m in s.pending && Expired(s.pending[m], ev.now))
      && (forall i, j | 0 <= i < j < |ev.order| :: ev.order[i] != ev.order[j])
  }

  // ---------- The engine as the source runs it ----------

  class DetectorEngine {
    const newbornDedup: DeduplicationQueue
    const migrationDedup: DeduplicationQueue
    var pending: map<Mint, PendingToken>
    var cleanupCounter: nat

    ghost predicate Valid()
      reads this
    {
      newbornDedup != migrationDedup && newbornDedup.ttl == DEFAULT_TTL && migrationDedup.ttl == DEFAULT_TTL
    }

    ghost function State(): Engine
      reads this, newbornDedup, migrationDedup
    {
      Engine(newbornDedup.entries, migrationDedup.entries, pending, cleanupCounter)
    }

    constructor ()
      ensures Valid() && State() == INIT && fresh(newbornDedup) && fresh(migrationDedup)
    {
      newbornDedup := new DeduplicationQueue(300);
      migrationDedup := new DeduplicationQueue(300);
      pending := map[];
      cleanupCounter := 0;
    }

    method EmitToken(ghost ns: Namespace, queue: DeduplicationQueue, token: TokenInfo,
                     now: nat) returns (out: seq<Emission>)
      requires Valid() && queue == (if ns == Newborn then newbornDedup else migrationDedup)
      modifies queue
      ensures out == Emit(ns, old(queue.entries), token, now)
      ensures var e := old(queue.entries);
              out == if token.mint in e && DurationSince(now, e[token.mint]) < 300_000_000_000 then []
                     else [Emission(ns, token, now)]
      ensures queue.entries == Inserted(old(queue.entries), DEFAULT_TTL, token.mint, now)
    {
      var isNew := queue.Insert(token.mint, now);
      if !isNew {
        return [];
      }
      out := [Emission(if queue == newbornDedup then Newborn else Migration, token, now)];
    }

    method EndOfIteration(now: nat)
      requires Valid()
      modifies this, newbornDedup, migrationDedup
      ensures Valid() && State() == Tick(old(State()), now)
    {
      cleanupCounter := cleanupCounter + 1;
      if cleanupCounter % CLEANUP_EVERY == 0 {
        newbornDedup.Cleanup(now);
        migrationDedup.Cleanup(now);
        pending := map m | m in pending && RecentEnough(pending[m], now) :: pending[m];
      }
    }

    method Receive(token: TokenInfo, now: nat) returns (out: seq<Emission>)
      requires Valid()
      modifies this, newbornDedup, migrationDedup
      ensures Valid() && (State(), out) == OnArrival(old(State()), token, now)
    {
      if token.mint == "" {
        return [];
      }
      var mint := token.mint;
      if token.creator == MIGRATION_EVENT_MARKER {
        if migrationDedup.Contains(mint, now) {
          return [];
        }
        out := EmitToken(Migration, migrationDedup, token, now);
        return;
      }
      if newbornDedup.Contains(mint, now) {
        return [];
      }
      if mint in pending {
        var entry := MergeTokenData(pending[mint], token);
        pending := pending - {mint};
        out := EmitToken(Newborn, newbornDedup, entry.token, now);
      } else {
        var isHelius := token.backend == Helius;
        pending := pending[mint := PendingToken(token, now, isHelius, !isHelius)];
        out := [];
      }
      EndOfIteration(now);
    }

    method WindowExpired(order: seq<Mint>, now: nat) returns (out: seq<Emission>)
      requires Valid() && Enabled(State(), Timeout(order, now))
      modifies this, newbornDedup, migrationDedup
      ensures Valid() && (State(), out) == Step(old(State()), Timeout(order, now))
    {
      hide Live, Inserted, Tick, Emit;
      out := [];
      ghost var goal := EmitAll(State(), order, now);
      assert order[0..] == order;
      for i := 0 to |order|
        invariant Valid()
        invariant goal.0 == EmitAll(State(), order[i..], now).0
        invariant goal.1 == out + EmitAll(State(), order[i..], now).1
      {
        var mint := order[i];
        assert order[i..][0] == mint && order[i..][1..] == order[i + 1..];
        if mint in pending {
          var entry := pending[mint];
          pending := pending - {mint};
          var sent := EmitToken(Newborn, newbornDedup, entry.token, now);
          out := out + sent;
        }
      }
      assert order[|order|..] == [];
      assert EmitAll(State(), [], now) == (State(), []);
      assert goal.0 == State() && goal.1 == out;
      EndOfIteration(now);
    }
  }
}
