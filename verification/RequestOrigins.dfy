/** Which record a sell was requested for. Commands and requests name only the mint; here the record
    that was open when each was raised is carried beside the two queues. */
module RequestOrigins {
  import opened Options
  import opened TradingProfiles
  import opened Positions
  import opened PositionStore
  import opened TpSl
  import opened Pipeline
  import opened PipelineRuns

  /** The origins of the queued commands and requests, in the same order. */
  datatype Origins = Origins(commands: seq<Option<Id>>, sells: seq<Option<Id>>)

  const NO_ORIGINS: Origins := Origins([], [])

  function OpenRecord(cache: map<Mint, Position>, mint: Mint): Option<Id> {
    if IsOpen(cache, mint) then Some(cache[mint].id) else None
  }

  function OriginsOf(cache: map<Mint, Position>, commands: seq<Command>): seq<Option<Id>> {
    seq(|commands|, i requires 0 <= i < |commands| => OpenRecord(cache, commands[i].mint))
  }

  ghost predicate Parallel(s: System, o: Origins) {
    |o.commands| == |s.commands| && |o.sells| == |s.sells|
  }

  lemma OneRequest(cache: map<Mint, Position>, c: Command)
    ensures Requests(cache, [c]) == if IsOpen(cache, c.mint) then [RequestFor(c)] else []
  {
    assert [c][1..] == [];
  }

  ghost function StepOrigins(profile: TradingProfile, tiers: seq<Tier>, s: System, o: Origins, ev: Event): (o': Origins)
    requires Enabled(s, ev) && Parallel(s, o)
    ensures Parallel(Step(profile, tiers, s, ev), o')
  {
    match ev
    case LookAtTicked => o.(commands := o.commands + OriginsOf(s.store.cache, Commands(profile, tiers, s, ev).1))
    case CheckAll(_) => o.(commands := o.commands + OriginsOf(s.store.cache, Commands(profile, tiers, s, ev).1))
    case ProcessCommand =>
      OneRequest(s.store.cache, s.commands[0]);
      Origins(o.commands[1..], o.sells + if IsOpen(s.store.cache, s.commands[0].mint) then [o.commands[0]] else [])
    case ManualSell(mint, _) => o.(sells := o.sells + [OpenRecord(s.store.cache, mint)])
    case TakeSell(_) => o.(sells := o.sells[1..])
    case Reboot(_) => NO_ORIGINS
    case _ => o
  }

  ghost function RunOrigins(profile: TradingProfile, tiers: seq<Tier>, s: System, o: Origins,
                            evs: seq<Event>): (o': Origins)
    requires ValidRun(profile, tiers, s, evs) && Parallel(s, o)
    ensures Parallel(Run(profile, tiers, s, evs), o')
    decreases |evs|
  {
    if evs == [] then o
    else
      RunOrigins(profile, tiers, Step(profile, tiers, s, evs[0]), StepOrigins(profile, tiers, s, o, evs[0]), evs[1..])
  }

  ghost predicate Queued(s: System, mint: Mint) {
    (exists i :: 0 <= i < |s.commands| && s.commands[i].mint == mint) ||
    (exists i :: 0 <= i < |s.sells| && s.sells[i].0 == mint)
  }

  /** The record the item was raised for is still the record of its mint, and none opened since. */
  predicate Rightful(cache: map<Mint, Position>, mint: Mint, origin: Option<Id>) {
    if origin.None? then !IsOpen(cache, mint) else mint in cache && cache[mint].id == origin.value
  }

  ghost predicate AllRightful(s: System, o: Origins, mint: Mint)
    requires Parallel(s, o)
  {
    && (forall i | 0 <= i < |s.commands| && s.commands[i].mint == mint :: Rightful(s.store.cache, mint, o.commands[i]))
    && (forall i | 0 <= i < |s.sells| && s.sells[i].0 == mint :: Rightful(s.store.cache, mint, o.sells[i]))
  }

  /** The event opens a new position for the mint. */
  predicate Rebuys(s: System, ev: Event, mint: Mint) {
    ev.BuyTokens? && ev.mint == mint && !IsOpen(s.store.cache, mint)
  }

  /** Every buy that opens the mint finds neither a command nor a request for it. */
  ghost predicate QuietBuys(profile: TradingProfile, tiers: seq<Tier>, s: System, evs: seq<Event>, mint: Mint)
    requires ValidRun(profile, tiers, s, evs)
    decreases |evs|
  {
    evs == [] ||
    ((Rebuys(s, evs[0], mint) ==> !Queued(s, mint)) &&
     QuietBuys(profile, tiers, Step(profile, tiers, s, evs[0]), evs[1..], mint))
  }

  /** The record of the mint is the same, and was not opened. */
  ghost predicate SameRecordAfter(cache: map<Mint, Position>, cache': map<Mint, Position>, mint: Mint) {
    && (mint in cache ==> mint in cache' && cache'[mint].id == cache[mint].id)
    && (IsOpen(cache', mint) ==> IsOpen(cache, mint))
  }

  lemma StepKeepsRecord(profile: TradingProfile, tiers: seq<Tier>, s: System, ev: Event, mint: Mint)
    requires StoreInv(s) && Enabled(s, ev) && !Rebuys(s, ev, mint) && !ev.Reboot?
    ensures SameRecordAfter(s.store.cache, Step(profile, tiers, s, ev).store.cache, mint)
  {
    hide Evaluate, EvaluateAll, ListsOpen, Agreement, SaneRows, OutcomeOf, Settled, FailedClosed;
    match ev
    case Settle(tx, now) =>
      SettledKeeps(s.store, s.executor.mint, s.executor.settlement, tx, now);
      SettledId(s.store, s.executor.mint, s.executor.settlement, tx, now);
    case CloseFailed(now) =>
      FailedClosedKeeps(s.store, s.executor.mint, now);
      FailedClosedId(s.store, s.executor.mint, now);
    case _ =>
  }

  lemma SettledId(s: Store, mint: Mint, settlement: Settlement, tx: string, now: Time)
    requires mint in s.cache
    ensures var s' := Settled(s, mint, settlement, tx, now);
            mint in s'.cache && s'.cache[mint].id == s.cache[mint].id
  {
  }

  lemma FailedClosedId(s: Store, mint: Mint, now: Time)
    requires mint in s.cache
    ensures var s' := FailedClosed(s, mint, now);
            mint in s'.cache && s'.cache[mint].id == s.cache[mint].id
  {
  }

  lemma RightfulKept(cache: map<Mint, Position>, cache': map<Mint, Position>, mint: Mint, origin: Option<Id>)
    requires Rightful(cache, mint, origin) && SameRecordAfter(cache, cache', mint)
    ensures Rightful(cache', mint, origin)
  {
  }

  lemma OpenRecordRightful(cache: map<Mint, Position>, mint: Mint)
    ensures Rightful(cache, mint, OpenRecord(cache, mint))
  {
  }

  /** The queues after an event, with the records as they were before it. */
  lemma QueuesStayRightful(profile: TradingProfile, tiers: seq<Tier>, s: System, o: Origins, ev: Event, mint: Mint)
    requires Enabled(s, ev) && Parallel(s, o) && AllRightful(s, o, mint)
    ensures var s', o' := Step(profile, tiers, s, ev), StepOrigins(profile, tiers, s, o, ev);
            && (forall i | 0 <= i < |s'.commands| && s'.commands[i].mint == mint ::
                  Rightful(s.store.cache, mint, o'.commands[i]))
            && (forall i | 0 <= i < |s'.sells| && s'.sells[i].0 == mint :: Rightful(s.store.cache, mint, o'.sells[i]))
  {
    hide Evaluate, EvaluateAll, ListsOpen, Commands, Rightful, OpenRecord, IsOpen, OutcomeOf;
    OpenRecordRightful(s.store.cache, mint);
    if ev.ProcessCommand? {
      OneRequest(s.store.cache, s.commands[0]);
    }
  }

  lemma StepKeepsRightful(profile: TradingProfile, tiers: seq<Tier>, s: System, o: Origins, ev: Event, mint: Mint)
    requires StoreInv(s) && Enabled(s, ev) && Parallel(s, o) && AllRightful(s, o, mint)
    requires Rebuys(s, ev, mint) ==> !Queued(s, mint)
    ensures AllRightful(Step(profile, tiers, s, ev), StepOrigins(profile, tiers, s, o, ev), mint)
  {
    if !Rebuys(s, ev, mint) && !ev.Reboot? {
      hide Step, StepOrigins, StoreInv, Rightful, Rebuys, Enabled, SameRecordAfter;
      var s', o' := Step(profile, tiers, s, ev), StepOrigins(profile, tiers, s, o, ev);
      StepKeepsRecord(profile, tiers, s, ev, mint);
      QueuesStayRightful(profile, tiers, s, o, ev, mint);
      forall i | 0 <= i < |s'.commands| && s'.commands[i].mint == mint
        ensures Rightful(s'.store.cache, mint, o'.commands[i])
      {
        RightfulKept(s.store.cache, s'.store.cache, mint, o'.commands[i]);
      }
      forall i | 0 <= i < |s'.sells| && s'.sells[i].0 == mint
        ensures Rightful(s'.store.cache, mint, o'.sells[i])
      {
        RightfulKept(s.store.cache, s'.store.cache, mint, o'.sells[i]);
      }
    }
  }

  lemma {:induction false} RunKeepsRightful(profile: TradingProfile, tiers: seq<Tier>, s: System, o: Origins,
                                            evs: seq<Event>, mint: Mint)
    requires StoreInv(s) && Parallel(s, o) && AllRightful(s, o, mint)
    requires ValidRun(profile, tiers, s, evs) && QuietBuys(profile, tiers, s, evs, mint)
    ensures AllRightful(Run(profile, tiers, s, evs), RunOrigins(profile, tiers, s, o, evs), mint)
    decreases |evs|
  {
    if evs != [] {
      hide StoreInv, AllRightful, Parallel, Step, StepOrigins, Enabled, Rebuys, Queued;
      StepKeepsRightful(profile, tiers, s, o, evs[0], mint);
      StepKeepsStore(profile, tiers, s, evs[0]);
      RunKeepsRightful(profile, tiers, Step(profile, tiers, s, evs[0]), StepOrigins(profile, tiers, s, o, evs[0]),
                       evs[1..], mint);
    }
  }

  /** Over every run in which the mint is not bought again while something for it is queued, a sell
      that starts serves the very record that was open when it was requested. */
  lemma SellServesItsRequest(profile: TradingProfile, tiers: seq<Tier>, evs: seq<Event>, walletOk: bool)
    requires ValidRun(profile, tiers, START, evs) && Enabled(Run(profile, tiers, START, evs), TakeSell(walletOk))
    requires QuietBuys(profile, tiers, START, evs, Run(profile, tiers, START, evs).sells[0].0)
    ensures var s := Run(profile, tiers, START, evs);
            var s' := Step(profile, tiers, s, TakeSell(walletOk));
            s'.executor.Selling? ==> RunOrigins(profile, tiers, START, NO_ORIGINS, evs).sells[0] == Some(s'.executor.id)
  {
    StartKeepsStore();
    RunKeepsRightful(profile, tiers, START, NO_ORIGINS, evs, Run(profile, tiers, START, evs).sells[0].0);
  }

  // ---------- Exactly when a buy is harmless ----------

  /** No event opens a new position for the mint. */
  ghost predicate NoRebuys(profile: TradingProfile, tiers: seq<Tier>, s: System, evs: seq<Event>, mint: Mint)
    requires ValidRun(profile, tiers, s, evs)
    decreases |evs|
  {
    evs == [] ||
    (!Rebuys(s, evs[0], mint) && NoRebuys(profile, tiers, Step(profile, tiers, s, evs[0]), evs[1..], mint))
  }

  /** The run ends where the next request sells the open record of the mint, but was not raised for it. */
  ghost predicate Misleads(profile: TradingProfile, tiers: seq<Tier>, s: System, o: Origins, evs: seq<Event>,
                           mint: Mint, id: Id)
    requires Parallel(s, o)
  {
    && ValidRun(profile, tiers, s, evs) && NoRebuys(profile, tiers, s, evs, mint)
    && var s' := Run(profile, tiers, s, evs);
    && Enabled(s', TakeSell(true)) && s'.sells[0].0 == mint && OpenRecord(s'.store.cache, mint) == Some(id)
    && RunOrigins(profile, tiers, s, o, evs).sells[0] != Some(id)
  }

  lemma MisleadsAfter(profile: TradingProfile, tiers: seq<Tier>, s: System, o: Origins, ev: Event, evs: seq<Event>,
                      mint: Mint, id: Id)
    requires Parallel(s, o) && Enabled(s, ev) && !Rebuys(s, ev, mint)
    requires Misleads(profile, tiers, Step(profile, tiers, s, ev), StepOrigins(profile, tiers, s, o, ev), evs, mint, id)
    ensures Misleads(profile, tiers, s, o, [ev] + evs, mint, id)
  {
    hide Step, StepOrigins, Rebuys, OpenRecord;
    var all := [ev] + evs;
    assert all[0] == ev && all[1..] == evs;
  }

  /** The executor is idle, the mint has this open record, and one was raised for something else. */
  ghost predicate IdleWith(s: System, o: Origins, mint: Mint, id: Id) {
    Parallel(s, o) && s.executor.Idle? && OpenRecord(s.store.cache, mint) == Some(id)
  }

  /** Requests before it are dropped, as when no wallet is at hand. */
  lemma {:induction false} DropTo(profile: TradingProfile, tiers: seq<Tier>, s: System, o: Origins, i: nat,
                                  mint: Mint, id: Id)
    returns (evs: seq<Event>)
    requires IdleWith(s, o, mint, id)
    requires i < |s.sells| && s.sells[i].0 == mint && o.sells[i] != Some(id)
    ensures Misleads(profile, tiers, s, o, evs, mint, id)
    decreases i
  {
    if i == 0 {
      evs := [];
    } else {
      var drop := TakeSell(false);
      var s', o' := Step(profile, tiers, s, drop), StepOrigins(profile, tiers, s, o, drop);
      assert s'.sells[i - 1] == s.sells[i] && o'.sells[i - 1] == o.sells[i];
      var rest := DropTo(profile, tiers, s', o', i - 1, mint, id);
      MisleadsAfter(profile, tiers, s, o, drop, rest, mint, id);
      evs := [drop] + rest;
    }
  }

  /** Commands up to it are forwarded. */
  lemma {:induction false} ForwardTo(profile: TradingProfile, tiers: seq<Tier>, s: System, o: Origins, j: nat,
                                     mint: Mint, id: Id)
    returns (evs: seq<Event>)
    requires IdleWith(s, o, mint, id)
    requires j < |s.commands| && s.commands[j].mint == mint && o.commands[j] != Some(id)
    ensures Misleads(profile, tiers, s, o, evs, mint, id)
    decreases j
  {
    var s', o' := Step(profile, tiers, s, ProcessCommand), StepOrigins(profile, tiers, s, o, ProcessCommand);
    OneRequest(s.store.cache, s.commands[0]);
    var rest;
    if j == 0 {
      assert s'.sells[|s.sells|].0 == mint && o'.sells[|s.sells|] == o.commands[0];
      rest := DropTo(profile, tiers, s', o', |s.sells|, mint, id);
    } else {
      assert s'.commands[j - 1] == s.commands[j] && o'.commands[j - 1] == o.commands[j];
      rest := ForwardTo(profile, tiers, s', o', j - 1, mint, id);
    }
    MisleadsAfter(profile, tiers, s, o, ProcessCommand, rest, mint, id);
    evs := [ProcessCommand] + rest;
  }

  /** Something queued for the mint was raised for another record, or for none. */
  ghost predicate WrongQueued(s: System, o: Origins, mint: Mint, id: Id)
    requires Parallel(s, o)
  {
    (exists i :: 0 <= i < |s.commands| && s.commands[i].mint == mint && o.commands[i] != Some(id)) ||
    (exists i :: 0 <= i < |s.sells| && s.sells[i].0 == mint && o.sells[i] != Some(id))
  }

  lemma MisleadIdle(profile: TradingProfile, tiers: seq<Tier>, s: System, o: Origins, mint: Mint, id: Id)
    returns (evs: seq<Event>)
    requires IdleWith(s, o, mint, id) && WrongQueued(s, o, mint, id)
    ensures Misleads(profile, tiers, s, o, evs, mint, id)
  {
    if i :| 0 <= i < |s.sells| && s.sells[i].0 == mint && o.sells[i] != Some(id) {
      evs := DropTo(profile, tiers, s, o, i, mint, id);
    } else {
      var j :| 0 <= j < |s.commands| && s.commands[j].mint == mint && o.commands[j] != Some(id);
      evs := ForwardTo(profile, tiers, s, o, j, mint, id);
    }
  }

  /** How the executor gets done with what it does: by booking, or by failing as often as it may. */
  function NextOfExecutor(e: Executor): Event
    requires !e.Idle?
  {
    match e
    case Settling(_, _, _) => Settle("sig", 0)
    case Selling(_, _, _, failures) => if failures < MAX_ATTEMPTS then Attempt(NotSent, 0.0) else GiveUp
    case Failing(_, _) => CloseFailed(0)
  }

  function ToDo(e: Executor): nat {
    match e
    case Idle => 0
    case Settling(_, _, _) => 1
    case Failing(_, _) => 1
    case Selling(_, _, _, failures) => if failures <= MAX_ATTEMPTS then MAX_ATTEMPTS - failures + 2 else 0
  }

  lemma ExecutorStep(profile: TradingProfile, tiers: seq<Tier>, s: System, o: Origins, mint: Mint)
    requires Parallel(s, o) && !s.executor.Idle? && s.executor.mint != mint
    requires s.executor.Selling? ==> s.executor.failures <= MAX_ATTEMPTS
    ensures var ev := NextOfExecutor(s.executor);
            && Enabled(s, ev) && !Rebuys(s, ev, mint)
            && var s', o' := Step(profile, tiers, s, ev), StepOrigins(profile, tiers, s, o, ev);
            && o' == o && s'.commands == s.commands && s'.sells == s.sells
            && OpenRecord(s'.store.cache, mint) == OpenRecord(s.store.cache, mint)
            && ToDo(s'.executor) < ToDo(s.executor)
            && (!s'.executor.Idle? ==> s'.executor.mint == s.executor.mint)
            && (s'.executor.Selling? ==> s'.executor.failures <= MAX_ATTEMPTS)
  {
  }

  lemma {:induction false} MisleadBusy(profile: TradingProfile, tiers: seq<Tier>, s: System, o: Origins, mint: Mint,
                                       id: Id)
    returns (evs: seq<Event>)
    requires Parallel(s, o) && OpenRecord(s.store.cache, mint) == Some(id) && WrongQueued(s, o, mint, id)
    requires !s.executor.Idle? ==> s.executor.mint != mint
    requires s.executor.Selling? ==> s.executor.failures <= MAX_ATTEMPTS
    ensures Misleads(profile, tiers, s, o, evs, mint, id)
    decreases ToDo(s.executor)
  {
    hide Step, StepOrigins, OpenRecord, Misleads, Enabled, Rebuys;
    if s.executor.Idle? {
      evs := MisleadIdle(profile, tiers, s, o, mint, id);
    } else {
      var ev := NextOfExecutor(s.executor);
      ExecutorStep(profile, tiers, s, o, mint);
      var s', o' := Step(profile, tiers, s, ev), StepOrigins(profile, tiers, s, o, ev);
      var rest := MisleadBusy(profile, tiers, s', o', mint, id);
      MisleadsAfter(profile, tiers, s, o, ev, rest, mint, id);
      evs := [ev] + rest;
    }
  }

  /** Every origin is a record that has a row. */
  ghost predicate KnownOrigins(s: System, o: Origins) {
    && (forall i | 0 <= i < |o.commands| && o.commands[i].Some? :: o.commands[i].value in s.store.rows)
    && (forall i | 0 <= i < |o.sells| && o.sells[i].Some? :: o.sells[i].value in s.store.rows)
  }

  ghost predicate RowsStay(rows: map<Id, Position>, rows': map<Id, Position>) {
    forall id | id in rows :: id in rows'
  }

  lemma StepKeepsRows(profile: TradingProfile, tiers: seq<Tier>, s: System, ev: Event)
    requires StoreInv(s) && Enabled(s, ev)
    ensures RowsStay(s.store.rows, Step(profile, tiers, s, ev).store.rows)
  {
    hide StoreInv, Evaluate, EvaluateAll, ListsOpen, ListsOpenRows, OutcomeOf, Loaded;
    if ev.Reboot? {
      RebootRows(s, ev.order);
    }
  }

  lemma RebootRows(s: System, order: seq<Id>)
    requires StoreInv(s) && ListsOpenRows(s.store.rows, order)
    ensures Loaded(s.store.(cache := map[]), order).rows == s.store.rows
  {
    RestartRecoversOpen(s.store, order);
  }

  lemma OpenRecordKnown(s: System, mint: Mint)
    requires StoreInv(s)
    ensures OpenRecord(s.store.cache, mint).Some? ==> OpenRecord(s.store.cache, mint).value in s.store.rows
  {
    if IsOpen(s.store.cache, mint) {
      OpenRow(s.store, mint);
    }
  }

  /** The origins after an event are known before it. */
  lemma NewOriginsKnown(profile: TradingProfile, tiers: seq<Tier>, s: System, o: Origins, ev: Event)
    requires StoreInv(s) && Enabled(s, ev) && Parallel(s, o) && KnownOrigins(s, o)
    ensures KnownOrigins(s, StepOrigins(profile, tiers, s, o, ev))
  {
    hide StoreInv, Commands, OpenRecord, Step;
    forall mint: Mint
      ensures OpenRecord(s.store.cache, mint).Some? ==> OpenRecord(s.store.cache, mint).value in s.store.rows
    {
      OpenRecordKnown(s, mint);
    }
  }

  lemma {:induction false} RunKeepsKnown(profile: TradingProfile, tiers: seq<Tier>, s: System, o: Origins,
                                         evs: seq<Event>)
    requires StoreInv(s) && ValidRun(profile, tiers, s, evs) && Parallel(s, o) && KnownOrigins(s, o)
    ensures KnownOrigins(Run(profile, tiers, s, evs), RunOrigins(profile, tiers, s, o, evs))
    decreases |evs|
  {
    if evs != [] {
      hide StoreInv, Step, StepOrigins, Enabled, Parallel;
      var s', o' := Step(profile, tiers, s, evs[0]), StepOrigins(profile, tiers, s, o, evs[0]);
      NewOriginsKnown(profile, tiers, s, o, evs[0]);
      StepKeepsRows(profile, tiers, s, evs[0]);
      StepKeepsStore(profile, tiers, s, evs[0]);
      RunKeepsKnown(profile, tiers, s', o', evs[1..]);
    }
  }

  lemma NoisyBuyMismatches(profile: TradingProfile, tiers: seq<Tier>, s: System, o: Origins, ev: Event, mint: Mint)
    requires StoreInv(s) && Enabled(s, ev) && Parallel(s, o) && KnownOrigins(s, o)
    requires Rebuys(s, ev, mint) && Queued(s, mint)
    ensures var s1, o1 := Step(profile, tiers, s, ev), StepOrigins(profile, tiers, s, o, ev);
            && OpenRecord(s1.store.cache, mint) == Some(ev.id) && WrongQueued(s1, o1, mint, ev.id)
            && (!s1.executor.Idle? ==> s1.executor.mint != mint)
            && (s1.executor.Selling? ==> s1.executor.failures <= MAX_ATTEMPTS)
  {
    hide Agreement, SaneRows;
    if i :| 0 <= i < |s.commands| && s.commands[i].mint == mint {
      assert o.commands[i] != Some(ev.id);
    } else {
      var i :| 0 <= i < |s.sells| && s.sells[i].0 == mint;
      assert o.sells[i] != Some(ev.id);
    }
  }

  /** After a buy that found something queued for its mint, a sell of the new record can start for a
      request that was not raised for it. */
  lemma NoisyBuyMisleads(profile: TradingProfile, tiers: seq<Tier>, s: System, o: Origins, ev: Event, mint: Mint)
    returns (evs: seq<Event>)
    requires StoreInv(s) && Enabled(s, ev) && Parallel(s, o) && KnownOrigins(s, o)
    requires Rebuys(s, ev, mint) && Queued(s, mint)
    ensures Misleads(profile, tiers, Step(profile, tiers, s, ev), StepOrigins(profile, tiers, s, o, ev), evs,
                     mint, ev.id)
  {
    hide StoreInv, KnownOrigins, Step, StepOrigins, Queued, WrongQueued, Misleads;
    NoisyBuyMismatches(profile, tiers, s, o, ev, mint);
    evs := MisleadBusy(profile, tiers, Step(profile, tiers, s, ev), StepOrigins(profile, tiers, s, o, ev), mint, ev.id);
  }

  /** However the run goes on without another buy of the mint, a sell of it that starts then serves
      the record that was open when it was requested. */
  ghost predicate Harmless(profile: TradingProfile, tiers: seq<Tier>, s: System, o: Origins, mint: Mint)
    requires Parallel(s, o)
  {
    forall evs | ValidRun(profile, tiers, s, evs) && NoRebuys(profile, tiers, s, evs, mint) ::
      ServesOwn(profile, tiers, Run(profile, tiers, s, evs), RunOrigins(profile, tiers, s, o, evs), mint)
  }

  /** If the next request is for the mint and its sell starts, it was raised for the record sold. */
  ghost predicate ServesOwn(profile: TradingProfile, tiers: seq<Tier>, s: System, o: Origins, mint: Mint)
    requires Parallel(s, o)
  {
    Enabled(s, TakeSell(true)) && s.sells[0].0 == mint ==>
      var executor := Step(profile, tiers, s, TakeSell(true)).executor;
      executor.Selling? ==> o.sells[0] == Some(executor.id)
  }

  lemma RightfulServes(profile: TradingProfile, tiers: seq<Tier>, s: System, o: Origins, mint: Mint)
    requires Parallel(s, o) && AllRightful(s, o, mint)
    ensures ServesOwn(profile, tiers, s, o, mint)
  {
  }

  lemma {:induction false} NoRebuysQuiet(profile: TradingProfile, tiers: seq<Tier>, s: System, evs: seq<Event>,
                                         mint: Mint)
    requires ValidRun(profile, tiers, s, evs) && NoRebuys(profile, tiers, s, evs, mint)
    ensures QuietBuys(profile, tiers, s, evs, mint)
    decreases |evs|
  {
    if evs != [] {
      hide Step, Rebuys, Queued, Enabled;
      NoRebuysQuiet(profile, tiers, Step(profile, tiers, s, evs[0]), evs[1..], mint);
    }
  }

  lemma MisleadsNotHarmless(profile: TradingProfile, tiers: seq<Tier>, s: System, o: Origins, evs: seq<Event>,
                            mint: Mint, id: Id)
    requires Parallel(s, o) && Misleads(profile, tiers, s, o, evs, mint, id)
    ensures !Harmless(profile, tiers, s, o, mint)
  {
    hide RunOrigins, NoRebuys;
    var s' := Run(profile, tiers, s, evs);
    assert !ServesOwn(profile, tiers, s', RunOrigins(profile, tiers, s, o, evs), mint);
  }

  lemma QuietBuyHarmless(profile: TradingProfile, tiers: seq<Tier>, s: System, o: Origins, mint: Mint)
    requires StoreInv(s) && Parallel(s, o) && AllRightful(s, o, mint)
    ensures Harmless(profile, tiers, s, o, mint)
  {
    hide StoreInv, AllRightful, RunOrigins, NoRebuys, QuietBuys, ServesOwn, ValidRun, Run;
    forall evs | ValidRun(profile, tiers, s, evs) && NoRebuys(profile, tiers, s, evs, mint)
      ensures ServesOwn(profile, tiers, Run(profile, tiers, s, evs), RunOrigins(profile, tiers, s, o, evs), mint)
    {
      NoRebuysQuiet(profile, tiers, s, evs, mint);
      RunKeepsRightful(profile, tiers, s, o, evs, mint);
      RightfulServes(profile, tiers, Run(profile, tiers, s, evs), RunOrigins(profile, tiers, s, o, evs), mint);
    }
  }

  lemma NothingQueuedRightful(s: System, o: Origins, mint: Mint)
    requires Parallel(s, o) && !Queued(s, mint)
    ensures AllRightful(s, o, mint)
  {
  }

  /** After any run, a buy that opens a mint is harmless exactly when no command and no request for the
      mint is queued. */
  lemma BuyHarmlessIff(profile: TradingProfile, tiers: seq<Tier>, before: seq<Event>, ev: Event, mint: Mint)
    requires ValidRun(profile, tiers, START, before)
    requires var s := Run(profile, tiers, START, before); Enabled(s, ev) && Rebuys(s, ev, mint)
    ensures var s, o := Run(profile, tiers, START, before), RunOrigins(profile, tiers, START, NO_ORIGINS, before);
            Harmless(profile, tiers, Step(profile, tiers, s, ev), StepOrigins(profile, tiers, s, o, ev), mint)
            <==> !Queued(s, mint)
  {
    StartKeepsStore();
    RunKeepsStore(profile, tiers, START, before);
    RunKeepsKnown(profile, tiers, START, NO_ORIGINS, before);
    hide StoreInv, AllRightful, KnownOrigins, Queued, Step, StepOrigins, RunOrigins, ValidRun, Run, Enabled, Rebuys;
    hide Harmless, Misleads;
    var s, o := Run(profile, tiers, START, before), RunOrigins(profile, tiers, START, NO_ORIGINS, before);
    var s1, o1 := Step(profile, tiers, s, ev), StepOrigins(profile, tiers, s, o, ev);
    RebuyId(s, ev, mint);
    if Queued(s, mint) {
      var evs := NoisyBuyMisleads(profile, tiers, s, o, ev, mint);
      MisleadsNotHarmless(profile, tiers, s1, o1, evs, mint, ev.id);
    } else {
      NothingQueuedRightful(s, o, mint);
      StepKeepsRightful(profile, tiers, s, o, ev, mint);
      StepKeepsStore(profile, tiers, s, ev);
      QuietBuyHarmless(profile, tiers, s1, o1, mint);
    }
  }

  lemma RebuyId(s: System, ev: Event, mint: Mint)
    requires Rebuys(s, ev, mint)
    ensures ev.BuyTokens?
  {
  }
}
