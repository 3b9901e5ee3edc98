/** Which tiers go off for one record. The monitor's memory is kept by mint and is only cleared by its
    own pass over the open positions, so a record can find the marks of the one before it. */
module RecordTiers {
  import opened Options
  import opened TradingProfiles
  import opened Positions
  import opened PositionStore
  import opened TpSl
  import opened TpSlRuns
  import opened Pipeline
  import opened PipelineRuns
  import opened ExitOrder
  import opened StaleRuns
  import opened RequestOrigins

  // ---------- One event ----------

  lemma {:induction false} EvaluateAllMarks(profile: TradingProfile, tiers: seq<Tier>, triggered: Triggered,
                                            listed: seq<Position>, mint: Mint)
    requires Ascending(tiers) && PrefixMarks(triggered, tiers)
    ensures var (t, cs) := EvaluateAll(profile, tiers, triggered, listed);
            && |Marks(triggered, mint)| <= |Marks(t, mint)|
            && TierIndexes(cs, mint) == Iota(|Marks(triggered, mint)|, |Marks(t, mint)|)
    decreases |listed|
  {
    if listed != [] {
      hide Evaluate, Ascending, PrefixMarks, Marks;
      var (t, c) := Evaluate(profile, tiers, triggered, listed[0]);
      var (t', cs) := EvaluateAll(profile, tiers, t, listed[1..]);
      EvaluateMarks(profile, tiers, triggered, listed[0], mint);
      EvaluateAllMarks(profile, tiers, t, listed[1..], mint);
      TierIndexesConcat(AsSeq(c), cs, mint);
      IotaJoin(|Marks(triggered, mint)|, |Marks(t, mint)|, |Marks(t', mint)|);
    }
  }

  /** Positions of other mints neither mark nor send anything for this one. */
  lemma {:induction false} EvaluateAllOthers(profile: TradingProfile, tiers: seq<Tier>, triggered: Triggered,
                                             listed: seq<Position>, mint: Mint)
    requires Ascending(tiers) && PrefixMarks(triggered, tiers)
    requires forall p | p in listed :: p.mint != mint
    ensures var (t, cs) := EvaluateAll(profile, tiers, triggered, listed);
            Marks(t, mint) == Marks(triggered, mint) && TierIndexes(cs, mint) == []
    decreases |listed|
  {
    if listed != [] {
      hide Evaluate, Ascending, PrefixMarks, Marks;
      var p, rest := listed[0], listed[1..];
      assert p in listed && forall q | q in rest :: q in listed;
      var (t, c) := Evaluate(profile, tiers, triggered, p);
      EvaluateMarks(profile, tiers, triggered, p, mint);
      EvaluateTakesNext(profile, tiers, triggered, p);
      EvaluateAllOthers(profile, tiers, t, rest, mint);
      TierIndexesConcat(AsSeq(c), EvaluateAll(profile, tiers, t, rest).1, mint);
    }
  }

  lemma RetainedPrefix(triggered: Triggered, tiers: seq<Tier>, stillOpen: set<Mint>, mint: Mint)
    requires PrefixMarks(triggered, tiers)
    ensures PrefixMarks(Retained(triggered, stillOpen), tiers)
    ensures Marks(Retained(triggered, stillOpen), mint) == if mint in stillOpen then Marks(triggered, mint) else []
  {
  }

  lemma ListedMints(cache: map<Mint, Position>, listed: seq<Position>, mint: Mint)
    requires ListsOpen(cache, listed) && forall m | m in cache :: cache[m].mint == m
    ensures mint in MintsOf(listed) <==> IsOpen(cache, mint)
  {
    if IsOpen(cache, mint) {
      assert cache[mint] in listed;
    }
  }

  /** For an open mint the tiers sent are the marks added; for any other nothing is sent. */
  lemma StepTakesTiers(profile: TradingProfile, tiers: seq<Tier>, s: System, ev: Event, mint: Mint)
    requires Filed(s.store) && Enabled(s, ev) && !ev.Reboot?
    requires Ascending(tiers) && PrefixMarks(s.triggered, tiers)
    ensures var (t, cs) := Commands(profile, tiers, s, ev);
            && t == Step(profile, tiers, s, ev).triggered
            && (IsOpen(s.store.cache, mint) ==>
                  && |Marks(s.triggered, mint)| <= |Marks(t, mint)|
                  && TierIndexes(cs, mint) == Iota(|Marks(s.triggered, mint)|, |Marks(t, mint)|))
            && (!IsOpen(s.store.cache, mint) ==>
                  TierIndexes(cs, mint) == [] && (Marks(s.triggered, mint) == [] ==> Marks(t, mint) == []))
            && (!IsOpen(s.store.cache, mint) && ev.CheckAll? ==> Marks(t, mint) == [])
  {
    hide Evaluate, EvaluateAll, Ascending, PrefixMarks, ListsOpen, Marks, Retained, MintsOf;
    match ev
    case LookAtTicked =>
      var m := s.looking.value;
      if IsOpen(s.store.cache, m) {
        FiledAt(s.store, m);
        EvaluateMarks(profile, tiers, s.triggered, s.store.cache[m], mint);
        EvaluateTakesNext(profile, tiers, s.triggered, s.store.cache[m]);
      }
    case CheckAll(listed) =>
      RetainedPrefix(s.triggered, tiers, MintsOf(listed), mint);
      ListedMints(s.store.cache, listed, mint);
      if IsOpen(s.store.cache, mint) {
        EvaluateAllMarks(profile, tiers, Retained(s.triggered, MintsOf(listed)), listed, mint);
      } else {
        NotListed(listed, mint);
        EvaluateAllOthers(profile, tiers, Retained(s.triggered, MintsOf(listed)), listed, mint);
      }
    case _ =>
  }

  lemma NotListed(listed: seq<Position>, mint: Mint)
    requires mint !in MintsOf(listed)
    ensures forall p | p in listed :: p.mint != mint
  {
  }

  // ---------- A whole record ----------

  /** The mint is not opened, and the process is not restarted. */
  ghost predicate SameLife(profile: TradingProfile, tiers: seq<Tier>, s: System, evs: seq<Event>, mint: Mint)
    requires ValidRun(profile, tiers, s, evs)
  {
    NoRebuys(profile, tiers, s, evs, mint) && forall ev | ev in evs :: !ev.Reboot?
  }

  /** The tiers sent for the mint over a run. */
  ghost function TiersSent(profile: TradingProfile, tiers: seq<Tier>, s: System, evs: seq<Event>, mint: Mint): seq<nat>
    requires ValidRun(profile, tiers, s, evs)
  {
    TierIndexes(AllCommands(profile, tiers, s, evs), mint)
  }

  /** The tiers sent follow the marks in order; for a mint open to the end they are the marks added, and
      for one that is not open nothing is sent or marked. */
  ghost predicate Takes(wasOpen: bool, marks: seq<nat>, sent: seq<nat>, isOpen: bool, marks': seq<nat>) {
    && sent == Iota(|marks|, |marks| + |sent|)
    && (isOpen ==> wasOpen && marks' == marks + sent)
    && (!wasOpen ==> sent == [] && (marks == [] ==> marks' == []))
  }

  ghost predicate TakesOver(s: System, sent: seq<nat>, s': System, mint: Mint) {
    Takes(IsOpen(s.store.cache, mint), Marks(s.triggered, mint), sent, IsOpen(s'.store.cache, mint),
          Marks(s'.triggered, mint))
  }

  lemma TakesJoin(s: System, sent: seq<nat>, s1: System, sent': seq<nat>, s2: System, mint: Mint)
    requires TakesOver(s, sent, s1, mint) && TakesOver(s1, sent', s2, mint)
    ensures TakesOver(s, sent + sent', s2, mint)
  {
    hide IsOpen, Marks;
    var k := |Marks(s.triggered, mint)|;
    if IsOpen(s1.store.cache, mint) {
      IotaJoin(k, k + |sent|, k + |sent| + |sent'|);
    }
  }

  lemma StepTakes(profile: TradingProfile, tiers: seq<Tier>, s: System, ev: Event, mint: Mint)
    requires StoreInv(s) && Enabled(s, ev) && !ev.Reboot? && !Rebuys(s, ev, mint)
    requires Ascending(tiers) && PrefixMarks(s.triggered, tiers)
    ensures TakesOver(s, TierIndexes(Commands(profile, tiers, s, ev).1, mint), Step(profile, tiers, s, ev), mint)
  {
    FiledOf(s);
    StepKeepsRecord(profile, tiers, s, ev, mint);
    StepTakesTiers(profile, tiers, s, ev, mint);
    StepKeepsPrefix(profile, tiers, s, ev);
    hide StoreInv, Step, Commands, Enabled, Ascending, PrefixMarks, Marks, Rebuys, Filed, IsOpen;
    var s' := Step(profile, tiers, s, ev);
    MarksArePrefix(s.triggered, tiers, mint);
    MarksArePrefix(s'.triggered, tiers, mint);
    if IsOpen(s.store.cache, mint) {
      IotaJoin(0, |Marks(s.triggered, mint)|, |Marks(s'.triggered, mint)|);
    }
  }

  /** As long as the mint is not opened anew, the tiers sent for it follow the ones marked. */
  lemma {:induction false} LifeTakes(profile: TradingProfile, tiers: seq<Tier>, s: System, evs: seq<Event>,
                                     mint: Mint)
    requires StoreInv(s) && Ascending(tiers) && PrefixMarks(s.triggered, tiers)
    requires ValidRun(profile, tiers, s, evs) && SameLife(profile, tiers, s, evs, mint)
    ensures TakesOver(s, TiersSent(profile, tiers, s, evs, mint), Run(profile, tiers, s, evs), mint)
    ensures StoreInv(Run(profile, tiers, s, evs)) && PrefixMarks(Run(profile, tiers, s, evs).triggered, tiers)
    decreases |evs|
  {
    hide StoreInv, Step, Commands, Enabled, Ascending, PrefixMarks, Marks, Rebuys, Takes, IsOpen;
    if evs == [] {
      NothingTaken(s, mint);
    } else {
      var ev, rest := evs[0], evs[1..];
      var s1 := Step(profile, tiers, s, ev);
      assert ev in evs && forall e | e in rest :: e in evs;
      StepKeepsStore(profile, tiers, s, ev);
      StepKeepsPrefix(profile, tiers, s, ev);
      StepTakes(profile, tiers, s, ev, mint);
      LifeTakes(profile, tiers, s1, rest, mint);
      TierIndexesConcat(Commands(profile, tiers, s, ev).1, AllCommands(profile, tiers, s1, rest), mint);
      TakesJoin(s, TierIndexes(Commands(profile, tiers, s, ev).1, mint), s1, TiersSent(profile, tiers, s1, rest, mint),
                Run(profile, tiers, s, evs), mint);
    }
  }

  lemma NothingTaken(s: System, mint: Mint)
    ensures TakesOver(s, [], s, mint)
  {
  }

  /** From the buy of a record on, the tiers sent for it follow, in order, the ones its mint had marked. */
  lemma RecordTiersInOrder(mode: TradingMode, maxHoldOverride: nat, before: seq<Event>, ev: Event, mint: Mint,
                           evs: seq<Event>)
    requires var profile, tiers := FromMode(mode, maxHoldOverride), TiersForMode(mode);
             && ValidRun(profile, tiers, START, before)
             && var s := Run(profile, tiers, START, before);
             && Enabled(s, ev) && Rebuys(s, ev, mint)
             && var s1 := Step(profile, tiers, s, ev);
             && ValidRun(profile, tiers, s1, evs) && SameLife(profile, tiers, s1, evs, mint)
    ensures var profile, tiers := FromMode(mode, maxHoldOverride), TiersForMode(mode);
            var s := Run(profile, tiers, START, before);
            var s1 := Step(profile, tiers, s, ev);
            var s', sent := Run(profile, tiers, s1, evs), TiersSent(profile, tiers, s1, evs, mint);
            var k := |Marks(s.triggered, mint)|;
            && sent == Iota(k, k + |sent|)
            && (IsOpen(s'.store.cache, mint) ==> Marks(s'.triggered, mint) == Iota(0, k + |sent|))
  {
    hide FromMode, TiersForMode, StoreInv, Step, Enabled, PrefixMarks, Marks, Rebuys, IsOpen, Run, ValidRun, SameLife;
    hide TakesOver, Ascending, NewPosition, Filed;
    var profile, tiers := FromMode(mode, maxHoldOverride), TiersForMode(mode);
    var s1 := Step(profile, tiers, Run(profile, tiers, START, before), ev);
    BuyStarts(mode, maxHoldOverride, before, ev, mint);
    LifeTakes(profile, tiers, s1, evs, mint);
    MarksFollow(tiers, s1, TiersSent(profile, tiers, s1, evs, mint), Run(profile, tiers, s1, evs), mint);
    SameMarks(Run(profile, tiers, START, before), s1, mint);
  }

  lemma SameMarks(s: System, s1: System, mint: Mint)
    requires s.triggered == s1.triggered
    ensures Marks(s.triggered, mint) == Marks(s1.triggered, mint)
  {
  }

  lemma MarksFollow(tiers: seq<Tier>, s: System, sent: seq<nat>, s': System, mint: Mint)
    requires PrefixMarks(s.triggered, tiers) && TakesOver(s, sent, s', mint)
    ensures var k := |Marks(s.triggered, mint)|;
            && sent == Iota(k, k + |sent|)
            && (IsOpen(s'.store.cache, mint) ==> Marks(s'.triggered, mint) == Iota(0, k + |sent|))
  {
    hide PrefixMarks, Marks, IsOpen, Iota, Takes;
    MarksArePrefix(s.triggered, tiers, mint);
    TakenFollow(IsOpen(s.store.cache, mint), Marks(s.triggered, mint), sent, IsOpen(s'.store.cache, mint),
                Marks(s'.triggered, mint));
  }

  lemma TakenFollow(wasOpen: bool, marks: seq<nat>, sent: seq<nat>, isOpen: bool, marks': seq<nat>)
    requires marks == Iota(0, |marks|) && Takes(wasOpen, marks, sent, isOpen, marks')
    ensures sent == Iota(|marks|, |marks| + |sent|) && (isOpen ==> marks' == Iota(0, |marks| + |sent|))
  {
    hide Iota;
    IotaJoin(0, |marks|, |marks| + |sent|);
  }

  lemma BuyStarts(mode: TradingMode, maxHoldOverride: nat, before: seq<Event>, ev: Event, mint: Mint)
    requires var profile, tiers := FromMode(mode, maxHoldOverride), TiersForMode(mode);
             && ValidRun(profile, tiers, START, before)
             && var s := Run(profile, tiers, START, before);
             && Enabled(s, ev) && Rebuys(s, ev, mint)
    ensures var profile, tiers := FromMode(mode, maxHoldOverride), TiersForMode(mode);
            var s := Run(profile, tiers, START, before);
            var s1 := Step(profile, tiers, s, ev);
            && StoreInv(s1) && Ascending(tiers) && PrefixMarks(s1.triggered, tiers)
            && s1.triggered == s.triggered && s1.looking == s.looking && s1.suspect == s.suspect
            && IsOpen(s1.store.cache, mint)
            && s1.store.cache[mint] == NewPosition(profile, ev.id, mint, ev.entryPrice, ev.entryAmount, ev.tokenAmount,
                                                   ev.walletSolAtOpen, ev.now)
  {
    hide FromMode, TiersForMode, StoreInv, PrefixMarks, Ascending;
    var profile, tiers := FromMode(mode, maxHoldOverride), TiersForMode(mode);
    StartKeepsStore();
    RunKeepsStore(profile, tiers, START, before);
    StepKeepsStore(profile, tiers, Run(profile, tiers, START, before), ev);
    ModeTiersAscend(mode);
    NoMarks(tiers);
    TiersArePrefix(mode, maxHoldOverride, START, before);
  }

  lemma NoMarks(tiers: seq<Tier>)
    ensures PrefixMarks(START.triggered, tiers)
  {
  }

  // ---------- When a record has its own first tier ----------

  /** In some continuation without a restart its first tier goes off while it lasts. */
  ghost predicate FirstTierCanGoOff(profile: TradingProfile, tiers: seq<Tier>, s: System, mint: Mint) {
    exists evs :: GoesOff(profile, tiers, s, mint, evs)
  }

  ghost predicate GoesOff(profile: TradingProfile, tiers: seq<Tier>, s: System, mint: Mint, evs: seq<Event>) {
    ValidRun(profile, tiers, s, evs) && SameLife(profile, tiers, s, evs, mint) &&
    0 in TiersSent(profile, tiers, s, evs, mint)
  }

  lemma GoesOffAfter(profile: TradingProfile, tiers: seq<Tier>, s: System, ev: Event, mint: Mint, evs: seq<Event>)
    requires Enabled(s, ev) && !ev.Reboot? && !Rebuys(s, ev, mint)
    requires GoesOff(profile, tiers, Step(profile, tiers, s, ev), mint, evs)
    ensures GoesOff(profile, tiers, s, mint, [ev] + evs)
  {
    hide Step, Commands, Rebuys, Enabled;
    var all := [ev] + evs;
    assert all[0] == ev && all[1..] == evs;
    var later := AllCommands(profile, tiers, Step(profile, tiers, s, ev), evs);
    TierIndexesConcat(Commands(profile, tiers, s, ev).1, later, mint);
  }

  lemma GoesOffNow(profile: TradingProfile, tiers: seq<Tier>, s: System, ev: Event, mint: Mint)
    requires Enabled(s, ev) && !ev.Reboot? && !Rebuys(s, ev, mint)
    requires TierIndexes(Commands(profile, tiers, s, ev).1, mint) == [0]
    ensures GoesOff(profile, tiers, s, mint, [ev])
  {
    hide Step, Commands, Rebuys, Enabled;
    var one, cs := [ev], Commands(profile, tiers, s, ev).1;
    assert one[0] == ev && one[1..] == [];
    RunOne(profile, tiers, s, ev);
    assert ValidRun(profile, tiers, s, one);
    assert AllCommands(profile, tiers, s, one) == cs + [] == cs;
    assert NoRebuys(profile, tiers, s, one, mint);
  }

  /** A position with this much gain, no older than a second, takes its first tier when nothing is marked. */
  lemma TakesFirst(profile: TradingProfile, tiers: seq<Tier>, triggered: Triggered, p: Position)
    requires Sound(profile, tiers) && p.status == Open && !p.priceStale && p.ageSecs == 0
    requires p.pnlPct == tiers[0].triggerPct && p.stopLossPct == profile.stopLossPct && Marks(triggered, p.mint) == []
    ensures TierIndexes(AsSeq(Evaluate(profile, tiers, triggered, p).1), p.mint) == [0]
  {
    assert FirstTier(tiers, [], p.pnlPct, 0) == 0;
    var c := PartialTakeProfit(p.mint, p.pnlPct, tiers[0].sellPct, 0);
    assert Evaluate(profile, tiers, triggered, p).1 == Some(c);
    assert TierIndexes([c], p.mint) == [0] + TierIndexes([c][1..], p.mint);
  }

  lemma PriceFor(entryPrice: real, pct: real) returns (price: real)
    requires entryPrice > 0.0
    ensures (price / entryPrice - 1.0) * 100.0 == pct
  {
    price := Scaled(entryPrice, 1.0 + pct / 100.0);
  }

  lemma Scaled(scale: real, factor: real) returns (product: real)
    requires scale > 0.0
    ensures product / scale == factor
  {
    product := scale * factor;
  }

  /** The first tier's price comes in and is looked at. */
  lemma PriceReached(profile: TradingProfile, tiers: seq<Tier>, s: System, mint: Mint) returns (evs: seq<Event>)
    requires Sound(profile, tiers) && s.looking.None? && IsOpen(s.store.cache, mint)
    requires var p := s.store.cache[mint];
             p.mint == mint && p.entryPrice > 0.0 && p.stopLossPct == profile.stopLossPct
    requires Marks(s.triggered, mint) == []
    ensures GoesOff(profile, tiers, s, mint, evs)
  {
    hide GoesOff, Sound, Evaluate, ListsOpen, EvaluateAll, Marks;
    SoundHasTiers(profile, tiers);
    var p, first := s.store.cache[mint], tiers[0].triggerPct;
    var price := PriceFor(p.entryPrice, first);
    var tick := PriceTick(mint, price, false, p.openedAt);
    var s1 := Step(profile, tiers, s, tick);
    var q := Repriced(p, price, false, p.openedAt);
    assert s1 == s.(store := s.store.(cache := s.store.cache[mint := q]), looking := Some(mint));
    TakesFirst(profile, tiers, s1.triggered, q);
    GoesOffNow(profile, tiers, s1, LookAtTicked, mint);
    GoesOffAfter(profile, tiers, s, tick, mint, [LookAtTicked]);
    evs := [tick] + [LookAtTicked];
  }

  /** A look under way at the time of the buy takes no tier of the new record. */
  lemma FirstLookTakesNone(profile: TradingProfile, tiers: seq<Tier>, s: System, mint: Mint)
    requires Sound(profile, tiers) && StoreInv(s) && s.looking.Some? && IsOpen(s.store.cache, mint)
    requires s.store.cache[mint].pnlPct == 0.0 && Marks(s.triggered, mint) == []
    requires Ascending(tiers) && PrefixMarks(s.triggered, tiers)
    ensures Marks(Step(profile, tiers, s, LookAtTicked).triggered, mint) == []
  {
    FiledOf(s);
    FiledAt(s.store, mint);
    assert forall j | 0 <= j < |tiers| :: tiers[j].triggerPct > 0.0;
    hide PrefixMarks, StoreInv, Ascending;
    var m := s.looking.value;
    if IsOpen(s.store.cache, m) {
      FiledAt(s.store, m);
      EvaluateFrame(profile, tiers, s.triggered, s.store.cache[m], mint);
      if m == mint {
        assert FirstTier(tiers, [], 0.0, 0) == |tiers|;
      }
    }
  }

  /** A record with a positive entry price can take its own first tier, before any restart, exactly when
      no tier of its mint is marked when it is bought. */
  lemma OwnFirstTierIff(mode: TradingMode, maxHoldOverride: nat, before: seq<Event>, ev: Event, mint: Mint)
    requires var profile, tiers := FromMode(mode, maxHoldOverride), TiersForMode(mode);
             && ValidRun(profile, tiers, START, before)
             && var s := Run(profile, tiers, START, before);
             && Enabled(s, ev) && Rebuys(s, ev, mint) && ev.entryPrice > 0.0
    ensures var profile, tiers := FromMode(mode, maxHoldOverride), TiersForMode(mode);
            var s := Run(profile, tiers, START, before);
            FirstTierCanGoOff(profile, tiers, Step(profile, tiers, s, ev), mint) <==> Marks(s.triggered, mint) == []
  {
    hide FromMode, TiersForMode, StoreInv, PrefixMarks, Ascending, Run, ValidRun, Sound, Rebuys, Marks, GoesOff, Step;
    hide Enabled, IsOpen;
    var profile, tiers := FromMode(mode, maxHoldOverride), TiersForMode(mode);
    var s := Run(profile, tiers, START, before);
    var s1 := Step(profile, tiers, s, ev);
    BuyStarts(mode, maxHoldOverride, before, ev, mint);
    ModesSound(mode, maxHoldOverride);
    if Marks(s.triggered, mint) == [] {
      var evs := FirstTierAhead(profile, tiers, s1, mint);
    }
    if evs :| GoesOff(profile, tiers, s1, mint, evs) {
      OwnTierUnmarked(mode, maxHoldOverride, before, ev, mint, evs);
    }
  }

  /** Newly bought with no marks: a run that takes the first tier. */
  lemma FirstTierAhead(profile: TradingProfile, tiers: seq<Tier>, s: System, mint: Mint) returns (evs: seq<Event>)
    requires Sound(profile, tiers) && StoreInv(s) && IsOpen(s.store.cache, mint) && Marks(s.triggered, mint) == []
    requires var p := s.store.cache[mint];
             p.mint == mint && p.entryPrice > 0.0 && p.stopLossPct == profile.stopLossPct && p.pnlPct == 0.0
    requires Ascending(tiers) && PrefixMarks(s.triggered, tiers)
    ensures GoesOff(profile, tiers, s, mint, evs)
  {
    hide StoreInv, PrefixMarks, Ascending, Sound, Rebuys, Marks, Evaluate, GoesOff, Commands;
    if s.looking.None? {
      evs := PriceReached(profile, tiers, s, mint);
    } else {
      FirstLookTakesNone(profile, tiers, s, mint);
      var rest := PriceReached(profile, tiers, Step(profile, tiers, s, LookAtTicked), mint);
      LookOpensNothing(s, mint);
      GoesOffAfter(profile, tiers, s, LookAtTicked, mint, rest);
      evs := [LookAtTicked] + rest;
    }
  }

  lemma LookOpensNothing(s: System, mint: Mint)
    ensures !Rebuys(s, LookAtTicked, mint)
  {
  }

  lemma OwnTierUnmarked(mode: TradingMode, maxHoldOverride: nat, before: seq<Event>, ev: Event, mint: Mint,
                        evs: seq<Event>)
    requires var profile, tiers := FromMode(mode, maxHoldOverride), TiersForMode(mode);
             && ValidRun(profile, tiers, START, before)
             && var s := Run(profile, tiers, START, before);
             && Enabled(s, ev) && Rebuys(s, ev, mint)
             && GoesOff(profile, tiers, Step(profile, tiers, s, ev), mint, evs)
    ensures Marks(Run(FromMode(mode, maxHoldOverride), TiersForMode(mode), START, before).triggered, mint) == []
  {
    hide FromMode, TiersForMode, Step, Enabled, Marks, Rebuys, IsOpen, Run, ValidRun, SameLife, TiersSent;
    RecordTiersInOrder(mode, maxHoldOverride, before, ev, mint, evs);
  }

  /** The next pass over the open positions after a close clears the marks, and a buy then finds none. */
  lemma ClearedBeforeBuy(mode: TradingMode, maxHoldOverride: nat, before: seq<Event>, listed: seq<Position>,
                         evs: seq<Event>, mint: Mint)
    requires var profile, tiers := FromMode(mode, maxHoldOverride), TiersForMode(mode);
             && ValidRun(profile, tiers, START, before)
             && var s := Run(profile, tiers, START, before);
             && Enabled(s, CheckAll(listed)) && !IsOpen(s.store.cache, mint)
             && var s1 := Step(profile, tiers, s, CheckAll(listed));
             && ValidRun(profile, tiers, s1, evs) && SameLife(profile, tiers, s1, evs, mint)
    ensures var profile, tiers := FromMode(mode, maxHoldOverride), TiersForMode(mode);
            var s1 := Step(profile, tiers, Run(profile, tiers, START, before), CheckAll(listed));
            Marks(Run(profile, tiers, s1, evs).triggered, mint) == []
  {
    var profile, tiers := FromMode(mode, maxHoldOverride), TiersForMode(mode);
    var s, ev := Run(profile, tiers, START, before), CheckAll(listed);
    var s1 := Step(profile, tiers, s, ev);
    StartKeepsStore();
    RunKeepsStore(profile, tiers, START, before);
    StepKeepsStore(profile, tiers, s, ev);
    ModeTiersAscend(mode);
    NoMarks(tiers);
    TiersArePrefix(mode, maxHoldOverride, START, before);
    hide FromMode, TiersForMode, StoreInv, PrefixMarks, Ascending, Run, ValidRun, Marks;
    hide Evaluate, EvaluateAll, ListsOpen;
    FiledOf(s);
    StepTakesTiers(profile, tiers, s, ev, mint);
    StepKeepsPrefix(profile, tiers, s, ev);
    LifeTakes(profile, tiers, s1, evs, mint);
  }

  // ---------- The trailing stop of a record and its own first tier ----------

  lemma {:induction false} RunConcat(profile: TradingProfile, tiers: seq<Tier>, s: System, a: seq<Event>, b: seq<Event>)
    requires ValidRun(profile, tiers, s, a) && ValidRun(profile, tiers, Run(profile, tiers, s, a), b)
    ensures ValidRun(profile, tiers, s, a + b)
    ensures Run(profile, tiers, s, a + b) == Run(profile, tiers, Run(profile, tiers, s, a), b)
    decreases |a|
  {
    hide Step, Enabled;
    if a == [] {
      assert a + b == b;
    } else {
      assert (a + b)[0] == a[0] && (a + b)[1..] == a[1..] + b;
      RunConcat(profile, tiers, Step(profile, tiers, s, a[0]), a[1..], b);
    }
  }

  /** A record that finds no marks when it is bought, and whose PnL is neither rewritten nor cleared, gets a
      trailing stop only when its own first tier has been sent. */
  lemma TrailingFollowsOwnTier(mode: TradingMode, maxHoldOverride: nat, clock: Time, before: seq<Event>, ev: Event,
                               evs: seq<Event>, last: Event, c: Command)
    requires var profile, tiers := FromMode(mode, maxHoldOverride), TiersForMode(mode);
             && ValidRun(profile, tiers, START, before)
             && var s := Run(profile, tiers, START, before);
             && Enabled(s, ev) && Rebuys(s, ev, c.mint) && Marks(s.triggered, c.mint) == []
             && var s1 := Step(profile, tiers, s, ev);
             && ValidRun(profile, tiers, s1, evs) && SameLife(profile, tiers, s1, evs, c.mint)
             && var s' := Run(profile, tiers, s1, evs);
             && Enabled(s', last) && c in Commands(profile, tiers, s', last).1 && c.TrailingStop?
             && c.mint in s'.store.cache && s'.store.cache[c.mint].id !in s'.suspect
    requires InOrder(clock, before + ([ev] + evs))
    ensures var profile, tiers := FromMode(mode, maxHoldOverride), TiersForMode(mode);
            var s1 := Step(profile, tiers, Run(profile, tiers, START, before), ev);
            0 in TiersSent(profile, tiers, s1, evs, c.mint)
              + TierIndexes(Commands(profile, tiers, Run(profile, tiers, s1, evs), last).1, c.mint)
  {
    var profile, tiers := FromMode(mode, maxHoldOverride), TiersForMode(mode);
    var s := Run(profile, tiers, START, before);
    var s1 := Step(profile, tiers, s, ev);
    var s' := Run(profile, tiers, s1, evs);
    var all := [ev] + evs;
    assert all[0] == ev && all[1..] == evs;
    RunConcat(profile, tiers, START, before, all);
    hide FromMode, TiersForMode, Step, Commands, Run, ValidRun;
    TrailingFollowsFirstTier(mode, maxHoldOverride, clock, before + all, last, c);
    hide InOrder, StoreInv, PrefixMarks, Ascending, Marks, Evaluate, EvaluateAll, ListsOpen, SameLife, Rebuys;
    BuyStarts(mode, maxHoldOverride, before, ev, c.mint);
    LifeTakes(profile, tiers, s1, evs, c.mint);
    FiledOf(s');
    CommandsForOpen(profile, tiers, s', last, c);
    StepTakesTiers(profile, tiers, s', last, c.mint);
    LastTierSent(s1, TiersSent(profile, tiers, s1, evs, c.mint), s',
                 TierIndexes(Commands(profile, tiers, s', last).1, c.mint), Step(profile, tiers, s', last), c.mint);
  }

  lemma CommandsForOpen(profile: TradingProfile, tiers: seq<Tier>, s: System, ev: Event, c: Command)
    requires Filed(s.store) && Enabled(s, ev) && c in Commands(profile, tiers, s, ev).1
    ensures IsOpen(s.store.cache, c.mint) && !ev.Reboot?
  {
    hide Evaluate, EvaluateAll, ListsOpen;
    match ev
    case LookAtTicked => EvaluateFrame(profile, tiers, s.triggered, s.store.cache[s.looking.value], c.mint);
    case CheckAll(listed) =>
      var p := CommandOf(profile, tiers, Retained(s.triggered, MintsOf(listed)), listed, c);
      ListedMints(s.store.cache, listed, c.mint);
      assert p.mint in MintsOf(listed);
    case _ =>
  }

  lemma {:induction false} CommandOf(profile: TradingProfile, tiers: seq<Tier>, triggered: Triggered,
                                     listed: seq<Position>, c: Command) returns (p: Position)
    requires c in EvaluateAll(profile, tiers, triggered, listed).1
    ensures p in listed && p.mint == c.mint
    decreases |listed|
  {
    hide Evaluate;
    var (t, first) := Evaluate(profile, tiers, triggered, listed[0]);
    EvaluateFrame(profile, tiers, triggered, listed[0], c.mint);
    if first == Some(c) {
      p := listed[0];
    } else {
      p := CommandOf(profile, tiers, t, listed[1..], c);
    }
  }

  lemma LastTierSent(s: System, sent: seq<nat>, s1: System, sent': seq<nat>, s2: System, mint: Mint)
    requires Marks(s.triggered, mint) == [] && TakesOver(s, sent, s1, mint) && IsOpen(s1.store.cache, mint)
    requires |Marks(s1.triggered, mint)| <= |Marks(s2.triggered, mint)|
    requires sent' == Iota(|Marks(s1.triggered, mint)|, |Marks(s2.triggered, mint)|)
    requires 0 in Marks(s2.triggered, mint)
    ensures 0 in sent + sent'
  {
    hide Marks;
    IotaIn(|sent|, 0);
    if sent == [] {
      IotaIn(|Marks(s2.triggered, mint)|, 0);
    }
  }
}
