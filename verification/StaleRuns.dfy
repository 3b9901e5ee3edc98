/** What a stale price freezes, and which tiers are taken. */
module StaleRuns {
  import opened Options
  import opened TradingProfiles
  import opened Positions
  import opened PositionStore
  import opened TpSl
  import opened TpSlRuns
  import opened ExitRules
  import opened Pipeline
  import opened PipelineRuns
  import opened ExitOrder

  // ---------- A stale price freezes its position ----------

  /** A fresh price for the mint, a booking or closing of its sale, or a restart. */
  predicate Touches(s: System, ev: Event, mint: Mint) {
    match ev
    case PriceTick(m, _, stale, _) => m == mint && !stale
    case Attempt(submission, _) =>
      s.executor.Selling? && s.executor.mint == mint && SettlementOf(OutcomeOf(submission)).Some?
    case Settle(_, _) => s.executor.Settling? && s.executor.mint == mint
    case GiveUp => s.executor.Selling? && s.executor.mint == mint
    case CloseFailed(_) => s.executor.Failing? && s.executor.mint == mint
    case Reboot(_) => true
    case _ => false
  }

  ghost predicate NeverTouched(profile: TradingProfile, tiers: seq<Tier>, s: System, evs: seq<Event>, mint: Mint)
    requires ValidRun(profile, tiers, s, evs)
    decreases |evs|
  {
    evs == [] ||
    (!Touches(s, evs[0], mint) && NeverTouched(profile, tiers, Step(profile, tiers, s, evs[0]), evs[1..], mint))
  }

  /** Every command the monitor sends over a run. */
  ghost function AllCommands(profile: TradingProfile, tiers: seq<Tier>, s: System, evs: seq<Event>): seq<Command>
    requires ValidRun(profile, tiers, s, evs)
    decreases |evs|
  {
    if evs == [] then []
    else Commands(profile, tiers, s, evs[0]).1 + AllCommands(profile, tiers, Step(profile, tiers, s, evs[0]), evs[1..])
  }

  /** The one command, if any, that the frozen values call for. */
  function FrozenVerdict(profile: TradingProfile, p: Position): Option<Command> {
    if LooksBogus(p) then None else SafetyNet(profile, p)
  }

  ghost predicate OnlyFor(verdict: Option<Command>, cs: seq<Command>, mint: Mint) {
    forall c | c in cs && c.mint == mint :: verdict == Some(c)
  }

  ghost predicate StaleAt(s: System, mint: Mint, p: Position) {
    IsOpen(s.store.cache, mint) && s.store.cache[mint] == p && p.mint == mint && p.priceStale
  }

  lemma EvaluateStale(profile: TradingProfile, tiers: seq<Tier>, triggered: Triggered, p: Position)
    requires p.priceStale && p.status == Open
    ensures Evaluate(profile, tiers, triggered, p) == (triggered, FrozenVerdict(profile, p))
  {
  }

  lemma {:induction false} EvaluateAllStale(profile: TradingProfile, tiers: seq<Tier>, triggered: Triggered,
                                            listed: seq<Position>, p: Position)
    requires p.priceStale && p.status == Open
    requires forall q | q in listed && q.mint == p.mint :: q == p
    ensures var (t, cs) := EvaluateAll(profile, tiers, triggered, listed);
            Marks(t, p.mint) == Marks(triggered, p.mint) && OnlyFor(FrozenVerdict(profile, p), cs, p.mint)
    decreases |listed|
  {
    if listed != [] {
      hide Evaluate, FrozenVerdict, Marks;
      var q, rest := listed[0], listed[1..];
      assert q in listed && forall r | r in rest :: r in listed;
      EvaluateFrame(profile, tiers, triggered, q, p.mint);
      if q == p {
        EvaluateStale(profile, tiers, triggered, p);
      }
      EvaluateAllStale(profile, tiers, Evaluate(profile, tiers, triggered, q).0, rest, p);
    }
  }

  lemma CheckAllStale(profile: TradingProfile, tiers: seq<Tier>, s: System, listed: seq<Position>, mint: Mint,
                      p: Position)
    requires StaleAt(s, mint, p) && ListsOpen(s.store.cache, listed)
    ensures var (t, cs) := Commands(profile, tiers, s, CheckAll(listed));
            Marks(t, mint) == Marks(s.triggered, mint) && OnlyFor(FrozenVerdict(profile, p), cs, mint)
  {
    assert p in listed;
    assert mint in MintsOf(listed);
    EvaluateAllStale(profile, tiers, Retained(s.triggered, MintsOf(listed)), listed, p);
  }

  lemma StaleStep(profile: TradingProfile, tiers: seq<Tier>, s: System, ev: Event, mint: Mint, p: Position)
    requires Filed(s.store) && StaleAt(s, mint, p) && Enabled(s, ev) && !Touches(s, ev, mint)
    ensures var s' := Step(profile, tiers, s, ev);
            && StaleAt(s', mint, p)
            && Marks(s'.triggered, mint) == Marks(s.triggered, mint)
            && OnlyFor(FrozenVerdict(profile, p), Commands(profile, tiers, s, ev).1, mint)
  {
    hide Evaluate, EvaluateAll, FrozenVerdict, ListsOpen, ListsOpenRows, OutcomeOf;
    match ev
    case LookAtTicked =>
      if IsOpen(s.store.cache, s.looking.value) {
        var q := s.store.cache[s.looking.value];
        EvaluateFrame(profile, tiers, s.triggered, q, mint);
        if s.looking.value == mint {
          EvaluateStale(profile, tiers, s.triggered, p);
        } else {
          FiledAt(s.store, s.looking.value);
        }
      }
    case CheckAll(listed) => CheckAllStale(profile, tiers, s, listed, mint, p);
    case _ =>
  }

  lemma {:induction false} StaleRun(profile: TradingProfile, tiers: seq<Tier>, s: System, evs: seq<Event>,
                                    mint: Mint, p: Position)
    requires StoreInv(s) && StaleAt(s, mint, p)
    requires ValidRun(profile, tiers, s, evs) && NeverTouched(profile, tiers, s, evs, mint)
    ensures var s' := Run(profile, tiers, s, evs);
            && StaleAt(s', mint, p)
            && Marks(s'.triggered, mint) == Marks(s.triggered, mint)
            && OnlyFor(FrozenVerdict(profile, p), AllCommands(profile, tiers, s, evs), mint)
    decreases |evs|
  {
    if evs != [] {
      hide Step, Commands, Enabled, StaleAt, Touches, FrozenVerdict, StoreInv;
      FiledOf(s);
      StaleStep(profile, tiers, s, evs[0], mint, p);
      StepKeepsStore(profile, tiers, s, evs[0]);
      StaleRun(profile, tiers, Step(profile, tiers, s, evs[0]), evs[1..], mint, p);
    }
  }

  /** While its price is stale and nothing else touches it, an open position does not move at all,
      its age included; no tier of its mint is marked, and every command sent for it is the one
      safety exit that the frozen values already called for. */
  lemma FrozenWhileStale(profile: TradingProfile, tiers: seq<Tier>, before: seq<Event>, evs: seq<Event>, mint: Mint)
    requires ValidRun(profile, tiers, START, before)
    requires var s := Run(profile, tiers, START, before);
             && IsOpen(s.store.cache, mint) && s.store.cache[mint].priceStale
             && ValidRun(profile, tiers, s, evs) && NeverTouched(profile, tiers, s, evs, mint)
    ensures var s := Run(profile, tiers, START, before);
            var s' := Run(profile, tiers, s, evs);
            var p := s.store.cache[mint];
            && mint in s'.store.cache && s'.store.cache[mint] == p
            && Marks(s'.triggered, mint) == Marks(s.triggered, mint)
            && (forall c | c in AllCommands(profile, tiers, s, evs) && c.mint == mint ::
                  (c.StopLoss? || c.TimeStop? || c.MaxAgeExit?) &&
                  Due(profile, tiers, Marks(s.triggered, mint), p, c))
  {
    StartKeepsStore();
    RunKeepsStore(profile, tiers, START, before);
    var s := Run(profile, tiers, START, before);
    FiledOf(s);
    FiledAt(s.store, mint);
    var p := s.store.cache[mint];
    StaleRun(profile, tiers, s, evs, mint, p);
    forall c | c in AllCommands(profile, tiers, s, evs) && c.mint == mint
      ensures (c.StopLoss? || c.TimeStop? || c.MaxAgeExit?) && Due(profile, tiers, Marks(s.triggered, mint), p, c)
    {
      FrozenIsDue(profile, tiers, s.triggered, p, c);
    }
  }

  lemma FrozenIsDue(profile: TradingProfile, tiers: seq<Tier>, triggered: Triggered, p: Position, c: Command)
    requires p.priceStale && p.status == Open && FrozenVerdict(profile, p) == Some(c)
    ensures (c.StopLoss? || c.TimeStop? || c.MaxAgeExit?) && Due(profile, tiers, Marks(triggered, p.mint), p, c)
  {
    EvaluateStale(profile, tiers, triggered, p);
    EvaluateIff(profile, tiers, triggered, p, c);
  }

  // ---------- Marks over runs of the whole system ----------

  lemma {:induction false} EvaluateAllPrefix(profile: TradingProfile, tiers: seq<Tier>, triggered: Triggered,
                                             listed: seq<Position>)
    requires Ascending(tiers) && PrefixMarks(triggered, tiers)
    ensures PrefixMarks(EvaluateAll(profile, tiers, triggered, listed).0, tiers)
    ensures |EvaluateAll(profile, tiers, triggered, listed).1| <= |listed|
    decreases |listed|
  {
    if listed != [] {
      hide Evaluate, PrefixMarks, Ascending;
      EvaluateMarks(profile, tiers, triggered, listed[0], listed[0].mint);
      EvaluateAllPrefix(profile, tiers, Evaluate(profile, tiers, triggered, listed[0]).0, listed[1..]);
    }
  }

  lemma StepKeepsPrefix(profile: TradingProfile, tiers: seq<Tier>, s: System, ev: Event)
    requires Ascending(tiers) && PrefixMarks(s.triggered, tiers) && Enabled(s, ev)
    ensures PrefixMarks(Step(profile, tiers, s, ev).triggered, tiers)
    ensures |Commands(profile, tiers, s, ev).1| <= if ev.CheckAll? then |ev.listed| else 1
  {
    hide Evaluate, EvaluateAll, Ascending;
    match ev
    case LookAtTicked =>
      if IsOpen(s.store.cache, s.looking.value) {
        EvaluateMarks(profile, tiers, s.triggered, s.store.cache[s.looking.value], s.looking.value);
      }
    case CheckAll(listed) => EvaluateAllPrefix(profile, tiers, Retained(s.triggered, MintsOf(listed)), listed);
    case _ =>
  }

  /** In every reachable state of every mode the tiers taken for a mint are the lowest ones, in order. */
  lemma {:induction false} TiersArePrefix(mode: TradingMode, maxHoldOverride: nat, s: System, evs: seq<Event>)
    requires PrefixMarks(s.triggered, TiersForMode(mode))
    requires ValidRun(FromMode(mode, maxHoldOverride), TiersForMode(mode), s, evs)
    ensures PrefixMarks(Run(FromMode(mode, maxHoldOverride), TiersForMode(mode), s, evs).triggered, TiersForMode(mode))
    decreases |evs|
  {
    if evs != [] {
      hide Step, Enabled, PrefixMarks, TiersForMode, FromMode, Ascending;
      var profile, tiers := FromMode(mode, maxHoldOverride), TiersForMode(mode);
      ModeTiersAscend(mode);
      StepKeepsPrefix(profile, tiers, s, evs[0]);
      TiersArePrefix(mode, maxHoldOverride, Step(profile, tiers, s, evs[0]), evs[1..]);
    }
  }
}
