/** What the monitor sends in every reachable state: to each open position exactly the exit that is due. */
module ExitRuns {
  import opened Options
  import opened TradingProfiles
  import opened Positions
  import opened PositionStore
  import opened TpSl
  import opened ExitRules
  import opened Pipeline
  import opened PipelineRuns
  import opened ExitOrder
  import opened RecordTiers

  /** The commands for one mint, in order. */
  function ForMint(cs: seq<Command>, mint: Mint): seq<Command> {
    if cs == [] then [] else (if cs[0].mint == mint then [cs[0]] else []) + ForMint(cs[1..], mint)
  }

  lemma {:induction false} ForMintConcat(a: seq<Command>, b: seq<Command>, mint: Mint)
    ensures ForMint(a + b, mint) == ForMint(a, mint) + ForMint(b, mint)
  {
    if a == [] {
      assert a + b == b;
    } else {
      assert (a + b)[0] == a[0] && (a + b)[1..] == a[1..] + b;
      var first, rest, last := if a[0].mint == mint then [a[0]] else [], ForMint(a[1..], mint), ForMint(b, mint);
      ForMintConcat(a[1..], b, mint);
      assert first + (rest + last) == (first + rest) + last;
    }
  }

  lemma ForMintOne(o: Option<Command>, mint: Mint)
    ensures ForMint(AsSeq(o), mint) == if o.Some? && o.value.mint == mint then AsSeq(o) else []
  {
    if o.Some? {
      assert [o.value][0] == o.value && [o.value][1..] == [];
    }
  }

  lemma EvaluateMint(profile: TradingProfile, tiers: seq<Tier>, triggered: Triggered, p: Position)
    ensures var c := Evaluate(profile, tiers, triggered, p).1; c.Some? ==> c.value.mint == p.mint
  {
  }

  /** Positions of other mints send nothing for this one and leave its marks. */
  lemma {:induction false} OthersSendNothing(profile: TradingProfile, tiers: seq<Tier>, triggered: Triggered,
                                             listed: seq<Position>, mint: Mint)
    requires forall p | p in listed :: p.mint != mint
    ensures var (t, cs) := EvaluateAll(profile, tiers, triggered, listed);
            ForMint(cs, mint) == [] && Marks(t, mint) == Marks(triggered, mint)
    decreases |listed|
  {
    if listed != [] {
      hide Evaluate, Marks;
      var p, rest := listed[0], listed[1..];
      assert p in listed && forall q | q in rest :: q in listed;
      var (t, c) := Evaluate(profile, tiers, triggered, p);
      EvaluateMint(profile, tiers, triggered, p);
      EvaluateMarksIff(profile, tiers, triggered, p);
      OthersSendNothing(profile, tiers, t, rest, mint);
      ForMintOne(c, mint);
      ForMintConcat(AsSeq(c), EvaluateAll(profile, tiers, t, rest).1, mint);
    }
  }

  lemma SameMarksSameVerdict(profile: TradingProfile, tiers: seq<Tier>, a: Triggered, b: Triggered, p: Position)
    requires Marks(a, p.mint) == Marks(b, p.mint)
    ensures Evaluate(profile, tiers, a, p).1 == Evaluate(profile, tiers, b, p).1
    ensures Marks(Evaluate(profile, tiers, a, p).0, p.mint) == Marks(Evaluate(profile, tiers, b, p).0, p.mint)
  {
    EvaluateMarksIff(profile, tiers, a, p);
    EvaluateMarksIff(profile, tiers, b, p);
  }

  /** A pass sends for each listed position what looking at it alone would send. */
  lemma {:induction false} EachAlone(profile: TradingProfile, tiers: seq<Tier>, triggered: Triggered,
                                     listed: seq<Position>, p: Position)
    requires p in listed
    requires forall i, j | 0 <= i < j < |listed| :: listed[i].mint != listed[j].mint
    ensures var (t, cs) := EvaluateAll(profile, tiers, triggered, listed);
            var (t1, c) := Evaluate(profile, tiers, triggered, p);
            ForMint(cs, p.mint) == AsSeq(c) && Marks(t, p.mint) == Marks(t1, p.mint)
    decreases |listed|
  {
    hide Evaluate, Marks;
    var q, rest := listed[0], listed[1..];
    var (t, c) := Evaluate(profile, tiers, triggered, q);
    EvaluateMint(profile, tiers, triggered, q);
    EvaluateMarksIff(profile, tiers, triggered, q);
    ForMintOne(c, p.mint);
    ForMintConcat(AsSeq(c), EvaluateAll(profile, tiers, t, rest).1, p.mint);
    assert forall i | 0 <= i < |rest| :: rest[i] == listed[i + 1];
    if p == q {
      OthersSendNothing(profile, tiers, t, rest, p.mint);
    } else {
      var i :| 0 <= i < |listed| && listed[i] == p;
      assert rest[i - 1] == p;
      SameMarksSameVerdict(profile, tiers, t, triggered, p);
      EachAlone(profile, tiers, t, rest, p);
    }
  }

  /** What looking at each listed position alone would send, one after the other. */
  function Alone(profile: TradingProfile, tiers: seq<Tier>, triggered: Triggered, listed: seq<Position>): seq<Command> {
    if listed == [] then []
    else AsSeq(Evaluate(profile, tiers, triggered, listed[0]).1) + Alone(profile, tiers, triggered, listed[1..])
  }

  lemma {:induction false} AloneByMarks(profile: TradingProfile, tiers: seq<Tier>, a: Triggered, b: Triggered,
                                        listed: seq<Position>)
    requires forall p | p in listed :: Marks(a, p.mint) == Marks(b, p.mint)
    ensures Alone(profile, tiers, a, listed) == Alone(profile, tiers, b, listed)
  {
    if listed != [] {
      hide Evaluate, Marks;
      assert listed[0] in listed && forall p | p in listed[1..] :: p in listed;
      SameMarksSameVerdict(profile, tiers, a, b, listed[0]);
      AloneByMarks(profile, tiers, a, b, listed[1..]);
    }
  }

  lemma {:induction false} AllIsAlone(profile: TradingProfile, tiers: seq<Tier>, triggered: Triggered,
                                      listed: seq<Position>)
    requires forall i, j | 0 <= i < j < |listed| :: listed[i].mint != listed[j].mint
    ensures EvaluateAll(profile, tiers, triggered, listed).1 == Alone(profile, tiers, triggered, listed)
    decreases |listed|
  {
    if listed != [] {
      hide Evaluate, Marks;
      var p, rest := listed[0], listed[1..];
      var t := Evaluate(profile, tiers, triggered, p).0;
      EvaluateMarksIff(profile, tiers, triggered, p);
      assert forall i | 0 <= i < |rest| :: rest[i] == listed[i + 1];
      AllIsAlone(profile, tiers, t, rest);
      AloneByMarks(profile, tiers, t, triggered, rest);
    }
  }

  /** A pass queues, position by position in the order of the list, what looking at each one alone sends. */
  lemma PassIsAlone(profile: TradingProfile, tiers: seq<Tier>, s: System, listed: seq<Position>)
    requires Enabled(s, CheckAll(listed)) && Filed(s.store)
    ensures Step(profile, tiers, s, CheckAll(listed)).commands
         == s.commands + Alone(profile, tiers, s.triggered, listed)
  {
    hide Evaluate, Marks, Retained, MintsOf;
    var kept := Retained(s.triggered, MintsOf(listed));
    ListedDistinct(s.store.cache, listed);
    forall p | p in listed
      ensures Marks(kept, p.mint) == Marks(s.triggered, p.mint)
    {
      ListedMints(s.store.cache, listed, p.mint);
      RetainedMarks(s.triggered, MintsOf(listed), p.mint);
    }
    AllIsAlone(profile, tiers, kept, listed);
    AloneByMarks(profile, tiers, kept, s.triggered, listed);
  }

  lemma ListedDistinct(cache: map<Mint, Position>, listed: seq<Position>)
    requires ListsOpen(cache, listed)
    ensures forall i, j | 0 <= i < j < |listed| :: listed[i].mint != listed[j].mint
    ensures forall p | p in listed :: IsOpen(cache, p.mint)
  {
  }

  /** What the monitor has queued with this event for the mint. */
  ghost function QueuedFor(profile: TradingProfile, tiers: seq<Tier>, s: System, ev: Event, mint: Mint): seq<Command>
    requires Enabled(s, ev) && !ev.ProcessCommand? && !ev.Reboot?
  {
    ForMint(Step(profile, tiers, s, ev).commands[|s.commands|..], mint)
  }

  /** The monitor looks at the mint: after its price has come in, or in its pass over all open positions. */
  predicate LooksAt(s: System, ev: Event, mint: Mint) {
    (ev.LookAtTicked? && s.looking == Some(mint)) || ev.CheckAll?
  }

  lemma LookAlone(profile: TradingProfile, tiers: seq<Tier>, s: System, ev: Event, mint: Mint)
    requires Filed(s.store) && Enabled(s, ev) && LooksAt(s, ev, mint) && IsOpen(s.store.cache, mint)
    ensures var (t, c) := Evaluate(profile, tiers, s.triggered, s.store.cache[mint]);
            && QueuedFor(profile, tiers, s, ev, mint) == AsSeq(c)
            && Marks(Step(profile, tiers, s, ev).triggered, mint) == Marks(t, mint)
  {
    hide Evaluate, EvaluateAll, Marks, Retained, MintsOf, ListsOpen;
    FiledAt(s.store, mint);
    var p := s.store.cache[mint];
    EvaluateMint(profile, tiers, s.triggered, p);
    if ev.CheckAll? {
      ListedOnce(s.store.cache, ev.listed, mint);
      ListedMints(s.store.cache, ev.listed, mint);
      var kept := Retained(s.triggered, MintsOf(ev.listed));
      RetainedMarks(s.triggered, MintsOf(ev.listed), mint);
      EachAlone(profile, tiers, kept, ev.listed, p);
      SameMarksSameVerdict(profile, tiers, kept, s.triggered, p);
    } else {
      ForMintOne(Evaluate(profile, tiers, s.triggered, p).1, mint);
    }
  }

  lemma ListedOnce(cache: map<Mint, Position>, listed: seq<Position>, mint: Mint)
    requires ListsOpen(cache, listed) && IsOpen(cache, mint)
    ensures cache[mint] in listed
    ensures forall i, j | 0 <= i < j < |listed| :: listed[i].mint != listed[j].mint
  {
  }

  lemma RetainedMarks(triggered: Triggered, stillOpen: set<Mint>, mint: Mint)
    ensures Marks(Retained(triggered, stillOpen), mint) == if mint in stillOpen then Marks(triggered, mint) else []
  {
  }

  lemma LookElsewhere(profile: TradingProfile, tiers: seq<Tier>, s: System, ev: Event, mint: Mint)
    requires Filed(s.store) && Enabled(s, ev) && !ev.ProcessCommand? && !ev.Reboot?
    requires !(LooksAt(s, ev, mint) && IsOpen(s.store.cache, mint))
    ensures QueuedFor(profile, tiers, s, ev, mint) == []
    ensures Marks(Step(profile, tiers, s, ev).triggered, mint) == if ev.CheckAll? then [] else Marks(s.triggered, mint)
  {
    hide Evaluate, EvaluateAll, Marks, Retained, MintsOf, ListsOpen;
    match ev
    case LookAtTicked =>
      var m := s.looking.value;
      if IsOpen(s.store.cache, m) {
        FiledAt(s.store, m);
        EvaluateMint(profile, tiers, s.triggered, s.store.cache[m]);
        EvaluateMarksIff(profile, tiers, s.triggered, s.store.cache[m]);
        ForMintOne(Evaluate(profile, tiers, s.triggered, s.store.cache[m]).1, mint);
      }
    case CheckAll(listed) =>
      ListedMints(s.store.cache, listed, mint);
      RetainedMarks(s.triggered, MintsOf(listed), mint);
      NotListed(listed, mint);
      OthersSendNothing(profile, tiers, Retained(s.triggered, MintsOf(listed)), listed, mint);
    case _ =>
  }

  /** Which tier of the list of commands, if it is one that a tier went off with. */
  function TiersOf(cs: seq<Command>): seq<nat> {
    if cs != [] && cs[0].PartialTakeProfit? then [cs[0].tierIndex] else []
  }

  /** In every reachable state a look at an open position, alone or in a pass over all of them, queues exactly
      the command that is due for it, if any, and marks the tier it takes; nothing is queued for any other mint. */
  lemma SendsWhatIsDue(profile: TradingProfile, tiers: seq<Tier>, before: seq<Event>, ev: Event, mint: Mint, c: Command)
    requires ValidRun(profile, tiers, START, before) && Enabled(Run(profile, tiers, START, before), ev)
    requires !ev.ProcessCommand? && !ev.Reboot?
    ensures var s := Run(profile, tiers, START, before);
            var sent, marks := QueuedFor(profile, tiers, s, ev, mint), Marks(s.triggered, mint);
            && |sent| <= 1
            && (sent == [c] <==>
                && LooksAt(s, ev, mint) && IsOpen(s.store.cache, mint)
                && Due(profile, tiers, marks, s.store.cache[mint], c))
            && Marks(Step(profile, tiers, s, ev).triggered, mint) ==
               if ev.CheckAll? && !IsOpen(s.store.cache, mint) then [] else marks + TiersOf(sent)
  {
    StartKeepsStore();
    RunKeepsStore(profile, tiers, START, before);
    var s := Run(profile, tiers, START, before);
    FiledOf(s);
    hide Due, Evaluate, Step, Run, ValidRun, StoreInv, Enabled, Marks, Filed;
    if LooksAt(s, ev, mint) && IsOpen(s.store.cache, mint) {
      var p := s.store.cache[mint];
      FiledAt(s.store, mint);
      LookAlone(profile, tiers, s, ev, mint);
      EvaluateIff(profile, tiers, s.triggered, p, c);
      EvaluateMarksIff(profile, tiers, s.triggered, p);
    } else {
      LookElsewhere(profile, tiers, s, ev, mint);
    }
  }
}
