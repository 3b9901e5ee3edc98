/** Whole runs of the merge engine: isolation of the two namespaces, spacing of emissions,
    provenance and conservation of newborn tokens. */
module DetectorRuns {
  import opened DedupQueue
  import opened Detector

  // ---------- Runs ----------

  function At(ev: Event): nat {
    ev.now
  }

  /** Every event is enabled where it happens, and the clock never runs backwards. */
  ghost predicate ValidRun(s: Engine, clock: nat, evs: seq<Event>)
    decreases evs
  {
    evs == [] ||
    (clock <= At(evs[0]) && Enabled(s, evs[0]) && ValidRun(Step(s, evs[0]).0, At(evs[0]), evs[1..]))
  }

  function Run(s: Engine, evs: seq<Event>): Engine
    decreases evs
  {
    if evs == [] then s else Run(Step(s, evs[0]).0, evs[1..])
  }

  function Outputs(s: Engine, evs: seq<Event>): seq<Emission>
    decreases evs
  {
    if evs == [] then [] else Step(s, evs[0]).1 + Outputs(Step(s, evs[0]).0, evs[1..])
  }

  function OfNamespace(ns: Namespace, os: seq<Emission>): (r: seq<Emission>)
    ensures forall o | o in r :: o.ns == ns && o in os
  {
    if os == [] then []
    else if os[0].ns == ns then [os[0]] + OfNamespace(ns, os[1..])
    else OfNamespace(ns, os[1..])
  }

  lemma {:induction false} OfNamespaceConcat(ns: Namespace, a: seq<Emission>, b: seq<Emission>)
    ensures OfNamespace(ns, a + b) == OfNamespace(ns, a) + OfNamespace(ns, b)
  {
    if a == [] {
      assert a + b == b;
    } else {
      assert (a + b)[0] == a[0] && (a + b)[1..] == a[1..] + b;
      OfNamespaceConcat(ns, a[1..], b);
    }
  }

  lemma {:induction false} OfNamespaceUniform(ns: Namespace, os: seq<Emission>, other: Namespace)
    requires forall o | o in os :: o.ns == other
    ensures OfNamespace(ns, os) == if ns == other then os else []
  {
    if os != [] {
      assert os[0] in os;
      OfNamespaceUniform(ns, os[1..], other);
    }
  }

  // ---------- The invariant ----------

  /** Pending entries are newborns filed under their own mint, and none is live in the queue. */
  ghost predicate Inv(s: Engine, clock: nat) {
    forall m | m in s.pending ::
      && s.pending[m].token.mint == m
      && !IsMigration(s.pending[m].token)
      && !Live(s.newborn, DEFAULT_TTL, m, clock)
  }

  lemma MergedKeepsMarkerOut(p: PendingToken, incoming: TokenInfo)
    requires !IsMigration(p.token) && !IsMigration(incoming)
    ensures !IsMigration(MergeTokenData(p, incoming).token)
    ensures MergeTokenData(p, incoming).token.mint == p.token.mint
  {
  }

  lemma InvLater(s: Engine, clock: nat, later: nat)
    requires Inv(s, clock) && clock <= later
    ensures Inv(s, later)
  {
  }

  lemma TickKeepsInv(s: Engine, now: nat)
    requires Inv(s, now)
    ensures Inv(Tick(s, now), now)
  {
  }

  function Without(p: map<Mint, PendingToken>, order: seq<Mint>): map<Mint, PendingToken> {
    map m | m in p && m !in order :: p[m]
  }

  /** The engine after one pending entry has been sent. */
  function Sent(s: Engine, mint: Mint, now: nat): Engine
    requires mint in s.pending
  {
    s.(pending := s.pending - {mint}, newborn := Inserted(s.newborn, DEFAULT_TTL, s.pending[mint].token.mint, now))
  }

  lemma SentKeepsInv(s: Engine, mint: Mint, now: nat)
    requires Inv(s, now) && mint in s.pending
    ensures Inv(Sent(s, mint, now), now)
    ensures Emit(Newborn, s.newborn, s.pending[mint].token, now) == [Emission(Newborn, s.pending[mint].token, now)]
    ensures !IsMigration(s.pending[mint].token)
  {
  }

  lemma WithoutStep(p: map<Mint, PendingToken>, order: seq<Mint>)
    requires order != []
    ensures Without(p - {order[0]}, order[1..]) == Without(p, order)
  {
    assert forall m :: m in order <==> m == order[0] || m in order[1..];
  }

  lemma WithoutNone(p: map<Mint, PendingToken>)
    ensures Without(p, []) == p
  {
  }

  ghost predicate ListsPending(s: Engine, order: seq<Mint>) {
    && (forall m | m in order :: m in s.pending)
    && (forall i, j | 0 <= i < j < |order| :: order[i] != order[j])
  }

  lemma ListsRest(s: Engine, order: seq<Mint>, now: nat)
    requires ListsPending(s, order) && order != []
    ensures order[0] in s.pending && ListsPending(Sent(s, order[0], now), order[1..])
  {
    var rest := order[1..];
    forall m | m in rest
      ensures m in s.pending && m != order[0]
    {
      var i :| 0 <= i < |rest| && rest[i] == m;
      assert order[i + 1] == m;
    }
    assert forall i, j | 0 <= i < j < |rest| :: rest[i] == order[i + 1] && rest[j] == order[j + 1];
  }

  /** Emitting the listed entries refuses none of them and leaves exactly the others pending. */
  lemma {:induction false} EmitAllExact(s: Engine, order: seq<Mint>, now: nat)
    requires Inv(s, now) && ListsPending(s, order)
    ensures var (s', out) := EmitAll(s, order, now);
            && Inv(s', now)
            && s'.migration == s.migration && s'.counter == s.counter
            && |out| == |order|
            && (forall o | o in out :: o.ns == Newborn && !IsMigration(o.token))
            && s'.pending == Without(s.pending, order)
            && |s'.pending| + |order| == |s.pending|
    decreases |order|
  {
    hide Inv, ListsPending, Without, Inserted, Emit, IsMigration;
    if order == [] {
      WithoutNone(s.pending);
    } else {
      ListsRest(s, order, now);
      SentKeepsInv(s, order[0], now);
      RemoveOne(s.pending, order[0]);
      WithoutStep(s.pending, order);
      EmitAllExact(Sent(s, order[0], now), order[1..], now);
    }
  }

  lemma RemoveOne(p: map<Mint, PendingToken>, mint: Mint)
    requires mint in p
    ensures |p - {mint}| == |p| - 1
  {
    assert (p - {mint}).Keys == p.Keys - {mint};
    assert |p.Keys| == |p| && |(p - {mint}).Keys| == |p - {mint}|;
  }

  lemma StepKeepsInv(s: Engine, clock: nat, ev: Event)
    requires Inv(s, clock) && clock <= At(ev) && Enabled(s, ev)
    ensures Inv(Step(s, ev).0, At(ev))
  {
    var now := At(ev);
    InvLater(s, clock, now);
    match ev
    case Arrive(token, _) =>
      if token.mint != "" && !IsMigration(token) && !Live(s.newborn, DEFAULT_TTL, token.mint, now) {
        if token.mint in s.pending {
          MergedKeepsMarkerOut(s.pending[token.mint], token);
          var newborn := Inserted(s.newborn, DEFAULT_TTL, token.mint, now);
          TickKeepsInv(s.(pending := s.pending - {token.mint}, newborn := newborn), now);
        } else {
          TickKeepsInv(s.(pending := s.pending[token.mint := NewPending(token, now)]), now);
        }
      }
    case Timeout(order, _) =>
      EmitAllExact(s, order, now);
      TickKeepsInv(EmitAll(s, order, now).0, now);
  }

  // ---------- No emission is ever refused; the tag is the marker ----------

  /** How many tokens one event hands to emit_token in the newborn namespace. */
  function Handed(s: Engine, ev: Event): nat {
    match ev
    case Arrive(token, now) =>
      var live := Live(s.newborn, DEFAULT_TTL, token.mint, now);
      if token.mint != "" && !IsMigration(token) && !live && token.mint in s.pending
      then 1 else 0
    case Timeout(order, _) => |order|
  }

  /** Whatever is handed to emit_token goes out, in its own namespace: the refusal branch of
      emit_token is never taken, and only migrations carry the migration marker. */
  lemma NothingRefused(s: Engine, clock: nat, ev: Event)
    requires Inv(s, clock) && clock <= At(ev) && Enabled(s, ev)
    ensures var out := Step(s, ev).1;
            && (forall o | o in out :: o.ns == Migration <==> IsMigration(o.token))
            && (forall o | o in out :: o.at == At(ev))
            && (if ev.Arrive? && IsMigration(ev.token) then
                  var live := Live(s.migration, DEFAULT_TTL, ev.token.mint, ev.now);
                  |out| == if ev.token.mint == "" || live then 0 else 1
                else |out| == Handed(s, ev))
            && (forall o | o in out :: o.ns == (if ev.Arrive? && IsMigration(ev.token) then Migration else Newborn))
  {
    InvLater(s, clock, At(ev));
    match ev
    case Arrive(token, now) =>
      if token.mint in s.pending && !IsMigration(token) {
        MergedKeepsMarkerOut(s.pending[token.mint], token);
      }
    case Timeout(order, now) =>
      EmitAllExact(s, order, now);
      EmitAllAt(s, order, now);
  }

  lemma {:induction false} EmitAllAt(s: Engine, order: seq<Mint>, now: nat)
    ensures forall o | o in EmitAll(s, order, now).1 :: o.at == now && o.ns == Newborn
    decreases |order|
  {
    if order != [] {
      if order[0] !in s.pending {
        EmitAllAt(s, order[1..], now);
      } else {
        var token := s.pending[order[0]].token;
        EmitAllAt(Sent(s, order[0], now), order[1..], now);
      }
    }
  }

  lemma {:induction false} RunTags(s: Engine, clock: nat, evs: seq<Event>)
    requires Inv(s, clock) && ValidRun(s, clock, evs)
    ensures forall o | o in Outputs(s, evs) :: o.ns == Migration <==> IsMigration(o.token)
    decreases evs
  {
    if evs != [] {
      NothingRefused(s, clock, evs[0]);
      StepKeepsInv(s, clock, evs[0]);
      RunTags(Step(s, evs[0]).0, At(evs[0]), evs[1..]);
    }
  }

  /** After a timeout no pending entry is older than the merge window. */
  lemma TimeoutClearsWindow(s: Engine, clock: nat, order: seq<Mint>, now: nat)
    requires Inv(s, clock) && clock <= now && Enabled(s, Timeout(order, now))
    ensures var s' := Step(s, Timeout(order, now)).0;
            forall m | m in s'.pending ::
              m in s.pending && s'.pending[m] == s.pending[m] && now < s'.pending[m].createdAt + 250_000_000
  {
    InvLater(s, clock, now);
    EmitAllExact(s, order, now);
  }

  // ---------- Namespace isolation ----------

  predicate IsMigrationEvent(ev: Event) {
    ev.Arrive? && IsMigration(ev.token)
  }

  function WithoutMigrations(evs: seq<Event>): seq<Event> {
    if evs == [] then []
    else if IsMigrationEvent(evs[0]) then WithoutMigrations(evs[1..])
    else [evs[0]] + WithoutMigrations(evs[1..])
  }

  function OnlyMigrations(evs: seq<Event>): seq<Event> {
    if evs == [] then []
    else if IsMigrationEvent(evs[0]) then [evs[0]] + OnlyMigrations(evs[1..])
    else OnlyMigrations(evs[1..])
  }

  ghost predicate SameNewbornSide(s: Engine, s': Engine) {
    s.newborn == s'.newborn && s.pending == s'.pending && s.counter == s'.counter
  }

  lemma {:induction false} EmitAllSameSide(s: Engine, s': Engine, order: seq<Mint>, now: nat)
    requires SameNewbornSide(s, s')
    ensures SameNewbornSide(EmitAll(s, order, now).0, EmitAll(s', order, now).0)
    ensures EmitAll(s, order, now).1 == EmitAll(s', order, now).1
    ensures EmitAll(s, order, now).0.migration == s.migration
    decreases |order|
  {
    if order != [] {
      if order[0] !in s.pending {
        EmitAllSameSide(s, s', order[1..], now);
      } else {
        var p, n := s.pending - {order[0]}, Inserted(s.newborn, DEFAULT_TTL, s.pending[order[0]].token.mint, now);
        EmitAllSameSide(s.(pending := p, newborn := n), s'.(pending := p, newborn := n), order[1..], now);
      }
    }
  }

  lemma StepSameSide(s: Engine, s': Engine, ev: Event)
    requires SameNewbornSide(s, s')
    ensures IsMigrationEvent(ev) ==> SameNewbornSide(Step(s, ev).0, s')
    ensures !IsMigrationEvent(ev) ==> SameNewbornSide(Step(s, ev).0, Step(s', ev).0) && Step(s, ev).1 == Step(s', ev).1
  {
    hide Retained, Cleaned, Live, Inserted, Emit, MergeTokenData, EmitAll;
    if ev.Timeout? {
      EmitAllSameSide(s, s', ev.order, ev.now);
    }
  }

  lemma ValidFromEarlier(s: Engine, clock: nat, later: nat, evs: seq<Event>)
    requires clock <= later && ValidRun(s, later, evs)
    ensures ValidRun(s, clock, evs)
  {
  }

  lemma {:induction false} ErasingMigrations(s: Engine, s': Engine, clock: nat, evs: seq<Event>)
    requires SameNewbornSide(s, s') && Inv(s, clock) && Inv(s', clock) && ValidRun(s, clock, evs)
    ensures ValidRun(s', clock, WithoutMigrations(evs))
    ensures OfNamespace(Newborn, Outputs(s, evs)) == Outputs(s', WithoutMigrations(evs))
    decreases evs
  {
    if evs != [] {
      var ev, rest := evs[0], evs[1..];
      var (s1, out) := Step(s, ev);
      StepSameSide(s, s', ev);
      StepKeepsInv(s, clock, ev);
      NothingRefused(s, clock, ev);
      OfNamespaceConcat(Newborn, out, Outputs(s1, rest));
      OfNamespaceUniform(Newborn, out, if IsMigrationEvent(ev) then Migration else Newborn);
      if IsMigrationEvent(ev) {
        InvLater(s', clock, At(ev));
        ErasingMigrations(s1, s', At(ev), rest);
        ValidFromEarlier(s', clock, At(ev), WithoutMigrations(rest));
      } else {
        StepKeepsInv(s', clock, ev);
        ErasingMigrations(s1, Step(s', ev).0, At(ev), rest);
        var kept := WithoutMigrations(evs);
        assert kept[0] == ev && kept[1..] == WithoutMigrations(rest);
      }
    }
  }

  /** Erasing every migration event from a run leaves the newborn outputs unchanged. */
  lemma NewbornsIgnoreMigrations(evs: seq<Event>)
    requires ValidRun(INIT, 0, evs)
    ensures ValidRun(INIT, 0, WithoutMigrations(evs))
    ensures OfNamespace(Newborn, Outputs(INIT, evs)) == Outputs(INIT, WithoutMigrations(evs))
  {
    ErasingMigrations(INIT, INIT, 0, evs);
  }

  lemma SameAnswersLater(e: Entries, e': Entries, now: nat, later: nat)
    requires SameAnswers(e, e', DEFAULT_TTL, now) && now <= later
    ensures SameAnswers(e, e', DEFAULT_TTL, later)
  {
  }

  lemma SameAnswersNow(e: Entries, e': Entries, mint: Mint, now: nat)
    requires SameAnswers(e, e', DEFAULT_TTL, now)
    ensures Live(e, DEFAULT_TTL, mint, now) <==> Live(e', DEFAULT_TTL, mint, now)
  {
  }

  /** Two engines with indistinguishable migration queues answer a migration event alike. */
  lemma MigrationStep(s: Engine, s': Engine, ev: Event)
    requires IsMigrationEvent(ev) && SameAnswers(s.migration, s'.migration, DEFAULT_TTL, At(ev))
    ensures Step(s, ev).1 == Step(s', ev).1 && Enabled(s', ev)
    ensures SameAnswers(Step(s, ev).0.migration, Step(s', ev).0.migration, DEFAULT_TTL, At(ev))
  {
    hide SameAnswers;
    InsertKeepsSameAnswers(s.migration, s'.migration, DEFAULT_TTL, ev.token.mint, At(ev));
    SameAnswersNow(s.migration, s'.migration, ev.token.mint, At(ev));
  }

  lemma {:induction false} ErasingNewborns(s: Engine, s': Engine, clock: nat, evs: seq<Event>)
    requires SameAnswers(s.migration, s'.migration, DEFAULT_TTL, clock)
    requires Inv(s, clock) && ValidRun(s, clock, evs)
    ensures ValidRun(s', clock, OnlyMigrations(evs))
    ensures OfNamespace(Migration, Outputs(s, evs)) == Outputs(s', OnlyMigrations(evs))
    decreases evs
  {
    if evs != [] {
      hide Step, Enabled, Inv, SameAnswers;
      var ev, rest := evs[0], evs[1..];
      var (s1, out) := Step(s, ev);
      var now := At(ev);
      StepKeepsInv(s, clock, ev);
      NothingRefused(s, clock, ev);
      OfNamespaceConcat(Migration, out, Outputs(s1, rest));
      OfNamespaceUniform(Migration, out, if IsMigrationEvent(ev) then Migration else Newborn);
      SameAnswersLater(s.migration, s'.migration, clock, now);
      if IsMigrationEvent(ev) {
        MigrationStep(s, s', ev);
        ErasingNewborns(s1, Step(s', ev).0, now, rest);
        var kept := OnlyMigrations(evs);
        assert kept[0] == ev && kept[1..] == OnlyMigrations(rest);
      } else {
        MigrationSideKept(s, ev);
        SameAnswersTrans(s1.migration, s.migration, s'.migration, now);
        ErasingNewborns(s1, s', now, rest);
        ValidFromEarlier(s', clock, now, OnlyMigrations(rest));
      }
    }
  }

  /** A newborn event touches the migration queue at most by cleaning it. */
  lemma MigrationSideKept(s: Engine, ev: Event)
    requires !IsMigrationEvent(ev)
    ensures SameAnswers(Step(s, ev).0.migration, s.migration, DEFAULT_TTL, At(ev))
  {
    CleanupUnobservable(s.migration, DEFAULT_TTL, At(ev));
    if ev.Timeout? {
      EmitAllSameSide(s, s, ev.order, ev.now);
    }
  }

  lemma SameAnswersTrans(a: Entries, b: Entries, c: Entries, now: nat)
    requires SameAnswers(a, b, DEFAULT_TTL, now) && SameAnswers(b, c, DEFAULT_TTL, now)
    ensures SameAnswers(a, c, DEFAULT_TTL, now)
  {
    forall m: Mint, t: nat | now <= t
      ensures Live(a, DEFAULT_TTL, m, t) <==> Live(c, DEFAULT_TTL, m, t)
    {
      assert Live(a, DEFAULT_TTL, m, t) <==> Live(b, DEFAULT_TTL, m, t);
    }
  }

  /** Erasing every newborn arrival and timeout leaves the migration outputs unchanged. */
  lemma MigrationsIgnoreNewborns(evs: seq<Event>)
    requires ValidRun(INIT, 0, evs)
    ensures ValidRun(INIT, 0, OnlyMigrations(evs))
    ensures OfNamespace(Migration, Outputs(INIT, evs)) == Outputs(INIT, OnlyMigrations(evs))
  {
    ErasingNewborns(INIT, INIT, 0, evs);
  }

  /** What comes out without the marker is newborn output, and what comes out with it is not. */
  lemma MarkerSeparatesOutputs(evs: seq<Event>)
    requires ValidRun(INIT, 0, evs)
    ensures forall o | o in OfNamespace(Newborn, Outputs(INIT, evs)) :: !IsMigration(o.token)
    ensures forall o | o in OfNamespace(Migration, Outputs(INIT, evs)) :: IsMigration(o.token)
  {
    RunTags(INIT, 0, evs);
  }

  // ---------- Spacing ----------

  ghost predicate SameKey(a: Emission, b: Emission) {
    a.ns == b.ns && a.token.mint == b.token.mint
  }

  ghost predicate Apart(a: Emission, b: Emission) {
    SameKey(a, b) ==> b.at >= a.at + DEFAULT_TTL
  }

  ghost predicate AllApart(past: seq<Emission>, os: seq<Emission>) {
    forall a, b | a in past && b in os :: Apart(a, b)
  }

  ghost predicate Spaced(os: seq<Emission>) {
    forall i, j | 0 <= i < j < |os| :: Apart(os[i], os[j])
  }

  function Queue(s: Engine, ns: Namespace): Entries {
    if ns == Newborn then s.newborn else s.migration
  }

  /** The queue still knows the emission, or its time-to-live is over. */
  ghost predicate Remembered(s: Engine, o: Emission, now: nat) {
    var e := Queue(s, o.ns);
    (o.token.mint in e && e[o.token.mint] >= o.at) || now >= o.at + DEFAULT_TTL
  }

  ghost predicate Remembers(s: Engine, past: seq<Emission>, now: nat) {
    forall o | o in past :: Remembered(s, o, now)
  }

  lemma TickRemembers(s: Engine, past: seq<Emission>, now: nat)
    requires Remembers(s, past, now)
    ensures Remembers(Tick(s, now), past, now)
  {
    forall o | o in past
      ensures Remembered(Tick(s, now), o, now)
    {
      assert Remembered(s, o, now);
    }
  }

  lemma EmitRemembers(s: Engine, s': Engine, ns: Namespace, token: TokenInfo, past: seq<Emission>, now: nat)
    requires Remembers(s, past, now)
    requires Queue(s', ns) == Inserted(Queue(s, ns), DEFAULT_TTL, token.mint, now)
    requires forall other: Namespace | other != ns :: Queue(s', other) == Queue(s, other)
    ensures var out := Emit(ns, Queue(s, ns), token, now);
            AllApart(past, out) && Remembers(s', past + out, now)
  {
    var out := Emit(ns, Queue(s, ns), token, now);
    forall a, b | a in past && b in out
      ensures Apart(a, b)
    {
      assert Remembered(s, a, now);
    }
    forall o | o in past + out
      ensures Remembered(s', o, now)
    {
      if o in past {
        assert Remembered(s, o, now);
      }
    }
  }

  lemma {:induction false} EmitAllRemembers(s: Engine, order: seq<Mint>, past: seq<Emission>, now: nat)
    requires Remembers(s, past, now)
    ensures var (s', out) := EmitAll(s, order, now);
            AllApart(past, out) && Spaced(out) && Remembers(s', past + out, now)
    decreases |order|
  {
    if order == [] {
      assert past + [] == past;
    } else if order[0] !in s.pending {
      EmitAllRemembers(s, order[1..], past, now);
    } else {
      var token := s.pending[order[0]].token;
      var s1 := s.(pending := s.pending - {order[0]}, newborn := Inserted(s.newborn, DEFAULT_TTL, token.mint, now));
      var first := Emit(Newborn, s.newborn, token, now);
      EmitRemembers(s, s1, Newborn, token, past, now);
      EmitAllRemembers(s1, order[1..], past + first, now);
      Chain(past, first, EmitAll(s1, order[1..], now).1);
    }
  }

  lemma Chain(past: seq<Emission>, first: seq<Emission>, rest: seq<Emission>)
    requires AllApart(past, first) && Spaced(first)
    requires AllApart(past + first, rest) && Spaced(rest)
    ensures AllApart(past, first + rest) && Spaced(first + rest)
    ensures past + first + rest == past + (first + rest)
  {
    var os := first + rest;
    forall i, j | 0 <= i < j < |os|
      ensures Apart(os[i], os[j])
    {
      if i < |first| && j >= |first| {
        assert os[i] in past + first && os[j] in rest;
      }
    }
  }

  lemma StepRemembers(s: Engine, ev: Event, past: seq<Emission>)
    requires Remembers(s, past, At(ev))
    requires ev.Arrive? && !IsMigration(ev.token) && ev.token.mint in s.pending ==>
               s.pending[ev.token.mint].token.mint == ev.token.mint
    ensures var (s', out) := Step(s, ev);
            AllApart(past, out) && Spaced(out) && Remembers(s', past + out, At(ev))
  {
    assert past + [] == past;
    match ev
    case Timeout(order, now) =>
      EmitAllRemembers(s, order, past, now);
      var (s1, out) := EmitAll(s, order, now);
      TickRemembers(s1, past + out, now);
    case Arrive(token, now) =>
      var mint := token.mint;
      if mint == "" {
      } else if IsMigration(token) {
        EmitRemembers(s, s.(migration := Inserted(s.migration, DEFAULT_TTL, mint, now)), Migration, token, past, now);
      } else if !Live(s.newborn, DEFAULT_TTL, mint, now) {
        if mint in s.pending {
          var merged := MergeTokenData(s.pending[mint], token).token;
          var s1 := s.(pending := s.pending - {mint}, newborn := Inserted(s.newborn, DEFAULT_TTL, merged.mint, now));
          EmitRemembers(s, s1, Newborn, merged, past, now);
          TickRemembers(s1, past + Emit(Newborn, s.newborn, merged, now), now);
        } else {
          TickRemembers(s.(pending := s.pending[mint := NewPending(token, now)]), past, now);
        }
      }
  }

  lemma RemembersLater(s: Engine, past: seq<Emission>, clock: nat, now: nat)
    requires Remembers(s, past, clock) && clock <= now
    ensures Remembers(s, past, now)
  {
    forall o | o in past
      ensures Remembered(s, o, now)
    {
      assert Remembered(s, o, clock);
    }
  }

  lemma {:induction false} RunSpaced(s: Engine, clock: nat, evs: seq<Event>, past: seq<Emission>)
    requires Inv(s, clock) && ValidRun(s, clock, evs) && Remembers(s, past, clock)
    ensures AllApart(past, Outputs(s, evs)) && Spaced(Outputs(s, evs))
    decreases evs
  {
    if evs != [] {
      var ev := evs[0];
      var (s1, out) := Step(s, ev);
      RemembersLater(s, past, clock, At(ev));
      StepRemembers(s, ev, past);
      StepKeepsInv(s, clock, ev);
      RunSpaced(s1, At(ev), evs[1..], past + out);
      Chain(past, out, Outputs(s1, evs[1..]));
    }
  }

  /** In each namespace, two emissions of one mint are at least the time-to-live apart. */
  lemma EmissionSpacing(evs: seq<Event>, i: nat, j: nat)
    requires ValidRun(INIT, 0, evs)
    requires i < j < |Outputs(INIT, evs)|
    ensures var os := Outputs(INIT, evs);
            os[i].ns == os[j].ns && os[i].token.mint == os[j].token.mint ==> os[j].at >= os[i].at + 300_000_000_000
  {
    RunSpaced(INIT, 0, evs, []);
    assert Apart(Outputs(INIT, evs)[i], Outputs(INIT, evs)[j]);
  }
}
