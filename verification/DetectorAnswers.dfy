/** What every arrival and every timeout leads to, told by what came in and went out before alone. */
module DetectorAnswers {
  import opened DedupQueue
  import opened Detector
  import opened DetectorRuns
  import opened DetectorTokens

  /** The mint went out in this namespace within the last 300 seconds. */
  ghost predicate SentLately(outs: seq<Emission>, ns: Namespace, mint: Mint, now: nat) {
    exists o :: o in outs && o.ns == ns && o.token.mint == mint && now < o.at + 300_000_000_000
  }

  /** The time of the last event. */
  function ClockAt(clock: nat, evs: seq<Event>): nat {
    if evs == [] then clock else At(evs[|evs| - 1])
  }

  // ---------- What the queues know is what went out ----------

  /** Every entry of a queue is an emission of that time. */
  ghost predicate Backed(s: Engine, outs: seq<Emission>) {
    forall ns: Namespace, m: Mint | m in Queue(s, ns) ::
      exists o :: o in outs && o.ns == ns && o.token.mint == m && o.at == Queue(s, ns)[m]
  }

  lemma EmitBacked(s: Engine, s': Engine, ns: Namespace, token: TokenInfo, outs: seq<Emission>, now: nat)
    requires Backed(s, outs) && Queue(s', ns) == Inserted(Queue(s, ns), DEFAULT_TTL, token.mint, now)
    requires forall other: Namespace | other != ns :: Queue(s', other) == Queue(s, other)
    ensures Backed(s', outs + Emit(ns, Queue(s, ns), token, now))
  {
    var out := Emit(ns, Queue(s, ns), token, now);
    forall n: Namespace, m: Mint | m in Queue(s', n)
      ensures exists o :: o in outs + out && o.ns == n && o.token.mint == m && o.at == Queue(s', n)[m]
    {
      if n == ns && m == token.mint && !Live(Queue(s, ns), DEFAULT_TTL, m, now) {
        assert Emission(ns, token, now) in outs + out;
      } else {
        assert m in Queue(s, n);
        var o :| o in outs && o.ns == n && o.token.mint == m && o.at == Queue(s, n)[m];
        assert o in outs + out;
      }
    }
  }

  lemma TickBacked(s: Engine, outs: seq<Emission>, now: nat)
    requires Backed(s, outs)
    ensures Backed(Tick(s, now), outs)
  {
    assert forall ns: Namespace, m: Mint | m in Queue(Tick(s, now), ns) ::
      m in Queue(s, ns) && Queue(Tick(s, now), ns)[m] == Queue(s, ns)[m];
  }

  lemma {:induction false} EmitAllBacked(s: Engine, order: seq<Mint>, outs: seq<Emission>, now: nat)
    requires Backed(s, outs)
    ensures Backed(EmitAll(s, order, now).0, outs + EmitAll(s, order, now).1)
    decreases |order|
  {
    hide Backed;
    if order == [] {
      assert outs + [] == outs;
    } else if order[0] !in s.pending {
      EmitAllBacked(s, order[1..], outs, now);
    } else {
      var token := s.pending[order[0]].token;
      var s1 := s.(pending := s.pending - {order[0]}, newborn := Inserted(s.newborn, DEFAULT_TTL, token.mint, now));
      var first := Emit(Newborn, s.newborn, token, now);
      EmitBacked(s, s1, Newborn, token, outs, now);
      EmitAllBacked(s1, order[1..], outs + first, now);
      assert outs + first + EmitAll(s1, order[1..], now).1 == outs + (first + EmitAll(s1, order[1..], now).1);
    }
  }

  lemma StepBacked(s: Engine, ev: Event, outs: seq<Emission>)
    requires Backed(s, outs)
    ensures Backed(Step(s, ev).0, outs + Step(s, ev).1)
  {
    assert outs + [] == outs;
    hide Backed, Tick, Emit, Inserted;
    match ev
    case Timeout(order, now) =>
      EmitAllBacked(s, order, outs, now);
      TickBacked(EmitAll(s, order, now).0, outs + EmitAll(s, order, now).1, now);
    case Arrive(token, now) =>
      var mint := token.mint;
      if mint != "" && IsMigration(token) && !Live(s.migration, DEFAULT_TTL, mint, now) {
        EmitBacked(s, s.(migration := Inserted(s.migration, DEFAULT_TTL, mint, now)), Migration, token, outs, now);
      } else if mint != "" && !IsMigration(token) && !Live(s.newborn, DEFAULT_TTL, mint, now) {
        if mint in s.pending {
          var merged := MergeTokenData(s.pending[mint], token).token;
          var s1 := s.(pending := s.pending - {mint}, newborn := Inserted(s.newborn, DEFAULT_TTL, merged.mint, now));
          EmitBacked(s, s1, Newborn, merged, outs, now);
          TickBacked(s1, outs + Emit(Newborn, s.newborn, merged, now), now);
        } else {
          WaitingBacked(s, s.pending[mint := NewPending(token, now)], outs);
          TickBacked(s.(pending := s.pending[mint := NewPending(token, now)]), outs, now);
        }
      }
  }

  lemma WaitingBacked(s: Engine, pending: map<Mint, PendingToken>, outs: seq<Emission>)
    requires Backed(s, outs)
    ensures Backed(s.(pending := pending), outs)
  {
    assert forall ns :: Queue(s.(pending := pending), ns) == Queue(s, ns);
  }

  lemma {:induction false} RunKnows(s: Engine, clock: nat, evs: seq<Event>, outs: seq<Emission>, past: seq<Event>)
    requires Inv(s, clock) && ValidRun(s, clock, evs) && Remembers(s, outs, clock) && Backed(s, outs)
    requires PendingArrived(s, past) && PastBefore(past, clock)
    ensures var s', end := Run(s, evs), ClockAt(clock, evs);
            && clock <= end && Inv(s', end)
            && Remembers(s', outs + Outputs(s, evs), end) && Backed(s', outs + Outputs(s, evs))
            && PendingArrived(s', past + evs) && PastBefore(past + evs, end)
    decreases evs
  {
    hide Inv, Remembers, Backed, PendingArrived, Step, Enabled;
    if evs == [] {
      assert outs + [] == outs && past + [] == past;
    } else {
      var ev, rest := evs[0], evs[1..];
      var (s1, out) := Step(s, ev);
      RemembersLater(s, outs, clock, At(ev));
      PendingFiled(s, clock);
      StepRemembers(s, ev, outs);
      StepBacked(s, ev, outs);
      StepKeepsInv(s, clock, ev);
      StepKeepsArrived(s, ev, past);
      RunKnows(s1, At(ev), rest, outs + out, past + [ev]);
      assert outs + out + Outputs(s1, rest) == outs + Outputs(s, evs);
      assert past + [ev] + rest == past + evs;
      assert ClockAt(At(ev), rest) == ClockAt(clock, evs);
    }
  }

  lemma PendingFiled(s: Engine, clock: nat)
    requires Inv(s, clock)
    ensures forall m | m in s.pending :: s.pending[m].token.mint == m
  {
  }

  lemma LiveIff(s: Engine, outs: seq<Emission>, clock: nat, ns: Namespace, mint: Mint, now: nat)
    requires Remembers(s, outs, clock) && Backed(s, outs) && clock <= now && (forall o | o in outs :: o.at <= now)
    ensures Live(Queue(s, ns), DEFAULT_TTL, mint, now) <==> SentLately(outs, ns, mint, now)
  {
    RemembersLater(s, outs, clock, now);
    if SentLately(outs, ns, mint, now) {
      var o :| o in outs && o.ns == ns && o.token.mint == mint && now < o.at + 300_000_000_000;
      assert Remembered(s, o, now);
    }
  }

  lemma {:induction false} OutputsBefore(s: Engine, clock: nat, evs: seq<Event>)
    requires Inv(s, clock) && ValidRun(s, clock, evs)
    ensures clock <= ClockAt(clock, evs)
    ensures forall o | o in Outputs(s, evs) :: o.at <= ClockAt(clock, evs)
    decreases evs
  {
    if evs != [] {
      hide Inv, Step, Enabled;
      NothingRefused(s, clock, evs[0]);
      StepKeepsInv(s, clock, evs[0]);
      OutputsBefore(Step(s, evs[0]).0, At(evs[0]), evs[1..]);
      assert ClockAt(At(evs[0]), evs[1..]) == ClockAt(clock, evs);
    }
  }

  /** What holds after any run, by its history. */
  ghost predicate Knows(s: Engine, evs: seq<Event>, outs: seq<Emission>, now: nat) {
    && Inv(s, now) && PendingArrived(s, evs) && PastBefore(evs, now)
    && forall ns: Namespace, mint: Mint ::
         Live(Queue(s, ns), DEFAULT_TTL, mint, now) <==> SentLately(outs, ns, mint, now)
  }

  lemma RunHistory(evs: seq<Event>, now: nat)
    requires ValidRun(INIT, 0, evs) && ClockAt(0, evs) <= now
    ensures Knows(Run(INIT, evs), evs, Outputs(INIT, evs), now)
  {
    hide Live, SentLately;
    var s, outs, end := Run(INIT, evs), Outputs(INIT, evs), ClockAt(0, evs);
    RunKnows(INIT, 0, evs, [], []);
    OutputsBefore(INIT, 0, evs);
    assert [] + outs == outs && [] + evs == evs;
    InvLater(s, end, now);
    forall ns: Namespace, mint: Mint
      ensures Live(Queue(s, ns), DEFAULT_TTL, mint, now) <==> SentLately(outs, ns, mint, now)
    {
      LiveIff(s, outs, end, ns, mint, now);
    }
  }

  // ---------- What an arrival leads to ----------

  /** On every thousandth iteration the queues drop what went out 300 seconds ago or more. */
  ghost predicate QueuesSwept(s': Engine, now: nat) {
    s'.counter % 1000 == 0 ==>
      forall ns: Namespace, m: Mint | m in Queue(s', ns) :: now < Queue(s', ns)[m] + 300_000_000_000
  }

  /** The other waiting entries stay, but for those of ten seconds or more on every thousandth iteration. */
  ghost predicate OthersWait(s: Engine, s': Engine, mint: Mint, now: nat) {
    && s'.counter == s.counter + 1 && QueuesSwept(s', now)
    && forall m | m != mint ::
         && (m in s'.pending <==>
             m in s.pending && (s'.counter % 1000 == 0 ==> now < s.pending[m].createdAt + 10_000_000_000))
         && (m in s'.pending ==> s'.pending[m] == s.pending[m])
  }

  lemma TickKeepsOthers(s: Engine, s1: Engine, mint: Mint, now: nat)
    requires s1.counter == s.counter
    requires forall m | m != mint :: (m in s1.pending <==> m in s.pending) &&
                                     (m in s.pending ==> s1.pending[m] == s.pending[m])
    ensures OthersWait(s, Tick(s1, now), mint, now)
    ensures Tick(s1, now).pending.Keys <= s1.pending.Keys
    ensures mint in s1.pending && s1.pending[mint].createdAt == now ==>
              mint in Tick(s1, now).pending && Tick(s1, now).pending[mint] == s1.pending[mint]
  {
  }

  /** A migration goes out as it came, unless the mint went out as one within the last 300 seconds. */
  lemma MigrationAnswer(evs: seq<Event>, token: TokenInfo, now: nat)
    requires ValidRun(INIT, 0, evs) && ClockAt(0, evs) <= now
    requires token.mint != "" && token.creator == "MIGRATION_EVENT"
    ensures var s, outs := Run(INIT, evs), Outputs(INIT, evs);
            var (s', out) := Step(s, Arrive(token, now));
            && s'.pending == s.pending && s'.newborn == s.newborn && s'.counter == s.counter
            && out == if SentLately(outs, Migration, token.mint, now) then [] else [Emission(Migration, token, now)]
  {
    RunHistory(evs, now);
    hide SentLately, Live;
  }

  /** A newborn whose mint went out within the last 300 seconds is dropped. One whose mint waits completes it:
      the two are merged and sent at once. Any other starts to wait. */
  lemma NewbornAnswer(evs: seq<Event>, token: TokenInfo, now: nat)
    requires ValidRun(INIT, 0, evs) && ClockAt(0, evs) <= now
    requires token.creator != "MIGRATION_EVENT"
    ensures var s, outs, mint := Run(INIT, evs), Outputs(INIT, evs), token.mint;
            var (s', out) := Step(s, Arrive(token, now));
            if mint == "" || SentLately(outs, Newborn, mint, now) then s' == s && out == []
            else
              && OthersWait(s, s', mint, now)
              && (if mint in s.pending then
                    && mint !in s'.pending
                    && Arrive(s.pending[mint].token, s.pending[mint].createdAt) in evs
                    && s.pending[mint].token.mint == mint
                    && |out| == 1 && out[0].ns == Newborn && out[0].at == now
                    && MergeOf(out[0].token, s.pending[mint].token, token)
                  else
                    out == [] && mint in s'.pending &&
                    s'.pending[mint].token == token && s'.pending[mint].createdAt == now)
  {
    RunHistory(evs, now);
    var s, mint := Run(INIT, evs), token.mint;
    hide SentLately, Live, Tick, Inserted, Run, MergeTokenData;
    if mint != "" && !Live(s.newborn, DEFAULT_TTL, mint, now) {
      if mint in s.pending {
        MergeMeans(s.pending[mint], token);
        TickKeepsOthers(s, OnMerge(s, token, now), mint, now);
      } else {
        TickKeepsOthers(s, s.(pending := s.pending[mint := NewPending(token, now)]), mint, now);
      }
    }
  }

  lemma MergeMeans(entry: PendingToken, token: TokenInfo)
    ensures MergeOf(MergeTokenData(entry, token).token, entry.token, token)
    ensures MergeTokenData(entry, token).token.mint == entry.token.mint
  {
  }

  // ---------- What a timeout leads to ----------

  lemma {:induction false} EmitAllTokens(s: Engine, order: seq<Mint>, now: nat)
    requires Inv(s, now) && ListsPending(s, order)
    ensures var out := EmitAll(s, order, now).1;
            |out| == |order| &&
            forall i | 0 <= i < |order| :: out[i] == Emission(Newborn, s.pending[order[i]].token, now)
    decreases |order|
  {
    if order != [] {
      hide Inv, ListsPending, Emit, Inserted;
      ListsRest(s, order, now);
      SentKeepsInv(s, order[0], now);
      var s1, rest := Sent(s, order[0], now), order[1..];
      EmitAllTokens(s1, rest, now);
      forall i | 0 < i < |order|
        ensures order[i] in s.pending && s1.pending[order[i]] == s.pending[order[i]]
      {
        ListsOne(s1, rest, i - 1);
      }
    }
  }

  lemma ListsOne(s: Engine, order: seq<Mint>, i: nat)
    requires ListsPending(s, order) && i < |order|
    ensures order[i] in s.pending
  {
  }

  /** A timeout sends exactly the entries that have waited 250 milliseconds or more, each once and as it came,
      in the order of the map; all others go on waiting. */
  lemma TimeoutAnswer(evs: seq<Event>, order: seq<Mint>, now: nat)
    requires ValidRun(INIT, 0, evs) && ClockAt(0, evs) <= now && Enabled(Run(INIT, evs), Timeout(order, now))
    ensures var s := Run(INIT, evs);
            var (s', out) := Step(s, Timeout(order, now));
            && s'.counter == s.counter + 1 && QueuesSwept(s', now)
            && |out| == |order|
            && (forall i | 0 <= i < |order| ::
                  && order[i] in s.pending && now >= s.pending[order[i]].createdAt + 250_000_000
                  && Arrive(s.pending[order[i]].token, s.pending[order[i]].createdAt) in evs
                  && out[i] == Emission(Newborn, s.pending[order[i]].token, now))
            && (forall i, j | 0 <= i < j < |order| :: order[i] != order[j])
            && (forall m | m in s.pending && now >= s.pending[m].createdAt + 250_000_000 :: m in order)
            && (forall m :: m in s'.pending <==> m in s.pending && m !in order)
            && (forall m | m in s'.pending :: s'.pending[m] == s.pending[m])
  {
    RunHistory(evs, now);
    var s := Run(INIT, evs);
    hide SentLately, Live, Run, Inv, Tick, Emit, Inserted, Cleaned, Retained, QueuesSwept;
    EmitAllTokens(s, order, now);
    EmitAllExact(s, order, now);
    assert forall i | 0 <= i < |order| :: order[i] in order;
    YoungStay(EmitAll(s, order, now).0, now);
  }

  lemma YoungStay(s: Engine, now: nat)
    requires forall m | m in s.pending :: !Expired(s.pending[m], now)
    ensures Tick(s, now).pending == s.pending && Tick(s, now).counter == s.counter + 1 && QueuesSwept(Tick(s, now), now)
  {
  }
}
