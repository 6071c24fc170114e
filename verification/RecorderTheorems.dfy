/**
 The recorder's promises, over every run of the system.
 */
module RecorderTheorems {
  import opened RecorderMemory
  import opened RecorderWorld
  import opened RecorderAccounting
  import opened RecorderSafety
  import opened RecorderCoverage

  ghost predicate Invariant(w: World) {
    && Accounted(w) && Issued(w) && Spent(w) && Open(w) && SnapshotClear(w)
    && GoneExcused(w) && Dated(w) && Held(w.calls, w.flush, w.epoch) && ObservedBound(w) && SnapshotBound(w) && CoverageTruthful(w)
  }

  lemma InvariantInitially(me: nat)
    ensures Invariant(Starting(me))
  {
  }

  lemma InvariantStep(w: World, s: Step)
    requires Invariant(w) && Enabled(w, s)
    ensures Invariant(Apply(w, s))
  {
    AccountedStep(w, s);
    IssuedStep(w, s);
    SpentStep(w, s);
    OpenStep(w, s);
    SnapshotClearStep(w, s);
    GoneExcusedStep(w, s);
    DatedStep(w, s);
    HeldStep(w, s);
    BoundStep(w, s);
    SnapshotBoundStep(w, s);
    TruthfulStep(w, s);
  }

  lemma TruthfulStep(w: World, s: Step)
    requires Invariant(w) && Enabled(w, s)
    ensures CoverageTruthful(Apply(w, s))
  {
    if s.Transaction? {
      TruthfulTransaction(w, s.o, s.reached);
    } else if s.Unheard? {
      TruthfulUnheard(w, s.o);
    } else {
      TruthfulOther(w, s);
    }
  }

  lemma {:induction false} InvariantThroughout(worlds: seq<World>, steps: seq<Step>, n: nat)
    requires Run(worlds, steps) && n < |worlds|
    ensures Invariant(worlds[n])
    decreases n
  {
    if n == 0 {
      InvariantInitially(worlds[0].me);
    } else {
      InvariantThroughout(worlds, steps, n - 1);
      InvariantStep(worlds[n - 1], steps[n - 1]);
    }
  }

  // ---- reaching a state ----

  ghost predicate Reachable(w: World) {
    exists worlds: seq<World>, steps: seq<Step> :: EndsIn(worlds, steps, w)
  }

  ghost predicate EndsIn(worlds: seq<World>, steps: seq<Step>, w: World) {
    Run(worlds, steps) && worlds[|steps|] == w
  }

  lemma ReachableStep(w: World, s: Step)
    requires Reachable(w) && Enabled(w, s)
    ensures Reachable(Apply(w, s))
  {
    var worlds, steps :| EndsIn(worlds, steps, w);
    var worlds', steps' := worlds + [Apply(w, s)], steps + [s];
    forall i | 0 <= i < |steps'|
      ensures Enabled(worlds'[i], steps'[i]) && worlds'[i + 1] == Apply(worlds'[i], steps'[i])
    {
      if i < |steps| { assert steps'[i] == steps[i] && worlds'[i] == worlds[i] && worlds'[i + 1] == worlds[i + 1]; }
    }
    assert EndsIn(worlds', steps', Apply(w, s));
  }

  lemma ReachableInitially(me: nat)
    ensures Reachable(Starting(me))
  {
    assert EndsIn([Starting(me)], [], Starting(me));
  }

  lemma InvariantReached(w: World)
    requires Reachable(w)
    ensures Invariant(w)
  {
    var worlds, steps :| EndsIn(worlds, steps, w);
    InvariantThroughout(worlds, steps, |steps|);
  }

  // ---- conservation ----

  /** In every reachable state the usage accepted under a key, and what of it is counted a second time, equals what is
      queued, what the running flush holds, what the live row holds beyond the additions of other processes, and
      what was erased, voided or lost with a crash. */
  lemma UsageIsConserved(worlds: seq<World>, steps: seq<Step>, n: nat, k: Key)
    requires Run(worlds, steps) && n < |worlds|
    ensures
      var w := worlds[n];
      AcceptedTotal(w.calls, k) + Echoed(w, k) ==
        Amount(w.memory.pending, k) + InHand(w.flush, k)
        + (if Live(w.db, ObserverOf(k)) then RowAmount(w.db.rows, RowOf(k)) - RowAmount(w.others, RowOf(k)) else 0)
        + Total(w.calls, k, Erased) + Total(w.calls, k, Voided) + Total(w.calls, k, Lost)
  {
    InvariantThroughout(worlds, steps, n);
    var w := worlds[n];
    IssuedIsNamed(w);
    if Live(w.db, ObserverOf(k)) {
      Conservation(w, k);
    } else {
      AcceptedIsEverywhere(w.calls, k);
      forall i | 0 <= i < |w.calls|
        ensures w.calls[i].state != Accepted(k, Stored)
      {
        assert CallIssued(w.calls[i], w.db);
      }
      TotalOfAbsentKey(w.calls, k, Stored);
      assert Amount(w.memory.pending, k) == Total(w.calls, k, InPending) + Amount(w.echo.pending, k);
      assert InHand(w.flush, k) == Total(w.calls, k, InBatch) + Amount(w.echo.batch, k);
    }
  }

  /** While its registration lives, a key's usage is never voided or erased: it is queued, in the flush,
      in the rows, or lost with a crashed process. */
  lemma LiveUsageIsNeverVoided(worlds: seq<World>, steps: seq<Step>, n: nat, k: Key)
    requires Run(worlds, steps) && n < |worlds| && Live(worlds[n].db, ObserverOf(k))
    ensures Total(worlds[n].calls, k, Erased) == 0 && Total(worlds[n].calls, k, Voided) == 0
  {
    InvariantThroughout(worlds, steps, n);
    var w := worlds[n];
    forall i | 0 <= i < |w.calls|
      ensures w.calls[i].state != Accepted(k, Erased) && w.calls[i].state != Accepted(k, Voided)
    {
      assert CallIssued(w.calls[i], w.db);
    }
    TotalOfAbsentKey(w.calls, k, Erased);
    TotalOfAbsentKey(w.calls, k, Voided);
  }

  // ---- truthful coverage ----

  /** What an interval says of one call of the process that committed it. If the call was accepted for the
      interval's observer, its usage is in the stored rows, or was lost with an earlier run of the process; and if it
      was made after the interval's start, it was accepted for that observer, by the run that committed the interval,
      and its usage is in the stored rows: in the row of its own meter and hour. */
  ghost predicate Counted(w: World, p: Interval, i: nat) {
    && i < |w.calls|
    && var c := w.calls[i];
       && (c.state.Accepted? ==> Names(c.state.key, c))
       && (c.state.Accepted? && ObserverOf(c.state.key) == Observer(p.tenant, p.registration) ==>
             || (c.state.place == Stored && c.delta <= RowAmount(w.db.rows, RowOf(c.state.key)))
             || (c.state.place == Lost && c.epoch < p.epoch))
       && (c.tenant == p.tenant && p.from < c.at ==>
             && c.state.Accepted? && ObserverOf(c.state.key) == Observer(p.tenant, p.registration) && c.epoch == p.epoch
             && c.state.place == Stored && c.delta <= RowAmount(w.db.rows, RowOf(c.state.key)))
  }

  /** An interval in the store belongs to the live registration, and one this process committed is true of
      every call that had finished at its snapshot. */
  lemma CoverageIsTruthful(worlds: seq<World>, steps: seq<Step>, n: nat, p: Interval, i: nat)
    requires Run(worlds, steps) && n < |worlds| && p in worlds[n].db.coverage
    ensures Live(worlds[n].db, Observer(p.tenant, p.registration))
    ensures p.process == worlds[n].me && i < p.known && i !in p.racing ==> Counted(worlds[n], p, i)
  {
    InvariantThroughout(worlds, steps, n);
    var w := worlds[n];
    if p.process == w.me && i < p.known && i !in p.racing {
      assert Vouched(p, w) && StoredFor(w.calls[i], p);
      IssuedIsNamed(w);
      StoredIsInRows(w, i);
    }
  }

  lemma StoredIsInRows(w: World, i: nat)
    requires Accounted(w) && Issued(w) && i < |w.calls|
    ensures
      var c := w.calls[i];
      c.state.Accepted? && c.state.place == Stored ==> c.delta <= RowAmount(w.db.rows, RowOf(c.state.key))
  {
    var c := w.calls[i];
    if c.state.Accepted? && c.state.place == Stored {
      var r := RowOf(c.state.key);
      assert CallIssued(c, w.db);
      TotalCounts(w.calls, i, c.state.key, Stored);
      assert RowAmount(w.db.rows, r) == StoredUnderLive(w.db, w.calls, r) + RowAmount(w.others, r) + RowAmount(w.echo.rows, r);
      assert KeyOf(r, w.db.live[c.tenant]) == c.state.key;
    }
  }

  // ---- interruption ----

  /** An interval starts no earlier than any fault of its tenant recorded before its snapshot, and was
      opened by a newer ticket of the same process. */
  lemma InterruptionIsNeverUndone(worlds: seq<World>, steps: seq<Step>, n: nat, p: Interval, j: nat)
    requires Run(worlds, steps) && n < |worlds| && p in worlds[n].db.coverage
    requires p.process == worlds[n].me && j < p.faultsSeen
    ensures j < |worlds[n].faults|
    ensures
      var f := worlds[n].faults[j];
      f.tenant == p.tenant ==> f.at <= p.from && (f.epoch == p.epoch ==> f.ticket < p.generation)
  {
    InvariantThroughout(worlds, steps, n);
    assert Vouched(p, worlds[n]);
  }

  lemma SpentOnwards(w: World, s: Step, ticket: nat)
    requires Enabled(w, s) && !s.Crash?
    requires ticket <= w.memory.nextLookup && !TicketInFlight(w.calls, ticket)
    ensures ticket <= Apply(w, s).memory.nextLookup && !TicketInFlight(Apply(w, s).calls, ticket)
  {
    var w' := Apply(w, s);
    if s.Begin? {
      assert forall i | 0 <= i < |w.calls| :: w'.calls[i] == w.calls[i];
    } else {
      NoneTakesFlight(w, s);
      StillSpent(w.calls, w'.calls);
    }
  }

  lemma NoneTakesFlight(w: World, s: Step)
    requires Enabled(w, s) && !s.Begin? && !s.Crash?
    ensures |Apply(w, s).calls| == |w.calls| && Apply(w, s).memory.nextLookup == w.memory.nextLookup
    ensures forall i | 0 <= i < |w.calls| ::
              && Apply(w, s).calls[i].ticket == w.calls[i].ticket && Apply(w, s).calls[i].tenant == w.calls[i].tenant
              && (InFlight(Apply(w, s).calls[i]) ==> InFlight(w.calls[i]))
  {
    NoneJoins(w, s);
    forall i | 0 <= i < |w.calls|
      ensures StepsOn(w.calls[i], Apply(w, s).calls[i])
    {
      CallStepsOn(w, s, i);
    }
  }

  lemma NoneJoins(w: World, s: Step)
    requires Enabled(w, s) && !s.Begin? && !s.Crash?
    ensures |Apply(w, s).calls| == |w.calls| && Apply(w, s).memory.nextLookup == w.memory.nextLookup
  {
  }

  /** A ticket that is no longer in flight never comes back within the same process. */
  lemma {:induction false} SpentForever(worlds: seq<World>, steps: seq<Step>, a: nat, b: nat, ticket: nat)
    requires Run(worlds, steps) && a <= b < |worlds| && worlds[a].epoch == worlds[b].epoch
    requires ticket <= worlds[a].memory.nextLookup && !TicketInFlight(worlds[a].calls, ticket)
    ensures ticket <= worlds[b].memory.nextLookup && !TicketInFlight(worlds[b].calls, ticket)
    decreases b
  {
    if a < b {
      SameProcess(worlds, steps, a, b);
      SpentForever(worlds, steps, a, b - 1, ticket);
      SpentOnwards(worlds[b - 1], steps[b - 1], ticket);
    }
  }

  lemma EpochStep(w: World, s: Step)
    requires Enabled(w, s)
    ensures Apply(w, s).epoch == if s.Crash? then w.epoch + 1 else w.epoch
  {
  }

  lemma {:induction false} EpochGrows(worlds: seq<World>, steps: seq<Step>, a: nat, b: nat)
    requires Run(worlds, steps) && a <= b < |worlds|
    ensures worlds[a].epoch <= worlds[b].epoch
    decreases b
  {
    if a < b {
      EpochGrows(worlds, steps, a, b - 1);
      EpochStep(worlds[b - 1], steps[b - 1]);
    }
  }

  lemma SameProcess(worlds: seq<World>, steps: seq<Step>, a: nat, b: nat)
    requires Run(worlds, steps) && a < b < |worlds| && worlds[a].epoch == worlds[b].epoch
    ensures worlds[b - 1].epoch == worlds[a].epoch && !steps[b - 1].Crash?
  {
    EpochGrows(worlds, steps, a, b - 1);
    EpochStep(worlds[b - 1], steps[b - 1]);
  }

  lemma NewestTicketBounded(worlds: seq<World>, steps: seq<Step>, n: nat, t: string)
    requires Run(worlds, steps) && n < |worlds| && t in worlds[n].memory.lookups
    ensures worlds[n].memory.lookups[t] <= worlds[n].memory.nextLookup
  {
    InvariantThroughout(worlds, steps, n);
  }

  lemma NewestTicketStep(w: World, s: Step, t: string)
    requires t in w.memory.lookups && w.memory.lookups[t] <= w.memory.nextLookup && Enabled(w, s) && !s.Crash?
    ensures t in Apply(w, s).memory.lookups && w.memory.lookups[t] <= Apply(w, s).memory.lookups[t]
  {
  }

  lemma {:induction false} NewestTicketGrows(worlds: seq<World>, steps: seq<Step>, a: nat, b: nat, t: string)
    requires Run(worlds, steps) && a <= b < |worlds| && worlds[a].epoch == worlds[b].epoch && t in worlds[a].memory.lookups
    ensures t in worlds[b].memory.lookups && worlds[a].memory.lookups[t] <= worlds[b].memory.lookups[t]
    decreases b
  {
    if a < b {
      SameProcess(worlds, steps, a, b);
      NewestTicketGrows(worlds, steps, a, b - 1, t);
      NewestTicketBounded(worlds, steps, b - 1, t);
      NewestTicketStep(worlds[b - 1], steps[b - 1], t);
    }
  }

  /** Within one process, a tenant's observations open with strictly increasing generations: whatever
      was observed at any earlier state, a newly opened observation has a greater one. */
  lemma GenerationsIncrease(worlds: seq<World>, steps: seq<Step>, a: nat, b: nat, o: Observer, i: nat)
    requires Run(worlds, steps) && a <= b < |steps| && worlds[a].epoch == worlds[b].epoch
    requires o in worlds[a].memory.observing
    requires steps[b] == Finish(i) && worlds[b].calls[i].state.Resolved? && worlds[b].calls[i].tenant == o.tenant
    requires Opens(worlds[b].memory, KeyFor(worlds[b].calls[i], worlds[b].calls[i].state.registration), worlds[b].calls[i].ticket)
    ensures worlds[a].memory.observing[o].generation < worlds[b].calls[i].ticket
  {
    InvariantThroughout(worlds, steps, a);
    var g := worlds[a].memory.observing[o].generation;
    NewestTicketGrows(worlds, steps, a, b, o.tenant);
    SpentForever(worlds, steps, a, b, g);
    assert TicketInFlight(worlds[b].calls, worlds[b].calls[i].ticket);
  }
}
