/**
 What every step of the metering protocol keeps: registrations are fenced, observations stay
 clear of faults, and a committed interval vouches for every call finished before its snapshot.
 */
module RecorderSafety {
  import opened Clock
  import opened RecorderMemory
  import opened RecorderWorld
  import opened RecorderAccounting

  // ---- registrations ----

  ghost predicate CallIssued(c: Call, db: Database) {
    && 0 < c.delta
    && (c.previous != "" ==> Observer(c.tenant, c.previous) in db.registered)
    && (c.state.Resolved? ==> c.state.registration != "" && Observer(c.tenant, c.state.registration) in db.registered)
    && (c.state.Accepted? ==>
          && c.state.key == KeyFor(c, c.state.key.registration)
          && c.state.key.registration != ""
          && ObserverOf(c.state.key) in db.registered
          && (c.state.place.Stored? ==> Live(db, ObserverOf(c.state.key)))
          && (c.state.place.Erased? || c.state.place.Voided? ==> !Live(db, ObserverOf(c.state.key))))
  }

  ghost predicate CallsIssued(calls: seq<Call>, db: Database) {
    forall i | 0 <= i < |calls| :: CallIssued(calls[i], db)
  }

  ghost predicate LiveIssued(db: Database) {
    forall t | t in db.live :: t != "" && db.live[t] != "" && Observer(t, db.live[t]) in db.registered
  }

  ghost predicate MemoryIssued(m: Memory, db: Database) {
    && (forall t | t in m.registrations :: m.registrations[t] != "" ==> Observer(t, m.registrations[t]) in db.registered)
    && (forall k | k in m.pending :: ObserverOf(k) in db.registered)
    && (forall o | o in m.observing :: o in db.registered)
  }

  /** A group is refused as erased only when its registration is gone for good. */
  ghost predicate GroupsIssued(f: FlushState, db: Database) {
    f.Flushing? ==>
      && (forall k | k in f.batch :: ObserverOf(k) in f.groups)
      && (forall o | o in f.observed :: o in f.groups)
      && (forall o | o in f.groups :: o in db.registered && (f.groups[o] == Refused(true) ==> !Live(db, o)))
  }

  ghost predicate Issued(w: World) {
    LiveIssued(w.db) && CallsIssued(w.calls, w.db) && MemoryIssued(w.memory, w.db) && GroupsIssued(w.flush, w.db)
  }

  lemma IssuedIsNamed(w: World)
    requires Issued(w)
    ensures AllNamed(w.calls)
  {
    forall i | 0 <= i < |w.calls| && w.calls[i].state.Accepted?
      ensures Names(w.calls[i].state.key, w.calls[i])
    {
      assert CallIssued(w.calls[i], w.db);
    }
  }

  lemma IssuedFinish(w: World, i: nat)
    requires Issued(w) && Enabled(w, Finish(i))
    ensures Issued(Finished(w, i))
  {
    var c, w' := w.calls[i], Finished(w, i);
    assert CallIssued(c, w.db);
    assert CallIssued(w'.calls[i], w'.db);
    assert MemoryIssued(w'.memory, w'.db);
  }

  lemma IssuedSnapshot(w: World)
    requires Issued(w) && w.flush.Idle?
    ensures Issued(Snapped(w))
  {
    var w' := Snapped(w);
    forall i | 0 <= i < |w'.calls|
      ensures CallIssued(w'.calls[i], w'.db)
    {
      assert CallIssued(w.calls[i], w.db);
    }
    assert forall k | k in w.memory.pending :: ObserverOf(k) in ObserversOf(w.memory.pending);
  }

  lemma SameRegistry(calls: seq<Call>, db: Database, db': Database)
    requires CallsIssued(calls, db) && db'.live == db.live && db'.registered == db.registered
    ensures CallsIssued(calls, db')
  {
    forall i | 0 <= i < |calls|
      ensures CallIssued(calls[i], db')
    {
      assert CallIssued(calls[i], db);
    }
  }

  lemma IssuedTransaction(w: World, o: Observer, reached: bool)
    requires Issued(w) && Enabled(w, Transaction(o, reached))
    ensures Issued(Transacted(w, o, reached))
  {
    var w' := Transacted(w, o, reached);
    assert w'.db.live == w.db.live && w'.db.registered == w.db.registered;
    if w'.flush.groups[o].Done? {
      IssuedMoved(w.calls, w.db, o, InBatch, Stored);
    }
    SameRegistry(w'.calls, w.db, w'.db);
  }

  lemma IssuedUnheard(w: World, o: Observer)
    requires Issued(w) && Enabled(w, Unheard(o))
    ensures Issued(Landed(w, o))
  {
    var w' := Landed(w, o);
    assert w'.db.live == w.db.live && w'.db.registered == w.db.registered;
    IssuedMoved(w.calls, w.db, o, InBatch, Stored);
    SameRegistry(w'.calls, w.db, w'.db);
  }

  /** Moving an observer's usage keeps every call issued, if it is stored only while live, voided only after. */
  lemma IssuedMoved(calls: seq<Call>, db: Database, o: Observer, src: Place, dst: Place)
    requires CallsIssued(calls, db) && (dst.Stored? ==> Live(db, o)) && (dst.Erased? || dst.Voided? ==> !Live(db, o))
    ensures CallsIssued(Moved(calls, Only(o), src, dst), db)
  {
    var calls' := Moved(calls, Only(o), src, dst);
    forall i | 0 <= i < |calls'|
      ensures CallIssued(calls'[i], db)
    {
      assert CallIssued(calls[i], db);
    }
  }

  lemma IssuedSettle(w: World, o: Observer)
    requires Issued(w) && Enabled(w, Settle(o))
    ensures Issued(SettledGroup(w, o))
  {
    if w.flush.groups[o] == Refused(true) {
      IssuedMoved(w.calls, w.db, o, InBatch, Voided);
      IssuedMoved(Moved(w.calls, Only(o), InBatch, Voided), w.db, o, InPending, Voided);
    } else if w.flush.groups[o] == Refused(false) {
      IssuedMoved(w.calls, w.db, o, InBatch, InPending);
    }
    SettledMemory(w, o);
  }

  lemma SettledMemory(w: World, o: Observer)
    requires Issued(w) && Enabled(w, Settle(o))
    ensures MemoryIssued(SettledGroup(w, o).memory, w.db)
  {
  }

  lemma IssuedLifecycle(w: World, s: Step)
    requires Issued(w) && Enabled(w, s) && (s.Register? || s.Offboard?)
    ensures Issued(Apply(w, s))
  {
    var w' := Apply(w, s);
    forall i | 0 <= i < |w'.calls|
      ensures CallIssued(w'.calls[i], w'.db)
    {
      assert CallIssued(w.calls[i], w.db);
    }
  }

  lemma IssuedCrash(w: World)
    requires Issued(w)
    ensures Issued(Crashed(w))
  {
    var w' := Crashed(w);
    forall i | 0 <= i < |w'.calls|
      ensures CallIssued(w'.calls[i], w'.db)
    {
      assert CallIssued(w.calls[i], w.db);
    }
  }

  lemma IssuedElsewhere(w: World, s: Step)
    requires Issued(w) && Enabled(w, s) && s.Elsewhere?
    ensures Issued(Apply(w, s))
  {
    SameRegistry(w.calls, w.db, Apply(w, s).db);
  }

  lemma IssuedStep(w: World, s: Step)
    requires Issued(w) && Enabled(w, s)
    ensures Issued(Apply(w, s))
  {
    match s
    case Tick(_) =>
    case Begin(_, _, _, _) =>
    case Lookup(i, _) => assert CallIssued(w.calls[i], w.db);
    case Finish(i) => IssuedFinish(w, i);
    case Snapshot => IssuedSnapshot(w);
    case Transaction(o, reached) => IssuedTransaction(w, o, reached);
    case Unheard(o) => IssuedUnheard(w, o);
    case Settle(o) => IssuedSettle(w, o);
    case EndFlush =>
    case Register(_, _) => IssuedLifecycle(w, s);
    case Offboard(_) => IssuedLifecycle(w, s);
    case Crash => IssuedCrash(w);
    case Elsewhere(_, _) => IssuedElsewhere(w, s);
  }

  lemma AccountedStep(w: World, s: Step)
    requires Accounted(w) && Issued(w) && Enabled(w, s)
    ensures Accounted(Apply(w, s))
  {
    match s
    case Tick(_) =>
    case Begin(tenant, meter, delta, at) => AccountedBegin(w, tenant, meter, delta, at);
    case Lookup(i, answered) => AccountedLookup(w, i, answered);
    case Finish(i) => AccountedFinish(w, i);
    case Snapshot => AccountedSnapshot(w);
    case Transaction(o, reached) => AccountedTransaction(w, o, reached);
    case Unheard(o) => AccountedUnheard(w, o);
    case Settle(o) => AccountedSettle(w, o);
    case EndFlush => AccountedEndFlush(w);
    case Register(t, r) => AccountedRegister(w, t, r);
    case Offboard(t) => AccountedOffboard(w, t);
    case Crash => AccountedCrash(w);
    case Elsewhere(group, interval) => AccountedElsewhere(w, group, interval);
  }

  // ---- what a step does to one call ----

  /** A call stays who it is; once finished it stays what it was, but for where its usage is. */
  predicate StepsOn(c: Call, c': Call) {
    && c'.ticket == c.ticket && c'.tenant == c.tenant && c'.meter == c.meter && c'.delta == c.delta && c'.at == c.at
    && c'.epoch == c.epoch && c'.previous == c.previous
    && (InFlight(c') ==> InFlight(c) && (c.state.Waiting? || c'.state == c.state))
    && (!InFlight(c) ==>
          c'.state == c.state || (c.state.Accepted? && c'.state.Accepted? && c'.state.key == c.state.key))
  }

  lemma CallStepsOn(w: World, s: Step, i: nat)
    requires Enabled(w, s) && i < |w.calls|
    ensures i < |Apply(w, s).calls| && StepsOn(w.calls[i], Apply(w, s).calls[i])
  {
    match s
    case Finish(j) => FinishedOn(w, j, i);
    case Settle(o) => SettledOn(w, o, i);
    case Crash => CrashedOn(w, i);
    case Transaction(o, reached) => TransactedOn(w, o, reached, i);
    case _ =>
  }

  lemma FinishedOn(w: World, j: nat, i: nat)
    requires Enabled(w, Finish(j)) && i < |w.calls|
    ensures i < |Finished(w, j).calls| && StepsOn(w.calls[i], Finished(w, j).calls[i])
  {
  }

  lemma SettledOn(w: World, o: Observer, i: nat)
    requires Enabled(w, Settle(o)) && i < |w.calls|
    ensures i < |SettledGroup(w, o).calls| && StepsOn(w.calls[i], SettledGroup(w, o).calls[i])
  {
  }

  lemma CrashedOn(w: World, i: nat)
    requires i < |w.calls|
    ensures i < |Crashed(w).calls| && StepsOn(w.calls[i], Crashed(w).calls[i])
  {
  }

  lemma TransactedOn(w: World, o: Observer, reached: bool, i: nat)
    requires Enabled(w, Transaction(o, reached)) && i < |w.calls|
    ensures i < |Transacted(w, o, reached).calls| && StepsOn(w.calls[i], Transacted(w, o, reached).calls[i])
  {
  }

  // ---- tickets and generations ----

  ghost predicate TicketInFlight(calls: seq<Call>, ticket: nat) {
    exists i :: 0 <= i < |calls| && InFlight(calls[i]) && calls[i].ticket == ticket
  }

  /** Tickets in flight are distinct and were the newest of their tenant when taken. */
  ghost predicate TicketsDistinct(calls: seq<Call>, m: Memory) {
    && (forall i, j | 0 <= i < j < |calls| && InFlight(calls[i]) && InFlight(calls[j]) :: calls[i].ticket != calls[j].ticket)
    && (forall i | 0 <= i < |calls| && InFlight(calls[i]) ::
          calls[i].tenant in m.lookups && calls[i].ticket <= m.lookups[calls[i].tenant])
    && (forall t | t in m.lookups :: m.lookups[t] <= m.nextLookup)
  }

  /** A generation in use, or the ticket of a fault in this process, is not that of a call in flight. */
  ghost predicate GenerationsSpent(observing: map<Observer, Observation>, calls: seq<Call>, m: Memory) {
    forall o | o in observing ::
      && o.tenant in m.lookups && observing[o].generation <= m.lookups[o.tenant]
      && !TicketInFlight(calls, observing[o].generation)
  }

  ghost predicate FaultTicketsSpent(faults: seq<Fault>, epoch: nat, calls: seq<Call>, m: Memory) {
    forall j | 0 <= j < |faults| ::
      && faults[j].epoch <= epoch
      && (faults[j].epoch == epoch ==>
            && faults[j].tenant in m.lookups && faults[j].ticket <= m.lookups[faults[j].tenant]
            && !TicketInFlight(calls, faults[j].ticket))
  }

  ghost predicate Spent(w: World) {
    && TicketsDistinct(w.calls, w.memory)
    && GenerationsSpent(w.memory.observing, w.calls, w.memory)
    && (w.flush.Flushing? ==> GenerationsSpent(w.flush.observed, w.calls, w.memory))
    && FaultTicketsSpent(w.faults, w.epoch, w.calls, w.memory)
  }

  lemma SpentBegin(w: World, tenant: string, meter: string, delta: nat, at: Instant)
    requires Spent(w)
    ensures Spent(Begun(w, tenant, meter, delta, at))
  {
    var w' := Begun(w, tenant, meter, delta, at);
    forall ticket: nat | ticket <= w.memory.nextLookup && !TicketInFlight(w.calls, ticket)
      ensures !TicketInFlight(w'.calls, ticket)
    {
      assert forall i | 0 <= i < |w.calls| :: w'.calls[i] == w.calls[i];
    }
  }

  /** A step that only takes calls out of flight frees no ticket for reuse. */
  lemma StillSpent(calls: seq<Call>, calls': seq<Call>)
    requires |calls'| == |calls|
    requires forall i | 0 <= i < |calls| ::
               calls'[i].ticket == calls[i].ticket && calls'[i].tenant == calls[i].tenant
               && (InFlight(calls'[i]) ==> InFlight(calls[i]))
    ensures forall ticket: nat | TicketInFlight(calls', ticket) :: TicketInFlight(calls, ticket)
  {
    forall ticket: nat | TicketInFlight(calls', ticket)
      ensures TicketInFlight(calls, ticket)
    {
      var i :| 0 <= i < |calls'| && InFlight(calls'[i]) && calls'[i].ticket == ticket;
      assert InFlight(calls[i]) && calls[i].ticket == ticket;
    }
  }

  lemma SpentFinish(w: World, i: nat)
    requires Spent(w) && Enabled(w, Finish(i))
    ensures Spent(Finished(w, i))
  {
    var c, w' := w.calls[i], Finished(w, i);
    StillSpent(w.calls, w'.calls);
    assert !TicketInFlight(w'.calls, c.ticket);
    assert TicketsDistinct(w'.calls, w'.memory);
    assert GenerationsSpent(w'.memory.observing, w'.calls, w'.memory);
  }

  lemma SpentSnapshot(w: World)
    requires Spent(w) && w.flush.Idle?
    ensures Spent(Snapped(w))
  {
    StillSpent(w.calls, Snapped(w).calls);
  }

  lemma SpentTransaction(w: World, o: Observer, reached: bool)
    requires Spent(w) && Enabled(w, Transaction(o, reached))
    ensures Spent(Transacted(w, o, reached))
  {
    StillSpent(w.calls, Transacted(w, o, reached).calls);
  }

  lemma SpentUnheard(w: World, o: Observer)
    requires Spent(w) && Enabled(w, Unheard(o))
    ensures Spent(Landed(w, o))
  {
    StillSpent(w.calls, Landed(w, o).calls);
  }

  lemma SpentSettle(w: World, o: Observer)
    requires Spent(w) && Enabled(w, Settle(o))
    ensures Spent(SettledGroup(w, o))
  {
    var w' := SettledGroup(w, o);
    SettledCalls(w, o);
    SpentShrinks(w, w');
  }

  lemma SettledCalls(w: World, o: Observer)
    requires Enabled(w, Settle(o))
    ensures
      var w' := SettledGroup(w, o);
      |w'.calls| == |w.calls| && forall i | 0 <= i < |w.calls| ::
        && w'.calls[i].ticket == w.calls[i].ticket && w'.calls[i].tenant == w.calls[i].tenant
        && (InFlight(w'.calls[i]) <==> InFlight(w.calls[i]))
  {
  }

  /** Settling moves counters about: the tickets in flight stay, and no generation appears. */
  lemma SpentShrinks(w: World, w': World)
    requires Spent(w) && |w'.calls| == |w.calls|
    requires forall i | 0 <= i < |w.calls| ::
               && w'.calls[i].ticket == w.calls[i].ticket && w'.calls[i].tenant == w.calls[i].tenant
               && (InFlight(w'.calls[i]) <==> InFlight(w.calls[i]))
    requires w'.memory.nextLookup == w.memory.nextLookup && w'.memory.lookups == w.memory.lookups
    requires forall p | p in w'.memory.observing ::
               p in w.memory.observing && w'.memory.observing[p].generation == w.memory.observing[p].generation
    requires w.flush.Flushing? && w'.flush.Flushing? && w'.flush.observed == w.flush.observed
    requires w'.faults == w.faults && w'.epoch == w.epoch
    ensures Spent(w')
  {
    StillSpent(w.calls, w'.calls);
  }

  lemma SpentOffboard(w: World, t: string)
    requires Spent(w) && Enabled(w, Offboard(t))
    ensures Spent(Apply(w, Offboard(t)))
  {
    StillSpent(w.calls, Apply(w, Offboard(t)).calls);
  }

  lemma SpentLookup(w: World, i: nat, answered: bool)
    requires Spent(w) && Enabled(w, Lookup(i, answered))
    ensures Spent(LookedUp(w, i, answered))
  {
    StillSpent(w.calls, LookedUp(w, i, answered).calls);
  }

  lemma SpentStep(w: World, s: Step)
    requires Spent(w) && Enabled(w, s)
    ensures Spent(Apply(w, s))
  {
    match s
    case Tick(_) =>
    case Begin(tenant, meter, delta, at) => SpentBegin(w, tenant, meter, delta, at);
    case Lookup(i, answered) => SpentLookup(w, i, answered);
    case Finish(i) => SpentFinish(w, i);
    case Snapshot => SpentSnapshot(w);
    case Transaction(o, reached) => SpentTransaction(w, o, reached);
    case Unheard(o) => SpentUnheard(w, o);
    case Settle(o) => SpentSettle(w, o);
    case EndFlush =>
    case Register(_, _) =>
    case Offboard(t) => SpentOffboard(w, t);
    case Crash =>
    case Elsewhere(_, _) =>
  }

  // ---- which process a call belongs to ----

  /** What is queued or in flight is of the process now running; what a restart lost is of an earlier one,
      and every call of an earlier one was made before the restart. */
  ghost predicate CallDated(c: Call, epoch: nat, startedAt: Instant) {
    && c.epoch <= epoch && (c.epoch < epoch ==> c.at <= startedAt)
    && (InFlight(c) ==> c.epoch == epoch)
    && (c.state.Accepted? && (c.state.place.InPending? || c.state.place.InBatch?) ==> c.epoch == epoch)
    && (c.state.Accepted? && c.state.place.Lost? ==> c.epoch < epoch)
  }

  ghost predicate Dated(w: World) {
    forall i | 0 <= i < |w.calls| :: CallDated(w.calls[i], w.epoch, w.startedAt)
  }

  lemma DatedStep(w: World, s: Step)
    requires Dated(w) && Enabled(w, s) && forall i | 0 <= i < |w.calls| :: w.calls[i].at <= w.now
    ensures Dated(Apply(w, s))
  {
    match s
    case Crash => DatedCrash(w);
    case Settle(o) => DatedSettle(w, o);
    case _ => DatedElse(w, s);
  }

  lemma DatedCrash(w: World)
    requires Dated(w) && forall i | 0 <= i < |w.calls| :: w.calls[i].at <= w.now
    ensures Dated(Crashed(w))
  {
    var w' := Crashed(w);
    forall i | 0 <= i < |w'.calls|
      ensures CallDated(w'.calls[i], w'.epoch, w'.startedAt)
    {
      assert CallDated(w.calls[i], w.epoch, w.startedAt);
    }
  }

  lemma DatedSettle(w: World, o: Observer)
    requires Dated(w) && Enabled(w, Settle(o))
    ensures Dated(SettledGroup(w, o))
  {
    var w' := SettledGroup(w, o);
    forall i | 0 <= i < |w'.calls|
      ensures CallDated(w'.calls[i], w'.epoch, w'.startedAt)
    {
      assert CallDated(w.calls[i], w.epoch, w.startedAt);
    }
  }

  lemma DatedElse(w: World, s: Step)
    requires Dated(w) && Enabled(w, s) && !s.Crash? && !s.Settle?
    ensures Dated(Apply(w, s))
  {
    var w' := Apply(w, s);
    forall i | 0 <= i < |w'.calls|
      ensures CallDated(w'.calls[i], w'.epoch, w'.startedAt)
    {
      if i < |w.calls| {
        assert CallDated(w.calls[i], w.epoch, w.startedAt);
      }
    }
  }

  // ---- observations stay clear of faults ----

  /** `o` starts at or after every one of the first `seen` faults of its tenant, with a newer ticket. */
  ghost predicate Clear(o: Observer, at: Observation, faults: seq<Fault>, seen: nat, epoch: nat)
    requires seen <= |faults|
  {
    forall j | 0 <= j < seen && faults[j].tenant == o.tenant ::
      faults[j].at <= at.from && (faults[j].epoch == epoch ==> faults[j].ticket < at.generation)
  }

  ghost predicate Open(w: World) {
    && ZERO_TIME < w.startedAt <= w.now
    && (forall j | 0 <= j < |w.faults| :: w.faults[j].at <= w.now)
    && (forall o | o in w.memory.observing ::
          && w.startedAt <= w.memory.observing[o].from <= w.now
          && Clear(o, w.memory.observing[o], w.faults, |w.faults|, w.epoch))
  }

  /** While a flush runs, its copy of the observations is as clear as at its snapshot; and an observation
      still equal to that copy has met no fault since. */
  ghost predicate SnapshotClear(w: World) {
    w.flush.Flushing? ==>
      && w.flush.until <= w.now && w.flush.faultsSeen <= |w.faults|
      && (forall j | 0 <= j < w.flush.faultsSeen :: w.faults[j].at <= w.flush.until)
      && (forall o | o in w.flush.observed ::
            && w.startedAt <= w.flush.observed[o].from <= w.flush.until
            && Clear(o, w.flush.observed[o], w.faults, w.flush.faultsSeen, w.epoch))
      && (forall o | o in w.flush.observed && o in w.memory.observing && w.memory.observing[o].generation == w.flush.observed[o].generation ::
            forall j | w.flush.faultsSeen <= j < |w.faults| :: w.faults[j].tenant != o.tenant)
  }

  lemma OpenFinish(w: World, i: nat)
    requires Open(w) && Spent(w) && Enabled(w, Finish(i))
    ensures Open(Finished(w, i))
  {
    var c, w' := w.calls[i], Finished(w, i);
    assert TicketInFlight(w.calls, c.ticket);
    if c.state.Resolved? {
      var o := ObserverOf(KeyFor(c, c.state.registration));
      if Opens(w.memory, KeyFor(c, c.state.registration), c.ticket) {
        assert Clear(o, w'.memory.observing[o], w'.faults, |w'.faults|, w'.epoch);
      }
    } else {
      forall o | o in w'.memory.observing
        ensures Clear(o, w'.memory.observing[o], w'.faults, |w'.faults|, w'.epoch)
      {
        assert o in w.memory.observing && o.tenant != c.tenant;
        assert Clear(o, w.memory.observing[o], w.faults, |w.faults|, w.epoch);
      }
    }
  }

  lemma OpenSettle(w: World, o: Observer)
    requires Open(w) && SnapshotClear(w) && Enabled(w, Settle(o))
    ensures Open(SettledGroup(w, o))
  {
    var w' := SettledGroup(w, o);
    forall p | p in w'.memory.observing
      ensures w'.startedAt <= w'.memory.observing[p].from <= w'.now
      ensures Clear(p, w'.memory.observing[p], w'.faults, |w'.faults|, w'.epoch)
    {
      assert Clear(p, w.memory.observing[p], w.faults, |w.faults|, w.epoch);
    }
  }

  lemma SnapshotClearSettle(w: World, o: Observer)
    requires SnapshotClear(w) && Enabled(w, Settle(o))
    ensures SnapshotClear(SettledGroup(w, o))
  {
    var w' := SettledGroup(w, o);
    assert forall p | p in w'.memory.observing ::
        p in w.memory.observing && w'.memory.observing[p].generation == w.memory.observing[p].generation;
  }

  lemma OpenStep(w: World, s: Step)
    requires Open(w) && Spent(w) && SnapshotClear(w) && Enabled(w, s)
    ensures Open(Apply(w, s))
  {
    match s
    case Finish(i) => OpenFinish(w, i);
    case Settle(o) => OpenSettle(w, o);
    case _ =>
  }

  lemma SnapshotClearFinish(w: World, i: nat)
    requires Open(w) && Spent(w) && SnapshotClear(w) && Enabled(w, Finish(i)) && w.flush.Flushing?
    ensures SnapshotClear(Finished(w, i))
  {
    var c, w' := w.calls[i], Finished(w, i);
    assert TicketInFlight(w.calls, c.ticket);
    forall o | o in w'.flush.observed
      ensures Clear(o, w'.flush.observed[o], w'.faults, w'.flush.faultsSeen, w'.epoch)
    {
      assert Clear(o, w.flush.observed[o], w.faults, w.flush.faultsSeen, w.epoch);
    }
  }

  lemma SnapshotClearTaken(w: World)
    requires Open(w) && Enabled(w, Snapshot)
    ensures SnapshotClear(Apply(w, Snapshot))
  {
  }

  /** A later clock, and nothing else the snapshot depends on. */
  lemma SnapshotClearKept(w: World, w': World)
    requires SnapshotClear(w) && w.flush.Flushing? && w'.flush.Flushing? && w.now <= w'.now
    requires w'.flush == w.flush.(groups := w'.flush.groups)
    requires w'.faults == w.faults && w'.memory.observing == w.memory.observing
    requires w'.startedAt == w.startedAt && w'.epoch == w.epoch
    ensures SnapshotClear(w')
  {
  }

  lemma SnapshotClearQuiet(w: World, s: Step)
    requires SnapshotClear(w) && Enabled(w, s) && !s.Finish? && !s.Settle? && !s.Snapshot?
    ensures SnapshotClear(Apply(w, s))
  {
    var w' := Apply(w, s);
    if w'.flush.Flushing? {
      SnapshotClearKept(w, w');
    }
  }

  lemma SnapshotClearStep(w: World, s: Step)
    requires Open(w) && Spent(w) && SnapshotClear(w) && Enabled(w, s)
    ensures SnapshotClear(Apply(w, s))
  {
    if s.Finish? {
      if w.flush.Flushing? { SnapshotClearFinish(w, s.call); }
    } else if s.Settle? {
      SnapshotClearSettle(w, s.o);
    } else if s.Snapshot? {
      SnapshotClearTaken(w);
    } else {
      SnapshotClearQuiet(w, s);
    }
  }
}
