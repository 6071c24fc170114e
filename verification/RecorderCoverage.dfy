/**
 Coverage is truthful: everything accepted for an interval's observer before its snapshot is in the stored
 rows, and no call made after its start was dropped, through every interleaving, failed flush, erasure and
 crash.
 */
module RecorderCoverage {
  import opened Clock
  import opened RecorderMemory
  import opened RecorderWorld
  import opened RecorderSafety

  // ---- calls that left no usage behind ----

  predicate Gone(c: Call) {
    c.state.Dropped? || (c.state.Accepted? && c.state.place.Lost?)
  }

  /** A call without usage was made no later than a fault of its tenant, or than the process start. */
  ghost predicate Excused(c: Call, faults: seq<Fault>, startedAt: Instant) {
    c.at <= startedAt || exists j :: 0 <= j < |faults| && faults[j].tenant == c.tenant && c.at <= faults[j].at
  }

  ghost predicate GoneExcused(w: World) {
    forall i | 0 <= i < |w.calls| :: w.calls[i].at <= w.now && (Gone(w.calls[i]) ==> Excused(w.calls[i], w.faults, w.startedAt))
  }

  lemma StillExcused(c: Call, faults: seq<Fault>, f: Fault, startedAt: Instant)
    requires Excused(c, faults, startedAt)
    ensures Excused(c, faults + [f], startedAt)
  {
    if c.at > startedAt {
      var j :| 0 <= j < |faults| && faults[j].tenant == c.tenant && c.at <= faults[j].at;
      assert (faults + [f])[j] == faults[j];
    }
  }

  lemma GoneExcusedFinish(w: World, i: nat)
    requires GoneExcused(w) && Enabled(w, Finish(i))
    ensures GoneExcused(Finished(w, i))
  {
    var w' := Finished(w, i);
    if w.calls[i].state.Failed? {
      var f := w'.faults[|w.faults|];
      assert Excused(w'.calls[i], w'.faults, w'.startedAt) by {
        assert w'.faults[|w.faults|].tenant == w'.calls[i].tenant && w'.calls[i].at <= w'.faults[|w.faults|].at;
      }
      forall j | 0 <= j < |w'.calls| && j != i && Gone(w'.calls[j])
        ensures Excused(w'.calls[j], w'.faults, w'.startedAt)
      {
        StillExcused(w.calls[j], w.faults, f, w.startedAt);
      }
    }
  }

  lemma GoneExcusedStep(w: World, s: Step)
    requires GoneExcused(w) && Enabled(w, s) && (s.Begin? ==> w.startedAt <= w.now)
    ensures GoneExcused(Apply(w, s))
  {
    match s
    case Finish(i) => GoneExcusedFinish(w, i);
    case Settle(o) => GoneExcusedSettle(w, o);
    case Crash => GoneExcusedCrash(w);
    case _ =>
  }

  lemma GoneExcusedSettle(w: World, o: Observer)
    requires GoneExcused(w) && Enabled(w, Settle(o))
    ensures GoneExcused(SettledGroup(w, o))
  {
  }

  lemma GoneExcusedCrash(w: World)
    requires GoneExcused(w)
    ensures GoneExcused(Crashed(w))
  {
  }

  // ---- which registration a call is counted under ----

  predicate Before(known: nat, racing: set<nat>, i: nat) {
    i < known && i !in racing
  }

  /** A call of the tenant made after `from` is counted, if at all, under the observer's registration. */
  predicate Bound(c: Call, o: Observer, from: Instant, epoch: nat) {
    c.tenant == o.tenant && c.epoch == epoch && from < c.at ==>
      && (c.state.Resolved? ==> c.state.registration == o.registration)
      && (c.state.Accepted? ==> ObserverOf(c.state.key) == o)
  }

  ghost predicate AllBound(calls: seq<Call>, o: Observer, from: Instant, epoch: nat) {
    forall i | 0 <= i < |calls| :: Bound(calls[i], o, from, epoch)
  }

  /** While the registration lives, every call made since the observation began is bound to it. */
  ghost predicate ObservedBound(w: World) {
    forall o | o in w.memory.observing && Live(w.db, o) :: AllBound(w.calls, o, w.memory.observing[o].from, w.epoch)
  }

  /** And so is every call a running flush knew as finished. */
  ghost predicate SnapshotBound(w: World) {
    w.flush.Flushing? ==>
      && w.flush.known <= |w.calls|
      && forall o | o in w.flush.observed && Live(w.db, o) ::
           forall i: nat | Before(w.flush.known, w.flush.racing, i) ::
             !InFlight(w.calls[i]) && Bound(w.calls[i], o, w.flush.observed[o].from, w.epoch)
  }

  lemma BoundFinish(w: World, i: nat)
    requires ObservedBound(w) && GoneExcused(w) && Enabled(w, Finish(i))
    ensures ObservedBound(Finished(w, i))
  {
    var c, w' := w.calls[i], Finished(w, i);
    forall o | o in w'.memory.observing && Live(w'.db, o)
      ensures AllBound(w'.calls, o, w'.memory.observing[o].from, w'.epoch)
    {
      if o in w.memory.observing {
        assert AllBound(w.calls, o, w.memory.observing[o].from, w.epoch);
        assert Bound(c, o, w.memory.observing[o].from, w.epoch);
      }
    }
  }

  /** Calls keep their registration, and no observer is newly alive or observed from earlier. */
  lemma BoundKept(w: World, w': World)
    requires ObservedBound(w) && |w.calls| <= |w'.calls| && w'.epoch == w.epoch
    requires forall o | o in w'.memory.observing && Live(w'.db, o) ::
               o in w.memory.observing && Live(w.db, o) && w.memory.observing[o].from <= w'.memory.observing[o].from
    requires forall i | 0 <= i < |w.calls| :: SameRegistration(w.calls[i], w'.calls[i])
    requires forall i | |w.calls| <= i < |w'.calls| :: w'.calls[i].state.Waiting?
    ensures ObservedBound(w')
  {
    forall o | o in w'.memory.observing && Live(w'.db, o)
      ensures AllBound(w'.calls, o, w'.memory.observing[o].from, w'.epoch)
    {
      assert AllBound(w.calls, o, w.memory.observing[o].from, w.epoch);
      forall i | 0 <= i < |w'.calls|
        ensures Bound(w'.calls[i], o, w'.memory.observing[o].from, w'.epoch)
      {
        if i < |w.calls| {
          assert Bound(w.calls[i], o, w.memory.observing[o].from, w.epoch);
        }
      }
    }
  }

  predicate SameRegistration(c: Call, c': Call) {
    && c'.tenant == c.tenant && c'.at == c.at && c'.epoch == c.epoch
    && (c'.state == c.state || (c.state.Accepted? && c'.state.Accepted? && c'.state.key == c.state.key))
  }

  lemma BoundLookup(w: World, i: nat, answered: bool)
    requires ObservedBound(w) && Enabled(w, Lookup(i, answered))
    ensures ObservedBound(LookedUp(w, i, answered))
  {
    var w' := LookedUp(w, i, answered);
    forall o | o in w'.memory.observing && Live(w'.db, o)
      ensures AllBound(w'.calls, o, w'.memory.observing[o].from, w'.epoch)
    {
      assert AllBound(w.calls, o, w.memory.observing[o].from, w.epoch);
    }
  }

  lemma BoundSettle(w: World, o: Observer)
    requires ObservedBound(w) && SnapshotClear(w) && Enabled(w, Settle(o))
    ensures ObservedBound(SettledGroup(w, o))
  {
    BoundKept(w, SettledGroup(w, o));
  }

  lemma BoundStep(w: World, s: Step)
    requires ObservedBound(w) && Issued(w) && GoneExcused(w) && SnapshotClear(w) && Enabled(w, s)
    ensures ObservedBound(Apply(w, s))
  {
    match s
    case Lookup(i, answered) => BoundLookup(w, i, answered);
    case Finish(i) => BoundFinish(w, i);
    case Settle(o) => BoundSettle(w, o);
    case Crash =>
    case _ => BoundElse(w, s);
  }

  lemma BoundElse(w: World, s: Step)
    requires ObservedBound(w) && MemoryIssued(w.memory, w.db) && Enabled(w, s)
    requires !s.Lookup? && !s.Finish? && !s.Settle? && !s.Crash?
    ensures ObservedBound(Apply(w, s))
  {
    var w' := Apply(w, s);
    CallsElse(w, s);
    ObservingElse(w, s);
    BoundKept(w, w');
  }

  lemma CallsElse(w: World, s: Step)
    requires Enabled(w, s) && !s.Lookup? && !s.Finish? && !s.Settle? && !s.Crash?
    ensures |w.calls| <= |Apply(w, s).calls| && Apply(w, s).epoch == w.epoch
    ensures forall i | 0 <= i < |w.calls| :: SameRegistration(w.calls[i], Apply(w, s).calls[i])
    ensures forall i | |w.calls| <= i < |Apply(w, s).calls| :: Apply(w, s).calls[i].state.Waiting?
  {
  }

  lemma ObservingElse(w: World, s: Step)
    requires MemoryIssued(w.memory, w.db) && Enabled(w, s) && !s.Lookup? && !s.Finish? && !s.Settle? && !s.Crash?
    ensures Apply(w, s).memory.observing == w.memory.observing
    ensures forall o | o in w.memory.observing && Live(Apply(w, s).db, o) :: Live(w.db, o)
  {
  }

  lemma SnapshotBoundTaken(w: World)
    requires ObservedBound(w) && Enabled(w, Snapshot)
    ensures SnapshotBound(Snapped(w))
  {
    var w' := Snapped(w);
    forall o, i: nat | o in w'.flush.observed && Live(w'.db, o) && Before(w'.flush.known, w'.flush.racing, i)
      ensures !InFlight(w'.calls[i]) && Bound(w'.calls[i], o, w'.flush.observed[o].from, w'.epoch)
    {
      assert AllBound(w.calls, o, w.memory.observing[o].from, w.epoch);
    }
  }

  /** What a flush knew as finished keeps its registration. */
  lemma SnapshotBoundKept(w: World, w': World)
    requires SnapshotBound(w) && w.flush.Flushing? && w'.flush.Flushing? && |w.calls| <= |w'.calls| && w'.epoch == w.epoch
    requires w'.flush.known == w.flush.known && w'.flush.racing == w.flush.racing && w'.flush.observed == w.flush.observed
    requires forall o | o in w.flush.observed && Live(w'.db, o) :: Live(w.db, o)
    requires forall i | 0 <= i < |w.calls| && !InFlight(w.calls[i]) :: SameRegistration(w.calls[i], w'.calls[i])
    ensures SnapshotBound(w')
  {
    forall o, i: nat | o in w'.flush.observed && Live(w'.db, o) && Before(w'.flush.known, w'.flush.racing, i)
      ensures !InFlight(w'.calls[i]) && Bound(w'.calls[i], o, w'.flush.observed[o].from, w'.epoch)
    {
      assert Bound(w.calls[i], o, w.flush.observed[o].from, w.epoch);
    }
  }

  lemma SnapshotBoundStep(w: World, s: Step)
    requires SnapshotBound(w) && ObservedBound(w) && Issued(w) && Enabled(w, s)
    ensures SnapshotBound(Apply(w, s))
  {
    if s.Snapshot? {
      SnapshotBoundTaken(w);
    } else if Apply(w, s).flush.Flushing? {
      FlushKept(w, s);
      RegistrationsKept(w, s);
      NoneRevived(w, s);
      SnapshotBoundKept(w, Apply(w, s));
    }
  }

  lemma FlushKept(w: World, s: Step)
    requires Enabled(w, s) && !s.Snapshot? && Apply(w, s).flush.Flushing?
    ensures w.flush.Flushing? && Apply(w, s).epoch == w.epoch && !s.Crash?
    ensures
      var f, f' := w.flush, Apply(w, s).flush;
      f'.known == f.known && f'.racing == f.racing && f'.observed == f.observed
  {
    match s
    case Settle(_) =>
    case Transaction(_, _) =>
    case _ =>
  }

  lemma RegistrationsKept(w: World, s: Step)
    requires Enabled(w, s) && !s.Crash?
    ensures |w.calls| <= |Apply(w, s).calls|
    ensures forall i | 0 <= i < |w.calls| && !InFlight(w.calls[i]) :: SameRegistration(w.calls[i], Apply(w, s).calls[i])
  {
    var calls' := Apply(w, s).calls;
    assert |w.calls| <= |calls'| by {
      if w.calls != [] {
        CallStepsOn(w, s, |w.calls| - 1);
      }
    }
    forall i | 0 <= i < |w.calls| && !InFlight(w.calls[i])
      ensures SameRegistration(w.calls[i], calls'[i])
    {
      CallStepsOn(w, s, i);
    }
  }

  lemma NoneRevived(w: World, s: Step)
    requires GroupsIssued(w.flush, w.db) && Enabled(w, s) && w.flush.Flushing?
    ensures forall o | o in w.flush.observed && Live(Apply(w, s).db, o) :: Live(w.db, o)
  {
  }

  // ---- what a running flush holds ----

  /** Usage accepted for `o` is in the batch or beyond it, or was lost with an earlier process. */
  predicate Kept(c: Call, o: Observer, epoch: nat) {
    c.state.Accepted? && ObserverOf(c.state.key) == o ==>
      || c.state.place.InBatch? || c.state.place.Stored? || c.state.place.Erased? || c.state.place.Voided?
      || (c.state.place.Lost? && c.epoch < epoch)
  }

  ghost predicate Held(calls: seq<Call>, f: FlushState, epoch: nat) {
    f.Flushing? ==>
      && f.known <= |calls|
      && (forall i: nat | i < f.known && InFlight(calls[i]) :: i in f.racing)
      && forall o | o in f.observed && o in f.groups && f.groups[o].Ready? :: HeldFor(calls, f, o, epoch)
  }

  /** Every call finished before the snapshot is kept, and one made after the start was accepted. */
  ghost predicate HeldFor(calls: seq<Call>, f: FlushState, o: Observer, epoch: nat)
    requires f.Flushing? && f.known <= |calls| && o in f.observed
  {
    forall i: nat | Before(f.known, f.racing, i) ::
      && Kept(calls[i], o, epoch)
      && (calls[i].tenant == o.tenant && f.observed[o].from < calls[i].at ==> calls[i].state.Accepted? && calls[i].epoch == epoch)
  }

  lemma HeldSnapshot(w: World)
    requires GoneExcused(w) && Open(w) && Dated(w) && Enabled(w, Snapshot)
    ensures Held(Snapped(w).calls, Snapped(w).flush, w.epoch)
  {
    var w' := Snapped(w);
    var f := w'.flush;
    forall o | o in f.observed
      ensures HeldFor(w'.calls, f, o, w.epoch)
    {
      forall i: nat | Before(f.known, f.racing, i)
        ensures Kept(w'.calls[i], o, w.epoch)
        ensures w'.calls[i].tenant == o.tenant && f.observed[o].from < w'.calls[i].at ==>
                  w'.calls[i].state.Accepted? && w'.calls[i].epoch == w.epoch
      {
        HeldAtSnapshot(w, o, i);
      }
    }
  }

  lemma HeldAtSnapshot(w: World, o: Observer, i: nat)
    requires GoneExcused(w) && Open(w) && Dated(w) && o in w.memory.observing && i < |w.calls| && !InFlight(w.calls[i])
    ensures
      var c := Rehomed(w.calls[i], Everyone, InPending, InBatch);
      Kept(c, o, w.epoch) && (c.tenant == o.tenant && w.memory.observing[o].from < c.at ==> c.state.Accepted? && c.epoch == w.epoch)
  {
    assert CallDated(w.calls[i], w.epoch, w.startedAt);
    assert Clear(o, w.memory.observing[o], w.faults, |w.faults|, w.epoch);
    if w.calls[i].tenant == o.tenant && w.memory.observing[o].from < w.calls[i].at {
      assert !Excused(w.calls[i], w.faults, w.startedAt);
    }
  }

  /** A step that changes only calls in flight, or adds one, keeps what a flush holds. */
  lemma HeldFlight(calls: seq<Call>, calls': seq<Call>, f: FlushState, epoch: nat)
    requires Held(calls, f, epoch) && |calls| <= |calls'|
    requires forall i | 0 <= i < |calls| && !InFlight(calls[i]) :: calls'[i] == calls[i]
    ensures Held(calls', f, epoch)
  {
    if f.Flushing? {
      forall o | o in f.observed && o in f.groups && f.groups[o].Ready?
        ensures HeldFor(calls', f, o, epoch)
      {
        assert HeldFor(calls, f, o, epoch);
      }
    }
  }

  /** Moving another observer's calls, or moving kept calls to a kept place, keeps what a flush holds. */
  lemma HeldMoved(calls: seq<Call>, f: FlushState, f': FlushState, s: Scope, src: Place, dst: Place, epoch: nat)
    requires Held(calls, f, epoch) && f.Flushing? && f'.Flushing?
    requires f'.known == f.known && f'.racing == f.racing && f'.observed == f.observed
    requires forall o | o in f'.groups && f'.groups[o].Ready? :: o in f.groups && f.groups[o].Ready? && s != Only(o)
    requires s.Only? || dst.Stored? || dst.Erased?
    ensures Held(Moved(calls, s, src, dst), f', epoch)
  {
    var calls' := Moved(calls, s, src, dst);
    forall o | o in f'.observed && o in f'.groups && f'.groups[o].Ready?
      ensures HeldFor(calls', f', o, epoch)
    {
      HeldForMoved(calls, f, f', s, src, dst, epoch, o);
    }
  }

  lemma HeldForMoved(calls: seq<Call>, f: FlushState, f': FlushState, s: Scope, src: Place, dst: Place, epoch: nat, o: Observer)
    requires f.Flushing? && f'.Flushing? && f.known <= |calls| && o in f.observed && HeldFor(calls, f, o, epoch)
    requires f'.known == f.known && f'.racing == f.racing && f'.observed == f.observed
    requires s != Only(o) && (s.Only? || dst.Stored? || dst.Erased?)
    ensures HeldFor(Moved(calls, s, src, dst), f', o, epoch)
  {
    var calls' := Moved(calls, s, src, dst);
    forall i: nat | Before(f.known, f.racing, i)
      ensures Kept(calls'[i], o, epoch)
      ensures calls'[i].tenant == o.tenant && f.observed[o].from < calls'[i].at ==>
                calls'[i].state.Accepted? && calls'[i].epoch == epoch
    {
      assert Kept(calls[i], o, epoch);
    }
  }

  lemma HeldStep(w: World, s: Step)
    requires Held(w.calls, w.flush, w.epoch) && GoneExcused(w) && Open(w) && Dated(w) && Enabled(w, s)
    ensures Held(Apply(w, s).calls, Apply(w, s).flush, Apply(w, s).epoch)
  {
    match s
    case Tick(_) =>
    case Begin(_, _, _, _) => HeldFlight(w.calls, Apply(w, s).calls, w.flush, w.epoch);
    case Lookup(i, answered) => HeldFlight(w.calls, Apply(w, s).calls, w.flush, w.epoch);
    case Finish(i) => HeldFlight(w.calls, Apply(w, s).calls, w.flush, w.epoch);
    case Snapshot => HeldSnapshot(w);
    case Transaction(o, reached) => HeldTransaction(w, o, reached);
    case Unheard(o) => HeldMoved(w.calls, w.flush, Landed(w, o).flush, Only(o), InBatch, Stored, w.epoch);
    case Settle(o) => HeldSettle(w, o);
    case EndFlush =>
    case Register(_, _) =>
    case Offboard(t) => if w.flush.Flushing? { HeldMoved(w.calls, w.flush, w.flush, OfTenant(t), Stored, Erased, w.epoch); }
    case Crash =>
    case Elsewhere(_, _) =>
  }

  lemma HeldTransaction(w: World, o: Observer, reached: bool)
    requires Held(w.calls, w.flush, w.epoch) && Enabled(w, Transaction(o, reached))
    ensures Held(Transacted(w, o, reached).calls, Transacted(w, o, reached).flush, w.epoch)
  {
    var w' := Transacted(w, o, reached);
    if w'.flush.groups[o].Done? {
      HeldMoved(w.calls, w.flush, w'.flush, Only(o), InBatch, Stored, w.epoch);
    }
  }

  lemma HeldSettle(w: World, o: Observer)
    requires Held(w.calls, w.flush, w.epoch) && Enabled(w, Settle(o))
    ensures Held(SettledGroup(w, o).calls, SettledGroup(w, o).flush, w.epoch)
  {
    var f' := SettledGroup(w, o).flush;
    if w.flush.groups[o].Refused? {
      if w.flush.groups[o].erased {
        HeldMoved(w.calls, w.flush, f', Only(o), InBatch, Voided, w.epoch);
        HeldMoved(Moved(w.calls, Only(o), InBatch, Voided), f', f', Only(o), InPending, Voided, w.epoch);
      } else {
        HeldMoved(w.calls, w.flush, f', Only(o), InBatch, InPending, w.epoch);
      }
    }
  }

  // ---- committed intervals ----

  ghost predicate Vouched(p: Interval, w: World) {
    && ZERO_TIME < p.from < p.until <= w.now
    && p.known <= |w.calls| && p.faultsSeen <= |w.faults| && p.epoch <= w.epoch
    && Clear(Observer(p.tenant, p.registration), Observation(p.from, p.generation), w.faults, p.faultsSeen, p.epoch)
    && forall i: nat | Before(p.known, p.racing, i) :: StoredFor(w.calls[i], p)
  }

  /** Finished; usage accepted for the interval's observer is in the store, or was lost with an earlier process; and a
      call of the tenant made after the interval's start was accepted for that observer and is in the store. */
  predicate StoredFor(c: Call, p: Interval) {
    && !InFlight(c)
    && (c.state.Accepted? && ObserverOf(c.state.key) == Observer(p.tenant, p.registration) ==>
          c.state.place.Stored? || (c.state.place.Lost? && c.epoch < p.epoch))
    && (c.tenant == p.tenant && p.from < c.at ==>
          && c.state.Accepted? && ObserverOf(c.state.key) == Observer(p.tenant, p.registration)
          && c.state.place.Stored? && c.epoch == p.epoch)
  }

  ghost predicate CoverageTruthful(w: World) {
    forall p | p in w.db.coverage :: Live(w.db, Observer(p.tenant, p.registration)) && (p.process == w.me ==> Vouched(p, w))
  }

  /** A call once finished stays what it was, but for where its usage is; stored usage of the tenant stays. */
  predicate SettledCall(c: Call, c': Call, tenant: string) {
    && c'.tenant == c.tenant && c'.at == c.at && c'.epoch == c.epoch
    && (!InFlight(c) && !c.state.Accepted? ==> c' == c)
    && (c.state.Accepted? ==>
          && c'.state.Accepted? && c'.state.key == c.state.key
          && (c.state.place.Lost? || (c.state.place.Stored? && c.state.key.tenant == tenant) ==> c' == c))
  }

  /** An interval is vouched for as before when no call or fault it saw has changed. */
  lemma StillVouched(p: Interval, w: World, w': World)
    requires Vouched(p, w)
    requires w.now <= w'.now && w.epoch <= w'.epoch && w.faults <= w'.faults && |w.calls| <= |w'.calls|
    requires forall i: nat | Before(p.known, p.racing, i) :: SettledCall(w.calls[i], w'.calls[i], p.tenant)
    ensures Vouched(p, w')
  {
    forall i: nat | Before(p.known, p.racing, i)
      ensures StoredFor(w'.calls[i], p)
    {
      assert StoredFor(w.calls[i], p);
    }
  }

  lemma StoredOnCommit(w: World, o: Observer, i: nat)
    requires w.flush.Flushing? && o in w.flush.observed && w.flush.known <= |w.calls| && HeldFor(w.calls, w.flush, o, w.epoch)
    requires Before(w.flush.known, w.flush.racing, i) && !InFlight(w.calls[i]) && CallIssued(w.calls[i], w.db) && Live(w.db, o)
    requires Bound(w.calls[i], o, w.flush.observed[o].from, w.epoch)
    ensures StoredFor(Rehomed(w.calls[i], Only(o), InBatch, Stored), IntervalOf(w.flush, w.me, w.epoch, o))
  {
    assert Kept(w.calls[i], o, w.epoch);
  }

  /** The transaction that commits an interval stores the last of what the interval vouches for. */
  lemma VouchedOnCommit(w: World, o: Observer, reached: bool)
    requires Issued(w) && Open(w) && SnapshotClear(w) && Held(w.calls, w.flush, w.epoch) && SnapshotBound(w)
    requires Enabled(w, Transaction(o, reached)) && o in w.flush.observed && Transacted(w, o, reached).flush.groups[o].Done?
    requires w.flush.observed[o].from < w.flush.until
    ensures Vouched(IntervalOf(w.flush, w.me, w.epoch, o), Transacted(w, o, reached))
  {
    var p, w' := IntervalOf(w.flush, w.me, w.epoch, o), Transacted(w, o, reached);
    assert Clear(o, w.flush.observed[o], w.faults, w.flush.faultsSeen, w.epoch);
    assert HeldFor(w.calls, w.flush, o, w.epoch);
    forall i: nat | Before(p.known, p.racing, i)
      ensures StoredFor(w'.calls[i], p)
    {
      assert CallIssued(w.calls[i], w.db);
      assert Bound(w.calls[i], o, w.flush.observed[o].from, w.epoch);
      StoredOnCommit(w, o, i);
    }
  }

  /** What was vouched for before a transaction still is. */
  lemma VouchedThrough(w: World, o: Observer, reached: bool, p: Interval)
    requires Vouched(p, w) && Enabled(w, Transaction(o, reached))
    ensures Vouched(p, Transacted(w, o, reached))
  {
    StillVouched(p, w, Transacted(w, o, reached));
  }

  lemma TruthfulTransaction(w: World, o: Observer, reached: bool)
    requires CoverageTruthful(w) && Issued(w) && Open(w) && SnapshotClear(w) && Held(w.calls, w.flush, w.epoch)
    requires SnapshotBound(w) && Enabled(w, Transaction(o, reached))
    ensures CoverageTruthful(Transacted(w, o, reached))
  {
    var w' := Transacted(w, o, reached);
    forall p | p in w'.db.coverage
      ensures Live(w'.db, Observer(p.tenant, p.registration)) && (p.process == w.me ==> Vouched(p, w'))
    {
      if p in w.db.coverage {
        if p.process == w.me {
          VouchedThrough(w, o, reached, p);
        }
      } else {
        VouchedOnCommit(w, o, reached);
      }
    }
  }

  /** An unheard commit leaves in the tables what a heard one does. */
  lemma TruthfulUnheard(w: World, o: Observer)
    requires CoverageTruthful(w) && Issued(w) && Open(w) && SnapshotClear(w) && Held(w.calls, w.flush, w.epoch)
    requires SnapshotBound(w) && Enabled(w, Unheard(o))
    ensures CoverageTruthful(Landed(w, o))
  {
    TruthfulTransaction(w, o, true);
    SameVouching(Transacted(w, o, true), Landed(w, o));
  }

  lemma SameVouching(w: World, w': World)
    requires CoverageTruthful(w) && w'.db == w.db && w'.me == w.me && w'.calls == w.calls
    requires w'.faults == w.faults && w'.now == w.now && w'.epoch == w.epoch
    ensures CoverageTruthful(w')
  {
    forall p | p in w'.db.coverage && p.process == w'.me
      ensures Vouched(p, w')
    {
      assert Vouched(p, w);
    }
  }

  lemma TruthfulOther(w: World, s: Step)
    requires CoverageTruthful(w) && Enabled(w, s) && !s.Transaction? && !s.Unheard?
    ensures CoverageTruthful(Apply(w, s))
  {
    var w' := Apply(w, s);
    forall p | p in w'.db.coverage
      ensures Live(w'.db, Observer(p.tenant, p.registration)) && (p.process == w.me ==> Vouched(p, w'))
    {
      assert p.process == w.me ==> p in w.db.coverage;
      if p.process == w.me {
        SettledThrough(w, s, p);
        StillVouched(p, w, w');
      }
    }
  }

  lemma SettledThrough(w: World, s: Step, p: Interval)
    requires Enabled(w, s) && !s.Transaction? && !s.Unheard? && (s.Offboard? ==> s.tenant != p.tenant)
    requires Vouched(p, w)
    ensures forall i: nat | Before(p.known, p.racing, i) :: SettledCall(w.calls[i], Apply(w, s).calls[i], p.tenant)
  {
    forall i: nat | Before(p.known, p.racing, i)
      ensures SettledCall(w.calls[i], Apply(w, s).calls[i], p.tenant)
    {
      assert StoredFor(w.calls[i], p);
      SettledOne(w, s, p.tenant, i);
    }
  }

  lemma SettledOne(w: World, s: Step, tenant: string, i: nat)
    requires Enabled(w, s) && !s.Transaction? && !s.Unheard? && (s.Offboard? ==> s.tenant != tenant)
    requires i < |w.calls|
    ensures SettledCall(w.calls[i], Apply(w, s).calls[i], tenant)
  {
    match s
    case Begin(_, _, _, _) => assert Apply(w, s).calls[i] == w.calls[i];
    case Snapshot =>
    case Settle(_) =>
    case Offboard(_) =>
    case Crash =>
    case _ =>
  }
}
