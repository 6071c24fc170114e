/**
 The limits of a recorder's coverage: runs in which a call lies inside a committed interval although its
 usage was never stored.
 */
module RecorderEscapes {
  import opened Clock
  import opened RecorderMemory
  import opened RecorderWorld
  import opened RecorderSafety
  import opened RecorderTheorems

  /** The interval covers the call's instant, and the call was dropped. */
  ghost predicate Escaped(w: World, p: Interval, i: nat) {
    p in w.db.coverage && i < |w.calls| && w.calls[i].state == Dropped && w.calls[i].tenant == p.tenant
    && p.from <= w.calls[i].at < p.until
  }

  // ---- committing an interval ----

  /** A live observer under observation, no flush running, and an instant already observed. */
  ghost predicate Observing(w: World, o: Observer, at: Instant) {
    Reachable(w) && w.flush.Idle? && o in w.memory.observing && Live(w.db, o) && w.memory.observing[o].from <= at < w.now
  }

  /** A call of the observer's tenant in flight inside the observation. */
  ghost predicate Racing(w: World, o: Observer, i: nat) {
    i < |w.calls| && Observing(w, o, w.calls[i].at) && InFlight(w.calls[i]) && w.calls[i].tenant == o.tenant
  }

  lemma FlushReaches(w: World, o: Observer, at: Instant)
    requires Observing(w, o, at)
    ensures o in Snapped(w).flush.groups && Reachable(Transacted(Snapped(w), o, true))
  {
    ReachableStep(w, Snapshot);
    assert Enabled(Snapped(w), Transaction(o, true));
    ReachableStep(Snapped(w), Transaction(o, true));
  }

  lemma FlushCovers(w: World, o: Observer)
    requires w.flush.Idle? && o in w.memory.observing && Live(w.db, o) && o.tenant != "" && o.registration != ""
    requires ZERO_TIME < w.memory.observing[o].from < w.now
    ensures IntervalOf(Snapped(w).flush, w.me, w.epoch, o) in Transacted(Snapped(w), o, true).db.coverage
  {
  }

  /** Flushing here commits the observation up to now, and leaves the calls where they were. */
  lemma IntervalCommitted(w: World, o: Observer, at: Instant) returns (w': World, p: Interval)
    requires Observing(w, o, at)
    ensures Reachable(w') && p in w'.db.coverage && p.process == w'.me && p.tenant == o.tenant
    ensures p.from == w.memory.observing[o].from && p.until == w.now && p.known == |w.calls| && p.racing == RacingCalls(w.calls)
    ensures w'.now == w.now && |w'.calls| == |w.calls|
    ensures forall i | 0 <= i < |w.calls| ::
              w'.calls[i].tenant == w.calls[i].tenant && w'.calls[i].at == w.calls[i].at
              && (!w.calls[i].state.Accepted? ==> w'.calls[i] == w.calls[i])
  {
    assert o.tenant != "" && o.registration != "" && ZERO_TIME < w.memory.observing[o].from by {
      InvariantReached(w);
      assert LiveIssued(w.db) && Open(w);
    }
    FlushReaches(w, o, at);
    FlushCovers(w, o);
    p := IntervalOf(Snapped(w).flush, w.me, w.epoch, o);
    w' := Transacted(Snapped(w), o, true);
  }

  /** A call between its two locked sections at the snapshot: it is covered, and gone if the process then dies. */
  lemma RacingCallCanEscape(w: World, o: Observer, i: nat)
    requires Racing(w, o, i)
    ensures exists w': World, p: Interval :: Reachable(w') && Escaped(w', p, i) && p.process == w'.me && i in p.racing
  {
    var w1, p := IntervalCommitted(w, o, w.calls[i].at);
    assert Enabled(w1, Crash);
    ReachableStep(w1, Crash);
    assert Escaped(Apply(w1, Crash), p, i);
  }

  /** A call that has read its time but not taken its ticket at the snapshot: the snapshot does not know it. */
  lemma LateTicketCanEscape(w: World, o: Observer, meter: string, delta: nat, at: Instant)
    requires Observing(w, o, at) && meter != "" && 0 < delta
    ensures exists w': World, p: Interval :: Reachable(w') && Escaped(w', p, |w.calls|) && p.process == w'.me && p.known <= |w.calls|
  {
    InvariantReached(w);
    var w1, p := IntervalCommitted(w, o, at);
    assert ZERO_TIME < at && o.tenant != "" by {
      assert Open(w) && LiveIssued(w.db);
    }
    var begin := Begin(o.tenant, meter, delta, at);
    var w2 := Apply(w1, begin);
    ReachableStep(w1, begin);
    assert Enabled(w2, Crash);
    ReachableStep(w2, Crash);
    assert Escaped(Apply(w2, Crash), p, |w.calls|);
  }

  // ---- such states are reached ----

  /** A whole call: ticket, lookup and second section, with nothing in between. */
  ghost function CallDone(w: World, t: string, m: string, at: Instant, answered: bool): World {
    var w2 := LookedUp(Begun(w, t, m, 1, at), |w.calls|, answered);
    Finished(w2, |w.calls|)
  }

  lemma CallDoneReached(w: World, t: string, m: string, at: Instant, answered: bool)
    requires Reachable(w) && Enabled(w, Begin(t, m, 1, at))
    ensures Reachable(CallDone(w, t, m, at, answered))
  {
    var n := |w.calls|;
    ReachableStep(w, Begin(t, m, 1, at));
    var w1 := Begun(w, t, m, 1, at);
    assert Enabled(w1, Lookup(n, answered));
    ReachableStep(w1, Lookup(n, answered));
    var w2 := LookedUp(w1, n, answered);
    assert Enabled(w2, Finish(n));
    ReachableStep(w2, Finish(n));
  }

  /** Answered, the call is queued and may open an observation; unanswered, with no registration known, it is
      dropped and ends the tenant's observations. */
  ghost predicate CallMade(w: World, w': World, t: string, at: Instant, answered: bool)
    requires t in w.db.live
  {
    && w'.now == w.now && w'.db == w.db && w'.flush == w.flush && w'.me == w.me
    && |w'.calls| == |w.calls| + 1 && w'.calls[..|w.calls|] == w.calls
    && w'.calls[|w.calls|].tenant == t && w'.calls[|w.calls|].at == at
    && var o := Observer(t, w.db.live[t]);
       if answered then
         && w'.calls[|w.calls|].state.Accepted? && o in w'.memory.observing
         && (o !in w.memory.observing ==> w'.memory.observing[o].from == w.now)
       else
         && w'.calls[|w.calls|].state == Dropped && w'.memory.registrations == w.memory.registrations
         && o !in w'.memory.observing
  }

  lemma CallEffect(w: World, t: string, m: string, at: Instant, answered: bool)
    requires t in w.db.live && t !in w.memory.registrations
    ensures CallMade(w, CallDone(w, t, m, at, answered), t, at, answered)
  {
  }

  lemma OneCall(w: World, t: string, m: string, at: Instant, answered: bool) returns (w': World)
    requires Reachable(w) && Enabled(w, Begin(t, m, 1, at)) && t in w.db.live && t !in w.memory.registrations
    ensures Reachable(w') && CallMade(w, w', t, at, answered)
  {
    CallDoneReached(w, t, m, at, answered);
    CallEffect(w, t, m, at, answered);
    w' := CallDone(w, t, m, at, answered);
  }

  lemma Registered(t: string, r: string) returns (w: World)
    requires t != "" && r != ""
    ensures Reachable(w) && w == Apply(Starting(0), Register(t, r))
  {
    ReachableInitially(0);
    w := Apply(Starting(0), Register(t, r));
    ReachableStep(Starting(0), Register(t, r));
  }

  /** An observed tenant with a call in flight inside its observation. */
  lemma RacingStateIsReached(t: string, r: string, m: string)
    requires t != "" && r != "" && m != ""
    ensures exists w: World, o: Observer, i: nat :: Racing(w, o, i)
  {
    var w1 := Registered(t, r);
    var w2 := OneCall(w1, t, m, 1, true);
    ReachableStep(w2, Tick(2));
    var w3 := Apply(w2, Tick(2));
    var begin := Begin(t, m, 1, 2);
    ReachableStep(w3, begin);
    var w4 := Apply(w3, begin);
    ReachableStep(w4, Tick(3));
    var w5 := Apply(w4, Tick(3));
    var o := Observer(t, r);
    assert w5.memory.observing[o].from == 1 && w5.calls[1].at == 2;
    assert Racing(w5, o, 1);
  }

  /** A call at the very instant an interval starts, finished before the snapshot and not racing, can have been
      dropped: its failed lookup and the observation's start fall on the same instant. */
  lemma StartInstantCanEscape(t: string, r: string, m: string)
    requires t != "" && r != "" && m != ""
    ensures exists w: World, p: Interval, i: nat ::
              Reachable(w) && Escaped(w, p, i) && p.process == w.me && i < p.known && i !in p.racing && w.calls[i].at == p.from
  {
    var w1 := Registered(t, r);
    var w2 := OneCall(w1, t, m, 1, false);
    var w3 := OneCall(w2, t, m, 1, true);
    assert w3.calls[0] == w3.calls[..1][0] == w2.calls[0];
    ReachableStep(w3, Tick(2));
    var w4 := Apply(w3, Tick(2));
    var o := Observer(t, r);
    assert Observing(w4, o, 1);
    var w5, p := IntervalCommitted(w4, o, 1);
    assert Escaped(w5, p, 0) && p.process == w5.me && 0 < p.known && 0 !in p.racing && w5.calls[0].at == p.from;
  }
}
