/**
 What a flush does, over every run: each group's transaction commits what the snapshot found, and its settlement
 leaves the memory as the answer asks.
 */
module RecorderFlushes {
  import opened Clock
  import opened RecorderMemory
  import opened RecorderWorld
  import opened RecorderAccounting
  import opened RecorderSafety
  import opened RecorderTheorems

  /** No flush begins or ends strictly between the two steps. */
  ghost predicate SameFlush(steps: seq<Step>, a: nat, b: nat)
    requires b <= |steps|
  {
    forall i | a < i < b :: !steps[i].Snapshot? && !steps[i].EndFlush? && !steps[i].Crash?
  }

  /** The flush works on what the snapshot found. */
  ghost predicate FlushOfSnapshot(f: FlushState, s: World) {
    f.Flushing? && f.until == s.now && f.observed == s.memory.observing && f.batch == s.memory.pending && f.known == |s.calls|
  }

  lemma SnapshotTaken(w: World)
    requires w.flush.Idle?
    ensures FlushOfSnapshot(Snapped(w).flush, w) && Snapped(w).memory == w.memory.(pending := map[])
  {
  }

  lemma FlushGoesOn(w: World, s: Step, from: World)
    requires Enabled(w, s) && FlushOfSnapshot(w.flush, from) && !s.EndFlush? && !s.Crash?
    ensures FlushOfSnapshot(Apply(w, s).flush, from)
  {
    match s
    case Settle(_) =>
    case Transaction(_, _) =>
    case _ =>
  }

  lemma {:induction false} FlushThroughout(worlds: seq<World>, steps: seq<Step>, a: nat, b: nat)
    requires Run(worlds, steps) && a < b < |worlds| && steps[a].Snapshot? && SameFlush(steps, a, b)
    ensures FlushOfSnapshot(worlds[b].flush, worlds[a])
    decreases b
  {
    if b == a + 1 {
      SnapshotTaken(worlds[a]);
    } else {
      FlushThroughout(worlds, steps, a, b - 1);
      FlushGoesOn(worlds[b - 1], steps[b - 1], worlds[a]);
    }
  }

  // ---- the transaction ----

  /** The tables gain exactly what the snapshot held of the observer: its counters, and, if it was observed for any
      time, the interval up to the snapshot. */
  ghost predicate Commits(s: World, w: World, w': World, o: Observer) {
    && w'.db.live == w.db.live
    && (forall r: Row ::
          RowAmount(w'.db.rows, r) ==
          RowAmount(w.db.rows, r) + if r.tenant == o.tenant then Amount(s.memory.pending, KeyOf(r, o.registration)) else 0)
    && if o in s.memory.observing && s.memory.observing[o].from < s.now then
         && |w'.db.coverage| == |w.db.coverage| + 1 && w'.db.coverage[..|w.db.coverage|] == w.db.coverage
         && Observes(w'.db.coverage[|w.db.coverage|], s, o)
       else w'.db.coverage == w.db.coverage
  }

  ghost predicate Observes(p: Interval, s: World, o: Observer) {
    && p.tenant == o.tenant && p.registration == o.registration && p.process == s.me
    && o in s.memory.observing && p.from == s.memory.observing[o].from && p.until == s.now
    && p.known == |s.calls|
  }

  lemma LiveGroupCommits(w: World, s: World, o: Observer)
    requires FlushOfSnapshot(w.flush, s) && Live(w.db, o) && LiveIssued(w.db) && w.me == s.me
    requires o in s.memory.observing ==> ZERO_TIME < s.memory.observing[o].from <= s.now
    requires ZERO_TIME <= s.now
    ensures FlushOf(w, o).1 == Committed && Commits(s, w, w.(db := FlushOf(w, o).0), o)
  {
    var p := IntervalOf(w.flush, w.me, w.epoch, o);
    assert !ForeignCounter(GroupOf(w.flush.batch, o), p.tenant);
    forall r: Row
      ensures RowAmount(FlushOf(w, o).0.rows, r) ==
              RowAmount(w.db.rows, r) + if r.tenant == o.tenant then Amount(s.memory.pending, KeyOf(r, o.registration)) else 0
    {
      AddedRowsAmount(w.db.rows, GroupOf(w.flush.batch, o), o.registration, r);
    }
  }

  lemma GoneGroupFails(w: World, o: Observer)
    requires w.flush.Flushing? && !Live(w.db, o)
    ensures FlushOf(w, o).1 != Committed && FlushOf(w, o).0 == w.db
  {
  }

  lemma {:induction false} SameMe(worlds: seq<World>, steps: seq<Step>, n: nat)
    requires Run(worlds, steps) && n < |worlds|
    ensures worlds[n].me == worlds[0].me
  {
    if n > 0 {
      SameMe(worlds, steps, n - 1);
    }
  }

  lemma FlushFacts(worlds: seq<World>, steps: seq<Step>, a: nat, b: nat)
    requires Run(worlds, steps) && a < b < |worlds| && steps[a].Snapshot? && SameFlush(steps, a, b)
    ensures FlushOfSnapshot(worlds[b].flush, worlds[a]) && worlds[b].me == worlds[a].me && LiveIssued(worlds[b].db)
    ensures ZERO_TIME <= worlds[a].now
    ensures forall o | o in worlds[a].memory.observing ::
              ZERO_TIME < worlds[a].memory.observing[o].from <= worlds[a].now
  {
    FlushThroughout(worlds, steps, a, b);
    SameMe(worlds, steps, a);
    SameMe(worlds, steps, b);
    InvariantThroughout(worlds, steps, a);
    InvariantThroughout(worlds, steps, b);
  }

  /** A transaction that reaches the store commits what the snapshot found of a live observer; of one that is gone, or
      when the store is not reached, nothing. */
  lemma FlushCommitsSnapshot(worlds: seq<World>, steps: seq<Step>, a: nat, b: nat, o: Observer, reached: bool)
    requires Run(worlds, steps) && a < b < |steps| && steps[a].Snapshot? && SameFlush(steps, a, b)
    requires steps[b] == Transaction(o, reached)
    ensures reached && Live(worlds[b].db, o) ==> Commits(worlds[a], worlds[b], worlds[b + 1], o)
    ensures !(reached && Live(worlds[b].db, o)) ==> worlds[b + 1].db == worlds[b].db
    ensures worlds[b + 1].memory == worlds[b].memory
  {
    FlushFacts(worlds, steps, a, b);
    if Live(worlds[b].db, o) {
      LiveGroupCommits(worlds[b], worlds[a], o);
    } else {
      GoneGroupFails(worlds[b], o);
    }
  }

  // ---- the settlement ----

  /** The answer a group waits with: committed, gone, or failed. */
  function Answer(w: World, s: Step): GroupState
    requires s.Transaction? || s.Unheard?
  {
    if s.Unheard? || !s.reached then Refused(false) else if Live(w.db, s.o) then Done else Refused(true)
  }

  lemma AnswerGiven(w: World, s: Step, from: World, o: Observer)
    requires Enabled(w, s) && (s.Transaction? || s.Unheard?) && s.o == o && FlushOfSnapshot(w.flush, from) && LiveIssued(w.db) && w.me == from.me
    requires ZERO_TIME <= from.now && (o in from.memory.observing ==> ZERO_TIME < from.memory.observing[o].from <= from.now)
    requires o.tenant != "" && o.registration != ""
    ensures Apply(w, s).flush.Flushing? && o in Apply(w, s).flush.groups && Apply(w, s).flush.groups[o] == Answer(w, s)
  {
    if Live(w.db, o) {
      LiveGroupCommits(w, from, o);
    } else {
      var p := IntervalOf(w.flush, w.me, w.epoch, o);
      assert !ForeignCounter(GroupOf(w.flush.batch, o), p.tenant);
    }
  }

  /** An answer waits until it is settled. */
  ghost predicate Waits(f: FlushState, o: Observer, g: GroupState) {
    f.Flushing? && o in f.groups && (f.groups[o] == g || f.groups[o] == Settled)
  }

  lemma AnswerWaits(w: World, s: Step, o: Observer, g: GroupState)
    requires Enabled(w, s) && !s.Snapshot? && !s.EndFlush? && !s.Crash? && g != Ready && Waits(w.flush, o, g)
    ensures Waits(Apply(w, s).flush, o, g)
  {
    match s
    case Settle(p) => SettleGroups(w, p);
    case Transaction(p, reached) => TransactionGroups(w, p, reached);
    case Unheard(_) =>
    case _ => OtherGroups(w, s);
  }

  lemma SettleGroups(w: World, o: Observer)
    requires Enabled(w, Settle(o))
    ensures SettledGroup(w, o).flush.Flushing? && SettledGroup(w, o).flush.groups == w.flush.groups[o := Settled]
  {
  }

  lemma TransactionGroups(w: World, o: Observer, reached: bool)
    requires Enabled(w, Transaction(o, reached))
    ensures
      var f := Transacted(w, o, reached).flush;
      f.Flushing? && o in f.groups && f.groups == w.flush.groups[o := f.groups[o]] && w.flush.groups[o].Ready?
  {
  }

  lemma OtherGroups(w: World, s: Step)
    requires Enabled(w, s) && w.flush.Flushing? && !s.Settle? && !s.Transaction? && !s.Unheard?
    requires !s.Snapshot? && !s.EndFlush? && !s.Crash?
    ensures Apply(w, s).flush == w.flush
  {
  }

  lemma {:induction false} AnswerWaitsOn(worlds: seq<World>, steps: seq<Step>, t: nat, b: nat, o: Observer, g: GroupState)
    requires Run(worlds, steps) && t < b < |worlds| && SameFlush(steps, t, b) && g != Ready && Waits(worlds[t + 1].flush, o, g)
    ensures Waits(worlds[b].flush, o, g)
    decreases b
  {
    if t + 1 < b {
      AnswerWaitsOn(worlds, steps, t, b - 1, o, g);
      AnswerWaits(worlds[b - 1], steps[b - 1], o, g);
    }
  }

  /** What settling leaves of the memory: after a commit an observation unchanged since the snapshot starts where the
      committed interval ended; a registration that is gone leaves neither observation nor counters; otherwise all the
      snapshot held of the observer is queued again. */
  ghost predicate Settles(s: World, w: World, w': World, o: Observer, g: GroupState) {
    && (forall p | p != o :: p in w'.memory.observing <==> p in w.memory.observing)
    && (forall p | p != o && p in w.memory.observing :: w'.memory.observing[p] == w.memory.observing[p])
    && (forall k: Key | ObserverOf(k) != o :: Amount(w'.memory.pending, k) == Amount(w.memory.pending, k))
    && match g
       case Done =>
         && w'.memory.pending == w.memory.pending
         && (o in w'.memory.observing <==> o in w.memory.observing)
         && (o in w.memory.observing ==>
               if o in s.memory.observing && w.memory.observing[o] == s.memory.observing[o]
               then w'.memory.observing[o].from == s.now && w'.memory.observing[o].generation == w.memory.observing[o].generation
               else w'.memory.observing[o] == w.memory.observing[o])
       case Refused(erased) =>
         if erased then
           o !in w'.memory.observing && forall k: Key | ObserverOf(k) == o :: Amount(w'.memory.pending, k) == 0
         else
           && w'.memory.observing == w.memory.observing
           && forall k: Key | ObserverOf(k) == o ::
                Amount(w'.memory.pending, k) == Amount(w.memory.pending, k) + Amount(s.memory.pending, k)
       case _ => true
  }

  lemma GroupSettles(s: World, w: World, o: Observer)
    requires FlushOfSnapshot(w.flush, s) && Enabled(w, Settle(o))
    ensures Settles(s, w, SettledGroup(w, o), o, w.flush.groups[o])
  {
  }

  lemma ObserverNamed(worlds: seq<World>, steps: seq<Step>, t: nat, o: Observer)
    requires Run(worlds, steps) && t < |worlds| && worlds[t].flush.Flushing? && o in worlds[t].flush.groups
    ensures o.tenant != "" && o.registration != ""
  {
    InvariantThroughout(worlds, steps, t);
    RegisteredNamed(worlds, steps, t, o);
  }

  lemma {:induction false} RegisteredNamed(worlds: seq<World>, steps: seq<Step>, t: nat, o: Observer)
    requires Run(worlds, steps) && t < |worlds| && o in worlds[t].db.registered
    ensures o.tenant != "" && o.registration != ""
    decreases t
  {
    if o !in worlds[t - 1].db.registered {
      NewlyRegistered(worlds[t - 1], steps[t - 1], o);
    } else {
      RegisteredNamed(worlds, steps, t - 1, o);
    }
  }

  lemma NewlyRegistered(w: World, s: Step, o: Observer)
    requires Enabled(w, s) && o !in w.db.registered && o in Apply(w, s).db.registered
    ensures o.tenant != "" && o.registration != ""
  {
  }

  /** Over any run: the settlement of a group follows the answer its transaction met. */
  lemma FlushSettlesAsAnswered(worlds: seq<World>, steps: seq<Step>, a: nat, t: nat, b: nat, o: Observer)
    requires Run(worlds, steps) && a < t < b < |steps| && steps[a].Snapshot? && SameFlush(steps, a, b)
    requires (steps[t].Transaction? || steps[t].Unheard?) && steps[t].o == o && steps[b] == Settle(o)
    ensures Settles(worlds[a], worlds[b], worlds[b + 1], o, Answer(worlds[t], steps[t]))
  {
    FlushFacts(worlds, steps, a, t);
    FlushThroughout(worlds, steps, a, b);
    ObserverNamed(worlds, steps, t, o);
    var g := Answer(worlds[t], steps[t]);
    AnswerGiven(worlds[t], steps[t], worlds[a], o);
    AnswerWaitsOn(worlds, steps, t, b, o, g);
    GroupSettles(worlds[a], worlds[b], o);
  }
}
