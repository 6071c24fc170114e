/**
 Usage counted twice: a flush whose transaction commits but whose answer is lost queues its deltas again. When
 conservation is exact in spite of it, and when it is not.
 */
module RecorderEchoes {
  import opened RecorderMemory
  import opened RecorderWorld
  import opened RecorderAccounting
  import opened RecorderSafety
  import opened RecorderTheorems

  /** Accepted usage is all that is queued, in the flush, in the row, erased, voided or lost. */
  ghost predicate Exact(w: World, k: Key) {
    AcceptedTotal(w.calls, k) ==
      Amount(w.memory.pending, k) + InHand(w.flush, k)
      + (if Live(w.db, ObserverOf(k)) then RowAmount(w.db.rows, RowOf(k)) - RowAmount(w.others, RowOf(k)) else 0)
      + Total(w.calls, k, Erased) + Total(w.calls, k, Voided) + Total(w.calls, k, Lost)
  }

  /** The step stores usage of the key without hearing of it. */
  ghost predicate Repeats(w: World, s: Step, k: Key) {
    s.Unheard? && w.flush.Flushing? && ObserverOf(k) == s.o && 0 < Amount(w.flush.batch, k)
  }

  // ---- how echoes come and go ----

  /** A tenant that is gone has left no echo in the rows. */
  ghost predicate DeadSilent(w: World) {
    forall r: Row | r.tenant !in w.db.live :: RowAmount(w.echo.rows, r) == 0
  }

  lemma DeadSilentStep(w: World, s: Step)
    requires DeadSilent(w) && Enabled(w, s)
    ensures DeadSilent(Apply(w, s))
  {
    match s
    case Transaction(o, reached) => DeadSilentHeard(w, o, reached);
    case Unheard(o) => DeadSilentStored(w, o);
    case _ => DeadSilentElse(w, s);
  }

  lemma DeadSilentHeard(w: World, o: Observer, reached: bool)
    requires DeadSilent(w) && Enabled(w, Transaction(o, reached))
    ensures DeadSilent(Transacted(w, o, reached))
  {
    DeadSilentStored(w, o);
  }

  lemma DeadSilentElse(w: World, s: Step)
    requires DeadSilent(w) && Enabled(w, s) && !s.Transaction? && !s.Unheard?
    ensures DeadSilent(Apply(w, s))
  {
  }

  lemma DeadSilentStored(w: World, o: Observer)
    requires DeadSilent(w)
    ensures forall r: Row | r.tenant !in w.db.live && r.tenant != o.tenant :: RowAmount(EchoStored(w.echo, o).rows, r) == 0
  {
    forall r: Row | r.tenant !in w.db.live && r.tenant != o.tenant
      ensures RowAmount(EchoStored(w.echo, o).rows, r) == 0
    {
      AddedRowsAmount(w.echo.rows, GroupOf(w.echo.batch, o), o.registration, r);
    }
  }

  lemma {:induction false} DeadSilentThroughout(worlds: seq<World>, steps: seq<Step>, n: nat)
    requires Run(worlds, steps) && n < |worlds|
    ensures DeadSilent(worlds[n])
    decreases n
  {
    if n > 0 {
      DeadSilentThroughout(worlds, steps, n - 1);
      DeadSilentStep(worlds[n - 1], steps[n - 1]);
    }
  }

  /** Committing a group moves its echoes to the rows. */
  lemma EchoesStored(w: World, o: Observer, k: Key)
    requires Live(w.db, o)
    ensures
      var e := EchoStored(w.echo, o);
      Live(w.db, ObserverOf(k)) ==>
        && Amount(e.batch, k) == (if ObserverOf(k) == o then 0 else Amount(w.echo.batch, k))
        && RowAmount(e.rows, RowOf(k)) == RowAmount(w.echo.rows, RowOf(k)) + if ObserverOf(k) == o then Amount(w.echo.batch, k) else 0
  {
    AddedRowsAmount(w.echo.rows, GroupOf(w.echo.batch, o), o.registration, RowOf(k));
  }

  lemma EchoHeard(w: World, o: Observer, reached: bool, k: Key)
    requires Enabled(w, Transaction(o, reached))
    ensures Echoed(Transacted(w, o, reached), k) == Echoed(w, k)
  {
    if Transacted(w, o, reached).flush.groups[o].Done? {
      EchoesStored(w, o, k);
    }
  }

  /** An unheard commit echoes all that the group held of the key. */
  lemma EchoUnheard(w: World, o: Observer, k: Key)
    requires Accounted(w) && Enabled(w, Unheard(o))
    ensures Echoed(Landed(w, o), k) == Echoed(w, k) + if ObserverOf(k) == o then Amount(w.flush.batch, k) else 0
  {
    EchoesStored(w, o, k);
    assert InHand(w.flush, k) == Total(w.calls, k, InBatch) + Amount(w.echo.batch, k);
  }

  lemma EchoSettle(w: World, o: Observer, k: Key)
    requires GroupsIssued(w.flush, w.db) && Enabled(w, Settle(o))
    ensures Echoed(SettledGroup(w, o), k) <= Echoed(w, k)
    ensures Live(w.db, ObserverOf(k)) ==> Echoed(SettledGroup(w, o), k) == Echoed(w, k)
  {
    var e, e' := w.echo, SettledGroup(w, o).echo;
    assert w.flush.groups[o] == Refused(true) ==> !Live(w.db, o);
    assert e'.rows == e.rows && SettledGroup(w, o).db == w.db;
    if w.flush.groups[o] == Refused(false) {
      EchoReturned(e, o, k);
    }
  }

  lemma EchoReturned(e: Echo, o: Observer, k: Key)
    ensures Amount(Merged(e.pending, GroupOf(e.batch, o)), k) + Amount(Without(e.batch, o), k) ==
            Amount(e.pending, k) + Amount(e.batch, k)
  {
  }

  lemma EchoSnapshot(w: World, k: Key)
    requires Accounted(w) && w.flush.Idle?
    ensures Echoed(Snapped(w), k) == Echoed(w, k)
  {
    assert InHand(w.flush, k) == Total(w.calls, k, InBatch) + Amount(w.echo.batch, k);
  }

  lemma EchoElse(w: World, s: Step, k: Key)
    requires DeadSilent(w) && Enabled(w, s) && !s.Transaction? && !s.Unheard? && !s.Settle? && !s.Snapshot?
    ensures Echoed(Apply(w, s), k) <= Echoed(w, k)
    ensures Live(Apply(w, s).db, ObserverOf(k)) && !s.Crash? ==> Echoed(Apply(w, s), k) == Echoed(w, k)
  {
  }

  /** Only an unheard commit adds echoes, and while its registration lives only a crash takes any away. */
  lemma EchoAfter(w: World, s: Step, k: Key)
    requires Accounted(w) && GroupsIssued(w.flush, w.db) && DeadSilent(w) && Enabled(w, s)
    ensures EchoesFollow(w, s, Apply(w, s), k)
  {
    match s
    case Transaction(o, reached) => EchoHeard(w, o, reached, k);
    case Unheard(o) => EchoUnheard(w, o, k);
    case Settle(o) => EchoSettle(w, o, k);
    case Snapshot => EchoSnapshot(w, k);
    case _ => EchoElse(w, s, k);
  }

  lemma EchoAcross(w: World, s: Step, w': World, k: Key)
    requires Accounted(w) && GroupsIssued(w.flush, w.db) && DeadSilent(w) && Enabled(w, s) && w' == Apply(w, s)
    ensures EchoesFollow(w, s, w', k)
  {
    EchoAfter(w, s, k);
  }

  ghost predicate EchoesFollow(w: World, s: Step, w': World, k: Key) {
    && (Repeats(w, s, k) ==> Echoed(w, k) < Echoed(w', k))
    && (!Repeats(w, s, k) ==> Echoed(w', k) <= Echoed(w, k))
    && (Live(w'.db, ObserverOf(k)) && !s.Crash? ==> Echoed(w, k) <= Echoed(w', k))
  }

  lemma EchoAlong(worlds: seq<World>, steps: seq<Step>, n: nat, k: Key)
    requires Run(worlds, steps) && n < |steps|
    ensures EchoesFollow(worlds[n], steps[n], worlds[n + 1], k)
  {
    InvariantThroughout(worlds, steps, n);
    DeadSilentThroughout(worlds, steps, n);
    EchoAcross(worlds[n], steps[n], worlds[n + 1], k);
  }

  // ---- exactness ----

  /** Conservation is exact if and only if nothing of the key is counted twice. */
  lemma ConservedIffSilent(worlds: seq<World>, steps: seq<Step>, n: nat, k: Key)
    requires Run(worlds, steps) && n < |worlds|
    ensures Exact(worlds[n], k) <==> Echoed(worlds[n], k) == 0
  {
    UsageIsConserved(worlds, steps, n, k);
  }

  lemma {:induction false} SilentUnlessRepeated(worlds: seq<World>, steps: seq<Step>, n: nat, k: Key)
    requires Run(worlds, steps) && n < |worlds| && forall m | 0 <= m < n :: !Repeats(worlds[m], steps[m], k)
    ensures Echoed(worlds[n], k) == 0
    decreases n
  {
    if n > 0 {
      SilentUnlessRepeated(worlds, steps, n - 1, k);
      EchoAlong(worlds, steps, n - 1, k);
    }
  }

  /** A registration once issued and now live has been live since. */
  lemma LiveBefore(w: World, s: Step, o: Observer)
    requires Enabled(w, s) && o in w.db.registered && Live(Apply(w, s).db, o)
    ensures Live(w.db, o)
  {
  }

  lemma StillRegistered(w: World, s: Step, o: Observer)
    requires Enabled(w, s) && o in w.db.registered
    ensures o in Apply(w, s).db.registered
  {
  }

  lemma {:induction false} RegisteredOnwards(worlds: seq<World>, steps: seq<Step>, m: nat, n: nat, o: Observer)
    requires Run(worlds, steps) && m <= n < |worlds| && o in worlds[m].db.registered
    ensures o in worlds[n].db.registered
    decreases n
  {
    if m < n {
      RegisteredOnwards(worlds, steps, m, n - 1, o);
      StillRegistered(worlds[n - 1], steps[n - 1], o);
    }
  }

  /** Once echoed, always echoed while the registration lives and the process does not crash. */
  lemma {:induction false} EchoLasts(worlds: seq<World>, steps: seq<Step>, m: nat, n: nat, k: Key)
    requires m < n < |worlds| == |steps| + 1 && Repeats(worlds[m], steps[m], k)
    requires forall i | m <= i < n :: EchoesFollow(worlds[i], steps[i], worlds[i + 1], k)
    requires forall i | m < i < n :: !steps[i].Crash?
    requires forall i | m < i <= n :: Live(worlds[i].db, ObserverOf(k))
    ensures 0 < Echoed(worlds[n], k)
    decreases n
  {
    if m < n - 1 {
      EchoLasts(worlds, steps, m, n - 1, k);
    }
    EchoRemains(worlds[n - 1], steps[n - 1], worlds[n - 1 + 1], k);
  }

  lemma EchoRemains(w: World, s: Step, w': World, k: Key)
    requires EchoesFollow(w, s, w', k) && (Repeats(w, s, k) || (0 < Echoed(w, k) && Live(w'.db, ObserverOf(k)) && !s.Crash?))
    ensures 0 < Echoed(w', k)
  {
  }

  lemma LiveSince(worlds: seq<World>, steps: seq<Step>, m: nat, n: nat, k: Key)
    requires Run(worlds, steps) && m < n < |steps| && Repeats(worlds[m], steps[m], k) && Live(worlds[n + 1].db, ObserverOf(k))
    ensures Live(worlds[n].db, ObserverOf(k))
  {
    assert ObserverOf(k) in worlds[m].db.registered by {
      InvariantThroughout(worlds, steps, m);
      assert LiveIssued(worlds[m].db);
    }
    RegisteredOnwards(worlds, steps, m, n, ObserverOf(k));
    LiveBefore(worlds[n], steps[n], ObserverOf(k));
  }

  lemma {:induction false} LiveAllAlong(worlds: seq<World>, steps: seq<Step>, m: nat, i: nat, n: nat, k: Key)
    requires Run(worlds, steps) && m < i <= n < |worlds| && Repeats(worlds[m], steps[m], k) && Live(worlds[n].db, ObserverOf(k))
    ensures Live(worlds[i].db, ObserverOf(k))
    decreases n
  {
    if i < n {
      LiveSince(worlds, steps, m, n - 1, k);
      LiveAllAlong(worlds, steps, m, i, n - 1, k);
    }
  }

  lemma EchoedSince(worlds: seq<World>, steps: seq<Step>, m: nat, n: nat, k: Key)
    requires Run(worlds, steps) && m < n < |worlds| && Repeats(worlds[m], steps[m], k) && Live(worlds[n].db, ObserverOf(k))
    requires forall i | m < i < n :: !steps[i].Crash?
    ensures 0 < Echoed(worlds[n], k)
  {
    forall i | m <= i < n
      ensures EchoesFollow(worlds[i], steps[i], worlds[i + 1], k)
    {
      EchoAlong(worlds, steps, i, k);
    }
    forall i | m < i <= n
      ensures Live(worlds[i].db, ObserverOf(k))
    {
      LiveAllAlong(worlds, steps, m, i, n, k);
    }
    EchoLasts(worlds, steps, m, n, k);
  }

  /** Without a crash, and while its registration lives, a key's usage is conserved exactly if and only if no flush of
      it has committed unheard. */
  lemma ExactIffHeard(worlds: seq<World>, steps: seq<Step>, n: nat, k: Key)
    requires Run(worlds, steps) && n < |worlds| && Live(worlds[n].db, ObserverOf(k))
    requires forall i | 0 <= i < n :: !steps[i].Crash?
    ensures Exact(worlds[n], k) <==> forall m | 0 <= m < n :: !Repeats(worlds[m], steps[m], k)
  {
    ConservedIffSilent(worlds, steps, n, k);
    if forall m | 0 <= m < n :: !Repeats(worlds[m], steps[m], k) {
      SilentUnlessRepeated(worlds, steps, n, k);
    } else {
      var m: nat :| m < n && Repeats(worlds[m], steps[m], k);
      EchoedSince(worlds, steps, m, n, k);
    }
  }

  // ---- it happens ----

  /** From any state with usage of a live key queued and no flush running: the row gains the usage, the flush still
      holds it, and it is queued and stored again. */
  lemma UnheardCountsTwice(w: World, k: Key)
    requires Reachable(w) && w.flush.Idle? && 0 < Amount(w.memory.pending, k) && Live(w.db, ObserverOf(k))
    ensures exists w': World ::
              && Reachable(w') && !Exact(w', k) && InHand(w'.flush, k) == Amount(w.memory.pending, k)
              && RowAmount(w'.db.rows, RowOf(k)) == RowAmount(w.db.rows, RowOf(k)) + Amount(w.memory.pending, k)
  {
    var o := ObserverOf(k);
    LandedReached(w, k);
    var w2 := Landed(Snapped(w), o);
    AddedRowsAmount(w.db.rows, GroupOf(w.memory.pending, o), o.registration, RowOf(k));
    EchoHeld(w2, k);
    LandedIsNotExact(w2, k);
  }

  lemma LandedReached(w: World, k: Key)
    requires Reachable(w) && w.flush.Idle? && 0 < Amount(w.memory.pending, k) && Live(w.db, ObserverOf(k))
    ensures
      var o := ObserverOf(k);
      var w2 := Landed(Snapped(w), o);
      && Reachable(w2) && w2.db.rows == AddedRows(w.db.rows, GroupOf(w.memory.pending, o), o.registration)
      && InHand(w2.flush, k) == Amount(w.memory.pending, k) && 0 < Amount(w2.echo.batch, k)
  {
    var o := ObserverOf(k);
    ReachableStep(w, Snapshot);
    assert FlushOf(Snapped(w), o).1 == Committed by {
      InvariantReached(w);
      FlushCommits(w, o);
    }
    assert o in ObserversOf(w.memory.pending);
    var w1 := Snapped(w);
    ReachableStep(w1, Unheard(o));
    LandedHolds(w, k);
  }

  lemma LandedHolds(w: World, k: Key)
    requires w.flush.Idle? && 0 < Amount(w.memory.pending, k) && FlushOf(Snapped(w), ObserverOf(k)).1 == Committed
    ensures
      var o := ObserverOf(k);
      var w2 := Landed(Snapped(w), o);
      && w2.db.rows == AddedRows(w.db.rows, GroupOf(w.memory.pending, o), o.registration)
      && InHand(w2.flush, k) == Amount(w.memory.pending, k) && 0 < Amount(w2.echo.batch, k)
  {
    assert ObserverOf(k) in ObserversOf(w.memory.pending);
  }

  lemma FlushCommits(w: World, o: Observer)
    requires Issued(w) && Open(w) && w.flush.Idle? && Live(w.db, o)
    ensures FlushOf(Snapped(w), o).1 == Committed
  {
  }

  lemma EchoHeld(w: World, k: Key)
    requires 0 < Amount(w.echo.batch, k)
    ensures 0 < Echoed(w, k)
  {
  }

  lemma LandedIsNotExact(w: World, k: Key)
    requires Reachable(w) && 0 < Echoed(w, k)
    ensures !Exact(w, k)
  {
    var worlds, steps :| EndsIn(worlds, steps, w);
    ConservedIffSilent(worlds, steps, |steps|, k);
  }
}
