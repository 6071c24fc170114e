/**
 Several recorder processes over one database. A move is a step of one process; what the others see of it
 is its transaction, or a change of registration. Each process has its own clock, calls and restarts.
 */
module RecorderFleet {
  import opened Clock
  import opened RecorderMemory
  import opened RecorderWorld
  import opened RecorderAccounting
  import opened RecorderTheorems
  import opened RecorderEscapes

  datatype Move = Move(who: nat, step: Step)

  type Fleet = seq<World>

  predicate Commits(w: World, s: Step) {
    w.flush.Flushing? && ((s.Transaction? && s.reached) || s.Unheard?) && FlushOf(w, s.o).1 == Committed
  }

  /** What process `w` does while `actor` takes step `s`. */
  function Seen(w: World, actor: World, s: Step): Step {
    if Commits(actor, s) then Elsewhere(GroupOf(actor.flush.batch, s.o), IntervalOf(actor.flush, actor.me, actor.epoch, s.o))
    else if s.Register? || s.Offboard? then s
    else Tick(w.now)
  }

  predicate CanMove(fleet: Fleet, m: Move) {
    m.who < |fleet| && !m.step.Elsewhere? && Enabled(fleet[m.who], m.step)
  }

  /** All processes see the same tables, and each knows its place. */
  ghost predicate Shared(fleet: Fleet) {
    && (forall i | 0 <= i < |fleet| :: fleet[i].me == i)
    && forall i, j | 0 <= i < |fleet| && 0 <= j < |fleet| :: fleet[i].db == fleet[j].db
  }

  function StepOf(fleet: Fleet, m: Move, j: nat): Step
    requires CanMove(fleet, m) && j < |fleet|
  {
    if j == m.who then m.step else Seen(fleet[j], fleet[m.who], m.step)
  }

  lemma SeenIsEnabled(fleet: Fleet, m: Move, j: nat)
    requires Shared(fleet) && CanMove(fleet, m) && j < |fleet|
    ensures Enabled(fleet[j], StepOf(fleet, m, j))
  {
    assert fleet[j].db == fleet[m.who].db;
  }

  /** Every process takes its part in a move. */
  function Moved(fleet: Fleet, m: Move): (r: Fleet)
    requires CanMove(fleet, m)
    ensures |r| == |fleet|
    ensures forall j | 0 <= j < |fleet| :: r[j] == Taken(fleet[j], StepOf(fleet, m, j))
  {
    seq(|fleet|, j requires 0 <= j < |fleet| => Taken(fleet[j], StepOf(fleet, m, j)))
  }

  function Taken(w: World, s: Step): World {
    if Enabled(w, s) then Apply(w, s) else w
  }

  lemma SameTables(w: World, actor: World, s: Step)
    requires w.db == actor.db && w.me != actor.me && Enabled(actor, s) && !s.Elsewhere? && Enabled(w, Seen(w, actor, s))
    ensures Apply(w, Seen(w, actor, s)).db == Apply(actor, s).db && Apply(w, Seen(w, actor, s)).me == w.me
    ensures Apply(actor, s).me == actor.me
  {
  }

  lemma SharedAfter(fleet: Fleet, m: Move)
    requires Shared(fleet) && CanMove(fleet, m)
    ensures Shared(Moved(fleet, m))
  {
    var after := Moved(fleet, m);
    forall j | 0 <= j < |fleet|
      ensures after[j].db == after[m.who].db && after[j].me == j
    {
      SeenIsEnabled(fleet, m, j);
      if j != m.who {
        SameTables(fleet[j], fleet[m.who], m.step);
      } else {
        assert after[j] == Apply(fleet[j], m.step);
      }
    }
  }

  // ---- runs ----

  ghost predicate FleetRun(fleets: seq<Fleet>, moves: seq<Move>) {
    && |fleets| == |moves| + 1
    && (forall j | 0 <= j < |fleets[0]| :: fleets[0][j] == Starting(j))
    && forall n | 0 <= n < |moves| :: CanMove(fleets[n], moves[n]) && fleets[n + 1] == Moved(fleets[n], moves[n])
  }

  lemma {:induction false} SharedThroughout(fleets: seq<Fleet>, moves: seq<Move>, n: nat)
    requires FleetRun(fleets, moves) && n < |fleets|
    ensures Shared(fleets[n]) && |fleets[n]| == |fleets[0]|
  {
    if n > 0 {
      SharedThroughout(fleets, moves, n - 1);
      SharedAfter(fleets[n - 1], moves[n - 1]);
    }
  }

  ghost function WorldsOf(fleets: seq<Fleet>, j: nat): seq<World>
    requires forall n | 0 <= n < |fleets| :: j < |fleets[n]|
  {
    seq(|fleets|, n requires 0 <= n < |fleets| => fleets[n][j])
  }

  ghost function StepsOf(fleets: seq<Fleet>, moves: seq<Move>, j: nat): seq<Step>
    requires |fleets| == |moves| + 1 && forall n | 0 <= n < |moves| :: CanMove(fleets[n], moves[n]) && j < |fleets[n]|
  {
    seq(|moves|, n requires 0 <= n < |moves| => StepOf(fleets[n], moves[n], j))
  }

  /** Each process of a fleet makes a run of the machine, with the other processes' flushes happening elsewhere:
      whatever holds in every run holds of every process, however many there are. */
  lemma ProcessRun(fleets: seq<Fleet>, moves: seq<Move>, j: nat)
    requires FleetRun(fleets, moves) && j < |fleets[0]|
    ensures forall n | 0 <= n < |fleets| :: j < |fleets[n]|
    ensures Run(WorldsOf(fleets, j), StepsOf(fleets, moves, j))
  {
    forall n | 0 <= n < |fleets|
      ensures Shared(fleets[n]) && |fleets[n]| == |fleets[0]|
    {
      SharedThroughout(fleets, moves, n);
    }
    var worlds, steps := WorldsOf(fleets, j), StepsOf(fleets, moves, j);
    forall n | 0 <= n < |steps|
      ensures Enabled(worlds[n], steps[n]) && worlds[n + 1] == Apply(worlds[n], steps[n])
    {
      SeenIsEnabled(fleets[n], moves[n], j);
      assert fleets[n + 1] == Moved(fleets[n], moves[n]);
    }
  }

  // ---- the shared coverage ----

  ghost predicate Owned(db: Database, size: nat) {
    forall p | p in db.coverage :: p.process < size
  }

  lemma OwnedAfter(fleet: Fleet, m: Move)
    requires Shared(fleet) && CanMove(fleet, m) && Owned(fleet[m.who].db, |fleet|)
    ensures Owned(Apply(fleet[m.who], m.step).db, |fleet|)
  {
  }

  lemma {:induction false} OwnedThroughout(fleets: seq<Fleet>, moves: seq<Move>, n: nat, j: nat)
    requires FleetRun(fleets, moves) && n < |fleets| && j < |fleets[n]|
    ensures Owned(fleets[n][j].db, |fleets[n]|)
    decreases n
  {
    if n > 0 {
      var before, m := fleets[n - 1], moves[n - 1];
      SharedThroughout(fleets, moves, n - 1);
      SharedThroughout(fleets, moves, n);
      OwnedThroughout(fleets, moves, n - 1, m.who);
      OwnedAfter(before, m);
      assert fleets[n][m.who] == Apply(before[m.who], m.step);
    }
  }

  /** Every interval of the shared table was committed by a process of the fleet under the registration now live,
      and is true of every call of that process that had finished at its snapshot. */
  lemma FleetCoverageIsTruthful(fleets: seq<Fleet>, moves: seq<Move>, n: nat, j: nat, p: Interval, i: nat)
    requires FleetRun(fleets, moves) && n < |fleets| && j < |fleets[n]| && p in fleets[n][j].db.coverage
    ensures p.process < |fleets[n]| && Live(fleets[n][j].db, Observer(p.tenant, p.registration))
    ensures i < p.known && i !in p.racing ==> Counted(fleets[n][p.process], p, i)
  {
    OwnedThroughout(fleets, moves, n, j);
    SharedThroughout(fleets, moves, n);
    ProcessRun(fleets, moves, p.process);
    assert WorldsOf(fleets, p.process)[n] == fleets[n][p.process];
    CoverageIsTruthful(WorldsOf(fleets, p.process), StepsOf(fleets, moves, p.process), n, p, i);
  }

  // ---- the shared rows ----

  /** What one process has in a row: its calls' usage, and what of it was stored twice. */
  function Part(w: World, r: Row): nat {
    StoredUnderLive(w.db, w.calls, r) + RowAmount(w.echo.rows, r)
  }

  function Parts(fleet: Fleet, r: Row): nat {
    if fleet == [] then 0 else Parts(fleet[..|fleet| - 1], r) + Part(fleet[|fleet| - 1], r)
  }

  lemma {:induction false} PartsShift(a: Fleet, b: Fleet, r: Row, who: nat, more: nat)
    requires |a| == |b| && forall j | 0 <= j < |a| :: Part(b[j], r) == Part(a[j], r) + if j == who then more else 0
    ensures Parts(b, r) == Parts(a, r) + if who < |a| then more else 0
  {
    if a != [] {
      PartsShift(a[..|a| - 1], b[..|b| - 1], r, who, more);
    }
  }

  lemma {:induction false} PartsNone(fleet: Fleet, r: Row)
    requires forall j | 0 <= j < |fleet| :: Part(fleet[j], r) == 0
    ensures Parts(fleet, r) == 0
  {
    if fleet != [] {
      PartsNone(fleet[..|fleet| - 1], r);
    }
  }

  /** What a step adds to a row: the counters of a transaction, its own or seen. */
  function Addition(w: World, s: Step, r: Row): nat {
    if s.Elsewhere? then Amount(s.group, KeyOf(r, s.interval.registration))
    else if Commits(w, s) then Amount(GroupOf(w.flush.batch, s.o), KeyOf(r, s.o.registration))
    else 0
  }

  lemma RowsElsewhere(w: World, s: Step, r: Row)
    requires Enabled(w, s) && s.Elsewhere?
    ensures RowAmount(Apply(w, s).db.rows, r) == RowAmount(w.db.rows, r) + Addition(w, s, r)
    ensures RowAmount(Apply(w, s).others, r) == RowAmount(w.others, r) + Addition(w, s, r)
  {
    AddedRowsAmount(w.db.rows, s.group, s.interval.registration, r);
    AddedRowsAmount(w.others, s.group, s.interval.registration, r);
  }

  lemma RowsCommitted(w: World, s: Step, r: Row)
    requires Enabled(w, s) && Commits(w, s)
    ensures RowAmount(Apply(w, s).db.rows, r) == RowAmount(w.db.rows, r) + Addition(w, s, r)
    ensures Apply(w, s).others == w.others
  {
    AddedRowsAmount(w.db.rows, GroupOf(w.flush.batch, s.o), s.o.registration, r);
  }

  lemma RowsQuiet(w: World, s: Step, r: Row)
    requires Enabled(w, s) && !s.Elsewhere? && !Commits(w, s) && !(s.Offboard? && s.tenant == r.tenant)
    ensures RowAmount(Apply(w, s).db.rows, r) == RowAmount(w.db.rows, r)
    ensures RowAmount(Apply(w, s).others, r) == RowAmount(w.others, r)
  {
  }

  lemma RowsAfter(w: World, s: Step, r: Row)
    requires Enabled(w, s) && !(s.Offboard? && s.tenant == r.tenant)
    ensures RowAmount(Apply(w, s).db.rows, r) == RowAmount(w.db.rows, r) + Addition(w, s, r)
    ensures RowAmount(Apply(w, s).others, r) == RowAmount(w.others, r) + if s.Elsewhere? then Addition(w, s, r) else 0
  {
    if s.Elsewhere? {
      RowsElsewhere(w, s, r);
    } else if Commits(w, s) {
      RowsCommitted(w, s, r);
    } else {
      RowsQuiet(w, s, r);
    }
  }

  ghost predicate RowOk(w: World, r: Row) {
    RowAmount(w.db.rows, r) == Part(w, r) + RowAmount(w.others, r)
  }

  /** The step erases the row, with its tenant. */
  predicate Erases(s: Step, r: Row) {
    s.Offboard? && s.tenant == r.tenant
  }

  /** A process's part of a row grows by its own transactions only, and is nothing once the tenant is gone. */
  lemma PartAfter(w: World, s: Step, w': World, r: Row)
    requires Enabled(w, s) && w' == Apply(w, s) && RowOk(w, r) && RowOk(w', r)
    ensures Erases(s, r) ==> Part(w', r) == 0 && RowAmount(w'.db.rows, r) == 0
    ensures !Erases(s, r) ==> Part(w', r) == Part(w, r) + if s.Elsewhere? then 0 else Addition(w, s, r)
    ensures !Erases(s, r) ==> RowAmount(w'.db.rows, r) == RowAmount(w.db.rows, r) + Addition(w, s, r)
  {
    if !Erases(s, r) {
      RowsAfter(w, s, r);
    }
  }

  /** The same, for each process of a fleet. */
  lemma PartMoved(fleet: Fleet, m: Move, j: nat, r: Row)
    requires Shared(fleet) && CanMove(fleet, m) && j < |fleet| && RowOk(fleet[j], r) && RowOk(Moved(fleet, m)[j], r)
    ensures
      var w' := Moved(fleet, m)[j];
      if Erases(m.step, r) then Part(w', r) == 0
      else Part(w', r) == Part(fleet[j], r) + if j == m.who then Addition(fleet[m.who], m.step, r) else 0
  {
    SeenIsEnabled(fleet, m, j);
    PartAfter(fleet[j], StepOf(fleet, m, j), Moved(fleet, m)[j], r);
  }

  lemma PartsAfter(fleet: Fleet, m: Move, r: Row)
    requires Shared(fleet) && CanMove(fleet, m) && RowAmount(fleet[m.who].db.rows, r) == Parts(fleet, r)
    requires forall j | 0 <= j < |fleet| :: RowOk(fleet[j], r) && RowOk(Moved(fleet, m)[j], r)
    ensures RowAmount(Moved(fleet, m)[m.who].db.rows, r) == Parts(Moved(fleet, m), r)
  {
    var after := Moved(fleet, m);
    var more := if Erases(m.step, r) then 0 else Addition(fleet[m.who], m.step, r);
    forall j | 0 <= j < |fleet|
      ensures Part(after[j], r) == if Erases(m.step, r) then 0 else Part(fleet[j], r) + if j == m.who then more else 0
    {
      PartMoved(fleet, m, j, r);
    }
    assert after[m.who] == Apply(fleet[m.who], m.step);
    PartAfter(fleet[m.who], m.step, after[m.who], r);
    if Erases(m.step, r) {
      PartsNone(after, r);
    } else {
      PartsShift(fleet, after, r, m.who, more);
    }
  }

  lemma MemberRow(fleets: seq<Fleet>, moves: seq<Move>, n: nat, j: nat, r: Row)
    requires FleetRun(fleets, moves) && n < |fleets| && j < |fleets[n]|
    ensures RowOk(fleets[n][j], r)
  {
    SharedThroughout(fleets, moves, n);
    ProcessRun(fleets, moves, j);
    InvariantThroughout(WorldsOf(fleets, j), StepsOf(fleets, moves, j), n);
  }

  ghost predicate RowIsParts(fleet: Fleet, j: nat, r: Row)
    requires j < |fleet|
  {
    RowAmount(fleet[j].db.rows, r) == Parts(fleet, r)
  }

  ghost predicate RowsAreParts(fleet: Fleet, r: Row) {
    forall j | 0 <= j < |fleet| :: RowIsParts(fleet, j, r)
  }

  lemma RowsMoved(fleets: seq<Fleet>, moves: seq<Move>, n: nat, r: Row)
    requires FleetRun(fleets, moves) && n < |moves| && RowIsParts(fleets[n], moves[n].who, r)
    ensures moves[n].who < |fleets[n + 1]| && RowIsParts(fleets[n + 1], moves[n].who, r)
  {
    SharedThroughout(fleets, moves, n);
    assert fleets[n + 1] == Moved(fleets[n], moves[n]);
    forall k | 0 <= k < |fleets[n]|
      ensures RowOk(fleets[n][k], r) && RowOk(Moved(fleets[n], moves[n])[k], r)
    {
      MemberRow(fleets, moves, n, k, r);
      MemberRow(fleets, moves, n + 1, k, r);
    }
    PartsAfter(fleets[n], moves[n], r);
  }

  lemma RowsNext(fleets: seq<Fleet>, moves: seq<Move>, n: nat, r: Row)
    requires FleetRun(fleets, moves) && n < |moves| && RowsAreParts(fleets[n], r)
    ensures RowsAreParts(fleets[n + 1], r)
  {
    var who := moves[n].who;
    RowsMoved(fleets, moves, n, r);
    SharedThroughout(fleets, moves, n + 1);
    var fleet := fleets[n + 1];
    forall j | 0 <= j < |fleet|
      ensures RowIsParts(fleet, j, r)
    {
      assert fleet[j].db == fleet[who].db;
    }
  }

  /** Conservation for the fleet: in every reachable state a row of the shared table is exactly the sum of what
      the calls of each process have stored there, once or twice. */
  lemma {:induction false} FleetRowsAreConserved(fleets: seq<Fleet>, moves: seq<Move>, n: nat, r: Row)
    requires FleetRun(fleets, moves) && n < |fleets|
    ensures RowsAreParts(fleets[n], r)
    decreases n
  {
    if n == 0 {
      PartsNone(fleets[0], r);
    } else {
      FleetRowsAreConserved(fleets, moves, n - 1, r);
      RowsNext(fleets, moves, n - 1, r);
    }
  }

  // ---- the limit: a neighbour's interval ----

  ghost predicate FleetReached(fleet: Fleet) {
    exists fleets: seq<Fleet>, moves: seq<Move> :: FleetEndsIn(fleets, moves, fleet)
  }

  ghost predicate FleetEndsIn(fleets: seq<Fleet>, moves: seq<Move>, fleet: Fleet) {
    FleetRun(fleets, moves) && fleets[|moves|] == fleet
  }

  lemma FleetStep(fleet: Fleet, m: Move)
    requires FleetReached(fleet) && CanMove(fleet, m)
    ensures FleetReached(Moved(fleet, m))
  {
    var fleets, moves :| FleetEndsIn(fleets, moves, fleet);
    var fleets', moves' := fleets + [Moved(fleet, m)], moves + [m];
    forall n | 0 <= n < |moves'|
      ensures CanMove(fleets'[n], moves'[n]) && fleets'[n + 1] == Moved(fleets'[n], moves'[n])
    {
      if n < |moves| { assert moves'[n] == moves[n] && fleets'[n] == fleets[n] && fleets'[n + 1] == fleets[n + 1]; }
    }
    assert FleetEndsIn(fleets', moves', Moved(fleet, m));
  }

  lemma SharedReached(fleet: Fleet)
    requires FleetReached(fleet)
    ensures Shared(fleet)
  {
    var fleets, moves :| FleetEndsIn(fleets, moves, fleet);
    SharedThroughout(fleets, moves, |moves|);
  }

  /** A step the others do not see changes only its own process. */
  lemma QuietMove(fleet: Fleet, who: nat, s: Step)
    requires FleetReached(fleet) && CanMove(fleet, Move(who, s)) && !s.Transaction? && !s.Unheard? && !s.Register? && !s.Offboard?
    ensures FleetReached(fleet[who := Apply(fleet[who], s)])
  {
    FleetStep(fleet, Move(who, s));
    var after := Moved(fleet, Move(who, s));
    forall j | 0 <= j < |fleet| && j != who
      ensures after[j] == fleet[j]
    {
      assert StepOf(fleet, Move(who, s), j) == Tick(fleet[j].now);
    }
    assert after == fleet[who := Apply(fleet[who], s)];
  }

  lemma QuietCall(fleet: Fleet, who: nat, t: string, m: string, at: Instant, answered: bool)
    requires FleetReached(fleet) && who < |fleet| && Enabled(fleet[who], Begin(t, m, 1, at))
    ensures FleetReached(fleet[who := CallDone(fleet[who], t, m, at, answered)])
  {
    var n := |fleet[who].calls|;
    var w1 := Begun(fleet[who], t, m, 1, at);
    QuietMove(fleet, who, Begin(t, m, 1, at));
    var w2 := LookedUp(w1, n, answered);
    QuietMove(fleet[who := w1], who, Lookup(n, answered));
    assert fleet[who := w1][who := w2] == fleet[who := w2];
    QuietMove(fleet[who := w2], who, Finish(n));
    var w3 := Finished(w2, n);
    assert fleet[who := w2][who := w3] == fleet[who := w3];
  }

  /** Both processes of a new fleet learn of a registration. */
  lemma BothRegistered(t: string, r: string) returns (fleet: Fleet)
    requires t != "" && r != ""
    ensures FleetReached(fleet) && |fleet| == 2
    ensures fleet[0] == Apply(Starting(0), Register(t, r)) && fleet[1] == Apply(Starting(1), Register(t, r))
  {
    var start: Fleet := [Starting(0), Starting(1)];
    assert FleetEndsIn([start], [], start);
    FleetStep(start, Move(0, Register(t, r)));
    fleet := Moved(start, Move(0, Register(t, r)));
  }

  lemma FleetCall(fleet: Fleet, who: nat, t: string, m: string, at: Instant, answered: bool) returns (w': World)
    requires FleetReached(fleet) && who < |fleet| && Enabled(fleet[who], Begin(t, m, 1, at))
    requires t in fleet[who].db.live && t !in fleet[who].memory.registrations
    ensures FleetReached(fleet[who := w']) && CallMade(fleet[who], w', t, at, answered)
  {
    QuietCall(fleet, who, t, m, at, answered);
    CallEffect(fleet[who], t, m, at, answered);
    w' := CallDone(fleet[who], t, m, at, answered);
  }

  lemma FleetTick(fleet: Fleet, who: nat, later: Instant) returns (w': World)
    requires FleetReached(fleet) && who < |fleet| && fleet[who].now <= later
    ensures FleetReached(fleet[who := w']) && w' == fleet[who].(now := later)
  {
    QuietMove(fleet, who, Tick(later));
    w' := Apply(fleet[who], Tick(later));
  }

  /** The second process observes the tenant from 1 on, and a call of the first fails its lookup at 2. */
  lemma OneObservesOneDrops(t: string, r: string, m: string) returns (fleet: Fleet)
    requires t != "" && r != "" && m != ""
    ensures FleetReached(fleet) && |fleet| == 2
    ensures |fleet[0].calls| == 1 && fleet[0].calls[0].tenant == t && fleet[0].calls[0].at == 2 && fleet[0].calls[0].state == Dropped
    ensures fleet[1].flush.Idle? && fleet[1].now == 3 && Live(fleet[1].db, Observer(t, r))
    ensures Observer(t, r) in fleet[1].memory.observing && fleet[1].memory.observing[Observer(t, r)].from == 1
  {
    var f1 := BothRegistered(t, r);
    var second := FleetCall(f1, 1, t, m, 1, true);
    var f2 := f1[1 := second];
    var first := FleetTick(f2, 0, 2);
    var f3 := f2[0 := first];
    first := FleetCall(f3, 0, t, m, 2, false);
    var f4 := f3[0 := first];
    second := FleetTick(f4, 1, 3);
    fleet := f4[1 := second];
  }

  /** With two processes, a call one of them dropped can lie strictly inside an interval the other committed: an
      interval speaks only of its own process. */
  lemma NeighbourCanEscape(t: string, r: string, m: string)
    requires t != "" && r != "" && m != ""
    ensures exists fleet: Fleet, p: Interval ::
              && FleetReached(fleet) && |fleet| == 2 && p.process == 1
              && Escaped(fleet[0], p, 0) && p.from < fleet[0].calls[0].at
  {
    var f5 := OneObservesOneDrops(t, r, m);
    var o := Observer(t, r);
    QuietMove(f5, 1, Snapshot);
    var f6 := f5[1 := Snapped(f5[1])];
    var flush := Move(1, Transaction(o, true));
    FleetStep(f6, flush);
    var f7 := Moved(f6, flush);
    SharedReached(f6);
    SharedReached(f7);
    SeenIsEnabled(f6, flush, 0);
    FlushCovers(f5[1], o);
    var p := IntervalOf(f6[1].flush, 1, f6[1].epoch, o);
    assert f7[1].db == f7[0].db && p in f7[0].db.coverage;
    assert f7[0].calls == f6[0].calls;
    assert Escaped(f7[0], p, 0) && p.from < f7[0].calls[0].at && p.process == 1;
  }
}
