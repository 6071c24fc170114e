/**
 One recorder process, its callers and the metering database as a state machine.

 A step is one critical section of `Record` or `Flush`, one database transaction, one
 change of a tenant's registration, the passing of time, or a crash of the process.
 Any number of `Record` calls may be between their two critical sections at once, and any
 number of other processes may flush into the same database.
 */
module RecorderWorld {
  import opened Clock
  import opened RecorderMemory

  // ---- what became of each Record call ----

  /** Where an accepted delta is. Every accepted call is in exactly one place. */
  datatype Place = InPending | InBatch | Stored | Erased | Voided | Lost

  datatype CallState =
    | Waiting
    | Resolved(registration: string)
    | Failed(erased: bool)
    | Accepted(key: Key, place: Place)
    | Dropped

  /** One call of `Record`. `epoch` counts the restarts of the process before it. */
  datatype Call = Call(
    tenant: string, meter: string, delta: nat, at: Instant, epoch: nat, ticket: nat, previous: string, state: CallState)

  predicate InFlight(c: Call) {
    c.state.Waiting? || c.state.Resolved? || c.state.Failed?
  }

  function KeyFor(c: Call, registration: string): Key {
    Key(c.tenant, c.meter, PeriodStart(c.at), registration)
  }

  /** The key names the call: its tenant, its meter, and the whole hour that holds its time. */
  predicate Names(k: Key, c: Call) {
    k.tenant == c.tenant && k.meter == c.meter && k.period % HOUR == 0 && k.period <= c.at < k.period + HOUR
  }

  datatype Scope = Everyone | Only(o: Observer) | OfTenant(tenant: string)

  predicate Within(s: Scope, k: Key) {
    match s
    case Everyone => true
    case Only(o) => ObserverOf(k) == o
    case OfTenant(t) => k.tenant == t
  }

  function Rehomed(c: Call, s: Scope, src: Place, dst: Place): Call {
    if c.state.Accepted? && c.state.place == src && Within(s, c.state.key) then c.(state := Accepted(c.state.key, dst)) else c
  }

  function Moved(calls: seq<Call>, s: Scope, src: Place, dst: Place): (r: seq<Call>)
    ensures |r| == |calls|
    ensures forall i | 0 <= i < |calls| :: r[i] == Rehomed(calls[i], s, src, dst)
  {
    seq(|calls|, i requires 0 <= i < |calls| => Rehomed(calls[i], s, src, dst))
  }

  // ---- the database ----

  datatype Row = Row(tenant: string, meter: string, period: Instant)

  /** A failed registration lookup, as it interrupted a tenant's observation. */
  datatype Fault = Fault(epoch: nat, tenant: string, ticket: nat, at: Instant)

  /** A committed observation interval [from, until). The remaining fields say which process committed it
      and which of its snapshots vouched for it: the calls and faults that existed then, and the calls
      still between their two sections. */
  datatype Interval = Interval(
    tenant: string, registration: string, from: Instant, until: Instant, process: nat,
    generation: nat, epoch: nat, known: nat, racing: set<nat>, faultsSeen: nat)

  datatype Database = Database(
    live: map<string, string>,
    registered: set<Observer>,
    rows: map<Row, nat>,
    coverage: seq<Interval>)

  predicate Live(db: Database, o: Observer) {
    o.tenant in db.live && db.live[o.tenant] == o.registration
  }

  function RowAmount(rows: map<Row, nat>, r: Row): nat {
    if r in rows then rows[r] else 0
  }

  function RowOf(k: Key): Row {
    Row(k.tenant, k.meter, k.period)
  }

  function KeyOf(r: Row, registration: string): Key {
    Key(r.tenant, r.meter, r.period, registration)
  }

  function AddedRows(rows: map<Row, nat>, group: Counts, registration: string): map<Row, nat> {
    map r | r in rows.Keys + (set k | k in group :: RowOf(k)) :: RowAmount(rows, r) + Amount(group, KeyOf(r, registration))
  }

  predicate ForeignCounter(group: Counts, tenant: string) {
    exists k | k in group :: k.tenant != tenant
  }

  datatype TxResult = Committed | ErasedRegistration | OtherError

  /** One flush transaction: fence on the live registration, add the counters, record the interval. */
  function Transact(db: Database, group: Counts, interval: Interval): (r: (Database, TxResult))
    ensures r.1 != Committed ==> r.0 == db
    ensures r.1 == Committed ==> Live(db, Observer(interval.tenant, interval.registration))
  {
    if interval.tenant == "" || interval.registration == "" || interval.until < interval.from then (db, OtherError)
    else if ForeignCounter(group, interval.tenant) then (db, OtherError)
    else if !Live(db, Observer(interval.tenant, interval.registration)) then (db, ErasedRegistration)
    else
      var counted := db.(rows := AddedRows(db.rows, group, interval.registration));
      if interval.from == ZERO_TIME || interval.until == interval.from then (counted, Committed)
      else (counted.(coverage := db.coverage + [interval]), Committed)
  }

  function Remaining(coverage: seq<Interval>, tenant: string): (r: seq<Interval>)
    ensures forall p :: p in r <==> p in coverage && p.tenant != tenant
  {
    if coverage == [] then []
    else
      var last := coverage[|coverage| - 1];
      Remaining(coverage[..|coverage| - 1], tenant) + if last.tenant != tenant then [last] else []
  }

  /** Offboarding a tenant deletes its usage rows and its coverage with its registration. */
  function Offboarded(db: Database, tenant: string): Database {
    db.(live := db.live - {tenant},
        rows := RowsWithout(db.rows, tenant),
        coverage := Remaining(db.coverage, tenant))
  }

  // ---- the whole system ----

  datatype GroupState = Ready | Done | Refused(erased: bool) | Settled

  datatype FlushState =
    | Idle
    | Flushing(until: Instant, observed: map<Observer, Observation>, batch: Counts,
               groups: map<Observer, GroupState>, known: nat, racing: set<nat>, faultsSeen: nat)

  /** Usage that was stored already and is counted again: a transaction committed it, the answer was lost, and it was
      queued a second time. Queued, in the running flush, and in the rows. */
  datatype Echo = Echo(pending: Counts, batch: Counts, rows: map<Row, nat>)

  const SILENCE := Echo(map[], map[], map[])

  /** The process `me` and the tables it shares. `others` is what other processes have added to the rows of
      the registrations now live. */
  datatype World = World(
    me: nat, now: Instant, epoch: nat, startedAt: Instant,
    memory: Memory, flush: FlushState, db: Database,
    calls: seq<Call>, faults: seq<Fault>, others: map<Row, nat>, echo: Echo)

  datatype Step =
    | Tick(later: Instant)
    | Begin(tenant: string, meter: string, delta: nat, at: Instant)
    | Lookup(call: nat, answered: bool)
    | Finish(call: nat)
    | Snapshot
    | Transaction(o: Observer, reached: bool)
    | Unheard(o: Observer)
    | Settle(o: Observer)
    | EndFlush
    | Register(tenant: string, registration: string)
    | Offboard(tenant: string)
    | Crash
    | Elsewhere(group: Counts, interval: Interval)

  const NEW_DATABASE := Database(map[], {}, map[], [])

  function Starting(me: nat): World {
    World(me, 1, 0, 1, EMPTY, Idle, NEW_DATABASE, [], [], map[], SILENCE)
  }

  predicate Enabled(w: World, s: Step) {
    match s
    case Tick(later) => w.now <= later
    case Begin(tenant, meter, delta, at) => tenant != "" && meter != "" && 0 < delta && ZERO_TIME < at <= w.now
    case Lookup(i, _) => i < |w.calls| && w.calls[i].state.Waiting?
    case Finish(i) => i < |w.calls| && (w.calls[i].state.Resolved? || w.calls[i].state.Failed?)
    case Snapshot => w.flush.Idle?
    case Transaction(o, _) => w.flush.Flushing? && o in w.flush.groups && w.flush.groups[o].Ready?
    case Unheard(o) =>
      w.flush.Flushing? && o in w.flush.groups && w.flush.groups[o].Ready? && FlushOf(w, o).1 == Committed
    case Settle(o) => w.flush.Flushing? && o in w.flush.groups && (w.flush.groups[o].Done? || w.flush.groups[o].Refused?)
    case EndFlush => w.flush.Flushing? && forall o | o in w.flush.groups :: w.flush.groups[o].Settled?
    case Register(t, r) => t != "" && r != "" && t !in w.db.live && Observer(t, r) !in w.db.registered
    case Offboard(t) => t in w.db.live
    case Crash => true
    case Elsewhere(group, interval) =>
      && interval.process != w.me && Transact(w.db, group, interval).1 == Committed
      && forall k | k in group :: ObserverOf(k) == Observer(interval.tenant, interval.registration)
  }

  function Begun(w: World, tenant: string, meter: string, delta: nat, at: Instant): World {
    w.(memory := Ticketed(w.memory, tenant),
       calls := w.calls + [Call(tenant, meter, delta, at, w.epoch, w.memory.nextLookup + 1,
                                PreviousRegistration(w.memory, tenant), Waiting)])
  }

  function LookedUp(w: World, i: nat, answered: bool): World
    requires i < |w.calls|
  {
    var c := w.calls[i];
    var state :=
      if !answered then Failed(false)
      else if c.tenant in w.db.live then Resolved(w.db.live[c.tenant])
      else Failed(true);
    w.(calls := w.calls[i := c.(state := state)])
  }

  function Finished(w: World, i: nat): World
    requires i < |w.calls| && (w.calls[i].state.Resolved? || w.calls[i].state.Failed?)
  {
    var c := w.calls[i];
    match c.state
    case Resolved(registration) =>
      var k := KeyFor(c, registration);
      w.(memory := Recorded(w.memory, k, c.delta, c.ticket, w.now),
         calls := w.calls[i := c.(state := Accepted(k, InPending))])
    case Failed(erased) =>
      var k := KeyFor(c, c.previous);
      w.(memory := Interrupted(w.memory, k, c.delta, erased),
         calls := w.calls[i := c.(state := if c.previous != "" && !erased then Accepted(k, InPending) else Dropped)],
         faults := w.faults + [Fault(w.epoch, c.tenant, c.ticket, w.now)])
  }

  function RacingCalls(calls: seq<Call>): set<nat> {
    set i: nat | i < |calls| && InFlight(calls[i])
  }

  function Snapped(w: World): World
    requires w.flush.Idle?
  {
    w.(memory := Emptied(w.memory),
       calls := Moved(w.calls, Everyone, InPending, InBatch),
       flush := Flushing(w.now, w.memory.observing, w.memory.pending,
                         map o | o in w.memory.observing.Keys + ObserversOf(w.memory.pending) :: Ready,
                         |w.calls|, RacingCalls(w.calls), |w.faults|),
       echo := Echo(map[], w.echo.pending, w.echo.rows))
  }

  /** The interval a flush asks the store to record for an observer (start zero when not observed). */
  function IntervalOf(f: FlushState, me: nat, epoch: nat, o: Observer): Interval
    requires f.Flushing?
  {
    var seen := if o in f.observed then f.observed[o] else Observation(ZERO_TIME, 0);
    Interval(o.tenant, o.registration, seen.from, f.until, me, seen.generation, epoch, f.known, f.racing, f.faultsSeen)
  }

  /** The transaction of one group. */
  function FlushOf(w: World, o: Observer): (Database, TxResult)
    requires w.flush.Flushing?
  {
    Transact(w.db, GroupOf(w.flush.batch, o), IntervalOf(w.flush, w.me, w.epoch, o))
  }

  /** Echoes in a committed group are in the rows now. */
  function EchoStored(e: Echo, o: Observer): Echo {
    Echo(e.pending, Without(e.batch, o), AddedRows(e.rows, GroupOf(e.batch, o), o.registration))
  }

  function Transacted(w: World, o: Observer, reached: bool): World
    requires w.flush.Flushing?
  {
    var r := if reached then FlushOf(w, o) else (w.db, OtherError);
    match r.1
    case Committed =>
      w.(db := r.0, calls := Moved(w.calls, Only(o), InBatch, Stored), flush := w.flush.(groups := w.flush.groups[o := Done]),
         echo := EchoStored(w.echo, o))
    case ErasedRegistration => w.(flush := w.flush.(groups := w.flush.groups[o := Refused(true)]))
    case OtherError => w.(flush := w.flush.(groups := w.flush.groups[o := Refused(false)]))
  }

  /** The transaction commits and its answer is lost: all of the group, stored now, will be queued again. */
  function Landed(w: World, o: Observer): World
    requires w.flush.Flushing?
  {
    w.(db := FlushOf(w, o).0, calls := Moved(w.calls, Only(o), InBatch, Stored),
       flush := w.flush.(groups := w.flush.groups[o := Refused(false)]),
       echo := EchoStored(w.echo, o).(batch := Merged(Without(w.echo.batch, o), GroupOf(w.flush.batch, o))))
  }

  function SettledGroup(w: World, o: Observer): World
    requires w.flush.Flushing? && o in w.flush.groups
  {
    var after := w.(flush := w.flush.(groups := w.flush.groups[o := Settled]));
    match w.flush.groups[o]
    case Refused(true) =>
      after.(memory := Discarded(w.memory, o),
             calls := Moved(Moved(w.calls, Only(o), InBatch, Voided), Only(o), InPending, Voided),
             echo := Echo(Without(w.echo.pending, o), Without(w.echo.batch, o), w.echo.rows))
    case Refused(false) =>
      after.(memory := Returned(w.memory, GroupOf(w.flush.batch, o)),
             calls := Moved(w.calls, Only(o), InBatch, InPending),
             echo := Echo(Merged(w.echo.pending, GroupOf(w.echo.batch, o)), Without(w.echo.batch, o), w.echo.rows))
    case _ => after.(memory := Advanced(w.memory, o, w.flush.observed, w.flush.until))
  }

  function Died(c: Call): Call {
    if InFlight(c) then c.(state := Dropped) else c
  }

  /** A crash loses the memory: queued deltas are lost and calls in progress never finish. */
  function Crashed(w: World): World {
    var calls := Moved(Moved(w.calls, Everyone, InPending, Lost), Everyone, InBatch, Lost);
    World(w.me, w.now, w.epoch + 1, w.now, EMPTY, Idle, w.db,
          seq(|calls|, i requires 0 <= i < |calls| => Died(calls[i])), w.faults, w.others, Echo(map[], map[], w.echo.rows))
  }

  /** The rows other tenants keep. */
  function RowsWithout(rows: map<Row, nat>, tenant: string): map<Row, nat> {
    map r | r in rows && r.tenant != tenant :: rows[r]
  }

  /** Another process flushes: the fence and the tables are the same, the calls are its own. */
  function FlushedElsewhere(w: World, group: Counts, interval: Interval): World {
    w.(db := Transact(w.db, group, interval).0, others := AddedRows(w.others, group, interval.registration))
  }

  function Apply(w: World, s: Step): World
    requires Enabled(w, s)
  {
    match s
    case Tick(later) => w.(now := later)
    case Begin(tenant, meter, delta, at) => Begun(w, tenant, meter, delta, at)
    case Lookup(i, answered) => LookedUp(w, i, answered)
    case Finish(i) => Finished(w, i)
    case Snapshot => Snapped(w)
    case Transaction(o, reached) => Transacted(w, o, reached)
    case Unheard(o) => Landed(w, o)
    case Settle(o) => SettledGroup(w, o)
    case EndFlush => w.(flush := Idle)
    case Register(t, r) =>
      w.(db := w.db.(live := w.db.live[t := r], registered := w.db.registered + {Observer(t, r)}))
    case Offboard(t) =>
      w.(db := Offboarded(w.db, t), calls := Moved(w.calls, OfTenant(t), Stored, Erased), others := RowsWithout(w.others, t),
         echo := w.echo.(rows := RowsWithout(w.echo.rows, t)))
    case Crash => Crashed(w)
    case Elsewhere(group, interval) => FlushedElsewhere(w, group, interval)
  }

  /** A run: states and the steps that lead from each to the next. */
  ghost predicate Run(worlds: seq<World>, steps: seq<Step>) {
    && |worlds| == |steps| + 1
    && worlds[0] == Starting(worlds[0].me)
    && forall i | 0 <= i < |steps| :: Enabled(worlds[i], steps[i]) && worlds[i + 1] == Apply(worlds[i], steps[i])
  }
}
