/**
 The usage recorder's in-process memory: counters waiting to be flushed, the open
 observations, the last registration seen per tenant and the lookup tickets.

 Each critical section of `Record` and `Flush` is one function on `Memory`, and one
 method of `Recorder` proved to perform exactly that function.
 */
module RecorderMemory {
  import opened Clock

  datatype Key = Key(tenant: string, meter: string, period: Instant, registration: string)

  datatype Observer = Observer(tenant: string, registration: string)

  datatype Observation = Observation(from: Instant, generation: nat)

  type Counts = map<Key, nat>

  datatype Memory = Memory(
    pending: Counts,
    observing: map<Observer, Observation>,
    registrations: map<string, string>,
    lookups: map<string, nat>,
    nextLookup: nat)

  const EMPTY := Memory(map[], map[], map[], map[], 0)

  function ObserverOf(k: Key): Observer {
    Observer(k.tenant, k.registration)
  }

  function Amount(c: Counts, k: Key): nat {
    if k in c then c[k] else 0
  }

  function Added(c: Counts, k: Key, delta: nat): Counts {
    c[k := Amount(c, k) + delta]
  }

  function Merged(a: Counts, b: Counts): Counts {
    map k | k in a.Keys + b.Keys :: Amount(a, k) + Amount(b, k)
  }

  /** The part of a batch that one store transaction carries. */
  function GroupOf(batch: Counts, o: Observer): Counts {
    map k | k in batch && ObserverOf(k) == o :: batch[k]
  }

  function Without(c: Counts, o: Observer): Counts {
    map k | k in c && ObserverOf(k) != o :: c[k]
  }

  function Undisturbed(observing: map<Observer, Observation>, tenant: string): map<Observer, Observation> {
    map o | o in observing && o.tenant != tenant :: observing[o]
  }

  function Closed(observing: map<Observer, Observation>, o: Observer): map<Observer, Observation> {
    map p | p in observing && p != o :: observing[p]
  }

  /** The registration to keep counters under when a lookup fails ("" when none is known). */
  function PreviousRegistration(m: Memory, tenant: string): string {
    if tenant in m.registrations then m.registrations[tenant] else ""
  }

  // ---- the critical sections, as functions ----

  function Ticketed(m: Memory, tenant: string): Memory {
    m.(nextLookup := m.nextLookup + 1, lookups := m.lookups[tenant := m.nextLookup + 1])
  }

  /** A lookup failed: every open observation of the tenant ends, and the delta is kept only
      under a registration known before the lookup began and not reported erased. */
  function Interrupted(m: Memory, k: Key, delta: nat, erased: bool): Memory {
    m.(observing := Undisturbed(m.observing, k.tenant),
       pending := if k.registration != "" && !erased then Added(m.pending, k, delta) else m.pending)
  }

  predicate Newest(m: Memory, tenant: string, ticket: nat) {
    tenant in m.lookups && m.lookups[tenant] == ticket
  }

  /** Whether committing this call opens a new observation. */
  predicate Opens(m: Memory, k: Key, ticket: nat) {
    Newest(m, k.tenant, ticket) && ObserverOf(k) !in m.observing
  }

  function Recorded(m: Memory, k: Key, delta: nat, ticket: nat, now: Instant): Memory {
    m.(pending := Added(m.pending, k, delta),
       registrations := if Newest(m, k.tenant, ticket) then m.registrations[k.tenant := k.registration] else m.registrations,
       observing := if Opens(m, k, ticket) then m.observing[ObserverOf(k) := Observation(now, ticket)] else m.observing)
  }

  function Emptied(m: Memory): Memory {
    m.(pending := map[])
  }

  function Returned(m: Memory, group: Counts): Memory {
    m.(pending := Merged(m.pending, group))
  }

  function Discarded(m: Memory, o: Observer): Memory {
    m.(observing := Closed(m.observing, o), pending := Without(m.pending, o))
  }

  /** A flush moves an observation's start only when the very state it snapshotted is still there. */
  function Advanced(m: Memory, o: Observer, observed: map<Observer, Observation>, until: Instant): Memory {
    if o in m.observing && o in observed && m.observing[o] == observed[o] then
      m.(observing := m.observing[o := Observation(until, m.observing[o].generation)])
    else m
  }

  /** The counters whose keys a walk has already passed. */
  function Except(c: Counts, left: set<Key>): Counts {
    map k | k in c && k !in left :: c[k]
  }

  lemma ReturnOne(before: Counts, group: Counts, left: set<Key>, k: Key)
    requires k in group && k in left
    ensures Merged(before, Except(group, left - {k})) == Added(Merged(before, Except(group, left)), k, group[k])
  {
    var a, b := Except(group, left), Except(group, left - {k});
    assert b == a[k := group[k]];
    assert Merged(before, b) == Added(Merged(before, a), k, group[k]);
  }

  /** What is observed once a walk has passed all but `left` of the observers, ending the tenant's. */
  function Unpassed(observing: map<Observer, Observation>, tenant: string, left: set<Observer>): map<Observer, Observation> {
    map o | o in observing && (o in left || o.tenant != tenant) :: observing[o]
  }

  lemma PassOne(observing: map<Observer, Observation>, tenant: string, left: set<Observer>, o: Observer)
    requires o in left
    ensures
      Unpassed(observing, tenant, left - {o}) ==
      if o.tenant == tenant then Unpassed(observing, tenant, left) - {o} else Unpassed(observing, tenant, left)
  {
  }

  // ---- the recorder object ----

  class Recorder {
    var pending: Counts
    var observing: map<Observer, Observation>
    var registrations: map<string, string>
    var lookups: map<string, nat>
    var nextLookup: nat

    ghost function Value(): Memory
      reads this
    {
      Memory(pending, observing, registrations, lookups, nextLookup)
    }

    constructor ()
      ensures Value() == EMPTY
    {
      pending, observing, registrations, lookups, nextLookup := map[], map[], map[], map[], 0;
    }

    /** First section of Record: take a ticket and remember the registration known so far. */
    method TakeTicket(tenant: string) returns (ticket: nat, previous: string)
      modifies this
      ensures Value() == Ticketed(old(Value()), tenant)
      ensures ticket == old(nextLookup) + 1 && Newest(Value(), tenant, ticket)
      ensures previous == PreviousRegistration(old(Value()), tenant)
    {
      nextLookup := nextLookup + 1;
      ticket := nextLookup;
      lookups := lookups[tenant := ticket];
      previous := if tenant in registrations then registrations[tenant] else "";
    }

    /** Second section of Record when the registration lookup failed. */
    method Interrupt(tenant: string, meter: string, at: Instant, previous: string, delta: nat, erased: bool)
      modifies this
      ensures Value() == Interrupted(old(Value()), Key(tenant, meter, PeriodStart(at), previous), delta, erased)
    {
      var left := observing.Keys;
      while left != {}
        invariant left <= old(observing).Keys
        invariant observing == Unpassed(old(observing), tenant, left)
        invariant pending == old(pending) && registrations == old(registrations)
        invariant lookups == old(lookups) && nextLookup == old(nextLookup)
        decreases |left|
      {
        var o :| o in left;
        PassOne(old(observing), tenant, left, o);
        left := left - {o};
        if o.tenant == tenant {
          observing := observing - {o};
        }
      }
      assert observing == Undisturbed(old(observing), tenant);
      if previous != "" && !erased {
        var k := Key(tenant, meter, PeriodStart(at), previous);
        pending := pending[k := (if k in pending then pending[k] else 0) + delta];
      }
    }

    /** Second section of Record when the lookup named the live registration. */
    method Commit(tenant: string, meter: string, at: Instant, registration: string, delta: nat, ticket: nat, now: Instant)
      modifies this
      ensures Value() == Recorded(old(Value()), Key(tenant, meter, PeriodStart(at), registration), delta, ticket, now)
    {
      var k := Key(tenant, meter, PeriodStart(at), registration);
      var observer := Observer(tenant, registration);
      if tenant in lookups && ticket == lookups[tenant] {
        registrations := registrations[tenant := registration];
        if observer !in observing {
          observing := observing[observer := Observation(now, ticket)];
        }
      }
      pending := pending[k := (if k in pending then pending[k] else 0) + delta];
    }

    /** First section of Flush: take the whole batch and a copy of the open observations. */
    method Snapshot() returns (observed: map<Observer, Observation>, batch: Counts)
      modifies this
      ensures Value() == Emptied(old(Value()))
      ensures observed == old(observing) && batch == old(pending)
    {
      observed := map[];
      var left := observing.Keys;
      while left != {}
        invariant left <= observing.Keys
        invariant observed == map o | o in observing && o !in left :: observing[o]
        decreases |left|
      {
        var o :| o in left;
        left := left - {o};
        observed := observed[o := observing[o]];
      }
      batch := pending;
      pending := map[];
    }

    /** A transaction failed without erasure: its deltas return to the queue. */
    method Return(group: Counts)
      modifies this
      ensures Value() == Returned(old(Value()), group)
    {
      pending := MergeBack(pending, group);
    }

    /** A transaction met an erased or replaced registration: its late counters go too. */
    method Discard(o: Observer)
      modifies this
      ensures Value() == Discarded(old(Value()), o)
    {
      observing := observing - {o};
      assert observing == Closed(old(observing), o);
      pending := DropGroup(pending, o);
    }

    /** A transaction committed: move the observation's start to the flush instant. */
    method Advance(o: Observer, observed: map<Observer, Observation>, until: Instant)
      modifies this
      ensures Value() == Advanced(old(Value()), o, observed, until)
    {
      if o in observing && o in observed && observing[o] == observed[o] {
        observing := observing[o := Observation(until, observing[o].generation)];
      }
    }
  }

  /** Add each counter of a group to what is queued. */
  method MergeBack(pending: Counts, group: Counts) returns (merged: Counts)
    ensures merged == Merged(pending, group)
  {
    merged := pending;
    var left := group.Keys;
    NothingReturned(pending, group);
    while left != {}
      invariant left <= group.Keys
      invariant merged == Merged(pending, Except(group, left))
      decreases |left|
    {
      var k :| k in left;
      ReturnOne(pending, group, left, k);
      merged := Added(merged, k, group[k]);
      left := left - {k};
    }
    assert group == Except(group, left);
  }

  lemma NothingReturned(pending: Counts, group: Counts)
    ensures Merged(pending, Except(group, group.Keys)) == pending
  {
  }

  /** Delete every counter of one observer. */
  method DropGroup(pending: Counts, o: Observer) returns (kept: Counts)
    ensures kept == Without(pending, o)
  {
    kept := pending;
    var left := pending.Keys;
    while left != {}
      invariant left <= pending.Keys
      invariant forall k :: k in kept <==> k in pending && (k in left || ObserverOf(k) != o)
      invariant forall k | k in kept :: kept[k] == pending[k]
      decreases |left|
    {
      var k :| k in left;
      left := left - {k};
      if k.tenant == o.tenant && k.registration == o.registration {
        kept := kept - {k};
      }
    }
    assert kept == Without(pending, o);
  }

  function ObserversOf(c: Counts): set<Observer> {
    set k | k in c :: ObserverOf(k)
  }

  ghost predicate Splits(groups: map<Observer, Counts>, batch: Counts) {
    forall o | o in groups :: groups[o] == GroupOf(batch, o)
  }

  /** Split a batch into one group per store transaction; quiet observers get an empty one. */
  method GroupByObserver(batch: Counts, observed: map<Observer, Observation>) returns (groups: map<Observer, Counts>)
    ensures groups.Keys == observed.Keys + ObserversOf(batch)
    ensures Splits(groups, batch)
  {
    groups := map[];
    var left := batch.Keys;
    while left != {}
      invariant left <= batch.Keys
      invariant groups.Keys == ObserversOf(Except(batch, left))
      invariant Splits(groups, Except(batch, left))
      decreases |left|
    {
      var k :| k in left;
      GroupExtended(Except(batch, left), k, batch[k]);
      assert Except(batch, left - {k}) == Except(batch, left)[k := batch[k]];
      left := left - {k};
      var before := if ObserverOf(k) in groups then groups[ObserverOf(k)] else map[];
      groups := groups[ObserverOf(k) := before[k := batch[k]]];
    }
    assert batch == Except(batch, left);
    groups := IncludeQuiet(batch, observed, groups);
  }

  method IncludeQuiet(batch: Counts, observed: map<Observer, Observation>, busy: map<Observer, Counts>)
    returns (groups: map<Observer, Counts>)
    requires busy.Keys == ObserversOf(batch)
    requires Splits(busy, batch)
    ensures groups.Keys == observed.Keys + busy.Keys
    ensures Splits(groups, batch)
  {
    groups := busy;
    var quiet := observed.Keys;
    while quiet != {}
      invariant quiet <= observed.Keys
      invariant forall o: Observer :: o in groups <==> o in busy || (o in observed && o !in quiet)
      invariant Splits(groups, batch)
      decreases |quiet|
    {
      var o :| o in quiet;
      quiet := quiet - {o};
      if o !in groups {
        QuietGroupIsEmpty(groups, batch, o);
        groups := groups[o := map[]];
      }
    }
  }

  lemma QuietGroupIsEmpty(groups: map<Observer, Counts>, batch: Counts, o: Observer)
    requires Splits(groups, batch) && o !in ObserversOf(batch)
    ensures Splits(groups[o := map[]], batch)
  {
    assert forall k | k in batch :: ObserverOf(k) in ObserversOf(batch);
    assert GroupOf(batch, o) == map[];
  }

  /** Adding one counter to a batch extends its own group and no other. */
  lemma GroupExtended(done: Counts, k: Key, amount: nat)
    requires k !in done
    ensures ObserversOf(done[k := amount]) == ObserversOf(done) + {ObserverOf(k)}
    ensures GroupOf(done[k := amount], ObserverOf(k)) ==
            (if ObserverOf(k) in ObserversOf(done) then GroupOf(done, ObserverOf(k)) else map[])[k := amount]
    ensures forall o: Observer | o != ObserverOf(k) :: GroupOf(done[k := amount], o) == GroupOf(done, o)
  {
    var done' := done[k := amount];
    forall o: Observer
      ensures o in ObserversOf(done') <==> o in ObserversOf(done) + {ObserverOf(k)}
    {
      assert forall j | j in done :: j in done' && ObserverOf(j) in ObserversOf(done');
      assert k in done';
    }
    assert forall j | j in done :: ObserverOf(j) in ObserversOf(done);
  }
}
