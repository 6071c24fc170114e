/**
 The resource collector: one process that samples each tenant's gauges and vouches for the time between
 two samples only when nothing can have been missed in between.
 */
module ResourceCollector {
  import opened Clock
  import opened Evidence
  import opened Options

  /** A tenant's last sample: the registration it was read under, and when. */
  datatype Seen = Seen(registration: string, at: Instant)

  /** The longest time two samples may be apart before a collection interval is set. */
  const INITIAL_GAP: int := HOUR / 2

  /** Reading one tenant. A failed call may still have committed its transaction. */
  datatype Reading = Read(seen: Seen) | Failed(landed: Option<Seen>)

  /** One entry of the tenant list: has the sweep's time run out when it is reached, and how its read goes. */
  datatype Visit = Visit(tenant: string, expired: bool, reading: Reading)

  /** What happened, in order. `gap` is the permitted gap then, `span` the coverage the transaction committed. */
  datatype Event =
    | Sampled(tenant: string, seen: Seen, gap: int, span: Option<Observed>)
    | Missed(tenant: string, landed: Option<Seen>, gap: int, span: Option<Observed>)
    | Absent(tenant: string)
    | SweepLost
    | Restarted

  /** The interval a new sample may commit: only from a sample of the same registration, later, and in time. */
  function Bridge(previous: Option<Seen>, next: Seen, gap: int): Option<Observed> {
    if previous.None? || previous.value.registration != next.registration || previous.value.at == ZERO_TIME
       || next.at <= previous.value.at || next.at - previous.value.at > gap
    then None
    else Some(Observed(previous.value.at, next.at))
  }

  predicate Breaks(e: Event, tenant: string) {
    e.SweepLost? || e.Restarted? || e.tenant == tenant
  }

  /** The sample of a tenant that nothing has broken since. */
  function Latest(log: seq<Event>, tenant: string): Option<Seen> {
    if log == [] then None
    else
      var e := log[|log| - 1];
      if !Breaks(e, tenant) then Latest(log[..|log| - 1], tenant)
      else if e.Sampled? then Some(e.seen)
      else None
  }

  /** The sample whose transaction an event committed. */
  function Committed(e: Event): Option<Seen> {
    match e
    case Sampled(_, seen, _, _) => Some(seen)
    case Missed(_, landed, _, _) => landed
    case _ => None
  }

  function SpanOf(e: Event): Option<Observed> {
    if e.Sampled? || e.Missed? then e.span else None
  }

  ghost predicate EventOk(before: seq<Event>, e: Event) {
    SpanOf(e) == if Committed(e).Some? then Bridge(Latest(before, e.tenant), Committed(e).value, e.gap) else None
  }

  ghost predicate LogOk(log: seq<Event>) {
    log == [] || (LogOk(log[..|log| - 1]) && EventOk(log[..|log| - 1], log[|log| - 1]))
  }

  lemma {:induction false} LogOkAt(log: seq<Event>, i: nat)
    requires LogOk(log) && i < |log|
    ensures EventOk(log[..i], log[i])
  {
    var n := |log| - 1;
    if i < n {
      LogOkAt(log[..n], i);
      assert log[..n][..i] == log[..i];
    }
  }

  lemma LogExtends(log: seq<Event>, e: Event)
    requires LogOk(log) && EventOk(log, e)
    ensures LogOk(log + [e])
  {
    assert (log + [e])[..|log|] == log;
  }

  lemma LatestAfter(log: seq<Event>, e: Event, tenant: string)
    ensures Latest(log + [e], tenant) ==
            if !Breaks(e, tenant) then Latest(log, tenant) else if e.Sampled? then Some(e.seen) else None
  {
    assert (log + [e])[..|log|] == log;
  }

  // ---- what a committed interval means ----

  /** `j` is the sample of the tenant last taken before `i`, with no fault, absence or restart since. */
  ghost predicate LastSample(log: seq<Event>, j: int, i: nat, tenant: string)
    requires i <= |log|
  {
    0 <= j < i && log[j].Sampled? && log[j].tenant == tenant && forall k | j < k < i :: !Breaks(log[k], tenant)
  }

  lemma {:induction false} LatestIsLastSample(log: seq<Event>, i: nat, tenant: string)
    requires i <= |log|
    ensures Latest(log[..i], tenant).Some? <==> exists j :: LastSample(log, j, i, tenant)
    ensures forall j | LastSample(log, j, i, tenant) :: Latest(log[..i], tenant) == Some(log[j].seen)
  {
    if i > 0 {
      assert log[..i][..i - 1] == log[..i - 1];
      LatestIsLastSample(log, i - 1, tenant);
      var e := log[i - 1];
      if Breaks(e, tenant) {
        if e.Sampled? { assert LastSample(log, i - 1, i, tenant); }
        forall j | LastSample(log, j, i, tenant)
          ensures j == i - 1
        {
          assert j < i - 1 ==> !Breaks(e, tenant);
        }
      } else {
        forall j
          ensures LastSample(log, j, i, tenant) <==> LastSample(log, j, i - 1, tenant)
        {
          if LastSample(log, j, i, tenant) { assert j != i - 1; }
        }
        if Latest(log[..i], tenant).Some? {
          var j :| LastSample(log, j, i - 1, tenant);
          assert LastSample(log, j, i, tenant);
        }
      }
    }
  }

  /** A transaction commits coverage if and only if it joins the tenant's last unbroken sample to a later one
      of the same registration no more than the permitted gap away; and then it covers exactly the time between. */
  lemma SpansJoinSuccessiveSamples(log: seq<Event>, i: nat, span: Observed)
    requires LogOk(log) && i < |log|
    ensures SpanOf(log[i]) == Some(span) <==>
            && Committed(log[i]).Some?
            && exists j ::
                 && LastSample(log, j, i, log[i].tenant)
                 && log[j].seen == Seen(Committed(log[i]).value.registration, span.from)
                 && Committed(log[i]).value.at == span.to
                 && span.from != ZERO_TIME && span.from < span.to <= span.from + log[i].gap
  {
    var e := log[i];
    LogOkAt(log, i);
    if Committed(e).Some? {
      LatestIsLastSample(log, i, e.tenant);
      if SpanOf(e) == Some(span) {
        var j :| LastSample(log, j, i, e.tenant);
        assert log[j].seen == Seen(Committed(e).value.registration, span.from);
      }
    }
  }

  // ---- the process ----

  function Known(observed: map<string, Seen>, tenant: string): Option<Seen> {
    if tenant in observed then Some(observed[tenant]) else None
  }

  /** What is remembered is each tenant's unbroken sample. */
  ghost predicate Agrees(log: seq<Event>, observed: map<string, Seen>) {
    forall t :: Known(observed, t) == Latest(log, t)
  }

  lemma EventRecorded(log: seq<Event>, observed: map<string, Seen>, e: Event, observed': map<string, Seen>)
    requires LogOk(log) && Agrees(log, observed) && EventOk(log, e) && !e.SweepLost? && !e.Restarted?
    requires Known(observed', e.tenant) == if e.Sampled? then Some(e.seen) else None
    requires forall t | t != e.tenant :: Known(observed', t) == Known(observed, t)
    ensures LogOk(log + [e]) && Agrees(log + [e], observed')
  {
    LogExtends(log, e);
    forall t
      ensures Known(observed', t) == Latest(log + [e], t)
    {
      LatestAfter(log, e, t);
    }
  }

  predicate FirstVisit(visits: seq<Visit>, k: int) {
    0 <= k < |visits| && forall j | 0 <= j < k :: visits[j].tenant != visits[k].tenant
  }

  /** What reading a tenant leaves in the log: the sample if it was kept, and the coverage its transaction committed. */
  function EventFor(previous: Option<Seen>, tenant: string, reading: Reading, gap: int): Event {
    match reading
    case Read(seen) => Sampled(tenant, seen, gap, Bridge(previous, seen, gap))
    case Failed(landed) => Missed(tenant, landed, gap, if landed.Some? then Bridge(previous, landed.value, gap) else None)
  }

  /** A reading is a sample exactly when the call succeeded; what it committed is what was read, or what the failed call
      had committed before it failed. */
  lemma ReadingLogged(previous: Option<Seen>, tenant: string, reading: Reading, gap: int)
    ensures
      var e := EventFor(previous, tenant, reading, gap);
      && (e.Sampled? <==> reading.Read?) && (e.Missed? <==> reading.Failed?) && e.tenant == tenant && e.gap == gap
      && Committed(e) == (match reading case Read(seen) => Some(seen) case Failed(landed) => landed)
      && (e.Sampled? ==> e.seen == reading.seen)
      && (SpanOf(e).Some? ==>
            && Committed(e).Some? && previous.Some? && previous.value.registration == Committed(e).value.registration
            && SpanOf(e).value == Observed(previous.value.at, Committed(e).value.at))
  {
  }

  /** The readings of a sweep's first `n` entries, each tenant once, against what was remembered before it. */
  function Readings(observed: map<string, Seen>, list: seq<Visit>, n: nat, gap: int): seq<Event>
    requires n <= |list|
  {
    if n == 0 then []
    else
      var v := list[n - 1];
      Readings(observed, list, n - 1, gap)
      + if FirstVisit(list, n - 1) then [EventFor(Known(observed, v.tenant), v.tenant, v.reading, gap)] else []
  }

  /** Midway through forgetting the unlisted: those dropped are gone, those left are still remembered, the listed are untouched. */
  ghost predicate Dropping(was: map<string, Seen>, now: map<string, Seen>, listed: set<string>, gone: set<string>, dropped: seq<string>) {
    && gone == now.Keys - listed <= was.Keys
    && (forall t :: t in dropped <==> t in was && t !in listed && t !in gone)
    && forall t | t in listed :: Known(now, t) == Known(was, t)
  }

  lemma DropsNext(
    was: map<string, Seen>, now: map<string, Seen>, listed: set<string>, gone: set<string>, dropped: seq<string>, t: string)
    requires Dropping(was, now, listed, gone, dropped) && t in gone
    ensures Dropping(was, now - {t}, listed, gone - {t}, dropped + [t])
    ensures Absences(dropped + [t]) == Absences(dropped) + [Absent(t)]
  {
    assert (now - {t}).Keys - listed == gone - {t};
  }

  lemma AllDropped(was: map<string, Seen>, now: map<string, Seen>, listed: set<string>, dropped: seq<string>)
    requires Dropping(was, now, listed, {}, dropped)
    ensures forall t :: t in dropped <==> t in was && t !in listed
    ensures forall t :: Known(now, t) == if t in listed then Known(was, t) else None
  {
    forall t | t !in listed
      ensures Known(now, t) == None
    {
      assert t in now ==> t in now.Keys - listed;
    }
  }

  class Collector {
    var maxGap: int
    var observed: map<string, Seen>
    ghost var log: seq<Event>

    ghost predicate Valid()
      reads this
    {
      LogOk(log) && Agrees(log, observed)
    }

    /** A new process remembers nothing of the one before it. */
    constructor (ghost history: seq<Event>)
      requires LogOk(history)
      ensures Valid() && observed == map[] && log == history + [Restarted] && maxGap == INITIAL_GAP
    {
      maxGap := INITIAL_GAP;
      observed := map[];
      log := history + [Restarted];
      new;
      LogExtends(history, Restarted);
      forall t
        ensures Latest(log, t) == None
      {
        LatestAfter(history, Restarted, t);
      }
    }

    /** Collecting at an interval permits a gap of two. */
    method UseInterval(interval: int)
      requires Valid()
      modifies this`maxGap
      ensures Valid() && maxGap == 2 * if interval <= 0 then HOUR / 4 else interval
    {
      maxGap := 2 * if interval <= 0 then HOUR / 4 else interval;
    }

    method Forget()
      requires Valid()
      modifies this`observed, this`log
      ensures Valid() && observed == map[] && log == old(log) + [SweepLost]
    {
      LogExtends(log, SweepLost);
      forall t
        ensures Latest(log + [SweepLost], t) == None
      {
        LatestAfter(log, SweepLost, t);
      }
      observed := map[];
      log := log + [SweepLost];
    }

    /** Read and commit one tenant's gauges, and remember the sample only if the call succeeded. */
    method CollectResources(tenant: string, reading: Reading)
      requires Valid()
      modifies this`observed, this`log
      ensures Valid() && log == old(log) + [EventFor(old(Known(observed, tenant)), tenant, reading, maxGap)]
      ensures Known(observed, tenant) == if reading.Read? then Some(reading.seen) else None
      ensures forall t | t != tenant :: Known(observed, t) == old(Known(observed, t))
    {
      ghost var e := EventFor(Known(observed, tenant), tenant, reading, maxGap);
      if reading.Read? {
        observed := observed[tenant := reading.seen];
      } else {
        observed := observed - {tenant};
      }
      EventRecorded(log, old(observed), e, observed);
      log := log + [e];
    }

    /** Drop the tenants the sweep did not list. */
    method DropUnlisted(listed: set<string>) returns (ghost dropped: seq<string>)
      requires Valid()
      modifies this`observed, this`log
      ensures Valid() && log == old(log) + Absences(dropped)
      ensures forall t :: t in dropped <==> t in old(observed) && t !in listed
      ensures forall t :: Known(observed, t) == if t in listed then old(Known(observed, t)) else None
    {
      var gone := observed.Keys - listed;
      ghost var was, base := observed, log;
      dropped := [];
      while gone != {}
        invariant Valid() && Dropping(was, observed, listed, gone, dropped) && log == base + Absences(dropped)
        decreases gone
      {
        var t :| t in gone;
        EventRecorded(log, observed, Absent(t), observed - {t});
        DropsNext(was, observed, listed, gone, dropped, t);
        observed := observed - {t};
        log := log + [Absent(t)];
        dropped := dropped + [t];
        gone := gone - {t};
      }
      AllDropped(was, observed, listed, dropped);
    }

    /** Read the next listed tenant, unless it was read already. */
    method VisitNext(list: seq<Visit>, i: nat, listed: set<string>, ghost was: map<string, Seen>, ghost base: seq<Event>)
      returns (listed': set<string>)
      requires Valid() && i < |list| && Swept(list, i, listed, was, observed)
      requires list[i].tenant in listed || !list[i].expired
      requires log == base + Readings(was, list, i, maxGap)
      modifies this`observed, this`log
      ensures Valid() && Swept(list, i + 1, listed', was, observed)
      ensures log == base + Readings(was, list, i + 1, maxGap)
    {
      var v := list[i];
      ghost var before := observed;
      FirstIffNew(list, i, listed, was, observed);
      ReadingsNext(base, was, list, i, maxGap);
      if v.tenant !in listed {
        CollectResources(v.tenant, v.reading);
        SweptRead(list, i, listed, was, before, observed);
        listed' := listed + {v.tenant};
      } else {
        SweptAgain(list, i, listed, was, observed);
        listed' := listed;
      }
    }

    /** Read the listed tenants in turn, each once, until the list or the time ends. Running out of time forgets every
        sample. */
    method Visits(list: seq<Visit>) returns (complete: bool, listed: set<string>, ghost reached: nat)
      requires Valid()
      modifies this`observed, this`log
      ensures Valid() && SweepEnds(list, complete, reached) && (!complete ==> observed == map[])
      ensures log == old(log) + Readings(old(observed), list, reached, maxGap) + if complete then [] else [SweepLost]
      ensures complete ==> Swept(list, |list|, listed, old(observed), observed)
    {
      listed := {};
      var i := 0;
      ghost var was, base := observed, log;
      while i < |list| && (list[i].tenant in listed || !list[i].expired)
        invariant 0 <= i <= |list| && Valid() && log == base + Readings(was, list, i, maxGap)
        invariant Swept(list, i, listed, was, observed)
      {
        listed := VisitNext(list, i, listed, was, base);
        i := i + 1;
      }
      SweepEnded(list, i, listed, was, observed);
      complete, reached := i == |list|, i;
      if !complete {
        Forget();
      }
    }

    /** One sweep. A failed listing, or running out of time, forgets every sample; otherwise exactly the listed
        tenants read successfully are remembered. The log gains each reading made, and then the loss of the sweep or
        the tenants no longer listed. */
    method Snapshot(visits: Option<seq<Visit>>) returns (complete: bool, ghost reached: nat, ghost dropped: seq<string>)
      requires Valid()
      modifies this`observed, this`log
      ensures Valid() && (!complete ==> observed == map[])
      ensures visits.None? ==> !complete && log == old(log) + [SweepLost]
      ensures visits.Some? ==>
                && SweepEnds(visits.value, complete, reached)
                && log == old(log) + Readings(old(observed), visits.value, reached, maxGap)
                          + if complete then Absences(dropped) else [SweepLost]
      ensures complete ==> forall k | FirstVisit(visits.value, k) :: Remembers(observed, visits.value[k])
      ensures complete ==> forall t | t in observed :: Listed(visits.value, t)
    {
      reached, dropped := 0, [];
      if visits.None? {
        Forget();
        return false, 0, [];
      }
      var listed;
      complete, listed, reached := Visits(visits.value);
      if complete {
        ghost var read := observed;
        dropped := DropUnlisted(listed);
        RememberedAreListed(visits.value, listed, old(observed), read, observed);
      }
    }
  }

  /** Where a sweep stands after `i` entries: who was listed, what of it is remembered, and that the rest is as before. */
  ghost predicate Swept(list: seq<Visit>, i: nat, listed: set<string>, was: map<string, Seen>, observed: map<string, Seen>) {
    && i <= |list|
    && (forall k | 0 <= k < i :: list[k].tenant in listed)
    && (forall t | t in listed :: Listed(list[..i], t))
    && (forall t | t !in listed :: Known(observed, t) == Known(was, t))
    && (forall k | FirstVisit(list, k) && k < i :: Remembers(observed, list[k]))
  }

  lemma FirstIffNew(list: seq<Visit>, i: nat, listed: set<string>, was: map<string, Seen>, observed: map<string, Seen>)
    requires Swept(list, i, listed, was, observed) && i < |list|
    ensures FirstVisit(list, i) <==> list[i].tenant !in listed
  {
    if list[i].tenant in listed {
      var k :| FirstVisit(list[..i], k) && list[..i][k].tenant == list[i].tenant;
      assert list[k].tenant == list[i].tenant;
    }
  }

  lemma ListedLonger(list: seq<Visit>, i: nat, t: string)
    requires i < |list| && (Listed(list[..i], t) || (FirstVisit(list, i) && list[i].tenant == t))
    ensures Listed(list[..i + 1], t)
  {
    if Listed(list[..i], t) {
      var k :| FirstVisit(list[..i], k) && list[..i][k].tenant == t;
      assert FirstVisit(list[..i + 1], k) && list[..i + 1][k].tenant == t;
    } else {
      assert FirstVisit(list[..i + 1], i) && list[..i + 1][i].tenant == t;
    }
  }

  lemma SweptRead(list: seq<Visit>, i: nat, listed: set<string>, was: map<string, Seen>, before: map<string, Seen>, observed: map<string, Seen>)
    requires Swept(list, i, listed, was, before) && i < |list| && FirstVisit(list, i) && Remembers(observed, list[i])
    requires forall t | t != list[i].tenant :: Known(observed, t) == Known(before, t)
    ensures Swept(list, i + 1, listed + {list[i].tenant}, was, observed)
  {
    forall t | t in listed + {list[i].tenant}
      ensures Listed(list[..i + 1], t)
    {
      ListedLonger(list, i, t);
    }
  }

  lemma SweptAgain(list: seq<Visit>, i: nat, listed: set<string>, was: map<string, Seen>, observed: map<string, Seen>)
    requires Swept(list, i, listed, was, observed) && i < |list| && list[i].tenant in listed && !FirstVisit(list, i)
    ensures Swept(list, i + 1, listed, was, observed)
  {
    AllListedLonger(list, i, listed);
    assert forall k | FirstVisit(list, k) && k < i + 1 :: k < i;
  }

  lemma AllListedLonger(list: seq<Visit>, i: nat, listed: set<string>)
    requires i < |list| && forall t | t in listed :: Listed(list[..i], t)
    ensures forall t | t in listed :: Listed(list[..i + 1], t)
  {
    forall t | t in listed
      ensures Listed(list[..i + 1], t)
    {
      ListedLonger(list, i, t);
    }
  }

  /** A sweep reaches the end of its list, or the first tenant it has no time left to read. */
  ghost predicate SweepEnds(list: seq<Visit>, complete: bool, reached: nat) {
    && reached <= |list| && (forall k | FirstVisit(list, k) && k < reached :: !list[k].expired)
    && if complete then reached == |list| else FirstVisit(list, reached) && list[reached].expired
  }

  lemma SweepEnded(list: seq<Visit>, i: nat, listed: set<string>, was: map<string, Seen>, observed: map<string, Seen>)
    requires Swept(list, i, listed, was, observed) && (i < |list| ==> list[i].tenant !in listed && list[i].expired)
    ensures SweepEnds(list, i == |list|, i)
  {
    if i < |list| {
      FirstIffNew(list, i, listed, was, observed);
    }
    forall k | FirstVisit(list, k) && k < i
      ensures !list[k].expired
    {
      assert Remembers(observed, list[k]);
    }
  }

  lemma RememberedAreListed(list: seq<Visit>, listed: set<string>, was: map<string, Seen>, read: map<string, Seen>, observed: map<string, Seen>)
    requires Swept(list, |list|, listed, was, read)
    requires forall t :: Known(observed, t) == if t in listed then Known(read, t) else None
    ensures forall k | FirstVisit(list, k) :: Remembers(observed, list[k])
    ensures forall t | t in observed :: Listed(list, t)
  {
    assert list[..|list|] == list;
    forall t | t in observed
      ensures Listed(list, t)
    {
      assert Known(observed, t).Some?;
    }
    forall k | FirstVisit(list, k)
      ensures Remembers(observed, list[k])
    {
      assert Remembers(read, list[k]) && list[k].tenant in listed;
    }
  }

  lemma ReadingsNext(base: seq<Event>, observed: map<string, Seen>, list: seq<Visit>, i: nat, gap: int)
    requires i < |list|
    ensures
      var v := list[i];
      base + Readings(observed, list, i + 1, gap)
      == (base + Readings(observed, list, i, gap))
         + if FirstVisit(list, i) then [EventFor(Known(observed, v.tenant), v.tenant, v.reading, gap)] else []
  {
  }

  ghost function Absences(tenants: seq<string>): seq<Event> {
    seq(|tenants|, i requires 0 <= i < |tenants| => Absent(tenants[i]))
  }

  ghost predicate Listed(list: seq<Visit>, tenant: string) {
    exists k :: FirstVisit(list, k) && list[k].tenant == tenant
  }

  ghost predicate Remembers(observed: map<string, Seen>, v: Visit) {
    !v.expired && Known(observed, v.tenant) == if v.reading.Read? then Some(v.reading.seen) else None
  }

  // ---- sharing the coverage table with the recorder ----

  function AddAll(ranges: seq<Observed>, spans: seq<Observed>): (r: seq<Observed>)
    requires Normal(ranges) && forall i | 0 <= i < |spans| :: spans[i].from < spans[i].to
    ensures Normal(r)
    decreases |spans|
  {
    if spans == [] then ranges else AddAll(Union(ranges, spans[0]), spans[1..])
  }

  lemma {:induction false} AddAllCovers(ranges: seq<Observed>, spans: seq<Observed>, x: Instant)
    requires Normal(ranges) && forall i | 0 <= i < |spans| :: spans[i].from < spans[i].to
    ensures Covered(AddAll(ranges, spans), x) <==> Covered(ranges, x) || Covered(spans, x)
    decreases |spans|
  {
    if spans != [] {
      AddAllCovers(Union(ranges, spans[0]), spans[1..], x);
      UnionCovers(ranges, spans[0], x);
      CoveredHead(spans[0], spans[1..], x);
      assert spans == [spans[0]] + spans[1..];
    }
  }

  lemma {:induction false} AddAllPositive(ranges: seq<Observed>, spans: seq<Observed>)
    requires Normal(ranges) && forall i | 0 <= i < |ranges| :: ZERO_TIME < ranges[i].from
    requires forall i | 0 <= i < |spans| :: ZERO_TIME < spans[i].from < spans[i].to
    ensures forall i | 0 <= i < |AddAll(ranges, spans)| :: ZERO_TIME < AddAll(ranges, spans)[i].from
    decreases |spans|
  {
    if spans != [] {
      AddAllPositive(Union(ranges, spans[0]), spans[1..]);
    }
  }

  /** The recorder and the collector add to one multirange, so a closed whole-hour period is signable exactly
      when each instant was observed by either of them: where the collector spans it, a gap of the recorder's
      does not show. */
  lemma SharedCoverageDecides(recorded: seq<Observed>, collected: seq<Observed>, p: Period, now: Instant)
    requires Normal(recorded) && forall i | 0 <= i < |recorded| :: ZERO_TIME < recorded[i].from
    requires forall i | 0 <= i < |collected| :: ZERO_TIME < collected[i].from < collected[i].to
    ensures Decided(p, CoverageFor(AddAll(recorded, collected)), now).signable <==>
            && p.customer != "" && p.start < p.end && p.end <= now && p.start % HOUR == 0 && p.end % HOUR == 0
            && forall x | p.start <= x < p.end :: Covered(recorded, x) || Covered(collected, x)
  {
    var ranges := AddAll(recorded, collected);
    AddAllPositive(recorded, collected);
    forall x
      ensures Covered(ranges, x) <==> Covered(recorded, x) || Covered(collected, x)
    {
      AddAllCovers(recorded, collected, x);
    }
    StoredCoverageDecides(p, ranges, now);
  }
}
