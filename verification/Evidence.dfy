/**
 When a metering period may be signed: the guards, and the sweep over observed intervals.
 */
module Evidence {
  import opened Clock
  import opened Sorting

  datatype Period = Period(customer: string, start: Instant, end: Instant)

  /** A half-open interval [from, to). */
  datatype Observed = Observed(from: Instant, to: Instant)

  datatype Coverage = Coverage(observedFrom: Instant, observedTo: Instant, intervals: seq<Observed>, restarts: nat, durable: bool)

  datatype Reason =
    | NotAWindow
    | NotWholeHours
    | NotClosed(end: Instant)
    | InMemory
    | NoBounds
    | PartialBounds(from: Instant, to: Instant)
    | Gap(at: Instant)
    | LostToRestart(count: nat)
    | Attestable

  datatype Decision = Decision(signable: bool, reason: Reason)

  // ---- coverage as a set of instants ----

  predicate Holds(i: Observed, x: Instant) {
    i.from <= x < i.to
  }

  ghost predicate Covered(intervals: seq<Observed>, x: Instant) {
    exists k :: 0 <= k < |intervals| && Holds(intervals[k], x)
  }

  ghost predicate Spans(intervals: seq<Observed>, start: Instant, end: Instant) {
    forall x | start <= x < end :: Covered(intervals, x)
  }

  // ---- a sorted copy ----

  predicate StartsFirst(a: Observed, b: Observed) {
    a.from <= b.from
  }

  lemma SameCoverage(s: seq<Observed>, r: seq<Observed>, x: Instant)
    requires multiset(s) == multiset(r)
    ensures Covered(s, x) <==> Covered(r, x)
  {
    if Covered(s, x) {
      var k :| 0 <= k < |s| && Holds(s[k], x);
      assert s[k] in multiset(r);
    }
    if Covered(r, x) {
      var k :| 0 <= k < |r| && Holds(r[k], x);
      assert r[k] in multiset(s);
    }
  }

  // ---- the decision ----

  /** The first guard that refuses, or Attestable when only the sweep is left to decide. */
  function Guard(p: Period, c: Coverage, now: Instant): Reason {
    if p.customer == "" || p.end <= p.start then NotAWindow
    else if p.start != PeriodStart(p.start) || p.end != PeriodStart(p.end) then NotWholeHours
    else if now < p.end then NotClosed(p.end)
    else if !c.durable then InMemory
    else if c.observedFrom == ZERO_TIME || c.observedTo == ZERO_TIME then NoBounds
    else if p.start < c.observedFrom || c.observedTo < p.end then PartialBounds(c.observedFrom, c.observedTo)
    else Attestable
  }

  /** `x` is the first instant of the period that no interval holds. */
  ghost predicate FirstGap(intervals: seq<Observed>, p: Period, x: Instant) {
    p.start <= x < p.end && !Covered(intervals, x) && Spans(intervals, p.start, x)
  }

  /** The decision a period deserves: refused by the first guard that fails; past the guards, signable
      exactly when no instant of it is uncovered, and otherwise refused at the first uncovered instant. */
  ghost predicate IsDecision(d: Decision, p: Period, c: Coverage, now: Instant) {
    if Guard(p, c, now) != Attestable then d == Decision(false, Guard(p, c, now))
    else if Spans(c.intervals, p.start, p.end) then d == Decision(true, Attestable)
    else !d.signable && d.reason.Gap? && FirstGap(c.intervals, p, d.reason.at)
  }

  lemma DecisionUnique(d: Decision, e: Decision, p: Period, c: Coverage, now: Instant)
    requires IsDecision(d, p, c, now) && IsDecision(e, p, c, now)
    ensures d == e
  {
    if Guard(p, c, now) == Attestable && !Spans(c.intervals, p.start, p.end) {
      var x, y := d.reason.at, e.reason.at;
      assert !(x < y) && !(y < x);
    }
  }

  lemma {:induction false} FirstGapExists(intervals: seq<Observed>, p: Period, x: Instant) returns (gap: Instant)
    requires p.start <= x < p.end && !Covered(intervals, x)
    ensures FirstGap(intervals, p, gap)
    decreases x - p.start
  {
    if Spans(intervals, p.start, x) {
      gap := x;
    } else {
      var y :| p.start <= y < x && !Covered(intervals, y);
      gap := FirstGapExists(intervals, p, y);
    }
  }

  lemma DecisionExists(p: Period, c: Coverage, now: Instant) returns (d: Decision)
    ensures IsDecision(d, p, c, now)
  {
    if Guard(p, c, now) != Attestable {
      d := Decision(false, Guard(p, c, now));
    } else if Spans(c.intervals, p.start, p.end) {
      d := Decision(true, Attestable);
    } else {
      var x :| p.start <= x < p.end && !Covered(c.intervals, x);
      var gap := FirstGapExists(c.intervals, p, x);
      d := Decision(false, Gap(gap));
    }
  }

  ghost function Decided(p: Period, c: Coverage, now: Instant): (d: Decision)
    ensures IsDecision(d, p, c, now)
  {
    assert exists d :: IsDecision(d, p, c, now) by {
      var d := DecisionExists(p, c, now);
    }
    var d :| IsDecision(d, p, c, now);
    d
  }

  /** What a refusal says of the period. */
  ghost predicate IsTrueOf(r: Reason, p: Period, c: Coverage, now: Instant) {
    match r
    case NotAWindow => p.customer == "" || p.end <= p.start
    case NotWholeHours => p.start % HOUR != 0 || p.end % HOUR != 0
    case NotClosed(end) => end == p.end && now < p.end
    case InMemory => !c.durable
    case NoBounds => c.observedFrom == ZERO_TIME || c.observedTo == ZERO_TIME
    case PartialBounds(from, to) => from == c.observedFrom && to == c.observedTo && (p.start < from || to < p.end)
    case Gap(at) => FirstGap(c.intervals, p, at)
    case LostToRestart(_) => false
    case Attestable => Spans(c.intervals, p.start, p.end)
  }

  /** The order in which refusals are looked for. */
  function Rank(r: Reason): nat {
    match r
    case NotAWindow => 0
    case NotWholeHours => 1
    case NotClosed(_) => 2
    case InMemory => 3
    case NoBounds => 4
    case PartialBounds(_, _) => 5
    case Gap(_) => 6
    case LostToRestart(_) => 7
    case Attestable => 8
  }

  /** The decision gives the first reason that is true of the period, and signs exactly when no refusal is: a named
      customer's window of whole hours, closed, durably recorded, inside the known bounds, with every instant
      observed. */
  lemma DecisionIsFirstReason(p: Period, c: Coverage, now: Instant)
    ensures
      var d := Decided(p, c, now);
      && IsTrueOf(d.reason, p, c, now)
      && (forall r: Reason | Rank(r) < Rank(d.reason) :: !IsTrueOf(r, p, c, now))
      && (d.signable <==> d.reason.Attestable?)
    ensures Decided(p, c, now).signable <==>
            && p.customer != "" && p.start < p.end && p.start % HOUR == 0 && p.end % HOUR == 0 && p.end <= now
            && c.durable && c.observedFrom != ZERO_TIME && c.observedTo != ZERO_TIME
            && c.observedFrom <= p.start && p.end <= c.observedTo && Spans(c.intervals, p.start, p.end)
  {
    assert p.start == PeriodStart(p.start) <==> p.start % HOUR == 0;
    assert p.end == PeriodStart(p.end) <==> p.end % HOUR == 0;
  }

  method MaySign(p: Period, c: Coverage, now: Instant) returns (d: Decision)
    ensures IsDecision(d, p, c, now)
  {
    var guard := Guard(p, c, now);
    if guard != Attestable {
      return Decision(false, guard);
    }
    var intervals := Sorted(c.intervals, StartsFirst);
    var cursor := Sweep(intervals, p.start, p.end);
    forall x: Instant
      ensures Covered(c.intervals, x) <==> Covered(intervals, x)
    {
      SameCoverage(c.intervals, intervals, x);
    }
    if cursor < p.end {
      return Decision(false, Gap(cursor));
    }
    if c.restarts > 0 && !c.durable {
      return Decision(false, LostToRestart(c.restarts));
    }
    return Decision(true, Attestable);
  }

  method Sweep(intervals: seq<Observed>, start: Instant, end: Instant) returns (cursor: Instant)
    requires SortedBy(intervals, StartsFirst) && start < end
    ensures start <= cursor && Spans(intervals, start, cursor)
    ensures cursor < end ==> !Covered(intervals, cursor)
  {
    cursor := start;
    var k := 0;
    while k < |intervals|
      invariant 0 <= k <= |intervals| && start <= cursor < end
      invariant Spans(intervals, start, cursor)
      invariant forall j | 0 <= j < k :: intervals[j].to <= intervals[j].from || intervals[j].to <= cursor
    {
      var i := intervals[k];
      if i.to <= i.from || i.to <= cursor {
        k := k + 1;
        continue;
      }
      if cursor < i.from {
        break;
      }
      forall x | start <= x < i.to
        ensures Covered(intervals, x)
      {
        if cursor <= x { assert Holds(intervals[k], x); }
      }
      cursor := i.to;
      if end <= cursor {
        return;
      }
      k := k + 1;
    }
  }

  // ---- coverage read back from the store ----

  /** A normal multirange: sorted, non-empty pieces that neither overlap nor touch. */
  ghost predicate Normal(s: seq<Observed>) {
    && (forall i | 0 <= i < |s| :: s[i].from < s[i].to)
    && (forall i, j | 0 <= i < j < |s| :: s[i].to < s[j].from)
  }

  /** Add one range to a normal multirange: overlapping and adjacent pieces merge, gaps stay. */
  function Union(s: seq<Observed>, r: Observed): (u: seq<Observed>)
    requires Normal(s) && r.from < r.to
    ensures Normal(u)
    ensures forall i | 0 <= i < |u| :: r.from <= u[i].from || (s != [] && s[0].from <= u[i].from)
    decreases |s|
  {
    if s == [] then [r]
    else if r.to < s[0].from then [r] + s
    else if s[0].to < r.from then [s[0]] + Union(s[1..], r)
    else Union(s[1..], Observed(if r.from < s[0].from then r.from else s[0].from, if s[0].to < r.to then r.to else s[0].to))
  }

  lemma CoveredHead(h: Observed, t: seq<Observed>, x: Instant)
    ensures Covered([h] + t, x) <==> Holds(h, x) || Covered(t, x)
  {
    var s := [h] + t;
    if Covered(t, x) {
      var k :| 0 <= k < |t| && Holds(t[k], x);
      assert Holds(s[k + 1], x);
    }
    if Holds(h, x) { assert Holds(s[0], x); }
    if Covered(s, x) {
      var k :| 0 <= k < |s| && Holds(s[k], x);
      if k > 0 { assert Holds(t[k - 1], x); }
    }
  }

  /** Merging loses no instant and closes no gap. */
  lemma {:induction false} UnionCovers(s: seq<Observed>, r: Observed, x: Instant)
    requires Normal(s) && r.from < r.to
    ensures Covered(Union(s, r), x) <==> Covered(s, x) || Holds(r, x)
    decreases |s|
  {
    if s == [] {
      CoveredHead(r, [], x);
    } else if r.to < s[0].from {
      CoveredHead(r, s, x);
    } else {
      assert s == [s[0]] + s[1..];
      CoveredHead(s[0], s[1..], x);
      if s[0].to < r.from {
        CoveredHead(s[0], Union(s[1..], r), x);
        UnionCovers(s[1..], r, x);
      } else {
        UnionCovers(s[1..], Observed(if r.from < s[0].from then r.from else s[0].from, if s[0].to < r.to then r.to else s[0].to), x);
      }
    }
  }

  function CoverageFor(ranges: seq<Observed>): Coverage {
    if ranges == [] then Coverage(ZERO_TIME, ZERO_TIME, [], 0, true)
    else Coverage(ranges[0].from, ranges[|ranges| - 1].to, ranges, 0, true)
  }

  /** For coverage read from the store the diagnostic bounds never refuse a fully observed period, so the
      decision is: a real window, on whole hours, closed, with every instant observed. */
  lemma StoredCoverageDecides(p: Period, ranges: seq<Observed>, now: Instant)
    requires Normal(ranges) && forall i | 0 <= i < |ranges| :: ZERO_TIME < ranges[i].from
    ensures Guard(p, CoverageFor(ranges), now) == Attestable && Spans(ranges, p.start, p.end) <==>
            && p.customer != "" && p.start < p.end && p.end <= now
            && p.start % HOUR == 0 && p.end % HOUR == 0 && Spans(ranges, p.start, p.end)
  {
    if p.start < p.end && Spans(ranges, p.start, p.end) {
      assert Covered(ranges, p.start) && Covered(ranges, p.end - 1);
      var i :| 0 <= i < |ranges| && Holds(ranges[i], p.start);
      var j :| 0 <= j < |ranges| && Holds(ranges[j], p.end - 1);
      assert ranges[0].from <= ranges[i].from && ranges[j].to <= ranges[|ranges| - 1].to;
    }
  }
}
