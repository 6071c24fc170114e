/**
 From the recorder to the signature: what a signable period says about every call made in it.
 */
module MeteredEvidence {
  import opened Clock
  import opened RecorderMemory
  import opened RecorderWorld
  import opened RecorderTheorems
  import opened RecorderFleet
  import opened Evidence
  import opened ResourceCollector

  /** What a tenant's committed intervals come to in the store's multirange. */
  function RangesFor(coverage: seq<Interval>, tenant: string): (r: seq<Observed>)
    ensures Normal(r)
  {
    if coverage == [] then []
    else
      var last := coverage[|coverage| - 1];
      var front := RangesFor(coverage[..|coverage| - 1], tenant);
      if last.tenant == tenant && last.from < last.until then Union(front, Observed(last.from, last.until)) else front
  }

  ghost predicate HeldBy(p: Interval, tenant: string, x: Instant) {
    p.tenant == tenant && p.from <= x < p.until
  }

  /** The ranges hold exactly the instants some committed interval holds: nothing is lost in merging
      and no gap is closed. */
  lemma {:induction false} RangesHoldIntervals(coverage: seq<Interval>, tenant: string, x: Instant)
    ensures Covered(RangesFor(coverage, tenant), x) <==> exists p :: p in coverage && HeldBy(p, tenant, x)
  {
    if coverage != [] {
      var front := coverage[..|coverage| - 1];
      var last := coverage[|coverage| - 1];
      RangesHoldIntervals(front, tenant, x);
      assert coverage == front + [last];
      if last.tenant == tenant && last.from < last.until {
        UnionCovers(RangesFor(front, tenant), Observed(last.from, last.until), x);
      }
      if Covered(RangesFor(coverage, tenant), x) {
        if HeldBy(last, tenant, x) {
          assert last in coverage;
        } else {
          var p :| p in front && HeldBy(p, tenant, x);
          assert p in coverage;
        }
      }
    }
  }

  /** The period is signable on what the recorders committed and the collector observed, taken together. */
  ghost predicate SignableOn(coverage: seq<Interval>, collected: seq<Observed>, period: Period, now: Instant) {
    && (forall k | 0 <= k < |collected| :: collected[k].from < collected[k].to)
    && Decided(period, CoverageFor(AddAll(RangesFor(coverage, period.customer), collected)), now).signable
  }

  lemma SignableIsCovered(coverage: seq<Interval>, collected: seq<Observed>, period: Period, now: Instant, x: Instant)
    requires SignableOn(coverage, collected, period, now) && period.start <= x < period.end
    ensures Covered(collected, x) || exists p :: p in coverage && HeldBy(p, period.customer, x)
  {
    var recorded := RangesFor(coverage, period.customer);
    assert Covered(AddAll(recorded, collected), x);
    AddAllCovers(recorded, collected, x);
    RangesHoldIntervals(coverage, period.customer, x);
  }

  lemma HourInPeriod(hour: Instant, at: Instant, start: Instant, end: Instant)
    requires hour % HOUR == 0 && start % HOUR == 0 && end % HOUR == 0 && hour <= at < hour + HOUR && start <= at < end
    ensures start <= hour < end
  {
    assert hour / HOUR * HOUR == hour && start / HOUR * HOUR == start && end / HOUR * HOUR == end;
  }

  /** The table decides for all who write to it: the recorder processes of a fleet and the collector. If a
      tenant's period is signable on the union of their coverage, every call any process received in it lies in
      a span the collector observed, or in an interval some process committed under the live registration; and
      an interval of the call's own process that knew the call as finished tells what became of it. Of a period of
      whole hours, the row the call's usage is in belongs to the period. */
  lemma SignablePeriodIsCounted(
    fleets: seq<Fleet>, moves: seq<Move>, n: nat, j: nat, collected: seq<Observed>, period: Period, now: Instant, i: nat)
    requires FleetRun(fleets, moves) && n < |fleets| && j < |fleets[n]| && i < |fleets[n][j].calls|
    requires SignableOn(fleets[n][j].db.coverage, collected, period, now)
    requires fleets[n][j].calls[i].tenant == period.customer && period.start <= fleets[n][j].calls[i].at < period.end
    ensures
      var w := fleets[n][j];
      || Covered(collected, w.calls[i].at)
      || exists p ::
           && p in w.db.coverage && HeldBy(p, period.customer, w.calls[i].at)
           && p.process < |fleets[n]| && Live(w.db, Observer(p.tenant, p.registration))
           && (p.process == j && i < p.known && i !in p.racing ==>
                 && Counted(w, p, i)
                 && (period.start % HOUR == 0 && period.end % HOUR == 0 && w.calls[i].state.Accepted? ==>
                       var row := RowOf(w.calls[i].state.key);
                       row.meter == w.calls[i].meter && period.start <= row.period < period.end))
  {
    var w := fleets[n][j];
    SignableIsCovered(w.db.coverage, collected, period, now, w.calls[i].at);
    if !Covered(collected, w.calls[i].at) {
      var p :| p in w.db.coverage && HeldBy(p, period.customer, w.calls[i].at);
      FleetCoverageIsTruthful(fleets, moves, n, j, p, i);
      if period.start % HOUR == 0 && period.end % HOUR == 0 && Counted(w, p, i) && w.calls[i].state.Accepted? {
        HourInPeriod(w.calls[i].state.key.period, w.calls[i].at, period.start, period.end);
      }
    }
  }
}
