/**
 Hourly issuance counters materialized from mint receipts, and the direct recount they refine.
 */
module Issuance {
  import opened Clock
  import opened Canonical
  import opened Evidence
  import opened EvidenceTotals
  import opened EvidenceDoc
  import opened Options

  datatype Status = Unclassified | Unverifiable | Mint | OtherStatus

  datatype Receipt = Receipt(eventId: string, fingerprint: string, sequence: nat, status: Status, time: Instant)

  datatype IssuedCert = IssuedCert(eventId: Option<string>, eventType: string)

  /** One tenant's issuance facts. */
  datatype Ledger = Ledger(historyKnown: bool, receipts: seq<Receipt>, issued: set<IssuedCert>)

  const COUNTER := "counter"
  const SELF_DESCRIBING := {"edge.delegation.issued", "tsa.certificate.registered"}

  // ---- first mints ----

  /** The first mint receipt of each fingerprint, by event sequence. */
  function FirstMints(receipts: seq<Receipt>): map<string, Receipt> {
    if receipts == [] then map[]
    else
      var front := FirstMints(receipts[..|receipts| - 1]);
      var r := receipts[|receipts| - 1];
      if r.status.Mint? && (r.fingerprint !in front || r.sequence < front[r.fingerprint].sequence) then front[r.fingerprint := r] else front
  }

  /** Every minted fingerprint is there, under a receipt no other mint of it precedes. */
  lemma {:induction false} FirstMintsAreFirst(receipts: seq<Receipt>, f: string)
    ensures f in FirstMints(receipts) <==> exists r :: r in receipts && r.status.Mint? && r.fingerprint == f
    ensures f in FirstMints(receipts) ==>
              var m := FirstMints(receipts)[f];
              m in receipts && m.status.Mint? && m.fingerprint == f
              && forall r | r in receipts && r.status.Mint? && r.fingerprint == f :: m.sequence <= r.sequence
  {
    if receipts != [] {
      var front := receipts[..|receipts| - 1];
      var r := receipts[|receipts| - 1];
      FirstMintsAreFirst(front, f);
      assert receipts == front + [r];
      assert forall x :: x in receipts <==> x in front || x == r;
    }
  }

  // ---- the direct recount ----

  function MintedIn(mints: map<string, Receipt>, from: Instant, to: Instant): set<string> {
    set f | f in mints && from <= mints[f].time < to
  }

  predicate HistoryKnown(l: Ledger) {
    && l.historyKnown
    && !(exists r | r in l.receipts :: r.status.Unclassified? || r.status.Unverifiable?)
    && !(exists c | c in l.issued ::
           c.eventId.None? || (c.eventType !in SELF_DESCRIBING && !(exists r | r in l.receipts :: r.eventId == c.eventId.value)))
  }

  function IssuedInPeriod(l: Ledger, from: Instant, to: Instant): (int, bool) {
    (|MintedIn(FirstMints(l.receipts), from, to)|, HistoryKnown(l))
  }

  /** History is known exactly when it is declared so, every receipt is of a known kind, and every certificate issued
      names its event and that event either describes itself or has a receipt. */
  lemma HistoryKnownIff(l: Ledger)
    ensures HistoryKnown(l) <==>
            && l.historyKnown
            && (forall r | r in l.receipts :: r.status == Mint || r.status == OtherStatus)
            && (forall c | c in l.issued ::
                  && c.eventId.Some?
                  && (|| c.eventType == "edge.delegation.issued" || c.eventType == "tsa.certificate.registered"
                      || exists r :: r in l.receipts && r.eventId == c.eventId.value))
  {
  }

  // ---- the materialized hours ----

  datatype Slot = Slot(tenant: string, meter: string, period: Instant)

  datatype Cell = Cell(kind: string, value: int)

  type Table = map<Slot, Cell>

  function MintedInHour(mints: map<string, Receipt>, hour: Instant): set<string> {
    set f | f in mints && PeriodStart(mints[f].time) == hour
  }

  function Hours(mints: map<string, Receipt>): set<Instant> {
    set f | f in mints :: PeriodStart(mints[f].time)
  }

  function HourlyCounts(mints: map<string, Receipt>, tenant: string): Table {
    map s | s in (set h | h in Hours(mints) :: Slot(tenant, CERTIFICATES_ISSUED, h)) :: Cell(COUNTER, |MintedInHour(mints, s.period)|)
  }

  function WithoutIssued(t: Table, tenant: string): Table {
    map s | s in t && !(s.tenant == tenant && s.meter == CERTIFICATES_ISSUED) :: t[s]
  }

  /** What a refresh leaves: every other row as it was, and one counter row per hour with a first mint. */
  function Refreshed(t: Table, tenant: string, l: Ledger): Table {
    WithoutIssued(t, tenant) + HourlyCounts(FirstMints(l.receipts), tenant)
  }

  /** A refresh touches the tenant's issuance rows and no other. Of those it leaves exactly the hours in which some
      fingerprint was first minted, each a counter of the fingerprints first minted in it. */
  lemma RefreshReplacesIssued(t: Table, tenant: string, l: Ledger, s: Slot)
    ensures
      var t' := Refreshed(t, tenant, l);
      var mints := FirstMints(l.receipts);
      if s.tenant == tenant && s.meter == "certificates_issued" then
        && (s in t' <==> s.period % HOUR == 0 && MintedIn(mints, s.period, s.period + HOUR) != {})
        && (s in t' ==> t'[s] == Cell("counter", |MintedIn(mints, s.period, s.period + HOUR)|))
      else (s in t' <==> s in t) && (s in t ==> t'[s] == t[s])
  {
    if s.tenant == tenant && s.meter == CERTIFICATES_ISSUED {
      IssuedHour(FirstMints(l.receipts), tenant, s);
    }
    OthersKept(t, tenant, FirstMints(l.receipts), s);
  }

  lemma OthersKept(t: Table, tenant: string, mints: map<string, Receipt>, s: Slot)
    ensures
      var t' := WithoutIssued(t, tenant) + HourlyCounts(mints, tenant);
      if s.tenant == tenant && s.meter == CERTIFICATES_ISSUED
      then (s in t' <==> s in HourlyCounts(mints, tenant)) && (s in t' ==> t'[s] == HourlyCounts(mints, tenant)[s])
      else (s in t' <==> s in t) && (s in t ==> t'[s] == t[s])
  {
  }

  lemma IssuedHour(mints: map<string, Receipt>, tenant: string, s: Slot)
    requires s.tenant == tenant && s.meter == CERTIFICATES_ISSUED
    ensures
      var t := HourlyCounts(mints, tenant);
      && (s in t <==> s.period % HOUR == 0 && MintedIn(mints, s.period, s.period + HOUR) != {})
      && (s in t ==> t[s] == Cell("counter", |MintedIn(mints, s.period, s.period + HOUR)|))
  {
    forall f | f in mints
      ensures PeriodStart(mints[f].time) == s.period <==> s.period % HOUR == 0 && s.period <= mints[f].time < s.period + HOUR
    {
      HourOf(mints[f].time, s.period);
    }
    HourListed(mints, tenant, s);
    if s in HourlyCounts(mints, tenant) {
      var f :| f in mints && PeriodStart(mints[f].time) == s.period;
      assert f in MintedIn(mints, s.period, s.period + HOUR);
    }
    if s.period % HOUR == 0 {
      assert MintedInHour(mints, s.period) == MintedIn(mints, s.period, s.period + HOUR);
    }
  }

  lemma HourListed(mints: map<string, Receipt>, tenant: string, s: Slot)
    requires s.tenant == tenant && s.meter == CERTIFICATES_ISSUED
    ensures s in HourlyCounts(mints, tenant) <==> exists f :: f in mints && PeriodStart(mints[f].time) == s.period
    ensures s in HourlyCounts(mints, tenant) ==> HourlyCounts(mints, tenant)[s] == Cell(COUNTER, |MintedInHour(mints, s.period)|)
  {
    assert s == Slot(tenant, CERTIFICATES_ISSUED, s.period);
    assert s.period in Hours(mints) <==> exists f :: f in mints && PeriodStart(mints[f].time) == s.period;
  }

  lemma HourOf(at: Instant, hour: Instant)
    ensures PeriodStart(at) == hour <==> hour % HOUR == 0 && hour <= at < hour + HOUR
  {
    if hour % HOUR == 0 && hour <= at < hour + HOUR {
      assert hour / HOUR * HOUR == hour && PeriodStart(at) / HOUR * HOUR == PeriodStart(at);
      assert hour / HOUR == PeriodStart(at) / HOUR;
    }
  }

  datatype RefreshResult = Replaced | Skipped | HistoryUnknown

  predicate UnknownHistory(l: Ledger) {
    || !l.historyKnown
    || (exists r | r in l.receipts :: r.status.Unclassified? || r.status.Unverifiable?)
    || (exists c | c in l.issued ::
          c.eventId.None? || (c.eventType !in SELF_DESCRIBING && !(exists r | r in l.receipts :: r.eventId == c.eventId.value)))
  }

  /** The rows for hours already inserted. */
  function Except(t: Table, left: set<Instant>): Table {
    map s | s in t && s.period !in left :: t[s]
  }

  lemma OneMoreHour(before: Table, mints: map<string, Receipt>, tenant: string, left: set<Instant>, h: Instant)
    requires h in left && h in Hours(mints)
    ensures before + Except(HourlyCounts(mints, tenant), left - {h}) ==
            (before + Except(HourlyCounts(mints, tenant), left))[Slot(tenant, CERTIFICATES_ISSUED, h) := Cell(COUNTER, |MintedInHour(mints, h)|)]
  {
    var s := Slot(tenant, CERTIFICATES_ISSUED, h);
    var hourly := HourlyCounts(mints, tenant);
    assert s in hourly;
    assert forall x | x in hourly && x.period == h :: x == s;
    assert Except(hourly, left - {h}) == Except(hourly, left)[s := Cell(COUNTER, |MintedInHour(mints, h)|)];
  }

  class MeterTable {
    var table: Table

    constructor ()
      ensures table == map[]
    {
      table := map[];
    }

    /** Replace one live tenant's hourly issuance rows inside one transaction. It writes exactly when the
        recount would call the same history known. */
    method RefreshIssuedTenant(tenant: string, live: bool, l: Ledger) returns (r: RefreshResult)
      modifies this
      ensures r == Replaced <==> live && HistoryKnown(l)
      ensures r == Replaced ==> table == Refreshed(old(table), tenant, l)
      ensures r != Replaced ==> table == old(table)
      ensures r == Skipped <==> !live
    {
      if !live {
        return Skipped;
      }
      if UnknownHistory(l) {
        return HistoryUnknown;
      }
      table := WithoutIssued(table, tenant);
      InsertHours(FirstMints(l.receipts), tenant);
      return Replaced;
    }

    /** One upserted row per hour that holds a first mint. */
    method InsertHours(mints: map<string, Receipt>, tenant: string)
      modifies this
      ensures table == old(table) + HourlyCounts(mints, tenant)
    {
      ghost var hourly := HourlyCounts(mints, tenant);
      var left := Hours(mints);
      assert Except(hourly, left) == map[];
      while left != {}
        invariant left <= Hours(mints)
        invariant table == old(table) + Except(hourly, left)
        decreases |left|
      {
        var h :| h in left;
        OneMoreHour(old(table), mints, tenant, left, h);
        left := left - {h};
        table := table[Slot(tenant, CERTIFICATES_ISSUED, h) := Cell(COUNTER, |MintedInHour(mints, h)|)];
      }
      assert Except(hourly, left) == hourly;
    }
  }

  /** A repeated refresh over the same facts changes nothing. */
  lemma RefreshIsIdempotent(t: Table, tenant: string, l: Ledger)
    ensures Refreshed(Refreshed(t, tenant, l), tenant, l) == Refreshed(t, tenant, l)
  {
    var hourly := HourlyCounts(FirstMints(l.receipts), tenant);
    assert forall s | s in hourly :: s.tenant == tenant && s.meter == CERTIFICATES_ISSUED;
    assert WithoutIssued(Refreshed(t, tenant, l), tenant) == WithoutIssued(t, tenant);
  }

  // ---- reading the rows back ----

  /** `records` lists every row of the tenant in the window exactly once, in whatever order. */
  ghost predicate Lists(records: seq<UsageRecord>, t: Table, p: Period) {
    && (forall i | 0 <= i < |records| ::
          && InPeriod(records[i], p)
          && SlotOf(records[i]) in t && t[SlotOf(records[i])] == Cell(records[i].kind, records[i].value))
    && (forall i, j | 0 <= i < j < |records| :: SlotOf(records[i]) != SlotOf(records[j]))
    && (forall s | s in t && s.tenant == p.customer && p.start <= s.period < p.end :: exists i :: 0 <= i < |records| && SlotOf(records[i]) == s)
  }

  function SlotOf(r: UsageRecord): Slot {
    Slot(r.tenant, r.meter, r.periodStart)
  }

  predicate IsIssued(r: UsageRecord) {
    r.meter == CERTIFICATES_ISSUED
  }

  /** First mints whose hour one of the issuance records holds. */
  function MintedAmong(mints: map<string, Receipt>, records: seq<UsageRecord>): set<string> {
    set f | f in mints && exists r | r in records :: IsIssued(r) && r.periodStart == PeriodStart(mints[f].time)
  }

  ghost predicate HourlyRecords(mints: map<string, Receipt>, records: seq<UsageRecord>, p: Period) {
    && (forall i | 0 <= i < |records| :: InPeriod(records[i], p))
    && (forall i | 0 <= i < |records| && IsIssued(records[i]) ::
          records[i].kind == COUNTER && records[i].value == |MintedInHour(mints, records[i].periodStart)|)
    && (forall i, j | 0 <= i < j < |records| && IsIssued(records[i]) && IsIssued(records[j]) ::
          records[i].periodStart != records[j].periodStart)
  }

  lemma MintedAmongAppend(mints: map<string, Receipt>, records: seq<UsageRecord>, r: UsageRecord)
    requires IsIssued(r) && forall i | 0 <= i < |records| && IsIssued(records[i]) :: records[i].periodStart != r.periodStart
    ensures |MintedAmong(mints, records + [r])| == |MintedAmong(mints, records)| + |MintedInHour(mints, r.periodStart)|
  {
    var a, b := MintedAmong(mints, records), MintedInHour(mints, r.periodStart);
    forall f
      ensures f in MintedAmong(mints, records + [r]) <==> f in a || f in b
    {
      if f in a {
        var x :| x in records && IsIssued(x) && x.periodStart == PeriodStart(mints[f].time);
        assert x in records + [r];
      }
      if f in b { assert r in records + [r]; }
    }
    assert MintedAmong(mints, records + [r]) == a + b;
    assert a !! b;
  }

  lemma MintedAmongSkip(mints: map<string, Receipt>, records: seq<UsageRecord>, r: UsageRecord)
    requires !IsIssued(r)
    ensures MintedAmong(mints, records + [r]) == MintedAmong(mints, records)
  {
    forall f
      ensures f in MintedAmong(mints, records + [r]) <==> f in MintedAmong(mints, records)
    {
      assert forall x | x in records :: x in records + [r];
    }
  }

  /** Adding up hourly rows counts each first mint of those hours once. */
  lemma {:induction false} RowsCountMints(mints: map<string, Receipt>, records: seq<UsageRecord>, p: Period)
    requires HourlyRecords(mints, records, p)
    ensures Sum(ForMeter(records, p, CERTIFICATES_ISSUED)) == |MintedAmong(mints, records)|
    ensures forall i | 0 <= i < |ForMeter(records, p, CERTIFICATES_ISSUED)| :: ForMeter(records, p, CERTIFICATES_ISSUED)[i].kind == COUNTER
  {
    if records == [] {
      assert MintedAmong(mints, records) == {};
    } else {
      var front, r := records[..|records| - 1], records[|records| - 1];
      RowsCountMints(mints, front, p);
      assert records == front + [r];
      var rs := ForMeter(front, p, CERTIFICATES_ISSUED);
      if IsIssued(r) {
        MintedAmongAppend(mints, front, r);
        assert (rs + [r])[..|rs|] == rs;
      } else {
        MintedAmongSkip(mints, front, r);
        assert ForMeter(records, p, CERTIFICATES_ISSUED) == rs;
      }
    }
  }

  lemma WholeHours(from: Instant, to: Instant, x: Instant)
    requires from % HOUR == 0 && to % HOUR == 0
    ensures from <= x < to <==> from <= PeriodStart(x) < to
  {
    var h := PeriodStart(x);
    var a, b, q := from / HOUR, to / HOUR, h / HOUR;
    assert from == a * HOUR && to == b * HOUR && h == q * HOUR;
  }

  /** After a refresh, a listing of the rows is hourly and reaches every first mint of a whole-hour window. */
  lemma RefreshedRowsReachMints(t: Table, l: Ledger, p: Period, records: seq<UsageRecord>)
    requires p.start % HOUR == 0 && p.end % HOUR == 0
    requires Lists(records, Refreshed(t, p.customer, l), p)
    ensures HourlyRecords(FirstMints(l.receipts), records, p)
    ensures MintedAmong(FirstMints(l.receipts), records) == MintedIn(FirstMints(l.receipts), p.start, p.end)
  {
    var mints := FirstMints(l.receipts);
    var table := Refreshed(t, p.customer, l);
    assert HourlyRecords(mints, records, p);
    forall f
      ensures f in MintedAmong(mints, records) <==> f in MintedIn(mints, p.start, p.end)
    {
      if f in mints {
        var h := PeriodStart(mints[f].time);
        WholeHours(p.start, p.end, mints[f].time);
        if p.start <= h < p.end {
          var s := Slot(p.customer, CERTIFICATES_ISSUED, h);
          assert h in Hours(mints);
          assert s in HourlyCounts(mints, p.customer) && s in table;
          var i :| 0 <= i < |records| && SlotOf(records[i]) == s;
          assert records[i] in records && IsIssued(records[i]);
        }
      }
    }
  }

  /** The hourly table refines the recount: over any whole-hour window the metered total equals the direct
      count of distinct fingerprints by first mint. */
  lemma HourlyTotalIsRecount(t: Table, l: Ledger, p: Period, records: seq<UsageRecord>)
    requires p.start % HOUR == 0 && p.end % HOUR == 0
    requires Lists(records, Refreshed(t, p.customer, l), p)
    ensures Level(ForMeter(records, p, CERTIFICATES_ISSUED)) == IssuedInPeriod(l, p.start, p.end).0
  {
    var mints := FirstMints(l.receipts);
    RefreshedRowsReachMints(t, l, p, records);
    RowsCountMints(mints, records, p);
    CountersSum(ForMeter(records, p, CERTIFICATES_ISSUED));
  }

  lemma {:induction false} MeteredLine(lines: seq<Line>)
    ensures (forall i | 0 <= i < |lines| :: lines[i].meter != CERTIFICATES_ISSUED) ==> MeteredIssued(lines) == 0
    ensures forall i | 0 <= i < |lines| && lines[i].meter == CERTIFICATES_ISSUED
                       && (forall j | i < j < |lines| :: lines[j].meter != CERTIFICATES_ISSUED) ::
              MeteredIssued(lines) == lines[i].value
  {
    if lines != [] {
      MeteredLine(lines[..|lines| - 1]);
    }
  }

  lemma MeteredIsTotal(lines: seq<Line>, totals: map<string, Line>)
    requires AreLines(lines, totals)
    ensures MeteredIssued(lines) == if CERTIFICATES_ISSUED in totals then totals[CERTIFICATES_ISSUED].value else 0
  {
    MeteredLine(lines);
    if CERTIFICATES_ISSUED in totals {
      var i :| 0 <= i < |lines| && lines[i].meter == CERTIFICATES_ISSUED;
      assert totals[CERTIFICATES_ISSUED] == lines[i];
    }
  }

  lemma LineCarriesTotal(lines: seq<Line>, records: seq<UsageRecord>, p: Period)
    requires LinesOf(lines, records, p)
    ensures MeteredIssued(lines) == Level(ForMeter(records, p, CERTIFICATES_ISSUED))
  {
    var totals :| AreTotals(totals, records, p) && AreLines(lines, totals);
    MeteredIsTotal(lines, totals);
    assert CERTIFICATES_ISSUED in totals <==> ForMeter(records, p, CERTIFICATES_ISSUED) != [];
  }

  /** So after a refresh the primary meter of the evidence always reconciles: it is checked exactly when
      history is known, and then it matches. */
  lemma RefreshedEvidenceReconciles(t: Table, l: Ledger, p: Period, records: seq<UsageRecord>, lines: seq<Line>,
                                    gauges: Option<string -> Outcome<Recount>>)
    requires p.start % HOUR == 0 && p.end % HOUR == 0
    requires Lists(records, Refreshed(t, p.customer, l), p) && LinesOf(lines, records, p)
    ensures
      var checks := Reconciled(Some(Reconciler(Ok(IssuedInPeriod(l, p.start, p.end)), gauges)), lines);
      checks.Ok? ==> checks.value != [] && checks.value[0].checked == HistoryKnown(l) == checks.value[0].matches
  {
    HourlyTotalIsRecount(t, l, p, records);
    LineCarriesTotal(lines, records, p);
  }
}
