/**
 From usage records to the document's lines: totals per meter, independent of the order in
 which the totals map is walked.
 */
module EvidenceTotals {
  import opened Clock
  import opened Sorting
  import opened Text
  import opened Canonical
  import opened Evidence

  datatype UsageRecord = UsageRecord(tenant: string, meter: string, kind: string, periodStart: Instant, value: int)

  const GAUGE := "gauge"

  predicate InPeriod(r: UsageRecord, p: Period) {
    r.tenant == p.customer && p.start <= r.periodStart < p.end
  }

  /** The records of the period for one meter, in store order. */
  function ForMeter(records: seq<UsageRecord>, p: Period, meter: string): seq<UsageRecord> {
    if records == [] then []
    else
      var last := records[|records| - 1];
      ForMeter(records[..|records| - 1], p, meter) + if InPeriod(last, p) && last.meter == meter then [last] else []
  }

  /** A gauge record resets the running value; any other record adds to it. */
  function Level(rs: seq<UsageRecord>): int {
    if rs == [] then 0
    else
      var last := rs[|rs| - 1];
      if last.kind == GAUGE then last.value else Level(rs[..|rs| - 1]) + last.value
  }

  function Sum(rs: seq<UsageRecord>): int {
    if rs == [] then 0 else Sum(rs[..|rs| - 1]) + rs[|rs| - 1].value
  }

  /** Counters sum. */
  lemma {:induction false} CountersSum(rs: seq<UsageRecord>)
    requires forall i | 0 <= i < |rs| :: rs[i].kind != GAUGE
    ensures Level(rs) == Sum(rs)
  {
    if rs != [] {
      CountersSum(rs[..|rs| - 1]);
    }
  }

  /** A gauge takes its last record, plus only what was counted after it. */
  lemma {:induction false} LastGaugeWins(rs: seq<UsageRecord>, g: nat)
    requires g < |rs| && rs[g].kind == GAUGE && forall i | g < i < |rs| :: rs[i].kind != GAUGE
    ensures Level(rs) == rs[g].value + Sum(rs[g + 1..])
  {
    if g < |rs| - 1 {
      var front := rs[..|rs| - 1];
      LastGaugeWins(front, g);
      assert rs[g + 1..][..|rs| - g - 2] == front[g + 1..];
    } else {
      assert rs[g + 1..] == [];
    }
  }

  /** The totals map: one line per meter seen, its kind taken from the first record of the meter. */
  ghost predicate AreTotals(totals: map<string, Line>, records: seq<UsageRecord>, p: Period) {
    && (forall m :: m in totals <==> ForMeter(records, p, m) != [])
    && forall m | m in totals ::
         totals[m] == Line(m, ForMeter(records, p, m)[0].kind, Level(ForMeter(records, p, m)))
  }

  method Totals(records: seq<UsageRecord>, p: Period) returns (totals: map<string, Line>)
    ensures AreTotals(totals, records, p)
  {
    totals := map[];
    var i := 0;
    while i < |records|
      invariant 0 <= i <= |records|
      invariant AreTotals(totals, records[..i], p)
    {
      var r := records[i];
      assert records[..i + 1] == records[..i] + [r];
      if InPeriod(r, p) {
        TotalsStep(totals, records[..i], r, p);
        totals := totals[r.meter := Counted(totals, r)];
      } else {
        OutsidePeriod(totals, records[..i], r, p);
      }
      i := i + 1;
    }
    assert records[..i] == records;
  }

  lemma ForMeterAppend(records: seq<UsageRecord>, r: UsageRecord, p: Period, m: string)
    ensures ForMeter(records + [r], p, m) == ForMeter(records, p, m) + if InPeriod(r, p) && r.meter == m then [r] else []
  {
    assert (records + [r])[..|records|] == records;
  }

  lemma OutsidePeriod(totals: map<string, Line>, records: seq<UsageRecord>, r: UsageRecord, p: Period)
    requires AreTotals(totals, records, p) && !InPeriod(r, p)
    ensures AreTotals(totals, records + [r], p)
  {
    forall m: string
      ensures ForMeter(records + [r], p, m) == ForMeter(records, p, m)
    {
      ForMeterAppend(records, r, p, m);
    }
  }

  /** A meter's line once one more of its records is counted. */
  function Counted(totals: map<string, Line>, r: UsageRecord): Line {
    var before := if r.meter in totals then totals[r.meter] else Line(r.meter, r.kind, 0);
    before.(value := if r.kind == GAUGE then r.value else before.value + r.value)
  }

  lemma CountedLine(totals: map<string, Line>, r: UsageRecord, rs: seq<UsageRecord>)
    requires r.meter in totals <==> rs != []
    requires rs != [] ==> totals[r.meter] == Line(r.meter, rs[0].kind, Level(rs))
    ensures Counted(totals, r) == Line(r.meter, (rs + [r])[0].kind, Level(rs + [r]))
  {
    assert (rs + [r])[..|rs|] == rs;
  }

  /** The line a list of a meter's records comes to, if any. */
  ghost predicate LineOk(totals: map<string, Line>, m: string, rs: seq<UsageRecord>) {
    (m in totals <==> rs != []) && (rs != [] ==> totals[m] == Line(m, rs[0].kind, Level(rs)))
  }

  lemma LineStep(totals: map<string, Line>, records: seq<UsageRecord>, r: UsageRecord, p: Period, m: string)
    requires InPeriod(r, p) && LineOk(totals, m, ForMeter(records, p, m))
    ensures LineOk(totals[r.meter := Counted(totals, r)], m, ForMeter(records + [r], p, m))
  {
    ForMeterAppend(records, r, p, m);
    if m == r.meter {
      CountedLine(totals, r, ForMeter(records, p, m));
    } else {
      assert ForMeter(records, p, m) + [] == ForMeter(records, p, m);
    }
  }

  lemma TotalsStep(totals: map<string, Line>, records: seq<UsageRecord>, r: UsageRecord, p: Period)
    requires AreTotals(totals, records, p) && InPeriod(r, p)
    ensures AreTotals(totals[r.meter := Counted(totals, r)], records + [r], p)
  {
    var totals' := totals[r.meter := Counted(totals, r)];
    forall m: string
      ensures LineOk(totals', m, ForMeter(records + [r], p, m))
    {
      assert LineOk(totals, m, ForMeter(records, p, m));
      LineStep(totals, records, r, p, m);
    }
  }

  lemma {:induction false} TotalsUnique(a: map<string, Line>, b: map<string, Line>, records: seq<UsageRecord>, p: Period)
    requires AreTotals(a, records, p) && AreTotals(b, records, p)
    ensures a == b
  {
    assert forall m :: m in a <==> m in b;
  }

  // ---- lines in meter order ----

  predicate MeterFirst(a: Line, b: Line) {
    AtMost(a.meter, b.meter)
  }

  lemma MeterFirstIsTotal()
    ensures TotalPreorder(MeterFirst)
  {
    forall a: Line, b: Line
      ensures MeterFirst(a, b) || MeterFirst(b, a)
    {
      AtMostTotal(a.meter, b.meter);
    }
    forall a: Line, b: Line, c: Line | MeterFirst(a, b) && MeterFirst(b, c)
      ensures MeterFirst(a, c)
    {
      AtMostTransitive(a.meter, b.meter, c.meter);
    }
  }

  /** `lines` holds each total exactly once, in meter order. */
  ghost predicate AreLines(lines: seq<Line>, totals: map<string, Line>) {
    && SortedBy(lines, MeterFirst)
    && (forall i, j | 0 <= i < j < |lines| :: lines[i].meter != lines[j].meter)
    && (forall i | 0 <= i < |lines| :: lines[i].meter in totals && totals[lines[i].meter] == lines[i])
    && (forall m | m in totals :: exists i :: 0 <= i < |lines| && lines[i].meter == m)
  }

  lemma SameFirst(a: seq<Line>, b: seq<Line>, totals: map<string, Line>)
    requires AreLines(a, totals) && AreLines(b, totals) && a != []
    ensures b != [] && a[0] == b[0]
  {
    assert a[0].meter in totals;
    var i :| 0 <= i < |b| && b[i].meter == a[0].meter;
    assert b[0].meter in totals;
    var k :| 0 <= k < |a| && a[k].meter == b[0].meter;
    if 0 < i && 0 < k {
      assert MeterFirst(b[0], b[i]) && MeterFirst(a[0], a[k]);
      AtMostAntisymmetric(b[0].meter, a[0].meter);
    }
  }

  /** Sorting fixes the lines completely: no trace of the map's walk order is left. */
  lemma {:induction false} LinesUnique(a: seq<Line>, b: seq<Line>, totals: map<string, Line>)
    requires AreLines(a, totals) && AreLines(b, totals)
    ensures a == b
    decreases |a|
  {
    if a == [] {
      assert b == [] by {
        if b != [] { SameFirst(b, a, totals); }
      }
    } else {
      SameFirst(a, b, totals);
      RestOfLines(a, totals);
      RestOfLines(b, totals);
      LinesUnique(a[1..], b[1..], totals - {a[0].meter});
      assert a == [a[0]] + a[1..] && b == [b[0]] + b[1..];
    }
  }

  lemma RestOfLines(a: seq<Line>, totals: map<string, Line>)
    requires AreLines(a, totals) && a != []
    ensures AreLines(a[1..], totals - {a[0].meter})
  {
    var rest := a[1..];
    forall m | m in totals - {a[0].meter}
      ensures exists i :: 0 <= i < |rest| && rest[i].meter == m
    {
      var i :| 0 <= i < |a| && a[i].meter == m;
      assert rest[i - 1].meter == m;
    }
    assert forall i | 0 <= i < |rest| :: rest[i] == a[i + 1];
  }

  /** Walk the totals in any order, then sort. */
  method SortedLines(totals: map<string, Line>) returns (lines: seq<Line>)
    requires forall m | m in totals :: totals[m].meter == m
    ensures AreLines(lines, totals)
  {
    var walked: seq<Line> := [];
    var left := totals.Keys;
    while left != {}
      invariant left <= totals.Keys
      invariant Walked(walked, totals, left)
      decreases |left|
    {
      var m :| m in left;
      WalkedOne(walked, totals, left, m);
      left := left - {m};
      walked := walked + [totals[m]];
    }
    MeterFirstIsTotal();
    lines := Sorted(walked, MeterFirst);
    SortingKeepsLines(walked, lines, totals);
  }

  ghost predicate Walked(walked: seq<Line>, totals: map<string, Line>, left: set<string>) {
    && (forall i, j | 0 <= i < j < |walked| :: walked[i].meter != walked[j].meter)
    && (forall i | 0 <= i < |walked| ::
          walked[i].meter in totals && walked[i].meter !in left && totals[walked[i].meter] == walked[i])
    && (forall m | m in totals && m !in left :: exists i :: 0 <= i < |walked| && walked[i].meter == m)
  }

  lemma WalkedOne(walked: seq<Line>, totals: map<string, Line>, left: set<string>, m: string)
    requires Walked(walked, totals, left) && m in left && m in totals && totals[m].meter == m
    ensures Walked(walked + [totals[m]], totals, left - {m})
  {
    var next := walked + [totals[m]];
    forall k | k in totals && k !in left - {m}
      ensures exists i :: 0 <= i < |next| && next[i].meter == k
    {
      if k == m {
        assert next[|walked|].meter == k;
      } else {
        var i :| 0 <= i < |walked| && walked[i].meter == k;
        assert next[i].meter == k;
      }
    }
  }

  lemma {:induction false} DistinctByCount(s: seq<Line>)
    ensures (forall i, j | 0 <= i < j < |s| :: s[i].meter != s[j].meter) ==> forall l :: multiset(s)[l] <= 1
  {
    if s != [] && (forall i, j | 0 <= i < j < |s| :: s[i].meter != s[j].meter) {
      var front := s[..|s| - 1];
      DistinctByCount(front);
      assert s == front + [s[|s| - 1]];
      assert s[|s| - 1] !in front;
    }
  }

  lemma SortingKeepsLines(walked: seq<Line>, lines: seq<Line>, totals: map<string, Line>)
    requires Walked(walked, totals, {}) && SortedBy(lines, MeterFirst) && multiset(lines) == multiset(walked)
    ensures AreLines(lines, totals)
  {
    forall i | 0 <= i < |lines|
      ensures lines[i] in walked
    {
      assert lines[i] in multiset(lines);
    }
    DistinctByCount(walked);
    forall i, j | 0 <= i < j < |lines|
      ensures lines[i].meter != lines[j].meter
    {
      if lines[i].meter == lines[j].meter {
        assert lines[i] == lines[j];
        TwiceCounts(lines, i, j);
        assert false;
      }
    }
    forall m | m in totals
      ensures exists i :: 0 <= i < |lines| && lines[i].meter == m
    {
      var i :| 0 <= i < |walked| && walked[i].meter == m;
      assert walked[i] in multiset(lines);
      var k :| 0 <= k < |lines| && lines[k] == walked[i];
      assert lines[k].meter == m;
    }
  }

  lemma TwiceCounts(s: seq<Line>, i: nat, j: nat)
    requires i < j < |s| && s[i] == s[j]
    ensures multiset(s)[s[i]] >= 2
  {
    assert s == s[..i] + [s[i]] + s[i + 1..j] + [s[j]] + s[j + 1..];
    assert multiset(s) == multiset(s[..i]) + multiset{s[i]} + multiset(s[i + 1..j]) + multiset{s[j]} + multiset(s[j + 1..]);
  }
}
