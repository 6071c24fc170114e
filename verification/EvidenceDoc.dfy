/**
 Building, reconciling and signing the invoice-evidence document.

 Wall-clock formatting, message wording, the recount and the signing key are parameters:
 `fmt`, `say`, `rec` and `signer`.
 */
module EvidenceDoc {
  import opened Clock
  import opened Text
  import opened Canonical
  import opened Evidence
  import opened EvidenceTotals
  import opened Options

  const CERTIFICATES_ISSUED := "certificates_issued"
  const ISSUANCE_SOURCE := "certificate event completion receipts"
  const HISTORY_UNKNOWN := "issuance history is unavailable or unverified"
  const STANDS_ALONE := "no independent event source for this meter"

  datatype Outcome<T> = Ok(value: T) | Err

  /** What the document tells a reader about signing. */
  datatype Verdict =
    | CoverageVerdict(reason: Reason)
    | NeverReconciled
    | Diverged(meter: string, metered: int, eventHistory: int)
    | PrimaryUnchecked(note: string)
    | NoSigningKey

  datatype Recount = Recount(count: int, checked: bool, source: string, note: string)

  /** The recount of issued certificates (count and whether history is known), and of gauges if supported. */
  datatype Reconciler = Reconciler(issued: Outcome<(int, bool)>, gauges: Option<string -> Outcome<Recount>>)

  // ---- reconciliation ----

  /** The metered value of the primary meter: its line, or zero. */
  function MeteredIssued(lines: seq<Line>): int {
    if lines == [] then 0
    else if lines[|lines| - 1].meter == CERTIFICATES_ISSUED then lines[|lines| - 1].value
    else MeteredIssued(lines[..|lines| - 1])
  }

  function PrimaryCheck(metered: int, events: int, known: bool): Check {
    if known then Check(CERTIFICATES_ISSUED, metered, events, true, metered == events, ISSUANCE_SOURCE, "")
    else Check(CERTIFICATES_ISSUED, metered, events, false, false, "", HISTORY_UNKNOWN)
  }

  function OtherCheck(gauges: Option<string -> Outcome<Recount>>, l: Line): Outcome<Check> {
    if gauges.None? then Ok(Check(l.meter, l.value, 0, false, false, "", STANDS_ALONE))
    else match gauges.value(l.meter)
      case Err => Err
      case Ok(r) => Ok(Check(l.meter, l.value, r.count, r.checked, r.checked && r.count == l.value, r.source, r.note))
  }

  /** One check per line other than the primary meter, in line order. */
  function OtherChecks(gauges: Option<string -> Outcome<Recount>>, lines: seq<Line>): Outcome<seq<Check>> {
    if lines == [] then Ok([])
    else
      var last := lines[|lines| - 1];
      var front := OtherChecks(gauges, lines[..|lines| - 1]);
      if front.Err? || last.meter == CERTIFICATES_ISSUED then front
      else match OtherCheck(gauges, last)
        case Err => Err
        case Ok(check) => Ok(front.value + [check])
  }

  function Reconciled(rec: Option<Reconciler>, lines: seq<Line>): Outcome<seq<Check>> {
    if rec.None? then Ok([])
    else if rec.value.issued.Err? then Err
    else match OtherChecks(rec.value.gauges, lines)
      case Err => Err
      case Ok(rest) => Ok([PrimaryCheck(MeteredIssued(lines), rec.value.issued.value.0, rec.value.issued.value.1)] + rest)
  }

  /** The metered value is that of the last line of the primary meter, or zero when there is none. */
  ghost predicate MeteredAs(lines: seq<Line>, v: int) {
    || (v == 0 && forall i | 0 <= i < |lines| :: lines[i].meter != CERTIFICATES_ISSUED)
    || exists i ::
         && 0 <= i < |lines| && lines[i].meter == CERTIFICATES_ISSUED && lines[i].value == v
         && forall j | i < j < |lines| :: lines[j].meter != CERTIFICATES_ISSUED
  }

  /** What an independent source says of a meter: its count, and whether it was consulted at all. */
  ghost predicate GaugeSays(gauges: Option<string -> Outcome<Recount>>, meter: string, count: int, checked: bool) {
    if gauges.None? then count == 0 && !checked
    else gauges.value(meter).Ok? && gauges.value(meter).value.count == count && gauges.value(meter).value.checked == checked
  }

  /** The check sets a metered value against a count, and matches exactly when it was made and they are equal. */
  predicate Compares(c: Check, meter: string, metered: int, count: int, checked: bool) {
    && c.meter == meter && c.metered == metered && c.eventHistory == count
    && c.checked == checked && (c.matches <==> checked && metered == count)
  }

  /** How many of the first `n` lines are of other meters than the primary. */
  function OthersBefore(lines: seq<Line>, n: nat): nat
    requires n <= |lines|
  {
    if n == 0 then 0 else OthersBefore(lines, n - 1) + if lines[n - 1].meter == CERTIFICATES_ISSUED then 0 else 1
  }

  /** Each line of another meter has its check, in line order. */
  ghost predicate OthersChecked(gauges: Option<string -> Outcome<Recount>>, lines: seq<Line>, checks: seq<Check>) {
    |checks| == OthersBefore(lines, |lines|) && CheckedBefore(gauges, lines, |lines|, checks)
  }

  ghost predicate CheckedBefore(gauges: Option<string -> Outcome<Recount>>, lines: seq<Line>, n: nat, checks: seq<Check>)
    requires n <= |lines|
  {
    forall i | 0 <= i < n && lines[i].meter != CERTIFICATES_ISSUED ::
      CheckedAt(gauges, lines[i], checks, OthersBefore(lines, i))
  }

  ghost predicate CheckedAt(gauges: Option<string -> Outcome<Recount>>, l: Line, checks: seq<Check>, k: nat) {
    && k < |checks|
    && GaugeSays(gauges, l.meter, checks[k].eventHistory, checks[k].checked)
    && Compares(checks[k], l.meter, l.value, checks[k].eventHistory, checks[k].checked)
  }

  /** Some recount that is needed fails. */
  ghost predicate RecountFails(rec: Reconciler, lines: seq<Line>) {
    || rec.issued.Err?
    || (rec.gauges.Some?
        && exists i :: 0 <= i < |lines| && lines[i].meter != CERTIFICATES_ISSUED && rec.gauges.value(lines[i].meter).Err?)
  }

  /** What reconciliation is for: no checks without a source, an error when a recount fails, and otherwise the primary
      meter's check first and then one for every other line. */
  ghost predicate Reconciles(r: Outcome<seq<Check>>, rec: Option<Reconciler>, lines: seq<Line>) {
    if rec.None? then r == Ok([])
    else if RecountFails(rec.value, lines) then r == Err
    else
      && r.Ok? && r.value != []
      && MeteredAs(lines, r.value[0].metered)
      && Compares(r.value[0], CERTIFICATES_ISSUED, r.value[0].metered, rec.value.issued.value.0, rec.value.issued.value.1)
      && OthersChecked(rec.value.gauges, lines, r.value[1..])
  }

  lemma {:induction false} MeteredIssuedIs(lines: seq<Line>)
    ensures MeteredAs(lines, MeteredIssued(lines))
  {
    if lines != [] {
      var n := |lines| - 1;
      MeteredIssuedIs(lines[..n]);
      if lines[n].meter != CERTIFICATES_ISSUED && exists i :: 0 <= i < n && lines[i].meter == CERTIFICATES_ISSUED {
        var i :| 0 <= i < n && lines[..n][i].meter == CERTIFICATES_ISSUED && lines[..n][i].value == MeteredIssued(lines)
                 && forall j | i < j < n :: lines[..n][j].meter != CERTIFICATES_ISSUED;
        assert lines[i].meter == CERTIFICATES_ISSUED && lines[i].value == MeteredIssued(lines);
        assert forall j | i < j < n :: lines[j] == lines[..n][j];
      }
    }
  }

  lemma {:induction false} OthersBeforeFront(lines: seq<Line>, m: nat, n: nat)
    requires n <= m <= |lines|
    ensures OthersBefore(lines[..m], n) == OthersBefore(lines, n)
  {
    if n > 0 {
      OthersBeforeFront(lines, m, n - 1);
    }
  }

  lemma OtherCheckIs(gauges: Option<string -> Outcome<Recount>>, l: Line)
    ensures OtherCheck(gauges, l).Err? <==> gauges.Some? && gauges.value(l.meter).Err?
    ensures OtherCheck(gauges, l).Ok? ==> CheckedAt(gauges, l, [OtherCheck(gauges, l).value], 0)
  {
  }

  lemma {:induction false} OtherChecksAre(gauges: Option<string -> Outcome<Recount>>, lines: seq<Line>)
    ensures OtherChecks(gauges, lines).Err? <==>
            gauges.Some? && exists i :: 0 <= i < |lines| && lines[i].meter != CERTIFICATES_ISSUED && gauges.value(lines[i].meter).Err?
    ensures OtherChecks(gauges, lines).Ok? ==> OthersChecked(gauges, lines, OtherChecks(gauges, lines).value)
  {
    if lines != [] {
      var n := |lines| - 1;
      OtherChecksAre(gauges, lines[..n]);
      OtherCheckIs(gauges, lines[n]);
      if gauges.Some? {
        FailureStays(gauges, lines, n);
      }
      if OtherChecks(gauges, lines).Ok? {
        if lines[n].meter == CERTIFICATES_ISSUED {
          OthersSkip(gauges, lines, n, OtherChecks(gauges, lines[..n]).value);
        } else {
          OthersAdd(gauges, lines, n, OtherChecks(gauges, lines[..n]).value, OtherCheck(gauges, lines[n]).value);
        }
      }
    }
  }

  lemma FailureStays(gauges: Option<string -> Outcome<Recount>>, lines: seq<Line>, n: nat)
    requires n + 1 == |lines| && gauges.Some?
    ensures (exists i :: 0 <= i < |lines| && lines[i].meter != CERTIFICATES_ISSUED && gauges.value(lines[i].meter).Err?) <==>
            || (exists i :: 0 <= i < n && lines[..n][i].meter != CERTIFICATES_ISSUED && gauges.value(lines[..n][i].meter).Err?)
            || (lines[n].meter != CERTIFICATES_ISSUED && gauges.value(lines[n].meter).Err?)
  {
    if i :| 0 <= i < n && lines[..n][i].meter != CERTIFICATES_ISSUED && gauges.value(lines[..n][i].meter).Err? {
      assert lines[i] == lines[..n][i];
    }
    if i :| 0 <= i < |lines| && lines[i].meter != CERTIFICATES_ISSUED && gauges.value(lines[i].meter).Err? {
      assert i < n ==> lines[..n][i] == lines[i];
    }
  }

  lemma OthersCount(lines: seq<Line>, n: nat)
    requires |lines| == n + 1
    ensures OthersBefore(lines[..n], n) == OthersBefore(lines, n)
    ensures OthersBefore(lines, n + 1) == OthersBefore(lines, n) + if lines[n].meter == CERTIFICATES_ISSUED then 0 else 1
  {
    OthersBeforeFront(lines, n, n);
  }

  lemma CheckedNext(gauges: Option<string -> Outcome<Recount>>, lines: seq<Line>, n: nat, checks: seq<Check>)
    requires n < |lines| && CheckedBefore(gauges, lines, n, checks)
    requires lines[n].meter != CERTIFICATES_ISSUED ==> CheckedAt(gauges, lines[n], checks, OthersBefore(lines, n))
    ensures CheckedBefore(gauges, lines, n + 1, checks)
  {
  }

  /** One more line, of the primary meter, adds no check. */
  lemma OthersSkip(gauges: Option<string -> Outcome<Recount>>, lines: seq<Line>, n: nat, checks: seq<Check>)
    requires |lines| == n + 1 && lines[n].meter == CERTIFICATES_ISSUED
    requires OthersChecked(gauges, lines[..n], checks)
    ensures OthersChecked(gauges, lines, checks)
  {
    OthersCount(lines, n);
    FrontChecked(gauges, lines, checks, n);
    CheckedNext(gauges, lines, n, checks);
  }

  lemma FrontChecked(gauges: Option<string -> Outcome<Recount>>, lines: seq<Line>, checks: seq<Check>, n: nat)
    requires n <= |lines| && CheckedBefore(gauges, lines[..n], n, checks)
    ensures CheckedBefore(gauges, lines, n, checks)
  {
    forall i | 0 <= i < n && lines[i].meter != CERTIFICATES_ISSUED
      ensures CheckedAt(gauges, lines[i], checks, OthersBefore(lines, i))
    {
      OthersBeforeFront(lines, n, i);
      assert lines[..n][i] == lines[i];
    }
  }

  /** One of any other meter adds its own. */
  lemma OthersAdd(gauges: Option<string -> Outcome<Recount>>, lines: seq<Line>, n: nat, front: seq<Check>, c: Check)
    requires |lines| == n + 1 && lines[n].meter != CERTIFICATES_ISSUED
    requires OthersChecked(gauges, lines[..n], front) && CheckedAt(gauges, lines[n], [c], 0)
    ensures OthersChecked(gauges, lines, front + [c])
  {
    OthersCount(lines, n);
    FrontChecked(gauges, lines, front, n);
    ChecksStay(gauges, lines, front, c, n);
    CheckedLast(gauges, lines[n], front, c);
    CheckedNext(gauges, lines, n, front + [c]);
  }

  lemma CheckedLast(gauges: Option<string -> Outcome<Recount>>, l: Line, front: seq<Check>, c: Check)
    requires CheckedAt(gauges, l, [c], 0)
    ensures CheckedAt(gauges, l, front + [c], |front|)
  {
    assert (front + [c])[|front|] == c;
  }

  lemma ChecksStay(gauges: Option<string -> Outcome<Recount>>, lines: seq<Line>, front: seq<Check>, c: Check, n: nat)
    requires n <= |lines| && CheckedBefore(gauges, lines, n, front)
    ensures CheckedBefore(gauges, lines, n, front + [c])
  {
    forall i | 0 <= i < n && lines[i].meter != CERTIFICATES_ISSUED
      ensures CheckedAt(gauges, lines[i], front + [c], OthersBefore(lines, i))
    {
      var k := OthersBefore(lines, i);
      assert CheckedAt(gauges, lines[i], front, k);
      assert (front + [c])[k] == front[k];
    }
  }

  lemma ReconciledReconciles(rec: Option<Reconciler>, lines: seq<Line>)
    ensures Reconciles(Reconciled(rec, lines), rec, lines)
  {
    if rec.Some? {
      MeteredIssuedIs(lines);
      OtherChecksAre(rec.value.gauges, lines);
      var r := Reconciled(rec, lines);
      if r.Ok? {
        assert r.value[1..] == OtherChecks(rec.value.gauges, lines).value;
      }
    }
  }

  method ReconcileEvidence(rec: Option<Reconciler>, lines: seq<Line>) returns (r: Outcome<seq<Check>>)
    ensures r == Reconciled(rec, lines) && Reconciles(r, rec, lines)
  {
    r := MakeChecks(rec, lines);
    ReconciledReconciles(rec, lines);
  }

  method MakeChecks(rec: Option<Reconciler>, lines: seq<Line>) returns (r: Outcome<seq<Check>>)
    ensures r == Reconciled(rec, lines)
  {
    if rec.None? {
      return Ok([]);
    }
    var metered := 0;
    for i := 0 to |lines|
      invariant metered == MeteredIssued(lines[..i])
    {
      assert lines[..i + 1][..i] == lines[..i];
      if lines[i].meter == CERTIFICATES_ISSUED {
        metered := lines[i].value;
      }
    }
    assert lines[..|lines|] == lines;
    if rec.value.issued.Err? {
      return Err;
    }
    var rest: seq<Check> := [];
    for i := 0 to |lines|
      invariant OtherChecks(rec.value.gauges, lines[..i]) == Ok(rest)
    {
      assert lines[..i + 1][..i] == lines[..i];
      var l := lines[i];
      if l.meter == CERTIFICATES_ISSUED {
        continue;
      }
      var check := OtherCheck(rec.value.gauges, l);
      if check.Err? {
        FailedCheck(rec.value.gauges, lines, i);
        return Err;
      }
      rest := rest + [check.value];
    }
    return Ok([PrimaryCheck(metered, rec.value.issued.value.0, rec.value.issued.value.1)] + rest);
  }

  lemma {:induction false} FailedCheck(gauges: Option<string -> Outcome<Recount>>, lines: seq<Line>, i: nat)
    requires i < |lines| && lines[i].meter != CERTIFICATES_ISSUED && OtherCheck(gauges, lines[i]).Err?
    ensures OtherChecks(gauges, lines).Err?
    decreases |lines|
  {
    if i < |lines| - 1 {
      FailedCheck(gauges, lines[..|lines| - 1], i);
    }
  }

  // ---- what reconciliation refuses ----

  predicate AgreesSoFar(checks: seq<Check>) {
    forall i | 0 <= i < |checks| :: checks[i].checked ==> checks[i].matches
  }

  /** The primary meter was checked against the event history and no checked meter disagrees. */
  predicate Agrees(checks: seq<Check>) {
    checks != [] && checks[0].checked && AgreesSoFar(checks)
  }

  function FirstDivergence(checks: seq<Check>): (i: nat)
    requires !AgreesSoFar(checks)
    ensures i < |checks| && checks[i].checked && !checks[i].matches && AgreesSoFar(checks[..i])
  {
    if AgreesSoFar(checks[..|checks| - 1]) then |checks| - 1
    else
      assert checks[..|checks| - 1][..FirstDivergence(checks[..|checks| - 1])] == checks[..FirstDivergence(checks[..|checks| - 1])];
      FirstDivergence(checks[..|checks| - 1])
  }

  lemma DivergesFirstAt(checks: seq<Check>, i: nat)
    requires i < |checks| && checks[i].checked && !checks[i].matches && AgreesSoFar(checks[..i])
    ensures !AgreesSoFar(checks) && FirstDivergence(checks) == i
  {
    assert !AgreesSoFar(checks);
    var first := FirstDivergence(checks);
    assert forall j | 0 <= j < i :: checks[..i][j] == checks[j];
    assert forall j | 0 <= j < first :: checks[..first][j] == checks[j];
  }

  function Refusal(checks: seq<Check>): (r: Option<Verdict>)
    ensures r.None? <==> Agrees(checks)
  {
    if checks == [] then Some(NeverReconciled)
    else if !AgreesSoFar(checks) then
      var d := checks[FirstDivergence(checks)];
      Some(Diverged(d.meter, d.metered, d.eventHistory))
    else if !checks[0].checked then Some(PrimaryUnchecked(checks[0].note))
    else None
  }

  /** What blocks: no checks at all; the first checked meter that does not match, with its two figures; or a primary
      meter nothing could be checked against, with the reason. */
  ghost predicate Blocks(r: Option<Verdict>, checks: seq<Check>) {
    && (r == Some(NeverReconciled) <==> checks == [])
    && (r.Some? && r.value.Diverged? ==> exists i :: DivergesAt(r.value, checks, i))
    && ((exists i :: 0 <= i < |checks| && checks[i].checked && !checks[i].matches) ==> r.Some? && r.value.Diverged?)
    && (r.Some? && r.value.PrimaryUnchecked? ==> checks != [] && !checks[0].checked && r.value.note == checks[0].note)
    && (r.None? ==> Agrees(checks))
    && (r.Some? ==> r.value.NeverReconciled? || r.value.Diverged? || r.value.PrimaryUnchecked?)
  }

  ghost predicate DivergesAt(v: Verdict, checks: seq<Check>, i: nat) {
    && i < |checks| && checks[i].checked && !checks[i].matches
    && (forall j | 0 <= j < i :: checks[j].checked ==> checks[j].matches)
    && v == Diverged(checks[i].meter, checks[i].metered, checks[i].eventHistory)
  }

  lemma RefusalBlocks(checks: seq<Check>)
    ensures Blocks(Refusal(checks), checks)
  {
    if checks != [] && !AgreesSoFar(checks) {
      var i := FirstDivergence(checks);
      assert forall j | 0 <= j < i :: checks[..i][j] == checks[j];
      assert DivergesAt(Refusal(checks).value, checks, i);
    }
  }

  method ReconciliationBlocksSigning(checks: seq<Check>) returns (r: Option<Verdict>)
    ensures r == Refusal(checks) && Blocks(r, checks)
  {
    RefusalBlocks(checks);
    if |checks| == 0 {
      return Some(NeverReconciled);
    }
    for i := 0 to |checks|
      invariant AgreesSoFar(checks[..i])
    {
      if checks[i].checked && !checks[i].matches {
        DivergesFirstAt(checks, i);
        return Some(Diverged(checks[i].meter, checks[i].metered, checks[i].eventHistory));
      }
    }
    assert checks[..|checks|] == checks;
    if !checks[0].checked {
      return Some(PrimaryUnchecked(checks[0].note));
    }
    return None;
  }

  // ---- the document ----

  function WithDigest(d: Document): (r: Document)
    ensures r.digest == Sha256(Bytes(r)) && Bytes(r) == Bytes(d)
  {
    assert CanonicalRows(d.(digest := Sha256(Bytes(d)))) == CanonicalRows(d);
    d.(digest := Sha256(Bytes(d)))
  }

  function FormatIfKnown(t: Instant, fmt: Instant -> string): string {
    if t == ZERO_TIME then "" else fmt(t)
  }

  function Base(p: Period, c: Coverage, lines: seq<Line>, d: Decision, fmt: Instant -> string, say: Verdict -> string): Document {
    WithDigest(Document(
      p.customer, fmt(p.start), fmt(p.end), lines, d.signable, say(CoverageVerdict(d.reason)),
      if d.signable then fmt(p.start) else FormatIfKnown(c.observedFrom, fmt),
      if d.signable then fmt(p.end) else FormatIfKnown(c.observedTo, fmt),
      [], Sha256(""), None))
  }

  ghost predicate LinesOf(lines: seq<Line>, records: seq<UsageRecord>, p: Period) {
    exists totals :: AreTotals(totals, records, p) && AreLines(lines, totals)
  }

  lemma LinesDetermined(a: seq<Line>, b: seq<Line>, records: seq<UsageRecord>, p: Period)
    requires LinesOf(a, records, p) && LinesOf(b, records, p)
    ensures a == b
  {
    var s :| AreTotals(s, records, p) && AreLines(a, s);
    var t :| AreTotals(t, records, p) && AreLines(b, t);
    TotalsUnique(s, t, records, p);
    LinesUnique(a, b, s);
  }

  /** The document of these records, before reconciliation and signing. */
  ghost predicate Built(doc: Document, p: Period, c: Coverage, records: seq<UsageRecord>, now: Instant,
                        fmt: Instant -> string, say: Verdict -> string)
  {
    LinesOf(doc.lines, records, p) && doc == Base(p, c, doc.lines, Decided(p, c, now), fmt, say)
  }

  method BuildEvidence(p: Period, c: Coverage, records: seq<UsageRecord>, now: Instant, fmt: Instant -> string, say: Verdict -> string)
    returns (doc: Document)
    ensures Built(doc, p, c, records, now, fmt, say)
  {
    var totals := Totals(records, p);
    var lines := SortedLines(totals);
    doc := Document(p.customer, fmt(p.start), fmt(p.end), lines, false, "", "", "", [], Sha256(""), None);
    var decision := MaySign(p, c, now);
    DecisionUnique(decision, Decided(p, c, now), p, c, now);
    doc := doc.(signable := decision.signable, reason := say(CoverageVerdict(decision.reason)));
    if decision.signable {
      doc := doc.(observedFrom := doc.periodStart, observedTo := doc.periodEnd);
    } else {
      if c.observedFrom != ZERO_TIME {
        doc := doc.(observedFrom := fmt(c.observedFrom));
      }
      if c.observedTo != ZERO_TIME {
        doc := doc.(observedTo := fmt(c.observedTo));
      }
    }
    var bytes := CanonicalBytes(doc);
    doc := doc.(digest := Sha256(bytes));
  }

  /** The finished document, given its lines and the coverage decision. */
  function Signed(p: Period, c: Coverage, lines: seq<Line>, d: Decision, rec: Option<Reconciler>,
                  signer: Option<string -> Outcome<string>>, fmt: Instant -> string, say: Verdict -> string): Outcome<Document>
  {
    match Reconciled(rec, lines)
    case Err => Err
    case Ok(checks) =>
      var base := Base(p, c, lines, d, fmt, say).(reconciliation := checks);
      var refusal := Refusal(checks);
      if !base.signable then Ok(WithDigest(base))
      else if refusal.Some? then Ok(WithDigest(base.(signable := false, reason := say(refusal.value))))
      else if signer.None? then Ok(WithDigest(base.(signable := false, reason := say(NoSigningKey))))
      else
        var doc := WithDigest(base);
        match signer.value(Bytes(doc))
        case Err => Err
        case Ok(token) => Ok(doc.(signature := Some(token)))
  }

  method BuildSignedEvidence(p: Period, c: Coverage, records: seq<UsageRecord>, rec: Option<Reconciler>,
                             signer: Option<string -> Outcome<string>>, now: Instant, fmt: Instant -> string, say: Verdict -> string)
    returns (r: Outcome<Document>)
    ensures exists lines :: LinesOf(lines, records, p) && r == Signed(p, c, lines, Decided(p, c, now), rec, signer, fmt, say)
  {
    var doc := BuildEvidence(p, c, records, now, fmt, say);
    ghost var lines := doc.lines;
    assert LinesOf(lines, records, p);
    var recon := ReconcileEvidence(rec, doc.lines);
    if recon.Err? {
      return Err;
    }
    doc := doc.(reconciliation := recon.value);
    if doc.signable {
      var refusal := ReconciliationBlocksSigning(recon.value);
      if refusal.Some? {
        doc := doc.(signable := false, reason := say(refusal.value));
      }
    }
    var bytes := CanonicalBytes(doc);
    doc := doc.(digest := Sha256(bytes));
    if doc.signable {
      if signer.None? {
        doc := doc.(signable := false, reason := say(NoSigningKey));
        bytes := CanonicalBytes(doc);
        doc := doc.(digest := Sha256(bytes));
        return Ok(doc);
      }
      bytes := CanonicalBytes(doc);
      var sig := signer.value(bytes);
      if sig.Err? {
        return Err;
      }
      doc := doc.(signature := Some(sig.value));
    }
    return Ok(doc);
  }

  // ---- what a finished document promises ----

  /** The recount is known and equals the primary meter's line, and every gauge consulted equals its line. */
  ghost predicate Confirmed(rec: Option<Reconciler>, lines: seq<Line>) {
    && rec.Some? && rec.value.issued.Ok? && rec.value.issued.value.1 && MeteredAs(lines, rec.value.issued.value.0)
    && (rec.value.gauges.Some? ==>
          forall i | 0 <= i < |lines| && lines[i].meter != CERTIFICATES_ISSUED ::
            var g := rec.value.gauges.value(lines[i].meter);
            g.Ok? && (g.value.checked ==> g.value.count == lines[i].value))
  }

  lemma MeteredOnce(lines: seq<Line>, v: int, w: int)
    requires MeteredAs(lines, v) && MeteredAs(lines, w)
    ensures v == w
  {
  }

  /** The checks made agree exactly when the figures do. */
  lemma AgreesIffConfirmed(rec: Option<Reconciler>, lines: seq<Line>, checks: seq<Check>)
    requires Reconciles(Ok(checks), rec, lines)
    ensures Agrees(checks) <==> Confirmed(rec, lines)
  {
    if rec.Some? {
      var gauges := rec.value.gauges;
      if Agrees(checks) {
        forall i | 0 <= i < |lines| && lines[i].meter != CERTIFICATES_ISSUED && gauges.Some?
          ensures gauges.value(lines[i].meter).Ok?
                  && (gauges.value(lines[i].meter).value.checked ==> gauges.value(lines[i].meter).value.count == lines[i].value)
        {
          var k := OthersBefore(lines, i);
          assert CheckedAt(gauges, lines[i], checks[1..], k);
          assert checks[1..][k] == checks[k + 1];
        }
      }
      if Confirmed(rec, lines) {
        MeteredOnce(lines, checks[0].metered, rec.value.issued.value.0);
        forall j | 0 < j < |checks| && checks[j].checked
          ensures checks[j].matches
        {
          var i := LineOfCheck(lines, j - 1, |lines|);
          assert CheckedAt(gauges, lines[i], checks[1..], j - 1) && checks[1..][j - 1] == checks[j];
        }
      }
    }
  }

  lemma {:induction false} LineOfCheck(lines: seq<Line>, k: nat, n: nat) returns (i: nat)
    requires n <= |lines| && k < OthersBefore(lines, n)
    ensures i < |lines| && lines[i].meter != CERTIFICATES_ISSUED && OthersBefore(lines, i) == k
  {
    if k < OthersBefore(lines, n - 1) {
      i := LineOfCheck(lines, k, n - 1);
    } else {
      i := n - 1;
    }
  }

  /** On every path the digest is the hash of the final canonical bytes; the document is signable exactly
      when it carries a signature, exactly when coverage decided so, the figures are confirmed by their
      recounts and a key is attached; and the signature is over those same bytes. */
  lemma SigningIsExact(p: Period, c: Coverage, lines: seq<Line>, d: Decision, rec: Option<Reconciler>,
                       signer: Option<string -> Outcome<string>>, fmt: Instant -> string, say: Verdict -> string)
    ensures
      var r := Signed(p, c, lines, d, rec, signer, fmt, say);
      r.Ok? ==>
        var doc := r.value;
        && doc.digest == Sha256(Bytes(doc))
        && (doc.signable <==> doc.signature.Some?)
        && (doc.signable <==> d.signable && Confirmed(rec, lines) && signer.Some?)
        && (doc.signature.Some? ==> signer.Some? && signer.value(Bytes(doc)) == Ok(doc.signature.value))
        && doc.lines == lines && Reconciles(Ok(doc.reconciliation), rec, lines)
  {
    var r := Signed(p, c, lines, d, rec, signer, fmt, say);
    ReconciledReconciles(rec, lines);
    if r.Ok? {
      SignatureOutsideBytes(r.value);
      AgreesIffConfirmed(rec, lines, r.value.reconciliation);
    }
  }

  /** What a returned document says of itself: the customer and period asked for; the period again as the time observed
      when coverage allows it, and otherwise the bounds that are known; and as its reason the first thing that keeps a
      signature off, or that the period is covered. */
  lemma DocumentSays(p: Period, c: Coverage, lines: seq<Line>, d: Decision, rec: Option<Reconciler>,
                     signer: Option<string -> Outcome<string>>, fmt: Instant -> string, say: Verdict -> string)
    ensures
      var r := Signed(p, c, lines, d, rec, signer, fmt, say);
      r.Ok? ==>
        var doc := r.value;
        && doc.customer == p.customer && doc.periodStart == fmt(p.start) && doc.periodEnd == fmt(p.end)
        && (d.signable ==> doc.observedFrom == doc.periodStart && doc.observedTo == doc.periodEnd)
        && (!d.signable ==>
              && doc.observedFrom == (if c.observedFrom == ZERO_TIME then "" else fmt(c.observedFrom))
              && doc.observedTo == (if c.observedTo == ZERO_TIME then "" else fmt(c.observedTo)))
        && (!d.signable || (Confirmed(rec, lines) && signer.Some?) ==> doc.reason == say(CoverageVerdict(d.reason)))
        && (d.signable && Confirmed(rec, lines) && signer.None? ==> doc.reason == say(NoSigningKey))
        && (d.signable && !Confirmed(rec, lines) ==>
              exists v :: Blocks(Some(v), doc.reconciliation) && doc.reason == say(v))
  {
    var r := Signed(p, c, lines, d, rec, signer, fmt, say);
    ReconciledReconciles(rec, lines);
    if r.Ok? {
      var checks := r.value.reconciliation;
      AgreesIffConfirmed(rec, lines, checks);
      RefusalBlocks(checks);
      if d.signable && !Confirmed(rec, lines) {
        var v := Refusal(checks).value;
        assert Blocks(Some(v), checks) && r.value.reason == say(v);
      }
    }
  }

  /** Signing fails only when a recount fails or the signer does. */
  lemma SigningFailsIff(p: Period, c: Coverage, lines: seq<Line>, d: Decision, rec: Option<Reconciler>,
                        signer: Option<string -> Outcome<string>>, fmt: Instant -> string, say: Verdict -> string)
    ensures
      Signed(p, c, lines, d, rec, signer, fmt, say).Err? <==>
      || (rec.Some? && RecountFails(rec.value, lines))
      || (d.signable && Confirmed(rec, lines) && signer.Some? && exists b :: SignsBytes(p, c, lines, d, rec, fmt, say, b) && signer.value(b).Err?)
  {
    ReconciledReconciles(rec, lines);
    var checks := Reconciled(rec, lines);
    if checks.Ok? {
      AgreesIffConfirmed(rec, lines, checks.value);
      if d.signable && Confirmed(rec, lines) && signer.Some? {
        var doc := WithDigest(Base(p, c, lines, d, fmt, say).(reconciliation := checks.value));
        assert SignsBytes(p, c, lines, d, rec, fmt, say, Bytes(doc));
      }
    }
  }

  /** The bytes a signature is asked for: those of the document with its lines and checks. */
  ghost predicate SignsBytes(p: Period, c: Coverage, lines: seq<Line>, d: Decision, rec: Option<Reconciler>,
                             fmt: Instant -> string, say: Verdict -> string, b: string)
  {
    Reconciled(rec, lines).Ok? && b == Bytes(Base(p, c, lines, d, fmt, say).(reconciliation := Reconciled(rec, lines).value))
  }

  lemma FirstCounted(totals: map<string, Line>, r: UsageRecord)
    requires r.meter !in totals
    ensures Counted(totals, r) == Line(r.meter, r.kind, r.value)
  {
  }

  lemma OneLine(l: Line)
    ensures AreLines([l], map[l.meter := l])
  {
    var totals := map[l.meter := l];
    forall m | m in totals
      ensures exists i :: 0 <= i < |[l]| && [l][i].meter == m
    {
      assert [l][0].meter == m;
    }
  }

  lemma TwoLines(a: Line, b: Line)
    requires a.meter != b.meter && AtMost(a.meter, b.meter)
    ensures AreLines([a, b], map[a.meter := a, b.meter := b])
  {
    var totals, lines := map[a.meter := a, b.meter := b], [a, b];
    forall m | m in totals
      ensures exists i :: 0 <= i < |lines| && lines[i].meter == m
    {
      assert lines[0].meter == a.meter && lines[1].meter == b.meter;
    }
  }

  lemma NoTotals(p: Period)
    ensures AreTotals(map[], [], p)
  {
  }

  /** One record makes one line, under whatever meter name it bears. */
  lemma OneRecordLine(r: UsageRecord, p: Period)
    requires InPeriod(r, p)
    ensures AreTotals(map[r.meter := Line(r.meter, r.kind, r.value)], [r], p)
    ensures LinesOf([Line(r.meter, r.kind, r.value)], [r], p)
  {
    NoTotals(p);
    TotalsStep(map[], [], r, p);
    FirstCounted(map[], r);
    assert [] + [r] == [r];
    OneLine(Line(r.meter, r.kind, r.value));
  }

  lemma TwoRecordLines(a: UsageRecord, b: UsageRecord, p: Period)
    requires InPeriod(a, p) && InPeriod(b, p) && a.meter != b.meter && AtMost(a.meter, b.meter)
    ensures LinesOf([Line(a.meter, a.kind, a.value), Line(b.meter, b.kind, b.value)], [a, b], p)
  {
    var la, lb := Line(a.meter, a.kind, a.value), Line(b.meter, b.kind, b.value);
    OneRecordLine(a, p);
    TotalsStep(map[a.meter := la], [a], b, p);
    FirstCounted(map[a.meter := la], b);
    assert [a] + [b] == [a, b] && map[a.meter := la][b.meter := lb] == map[a.meter := la, b.meter := lb];
    TwoLines(la, lb);
  }

  /** The record that stands for two: its meter name holds the text of the first one's line. */
  function Merged(a: UsageRecord, b: UsageRecord): UsageRecord {
    b.(meter := Swallowed(Line(a.meter, a.kind, a.value), Line(b.meter, b.kind, b.value)).meter)
  }

  /** So the documents built for two records, and for one whose meter name holds the text of the other, have one
      digest although their lines differ. */
  lemma TwoEvidencesOneDigest(p: Period, c: Coverage, now: Instant, fmt: Instant -> string, say: Verdict -> string,
                              a: UsageRecord, b: UsageRecord, two: Document, one: Document)
    requires InPeriod(a, p) && InPeriod(b, p) && a.meter != b.meter && AtMost(a.meter, b.meter)
    requires Built(two, p, c, [a, b], now, fmt, say) && Built(one, p, c, [Merged(a, b)], now, fmt, say)
    ensures two.digest == one.digest && two.lines != one.lines
  {
    var la, lb := Line(a.meter, a.kind, a.value), Line(b.meter, b.kind, b.value);
    TwoRecordLines(a, b, p);
    LinesDetermined(two.lines, [la, lb], [a, b], p);
    OneRecordLine(Merged(a, b), p);
    LinesDetermined(one.lines, [Swallowed(la, lb)], [Merged(a, b)], p);
    assert [] + [la, lb] + [] == [la, lb] && [] + [Swallowed(la, lb)] + [] == [Swallowed(la, lb)];
    MeterNameSwallowsLine(two, [], la, lb, []);
    SameBytes(two, one);
  }

  /** The bytes do not depend on the digest or the signature. */
  lemma SameBytes(d: Document, e: Document)
    requires e == d.(lines := e.lines, digest := e.digest, signature := e.signature)
    requires d.digest == Sha256(Bytes(d)) && e.digest == Sha256(Bytes(e)) && Bytes(d) == Bytes(d.(lines := e.lines))
    ensures d.digest == e.digest
  {
    assert CanonicalRows(e) == CanonicalRows(d.(lines := e.lines));
  }

  lemma SignatureOutsideBytes(d: Document)
    ensures Bytes(d) == Bytes(d.(signature := None))
  {
    assert CanonicalRows(d) == CanonicalRows(d.(signature := None));
  }

  /** Once a period is signable its document is fixed: building it again, later and with more coverage,
      gives the same document, digest and signature. */
  lemma SignedEvidenceIsStable(p: Period, c1: Coverage, c2: Coverage, now1: Instant, now2: Instant,
                               records: seq<UsageRecord>, a: seq<Line>, b: seq<Line>, rec: Option<Reconciler>,
                               signer: Option<string -> Outcome<string>>, fmt: Instant -> string, say: Verdict -> string)
    requires Decided(p, c1, now1).signable && Decided(p, c2, now2).signable
    requires LinesOf(a, records, p) && LinesOf(b, records, p)
    ensures Signed(p, c1, a, Decided(p, c1, now1), rec, signer, fmt, say) == Signed(p, c2, b, Decided(p, c2, now2), rec, signer, fmt, say)
  {
    LinesDetermined(a, b, records, p);
    assert Decided(p, c1, now1) == Decision(true, Attestable) == Decided(p, c2, now2);
  }

  /** More coverage and a later build keep a signable period signable. */
  lemma CoverageOnlyGrows(p: Period, c1: Coverage, c2: Coverage, now1: Instant, now2: Instant)
    requires Decided(p, c1, now1).signable && now1 <= now2 && c2.durable
    requires c2.observedFrom != ZERO_TIME && c2.observedTo != ZERO_TIME
    requires c2.observedFrom <= c1.observedFrom && c1.observedTo <= c2.observedTo
    requires forall x | Covered(c1.intervals, x) :: Covered(c2.intervals, x)
    ensures Decided(p, c2, now2).signable
  {
    assert Guard(p, c2, now2) == Attestable;
    assert Spans(c2.intervals, p.start, p.end);
  }
}
