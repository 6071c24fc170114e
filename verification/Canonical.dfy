/**
 The invoice-evidence document and the canonical bytes its digest and signature cover.
 */
module Canonical {
  import opened Text
  import opened Options

  datatype Line = Line(meter: string, kind: string, value: int)

  datatype Check = Check(meter: string, metered: int, eventHistory: int, checked: bool, matches: bool, source: string, note: string)

  /** The hash is taken to be collision free, so it is its own preimage. */
  datatype Digest = Sha256(bytes: string)

  datatype Document = Document(
    customer: string, periodStart: string, periodEnd: string,
    lines: seq<Line>, signable: bool, reason: string,
    observedFrom: string, observedTo: string,
    reconciliation: seq<Check>,
    digest: Digest, signature: Option<string>)

  function LineFields(l: Line): seq<string> {
    [l.meter, l.kind, Decimal(l.value)]
  }

  function CheckFields(r: Check): seq<string> {
    ["reconcile:" + r.meter, Decimal(r.metered), Decimal(r.eventHistory), BoolText(r.checked), BoolText(r.matches)]
  }

  function LineRows(lines: seq<Line>): seq<string> {
    seq(|lines|, i requires 0 <= i < |lines| => Bars(LineFields(lines[i])))
  }

  function CheckRows(checks: seq<Check>): seq<string> {
    seq(|checks|, i requires 0 <= i < |checks| => Bars(CheckFields(checks[i])))
  }

  function Header(d: Document): seq<string> {
    [d.customer, d.periodStart, d.periodEnd, BoolText(d.signable), d.reason, d.observedFrom, d.observedTo]
  }

  function CanonicalRows(d: Document): seq<string> {
    Header(d) + LineRows(d.lines) + CheckRows(d.reconciliation)
  }

  function Bytes(d: Document): string {
    Rows(CanonicalRows(d))
  }

  /** Fill the builder field by field, as the digest and the signer read it. */
  method CanonicalBytes(d: Document) returns (b: string)
    ensures b == Bytes(d)
  {
    b := "";
    b := b + d.customer + "\n";
    b := b + d.periodStart + "\n";
    b := b + d.periodEnd + "\n";
    b := b + BoolText(d.signable) + "\n";
    b := b + d.reason + "\n";
    b := b + d.observedFrom + "\n";
    b := b + d.observedTo + "\n";
    HeaderRows(d);
    var i := 0;
    while i < |d.lines|
      invariant 0 <= i <= |d.lines|
      invariant b == Rows(Header(d) + LineRows(d.lines[..i]))
    {
      var l := d.lines[i];
      b := b + (l.meter + "|" + l.kind + "|" + Decimal(l.value)) + "\n";
      assert LineRows(d.lines[..i + 1]) == LineRows(d.lines[..i]) + [Bars(LineFields(l))];
      assert Bars(LineFields(l)) == l.meter + "|" + l.kind + "|" + Decimal(l.value) by { LineText(l); }
      RowsAppend(Header(d) + LineRows(d.lines[..i]), Bars(LineFields(l)));
      assert Header(d) + LineRows(d.lines[..i + 1]) == Header(d) + LineRows(d.lines[..i]) + [Bars(LineFields(l))];
      i := i + 1;
    }
    assert d.lines[..i] == d.lines;
    b := AppendChecks(d, b);
  }

  method AppendChecks(d: Document, start: string) returns (b: string)
    requires start == Rows(Header(d) + LineRows(d.lines))
    ensures b == Bytes(d)
  {
    ghost var front := Header(d) + LineRows(d.lines);
    b := start;
    assert front + CheckRows([]) == front;
    var i := 0;
    while i < |d.reconciliation|
      invariant 0 <= i <= |d.reconciliation|
      invariant b == Rows(front + CheckRows(d.reconciliation[..i]))
    {
      CheckAppended(front, d.reconciliation, i);
      b := b + CheckLine(d.reconciliation[i]) + "\n";
      i := i + 1;
    }
    assert d.reconciliation[..i] == d.reconciliation;
  }

  function CheckLine(r: Check): string {
    "reconcile:" + r.meter + "|" + Decimal(r.metered) + "|" + Decimal(r.eventHistory) + "|"
    + BoolText(r.checked) + "|" + BoolText(r.matches)
  }

  lemma CheckAppended(front: seq<string>, checks: seq<Check>, i: nat)
    requires i < |checks|
    ensures Rows(front + CheckRows(checks[..i + 1])) == Rows(front + CheckRows(checks[..i])) + CheckLine(checks[i]) + "\n"
  {
    var row := Bars(CheckFields(checks[i]));
    CheckText(checks[i]);
    RowsAppend(front + CheckRows(checks[..i]), row);
    assert front + CheckRows(checks[..i + 1]) == front + CheckRows(checks[..i]) + [row];
  }

  lemma HeaderRows(d: Document)
    ensures Rows(Header(d) + LineRows([])) ==
            "" + d.customer + "\n" + d.periodStart + "\n" + d.periodEnd + "\n" + BoolText(d.signable) + "\n"
            + d.reason + "\n" + d.observedFrom + "\n" + d.observedTo + "\n"
  {
    var h := Header(d);
    assert h + LineRows([]) == h;
    assert h[..0] == [] && h[..7] == h;
    AppendHeader(h, 0); AppendHeader(h, 1); AppendHeader(h, 2); AppendHeader(h, 3);
    AppendHeader(h, 4); AppendHeader(h, 5); AppendHeader(h, 6);
  }

  lemma AppendHeader(h: seq<string>, i: nat)
    requires i < |h|
    ensures Rows(h[..i + 1]) == Rows(h[..i]) + h[i] + "\n"
  {
    assert h[..i + 1] == h[..i] + [h[i]];
    RowsAppend(h[..i], h[i]);
  }

  lemma LineText(l: Line)
    ensures Bars(LineFields(l)) == l.meter + "|" + l.kind + "|" + Decimal(l.value)
  {
    BarsCons(l.kind, [Decimal(l.value)]);
    BarsCons(l.meter, [l.kind, Decimal(l.value)]);
    assert [l.kind] + [Decimal(l.value)] == [l.kind, Decimal(l.value)];
    assert [l.meter] + [l.kind, Decimal(l.value)] == LineFields(l);
    assert l.meter + "|" + (l.kind + "|" + Decimal(l.value)) == l.meter + "|" + l.kind + "|" + Decimal(l.value);
  }

  lemma BarsCons(x: string, rest: seq<string>)
    requires rest != []
    ensures Bars([x] + rest) == x + "|" + Bars(rest)
  {
    assert ([x] + rest)[1..] == rest;
  }

  lemma CheckText(r: Check)
    ensures Bars(CheckFields(r)) == CheckLine(r)
  {
    var f := CheckFields(r);
    BarsCons(f[3], [f[4]]);
    BarsCons(f[2], [f[3], f[4]]);
    BarsCons(f[1], [f[2], f[3], f[4]]);
    BarsCons(f[0], [f[1], f[2], f[3], f[4]]);
    assert [f[3]] + [f[4]] == [f[3], f[4]];
    assert [f[2]] + [f[3], f[4]] == [f[2], f[3], f[4]];
    assert [f[1]] + [f[2], f[3], f[4]] == [f[1], f[2], f[3], f[4]];
    assert [f[0]] + [f[1], f[2], f[3], f[4]] == f;
    Regrouped(f[0], f[1], f[2], f[3], f[4]);
  }

  lemma Regrouped(a: string, b: string, c: string, d: string, e: string)
    ensures a + "|" + (b + "|" + (c + "|" + (d + "|" + e))) == a + "|" + b + "|" + c + "|" + d + "|" + e
  {
    assert c + "|" + (d + "|" + e) == c + "|" + d + "|" + e;
    assert b + "|" + (c + "|" + d + "|" + e) == b + "|" + c + "|" + d + "|" + e;
  }

  // ---- the bytes determine what they cover ----

  predicate Plain(s: string) {
    Free(s, '\n') && Free(s, '|')
  }

  ghost predicate SeparatorFree(d: Document) {
    && Free(d.customer, '\n') && Free(d.periodStart, '\n') && Free(d.periodEnd, '\n')
    && Free(d.reason, '\n') && Free(d.observedFrom, '\n') && Free(d.observedTo, '\n')
    && (forall i | 0 <= i < |d.lines| :: Plain(d.lines[i].meter) && Plain(d.lines[i].kind))
    && (forall i | 0 <= i < |d.reconciliation| :: Plain(d.reconciliation[i].meter))
  }

  predicate SameCheck(a: Check, b: Check) {
    a.meter == b.meter && a.metered == b.metered && a.eventHistory == b.eventHistory && a.checked == b.checked && a.matches == b.matches
  }

  /** Everything the canonical form covers. */
  ghost predicate SameContent(a: Document, b: Document) {
    && Header(a) == Header(b) && a.signable == b.signable && a.lines == b.lines
    && |a.reconciliation| == |b.reconciliation|
    && forall i | 0 <= i < |a.reconciliation| :: SameCheck(a.reconciliation[i], b.reconciliation[i])
  }

  lemma LineFieldsPlain(l: Line)
    requires Plain(l.meter) && Plain(l.kind)
    ensures forall i | 0 <= i < 3 :: Plain(LineFields(l)[i])
    ensures Free(Bars(LineFields(l)), '\n')
  {
    DecimalInjective(l.value, l.value);
    BarsFree(LineFields(l));
  }

  lemma CheckFieldsPlain(r: Check)
    requires Plain(r.meter)
    ensures forall i | 0 <= i < 5 :: Plain(CheckFields(r)[i])
    ensures Free(Bars(CheckFields(r)), '\n')
  {
    DecimalInjective(r.metered, r.metered);
    DecimalInjective(r.eventHistory, r.eventHistory);
    BoolInjective(r.checked, r.checked);
    BoolInjective(r.matches, r.matches);
    BarsFree(CheckFields(r));
  }

  lemma SameLineText(a: Line, b: Line)
    requires Plain(a.meter) && Plain(a.kind) && Plain(b.meter) && Plain(b.kind)
    requires Bars(LineFields(a)) == Bars(LineFields(b))
    ensures a == b
  {
    LineFieldsPlain(a);
    LineFieldsPlain(b);
    BarsInjective(LineFields(a), LineFields(b));
    assert LineFields(a)[0] == LineFields(b)[0] && LineFields(a)[1] == LineFields(b)[1] && LineFields(a)[2] == LineFields(b)[2];
    DecimalInjective(a.value, b.value);
  }

  lemma SameCheckText(a: Check, b: Check)
    requires Plain(a.meter) && Plain(b.meter)
    requires Bars(CheckFields(a)) == Bars(CheckFields(b))
    ensures SameCheck(a, b)
  {
    CheckFieldsPlain(a);
    CheckFieldsPlain(b);
    var f, g := CheckFields(a), CheckFields(b);
    BarsInjective(f, g);
    assert f[0] == g[0] && f[1] == g[1] && f[2] == g[2] && f[3] == g[3] && f[4] == g[4];
    assert a.meter == f[0][10..] && b.meter == g[0][10..];
    DecimalInjective(a.metered, b.metered);
    DecimalInjective(a.eventHistory, b.eventHistory);
    BoolInjective(a.checked, b.checked);
    BoolInjective(a.matches, b.matches);
  }

  /** A usage row has three fields and a check row five, so one is never read as the other. */
  lemma RowsTellApart(l: Line, r: Check)
    requires Plain(l.meter) && Plain(l.kind) && Plain(r.meter)
    ensures Bars(LineFields(l)) != Bars(CheckFields(r))
  {
    LineFieldsPlain(l);
    CheckFieldsPlain(r);
    if Bars(LineFields(l)) == Bars(CheckFields(r)) {
      BarsInjective(LineFields(l), CheckFields(r));
      assert false;
    }
  }

  lemma RowsAreFree(d: Document)
    requires SeparatorFree(d)
    ensures forall i | 0 <= i < |CanonicalRows(d)| :: Free(CanonicalRows(d)[i], '\n')
  {
    BoolInjective(d.signable, d.signable);
    forall i | 0 <= i < |d.lines| {
      LineFieldsPlain(d.lines[i]);
    }
    forall i | 0 <= i < |d.reconciliation| {
      CheckFieldsPlain(d.reconciliation[i]);
    }
  }

  /** The row lists split where usage ends and checks begin. */
  lemma SameSplit(a: Document, b: Document)
    requires SeparatorFree(a) && SeparatorFree(b) && |a.lines| <= |b.lines|
    requires LineRows(a.lines) + CheckRows(a.reconciliation) == LineRows(b.lines) + CheckRows(b.reconciliation)
    ensures |a.lines| == |b.lines|
  {
    if |a.lines| < |b.lines| {
      var i := |a.lines|;
      assert (LineRows(b.lines) + CheckRows(b.reconciliation))[i] == Bars(LineFields(b.lines[i]));
      assert (LineRows(a.lines) + CheckRows(a.reconciliation))[i] == Bars(CheckFields(a.reconciliation[0]));
      RowsTellApart(b.lines[i], a.reconciliation[0]);
    }
  }

  lemma SameHeader(a: Document, b: Document)
    requires CanonicalRows(a) == CanonicalRows(b)
    ensures Header(a) == Header(b) && a.signable == b.signable
    ensures LineRows(a.lines) + CheckRows(a.reconciliation) == LineRows(b.lines) + CheckRows(b.reconciliation)
  {
    var x, y := CanonicalRows(a), CanonicalRows(b);
    assert Header(a) == x[..7] && Header(b) == y[..7];
    assert Header(a)[3] == Header(b)[3];
    BoolInjective(a.signable, b.signable);
    assert LineRows(a.lines) + CheckRows(a.reconciliation) == x[7..];
    assert LineRows(b.lines) + CheckRows(b.reconciliation) == y[7..];
  }

  lemma SameBody(a: Document, b: Document)
    requires SeparatorFree(a) && SeparatorFree(b) && |a.lines| == |b.lines|
    requires LineRows(a.lines) + CheckRows(a.reconciliation) == LineRows(b.lines) + CheckRows(b.reconciliation)
    ensures a.lines == b.lines && |a.reconciliation| == |b.reconciliation|
    ensures forall i | 0 <= i < |a.reconciliation| :: SameCheck(a.reconciliation[i], b.reconciliation[i])
  {
    var x, y := LineRows(a.lines) + CheckRows(a.reconciliation), LineRows(b.lines) + CheckRows(b.reconciliation);
    assert LineRows(a.lines) == x[..|a.lines|] && LineRows(b.lines) == y[..|a.lines|];
    assert CheckRows(a.reconciliation) == x[|a.lines|..] && CheckRows(b.reconciliation) == y[|a.lines|..];
    forall i | 0 <= i < |a.lines|
      ensures a.lines[i] == b.lines[i]
    {
      assert LineRows(a.lines)[i] == LineRows(b.lines)[i];
      SameLineText(a.lines[i], b.lines[i]);
    }
    forall i | 0 <= i < |a.reconciliation|
      ensures SameCheck(a.reconciliation[i], b.reconciliation[i])
    {
      assert CheckRows(a.reconciliation)[i] == CheckRows(b.reconciliation)[i];
      SameCheckText(a.reconciliation[i], b.reconciliation[i]);
    }
  }

  lemma SameRows(a: Document, b: Document)
    requires SeparatorFree(a) && SeparatorFree(b) && CanonicalRows(a) == CanonicalRows(b)
    ensures SameContent(a, b)
  {
    SameHeader(a, b);
    if |a.lines| <= |b.lines| { SameSplit(a, b); } else { SameSplit(b, a); }
    SameBody(a, b);
  }

  /** For documents whose text holds no separator, equal canonical bytes mean equal content and conversely. */
  lemma CanonicalFormUnambiguous(a: Document, b: Document)
    requires SeparatorFree(a) && SeparatorFree(b)
    ensures Bytes(a) == Bytes(b) <==> SameContent(a, b)
  {
    if Bytes(a) == Bytes(b) {
      RowsAreFree(a);
      RowsAreFree(b);
      RowsInjective(CanonicalRows(a), CanonicalRows(b));
      SameRows(a, b);
    }
    if SameContent(a, b) {
      assert CheckRows(a.reconciliation) == CheckRows(b.reconciliation);
      assert CanonicalRows(a) == CanonicalRows(b);
    }
  }

  /** One line whose meter name holds the text of another line. */
  function Swallowed(a: Line, b: Line): Line {
    Line(a.meter + "|" + a.kind + "|" + Decimal(a.value) + "\n" + b.meter, b.kind, b.value)
  }

  /** A meter name is any text, and one that holds separators lets two documents with different lines share
      their bytes. */
  lemma MeterNameSwallowsLine(d: Document, before: seq<Line>, a: Line, b: Line, after: seq<Line>)
    ensures Bytes(d.(lines := before + [a, b] + after)) == Bytes(d.(lines := before + [Swallowed(a, b)] + after))
  {
    BytesAround(d, before, [a, b], after);
    BytesAround(d, before, [Swallowed(a, b)], after);
    var ra, rb := Bars(LineFields(a)), Bars(LineFields(b));
    SwallowedText(a, b);
    assert LineRows([a, b]) == [ra, rb] && LineRows([Swallowed(a, b)]) == [ra + "\n" + rb];
    SameTwoRows(ra, rb);
  }

  lemma BytesAround(d: Document, before: seq<Line>, middle: seq<Line>, after: seq<Line>)
    ensures Bytes(d.(lines := before + middle + after))
            == Rows(Header(d) + LineRows(before)) + Rows(LineRows(middle)) + Rows(LineRows(after) + CheckRows(d.reconciliation))
  {
    var lines := before + middle + after;
    var front, back := Header(d) + LineRows(before), LineRows(after) + CheckRows(d.reconciliation);
    assert LineRows(lines) == LineRows(before) + LineRows(middle) + LineRows(after);
    assert CanonicalRows(d.(lines := lines)) == front + LineRows(middle) + back by {
      assert Header(d.(lines := lines)) == Header(d);
    }
    RowsAround(front, LineRows(middle), back);
  }

  lemma SwallowedText(a: Line, b: Line)
    ensures Bars(LineFields(Swallowed(a, b))) == Bars(LineFields(a)) + "\n" + Bars(LineFields(b))
  {
    LineText(a);
    LineText(b);
    LineText(Swallowed(a, b));
    var head := a.meter + "|" + a.kind + "|" + Decimal(a.value) + "\n";
    assert head + b.meter + "|" + b.kind + "|" + Decimal(b.value) == head + (b.meter + "|" + b.kind + "|" + Decimal(b.value));
  }

  lemma RowsAround(front: seq<string>, middle: seq<string>, back: seq<string>)
    ensures Rows(front + middle + back) == Rows(front) + Rows(middle) + Rows(back)
  {
    RowsConcat(front + middle, back);
    RowsConcat(front, middle);
  }

  lemma SameTwoRows(x: string, y: string)
    ensures Rows([x, y]) == Rows([x + "\n" + y])
  {
    assert [x, y][1..] == [y] && [y][1..] == [];
    assert x + "\n" + (y + "\n") == (x + "\n" + y) + "\n";
  }
}
