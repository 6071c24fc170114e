/**
 Text used by the canonical rendering: decimal numbers, byte-wise string order, and what
 makes separated fields recoverable.
 */
module Text {
  // ---- decimal numbers ----

  function Digit(d: nat): char
    requires d < 10
  {
    '0' + d as char
  }

  function NatText(n: nat): (s: string)
    ensures s != []
  {
    if n < 10 then [Digit(n)] else NatText(n / 10) + [Digit(n % 10)]
  }

  function Decimal(n: int): string {
    if n < 0 then "-" + NatText(-n) else NatText(n)
  }

  /** The number a digit string denotes. */
  function NatOf(s: string): int {
    if s == [] then 0 else NatOf(s[..|s| - 1]) * 10 + (s[|s| - 1] as int - '0' as int)
  }

  lemma {:induction false} NatTextReads(n: nat)
    ensures NatOf(NatText(n)) == n
    ensures forall i | 0 <= i < |NatText(n)| :: '0' <= NatText(n)[i] <= '9'
  {
    if n < 10 {
      NatOfAppend([], n);
      assert [] + [Digit(n)] == NatText(n);
    } else {
      NatTextReads(n / 10);
      NatOfAppend(NatText(n / 10), n % 10);
    }
  }

  lemma NatOfAppend(s: string, d: nat)
    requires d < 10
    ensures NatOf(s + [Digit(d)]) == NatOf(s) * 10 + d && '0' <= Digit(d) <= '9'
  {
    assert (s + [Digit(d)])[..|s|] == s;
  }

  /** Read a decimal back: a minus sign, then digits. */
  function IntOf(s: string): int {
    if s != [] && s[0] == '-' then -NatOf(s[1..]) else NatOf(s)
  }

  lemma DecimalReads(n: int)
    ensures IntOf(Decimal(n)) == n
  {
    if n < 0 {
      NatTextReads(-n);
      assert Decimal(n)[1..] == NatText(-n);
    } else {
      NatTextReads(n);
      assert '0' <= Decimal(n)[0] <= '9';
    }
  }

  lemma DecimalFree(n: int, c: char)
    requires c != '-' && (c < '0' || '9' < c)
    ensures Free(Decimal(n), c)
  {
    var m := if n < 0 then -n else n;
    NatTextReads(m);
    assert forall i | 0 <= i < |NatText(m)| :: NatText(m)[i] != c;
  }

  /** Decimal text determines the number and holds no separator. */
  lemma DecimalInjective(a: int, b: int)
    ensures Decimal(a) == Decimal(b) ==> a == b
    ensures Free(Decimal(a), '|') && Free(Decimal(a), '\n')
  {
    DecimalReads(a);
    DecimalReads(b);
    DecimalFree(a, '|');
    DecimalFree(a, '\n');
  }

  function BoolText(b: bool): string {
    if b then "true" else "false"
  }

  lemma BoolInjective(a: bool, b: bool)
    ensures BoolText(a) == BoolText(b) ==> a == b
    ensures Free(BoolText(a), '|') && Free(BoolText(a), '\n')
  {
    assert BoolText(true)[0] != BoolText(false)[0];
  }

  // ---- separators ----

  predicate Free(s: string, c: char) {
    forall i | 0 <= i < |s| :: s[i] != c
  }

  /** A field ends at its first separator, so the field and what follows are determined. */
  lemma {:induction false} FirstField(a: string, x: string, b: string, y: string, c: char)
    requires Free(a, c) && Free(b, c) && a + [c] + x == b + [c] + y
    ensures a == b && x == y
  {
    var s := a + [c] + x;
    assert s[|a|] == c && s[|b|] == c;
    assert forall i | 0 <= i < |a| :: s[i] == a[i];
    assert forall i | 0 <= i < |b| :: s[i] == b[i];
    assert |a| == |b|;
    assert a == s[..|a|] && b == s[..|b|] && x == s[|a| + 1..] && y == s[|b| + 1..];
  }

  /** Rows, each ended by a newline. */
  function Rows(rows: seq<string>): string {
    if rows == [] then "" else rows[0] + ['\n'] + Rows(rows[1..])
  }

  lemma {:induction false} RowsInjective(a: seq<string>, b: seq<string>)
    requires forall i | 0 <= i < |a| :: Free(a[i], '\n')
    requires forall i | 0 <= i < |b| :: Free(b[i], '\n')
    requires Rows(a) == Rows(b)
    ensures a == b
  {
    if a != [] && b != [] {
      FirstField(a[0], Rows(a[1..]), b[0], Rows(b[1..]), '\n');
      RowsInjective(a[1..], b[1..]);
      assert a == [a[0]] + a[1..] && b == [b[0]] + b[1..];
    }
  }

  lemma {:induction false} RowsConcat(a: seq<string>, b: seq<string>)
    ensures Rows(a + b) == Rows(a) + Rows(b)
  {
    if a == [] {
      assert a + b == b;
    } else {
      RowsConcat(a[1..], b);
      assert (a + b)[1..] == a[1..] + b && (a + b)[0] == a[0];
      assert a[0] + ['\n'] + (Rows(a[1..]) + Rows(b)) == (a[0] + ['\n'] + Rows(a[1..])) + Rows(b);
    }
  }

  lemma RowsAppend(a: seq<string>, r: string)
    ensures Rows(a + [r]) == Rows(a) + r + ['\n']
  {
    RowsConcat(a, [r]);
    assert Rows([r]) == r + ['\n'];
  }

  // ---- fields joined by a bar ----

  function Bars(fields: seq<string>): string
    requires fields != []
  {
    if |fields| == 1 then fields[0] else fields[0] + ['|'] + Bars(fields[1..])
  }

  /** The number of fields and each field can be read back. */
  lemma {:induction false} BarsInjective(a: seq<string>, b: seq<string>)
    requires a != [] && b != []
    requires forall i | 0 <= i < |a| :: Free(a[i], '|')
    requires forall i | 0 <= i < |b| :: Free(b[i], '|')
    requires Bars(a) == Bars(b)
    ensures a == b
  {
    assert |a| > 1 ==> Bars(a)[|a[0]|] == '|';
    assert |b| > 1 ==> Bars(b)[|b[0]|] == '|';
    assert |a| > 1 <==> |b| > 1;
    if |a| > 1 {
      FirstField(a[0], Bars(a[1..]), b[0], Bars(b[1..]), '|');
      BarsInjective(a[1..], b[1..]);
      assert a == [a[0]] + a[1..] && b == [b[0]] + b[1..];
    }
  }

  lemma {:induction false} BarsFree(fields: seq<string>)
    requires fields != [] && forall i | 0 <= i < |fields| :: Free(fields[i], '\n')
    ensures Free(Bars(fields), '\n')
  {
    if |fields| > 1 {
      BarsFree(fields[1..]);
    }
  }

  // ---- byte-wise order ----

  predicate AtMost(a: string, b: string) {
    a == [] || (b != [] && (a[0] < b[0] || (a[0] == b[0] && AtMost(a[1..], b[1..]))))
  }

  lemma {:induction false} AtMostTotal(a: string, b: string)
    ensures AtMost(a, b) || AtMost(b, a)
  {
    if a != [] && b != [] && a[0] == b[0] {
      AtMostTotal(a[1..], b[1..]);
    }
  }

  lemma {:induction false} AtMostTransitive(a: string, b: string, c: string)
    requires AtMost(a, b) && AtMost(b, c)
    ensures AtMost(a, c)
  {
    if a != [] && a[0] == b[0] == c[0] {
      AtMostTransitive(a[1..], b[1..], c[1..]);
    }
  }

  lemma {:induction false} AtMostAntisymmetric(a: string, b: string)
    requires AtMost(a, b) && AtMost(b, a)
    ensures a == b
  {
    if a != [] {
      AtMostAntisymmetric(a[1..], b[1..]);
      assert a == [a[0]] + a[1..] && b == [b[0]] + b[1..];
    }
  }
}
