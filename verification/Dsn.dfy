/**
 Redacting keyword/value connection strings: the conninfo lexer, the printer, and the test that
 routes URL forms elsewhere. Text is a sequence of ASCII characters.
 */
module Dsn {
  import opened Options

  datatype Pair = Pair(key: string, value: string)

  const MASK := "xxxxx"
  const NOTICE_WORD := "[unparseable"
  const NOTICE_REST := " connection string; redacted]"
  const UNPARSEABLE := NOTICE_WORD + NOTICE_REST
  const SECRETS := {"password", "passfile", "sslpassword"}

  // ---- characters ----

  predicate IsSpace(c: char) {
    c == ' ' || c == '\t' || c == '\n' || c == '\r'
  }

  predicate IsLetter(c: char) {
    'a' <= c <= 'z' || 'A' <= c <= 'Z'
  }

  function Lower(c: char): char {
    if 'A' <= c <= 'Z' then c - 'A' + 'a' else c
  }

  function ToLower(s: string): string {
    seq(|s|, i requires 0 <= i < |s| => Lower(s[i]))
  }

  predicate IsSecret(key: string) {
    ToLower(key) in SECRETS
  }

  /** Section 3.1 of RFC 3986: letters, digits, plus, hyphen, period. */
  predicate IsSchemeChar(c: char) {
    IsLetter(c) || '0' <= c <= '9' || c == '+' || c == '-' || c == '.'
  }

  predicate SchemeFrom(s: string) {
    if s == [] then false
    else if s[0] == ':' then "://" <= s
    else IsSchemeChar(s[0]) && SchemeFrom(s[1..])
  }

  predicate StartsWithScheme(s: string) {
    s != [] && IsLetter(s[0]) && SchemeFrom(s)
  }

  method HasUrlScheme(conn: string) returns (r: bool)
    ensures r == StartsWithScheme(conn)
  {
    if conn == "" || !IsLetter(conn[0]) {
      return false;
    }
    var i := 0;
    while i < |conn|
      invariant 0 <= i <= |conn|
      invariant SchemeFrom(conn) == SchemeFrom(conn[i..])
    {
      var c := conn[i];
      if c == ':' {
        return "://" <= conn[i..];
      }
      if !IsSchemeChar(c) {
        return false;
      }
      assert conn[i..][1..] == conn[i + 1..];
      i := i + 1;
    }
    return false;
  }

  // ---- the lexer, as a definition ----

  function Trim(s: string): (r: string)
    ensures |r| <= |s| && (r != [] ==> !IsSpace(r[0]))
  {
    if s != [] && IsSpace(s[0]) then Trim(s[1..]) else s
  }

  predicate KeyChar(c: char) {
    c != '=' && !IsSpace(c)
  }

  function KeyLen(s: string): (n: nat)
    ensures n <= |s| && (forall i | 0 <= i < n :: KeyChar(s[i])) && (n < |s| ==> !KeyChar(s[n]))
  {
    if s == [] || !KeyChar(s[0]) then 0 else 1 + KeyLen(s[1..])
  }

  function WordLen(s: string): (n: nat)
    ensures n <= |s| && (forall i | 0 <= i < n :: !IsSpace(s[i])) && (n < |s| ==> IsSpace(s[n]))
  {
    if s == [] || IsSpace(s[0]) then 0 else 1 + WordLen(s[1..])
  }

  /** The length of a quoted value after its opening quote, through the closing quote. A backslash takes
      the next character with it, even past the end. */
  function QuoteLen(s: string): (r: Option<nat>)
    ensures r.Some? ==> 0 < r.value <= |s|
  {
    if s == [] then None
    else if s[0] == '\'' then Some(1)
    else
      var step := if s[0] == '\\' then 2 else 1;
      if |s| < step then None
      else match QuoteLen(s[step..])
        case None => None
        case Some(n) => Some(step + n)
  }

  /** The length of the value at the front of `s`. */
  function ValueLen(s: string): (r: Option<nat>)
    ensures r.Some? ==> r.value <= |s|
  {
    if s != [] && s[0] == '\'' then
      match QuoteLen(s[1..])
      case None => None
      case Some(n) => Some(1 + n)
    else Some(WordLen(s))
  }

  function Prepend(done: seq<Pair>, rest: Option<seq<Pair>>): Option<seq<Pair>> {
    if rest.None? then None else Some(done + rest.value)
  }

  /** The pairs a connection string denotes, or None when it does not lex. */
  function Lex(s: string): Option<seq<Pair>>
    decreases |s|
  {
    var t := Trim(s);
    if t == [] then Some([])
    else
      var k := KeyLen(t);
      var e := Trim(t[k..]);
      if k == 0 || e == [] || e[0] != '=' then None
      else
        var v := Trim(e[1..]);
        var n := ValueLen(v);
        if n.None? then None
        else Prepend([Pair(t[..k], v[..n.value])], Lex(v[n.value..]))
  }

  // ---- the printer ----

  function Masked(p: Pair): Pair {
    if IsSecret(p.key) then Pair(p.key, MASK) else p
  }

  function AllMasked(ps: seq<Pair>): seq<Pair> {
    seq(|ps|, i requires 0 <= i < |ps| => Masked(ps[i]))
  }

  function Shown(p: Pair): string {
    p.key + "=" + p.value
  }

  function Joined(ps: seq<Pair>): string {
    if ps == [] then "" else if |ps| == 1 then Shown(ps[0]) else Shown(ps[0]) + " " + Joined(ps[1..])
  }

  /** None means the caller must treat the string as a URL. */
  function Redacted(conn: string): Option<string> {
    if StartsWithScheme(conn) then None
    else match Lex(conn)
      case None => Some(UNPARSEABLE)
      case Some(ps) => if ps == [] then None else Some(Joined(AllMasked(ps)))
  }

  // ---- the loop ----

  method SkipSpace(s: string, start: nat) returns (i: nat)
    requires start <= |s|
    ensures start <= i <= |s| && s[i..] == Trim(s[start..])
  {
    i := start;
    while i < |s| && IsSpace(s[i])
      invariant start <= i <= |s| && Trim(s[i..]) == Trim(s[start..])
    {
      assert s[i..][1..] == s[i + 1..];
      i := i + 1;
    }
  }

  /** Where the scan of a quoted value that began at `start` stands. */
  ghost predicate Scanned(s: string, start: nat, i: nat, closed: bool) {
    && start <= |s| && start <= i
    && if closed then QuoteLen(s[start..]) == Some(i - start)
       else if i <= |s| then QuoteLen(s[start..]) == Shifted(i - start, QuoteLen(s[i..]))
       else QuoteLen(s[start..]).None?
  }

  lemma QuoteSteps(s: string, i: nat)
    requires i < |s|
    ensures s[i] == '\'' ==> QuoteLen(s[i..]) == Some(1)
    ensures s[i] == '\\' ==> QuoteLen(s[i..]) == if i + 2 <= |s| then Shifted(2, QuoteLen(s[i + 2..])) else None
    ensures s[i] != '\'' && s[i] != '\\' ==> QuoteLen(s[i..]) == Shifted(1, QuoteLen(s[i + 1..]))
  {
    assert s[i..][0] == s[i] && s[i..][1..] == s[i + 1..];
    if i + 2 <= |s| { assert s[i..][2..] == s[i + 2..]; }
  }

  lemma ScannedNext(s: string, start: nat, i: nat)
    requires i < |s| && Scanned(s, start, i, false)
    ensures Scanned(s, start, if s[i] == '\\' then i + 2 else i + 1, s[i] == '\'')
  {
    QuoteSteps(s, i);
  }

  method ScanQuoted(s: string, start: nat) returns (i: nat, closed: bool)
    requires start <= |s|
    ensures closed <==> QuoteLen(s[start..]).Some?
    ensures closed ==> i == start + QuoteLen(s[start..]).value
  {
    i, closed := start, false;
    while i < |s| && !closed
      invariant i <= |s| + 1 && Scanned(s, start, i, closed)
      decreases |s| + 2 - i, !closed
    {
      ScannedNext(s, start, i);
      if s[i] == '\\' {
        i := i + 2;
      } else {
        closed := s[i] == '\'';
        i := i + 1;
      }
    }
    if !closed && i == |s| {
      assert s[i..] == [];
    }
  }

  function Shifted(step: nat, n: Option<nat>): Option<nat> {
    if n.None? then None else Some(step + n.value)
  }

  method ScanKey(s: string, start: nat) returns (i: nat)
    requires start <= |s|
    ensures start <= i <= |s| && i == start + KeyLen(s[start..])
  {
    i := start;
    while i < |s| && s[i] != '=' && !IsSpace(s[i])
      invariant start <= i <= |s| && KeyLen(s[start..]) == i - start + KeyLen(s[i..])
    {
      assert s[i..][1..] == s[i + 1..];
      i := i + 1;
    }
  }

  method ScanWord(s: string, start: nat) returns (i: nat)
    requires start <= |s|
    ensures start <= i <= |s| && i == start + WordLen(s[start..])
  {
    i := start;
    while i < |s| && !IsSpace(s[i])
      invariant start <= i <= |s| && WordLen(s[start..]) == i - start + WordLen(s[i..])
    {
      assert s[i..][1..] == s[i + 1..];
      i := i + 1;
    }
  }

  /** Lexing a text that starts at a key, step by step. */
  lemma LexSteps(t: string)
    requires t != [] && !IsSpace(t[0])
    ensures
      var k := KeyLen(t);
      var e := Trim(t[k..]);
      if k == 0 || e == [] || e[0] != '=' then Lex(t).None?
      else
        var v := Trim(e[1..]);
        var n := ValueLen(v);
        Lex(t) == if n.None? then None else Prepend([Pair(t[..k], v[..n.value])], Lex(v[n.value..]))
  {
    assert Trim(t) == t;
  }

  method ScanValue(s: string, start: nat) returns (i: nat, ok: bool)
    requires start <= |s|
    ensures ok <==> ValueLen(s[start..]).Some?
    ensures ok ==> i == start + ValueLen(s[start..]).value
  {
    if start < |s| && s[start] == '\'' {
      assert s[start..][1..] == s[start + 1..];
      i, ok := ScanQuoted(s, start + 1);
    } else {
      i := ScanWord(s, start);
      ok := true;
    }
  }

  /** Read up to a pair's value. */
  method ScanFrame(s: string, start: nat) returns (found: bool, k: nat, e: nat, from: nat)
    requires start < |s| && !IsSpace(s[start])
    ensures if found then Framed(s, start, k, e, from) else Lex(s[start..]).None?
  {
    k := ScanKey(s, start);
    e := SkipSpace(s, k);
    if k == start || e >= |s| || s[e] != '=' {
      NoPairAt(s, start, k, e);
      return false, k, e, e;
    }
    from := SkipSpace(s, e + 1);
    return true, k, e, from;
  }

  /** Read one pair; None when the text at `start` does not lex. */
  method ScanPair(s: string, start: nat) returns (p: Option<Pair>, i: nat)
    requires start < |s| && !IsSpace(s[start])
    ensures p.Some? ==> start < i <= |s| && Lex(s[start..]) == Prepend([p.value], Lex(s[i..]))
    ensures p.None? ==> Lex(s[start..]).None?
  {
    var found, k, e, from := ScanFrame(s, start);
    if !found {
      return None, e;
    }
    var ok;
    i, ok := ScanValue(s, from);
    if !ok {
      NoValueAt(s, start, k, e, from);
      return None, i;
    }
    PairAt(s, start, k, e, from, i);
    return Some(Pair(s[start..k], s[from..i])), i;
  }

  lemma NoPairAt(s: string, start: nat, k: nat, e: nat)
    requires start < |s| && !IsSpace(s[start]) && k == start + KeyLen(s[start..]) && e <= |s| && s[e..] == Trim(s[k..])
    requires k == start || e == |s| || s[e] != '='
    ensures Lex(s[start..]).None?
  {
    LexSteps(s[start..]);
    assert s[start..][k - start..] == s[k..];
  }

  /** The pieces of `s` that a pair at `start` is read from. */
  ghost predicate Framed(s: string, start: nat, k: nat, e: nat, from: nat) {
    && start < k < |s| && !IsSpace(s[start]) && k == start + KeyLen(s[start..]) && k <= e < |s| && s[e..] == Trim(s[k..])
    && s[e] == '=' && from <= |s| && s[from..] == Trim(s[e + 1..])
  }

  lemma NoValueAt(s: string, start: nat, k: nat, e: nat, from: nat)
    requires Framed(s, start, k, e, from) && ValueLen(s[from..]).None?
    ensures Lex(s[start..]).None?
  {
    FramedText(s, start, k, e, from);
    LexFound(s[start..], k - start, s[e..], s[from..]);
  }

  /** The text starts with a key of `k` characters, and `e` is its equals sign and the rest, `v` the value and the rest. */
  ghost predicate KeyThenEquals(t: string, k: int, e: string, v: string) {
    && t != [] && !IsSpace(t[0]) && k == KeyLen(t) > 0
    && e == Trim(t[k..]) && e != [] && e[0] == '=' && v == Trim(e[1..])
  }

  lemma FramedText(s: string, start: nat, k: nat, e: nat, from: nat)
    requires Framed(s, start, k, e, from)
    ensures KeyThenEquals(s[start..], k - start, s[e..], s[from..]) && s[start..][..k - start] == s[start..k]
  {
    Slices(s, start, k);
    assert s[e..][1..] == s[e + 1..];
  }

  lemma PairAt(s: string, start: nat, k: nat, e: nat, from: nat, i: nat)
    requires Framed(s, start, k, e, from) && from <= i <= |s| && ValueLen(s[from..]) == Some(i - from)
    ensures Lex(s[start..]) == Prepend([Pair(s[start..k], s[from..i])], Lex(s[i..]))
  {
    FramedText(s, start, k, e, from);
    Slices(s, from, i);
    LexPair(s[start..], k - start, s[e..], s[from..], i - from, s[start..k], s[from..i], s[i..]);
  }

  lemma LexPair(t: string, k: nat, e: string, v: string, n: nat, key: string, val: string, rest: string)
    requires KeyThenEquals(t, k, e, v)
    requires ValueLen(v) == Some(n) && key == t[..k] && val == v[..n] && rest == v[n..]
    ensures Lex(t) == Prepend([Pair(key, val)], Lex(rest))
  {
    LexFound(t, k, e, v);
  }

  lemma Slices(s: string, a: nat, b: nat)
    requires a <= b <= |s|
    ensures s[a..][..b - a] == s[a..b] && s[a..][b - a..] == s[b..]
  {
  }

  lemma LexFound(t: string, k: nat, e: string, v: string)
    requires KeyThenEquals(t, k, e, v)
    ensures Lex(t) == if ValueLen(v).None? then None else Prepend([Pair(t[..k], v[..ValueLen(v).value])], Lex(v[ValueLen(v).value..]))
  {
    LexSteps(t);
  }

  lemma PrependTwice(a: seq<Pair>, p: Pair, rest: Option<seq<Pair>>)
    ensures Prepend(a, Prepend([p], rest)) == Prepend(a + [p], rest)
    ensures Prepend([], rest) == rest
  {
    if rest.Some? {
      assert a + ([p] + rest.value) == a + [p] + rest.value;
      assert [] + rest.value == rest.value;
    }
  }

  function Texts(ps: seq<Pair>): seq<string> {
    seq(|ps|, i requires 0 <= i < |ps| => Shown(ps[i]))
  }

  function JoinTexts(out: seq<string>): string {
    if out == [] then "" else if |out| == 1 then out[0] else out[0] + " " + JoinTexts(out[1..])
  }

  lemma {:induction false} JoinIsJoined(ps: seq<Pair>)
    ensures JoinTexts(Texts(ps)) == Joined(ps)
  {
    if |ps| > 1 {
      JoinIsJoined(ps[1..]);
      assert Texts(ps)[1..] == Texts(ps[1..]);
    }
  }

  /** One output text per pair read so far. */
  function OutputOf(done: seq<Pair>): (r: seq<string>)
    ensures |r| == |done|
  {
    Texts(AllMasked(done))
  }

  lemma OutputGrows(done: seq<Pair>, p: Pair)
    ensures OutputOf(done + [p]) == OutputOf(done) + [p.key + "=" + if IsSecret(p.key) then MASK else p.value]
  {
    assert AllMasked(done + [p]) == AllMasked(done) + [Masked(p)];
  }

  method RedactKeywordValueDsn(conn: string) returns (r: Option<string>)
    ensures r == Redacted(conn)
  {
    var url := HasUrlScheme(conn);
    if url {
      return None;
    }
    var out: seq<string> := [];
    ghost var done: seq<Pair> := [];
    var i := 0;
    assert conn[0..] == conn;
    PrependTwice([], Pair("", ""), Lex(conn));
    while true
      invariant 0 <= i <= |conn|
      invariant Lex(conn) == Prepend(done, Lex(conn[i..]))
      invariant out == OutputOf(done)
      decreases |conn| - i
    {
      var j := SkipSpace(conn, i);
      TrimIsInvisible(conn[i..]);
      i := j;
      if i >= |conn| {
        break;
      }
      var p;
      p, i := ScanPair(conn, i);
      if p.None? {
        return Some(UNPARSEABLE);
      }
      PrependTwice(done, p.value, Lex(conn[i..]));
      OutputGrows(done, p.value);
      if IsSecret(p.value.key) {
        out := out + [p.value.key + "=" + MASK];
      } else {
        out := out + [p.value.key + "=" + p.value.value];
      }
      done := done + [p.value];
    }
    assert conn[i..] == [] && done + [] == done;
    assert Lex(conn) == Some(done);
    if |out| == 0 {
      return None;
    }
    JoinIsJoined(AllMasked(done));
    return Some(JoinTexts(out));
  }

  lemma TrimIsInvisible(s: string)
    ensures Lex(Trim(s)) == Lex(s)
  {
    assert Trim(Trim(s)) == Trim(s);
  }
}
