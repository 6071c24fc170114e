/**
 What redaction promises: its output lexes back to the same keys with only secret values changed,
 and redacting again changes nothing.
 */
module DsnTheorems {
  import opened Dsn
  import opened Options

  // ---- pairs that print and lex back ----

  predicate KeyOk(key: string) {
    key != [] && forall i | 0 <= i < |key| :: KeyChar(key[i])
  }

  /** A value that is read whole: a complete quoted literal, or a word that does not open a quote. */
  predicate ValueOk(v: string) {
    if v != [] && v[0] == '\'' then QuoteLen(v[1..]) == Some(|v| - 1)
    else forall i | 0 <= i < |v| :: !IsSpace(v[i])
  }

  predicate PairOk(p: Pair) {
    KeyOk(p.key) && ValueOk(p.value)
  }

  /** Only the last value may be empty: an earlier empty value would swallow what follows. */
  predicate PairsOk(ps: seq<Pair>) {
    && (forall i | 0 <= i < |ps| :: PairOk(ps[i]))
    && (forall i | 0 <= i < |ps| - 1 :: ps[i].value != [])
  }

  lemma {:induction false} QuoteLenPrefix(s: string)
    requires QuoteLen(s).Some?
    ensures QuoteLen(s[..QuoteLen(s).value]) == QuoteLen(s)
    decreases |s|
  {
    if s[0] != '\'' {
      var step := if s[0] == '\\' then 2 else 1;
      var n := QuoteLen(s).value;
      QuoteLenPrefix(s[step..]);
      assert s[..n][step..] == s[step..][..n - step];
    }
  }

  lemma {:induction false} QuoteLenExtends(a: string, r: string)
    requires QuoteLen(a) == Some(|a|)
    ensures QuoteLen(a + r) == Some(|a|)
    decreases |a|
  {
    if a[0] != '\'' {
      var step := if a[0] == '\\' then 2 else 1;
      QuoteLenExtends(a[step..], r);
      assert (a + r)[step..] == a[step..] + r;
    }
  }

  lemma {:induction false} WordLenExtends(a: string, r: string)
    requires (forall i | 0 <= i < |a| :: !IsSpace(a[i])) && (r == [] || IsSpace(r[0]))
    ensures WordLen(a + r) == |a|
  {
    if a == [] {
      assert a + r == r;
    } else {
      WordLenExtends(a[1..], r);
      assert (a + r)[1..] == a[1..] + r;
    }
  }

  lemma {:induction false} KeyLenExtends(a: string, r: string)
    requires (forall i | 0 <= i < |a| :: KeyChar(a[i])) && (r == [] || !KeyChar(r[0]))
    ensures KeyLen(a + r) == |a|
  {
    if a == [] {
      assert a + r == r;
    } else {
      KeyLenExtends(a[1..], r);
      assert (a + r)[1..] == a[1..] + r;
    }
  }

  /** What the lexer reads as a value is a well-formed value. */
  lemma ValueRead(v: string)
    requires ValueLen(v).Some?
    ensures ValueOk(v[..ValueLen(v).value])
    ensures v != [] && !IsSpace(v[0]) ==> ValueLen(v).value > 0
  {
    var n := ValueLen(v).value;
    if v != [] && v[0] == '\'' {
      QuoteLenPrefix(v[1..]);
      assert v[..n][1..] == v[1..][..n - 1];
    }
  }

  /** A well-formed value is read back whole before white space or the end. */
  lemma ValueReadBack(v: string, r: string)
    requires ValueOk(v) && (r == [] || IsSpace(r[0]))
    ensures ValueLen(v + r) == Some(|v|)
  {
    if v != [] && v[0] == '\'' {
      QuoteLenExtends(v[1..], r);
      assert (v + r)[1..] == v[1..] + r;
    } else {
      WordLenExtends(v, r);
      assert v == [] ==> v + r == r;
    }
  }

  /** Lexing yields only well-formed pairs, with no empty value before the last. */
  lemma {:induction false} LexedPairsOk(s: string)
    requires Lex(s).Some?
    ensures PairsOk(Lex(s).value)
    decreases |s|
  {
    var t := Trim(s);
    if t != [] {
      var k := KeyLen(t);
      var v := Trim(Trim(t[k..])[1..]);
      var n := ValueLen(v).value;
      ValueRead(v);
      LexedPairsOk(v[n..]);
      var rest := Lex(v[n..]).value;
      assert Lex(s).value == [Pair(t[..k], v[..n])] + rest;
      if n == 0 {
        assert v == [] && v[n..] == [];
      }
    }
  }

  lemma TrimSpace(s: string)
    ensures Lex(" " + s) == Lex(s)
  {
    assert (" " + s)[1..] == s;
    assert Trim(" " + s) == Trim(s);
  }

  /** A printed pair followed by a blank or the end is lexed as that pair and then the rest. */
  lemma PairReadBack(p: Pair, r: string)
    requires PairOk(p) && (r == [] || r[0] == ' ') && (p.value == [] ==> r == [])
    ensures Lex(Shown(p) + r) == Prepend([p], Lex(r))
  {
    var v := p.value + r;
    var tail := ['='] + v;
    ValueThenRest(p.value, r, v);
    KeyThenTail(p, r, v, tail);
    LexPair(Shown(p) + r, |p.key|, tail, v, |p.value|, p.key, p.value, r);
  }

  lemma KeyThenTail(p: Pair, r: string, v: string, tail: string)
    requires PairOk(p) && v == p.value + r && tail == ['='] + v && Trim(v) == v
    ensures
      var t := Shown(p) + r;
      && t != [] && !IsSpace(t[0]) && KeyLen(t) == |p.key| > 0 && t[..|p.key|] == p.key
      && Trim(t[|p.key|..]) == tail && tail[0] == '=' && Trim(tail[1..]) == v
  {
    var t := Shown(p) + r;
    assert t == p.key + tail;
    assert t[0] == p.key[0] && t[|p.key|..] == tail;
    KeyLenExtends(p.key, tail);
    assert tail[1..] == v;
  }

  lemma ValueThenRest(value: string, r: string, v: string)
    requires ValueOk(value) && (r == [] || r[0] == ' ') && (value == [] ==> r == []) && v == value + r
    ensures Trim(v) == v && ValueLen(v) == Some(|value|) && v[..|value|] == value && v[|value|..] == r
  {
    if v != [] { assert v[0] == value[0]; }
    ValueReadBack(value, r);
  }

  /** Printing well-formed pairs and lexing the text gives the same pairs back. */
  lemma {:induction false} PrintedPairsLexBack(ps: seq<Pair>)
    requires PairsOk(ps)
    ensures Lex(Joined(ps)) == Some(ps)
  {
    if |ps| == 1 {
      PairReadBack(ps[0], []);
      assert Shown(ps[0]) + [] == Shown(ps[0]);
      assert ps == [ps[0]] + [];
    } else if ps != [] {
      var rest := Joined(ps[1..]);
      PrintedPairsLexBack(ps[1..]);
      PairReadBack(ps[0], " " + rest);
      TrimSpace(rest);
      assert Shown(ps[0]) + (" " + rest) == Joined(ps);
      assert ps == [ps[0]] + ps[1..];
    }
  }

  lemma MaskedPairsOk(ps: seq<Pair>)
    requires PairsOk(ps)
    ensures PairsOk(AllMasked(ps))
  {
    assert ValueOk(MASK);
    forall i | 0 <= i < |ps|
      ensures PairOk(AllMasked(ps)[i])
    {
      assert PairOk(ps[i]);
    }
  }

  // ---- the promises ----

  /** The output of a string that lexes is itself a keyword/value string with the same keys in the same
      order, every other value byte for byte, and exactly the mask for each secret. */
  lemma RedactionLexesBack(conn: string)
    requires !StartsWithScheme(conn) && Lex(conn).Some? && Lex(conn).value != []
    ensures Redacted(conn).Some? && Lex(Redacted(conn).value) == Some(AllMasked(Lex(conn).value))
  {
    LexedPairsOk(conn);
    MaskedPairsOk(Lex(conn).value);
    PrintedPairsLexBack(AllMasked(Lex(conn).value));
  }

  /** The two characters are one letter in either case, or the same character. */
  predicate SameLetter(c: char, d: char) {
    c == d || ('A' <= c <= 'Z' && d == c - 'A' + 'a') || ('A' <= d <= 'Z' && c == d - 'A' + 'a')
  }

  predicate SameLetters(a: string, b: string) {
    |a| == |b| && forall i | 0 <= i < |a| :: SameLetter(a[i], b[i])
  }

  /** The keywords whose value is a credential, in any case. */
  predicate NamesCredential(key: string) {
    SameLetters(key, "password") || SameLetters(key, "passfile") || SameLetters(key, "sslpassword")
  }

  lemma LowerSame(key: string, word: string)
    requires forall i | 0 <= i < |word| :: 'a' <= word[i] <= 'z'
    ensures ToLower(key) == word <==> SameLetters(key, word)
  {
    if ToLower(key) == word {
      forall i | 0 <= i < |key|
        ensures SameLetter(key[i], word[i])
      {
        assert ToLower(key)[i] == word[i];
      }
    }
    if SameLetters(key, word) {
      assert forall i | 0 <= i < |key| :: ToLower(key)[i] == word[i];
    }
  }

  lemma SecretIffCredential(key: string)
    ensures IsSecret(key) <==> NamesCredential(key)
  {
    LowerSame(key, "password");
    LowerSame(key, "passfile");
    LowerSame(key, "sslpassword");
  }

  lemma NoticeText()
    ensures UNPARSEABLE == "[unparseable connection string; redacted]"
  {
    assert |UNPARSEABLE| == 41;
    assert forall i | 0 <= i < 12 :: UNPARSEABLE[i] == "[unparseable connection string; redacted]"[i];
    assert UNPARSEABLE[12..] == NOTICE_REST == "[unparseable connection string; redacted]"[12..];
  }

  /** What is printed of a string that lexes: the same keys in order, each credential's value replaced by the mask,
      whatever the case of its keyword, and every other value as it was. What does not lex is not printed at all. */
  lemma CredentialsAreMasked(conn: string)
    requires !StartsWithScheme(conn)
    ensures Lex(conn).None? ==> Redacted(conn) == Some("[unparseable connection string; redacted]")
    ensures Lex(conn).Some? && Lex(conn).value != [] ==>
              && Redacted(conn).Some? && Lex(Redacted(conn).value).Some?
              && var ps, qs := Lex(conn).value, Lex(Redacted(conn).value).value;
                 && |qs| == |ps|
                 && forall i | 0 <= i < |ps| ::
                      qs[i].key == ps[i].key && qs[i].value == if NamesCredential(ps[i].key) then "xxxxx" else ps[i].value
  {
    NoticeText();
    if Lex(conn).Some? && Lex(conn).value != [] {
      RedactionLexesBack(conn);
      var ps := Lex(conn).value;
      forall i | 0 <= i < |ps|
        ensures IsSecret(ps[i].key) <==> NamesCredential(ps[i].key)
      {
        SecretIffCredential(ps[i].key);
      }
    }
  }

  // ---- the scheme ----

  /** `n` characters of scheme, starting with a letter, and then the colon and two slashes. */
  ghost predicate SchemeOf(s: string, n: nat) {
    && 0 < n && n + 3 <= |s| && ('a' <= s[0] <= 'z' || 'A' <= s[0] <= 'Z')
    && (forall i | 0 <= i < n :: 'a' <= s[i] <= 'z' || 'A' <= s[i] <= 'Z' || '0' <= s[i] <= '9' || s[i] in {'+', '-', '.'})
    && s[n] == ':' && s[n + 1] == '/' && s[n + 2] == '/'
  }

  lemma {:induction false} SchemeFromAt(s: string, n: nat)
    requires n < |s| && s[n] == ':' && forall i | 0 <= i < n :: IsSchemeChar(s[i])
    ensures SchemeFrom(s) <==> n + 3 <= |s| && s[n + 1] == '/' && s[n + 2] == '/'
  {
    if n > 0 {
      SchemeFromAt(s[1..], n - 1);
    } else if |s| >= 3 {
      assert s[..3] == [s[0], s[1], s[2]];
    }
  }

  lemma {:induction false} SchemeFromEnds(s: string) returns (n: nat)
    requires SchemeFrom(s)
    ensures n < |s| && s[n] == ':' && forall i | 0 <= i < n :: IsSchemeChar(s[i])
  {
    if s[0] == ':' {
      n := 0;
    } else {
      var m := SchemeFromEnds(s[1..]);
      n := m + 1;
      assert forall i | 0 < i < n :: s[i] == s[1..][i - 1];
    }
  }

  /** A string starts with a scheme exactly when it reads so (section 3.1 of RFC 3986). */
  lemma StartsWithSchemeIff(s: string)
    ensures StartsWithScheme(s) <==> exists n: nat :: SchemeOf(s, n)
  {
    if StartsWithScheme(s) {
      var n := SchemeFromEnds(s);
      SchemeFromAt(s, n);
      assert SchemeOf(s, n);
    }
    if n: nat :| SchemeOf(s, n) {
      SchemeFromAt(s, n);
    }
  }

  // ---- the URL test sees only the first key ----

  /** A blank or an equals sign ends any scheme. */
  predicate Stops(x: string) {
    x != [] && !KeyChar(x[0])
  }

  lemma NoSchemeWhenStopped(x: string, y: string)
    requires Stops(x) && Stops(y)
    ensures !SchemeFrom([] + x) && !SchemeFrom([] + y)
  {
    assert ([] + x)[0] == x[0] && ([] + y)[0] == y[0];
    assert !IsSchemeChar(x[0]) && !IsSchemeChar(y[0]);
  }

  lemma {:induction false} SchemeInKey(key: string, x: string, y: string)
    requires (forall i | 0 <= i < |key| :: KeyChar(key[i])) && Stops(x) && Stops(y)
    ensures SchemeFrom(key + x) <==> SchemeFrom(key + y)
  {
    if key == [] {
      NoSchemeWhenStopped(x, y);
    } else if key[0] == ':' {
      ColonInKey(key, x);
      ColonInKey(key, y);
    } else {
      SchemeInKey(key[1..], x, y);
      assert (key + x)[1..] == key[1..] + x && (key + y)[1..] == key[1..] + y;
    }
  }

  lemma ColonInKey(key: string, x: string)
    requires key != [] && key[0] == ':' && Stops(x)
    ensures "://" <= key + x <==> "://" <= key
  {
    var t := key + x;
    assert x[0] != '/';
    assert |key| == 1 ==> t[1] == x[0];
    assert |key| == 2 ==> t[2] == x[0];
  }

  lemma FirstKeyRead(conn: string)
    requires Lex(conn).Some? && Lex(conn).value != []
    ensures
      var t := Trim(conn);
      var key := Lex(conn).value[0].key;
      key != [] && key <= t && Stops(t[|key|..]) && forall i | 0 <= i < |key| :: KeyChar(key[i])
  {
    var t := Trim(conn);
    var k := KeyLen(t);
    assert t[..k] <= t;
    assert Trim(t[k..]) != [];
  }

  lemma SameScheme(key: string, s: string, t: string)
    requires key != [] && (forall i | 0 <= i < |key| :: KeyChar(key[i]))
    requires key <= s && key <= t && Stops(s[|key|..]) && Stops(t[|key|..])
    ensures StartsWithScheme(s) <==> StartsWithScheme(t)
  {
    assert s == key + s[|key|..] && t == key + t[|key|..];
    SchemeInKey(key, s[|key|..], t[|key|..]);
  }

  /** The output starts with a URL scheme exactly when the input, without its leading white space, does. */
  lemma OutputSchemeIffInput(conn: string)
    requires !StartsWithScheme(conn) && Lex(conn).Some? && Lex(conn).value != []
    ensures StartsWithScheme(Redacted(conn).value) <==> StartsWithScheme(Trim(conn))
  {
    var ps := Lex(conn).value;
    var key := ps[0].key;
    FirstKeyRead(conn);
    FirstShown(AllMasked(ps));
    var out := Redacted(conn).value;
    assert out[|key|] == '=' && out[|key|..][0] == out[|key|];
    SameScheme(key, out, Trim(conn));
  }

  lemma FirstShown(ps: seq<Pair>)
    requires ps != []
    ensures ps[0].key + "=" <= Joined(ps)
  {
    assert ps[0].key + "=" <= Shown(ps[0]);
  }

  /** A key with no equals sign after it does not lex. */
  lemma NoEqualsSign(key: string, tail: string)
    requires KeyOk(key) && tail != [] && tail[0] == ' '
    requires Trim(tail) == [] || Trim(tail)[0] != '='
    ensures Lex(key + tail).None?
  {
    KeyLenExtends(key, tail);
    assert (key + tail)[|key|..] == tail && (key + tail)[0] == key[0];
    LexSteps(key + tail);
  }

  lemma BracketedNotice(u: string, key: string, tail: string)
    requires u == key + tail && KeyOk(key) && key[0] == '['
    requires |tail| > 1 && tail[0] == ' ' && !IsSpace(tail[1]) && tail[1] != '='
    ensures !StartsWithScheme(u) && Lex(u).None?
  {
    assert Trim(tail[1..]) == tail[1..] && tail[1..][0] == tail[1];
    NoEqualsSign(key, tail);
  }

  lemma UnparseableIsFixed()
    ensures !StartsWithScheme(UNPARSEABLE) && Lex(UNPARSEABLE).None?
  {
    BracketedNotice(UNPARSEABLE, NOTICE_WORD, NOTICE_REST);
  }

  /** What of a string is not secret: that it is to be read as a URL, that it does not lex, or its pairs with the
      secret values masked. */
  datatype PublicPart = AsUrl | Unreadable | Pairs(ps: seq<Pair>)

  function PublicOf(conn: string): PublicPart {
    if StartsWithScheme(conn) || Lex(conn) == Some([]) then AsUrl
    else if Lex(conn).None? then Unreadable
    else Pairs(AllMasked(Lex(conn).value))
  }

  /** The output `r` for a string with this public part; `u` is the notice for one that does not lex. */
  ghost predicate Describes(p: PublicPart, r: Option<string>, u: string) {
    match p
    case AsUrl => r.None?
    case Unreadable => r == Some(u)
    case Pairs(ps) => r == Some(Joined(ps)) && Lex(r.value) == Some(ps)
  }

  lemma OutputDescribes(conn: string)
    ensures Describes(PublicOf(conn), Redacted(conn), UNPARSEABLE)
  {
    if PublicOf(conn).Pairs? {
      RedactionLexesBack(conn);
    }
  }

  lemma SameOutputIffSamePart(p: PublicPart, q: PublicPart, r: Option<string>, t: Option<string>, u: string)
    requires Describes(p, r, u) && Describes(q, t, u) && Lex(u).None?
    ensures r == t <==> p == q
  {
  }

  /** For every two strings: they redact to the same text if and only if they agree on what is not secret. So the text
      shows nothing of a secret, and everything else. */
  lemma SecretsDoNotShow(a: string, b: string)
    ensures Redacted(a) == Redacted(b) <==> PublicOf(a) == PublicOf(b)
  {
    assert Lex(UNPARSEABLE).None? by {
      UnparseableIsFixed();
    }
    OutputDescribes(a);
    OutputDescribes(b);
    SameOutputIffSamePart(PublicOf(a), PublicOf(b), Redacted(a), Redacted(b), UNPARSEABLE);
  }

  /** Redacting the output again gives the same text exactly when the input, without its leading white
      space, does not start with a URL scheme. */
  lemma RedactionIdempotentIff(conn: string)
    requires Redacted(conn).Some?
    ensures Redacted(Redacted(conn).value) == Redacted(conn) <==> Lex(conn).None? || !StartsWithScheme(Trim(conn))
  {
    var out := Redacted(conn).value;
    if Lex(conn).None? {
      UnparseableIsFixed();
    } else {
      RedactionLexesBack(conn);
      OutputSchemeIffInput(conn);
      var ps := Lex(conn).value;
      assert AllMasked(AllMasked(ps)) == AllMasked(ps);
    }
  }

  /** The family for which it fails: a blank in front of a pair that reads as a URL hides the scheme from
      the first pass only. */
  lemma LeadingBlankHidesScheme(p: Pair)
    requires PairOk(p) && !IsSecret(p.key) && StartsWithScheme(Shown(p))
    ensures Redacted(" " + Shown(p)) == Some(Shown(p)) && Redacted(Shown(p)).None?
  {
    PairReadBack(p, []);
    assert Shown(p) + [] == Shown(p);
    TrimSpace(Shown(p));
    assert [p] + [] == [p];
    assert AllMasked([p]) == [p];
  }

  /** One member of that family. */
  lemma HiddenSchemeExample()
    ensures PairOk(Pair("a://b", "c")) && !IsSecret("a://b") && StartsWithScheme(Shown(Pair("a://b", "c")))
  {
    var s := Shown(Pair("a://b", "c"));
    assert s == "a://b=c" && s[1..] == "://b=c" && "://" <= s[1..];
    assert ToLower("a://b")[0] == 'a' && |ToLower("a://b")| == 5;
    assert forall x | x in SECRETS :: |x| >= 8;
  }
}
