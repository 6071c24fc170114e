/**
 The redactor's reading of a connection string beside the driver's. They differ in one rule: in a value without
 quotes, the driver lets a backslash take the next character, a blank too, and the redactor does not.
 */
module DsnDriver {
  import opened Options
  import opened Dsn
  import opened DsnTheorems

  // ---- the driver's rule ----

  function EscapedWordLen(s: string): (n: nat)
    ensures n <= |s|
  {
    if s == [] || IsSpace(s[0]) then 0
    else if s[0] == '\\' && |s| > 1 then 2 + EscapedWordLen(s[2..])
    else 1 + EscapedWordLen(s[1..])
  }

  function DriverValueLen(s: string): (r: Option<nat>)
    ensures r.Some? ==> r.value <= |s|
  {
    if s != [] && s[0] == '\'' then ValueLen(s) else Some(EscapedWordLen(s))
  }

  /** The pairs the driver reads. */
  function DriverLex(s: string): Option<seq<Pair>>
    decreases |s|
  {
    var t := Trim(s);
    if t == [] then Some([])
    else
      var k := KeyLen(t);
      var e := Trim(t[k..]);
      if k == 0 || e == [] || e[0] != '=' then None
      else
        var v := Trim(e[1..]);
        var n := DriverValueLen(v);
        if n.None? then None
        else Prepend([Pair(t[..k], v[..n.value])], DriverLex(v[n.value..]))
  }

  // ---- where they part ----

  /** The last backslash of the word has nothing left to take. */
  predicate Waits(w: string) {
    w != [] && if w[0] == '\\' then |w| == 1 || Waits(w[2..]) else Waits(w[1..])
  }

  /** The value at the front is a word that waits, and a blank follows it. */
  predicate TakesBlank(v: string) {
    (v == [] || v[0] != '\'') && WordLen(v) < |v| && Waits(v[..WordLen(v)])
  }

  lemma {:induction false} WordsAgreeIff(s: string)
    ensures WordLen(s) <= EscapedWordLen(s)
    ensures WordLen(s) == EscapedWordLen(s) <==> !(WordLen(s) < |s| && Waits(s[..WordLen(s)]))
    decreases |s|
  {
    var n := WordLen(s);
    if s != [] && !IsSpace(s[0]) {
      if s[0] == '\\' && |s| > 1 {
        if IsSpace(s[1]) {
          assert n == 1 && s[..1] == "\\";
        } else {
          WordsAgreeIff(s[2..]);
          assert s[1..][1..] == s[2..] && n == 2 + WordLen(s[2..]);
          assert s[..n][2..] == s[2..][..n - 2];
        }
      } else {
        WordsAgreeIff(s[1..]);
        assert s[..n][1..] == s[1..][..n - 1];
      }
    }
  }

  lemma ValuesAgreeIff(v: string)
    ensures DriverValueLen(v) == ValueLen(v) <==> !TakesBlank(v)
  {
    WordsAgreeIff(v);
  }

  /** No value without quotes waits for a blank that follows it. */
  predicate NoneTakesBlank(s: string)
    decreases |s|
  {
    var t := Trim(s);
    t == [] ||
      var k := KeyLen(t);
      var e := Trim(t[k..]);
      k == 0 || e == [] || e[0] != '=' ||
        var v := Trim(e[1..]);
        var n := ValueLen(v);
        n.None? || (!TakesBlank(v) && NoneTakesBlank(v[n.value..]))
  }

  lemma PrependSame(p: Pair, a: Option<seq<Pair>>, b: Option<seq<Pair>>)
    requires b.Some?
    ensures Prepend([p], a) == Prepend([p], b) <==> a == b
  {
    if a.Some? && [p] + a.value == [p] + b.value {
      assert ([p] + a.value)[1..] == a.value && ([p] + b.value)[1..] == b.value;
    }
  }

  lemma PrependLonger(p: Pair, q: Pair, a: Option<seq<Pair>>, b: Option<seq<Pair>>)
    requires b.Some? && p != q
    ensures Prepend([p], a) != Prepend([q], b)
  {
    if a.Some? {
      assert ([p] + a.value)[0] == p && ([q] + b.value)[0] == q;
    }
  }

  /** Of a string the redactor lexes, it and the driver read the same pairs if and only if no value without quotes
      waits for a blank that follows it. */
  lemma {:induction false} ReadingsAgreeIff(s: string)
    requires Lex(s).Some?
    ensures DriverLex(s) == Lex(s) <==> NoneTakesBlank(s)
    decreases |s|
  {
    var t := Trim(s);
    if t != [] {
      var k := KeyLen(t);
      var v := Trim(Trim(t[k..])[1..]);
      var n, m := ValueLen(v), DriverValueLen(v);
      ValuesAgreeIff(v);
      if m == n {
        ReadingsAgreeIff(v[n.value..]);
        PrependSame(Pair(t[..k], v[..n.value]), DriverLex(v[n.value..]), Lex(v[n.value..]));
      } else {
        assert m.Some? && |v[..m.value]| != |v[..n.value]|;
        PrependLonger(Pair(t[..k], v[..m.value]), Pair(t[..k], v[..n.value]), DriverLex(v[m.value..]), Lex(v[n.value..]));
      }
    }
  }

  /** So what is printed masks every secret the driver reads, or is the notice, unless such a value is there. */
  lemma RedactsForDriver(conn: string)
    requires !StartsWithScheme(conn) && NoneTakesBlank(conn)
    ensures
      || Redacted(conn) == Some(UNPARSEABLE)
      || (DriverLex(conn) == Some([]) && Redacted(conn).None?)
      || (DriverLex(conn).Some? && Redacted(conn) == Some(Joined(AllMasked(DriverLex(conn).value))))
  {
    if Lex(conn).Some? {
      ReadingsAgreeIff(conn);
    }
  }

  // ---- a secret that shows ----

  lemma {:induction false} WaitingWordTakes(u: string, w: string)
    requires Waits(u) && (forall i | 0 <= i < |u| :: !IsSpace(u[i])) && (forall i | 0 <= i < |w| :: !IsSpace(w[i]))
    ensures EscapedWordLen(u + " " + w) == |u| + 1 + |w|
    decreases |u|
  {
    var s := u + " " + w;
    if u[0] == '\\' {
      if |u| == 1 {
        assert s[2..] == w;
        PlainWordLen(w);
      } else {
        assert s[2..] == u[2..] + " " + w;
        WaitingWordTakes(u[2..], w);
      }
    } else {
      assert s[1..] == u[1..] + " " + w;
      WaitingWordTakes(u[1..], w);
    }
  }

  lemma {:induction false} PlainWordLen(w: string)
    requires forall i | 0 <= i < |w| :: !IsSpace(w[i])
    ensures EscapedWordLen(w) == |w|
    decreases |w|
  {
    if w != [] {
      if w[0] == '\\' && |w| > 1 {
        PlainWordLen(w[2..]);
      } else {
        PlainWordLen(w[1..]);
      }
    }
  }

  /** A secret that the driver reads on past a blank: its second half is printed as a pair of its own. */
  lemma WaitingSecretShows(secret: Pair, other: Pair)
    requires PairOk(secret) && PairOk(other) && IsSecret(secret.key) && !IsSecret(other.key)
    requires Waits(secret.value) && secret.value[0] != '\'' && other.value != [] && other.value[0] != '\''
    ensures
      var conn := Shown(secret) + " " + Shown(other);
      && DriverLex(conn) == Some([Pair(secret.key, secret.value + " " + Shown(other))])
      && Lex(conn) == Some([secret, other])
      && (!StartsWithScheme(conn) ==> Redacted(conn) == Some(secret.key + "=" + MASK + " " + Shown(other)))
  {
    RedactorSplits(secret, other);
    ShownIsWord(other);
    DriverReadsOn(secret, " " + Shown(other), Shown(other));
    Assoc(Shown(secret), " ", Shown(other));
    Assoc(secret.value, " ", Shown(other));
  }

  lemma Assoc(a: string, b: string, c: string)
    ensures a + b + c == a + (b + c)
  {
  }

  lemma ShownIsWord(p: Pair)
    requires PairOk(p) && p.value != [] && p.value[0] != '\''
    ensures forall i | 0 <= i < |Shown(p)| :: !IsSpace(Shown(p)[i])
  {
    forall i | 0 <= i < |Shown(p)|
      ensures !IsSpace(Shown(p)[i])
    {
      if i < |p.key| {
        assert KeyChar(p.key[i]) && Shown(p)[i] == p.key[i];
      } else if i > |p.key| {
        assert Shown(p)[i] == p.value[i - |p.key| - 1];
      }
    }
  }

  lemma RedactorSplits(secret: Pair, other: Pair)
    requires PairOk(secret) && PairOk(other) && IsSecret(secret.key) && !IsSecret(other.key) && secret.value != []
    ensures
      var conn := Shown(secret) + " " + Shown(other);
      && Lex(conn) == Some([secret, other])
      && (!StartsWithScheme(conn) ==> Redacted(conn) == Some(secret.key + "=" + MASK + " " + Shown(other)))
  {
    var ps := [secret, other];
    assert ps[1..] == [other];
    PrintedPairsLexBack(ps);
    var masked := AllMasked(ps);
    assert masked == [Pair(secret.key, MASK), other] && masked[1..] == [other];
  }

  lemma DriverReadsOn(secret: Pair, r: string, w: string)
    requires PairOk(secret) && Waits(secret.value) && secret.value[0] != '\'' && r == " " + w
    requires forall i | 0 <= i < |w| :: !IsSpace(w[i])
    ensures DriverLex(Shown(secret) + r) == Some([Pair(secret.key, secret.value + r)])
  {
    var v := secret.value + r;
    assert v[0] == secret.value[0] && !IsSpace(v[0]);
    KeyThenTail(secret, r, v, ['='] + v);
    assert v == secret.value + " " + w;
    WaitingWordTakes(secret.value, w);
    DriverPair(Shown(secret) + r, |secret.key|, ['='] + v, v);
  }

  /** A string of one pair, whose value the driver reads to the end. */
  lemma DriverPair(t: string, k: nat, e: string, v: string)
    requires KeyThenEquals(t, k, e, v) && DriverValueLen(v) == Some(|v|)
    ensures DriverLex(t) == Some([Pair(t[..k], v)])
  {
    assert Trim(t) == t && v[..|v|] == v && v[|v|..] == [];
    assert DriverLex([]) == Some([]) && [Pair(t[..k], v)] + [] == [Pair(t[..k], v)];
  }
}
