/**
 Group names as the directory writeback compares them: blanks dropped around the whole name and around
 each comma-separated piece.
 */
module GroupNames {
  predicate IsSpace(c: char) {
    || '\t' <= c <= '\r' || c == ' ' || c == '\U{85}' || c == '\U{A0}' || c == '\U{1680}'
    || '\U{2000}' <= c <= '\U{200A}' || c == '\U{2028}' || c == '\U{2029}' || c == '\U{202F}'
    || c == '\U{205F}' || c == '\U{3000}'
  }

  /** The blanks are Unicode's white space. */
  lemma BlankIff(c: char)
    ensures IsSpace(c) <==>
            || c in "\t\n\U{B}\U{C}\r \U{85}\U{A0}\U{1680}\U{2028}\U{2029}\U{202F}\U{205F}\U{3000}"
            || c in "\U{2000}\U{2001}\U{2002}\U{2003}\U{2004}\U{2005}\U{2006}\U{2007}\U{2008}\U{2009}\U{200A}"
  {
  }

  // ---- trimming ----

  predicate Trimmed(s: string) {
    s == "" || (!IsSpace(s[0]) && !IsSpace(s[|s| - 1]))
  }

  function Trim(s: string): (r: string)
    ensures Trimmed(r)
    ensures Trimmed(s) <==> r == s
    ensures ',' !in s ==> ',' !in r
    decreases |s|
  {
    if s == "" then ""
    else if IsSpace(s[0]) then Trim(s[1..])
    else if IsSpace(s[|s| - 1]) then Trim(s[..|s| - 1])
    else s
  }

  // ---- pieces ----

  ghost predicate Plain(pieces: seq<string>) {
    forall i | 0 <= i < |pieces| :: ',' !in pieces[i]
  }

  ghost predicate AllTrimmed(pieces: seq<string>) {
    forall i | 0 <= i < |pieces| :: Trimmed(pieces[i])
  }

  function Split(s: string): (pieces: seq<string>)
    ensures pieces != []
  {
    if s == "" then [""]
    else if s[0] == ',' then [""] + Split(s[1..])
    else
      var rest := Split(s[1..]);
      [[s[0]] + rest[0]] + rest[1..]
  }

  function Join(pieces: seq<string>): string
    requires pieces != []
  {
    if |pieces| == 1 then pieces[0] else pieces[0] + "," + Join(pieces[1..])
  }

  lemma {:induction false} SplitIsPlain(s: string)
    ensures Plain(Split(s))
  {
    if s != "" {
      SplitIsPlain(s[1..]);
    }
  }

  lemma {:induction false} JoinSplit(s: string)
    ensures Join(Split(s)) == s
  {
    if s != "" {
      JoinSplit(s[1..]);
      var rest := Split(s[1..]);
      if s[0] == ',' {
        assert Split(s)[1..] == rest;
      } else {
        assert Split(s)[1..] == rest[1..];
      }
    }
  }

  /** A piece without commas is read back whole, in front of whatever follows its comma. */
  lemma {:induction false} SplitPiece(piece: string, rest: string)
    requires ',' !in piece
    ensures Split(piece) == [piece]
    ensures Split(piece + "," + rest) == [piece] + Split(rest)
  {
    if piece == "" {
      assert (piece + "," + rest)[1..] == rest;
    } else {
      SplitPiece(piece[1..], rest);
      assert (piece + "," + rest)[1..] == piece[1..] + "," + rest;
      assert piece == [piece[0]] + piece[1..];
    }
  }

  lemma {:induction false} SplitJoin(pieces: seq<string>)
    requires pieces != [] && Plain(pieces)
    ensures Split(Join(pieces)) == pieces
  {
    SplitPiece(pieces[0], if |pieces| == 1 then "" else Join(pieces[1..]));
    if |pieces| > 1 {
      SplitJoin(pieces[1..]);
    }
  }

  lemma {:induction false} JoinTrimmed(pieces: seq<string>)
    requires pieces != [] && AllTrimmed(pieces)
    ensures Trimmed(Join(pieces))
  {
    if |pieces| > 1 {
      JoinTrimmed(pieces[1..]);
    }
  }

  // ---- normalization ----

  function TrimAll(pieces: seq<string>): (r: seq<string>)
    ensures |r| == |pieces| && forall i | 0 <= i < |r| :: r[i] == Trim(pieces[i])
  {
    seq(|pieces|, i requires 0 <= i < |pieces| => Trim(pieces[i]))
  }

  function Normalized(dn: string): string {
    Join(TrimAll(Split(Trim(dn))))
  }

  method NormalizeGroupDN(dn: string) returns (r: string)
    ensures r == Normalized(dn)
  {
    var parts := Split(Trim(dn));
    ghost var before := parts;
    var i := 0;
    while i < |parts|
      invariant 0 <= i <= |parts| == |before|
      invariant forall k | 0 <= k < i :: parts[k] == Trim(before[k])
      invariant forall k | i <= k < |parts| :: parts[k] == before[k]
    {
      parts := parts[i := Trim(parts[i])];
      i := i + 1;
    }
    assert parts == TrimAll(before);
    r := Join(parts);
  }

  lemma PiecesOfNormalized(dn: string)
    ensures Split(Normalized(dn)) == TrimAll(Split(Trim(dn))) && AllTrimmed(Split(Normalized(dn)))
    ensures Trimmed(Normalized(dn))
  {
    var pieces := TrimAll(Split(Trim(dn)));
    SplitIsPlain(Trim(dn));
    SplitJoin(pieces);
    JoinTrimmed(pieces);
  }

  /** Normalizing twice is normalizing once. */
  lemma NormalizedIdempotent(dn: string)
    ensures Normalized(Normalized(dn)) == Normalized(dn)
  {
    PiecesOfNormalized(dn);
    NormalIffTrimmed(Normalized(dn));
  }

  /** A name is left as it is exactly when none of its pieces begins or ends with a blank. */
  lemma NormalIffTrimmed(dn: string)
    ensures Normalized(dn) == dn <==> AllTrimmed(Split(dn))
  {
    if AllTrimmed(Split(dn)) {
      JoinSplit(dn);
      JoinTrimmed(Split(dn));
      assert TrimAll(Split(dn)) == Split(dn);
    }
    if Normalized(dn) == dn {
      PiecesOfNormalized(dn);
    }
  }

  // ---- piece by piece ----

  lemma {:induction false} TrimOuter(x: string, c: char)
    requires IsSpace(c)
    ensures Trim([c] + x) == Trim(x) && Trim(x + [c]) == Trim(x)
    decreases |x|
  {
    assert ([c] + x)[1..] == x;
    if x == "" {
      assert (x + [c])[1..] == "";
    } else if IsSpace(x[0]) {
      TrimOuter(x[1..], c);
      assert (x + [c])[1..] == x[1..] + [c];
    } else {
      assert (x + [c])[..|x|] == x;
    }
  }

  lemma {:induction false} JoinLast(pieces: seq<string>, c: char)
    requires pieces != []
    ensures Join(pieces[|pieces| - 1 := pieces[|pieces| - 1] + [c]]) == Join(pieces) + [c]
  {
    if |pieces| > 1 {
      var n := |pieces| - 1;
      JoinLast(pieces[1..], c);
      assert pieces[n := pieces[n] + [c]][1..] == pieces[1..][n - 1 := pieces[1..][n - 1] + [c]];
      assert pieces[0] + "," + (Join(pieces[1..]) + [c]) == pieces[0] + "," + Join(pieces[1..]) + [c];
    }
  }

  lemma JoinFirst(pieces: seq<string>, c: char)
    requires pieces != []
    ensures Join(pieces[0 := [c] + pieces[0]]) == [c] + Join(pieces)
  {
    if |pieces| > 1 {
      assert pieces[0 := [c] + pieces[0]][1..] == pieces[1..];
      assert [c] + pieces[0] + "," + Join(pieces[1..]) == [c] + (pieces[0] + "," + Join(pieces[1..]));
    }
  }

  /** A character before the whole name joins its first piece. */
  lemma SplitFirst(s: string, c: char)
    requires c != ','
    ensures Split([c] + s) == Split(s)[0 := [c] + Split(s)[0]]
  {
    SplitIsPlain(s);
    JoinSplit(s);
    JoinFirst(Split(s), c);
    SplitJoin(Split(s)[0 := [c] + Split(s)[0]]);
  }

  /** One after it joins the last. */
  lemma SplitLast(s: string, c: char)
    requires c != ','
    ensures Split(s + [c]) == Split(s)[|Split(s)| - 1 := Split(s)[|Split(s)| - 1] + [c]]
  {
    SplitIsPlain(s);
    JoinSplit(s);
    JoinLast(Split(s), c);
    SplitJoin(Split(s)[|Split(s)| - 1 := Split(s)[|Split(s)| - 1] + [c]]);
  }

  lemma TrimAllLeading(s: string, c: char)
    requires IsSpace(c)
    ensures TrimAll(Split([c] + s)) == TrimAll(Split(s))
  {
    SplitFirst(s, c);
    TrimOuter(Split(s)[0], c);
    TrimAllExcept(Split(s), 0, [c] + Split(s)[0]);
  }

  lemma TrimAllExcept(pieces: seq<string>, k: nat, x: string)
    requires k < |pieces| && Trim(x) == Trim(pieces[k])
    ensures TrimAll(pieces[k := x]) == TrimAll(pieces)
  {
  }

  lemma TrimAllTrailing(s: string, c: char)
    requires IsSpace(c)
    ensures TrimAll(Split(s + [c])) == TrimAll(Split(s))
  {
    var pieces := Split(s);
    SplitLast(s, c);
    TrimOuter(pieces[|pieces| - 1], c);
    TrimAllExcept(pieces, |pieces| - 1, pieces[|pieces| - 1] + [c]);
  }

  /** Trimming the whole name first changes no trimmed piece. */
  lemma {:induction false} TrimThenSplit(dn: string)
    ensures TrimAll(Split(Trim(dn))) == TrimAll(Split(dn))
    decreases |dn|
  {
    if dn != "" && IsSpace(dn[0]) {
      TrimThenSplit(dn[1..]);
      TrimAllLeading(dn[1..], dn[0]);
      assert dn == [dn[0]] + dn[1..];
    } else if dn != "" && IsSpace(dn[|dn| - 1]) {
      TrimThenSplit(dn[..|dn| - 1]);
      TrimAllTrailing(dn[..|dn| - 1], dn[|dn| - 1]);
      assert dn == dn[..|dn| - 1] + [dn[|dn| - 1]];
    }
  }

  /** Normalizing trims every piece between commas, and does nothing else. */
  lemma NormalizedPieceByPiece(dn: string)
    ensures |Split(Normalized(dn))| == |Split(dn)|
    ensures forall i | 0 <= i < |Split(dn)| :: Split(Normalized(dn))[i] == Trim(Split(dn)[i])
  {
    PiecesOfNormalized(dn);
    TrimThenSplit(dn);
  }
}
