/**
 What a group name says, and when normalizing it keeps that. A backslash takes the next character into the name;
 only a comma it has not taken separates parts, and only blanks it has not taken are dropped at a part's edges
 (section 3 of RFC 4514, with the blanks that section 4 of RFC 2253 lets a reader drop).
 */
module GroupReading {
  import opened GroupNames

  datatype Sign = Bare(c: char) | Escaped(c: char)

  /** The text ends in an odd number of backslashes: the last one waits for a character to take. */
  predicate Open(s: string) {
    s != "" && s[|s| - 1] == '\\' && !Open(s[..|s| - 1])
  }

  /** The signs of a text, read character by character, without a backslash that still waits. */
  function Body(s: string): seq<Sign> {
    if s == "" then []
    else
      var before, c := s[..|s| - 1], s[|s| - 1];
      if Open(before) then Body(before) + [Escaped(c)]
      else if c == '\\' then Body(before)
      else Body(before) + [Bare(c)]
  }

  /** All its signs: a backslash with nothing to take stands for itself. */
  function Signs(s: string): seq<Sign> {
    Body(s) + if Open(s) then [Bare('\\')] else []
  }

  predicate IsBlank(x: Sign) {
    x.Bare? && IsSpace(x.c)
  }

  function TrimLeft(t: seq<Sign>): (r: seq<Sign>)
    ensures r != [] ==> !IsBlank(r[0])
  {
    if t != [] && IsBlank(t[0]) then TrimLeft(t[1..]) else t
  }

  function TrimRight(t: seq<Sign>): (r: seq<Sign>)
    ensures r != [] ==> !IsBlank(r[|r| - 1])
  {
    if t != [] && IsBlank(t[|t| - 1]) then TrimRight(t[..|t| - 1]) else t
  }

  /** The parts between the commas that separate. */
  function Parts(t: seq<Sign>): (r: seq<seq<Sign>>)
    ensures r != []
  {
    if t == [] then [[]]
    else if t[0] == Bare(',') then [[]] + Parts(t[1..])
    else
      var rest := Parts(t[1..]);
      [[t[0]] + rest[0]] + rest[1..]
  }

  function TrimParts(parts: seq<seq<Sign>>): (r: seq<seq<Sign>>)
    ensures |r| == |parts| && forall i | 0 <= i < |r| :: r[i] == TrimRight(TrimLeft(parts[i]))
  {
    seq(|parts|, i requires 0 <= i < |parts| => TrimRight(TrimLeft(parts[i])))
  }

  function Read(dn: string): seq<seq<Sign>> {
    TrimParts(Parts(Signs(dn)))
  }

  // ---- signs of a text put together ----

  lemma BodySnoc(x: string, c: char)
    ensures Body(x + [c]) ==
            if Open(x) then Body(x) + [Escaped(c)] else if c == '\\' then Body(x) else Body(x) + [Bare(c)]
    ensures Open(x + [c]) <==> c == '\\' && !Open(x)
  {
    assert (x + [c])[..|x|] == x;
  }

  lemma {:induction false} BodyConcat(a: string, b: string)
    requires !Open(a)
    ensures Body(a + b) == Body(a) + Body(b) && (Open(a + b) <==> Open(b))
  {
    if b == "" {
      assert a + b == a;
    } else {
      var x, c := b[..|b| - 1], b[|b| - 1];
      assert b == x + [c];
      BodyConcat(a, x);
      BodyConcatSnoc(a, x, c);
    }
  }

  lemma Assoc<T>(a: seq<T>, b: seq<T>, c: seq<T>)
    ensures a + b + c == a + (b + c)
  {
  }

  lemma BodyConcatSnoc(a: string, x: string, c: char)
    requires Body(a + x) == Body(a) + Body(x) && (Open(a + x) <==> Open(x))
    ensures Body(a + (x + [c])) == Body(a) + Body(x + [c]) && (Open(a + (x + [c])) <==> Open(x + [c]))
  {
    BodySnoc(a + x, c);
    BodySnoc(x, c);
    Assoc(a, x, [c]);
    Assoc(Body(a), Body(x), [if Open(x) then Escaped(c) else Bare(c)]);
  }

  lemma SignsConcat(a: string, b: string)
    requires !Open(a)
    ensures Signs(a + b) == Signs(a) + Signs(b) && (Open(a + b) <==> Open(b))
  {
    BodyConcat(a, b);
    Assoc(Body(a), Body(b), if Open(b) then [Bare('\\')] else []);
    assert Signs(a) == Body(a);
  }

  lemma SignsSnoc(x: string, c: char)
    ensures Signs(x + [c]) == Body(x) + [if Open(x) then Escaped(c) else Bare(c)]
  {
    BodySnoc(x, c);
  }

  lemma SignsOfOne(c: char)
    ensures Signs([c]) == [Bare(c)] && (Open([c]) <==> c == '\\')
  {
    SignsSnoc("", c);
    BodySnoc("", c);
    assert "" + [c] == [c];
  }

  /** A piece and what follows its comma. */
  lemma SignsComma(p: string, rest: string)
    ensures Signs(p + "," + rest) == Body(p) + [if Open(p) then Escaped(',') else Bare(',')] + Signs(rest)
  {
    SignsSnoc(p, ',');
    SignsConcat(p + ",", rest);
  }

  lemma {:induction false} SignsFrom(s: string, x: Sign)
    requires x in Signs(s)
    ensures x.c in s
  {
    var n := |s| - 1;
    if x in Signs(s[..n]) {
      SignsFrom(s[..n], x);
    }
  }

  // ---- the reading, piece by piece ----

  ghost predicate NoComma(t: seq<Sign>) {
    Bare(',') !in t
  }

  lemma {:induction false} PartsPrefix(u: seq<Sign>, t: seq<Sign>)
    requires NoComma(u)
    ensures Parts(u + t) == [u + Parts(t)[0]] + Parts(t)[1..]
  {
    if u == [] {
      assert u + t == t && [] + Parts(t)[0] == Parts(t)[0];
    } else {
      PartsPrefix(u[1..], t);
      assert (u + t)[1..] == u[1..] + t;
      assert [u[0]] + (u[1..] + Parts(t)[0]) == u + Parts(t)[0];
    }
  }

  lemma PartsAfter(u: seq<Sign>, t: seq<Sign>)
    requires NoComma(u)
    ensures Parts(u + [Bare(',')] + t) == [u] + Parts(t)
  {
    PartsPrefix(u, [Bare(',')] + t);
    assert u + ([Bare(',')] + t) == u + [Bare(',')] + t && ([Bare(',')] + t)[1..] == t;
    assert u + [] == u;
  }

  /** The edges of one part: the first piece of a name or after a separating comma loses its leading blanks. */
  function Edge(t: seq<Sign>, inside: bool): seq<Sign> {
    if inside then t else TrimLeft(t)
  }

  /** The reading of pieces, of which the first may continue a part. */
  function ReadPieces(pieces: seq<string>, inside: bool): (r: seq<seq<Sign>>)
    requires pieces != []
    ensures r != []
  {
    var p := pieces[0];
    if |pieces| == 1 then [TrimRight(Edge(Signs(p), inside))]
    else if Open(p) then
      var rest := ReadPieces(pieces[1..], true);
      [Edge(Body(p), inside) + [Escaped(',')] + rest[0]] + rest[1..]
    else [TrimRight(Edge(Signs(p), inside))] + ReadPieces(pieces[1..], false)
  }

  lemma {:induction false} TrimLeftStops(u: seq<Sign>, x: Sign, t: seq<Sign>)
    requires !IsBlank(x)
    ensures TrimLeft(u + [x] + t) == TrimLeft(u) + [x] + t
  {
    if u != [] && IsBlank(u[0]) {
      TrimLeftStops(u[1..], x, t);
      assert (u + [x] + t)[1..] == u[1..] + [x] + t;
    }
  }

  lemma {:induction false} TrimRightStops(u: seq<Sign>, x: Sign, t: seq<Sign>)
    requires !IsBlank(x)
    ensures TrimRight(u + [x] + t) == u + [x] + TrimRight(t)
  {
    if t == [] {
      assert u + [x] + t == u + [x];
    } else if IsBlank(t[|t| - 1]) {
      TrimRightStops(u, x, t[..|t| - 1]);
      assert (u + [x] + t)[..|u + [x] + t| - 1] == u + [x] + t[..|t| - 1];
    }
  }

  /** The first part, trimmed as far as it is all there, and the others. */
  function TrimFrom(parts: seq<seq<Sign>>, inside: bool): seq<seq<Sign>>
    requires parts != []
  {
    [TrimRight(Edge(parts[0], inside))] + TrimParts(parts[1..])
  }

  lemma TrimFromStart(parts: seq<seq<Sign>>)
    requires parts != []
    ensures TrimParts(parts) == TrimFrom(parts, false)
  {
  }

  lemma TrimFromOpen(u: seq<Sign>, t: seq<Sign>, inside: bool)
    requires NoComma(u)
    ensures
      var r := TrimFrom(Parts(t), true);
      TrimFrom(Parts(u + [Escaped(',')] + t), inside) == [Edge(u, inside) + [Escaped(',')] + r[0]] + r[1..]
  {
    var tail := Parts(t);
    PartsPrefix(u + [Escaped(',')], t);
    var all := Parts(u + [Escaped(',')] + t);
    assert all[1..] == tail[1..];
    EdgeOfJoined(u, tail[0], inside);
  }

  lemma TrimFromClosed(u: seq<Sign>, t: seq<Sign>, inside: bool)
    requires NoComma(u)
    ensures TrimFrom(Parts(u + [Bare(',')] + t), inside) == [TrimRight(Edge(u, inside))] + TrimFrom(Parts(t), false)
  {
    PartsAfter(u, t);
    assert Parts(u + [Bare(',')] + t)[1..] == Parts(t);
    TrimFromStart(Parts(t));
  }

  lemma {:induction false} ReadByPieces(pieces: seq<string>, inside: bool)
    requires pieces != [] && Plain(pieces)
    ensures TrimFrom(Parts(Signs(Join(pieces))), inside) == ReadPieces(pieces, inside)
  {
    var p := pieces[0];
    NoCommaInside(p);
    if |pieces| == 1 {
      PartsPrefix(Signs(p), []);
      assert Signs(p) + [] == Signs(p);
    } else {
      var rest := Join(pieces[1..]);
      SignsComma(p, rest);
      ReadByPieces(pieces[1..], Open(p));
      if Open(p) {
        TrimFromOpen(Body(p), Signs(rest), inside);
      } else {
        assert Signs(p) == Body(p);
        TrimFromClosed(Body(p), Signs(rest), inside);
      }
    }
  }

  lemma EdgeOfJoined(u: seq<Sign>, t: seq<Sign>, inside: bool)
    ensures TrimRight(Edge(u + [Escaped(',')] + t, inside)) == Edge(u, inside) + [Escaped(',')] + TrimRight(t)
  {
    TrimLeftStops(u, Escaped(','), t);
    TrimRightStops(Edge(u, inside), Escaped(','), t);
  }

  lemma NoCommaInside(p: string)
    requires ',' !in p
    ensures NoComma(Signs(p)) && NoComma(Body(p))
  {
    forall x | x in Signs(p)
      ensures x.c in p
    {
      SignsFrom(p, x);
    }
  }

  // ---- what trimming a piece does to its signs ----

  /** The piece ends in blanks of which the first is taken by a backslash. */
  predicate EndsTaken(p: string) {
    p != "" && IsSpace(p[|p| - 1]) && (Open(p[..|p| - 1]) || EndsTaken(p[..|p| - 1]))
  }

  predicate StartsBlank(p: string) {
    p != "" && IsSpace(p[0])
  }

  predicate AllBlank(p: string) {
    forall i | 0 <= i < |p| :: IsSpace(p[i])
  }

  lemma SignsTail(p: string)
    requires StartsBlank(p)
    ensures Signs(p) == [Bare(p[0])] + Signs(p[1..]) && (Open(p) <==> Open(p[1..]))
  {
    SignsOfOne(p[0]);
    SignsConcat([p[0]], p[1..]);
    assert [p[0]] + p[1..] == p;
  }

  lemma {:induction false} EndsTakenTail(p: string)
    requires StartsBlank(p)
    ensures EndsTaken(p) <==> EndsTaken(p[1..])
  {
    var n := |p| - 1;
    if n > 0 {
      assert p[1..][..n - 1] == p[..n][1..];
      EndsTakenTail(p[..n]);
      SignsTail(p[..n]);
    } else {
      assert p[..n] == "" && p[1..] == "";
    }
  }

  lemma TrimSides(t: seq<Sign>)
    requires t != []
    ensures IsBlank(t[0]) ==> TrimRight(TrimLeft(t)) == TrimRight(TrimLeft(t[1..]))
    ensures IsBlank(t[|t| - 1]) && !IsBlank(t[0]) ==> TrimRight(TrimLeft(t)) == TrimRight(TrimLeft(t[..|t| - 1]))
  {
    if IsBlank(t[|t| - 1]) && !IsBlank(t[0]) {
      assert t[..|t| - 1][0] == t[0];
    }
  }

  /** A piece that does not end taken is trimmed as its signs are. */
  lemma {:induction false} SignsTrim(p: string)
    requires !EndsTaken(p)
    ensures Signs(Trim(p)) == TrimRight(TrimLeft(Signs(p))) && (Open(Trim(p)) <==> Open(p))
    decreases |p|
  {
    if p != "" {
      var n := |p| - 1;
      if IsSpace(p[0]) {
        SignsTail(p);
        EndsTakenTail(p);
        SignsTrim(p[1..]);
        TrimSides(Signs(p));
      } else if IsSpace(p[n]) {
        SignsTrim(p[..n]);
        assert Signs(p)[..|Signs(p)| - 1] == Signs(p[..n]);
        FirstSign(p);
        TrimSides(Signs(p));
      } else {
        FirstSign(p);
      }
    }
  }

  lemma {:induction false} FirstSign(p: string)
    requires p != "" && !IsSpace(p[0])
    ensures Signs(p) != [] && !IsBlank(Signs(p)[0])
  {
    var n := |p| - 1;
    if n > 0 {
      FirstSign(p[..n]);
    } else {
      SignsOfOne(p[0]);
      assert p == [p[0]];
    }
  }

  // ---- taken blanks are counted ----

  function Taken(t: seq<Sign>): nat {
    if t == [] then 0 else Taken(t[..|t| - 1]) + if t[|t| - 1].Escaped? && IsSpace(t[|t| - 1].c) then 1 else 0
  }

  function TakenIn(parts: seq<seq<Sign>>): nat {
    if parts == [] then 0 else Taken(parts[0]) + TakenIn(parts[1..])
  }

  function TakenOf(pieces: seq<string>): nat {
    if pieces == [] then 0 else Taken(Signs(pieces[0])) + TakenOf(pieces[1..])
  }

  lemma {:induction false} TakenConcat(a: seq<Sign>, b: seq<Sign>)
    ensures Taken(a + b) == Taken(a) + Taken(b)
  {
    if b == [] {
      assert a + b == a;
    } else {
      TakenConcat(a, b[..|b| - 1]);
      assert (a + b)[..|a + b| - 1] == a + b[..|b| - 1];
    }
  }

  lemma {:induction false} TakenTrimLeft(t: seq<Sign>)
    ensures Taken(TrimLeft(t)) == Taken(t)
  {
    if t != [] && IsBlank(t[0]) {
      TakenTrimLeft(t[1..]);
      TakenConcat([t[0]], t[1..]);
      assert [t[0]] + t[1..] == t && [t[0]][..0] == [];
    }
  }

  lemma {:induction false} TakenTrimRight(t: seq<Sign>)
    ensures Taken(TrimRight(t)) == Taken(t)
  {
    if t != [] && IsBlank(t[|t| - 1]) {
      TakenTrimRight(t[..|t| - 1]);
    }
  }

  /** Reading loses no taken blank. */
  lemma {:induction false} TakenRead(pieces: seq<string>, inside: bool)
    requires pieces != []
    ensures TakenIn(ReadPieces(pieces, inside)) == TakenOf(pieces)
  {
    var p := pieces[0];
    TakenEdge(Signs(p), inside);
    TakenTrimRight(Edge(Signs(p), inside));
    if |pieces| == 1 {
      assert ReadPieces(pieces, inside)[1..] == [] && pieces[1..] == [];
    } else {
      TakenRead(pieces[1..], Open(p));
      if Open(p) {
        TakenOpenPiece(p, ReadPieces(pieces[1..], true), inside);
      } else {
        assert ReadPieces(pieces, inside)[1..] == ReadPieces(pieces[1..], false);
      }
    }
  }

  lemma TakenEdge(t: seq<Sign>, inside: bool)
    ensures Taken(Edge(t, inside)) == Taken(t)
  {
    TakenTrimLeft(t);
  }

  lemma TakenOpenPiece(p: string, rest: seq<seq<Sign>>, inside: bool)
    requires Open(p) && rest != []
    ensures TakenIn([Edge(Body(p), inside) + [Escaped(',')] + rest[0]] + rest[1..]) == Taken(Signs(p)) + TakenIn(rest)
  {
    var u := Edge(Body(p), inside);
    TakenEdge(Body(p), inside);
    TakenConcat(u + [Escaped(',')], rest[0]);
    assert (u + [Escaped(',')])[..|u|] == u;
    var all := [u + [Escaped(',')] + rest[0]] + rest[1..];
    assert all[1..] == rest[1..];
  }

  /** Trimming a piece loses a taken blank exactly when the piece ends taken. */
  lemma {:induction false} TakenTrim(p: string)
    ensures Taken(Signs(Trim(p))) == Taken(Signs(p)) - if EndsTaken(p) then 1 else 0
    ensures EndsTaken(p) ==> Open(Trim(p))
    decreases |p|
  {
    if !EndsTaken(p) {
      SignsTrim(p);
      TakenTrimLeft(Signs(p));
      TakenTrimRight(TrimLeft(Signs(p)));
    } else if IsSpace(p[0]) {
      EndsTakenTail(p);
      TakenTrim(p[1..]);
      TakenTail(p);
    } else {
      var x := p[..|p| - 1];
      assert p == x + [p[|p| - 1]];
      TakenTrim(x);
      TakenSnoc(x, p[|p| - 1]);
      if Open(x) {
        OpenIsTrimmed(x);
        OpenTrims(x);
      }
    }
  }

  lemma TakenTail(p: string)
    requires StartsBlank(p)
    ensures Taken(Signs(p)) == Taken(Signs(p[1..]))
  {
    SignsTail(p);
    TakenConcat([Bare(p[0])], Signs(p[1..]));
    assert [Bare(p[0])][..0] == [];
  }

  lemma OpenIsTrimmed(x: string)
    requires Open(x)
    ensures !EndsTaken(x)
  {
  }

  lemma TakenSnoc(x: string, c: char)
    requires IsSpace(c)
    ensures Taken(Signs(x + [c])) == Taken(Signs(x)) + if Open(x) then 1 else 0
  {
    SignsSnoc(x, c);
    TakenLast(Body(x), if Open(x) then Escaped(c) else Bare(c));
    if Open(x) {
      TakenLast(Body(x), Bare('\\'));
    } else {
      assert Signs(x) == Body(x);
    }
  }

  lemma TakenLast(t: seq<Sign>, x: Sign)
    ensures Taken(t + [x]) == Taken(t) + if x.Escaped? && IsSpace(x.c) then 1 else 0
  {
    assert (t + [x])[..|t|] == t;
  }

  ghost predicate SomeTaken(pieces: seq<string>) {
    exists i :: 0 <= i < |pieces| && EndsTaken(pieces[i])
  }

  lemma {:induction false} TakenTrimAll(pieces: seq<string>)
    ensures TakenOf(TrimAll(pieces)) <= TakenOf(pieces)
    ensures SomeTaken(pieces) ==> TakenOf(TrimAll(pieces)) < TakenOf(pieces)
  {
    if pieces != [] {
      TakenTrim(pieces[0]);
      TakenTrimAll(pieces[1..]);
      assert TrimAll(pieces)[1..] == TrimAll(pieces[1..]);
      if SomeTaken(pieces) && !EndsTaken(pieces[0]) {
        var i :| 0 <= i < |pieces| && EndsTaken(pieces[i]);
        assert EndsTaken(pieces[1..][i - 1]);
      }
    }
  }

  // ---- when the reading is kept ----

  /** A piece that continues a part, after a comma taken by a backslash, keeps its leading blanks unless it is all
      blanks. */
  predicate KeepsStart(p: string, inside: bool) {
    inside && StartsBlank(p) ==> AllBlank(p)
  }

  ghost predicate StartsKept(pieces: seq<string>, inside: bool) {
    pieces == [] || (KeepsStart(pieces[0], inside) && StartsKept(pieces[1..], Open(pieces[0])))
  }

  lemma {:induction false} AllBlankSigns(p: string)
    ensures AllBlank(p) <==> TrimLeft(Signs(p)) == []
    ensures AllBlank(p) ==> TrimRight(Signs(p)) == [] && !Open(p)
  {
    if p == "" {
    } else if IsSpace(p[0]) {
      SignsTail(p);
      AllBlankSigns(p[1..]);
      assert Signs(p)[1..] == Signs(p[1..]);
      assert AllBlank(p[1..]) ==> forall i | 0 < i < |p| :: p[1..][i - 1] == p[i] && IsSpace(p[i]);
      assert AllBlank(p) <==> AllBlank(p[1..]);
      if AllBlank(p) {
        AllBlankRight(Signs(p));
      }
    } else {
      FirstSign(p);
    }
  }

  lemma {:induction false} AllBlankRight(t: seq<Sign>)
    requires TrimLeft(t) == []
    ensures TrimRight(t) == []
  {
    if t != [] {
      AllBlankRight(t[1..]);
      RightOfTail(t);
    }
  }

  lemma {:induction false} RightOfTail(t: seq<Sign>)
    requires t != [] && TrimRight(t[1..]) == []
    ensures TrimRight(t) == TrimRight([t[0]])
  {
    if |t| > 1 {
      assert t[1..][|t| - 2] == t[|t| - 1];
      assert IsBlank(t[|t| - 1]);
      assert t[1..][..|t| - 2] == t[..|t| - 1][1..];
      RightOfTail(t[..|t| - 1]);
    }
  }

  /** One end of a part: the piece and the trimmed piece read alike exactly when the start is kept. */
  lemma LastSame(p: string, inside: bool)
    requires !EndsTaken(p)
    ensures TrimRight(Edge(Signs(p), inside)) == TrimRight(Edge(Signs(Trim(p)), inside)) <==> KeepsStart(p, inside)
  {
    var t := Signs(p);
    SignsTrim(p);
    TrimTwice(t);
    if inside && StartsBlank(p) {
      SignsTail(p);
      AllBlankSigns(p);
      if !AllBlank(p) {
        KeptFirst(t);
      }
    } else if p != "" && !StartsBlank(p) {
      FirstSign(p);
    }
  }

  /** Signs that begin blank but are not all blank still begin blank when trimmed on the right. */
  lemma KeptFirst(t: seq<Sign>)
    requires t != [] && IsBlank(t[0]) && TrimLeft(t) != []
    ensures TrimRight(t) != [] && TrimRight(t)[0] == t[0]
    ensures TrimRight(TrimLeft(t)) == [] || !IsBlank(TrimRight(TrimLeft(t))[0])
  {
    RightKeepsFirst(t, TrimLeft(t)[0]);
    LeftAmong(t);
    RightIsPrefix(TrimLeft(t));
  }

  lemma {:induction false} LeftAmong(t: seq<Sign>)
    ensures forall x | x in TrimLeft(t) :: x in t
  {
    if t != [] && IsBlank(t[0]) {
      LeftAmong(t[1..]);
    }
  }

  lemma {:induction false} RightKeepsFirst(t: seq<Sign>, x: Sign)
    requires TrimLeft(t) != [] && x == TrimLeft(t)[0]
    ensures TrimRight(t) != [] && TrimRight(t)[0] == t[0]
  {
    if t != [] && IsBlank(t[|t| - 1]) {
      LeftOfFront(t);
      RightKeepsFirst(t[..|t| - 1], x);
    }
  }

  lemma {:induction false} LeftOfFront(t: seq<Sign>)
    requires t != [] && IsBlank(t[|t| - 1]) && TrimLeft(t) != []
    ensures TrimLeft(t[..|t| - 1]) != [] && TrimLeft(t[..|t| - 1])[0] == TrimLeft(t)[0]
  {
    if IsBlank(t[0]) {
      assert t[1..] != [] && t[1..][|t| - 2] == t[|t| - 1];
      LeftOfFront(t[1..]);
      assert t[1..][..|t| - 2] == t[..|t| - 1][1..];
    }
  }

  lemma {:induction false} RightIsPrefix(t: seq<Sign>)
    ensures TrimRight(t) <= t
  {
    if t != [] && IsBlank(t[|t| - 1]) {
      RightIsPrefix(t[..|t| - 1]);
    }
  }

  lemma TrimTwice(t: seq<Sign>)
    ensures
      var r := TrimRight(TrimLeft(t));
      TrimLeft(r) == r && TrimRight(r) == r && TrimRight(TrimLeft(r)) == r
  {
    RightIsPrefix(TrimLeft(t));
  }

  /** Inside a part, before a comma taken by a backslash. */
  lemma BodySame(p: string, inside: bool)
    requires Open(p)
    ensures Body(Trim(p)) == TrimLeft(Body(p))
    ensures KeepsStart(p, inside) ==> Edge(Body(p), inside) == Edge(Body(Trim(p)), inside)
    ensures !KeepsStart(p, inside) ==> inside && Body(p) != [] && IsBlank(Body(p)[0])
  {
    OpenIsTrimmed(p);
    OpenTrims(p);
    AllBlankSigns(p);
    if StartsBlank(p) {
      SignsTail(p);
      assert p[|p| - 1] == '\\' && |p| > 1;
    } else {
      FirstSign(p);
    }
    LeftTwice(Body(p));
  }

  lemma {:induction false} LeftTwice(t: seq<Sign>)
    ensures TrimLeft(TrimLeft(t)) == TrimLeft(t)
  {
  }

  lemma {:induction false} OpenTrims(p: string)
    requires Open(p)
    ensures Open(Trim(p)) && Body(Trim(p)) == TrimLeft(Body(p))
    decreases |p|
  {
    if IsSpace(p[0]) {
      SignsTail(p);
      OpenTrims(p[1..]);
      var t := Signs(p);
      assert t[..|t| - 1] == [t[0]] + Signs(p[1..])[..|Signs(p[1..])| - 1];
    } else {
      FirstSign(p);
      assert Body(p) != [] ==> Body(p)[0] == Signs(p)[0];
    }
  }

  lemma ConsSame<T>(x: T, a: seq<T>, y: T, b: seq<T>)
    ensures [x] + a == [y] + b <==> x == y && a == b
  {
    assert ([x] + a)[0] == x && ([x] + a)[1..] == a;
    assert ([y] + b)[0] == y && ([y] + b)[1..] == b;
  }

  lemma AfterSame(u: seq<Sign>, a: seq<seq<Sign>>, b: seq<seq<Sign>>)
    requires a != [] && b != []
    ensures [u + a[0]] + a[1..] == [u + b[0]] + b[1..] <==> a == b
  {
    ConsSame(u + a[0], a[1..], u + b[0], b[1..]);
    assert a == [a[0]] + a[1..] && b == [b[0]] + b[1..];
    if u + a[0] == u + b[0] {
      assert (u + a[0])[|u|..] == a[0] && (u + b[0])[|u|..] == b[0];
    }
  }

  /** Where no piece ends taken, the reading is kept exactly when every start is. */
  lemma {:induction false} SameIffStartsKept(pieces: seq<string>, inside: bool)
    requires pieces != [] && !SomeTaken(pieces)
    ensures ReadPieces(TrimAll(pieces), inside) == ReadPieces(pieces, inside) <==> StartsKept(pieces, inside)
  {
    var p, q := pieces[0], Trim(pieces[0]);
    assert !EndsTaken(p);
    if |pieces| == 1 {
      LastSame(p, inside);
      ConsSame(TrimRight(Edge(Signs(q), inside)), [], TrimRight(Edge(Signs(p), inside)), []);
    } else {
      var rest := pieces[1..];
      assert TrimAll(pieces)[1..] == TrimAll(rest);
      assert forall i | 0 <= i < |rest| :: rest[i] == pieces[i + 1];
      SameIffStartsKept(rest, Open(p));
      SignsTrim(p);
      if Open(p) {
        var a, b := ReadPieces(TrimAll(rest), true), ReadPieces(rest, true);
        OpenSame(p, a, b, inside);
        assert ReadPieces(TrimAll(pieces), inside) == [Edge(Body(q), inside) + [Escaped(',')] + a[0]] + a[1..];
      } else {
        LastSame(p, inside);
        ConsSame(TrimRight(Edge(Signs(q), inside)), ReadPieces(TrimAll(rest), false),
                 TrimRight(Edge(Signs(p), inside)), ReadPieces(rest, false));
      }
    }
  }

  lemma OpenSame(p: string, a: seq<seq<Sign>>, b: seq<seq<Sign>>, inside: bool)
    requires Open(p) && a != [] && b != []
    ensures
      var u, v := Edge(Body(Trim(p)), inside) + [Escaped(',')], Edge(Body(p), inside) + [Escaped(',')];
      [u + a[0]] + a[1..] == [v + b[0]] + b[1..] <==> KeepsStart(p, inside) && a == b
  {
    var u, v := Edge(Body(Trim(p)), inside) + [Escaped(',')], Edge(Body(p), inside) + [Escaped(',')];
    BodySame(p, inside);
    if KeepsStart(p, inside) {
      AfterSame(u, a, b);
    } else {
      assert (v + b[0])[0] == Body(p)[0] && !IsBlank((u + a[0])[0]);
      ConsSame(u + a[0], a[1..], v + b[0], b[1..]);
    }
  }

  /** No piece between commas ends in a blank that a backslash takes, and none that follows a comma taken by a
      backslash starts with a blank, unless it is all blanks. */
  ghost predicate Plainly(dn: string) {
    !SomeTaken(Split(dn)) && StartsKept(Split(dn), false)
  }

  /** Normalizing keeps what the name says if and only if that is so. */
  lemma NormalizedReadsSameIff(dn: string)
    ensures Read(Normalized(dn)) == Read(dn) <==> Plainly(dn)
  {
    var pieces := Split(dn);
    SplitIsPlain(dn);
    JoinSplit(dn);
    TrimThenSplit(dn);
    ReadOfPieces(pieces);
    ReadOfPieces(TrimAll(pieces));
    if SomeTaken(pieces) {
      TakenTrimAll(pieces);
      TakenRead(pieces, false);
      TakenRead(TrimAll(pieces), false);
    } else {
      SameIffStartsKept(pieces, false);
    }
  }

  lemma ReadOfPieces(pieces: seq<string>)
    requires pieces != [] && Plain(pieces)
    ensures Read(Join(pieces)) == ReadPieces(pieces, false)
  {
    ReadByPieces(pieces, false);
    TrimFromStart(Parts(Signs(Join(pieces))));
  }

  // ---- the names that change ----

  /** A blank after an escaped comma belongs to the name and is dropped. */
  lemma EscapedCommaChanges(x: string, y: string)
    requires ',' !in x && ',' !in y && Open(x) && StartsBlank(y) && !AllBlank(y)
    ensures Normalized(x + "," + y) == Trim(x) + "," + Trim(y) && Read(Normalized(x + "," + y)) != Read(x + "," + y)
  {
    TwoPieces(x, y);
    assert [x, y][1..] == [y] && !StartsKept([y], true);
    NormalizedReadsSameIff(x + "," + y);
  }

  /** Dropping an escaped blank at the end of a part escapes the comma behind it: two parts become one. */
  lemma EscapedBlankChanges(x: string, y: string)
    requires ',' !in x && ',' !in y && EndsTaken(x)
    ensures Normalized(x + "," + y) == Trim(x) + "," + Trim(y)
    ensures |Read(x + "," + y)| == 2 && |Read(Normalized(x + "," + y))| == 1
  {
    TwoPieces(x, y);
    TakenTrim(x);
    assert !Open(x);
    PartsOfTwo(x, y);
    PartsOfTwo(Trim(x), Trim(y));
  }

  lemma PartsOfTwo(x: string, y: string)
    requires ',' !in x && ',' !in y
    ensures |Read(x + "," + y)| == if Open(x) then 1 else 2
  {
    TwoPieces(x, y);
    assert [x, y][1..] == [y] && Join([x, y]) == x + "," + y;
    ReadOfPieces([x, y]);
  }

  /** One of each kind. */
  lemma TwoNamesChange()
    ensures Read(Normalized("a\\, b")) != Read("a\\, b") && Read(Normalized("a\\ ,b")) != Read("a\\ ,b")
  {
    assert "a\\"[..1] == "a" && "a\\ "[..2] == "a\\" && " b"[1] == 'b';
    assert "a\\" + "," + " b" == "a\\, b" && "a\\ " + "," + "b" == "a\\ ,b";
    EscapedCommaChanges("a\\", " b");
    EscapedBlankChanges("a\\ ", "b");
  }

  lemma TwoPieces(a: string, b: string)
    requires ',' !in a && ',' !in b
    ensures Split(a + "," + b) == [a, b]
    ensures Normalized(a + "," + b) == Trim(a) + "," + Trim(b)
  {
    SplitPiece(a, b);
    SplitPiece(b, "");
    TrimThenSplit(a + "," + b);
    var pieces := TrimAll([a, b]);
    assert pieces == [Trim(a), Trim(b)] && pieces[1..] == [Trim(b)];
    assert Join(pieces) == Trim(a) + "," + Join(pieces[1..]);
  }
}
