/** The one specification behind every log reader: a file is its newline-terminated lines, then a
    partial line. Split and join determine each other, so the lines of a file do not depend on how
    the file was cut into chunks. */
module LogLines {
  import opened Utf8

  const NL: Byte := 10
  const CR: Byte := 13

  type Line = seq<Byte>

  /** bytes.split(b"\n"): always at least one piece. */
  function Split(s: seq<Byte>): (r: seq<Line>)
    ensures r != []
  {
    if s == [] then [[]]
    else
      var r := Split(s[1..]);
      if s[0] == NL then [[]] + r else [[s[0]] + r[0]] + r[1..]
  }

  /** The newline-terminated lines of a file, without their newlines. */
  function Lines(s: seq<Byte>): seq<Line> {
    var r := Split(s);
    r[..|r| - 1]
  }

  /** The unterminated bytes after the last newline. */
  function Rest(s: seq<Byte>): Line {
    var r := Split(s);
    r[|r| - 1]
  }

  /** Writes each line back with its newline. */
  function Join(ls: seq<Line>): seq<Byte> {
    if ls == [] then [] else ls[0] + [NL] + Join(ls[1..])
  }

  /** bytes.count(b"\n") */
  function CountNl(s: seq<Byte>): nat {
    if s == [] then 0 else (if s[0] == NL then 1 else 0) + CountNl(s[1..])
  }

  /** bytes.rfind(b"\n") */
  function RFindNl(s: seq<Byte>): int {
    if s == [] then -1
    else if s[|s| - 1] == NL then |s| - 1
    else RFindNl(s[..|s| - 1])
  }

  predicate NlFree(ls: seq<Line>) {
    forall i | 0 <= i < |ls| :: NL !in ls[i]
  }

  /** What a region strictly before a cursor splits into: its lines, and a last unterminated piece if there is one. */
  function Pieces(s: seq<Byte>): seq<Line> {
    Lines(s) + if Rest(s) == [] then [] else [Rest(s)]
  }

  /** s[-k:] */
  function LastK<T>(s: seq<T>, k: nat): seq<T> {
    if |s| <= k then s else s[|s| - k..]
  }

  function DropLastK<T>(s: seq<T>, k: nat): seq<T> {
    if |s| <= k then [] else s[..|s| - k]
  }

  // ---- split and join determine each other ----

  /** What one more leading byte does to the lines. */
  lemma SplitCons(s: seq<Byte>)
    requires s != []
    ensures var ls, rest := Lines(s[1..]), Rest(s[1..]);
            if s[0] == NL then Lines(s) == [[]] + ls && Rest(s) == rest
            else if ls == [] then Lines(s) == [] && Rest(s) == [s[0]] + rest
            else Lines(s) == [[s[0]] + ls[0]] + ls[1..] && Rest(s) == rest
  {
    var r := Split(s[1..]);
    if s[0] == NL {
      assert Split(s) == [[]] + r;
    } else {
      assert Split(s) == [[s[0]] + r[0]] + r[1..];
    }
  }

  lemma {:induction false} PiecesAreNlFree(s: seq<Byte>)
    ensures NlFree(Split(s))
  {
    if s != [] {
      PiecesAreNlFree(s[1..]);
    }
  }

  lemma {:induction false} JoinOfSplit(s: seq<Byte>)
    ensures Join(Lines(s)) + Rest(s) == s
  {
    if s != [] {
      var ls, rest := Lines(s[1..]), Rest(s[1..]);
      JoinOfSplit(s[1..]);
      SplitCons(s);
      if s[0] == NL {
        assert Join(Lines(s)) == [NL] + Join(ls);
      } else if ls != [] {
        assert Lines(s)[1..] == ls[1..];
        assert Join(Lines(s)) == [s[0]] + Join(ls);
      }
    }
  }

  lemma {:induction false} LinesAreCounted(s: seq<Byte>)
    ensures |Lines(s)| == CountNl(s)
  {
    if s != [] {
      LinesAreCounted(s[1..]);
      SplitCons(s);
    }
  }

  lemma SplitShape(s: seq<Byte>)
    ensures NlFree(Split(s)) && NlFree(Lines(s)) && NL !in Rest(s)
    ensures Join(Lines(s)) + Rest(s) == s
    ensures |Lines(s)| == CountNl(s)
  {
    PiecesAreNlFree(s);
    JoinOfSplit(s);
    LinesAreCounted(s);
  }

  lemma {:induction false} SplitNlFree(l: Line)
    requires NL !in l
    ensures Split(l) == [l]
  {
    if l != [] {
      SplitNlFree(l[1..]);
      assert l[0] != NL && [l[0]] + l[1..] == l;
    }
  }

  lemma {:induction false} SplitFirst(l: Line, s: seq<Byte>)
    requires NL !in l
    ensures Split(l + [NL] + s) == [l] + Split(s)
  {
    var t := l + [NL] + s;
    if l == [] {
      assert t[1..] == s;
    } else {
      assert t[1..] == l[1..] + [NL] + s;
      SplitFirst(l[1..], s);
      assert t[0] == l[0] != NL && [l[0]] + l[1..] == l;
      assert ([l[1..]] + Split(s))[1..] == Split(s);
    }
  }

  /** The only way to write a file as newline-free lines and a newline-free remainder is Split. */
  lemma {:induction false} SplitUnique(ls: seq<Line>, rest: Line)
    requires NlFree(ls) && NL !in rest
    ensures Split(Join(ls) + rest) == ls + [rest]
    ensures Lines(Join(ls) + rest) == ls && Rest(Join(ls) + rest) == rest
  {
    if ls == [] {
      assert Join(ls) + rest == rest;
      SplitNlFree(rest);
    } else {
      SplitUnique(ls[1..], rest);
      assert Join(ls) + rest == ls[0] + [NL] + (Join(ls[1..]) + rest);
      SplitFirst(ls[0], Join(ls[1..]) + rest);
      assert [ls[0]] + (ls[1..] + [rest]) == ls + [rest];
    }
  }

  lemma {:induction false} JoinConcat(a: seq<Line>, b: seq<Line>)
    ensures Join(a + b) == Join(a) + Join(b)
  {
    if a == [] {
      assert a + b == b;
    } else {
      assert (a + b)[1..] == a[1..] + b;
      JoinConcat(a[1..], b);
    }
  }

  lemma NlMeansLine(s: seq<Byte>)
    ensures NL in s <==> Lines(s) != []
  {
    SplitShape(s);
    if Lines(s) == [] {
      assert s == Rest(s) == Split(s)[0];
    } else {
      assert NL in Join(Lines(s)) by {
        assert Join(Lines(s))[|Lines(s)[0]|] == NL;
      }
      assert NL in Join(Lines(s)) + Rest(s);
    }
  }

  lemma JoinOne(l: Line)
    ensures Join([l]) == l + [NL]
  {
  }

  /** What b adds to the lines of a: its first line completes the partial line of a. */
  lemma LinesAppend(a: seq<Byte>, b: seq<Byte>)
    ensures Lines(b) == [] ==> Lines(a + b) == Lines(a) && Rest(a + b) == Rest(a) + b
    ensures Lines(b) != [] ==>
              && Lines(a + b) == Lines(a) + [Rest(a) + Lines(b)[0]] + Lines(b)[1..]
              && Rest(a + b) == Rest(b)
  {
    if Lines(b) == [] {
      LinesAppendPartial(a, b);
    } else {
      LinesAppendLine(a, b);
    }
  }

  lemma Regroup(x: seq<Byte>, y: seq<Byte>, z: seq<Byte>)
    ensures (x + y) + z == x + (y + z)
  {
  }

  lemma LinesAppendPartial(a: seq<Byte>, b: seq<Byte>)
    requires Lines(b) == []
    ensures Lines(a + b) == Lines(a) && Rest(a + b) == Rest(a) + b
  {
    var la, ra := Lines(a), Rest(a);
    SplitShape(a);
    NlMeansLine(b);
    Regroup(Join(la), ra, b);
    assert NL !in ra + b;
    SplitUnique(la, ra + b);
  }

  /** The first line of b closes the partial line ra. */
  lemma JoinAcross(la: seq<Line>, ra: Line, first: Line, more: seq<Line>)
    ensures Join(la + [ra + first] + more) == (Join(la) + ra) + Join([first] + more)
  {
    JoinConcat(la + [ra + first], more);
    JoinConcat(la, [ra + first]);
    JoinOne(ra + first);
    assert ([first] + more)[1..] == more;
    assert Join([first] + more) == first + [NL] + Join(more);
  }

  lemma LinesAppendLine(a: seq<Byte>, b: seq<Byte>)
    requires Lines(b) != []
    ensures Lines(a + b) == Lines(a) + [Rest(a) + Lines(b)[0]] + Lines(b)[1..]
    ensures Rest(a + b) == Rest(b)
  {
    SplitShape(a);
    SplitShape(b);
    var first, more := Lines(b)[0], Lines(b)[1..];
    assert Lines(b) == [first] + more;
    JoinAcross(Lines(a), Rest(a), first, more);
    Regroup(a, Join(Lines(b)), Rest(b));
    AcrossIsNlFree(Lines(a), Rest(a), first, more);
    SplitUnique(Lines(a) + [Rest(a) + first] + more, Rest(b));
  }

  lemma AcrossIsNlFree(la: seq<Line>, ra: Line, first: Line, more: seq<Line>)
    requires NlFree(la) && NL !in ra && NlFree([first] + more)
    ensures NlFree(la + [ra + first] + more)
  {
    assert forall i | 0 <= i < |more| :: more[i] == ([first] + more)[i + 1];
    assert ([first] + more)[0] == first;
  }

  /** Splitting off the part up to a line start cuts the lines in two and leaves the remainder alone. */
  lemma LinesFromLineStart(a: seq<Byte>, b: seq<Byte>)
    requires Rest(a) == []
    ensures Lines(a + b) == Lines(a) + Lines(b) && Rest(a + b) == Rest(b)
  {
    LinesAppend(a, b);
    SplitShape(b);
    if Lines(b) != [] {
      assert Rest(a) + Lines(b)[0] == Lines(b)[0];
      assert [Lines(b)[0]] + Lines(b)[1..] == Lines(b);
    } else {
      assert b == Rest(b);
    }
  }

  lemma LinesOfJoin(ls: seq<Line>)
    requires NlFree(ls)
    ensures Lines(Join(ls)) == ls && Rest(Join(ls)) == []
  {
    assert Join(ls) + [] == Join(ls);
    SplitUnique(ls, []);
  }

  lemma {:induction false} RFindShape(s: seq<Byte>)
    ensures RFindNl(s) == |Join(Lines(s))| - 1
    ensures RFindNl(s) == -1 <==> Lines(s) == []
  {
    SplitShape(s);
    if s == [] {
    } else if s[|s| - 1] == NL {
      var t := s[..|s| - 1];
      assert s == t + [NL];
      assert Split([NL]) == [[]] + Split([]);
      LinesAppend(t, [NL]);
    } else {
      var t := s[..|s| - 1];
      assert s == t + [s[|s| - 1]];
      SplitNlFree([s[|s| - 1]]);
      LinesAppend(t, [s[|s| - 1]]);
      RFindShape(t);
    }
  }

  // ---- windows: what a reader may conclude from the end of a region only ----

  /** The end `b` of a region `a + b` shows the last `limit` pieces of the region, and where they
      start, once it holds limit + 1 newlines or is the whole region. */
  lemma Window(a: seq<Byte>, b: seq<Byte>, limit: nat)
    requires a == [] || CountNl(b) >= limit + 1
    requires limit >= 1
    ensures LastK(Pieces(b), limit) == LastK(Pieces(a + b), limit)
    ensures |a| + |Join(DropLastK(Pieces(b), limit))| == |Join(DropLastK(Pieces(a + b), limit))|
  {
    if a == [] {
      assert a + b == b;
    } else {
      var first, tail := PiecesAppend(a, b);
      LastKOfTail([first], tail, limit);
      LastKOfTail(Lines(a) + [Rest(a) + first], tail, limit);
      DroppedSizes(a, first, tail[..|tail| - limit]);
    }
  }

  lemma LastKOfTail<T>(head: seq<T>, tail: seq<T>, k: nat)
    requires k <= |tail|
    ensures LastK(head + tail, k) == tail[|tail| - k..]
    ensures DropLastK(head + tail, k) == head + tail[..|tail| - k]
  {
  }

  lemma DroppedSizes(a: seq<Byte>, first: Line, dropped: seq<Line>)
    ensures |a| + |Join([first] + dropped)| == |Join(Lines(a) + [Rest(a) + first] + dropped)|
  {
    SplitShape(a);
    var partial := Rest(a) + first;
    JoinConcat(Lines(a) + [partial], dropped);
    JoinConcat(Lines(a), [partial]);
    JoinOne(partial);
    JoinConcat([first], dropped);
    JoinOne(first);
  }

  /** Prepending bytes to a region with a newline changes its first piece only. */
  lemma PiecesAppend(a: seq<Byte>, b: seq<Byte>) returns (first: Line, tail: seq<Line>)
    requires CountNl(b) >= 1
    ensures Pieces(b) == [first] + tail
    ensures Pieces(a + b) == Lines(a) + [Rest(a) + first] + tail
    ensures |tail| >= CountNl(b) - 1
  {
    SplitShape(b);
    LinesAppend(a, b);
    first, tail := Pieces(b)[0], Pieces(b)[1..];
  }

  /** The pieces of a region that ends at a line start are its lines. */
  lemma PiecesAtLineStart(ls: seq<Line>)
    requires NlFree(ls)
    ensures Pieces(Join(ls)) == ls
  {
    LinesOfJoin(ls);
  }

  /** sum(len(b) + 1 for b in ls): the bytes that the dropped lines occupy. */
  function SumWithNewlines(ls: seq<Line>): (n: nat)
    ensures n == |Join(ls)|
  {
    if ls == [] then 0 else |ls[0]| + 1 + SumWithNewlines(ls[1..])
  }

  // ---- text ----

  /** str.rstrip("\r") */
  function RStripCr(t: Text): Text {
    if t != [] && t[|t| - 1] == CR then RStripCr(t[..|t| - 1]) else t
  }

  /** What every reader hands out for a raw line. */
  function ToText(l: Line): Text {
    RStripCr(Decode(l, Replace))
  }

  function Texts(ls: seq<Line>): (r: seq<Text>)
    ensures |r| == |ls|
    ensures forall i | 0 <= i < |ls| :: r[i] == ToText(ls[i])
  {
    if ls == [] then [] else [ToText(ls[0])] + Texts(ls[1..])
  }

  lemma TextsConcat(a: seq<Line>, b: seq<Line>)
    ensures Texts(a + b) == Texts(a) + Texts(b)
  {
  }
}
