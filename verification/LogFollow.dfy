/** iter_new_lines: the tail -F loop, poll by poll, and exactly when it yields what was appended. */
module LogFollow {
  import opened Wrappers
  import opened Utf8
  import opened LogLines
  import opened LogFileSource

  /** The variables of the loop. */
  datatype Follow = Follow(inode: Inode, pos: nat, carry: seq<Byte>)

  /** What one round of the loop observes: the file when it is stat'ed, when the old inode is
      drained (only after a rotation), and when the new bytes are read. */
  datatype Poll = Poll(stat: FileState, drain: FileState, read: FileState)

  function Drop(bytes: seq<Byte>, pos: nat): seq<Byte> {
    if |bytes| <= pos then [] else bytes[pos..]
  }

  /** _read_delta: the carry is prepended to bytes that start where the carry starts. */
  function ReadDelta(fs: FileState, pos: nat, carry: seq<Byte>): (seq<Line>, nat, seq<Byte>) {
    if fs.Missing? then ([], pos, carry)
    else
      var data := carry + Drop(fs.bytes, pos);
      (Lines(data), pos + |Join(Lines(data))|, Rest(data))
  }

  predicate Rotated(f: Follow, stat: FileState) {
    stat.File? && (stat.inode != f.inode || |stat.bytes| < f.pos)
  }

  /** _read_from: what is left of the old file after a rotation, if the path still shows that file. */
  function Drained(f: Follow, drain: FileState): seq<Line> {
    if drain.File? && drain.inode == f.inode then ReadDelta(drain, f.pos, []).0 else []
  }

  /** The raw lines yielded by one round, and the variables after it. */
  function Round(f: Follow, p: Poll): (Follow, seq<Line>) {
    if p.stat.Missing? then (f, [])
    else
      var drained := if Rotated(f, p.stat) then Drained(f, p.drain) else [];
      var g := if Rotated(f, p.stat) then Follow(p.stat.inode, 0, []) else f;
      if |p.stat.bytes| > g.pos then
        var (lines, pos, carry) := ReadDelta(p.read, g.pos, g.carry);
        (Follow(g.inode, pos, carry), drained + lines)
      else (g, drained)
  }

  function Rounds(f: Follow, polls: seq<Poll>): (Follow, seq<Line>)
    decreases polls
  {
    if polls == [] then (f, [])
    else
      var (g, first) := Round(f, polls[0]);
      var (h, more) := Rounds(g, polls[1..]);
      (h, first + more)
  }

  class LogFollower {
    var inode: Inode
    var pos: nat
    var carry: seq<Byte>

    ghost function Vars(): Follow
      reads this
    {
      Follow(inode, pos, carry)
    }

    /** Starts at the end of the file; a missing file is inode -1, position 0. */
    constructor (atInode: FileState, atSize: FileState)
      ensures Vars() == Follow(if atInode.File? then atInode.inode else -1,
                               if atSize.File? then |atSize.bytes| else 0, [])
    {
      inode := if atInode.File? then atInode.inode else -1;
      pos := if atSize.File? then |atSize.bytes| else 0;
      carry := [];
    }

    method Delta(fs: FileState, pos: nat, carry: seq<Byte>) returns (lines: seq<Text>, pos': nat, rest: seq<Byte>)
      ensures var d := ReadDelta(fs, pos, carry); lines == Texts(d.0) && pos' == d.1 && rest == d.2
    {
      if fs.Missing? {
        return [], pos, carry;
      }
      var data := carry + Drop(fs.bytes, pos);
      var pieces := Split(data);
      rest := pieces[|pieces| - 1];
      SplitShape(data);
      var consumed := |data| - |rest|;
      lines := Texts(pieces[..|pieces| - 1]);
      pos' := pos + consumed;
    }

    method Step(p: Poll) returns (yielded: seq<Text>)
      modifies this
      ensures Vars() == Round(old(Vars()), p).0
      ensures yielded == Texts(Round(old(Vars()), p).1)
    {
      yielded := [];
      if p.stat.Missing? {
        return;
      }
      ghost var drained: seq<Line> := [];
      if p.stat.inode != inode || |p.stat.bytes| < pos {
        if p.drain.File? && p.drain.inode == inode {
          var lines, pos', rest := Delta(p.drain, pos, []);
          drained := ReadDelta(p.drain, pos, []).0;
          yielded := lines;
        }
        inode, pos, carry := p.stat.inode, 0, [];
      }
      if |p.stat.bytes| > pos {
        TextsConcat(drained, ReadDelta(p.read, pos, carry).0);
        var lines, pos', rest := Delta(p.read, pos, carry);
        pos, carry := pos', rest;
        yielded := yielded + lines;
      } else {
        assert drained + [] == drained;
      }
    }
  }

  // ---- between rotations ----

  /** The file at one inode, observed in order, is only appended to; it may be missing at any moment. */
  predicate Quiet(inode: Inode, before: seq<Byte>, polls: seq<Poll>)
    decreases polls
  {
    polls == [] ||
    var p := polls[0];
    if p.stat.Missing? then Quiet(inode, before, polls[1..])
    else
      && p.stat.inode == inode && before <= p.stat.bytes
      && (p.read.File? ==> p.read.inode == inode && p.stat.bytes <= p.read.bytes)
      && Quiet(inode, Latest(before, p), polls[1..])
  }

  /** The content last read, after one more poll of a follower that started at byte `start`: a poll
      reads when the file is longer than the lines completed so far. */
  function Seen(start: nat, content: seq<Byte>, p: Poll): seq<Byte> {
    if p.stat.File? && p.read.File? && |p.stat.bytes| > start + |Join(Lines(Drop(content, start)))|
    then p.read.bytes else content
  }

  function SeenAfter(start: nat, content: seq<Byte>, polls: seq<Poll>): seq<Byte>
    decreases polls
  {
    if polls == [] then content else SeenAfter(start, Seen(start, content, polls[0]), polls[1..])
  }

  /** The poll completes a line whose beginning was read before. */
  predicate TornNow(start: nat, content: seq<Byte>, p: Poll) {
    Rest(Drop(content, start)) != [] && NL in Drop(Seen(start, content, p), |content|)
  }

  function Latest(before: seq<Byte>, p: Poll): seq<Byte> {
    if p.stat.Missing? then before else if p.read.File? then p.read.bytes else p.stat.bytes
  }

  /** Some poll read an unterminated tail, and a later one read on past a newline. */
  predicate TornThenCompleted(start: nat, content: seq<Byte>, polls: seq<Poll>)
    decreases polls
  {
    polls != [] &&
    (|| TornNow(start, content, polls[0])
     || TornThenCompleted(start, Seen(start, content, polls[0]), polls[1..]))
  }

  /** The variables of a follower that has yielded exactly the lines completed in `content` since `start`. */
  predicate InStep(f: Follow, inode: Inode, start: nat, content: seq<Byte>) {
    && start <= |content|
    && f.inode == inode
    && f.pos == start + |Join(Lines(content[start..]))|
    && NL !in f.carry
    && (f.carry == [] <==> Rest(content[start..]) == [])
  }

  lemma PositionOfRest(f: Follow, inode: Inode, start: nat, content: seq<Byte>, later: seq<Byte>)
    requires InStep(f, inode, start, content) && content <= later
    ensures f.pos <= |content|
    ensures Drop(later, f.pos) == Rest(content[start..]) + later[|content|..]
    ensures later[start..] == content[start..] + later[|content|..]
  {
    var a := content[start..];
    SplitShape(a);
    assert content == content[..start] + a;
    assert later == content + later[|content|..];
    assert later == content[..start] + Join(Lines(a)) + (Rest(a) + later[|content|..]);
  }

  /** A poll that finds no newline beyond what was read before yields nothing. */
  lemma QuietDelta(f: Follow, inode: Inode, start: nat, content: seq<Byte>, later: seq<Byte>)
    requires InStep(f, inode, start, content) && content <= later
    requires NL !in later[|content|..]
    ensures var (lines, pos, carry) := ReadDelta(File(inode, later), f.pos, f.carry);
            && lines == [] && InStep(Follow(inode, pos, carry), inode, start, later)
            && Lines(later[start..]) == Lines(content[start..])
  {
    PositionOfRest(f, inode, start, content, later);
    var x := later[|content|..];
    var rest := Rest(content[start..]);
    SplitShape(content[start..]);
    NlMeansLine(x);
    LinesAppend(content[start..], x);
    var data := f.carry + (rest + x);
    assert NL !in data;
    SplitNlFree(data);
  }

  /** A poll that starts from a terminated tail yields exactly the new lines. */
  lemma CleanDelta(f: Follow, inode: Inode, start: nat, content: seq<Byte>, later: seq<Byte>)
    requires InStep(f, inode, start, content) && content <= later
    requires Rest(content[start..]) == []
    ensures var (lines, pos, carry) := ReadDelta(File(inode, later), f.pos, f.carry);
            && Lines(later[start..]) == Lines(content[start..]) + lines
            && InStep(Follow(inode, pos, carry), inode, start, later)
  {
    PositionOfRest(f, inode, start, content, later);
    var x := later[|content|..];
    assert f.carry + Drop(later, f.pos) == x;
    LinesFromLineStart(content[start..], x);
    JoinConcat(Lines(content[start..]), Lines(x));
    SplitShape(x);
  }

  /** A poll that completes a line whose beginning an earlier poll had read yields that beginning again. */
  lemma TornDelta(f: Follow, inode: Inode, start: nat, content: seq<Byte>, later: seq<Byte>)
    requires InStep(f, inode, start, content) && content <= later
    requires Rest(content[start..]) != [] && NL in later[|content|..]
    ensures var lines := ReadDelta(File(inode, later), f.pos, f.carry).0;
            var n := |Lines(content[start..])|;
            && lines != [] && n < |Lines(later[start..])|
            && lines[0] == f.carry + Lines(later[start..])[n]
            && lines[0] != Lines(later[start..])[n]
  {
    PositionOfRest(f, inode, start, content, later);
    var a, x := content[start..], later[|content|..];
    NlMeansLine(x);
    LinesAppend(a, x);
    SplitShape(a);
    var before := f.carry + Rest(a);
    SplitNlFree(before);
    LinesAppend(before, x);
    assert f.carry + (Rest(a) + x) == before + x;
    assert before + Lines(x)[0] == f.carry + (Rest(a) + Lines(x)[0]);
  }

  lemma {:induction false} SeenExtends(
      inode: Inode, start: nat, content: seq<Byte>, before: seq<Byte>, polls: seq<Poll>)
    requires content <= before && Quiet(inode, before, polls)
    ensures content <= SeenAfter(start, content, polls)
    decreases polls
  {
    if polls != [] {
      var p := polls[0];
      SeenExtends(inode, start, Seen(start, content, p), Latest(before, p), polls[1..]);
    }
  }

  lemma LinesMonotone(a: seq<Byte>, b: seq<Byte>)
    requires a <= b
    ensures Lines(a) <= Lines(b)
  {
    LinesAppend(a, b[|a|..]);
    assert b == a + b[|a|..];
  }

  lemma RoundOfPoll(f: Follow, p: Poll)
    requires p.stat.File? ==> p.stat.inode == f.inode && f.pos <= |p.stat.bytes|
    ensures p.stat.File? && f.pos < |p.stat.bytes| ==>
              var d := ReadDelta(p.read, f.pos, f.carry);
              Round(f, p) == (Follow(f.inode, d.1, d.2), d.0)
    ensures p.stat.Missing? || f.pos == |p.stat.bytes| ==> Round(f, p) == (f, [])
    ensures p.read.Missing? ==> Round(f, p) == (f, [])
  {
    assert forall ls: seq<Line> :: [] + ls == ls;
  }

  lemma ReadInStep(f: Follow, inode: Inode, start: nat, content: seq<Byte>, later: seq<Byte>)
    requires InStep(f, inode, start, content) && content <= later
    requires Rest(content[start..]) == [] || NL !in later[|content|..]
    ensures var d := ReadDelta(File(inode, later), f.pos, f.carry);
            && Lines(later[start..]) == Lines(content[start..]) + d.0
            && InStep(Follow(f.inode, d.1, d.2), inode, start, later)
  {
    if NL !in later[|content|..] {
      QuietDelta(f, inode, start, content, later);
    } else {
      CleanDelta(f, inode, start, content, later);
    }
  }

  lemma RoundInStep(f: Follow, inode: Inode, start: nat, content: seq<Byte>, before: seq<Byte>, p: Poll)
    requires InStep(f, inode, start, content)
    requires content <= before && Quiet(inode, before, [p])
    requires !TornNow(start, content, p)
    ensures var next := Seen(start, content, p);
            && start <= |next| && content <= next <= Latest(before, p)
            && Lines(next[start..]) == Lines(content[start..]) + Round(f, p).1
            && InStep(Round(f, p).0, inode, start, next)
  {
    var next := Seen(start, content, p);
    PositionOfRest(f, inode, start, content, content);
    assert Drop(content, start) == content[start..];
    RoundOfPoll(f, p);
    if p.stat.File? && |p.stat.bytes| > f.pos && p.read.File? {
      assert next == p.read.bytes;
      assert Drop(next, |content|) == next[|content|..];
      ReadInStep(f, inode, start, content, next);
    } else {
      assert Round(f, p) == (f, []);
      assert Lines(content[start..]) + [] == Lines(content[start..]);
    }
  }

  lemma RoundsStep(f: Follow, polls: seq<Poll>, done: seq<Line>)
    requires polls != []
    ensures var (g, first) := Round(f, polls[0]);
            && Rounds(f, polls).0 == Rounds(g, polls[1..]).0
            && done + Rounds(f, polls).1 == (done + first) + Rounds(g, polls[1..]).1
  {
  }

  /** Over a run without rotation the follower yields the completed lines exactly when it never reads
      on past a newline after having read an unterminated tail. */
  lemma {:induction false} FollowExactly(
      f: Follow, inode: Inode, start: nat, content: seq<Byte>, before: seq<Byte>, polls: seq<Poll>)
    requires InStep(f, inode, start, content)
    requires content <= before && Quiet(inode, before, polls)
    ensures var final := SeenAfter(start, content, polls);
            var (g, yielded) := Rounds(f, polls);
            && start <= |final|
            && (!TornThenCompleted(start, content, polls)
                <==> Lines(final[start..]) == Lines(content[start..]) + yielded)
            && (!TornThenCompleted(start, content, polls) ==> InStep(g, inode, start, final))
    decreases polls
  {
    if polls == [] {
      assert Lines(content[start..]) + [] == Lines(content[start..]);
    } else {
      var p, rest := polls[0], polls[1..];
      var next := Seen(start, content, p);
      SeenExtends(inode, start, content, before, polls);
      if TornNow(start, content, p) {
        PositionOfRest(f, inode, start, content, content);
        assert Drop(content, start) == content[start..];
        assert Drop(next, |content|) == next[|content|..];
        SeenExtends(inode, start, next, Latest(before, p), rest);
        TornRun(f, inode, start, content, p, polls);
      } else {
        assert Quiet(inode, Latest(before, p), []);
        assert [p][1..] == [];
        RoundInStep(f, inode, start, content, before, p);
        var (g, first) := Round(f, p);
        FollowExactly(g, inode, start, next, Latest(before, p), rest);
        RoundsStep(f, polls, Lines(content[start..]));
      }
    }
  }

  lemma TornRun(f: Follow, inode: Inode, start: nat, content: seq<Byte>, p: Poll, polls: seq<Poll>)
    requires InStep(f, inode, start, content)
    requires polls != [] && polls[0] == p
    requires p.stat.File? && p.stat.inode == inode && f.pos < |p.stat.bytes|
    requires p.read.File? && p.read.inode == inode && content <= p.read.bytes
    requires Rest(content[start..]) != [] && NL in p.read.bytes[|content|..]
    requires p.read.bytes <= SeenAfter(start, content, polls)
    ensures Lines(SeenAfter(start, content, polls)[start..]) != Lines(content[start..]) + Rounds(f, polls).1
  {
    var final := SeenAfter(start, content, polls);
    var n := |Lines(content[start..])|;
    TornDelta(f, inode, start, content, p.read.bytes);
    LinesMonotone(p.read.bytes[start..], final[start..]);
    var yielded := Rounds(f, polls).1;
    assert yielded[0] == Round(f, p).1[0] == ReadDelta(p.read, f.pos, f.carry).0[0];
    assert (Lines(content[start..]) + yielded)[n] == yielded[0];
  }

  /** From the moment it starts, the follower yields exactly the lines appended after the end of file
      it started at, once each and in order, iff no torn tail is ever completed under it. */
  lemma FollowFromEndOfFile(inode: Inode, base: seq<Byte>, polls: seq<Poll>)
    requires Quiet(inode, base, polls)
    ensures var final := SeenAfter(|base|, base, polls);
            var (g, yielded) := Rounds(Follow(inode, |base|, []), polls);
            && base <= final
            && (yielded == Lines(final[|base|..]) <==> !TornThenCompleted(|base|, base, polls))
            && (!TornThenCompleted(|base|, base, polls) && Rest(base) == [] ==> Lines(final) == Lines(base) + yielded)
            && (!TornThenCompleted(|base|, base, polls) && Rest(final[|base|..]) == [] ==>
               g == Follow(inode, |final|, []))
  {
    var final := SeenAfter(|base|, base, polls);
    assert base[|base|..] == [];
    FollowExactly(Follow(inode, |base|, []), inode, |base|, base, base, polls);
    SeenExtends(inode, |base|, base, base, polls);
    assert final == base + final[|base|..];
    if Rest(base) == [] {
      LinesFromLineStart(base, final[|base|..]);
    }
    SplitShape(final[|base|..]);
    assert Lines([]) + Rounds(Follow(inode, |base|, []), polls).1 == Rounds(Follow(inode, |base|, []), polls).1;
  }

  /** The drain yields nothing exactly when the path shows another file by then, or none, or a file that is not
      longer than the position or completes no line beyond it. */
  lemma NothingDrained(f: Follow, drain: FileState)
    ensures Drained(f, drain) == [] <==> drain.Missing? || drain.inode != f.inode || NL !in Drop(drain.bytes, f.pos)
  {
    if drain.File? {
      assert [] + Drop(drain.bytes, f.pos) == Drop(drain.bytes, f.pos);
      NlMeansLine(Drop(drain.bytes, f.pos));
    }
  }

  /** And of the same file it yields the lines that end after the position: those that the bytes from there spell. */
  lemma DrainYieldsTheRest(f: Follow, before: seq<Byte>, ls: seq<Line>, partial: Line)
    requires |before| == f.pos && NlFree(ls) && NL !in partial
    ensures Drained(f, File(f.inode, before + (Join(ls) + partial))) == ls
  {
    SplitUnique(ls, partial);
    var bytes := before + (Join(ls) + partial);
    assert [] + Drop(bytes, f.pos) == Join(ls) + partial;
  }

  /** A round that detects a rotation is the drain, and then the round of a follower at byte 0 of the file it found. */
  lemma RotatedRound(f: Follow, p: Poll)
    requires Rotated(f, p.stat)
    ensures var (g, lines) := Round(Follow(p.stat.inode, 0, []), p);
            Round(f, p) == (g, Drained(f, p.drain) + lines)
  {
    assert forall ls: seq<Line> :: [] + ls == ls;
    assert Drained(f, p.drain) + [] == Drained(f, p.drain);
  }

  lemma RotatedRounds(f: Follow, polls: seq<Poll>)
    requires polls != [] && Rotated(f, polls[0].stat)
    ensures var (g, lines) := Rounds(Follow(polls[0].stat.inode, 0, []), polls);
            Rounds(f, polls) == (g, Drained(f, polls[0].drain) + lines)
  {
    RotatedRound(f, polls[0]);
    var (g, lines) := Round(Follow(polls[0].stat.inode, 0, []), polls[0]);
    var more := Rounds(g, polls[1..]).1;
    assert (Drained(f, polls[0].drain) + lines) + more == Drained(f, polls[0].drain) + (lines + more);
  }

  /** After a detected rotation (another inode, or a file shorter than the position) the follower yields what the
      drain finds, and then the new file from its start: each of its lines once and in order, exactly unless a torn
      tail is completed under it. Its position is then that of the new file. */
  lemma RotationRestartsAtZero(f: Follow, polls: seq<Poll>)
    requires polls != [] && polls[0].stat.File? && Quiet(polls[0].stat.inode, [], polls)
    requires polls[0].stat.inode != f.inode || |polls[0].stat.bytes| < f.pos
    ensures var final := SeenAfter(0, [], polls);
            var (g, yielded) := Rounds(f, polls);
            && (yielded == Drained(f, polls[0].drain) + Lines(final) <==> !TornThenCompleted(0, [], polls))
            && (!TornThenCompleted(0, [], polls) && Rest(final) == [] ==> g == Follow(polls[0].stat.inode, |final|, []))
  {
    var inode, final := polls[0].stat.inode, SeenAfter(0, [], polls);
    RotatedRounds(f, polls);
    FollowFromEndOfFile(inode, [], polls);
    assert final[0..] == final;
    SameTail(Drained(f, polls[0].drain), Rounds(Follow(inode, 0, []), polls).1, Lines(final));
  }

  lemma SameTail<T>(a: seq<T>, b: seq<T>, c: seq<T>)
    ensures a + b == a + c <==> b == c
  {
    if a + b == a + c {
      assert (a + b)[|a|..] == b && (a + c)[|a|..] == c;
    }
  }

  lemma RoundOfRead(f: Follow, fs: FileState, data: seq<Byte>, ls: seq<Line>, rest: Line)
    requires fs.File? && fs.inode == f.inode && f.pos < |fs.bytes|
    requires data == f.carry + fs.bytes[f.pos..] == Join(ls) + rest
    requires NlFree(ls) && NL !in rest
    ensures Round(f, Poll(fs, fs, fs)) == (Follow(f.inode, f.pos + |Join(ls)|, rest), ls)
  {
    SplitUnique(ls, rest);
    assert [] + ls == ls;
  }

  lemma ThreeRounds(f: Follow, p: Poll, q: Poll, r: Poll)
    ensures var (g, first) := Round(f, p);
            var (h, second) := Round(g, q);
            Rounds(f, [p, q, r]) == (Round(h, r).0, first + second + Round(h, r).1)
  {
    var (g, first) := Round(f, p);
    var (h, second) := Round(g, q);
    var (k, third) := Round(h, r);
    assert [p, q, r][1..] == [q, r] && [q, r][1..] == [r] && [r][1..] == [];
    assert Rounds(h, [r]) == (k, third) by {
      assert third + [] == third;
    }
    assert Rounds(g, [q, r]) == (k, second + third);
    assert first + (second + third) == first + second + third;
  }

  lemma TornTailRounds(a: Byte)
    requires a != NL
    ensures var half, whole := File(1, [a]), File(1, [a, NL]);
            && Round(Follow(1, 0, []), Poll(half, half, half)) == (Follow(1, 0, [a]), [])
            && Round(Follow(1, 0, [a]), Poll(whole, whole, whole)) == (Follow(1, 3, []), [[a, a]])
            && Round(Follow(1, 3, []), Poll(whole, whole, whole)) == (Follow(1, 2, []), [[a]])
  {
    var half, whole := File(1, [a]), File(1, [a, NL]);
    RoundOfRead(Follow(1, 0, []), half, [a], [], [a]);
    assert [a, a, NL] == Join([[a, a]]) by {
      JoinOne([a, a]);
    }
    RoundOfRead(Follow(1, 0, [a]), whole, [a, a, NL], [[a, a]], []);
    assert [a, NL] == Join([[a]]) by {
      JoinOne([a]);
    }
    RoundOfRead(Follow(1, 0, []), whole, [a, NL], [[a]], []);
    assert ReadDelta(whole, 3, []) == ([], 3, []) by {
      SplitNlFree([]);
    }
  }

  /** The divergence in full: "a" is polled before its newline arrives. The line comes out as "aa", the
      position overruns the file, and the next poll takes that for a truncation and yields "a" again. */
  lemma TornTailIsRepeated()
    ensures var a: Byte := 97;
            var half, whole := File(1, [a]), File(1, [a, NL]);
            var polls := [Poll(half, half, half), Poll(whole, whole, whole), Poll(whole, whole, whole)];
            && Quiet(1, [], polls)
            && Rounds(Follow(1, 0, []), polls) == (Follow(1, 2, []), [[a, a], [a]])
  {
    var a: Byte := 97;
    var half, whole := File(1, [a]), File(1, [a, NL]);
    var p, q := Poll(half, half, half), Poll(whole, whole, whole);
    TornTailRounds(a);
    ThreeRounds(Follow(1, 0, []), p, q, q);
    assert [] + [[a, a]] + [[a]] == [[a, a], [a]];
    assert [p, q, q][1..] == [q, q] && [q, q][1..] == [q] && [q][1..] == [];
    assert Quiet(1, [a, NL], [q]) && Quiet(1, [a], [q, q]);
  }
}
