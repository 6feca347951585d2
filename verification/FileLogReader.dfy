/** FileLogReader: parsed pages and cursors over LogFileSource, and the walk that "load more" makes. */
module FileLogReader {
  import opened Wrappers
  import opened Utf8
  import opened LogLines
  import opened LogFileSource

  datatype Cursor = Cursor(inode: Inode, offset: int)

  /** LogEntryVO.parse over a page; a malformed line (None) is skipped. */
  function ParseAll<E>(parse: Text -> Option<E>, lines: seq<Text>): seq<E> {
    if lines == [] then []
    else (match parse(lines[0]) case Some(e) => [e] case None => []) + ParseAll(parse, lines[1..])
  }

  lemma {:induction false} ParseAllConcat<E>(parse: Text -> Option<E>, a: seq<Text>, b: seq<Text>)
    ensures ParseAll(parse, a + b) == ParseAll(parse, a) + ParseAll(parse, b)
  {
    if a == [] {
      assert a + b == b;
    } else {
      assert (a + b)[1..] == a[1..] + b;
      ParseAllConcat(parse, a[1..], b);
    }
  }

  lemma ParseAllSnoc<E>(parse: Text -> Option<E>, lines: seq<Text>, last: Text)
    ensures ParseAll(parse, lines + [last])
            == match parse(last) case Some(e) => ParseAll(parse, lines) + [e] case None => ParseAll(parse, lines)
  {
    ParseAllConcat(parse, lines, [last]);
    assert [last][1..] == [];
  }

  /** The entries are those of the lines that parse: each once, in the order of the lines, and none left out. */
  ghost predicate ParsesInOrder<E>(parse: Text -> Option<E>, lines: seq<Text>, entries: seq<E>) {
    exists at: seq<nat> :: IsParsing(parse, lines, entries, at)
  }

  /** Entry i comes from line at[i]. */
  ghost predicate IsParsing<E>(parse: Text -> Option<E>, lines: seq<Text>, entries: seq<E>, at: seq<nat>) {
    && |at| == |entries| && (forall i, j | 0 <= i < j < |at| :: at[i] < at[j])
    && (forall i | 0 <= i < |at| :: at[i] < |lines| && parse(lines[at[i]]) == Some(entries[i]))
    && (forall k {:trigger IsListed(at, k)} | 0 <= k < |lines| && parse(lines[k]).Some? :: IsListed(at, k))
  }

  predicate IsListed(at: seq<nat>, k: nat) {
    k in at
  }

  lemma ParsedExtends<E>(parse: Text -> Option<E>, lines: seq<Text>, entries: seq<E>, at: seq<nat>, last: Text, e: E)
    requires IsParsing(parse, lines, entries, at) && parse(last) == Some(e)
    ensures IsParsing(parse, lines + [last], entries + [e], at + [|lines|])
  {
    var all, at' := lines + [last], at + [|lines|];
    assert at'[|at|] == |lines|;
    forall k | 0 <= k < |all| && parse(all[k]).Some?
      ensures IsListed(at', k)
    {
      assert k < |lines| ==> IsListed(at, k);
    }
  }

  lemma SkippedExtends<E>(parse: Text -> Option<E>, lines: seq<Text>, entries: seq<E>, at: seq<nat>, last: Text)
    requires IsParsing(parse, lines, entries, at) && parse(last) == None
    ensures IsParsing(parse, lines + [last], entries, at)
  {
    var all := lines + [last];
    forall k | 0 <= k < |all| && parse(all[k]).Some?
      ensures IsListed(at, k)
    {
      assert k < |lines|;
    }
  }

  lemma {:induction false} EntriesOfLines<E>(parse: Text -> Option<E>, lines: seq<Text>)
    ensures ParsesInOrder(parse, lines, ParseAll(parse, lines))
  {
    if lines == [] {
      assert IsParsing(parse, lines, [], []);
    } else {
      var init, last := lines[..|lines| - 1], lines[|lines| - 1];
      assert lines == init + [last];
      ParseAllSnoc(parse, init, last);
      EntriesOfLines(parse, init);
      var at: seq<nat> :| IsParsing(parse, init, ParseAll(parse, init), at);
      match parse(last) {
        case Some(e) =>
          ParsedExtends(parse, init, ParseAll(parse, init), at, last, e);
          assert IsParsing(parse, lines, ParseAll(parse, lines), at + [|init|]);
        case None =>
          SkippedExtends(parse, init, ParseAll(parse, init), at, last);
          assert IsParsing(parse, lines, ParseAll(parse, lines), at);
      }
    }
  }

  lemma LastIsGreatest(at: seq<nat>)
    requires forall i, j | 0 <= i < j < |at| :: at[i] < at[j]
    ensures forall i | 0 <= i < |at| :: at[i] <= at[|at| - 1]
  {
  }

  /** The last line, if it parses, is the last entry; what is before it comes from the lines before. */
  lemma ParsingShrinks<E>(parse: Text -> Option<E>, lines: seq<Text>, entries: seq<E>, at: seq<nat>)
    requires lines != [] && IsParsing(parse, lines, entries, at)
    ensures var init, last := lines[..|lines| - 1], lines[|lines| - 1];
            match parse(last)
            case Some(e) => entries != [] && at != [] && entries[|entries| - 1] == e
                            && IsParsing(parse, init, entries[..|entries| - 1], at[..|at| - 1])
            case None => IsParsing(parse, init, entries, at)
  {
    var n, init := |lines| - 1, lines[..|lines| - 1];
    if parse(lines[n]).Some? {
      assert IsListed(at, n);
      LastIsGreatest(at);
      var last := |at| - 1;
      assert at[last] == n;
      forall k | 0 <= k < n && parse(init[k]).Some?
        ensures IsListed(at[..last], k)
      {
        assert IsListed(at, k);
      }
    } else {
      assert forall i | 0 <= i < |at| :: at[i] != n;
      forall k | 0 <= k < n && parse(init[k]).Some?
        ensures IsListed(at, k)
      {
        assert parse(lines[k]).Some?;
      }
    }
  }

  lemma NothingFromNothing(at: seq<nat>, n: nat)
    requires forall i | 0 <= i < |at| :: at[i] < n
    ensures at != [] ==> n > 0
  {
    if at != [] {
      assert at[0] < n;
    }
  }

  lemma {:induction false} ParsingDecides<E>(
    parse: Text -> Option<E>, lines: seq<Text>, entries: seq<E>, at: seq<nat>, all: seq<E>)
    requires IsParsing(parse, lines, entries, at) && all == ParseAll(parse, lines)
    ensures entries == all
    decreases |lines|, 0
  {
    if lines == [] {
      NothingFromNothing(at, |lines|);
    } else {
      var init, last := lines[..|lines| - 1], lines[|lines| - 1];
      assert lines == init + [last];
      ParseAllSnoc(parse, init, last);
      ParsingShrinks(parse, lines, entries, at);
      ParsingGoesOn(parse, init, last, entries, at, ParseAll(parse, init), all);
    }
  }

  lemma {:induction false} ParsingGoesOn<E>(
    parse: Text -> Option<E>, init: seq<Text>, last: Text, entries: seq<E>, at: seq<nat>, before: seq<E>, all: seq<E>)
    requires before == ParseAll(parse, init)
    requires match parse(last)
             case Some(e) => && entries != [] && at != [] && entries[|entries| - 1] == e && all == before + [e]
                             && IsParsing(parse, init, entries[..|entries| - 1], at[..|at| - 1])
             case None => all == before && IsParsing(parse, init, entries, at)
    ensures entries == all
    decreases |init|, 1
  {
    if parse(last).Some? {
      ParsingDecides(parse, init, entries[..|entries| - 1], at[..|at| - 1], before);
      assert entries == entries[..|entries| - 1] + [entries[|entries| - 1]];
    } else {
      ParsingDecides(parse, init, entries, at, before);
    }
  }

  /** The lines decide the entries: nothing else is each parsed line once and in order. */
  lemma ParsingIsUnique<E>(parse: Text -> Option<E>, lines: seq<Text>, entries: seq<E>)
    requires ParsesInOrder(parse, lines, entries)
    ensures entries == ParseAll(parse, lines)
  {
    var at: seq<nat> :| IsParsing(parse, lines, entries, at);
    ParsingDecides(parse, lines, entries, at, ParseAll(parse, lines));
  }

  class FileLogReader<E> {
    const source: LogFileSource
    const parse: Text -> Option<E>

    constructor (source: LogFileSource, parse: Text -> Option<E>)
      ensures this.source == source && this.parse == parse
    {
      this.source, this.parse := source, parse;
    }

    method Map(lines: seq<Text>) returns (entries: seq<E>)
      ensures entries == ParseAll(parse, lines) && ParsesInOrder(parse, lines, entries)
    {
      entries := [];
      for i := 0 to |lines|
        invariant entries == ParseAll(parse, lines[..i])
      {
        assert lines[..i + 1] == lines[..i] + [lines[i]];
        ParseAllConcat(parse, lines[..i], [lines[i]]);
        match parse(lines[i]) {
          case Some(e) => entries := entries + [e];
          case None =>
        }
      }
      assert lines[..|lines|] == lines;
      EntriesOfLines(parse, lines);
    }

    method ReadTail(fs: FileState, limit: Positive) returns (r: Result<(seq<E>, Cursor), LogError>)
      ensures fs.Missing? ==> r == Err(LogReadError)
      ensures fs.File? ==> var w := TailWalk(parse, fs, limit); r == Ok((w.entries, w.cursor))
      ensures fs.File? ==> ParsesInOrder(parse, LastPage(CompletePart(fs.bytes), limit).lines, r.value.0)
    {
      var read := source.ReadLastLines(fs, limit);
      match read {
        case Err(e) => r := Err(e);
        case Ok((page, inode)) =>
          var entries := Map(page.lines);
          r := Ok((entries, Cursor(inode, page.offset)));
      }
    }

    /** A cursor of another inode is history that was rotated away: no rows, same cursor. */
    method ReadBefore(fs: FileState, cursor: Cursor, limit: Positive) returns (r: Result<(seq<E>, Cursor), LogError>)
      ensures fs.Missing? ==> r == Err(LogReadError)
      ensures fs.File? && cursor.inode != fs.inode ==> r == Ok(([], cursor))
      ensures fs.File? && cursor.inode == fs.inode ==>
                forall newer :: var w := OlderPage(parse, Walk(newer, cursor), fs, limit);
                                r.Ok? && w == Walk(r.value.0 + newer, r.value.1)
      ensures fs.File? && cursor.inode == fs.inode && 0 < cursor.offset ==>
                r.Ok? && ParsesInOrder(parse, LastPage(ReadRange(fs.bytes, 0, cursor.offset), limit).lines, r.value.0)
    {
      if fs.Missing? {
        return Err(LogReadError);
      }
      var liveInode := fs.inode;
      if cursor.inode != liveInode {
        return Ok(([], cursor));
      }
      var read := source.ReadLinesBefore(fs, cursor.offset, limit);
      match read {
        case Err(e) => r := Err(e);
        case Ok(page) =>
          var entries := Map(page.lines);
          r := Ok((entries, Cursor(liveInode, page.offset)));
      }
    }
  }

  // ---- the backward walk ----

  /** What a client holds while paging back: the entries so far, oldest first, and the next cursor. */
  datatype Walk<E> = Walk(entries: seq<E>, cursor: Cursor)

  function TailWalk<E>(parse: Text -> Option<E>, fs: FileState, limit: Positive): Walk<E>
    requires fs.File?
  {
    var page := LastPage(CompletePart(fs.bytes), limit);
    Walk(ParseAll(parse, page.lines), Cursor(fs.inode, page.offset))
  }

  /** One read_before at the walk's cursor. An error or a rotated file leaves the walk where it was. */
  function OlderPage<E>(parse: Text -> Option<E>, w: Walk<E>, fs: FileState, limit: Positive): Walk<E> {
    if fs.Missing? || fs.inode != w.cursor.inode then w
    else
      var page := if w.cursor.offset <= 0 then Page([], 0)
                  else LastPage(ReadRange(fs.bytes, 0, w.cursor.offset), limit);
      Walk(ParseAll(parse, page.lines) + w.entries, Cursor(fs.inode, page.offset))
  }

  /** One read_before per view of the file, in order. */
  function WalkBack<E>(parse: Text -> Option<E>, w: Walk<E>, views: seq<FileState>, limit: Positive): Walk<E> {
    if views == [] then w
    else OlderPage(parse, WalkBack(parse, w, views[..|views| - 1], limit), views[|views| - 1], limit)
  }

  /** Between pages the same file is only appended to (other inodes and a missing file may be seen too). */
  predicate AppendOnly(base: seq<Byte>, inode: Inode, views: seq<FileState>) {
    forall i | 0 <= i < |views| :: views[i].File? && views[i].inode == inode ==> base <= views[i].bytes
  }

  /** How many of the requests found the walk's file. */
  function Hits(inode: Inode, views: seq<FileState>): nat {
    if views == [] then 0
    else Hits(inode, views[..|views| - 1])
         + (if views[|views| - 1].File? && views[|views| - 1].inode == inode then 1 else 0)
  }

  function Minus(a: int, b: int): nat {
    if a <= b then 0 else a - b
  }

  /** A walk that has everything from line j on, and stands at the start of line j. */
  ghost predicate CoversFrom<E>(parse: Text -> Option<E>, w: Walk<E>, base: seq<Byte>, inode: Inode, j: nat)
  {
    && j <= |Lines(base)|
    && w.entries == ParseAll(parse, Texts(Lines(base)[j..]))
    && w.cursor == Cursor(inode, |Join(Lines(base)[..j])|)
  }

  /** The last lines of some, and where they start. */
  lemma KeptFrom(ls: seq<Line>, limit: Positive)
    ensures var j := Minus(|ls|, limit); KeptPage(ls, 0, limit) == Page(Texts(ls[j..]), |Join(ls[..j])|)
  {
    var j := Minus(|ls|, limit);
    assert LastK(ls, limit) == ls[j..] && DropLastK(ls, limit) == ls[..j];
  }

  lemma TailCovers<E>(parse: Text -> Option<E>, base: seq<Byte>, inode: Inode, limit: Positive)
    ensures CoversFrom(parse, TailWalk(parse, File(inode, base), limit), base, inode, Minus(|Lines(base)|, limit))
  {
    var ls := Lines(base);
    SplitShape(base);
    LastPageOfLines(ls, limit);
    KeptFrom(ls, limit);
    assert CompletePart(base) == Join(ls);
  }

  /** The bytes before line j, read from any later state of the file. */
  lemma RegionBeforeLine(base: seq<Byte>, later: seq<Byte>, j: nat)
    requires j <= |Lines(base)| && base <= later
    ensures NlFree(Lines(base)[..j])
    ensures ReadRange(later, 0, |Join(Lines(base)[..j])|) == Join(Lines(base)[..j])
    ensures j <= |Join(Lines(base)[..j])|
  {
    var ls := Lines(base);
    SplitShape(base);
    assert ls == ls[..j] + ls[j..];
    JoinConcat(ls[..j], ls[j..]);
    JoinAtLeast(ls[..j]);
    var offset := |Join(ls[..j])|;
    assert base[..offset] == Join(ls[..j]);
    assert later[..offset] == base[..offset];
  }

  /** A page read at a line start adds the lines just before it, byte for byte, and moves to where they start. */
  lemma OlderCovers<E>(
      parse: Text -> Option<E>, w: Walk<E>, base: seq<Byte>, inode: Inode, j: nat, fs: FileState, limit: Positive)
    requires CoversFrom(parse, w, base, inode, j)
    requires fs.File? && fs.inode == inode && base <= fs.bytes
    ensures CoversFrom(parse, OlderPage(parse, w, fs, limit), base, inode, Minus(j, limit))
  {
    RegionBeforeLine(base, fs.bytes, j);
    if j == 0 {
      assert OlderPage(parse, w, fs, limit) == Walk(ParseAll(parse, []) + w.entries, w.cursor);
    } else {
      OlderCoversLines(parse, w, base, inode, j, fs, limit);
    }
  }

  lemma OlderCoversLines<E>(
      parse: Text -> Option<E>, w: Walk<E>, base: seq<Byte>, inode: Inode, j: nat, fs: FileState, limit: Positive)
    requires CoversFrom(parse, w, base, inode, j) && 0 < j
    requires fs.File? && fs.inode == inode
    requires NlFree(Lines(base)[..j])
    requires ReadRange(fs.bytes, 0, w.cursor.offset) == Join(Lines(base)[..j]) && 0 < w.cursor.offset
    ensures CoversFrom(parse, OlderPage(parse, w, fs, limit), base, inode, Minus(j, limit))
  {
    var ls, j' := Lines(base), Minus(j, limit);
    LastPageOfLines(ls[..j], limit);
    LinesCut(ls, j', j);
    assert LastK(ls[..j], limit) == ls[j'..j] && DropLastK(ls[..j], limit) == ls[..j'];
    TextsConcat(ls[j'..j], ls[j..]);
    ParseAllConcat(parse, Texts(ls[j'..j]), Texts(ls[j..]));
  }

  lemma LinesCut<T>(s: seq<T>, i: nat, j: nat)
    requires i <= j <= |s|
    ensures s[i..] == s[i..j] + s[j..]
    ensures s[..j][i..] == s[i..j] && s[..j][..i] == s[..i]
  {
  }

  /** The line from which on a walk has everything, after so many older reads. */
  function FirstRead(lines: nat, tailLimit: Positive, limit: Positive, hits: nat): nat {
    if hits == 0 then Minus(lines, tailLimit) else Minus(FirstRead(lines, tailLimit, limit, hits - 1), limit)
  }

  /** The tail page and every hit take a page of lines each, or what there is. */
  lemma {:induction false} FirstReadIs(lines: nat, tailLimit: Positive, limit: Positive, hits: nat)
    ensures FirstRead(lines, tailLimit, limit, hits)
            == if lines <= tailLimit + limit * hits then 0 else lines - (tailLimit + limit * hits)
  {
    if hits > 0 {
      FirstReadIs(lines, tailLimit, limit, hits - 1);
      assert limit * hits == limit * (hits - 1) + limit;
    }
  }

  lemma {:induction false} WalkCovers<E>(
    parse: Text -> Option<E>, start: Walk<E>, base: seq<Byte>, inode: Inode, tailLimit: Positive,
    views: seq<FileState>, limit: Positive, w: Walk<E>, j: nat)
    requires start == TailWalk(parse, File(inode, base), tailLimit) && AppendOnly(base, inode, views)
    requires w == WalkBack(parse, start, views, limit)
    requires j == FirstRead(|Lines(base)|, tailLimit, limit, Hits(inode, views))
    ensures CoversFrom(parse, w, base, inode, j)
    decreases views
  {
    if views == [] {
      TailCovers(parse, base, inode, tailLimit);
    } else {
      var init, last := views[..|views| - 1], views[|views| - 1];
      assert views == init + [last];
      AppendOnlyBefore(base, inode, init, last);
      var w0, j0 := WalkBack(parse, start, init, limit), FirstRead(|Lines(base)|, tailLimit, limit, Hits(inode, init));
      WalkCovers(parse, start, base, inode, tailLimit, init, limit, w0, j0);
      WalkBackOne(parse, start, init, last, limit);
      ReadOne(|Lines(base)|, tailLimit, limit, inode, init, last);
      OneMoreRead(parse, w0, base, inode, j0, last, limit, w, j);
    }
  }

  /** One more request gets one more page if it finds the walk's file. */
  lemma ReadOne(
    lines: nat, tailLimit: Positive, limit: Positive, inode: Inode, init: seq<FileState>, last: FileState)
    ensures var j := FirstRead(lines, tailLimit, limit, Hits(inode, init));
            FirstRead(lines, tailLimit, limit, Hits(inode, init + [last]))
            == if last.File? && last.inode == inode then Minus(j, limit) else j
  {
    HitsOne(inode, init, last);
  }

  lemma WalkBackOne<E>(
    parse: Text -> Option<E>, w: Walk<E>, init: seq<FileState>, last: FileState, limit: Positive)
    ensures WalkBack(parse, w, init + [last], limit) == OlderPage(parse, WalkBack(parse, w, init, limit), last, limit)
  {
    assert (init + [last])[..|init|] == init;
  }

  lemma HitsOne(inode: Inode, init: seq<FileState>, last: FileState)
    ensures Hits(inode, init + [last])
            == Hits(inode, init) + if last.File? && last.inode == inode then 1 else 0
  {
    assert (init + [last])[..|init|] == init;
  }

  lemma OneMoreRead<E>(
    parse: Text -> Option<E>, w0: Walk<E>, base: seq<Byte>, inode: Inode, j0: nat, last: FileState, limit: Positive,
    w: Walk<E>, j: nat)
    requires CoversFrom(parse, w0, base, inode, j0) && w == OlderPage(parse, w0, last, limit)
    requires j == if last.File? && last.inode == inode then Minus(j0, limit) else j0
    requires last.File? && last.inode == inode ==> base <= last.bytes
    ensures CoversFrom(parse, w, base, inode, j)
  {
    if last.File? && last.inode == inode {
      OlderCovers(parse, w0, base, inode, j0, last, limit);
    }
  }

  /** The tail read and any number of older reads together return exactly the last lines of the file as it was at the
      tail read, however the file grows meanwhile: each line that parses once, in order, and no other. */
  lemma WalkCoversExactly<E>(
    parse: Text -> Option<E>, base: seq<Byte>, inode: Inode, tailLimit: Positive,
    views: seq<FileState>, limit: Positive)
    requires AppendOnly(base, inode, views)
    ensures var w := WalkBack(parse, TailWalk(parse, File(inode, base), tailLimit), views, limit);
            var j := FirstRead(|Lines(base)|, tailLimit, limit, Hits(inode, views));
            CoversFrom(parse, w, base, inode, j) && ParsesInOrder(parse, Texts(Lines(base)[j..]), w.entries)
  {
    var start := TailWalk(parse, File(inode, base), tailLimit);
    var j := FirstRead(|Lines(base)|, tailLimit, limit, Hits(inode, views));
    WalkCovers(parse, start, base, inode, tailLimit, views, limit, WalkBack(parse, start, views, limit), j);
    EntriesOfLines(parse, Texts(Lines(base)[j..]));
  }

  lemma AppendOnlyBefore(base: seq<Byte>, inode: Inode, views: seq<FileState>, last: FileState)
    requires AppendOnly(base, inode, views + [last])
    ensures AppendOnly(base, inode, views) && (last.File? && last.inode == inode ==> base <= last.bytes)
  {
    assert (views + [last])[|views|] == last;
    assert forall i | 0 <= i < |views| :: (views + [last])[i] == views[i];
  }

  /** A walk at the start of line j: at byte 0 exactly for the first line, and otherwise moved back by the next read. */
  lemma WalkMovesBack<E>(
    parse: Text -> Option<E>, w: Walk<E>, base: seq<Byte>, inode: Inode, j: nat, last: FileState, limit: Positive)
    requires CoversFrom(parse, w, base, inode, j) && last.File? && last.inode == inode && base <= last.bytes
    ensures w.cursor.offset == 0 <==> j == 0
    ensures w.cursor.offset > 0 ==> OlderPage(parse, w, last, limit).cursor.offset < w.cursor.offset
  {
    var ls := Lines(base);
    JoinGrows(ls, 0, j);
    assert ls[..0] == [];
    if j > 0 {
      OlderCovers(parse, w, base, inode, j, last, limit);
      JoinGrows(ls, Minus(j, limit), j);
    }
  }

  /** The walk reaches offset 0 exactly when every line has been returned, and until then each
      request that finds the file moves the cursor strictly back. */
  lemma WalkEndsWhenAllRead<E>(
    parse: Text -> Option<E>, base: seq<Byte>, inode: Inode, tailLimit: Positive,
    views: seq<FileState>, last: FileState, limit: Positive)
    requires AppendOnly(base, inode, views + [last])
    requires last.File? && last.inode == inode
    ensures var start := TailWalk(parse, File(inode, base), tailLimit);
            var w := WalkBack(parse, start, views, limit);
            && (w.cursor.offset == 0 <==> FirstRead(|Lines(base)|, tailLimit, limit, Hits(inode, views)) == 0)
            && (w.cursor.offset == 0 ==> ParsesInOrder(parse, Texts(Lines(base)), w.entries))
            && (w.cursor.offset > 0 ==> WalkBack(parse, start, views + [last], limit).cursor.offset < w.cursor.offset)
  {
    var w := WalkBack(parse, TailWalk(parse, File(inode, base), tailLimit), views, limit);
    var j := FirstRead(|Lines(base)|, tailLimit, limit, Hits(inode, views));
    assert views == (views + [last])[..|views|] && (views + [last])[|views|] == last;
    AppendOnlyBefore(base, inode, views, last);
    WalkCoversExactly(parse, base, inode, tailLimit, views, limit);
    WalkMovesBack(parse, w, base, inode, j, last, limit);
    assert Lines(base)[0..] == Lines(base);
  }

  lemma JoinGrows(ls: seq<Line>, i: nat, j: nat)
    requires i <= j <= |ls|
    ensures |Join(ls[..i])| + (j - i) <= |Join(ls[..j])|
  {
    assert ls[..j] == ls[..i] + ls[i..j];
    JoinConcat(ls[..i], ls[i..j]);
    JoinAtLeast(ls[i..j]);
  }

  lemma {:induction false} JoinAtLeast(ls: seq<Line>)
    ensures |ls| <= |Join(ls)|
  {
    if ls != [] {
      JoinAtLeast(ls[1..]);
    }
  }
}
