/** LogFileSource: chunked reads of the log file, in the order of its own loops. */
module LogFileSource {
  import opened Wrappers
  import opened Utf8
  import opened LogLines

  type Inode = int

  /** What the path resolves to at the moment of a call. */
  datatype FileState = Missing | File(inode: Inode, bytes: seq<Byte>)

  datatype LogError = LogReadError

  /** Lines oldest first, and the byte offset of the first of them. */
  datatype Page = Page(lines: seq<Text>, offset: nat)

  /** The last `limit` of the raw lines that start at byte `start`, and where the first of them starts. */
  function KeptPage(rawLines: seq<Line>, start: nat, limit: nat): Page {
    Page(Texts(LastK(rawLines, limit)), start + |Join(DropLastK(rawLines, limit))|)
  }

  /** The last `limit` pieces of a region that starts at byte 0. */
  function LastPage(region: seq<Byte>, limit: nat): Page {
    KeptPage(Pieces(region), 0, limit)
  }

  /** The bytes up to and including the last newline. */
  function CompletePart(bytes: seq<Byte>): seq<Byte> {
    Join(Lines(bytes))
  }

  /** fh.seek(from); fh.read(to - from): stops at end of file. */
  function ReadRange(bytes: seq<Byte>, from: nat, to: nat): seq<Byte>
    requires from <= to
  {
    if |bytes| <= from then [] else bytes[from..if to <= |bytes| then to else |bytes|]
  }

  lemma RangesMeet(bytes: seq<Byte>, a: nat, b: nat, c: nat)
    requires a <= b <= c
    ensures ReadRange(bytes, a, b) + ReadRange(bytes, b, c) == ReadRange(bytes, a, c)
  {
  }

  function Min(a: nat, b: nat): nat {
    if a <= b then a else b
  }

  lemma CompletePartIsPrefix(bytes: seq<Byte>)
    ensures bytes == CompletePart(bytes) + Rest(bytes)
    ensures Pieces(CompletePart(bytes)) == Lines(bytes)
  {
    SplitShape(bytes);
    PiecesAtLineStart(Lines(bytes));
  }

  class LogFileSource {
    const chunkBytes: Positive

    constructor (chunkBytes: Positive)
      ensures this.chunkBytes == chunkBytes
    {
      this.chunkBytes := chunkBytes;
    }

    /** The loop that both reverse readers run: chunks are prepended until the buffer shows
        limit + 1 newlines or reaches the start of the file. */
    method ReadBackwards(bytes: seq<Byte>, end: nat, limit: Positive) returns (buf: seq<Byte>, pos: nat)
      ensures pos <= end && buf == ReadRange(bytes, pos, end)
      ensures pos == 0 || CountNl(buf) >= limit + 1
    {
      buf := [];
      pos := end;
      while pos > 0
        invariant pos <= end
        invariant buf == ReadRange(bytes, pos, end)
      {
        var read := Min(chunkBytes, pos);
        var seekTo := if pos >= read then pos - read else 0;
        RangesMeet(bytes, seekTo, pos, end);
        buf := ReadRange(bytes, seekTo, pos) + buf;
        pos := seekTo;
        if CountNl(buf) >= limit + 1 {
          break;
        }
      }
    }

    /** Of a nonempty buffer: drop the trailing partial line, keep the last lines, locate the first kept one. */
    method TailFromBuffer(buf: seq<Byte>, bufStart: nat, limit: Positive) returns (page: Page)
      ensures page == KeptPage(Lines(buf), bufStart, limit)
    {
      var lastNl := RFindNl(buf);
      RFindShape(buf);
      if lastNl == -1 {
        return Page([], bufStart);
      }
      SplitShape(buf);
      var body := buf[..lastNl + 1];
      assert body == Join(Lines(buf));
      LinesOfJoin(Lines(buf));
      var pieces := Split(body);
      page := KeepLast(pieces[..|pieces| - 1], bufStart, limit);
    }

    /** The last `limit` raw lines, decoded, and the offset of the first one kept. */
    method KeepLast(rawLines: seq<Line>, bufStart: nat, limit: Positive) returns (page: Page)
      ensures page == KeptPage(rawLines, bufStart, limit)
    {
      var kept := if limit < |rawLines| then rawLines[|rawLines| - limit..] else rawLines;
      var dropped := rawLines[..|rawLines| - |kept|];
      assert kept == LastK(rawLines, limit);
      assert dropped == DropLastK(rawLines, limit);
      page := Page(Texts(kept), bufStart + SumWithNewlines(dropped));
    }

    /** _read_last_lines: the last lines that are terminated by a newline, whatever the chunk size. */
    method ReadLastLines(fs: FileState, limit: Positive) returns (r: Result<(Page, Inode), LogError>)
      ensures fs.Missing? ==> r == Err(LogReadError)
      ensures fs.File? ==> r == Ok((LastPage(CompletePart(fs.bytes), limit), fs.inode))
    {
      if fs.Missing? {
        return Err(LogReadError);
      }
      var size := |fs.bytes|;
      if size == 0 {
        TailWindow(fs.bytes, 0, limit);
        return Ok((Page([], 0), fs.inode));
      }
      var buf, pos := ReadBackwards(fs.bytes, size, limit);
      var page := TailFromBuffer(buf, pos, limit);
      TailWindow(fs.bytes, pos, limit);
      r := Ok((page, fs.inode));
    }

    /** _read_lines_before: the last pieces of the region before the cursor, whatever the chunk size
        and wherever the cursor points. */
    method ReadLinesBefore(fs: FileState, offset: int, limit: Positive) returns (r: Result<Page, LogError>)
      ensures offset <= 0 ==> r == Ok(Page([], 0))
      ensures offset > 0 && fs.Missing? ==> r == Err(LogReadError)
      ensures offset > 0 && fs.File? ==> r == Ok(LastPage(ReadRange(fs.bytes, 0, offset), limit))
    {
      if offset <= 0 {
        return Ok(Page([], 0));
      }
      if fs.Missing? {
        return Err(LogReadError);
      }
      var buf, pos := ReadBackwards(fs.bytes, offset, limit);
      var rawLines := Split(buf);
      if rawLines[|rawLines| - 1] == [] {
        rawLines := rawLines[..|rawLines| - 1];
      }
      assert rawLines == Pieces(buf);
      var page := KeepLast(rawLines, pos, limit);
      RegionWindow(fs.bytes, offset, pos, limit);
      r := Ok(page);
    }

    /** iter_all_lines on a held file: every terminated line in order, whatever the chunk size. */
    method IterAllLines(fs: FileState) returns (r: Result<seq<Text>, LogError>)
      ensures fs.Missing? ==> r == Err(LogReadError)
      ensures fs.File? ==> r == Ok(Texts(Lines(fs.bytes)))
    {
      if fs.Missing? {
        return Err(LogReadError);
      }
      var yielded: seq<Text> := [];
      var buf: seq<Byte> := [];
      var at := 0;
      while true
        invariant at <= |fs.bytes|
        invariant yielded == Texts(Lines(fs.bytes[..at]))
        invariant buf == Rest(fs.bytes[..at])
        decreases |fs.bytes| - at
      {
        var chunk := ReadRange(fs.bytes, at, at + chunkBytes);
        if chunk == [] {
          break;
        }
        ghost var seen := fs.bytes[..at];
        assert fs.bytes[..at + |chunk|] == seen + chunk;
        ResumeSplit(seen, chunk);
        buf := buf + chunk;
        var pieces := Split(buf);
        var complete := pieces[..|pieces| - 1];
        buf := pieces[|pieces| - 1];
        TextsConcat(Lines(seen), complete);
        yielded := yielded + Texts(complete);
        at := at + |chunk|;
      }
      assert fs.bytes[..at] == fs.bytes;
      r := Ok(yielded);
    }
  }

  /** Reading on from a partial line: splitting what is left over plus the new chunk continues the lines. */
  lemma ResumeSplit(seen: seq<Byte>, chunk: seq<Byte>)
    ensures Lines(seen + chunk) == Lines(seen) + Lines(Rest(seen) + chunk)
    ensures Rest(seen + chunk) == Rest(Rest(seen) + chunk)
  {
    var done := Join(Lines(seen));
    ResumeRegroups(seen, chunk);
    LinesOfJoin(Lines(seen));
    LinesFromLineStart(done, Rest(seen) + chunk);
  }

  lemma ResumeRegroups(seen: seq<Byte>, chunk: seq<Byte>)
    ensures NlFree(Lines(seen)) && seen + chunk == Join(Lines(seen)) + (Rest(seen) + chunk)
  {
    SplitShape(seen);
    Regroup(Join(Lines(seen)), Rest(seen), chunk);
  }

  lemma RegionWindow(bytes: seq<Byte>, end: nat, pos: nat, limit: Positive)
    requires pos <= end
    requires pos == 0 || CountNl(ReadRange(bytes, pos, end)) >= limit + 1
    ensures LastPage(ReadRange(bytes, 0, end), limit) == KeptPage(Pieces(ReadRange(bytes, pos, end)), pos, limit)
  {
    var b := ReadRange(bytes, pos, end);
    if pos != 0 {
      assert b != [];
      assert ReadRange(bytes, 0, end) == bytes[..pos] + b;
      Window(bytes[..pos], b, limit);
    }
  }

  /** As RegionWindow, for a region that ends in a partial line that the reader discards. */
  lemma TailWindow(bytes: seq<Byte>, pos: nat, limit: Positive)
    requires pos <= |bytes|
    requires pos == 0 || CountNl(ReadRange(bytes, pos, |bytes|)) >= limit + 1
    ensures LastPage(CompletePart(bytes), limit) == KeptPage(Lines(ReadRange(bytes, pos, |bytes|)), pos, limit)
  {
    var b := ReadRange(bytes, pos, |bytes|);
    CompletePartIsPrefix(bytes);
    CompletePartIsPrefix(b);
    if pos == 0 {
      assert b == bytes;
    } else {
      SplitShape(b);
      CompletePartOfEnd(bytes[..pos], b);
      assert bytes == bytes[..pos] + b;
      Window(bytes[..pos], CompletePart(b), limit);
    }
  }

  /** Cutting off the trailing partial line commutes with looking at the end of a file only. */
  lemma CompletePartOfEnd(a: seq<Byte>, b: seq<Byte>)
    requires CountNl(b) >= 1
    ensures CompletePart(a + b) == a + CompletePart(b)
    ensures CountNl(CompletePart(b)) == CountNl(b)
  {
    SplitShape(b);
    LinesAppend(a, b);
    SplitShape(a + b);
    var whole, end := CompletePart(a + b), CompletePart(b);
    assert whole + Rest(b) == (a + end) + Rest(b);
    assert whole == (whole + Rest(b))[..|whole|];
    assert a + end == (a + end + Rest(b))[..|a + end|];
    LinesOfJoin(Lines(b));
    SplitShape(end);
  }

  /** The page for the tail and the page before any line start, in terms of the file's lines alone:
      the last min(limit, n) of the n lines before it, and the byte where the first of them starts. */
  lemma LastPageOfLines(ls: seq<Line>, limit: Positive)
    requires NlFree(ls)
    ensures LastPage(Join(ls), limit) == KeptPage(ls, 0, limit)
    ensures Join(ls) == Join(DropLastK(ls, limit)) + Join(LastK(ls, limit))
  {
    PiecesAtLineStart(ls);
    JoinConcat(DropLastK(ls, limit), LastK(ls, limit));
    assert ls == DropLastK(ls, limit) + LastK(ls, limit);
  }
}
