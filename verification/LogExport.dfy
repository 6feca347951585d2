/** export_ndjson: the streamed lines, each with its newline, against the bytes of the file. */
module LogExport {
  import opened Utf8
  import opened LogLines
  import opened LogFileSource

  const NEWLINE: Scalar := 10

  /** The text that export_ndjson yields for a stream of lines. */
  function ExportNdjson(lines: seq<Text>): Text {
    if lines == [] then [] else lines[0] + [NEWLINE] + ExportNdjson(lines[1..])
  }

  /** A line that survives decoding and rstrip unchanged. */
  predicate Verbatim(l: Line) {
    Valid(l) && (l != [] ==> l[|l| - 1] != CR)
  }

  lemma {:induction false} RStripShape(t: Text)
    ensures RStripCr(t) <= t
    ensures RStripCr(t) == t <==> (t == [] || t[|t| - 1] != CR)
    ensures RStripCr(t) != [] ==> RStripCr(t)[|RStripCr(t)| - 1] != CR
    ensures forall i | |RStripCr(t)| <= i < |t| :: t[i] == CR
  {
    if t != [] && t[|t| - 1] == CR {
      RStripShape(t[..|t| - 1]);
    }
  }

  /** A line is handed out as its decoded text without the carriage returns at its end, and with all the rest. */
  lemma TextOfLine(l: Line)
    ensures var t := Decode(l, Replace);
            && ToText(l) <= t && (forall i | |ToText(l)| <= i < |t| :: t[i] == CR)
            && (ToText(l) != [] ==> ToText(l)[|ToText(l)| - 1] != CR)
  {
    RStripShape(Decode(l, Replace));
  }

  /** Only the scalar U+000A is decoded from, or encoded to, a newline byte. */
  lemma {:induction false} EncodeNlFree(t: Text)
    requires NEWLINE !in t
    ensures NL !in Encode(t)
  {
    if t != [] {
      EncodeNlFree(t[1..]);
      assert NL !in EncodeScalar(t[0]);
    }
  }

  lemma {:induction false} DecodeNlFree(b: seq<Byte>)
    requires NL !in b
    ensures NEWLINE !in Decode(b, Replace)
  {
    if b != [] {
      var h := Next(b);
      if h.scalar.Some? {
        NextIsEncoded(b);
        assert b[0] == b[..h.len][0] == EncodeScalar(h.scalar.value)[0];
      }
      DecodeNlFree(b[h.len..]);
    }
  }

  lemma EncodeLast(t: Text)
    requires t != []
    ensures Encode(t) == Encode(t[..|t| - 1]) + EncodeScalar(t[|t| - 1])
    ensures Encode(t) != []
    ensures Encode(t)[|Encode(t)| - 1] == CR <==> t[|t| - 1] == CR
  {
    var last := t[|t| - 1];
    assert t == t[..|t| - 1] + [last];
    EncodeConcat(t[..|t| - 1], [last]);
    assert Encode([last]) == EncodeScalar(last) + Encode([]);
  }

  /** The text of a line encodes back to the line exactly when the line is valid UTF-8 and has no
      trailing carriage return. */
  lemma LineRoundTrip(l: Line)
    ensures Encode(ToText(l)) == l <==> Verbatim(l)
  {
    var t := Decode(l, Replace);
    RStripShape(t);
    ReencodeIffValid(l);
    RoundTrip(ToText(l), Replace);
    if t != [] {
      EncodeLast(t);
    }
    if ToText(l) != [] {
      EncodeLast(ToText(l));
    }
    if Verbatim(l) {
      assert t == [] || t[|t| - 1] != CR;
    }
  }

  /** The bytes of the export are the encoded lines, each with its newline. */
  function EncodedLines(ls: seq<Line>): (r: seq<Line>)
    ensures |r| == |ls|
    ensures forall i | 0 <= i < |ls| :: r[i] == Encode(ToText(ls[i]))
  {
    if ls == [] then [] else [Encode(ToText(ls[0]))] + EncodedLines(ls[1..])
  }

  lemma {:induction false} ExportBytes(ls: seq<Line>)
    requires NlFree(ls)
    ensures Encode(ExportNdjson(Texts(ls))) == Join(EncodedLines(ls))
    ensures NlFree(EncodedLines(ls))
  {
    if ls != [] {
      var t := ToText(ls[0]);
      var more := ExportNdjson(Texts(ls[1..]));
      assert Texts(ls)[1..] == Texts(ls[1..]);
      ExportBytes(ls[1..]);
      EncodeConcat(t + [NEWLINE], more);
      EncodeConcat(t, [NEWLINE]);
      EncodeOne(NEWLINE);
      DecodeNlFree(ls[0]);
      RStripShape(Decode(ls[0], Replace));
      EncodeNlFree(t);
    }
  }

  /** The export repeats the file up to and including its last newline exactly when every line is
      valid UTF-8 and none ends in a carriage return before its newline. */
  lemma ExportIsVerbatimIff(bytes: seq<Byte>)
    ensures Encode(ExportNdjson(Texts(Lines(bytes)))) == CompletePart(bytes)
            <==> forall i | 0 <= i < |Lines(bytes)| :: Verbatim(Lines(bytes)[i])
  {
    var ls := Lines(bytes);
    SplitShape(bytes);
    ExportBytes(ls);
    forall i | 0 <= i < |ls|
      ensures EncodedLines(ls)[i] == ls[i] <==> Verbatim(ls[i])
    {
      LineRoundTrip(ls[i]);
    }
    if Join(EncodedLines(ls)) == Join(ls) {
      LinesOfJoin(ls);
      LinesOfJoin(EncodedLines(ls));
      assert forall i | 0 <= i < |ls| :: EncodedLines(ls)[i] == ls[i];
    }
    if forall i | 0 <= i < |ls| :: Verbatim(ls[i]) {
      assert EncodedLines(ls) == ls;
    }
  }

  /** For a file that is valid UTF-8 the only obstacle is a carriage return before a newline. */
  lemma ExportOfValidFile(t: Text)
    ensures var ls := Lines(Encode(t));
            Encode(ExportNdjson(Texts(ls))) == CompletePart(Encode(t))
            <==> forall i | 0 <= i < |ls| && ls[i] != [] :: ls[i][|ls[i]| - 1] != CR
  {
    ExportIsVerbatimIff(Encode(t));
    ValidLines(t);
    var ls := Lines(Encode(t));
    assert forall i | 0 <= i < |ls| :: ls[i] == Split(Encode(t))[i];
  }


  lemma OneLine(l: Line)
    requires NL !in l
    ensures Lines(l + [NL]) == [l] && CompletePart(l + [NL]) == l + [NL]
  {
    JoinOne(l);
    LinesOfJoin([l]);
  }

  lemma ReturnIsStripped(t: Text)
    requires t == [] || t[|t| - 1] != CR
    ensures ToText(Encode(t + [CR])) == t
  {
    RoundTrip(t + [CR], Replace);
    RStripShape(t);
    assert (t + [CR])[..|t|] == t;
  }

  /** One line that ends in a carriage return, and its newline: the export has the line without it. */
  lemma ReturnIsDropped(t: Text)
    requires NEWLINE !in t && (t == [] || t[|t| - 1] != CR)
    ensures Encode(ExportNdjson(Texts(Lines(Encode(t + [CR]) + [NL])))) == Encode(t) + [NL]
  {
    var line := Encode(t + [CR]);
    EncodeNlFree(t + [CR]);
    OneLine(line);
    ReturnIsStripped(t);
    ExportBytes([line]);
    assert EncodedLines([line]) == [Encode(t)];
    JoinOne(Encode(t));
  }

  /** The smallest file that is not exported as it is: "a", carriage return, newline. */
  lemma CarriageReturnIsLost()
    ensures var bytes: seq<Byte> := [0x61, 0x0D, 0x0A];
            CompletePart(bytes) == bytes && Encode(ExportNdjson(Texts(Lines(bytes)))) == [0x61, 0x0A]
  {
    EncodeOne(0x61);
    EncodeOne(CR);
    EncodeConcat([0x61], [CR]);
    assert [0x61, 0x0D] + [NL] == [0x61, 0x0D, 0x0A];
    OneLine([0x61, 0x0D]);
    ReturnIsDropped([0x61]);
  }

  lemma EncodeAround(t: Text, u: Text)
    ensures Encode(t + [NEWLINE] + u) == Encode(t) + [NL] + Encode(u)
  {
    EncodeConcat(t + [NEWLINE], u);
    EncodeConcat(t, [NEWLINE]);
    EncodeOne(NEWLINE);
  }

  /** A cut at a newline never tears a character. */
  lemma {:induction false} ValidLines(t: Text)
    ensures forall i | 0 <= i < |Split(Encode(t))| :: Valid(Split(Encode(t))[i])
  {
    if NEWLINE !in t {
      EncodeNlFree(t);
      SplitNlFree(Encode(t));
      RoundTrip(t, Replace);
    } else {
      var k := FirstNewline(t);
      var first, more := t[..k], t[k + 1..];
      assert t == first + [NEWLINE] + more;
      EncodeAround(first, more);
      EncodeNlFree(first);
      RoundTrip(first, Replace);
      ValidLines(more);
      SplitFirst(Encode(first), Encode(more));
    }
  }

  function FirstNewline(t: Text): (k: nat)
    requires NEWLINE in t
    ensures k < |t| && t[k] == NEWLINE && NEWLINE !in t[..k]
  {
    if t[0] == NEWLINE then 0
    else
      var k := FirstNewline(t[1..]);
      assert t[..k + 1] == [t[0]] + t[1..][..k];
      k + 1
  }
}
