/** UTF-8 (section 3 of RFC 3629): encoding, and decoding with Python's two lenient error handlers. */
module Utf8 {
  import opened Wrappers

  type Byte = b: int | 0 <= b < 256

  /** A Unicode scalar value: any code point but a surrogate. */
  type Scalar = c: int | 0 <= c < 0xD800 || 0xE000 <= c < 0x110000

  type Text = seq<Scalar>

  const REPLACEMENT: Scalar := 0xFFFD

  datatype OnError = Replace | Ignore

  /** What the decoder finds at the head of its input: how many bytes it takes, and the
      scalar they encode (None: an ill-formed subpart of that length). */
  datatype Head = Head(len: nat, scalar: Option<Scalar>)

  function EncodeScalar(c: Scalar): seq<Byte> {
    if c < 0x80 then [c]
    else if c < 0x800 then [0xC0 + c / 64, 0x80 + c % 64]
    else if c < 0x10000 then [0xE0 + c / 4096, 0x80 + c / 64 % 64, 0x80 + c % 64]
    else [0xF0 + c / 262144, 0x80 + c / 4096 % 64, 0x80 + c / 64 % 64, 0x80 + c % 64]
  }

  function Encode(t: Text): seq<Byte> {
    if t == [] then [] else EncodeScalar(t[0]) + Encode(t[1..])
  }

  predicate Continuation(b: Byte) {
    0x80 <= b < 0xC0
  }

  /** The second byte is restricted after four lead bytes: no overlong form, no surrogate, nothing past U+10FFFF. */
  predicate SecondOk(lead: Byte, b: Byte) {
    && Continuation(b)
    && (lead == 0xE0 ==> 0xA0 <= b)
    && (lead == 0xED ==> b < 0xA0)
    && (lead == 0xF0 ==> 0x90 <= b)
    && (lead == 0xF4 ==> b < 0x90)
  }

  /** How many bytes a sequence with this lead byte has; 0 when no sequence starts with it. */
  function LeadLength(lead: Byte): nat {
    if lead < 0x80 then 1
    else if 0xC2 <= lead < 0xE0 then 2
    else if 0xE0 <= lead < 0xF0 then 3
    else if 0xF0 <= lead < 0xF5 then 4
    else 0
  }

  /** Appends the six payload bits of a continuation byte. */
  function Shift6(high: int, continuation: int): int {
    high * 64 + (continuation - 0x80)
  }

  /** One step of the decoder: a whole sequence, or the longest ill-formed prefix of one. */
  function Next(b: seq<Byte>): (h: Head)
    requires b != []
    ensures 1 <= h.len <= |b|
  {
    var n := LeadLength(b[0]);
    if n == 0 then Head(1, None)
    else if n == 1 then Head(1, Some(b[0]))
    else if |b| < 2 || !SecondOk(b[0], b[1]) then Head(1, None)
    else if n == 2 then Head(2, Some(Shift6(b[0] - 0xC0, b[1])))
    else if |b| < 3 || !Continuation(b[2]) then Head(2, None)
    else if n == 3 then Head(3, Some(Shift6(Shift6(b[0] - 0xE0, b[1]), b[2])))
    else if |b| < 4 || !Continuation(b[3]) then Head(3, None)
    else Head(4, Some(Shift6(Shift6(Shift6(b[0] - 0xF0, b[1]), b[2]), b[3])))
  }

  function Emit(h: Head, mode: OnError): Text {
    match h.scalar
    case Some(c) => [c]
    case None => if mode.Replace? then [REPLACEMENT] else []
  }

  /** bytes.decode("utf-8", mode) */
  function Decode(b: seq<Byte>, mode: OnError): Text {
    if b == [] then [] else Emit(Next(b), mode) + Decode(b[Next(b).len..], mode)
  }

  predicate Valid(b: seq<Byte>) {
    b == [] || (Next(b).scalar.Some? && Valid(b[Next(b).len..]))
  }

  // ---- one scalar at a time ----

  /** Taking off the last six bits undoes Shift6. */
  lemma Shift6Inverse(high: int, low: int)
    requires 0 <= low < 64
    ensures Shift6(high, 0x80 + low) / 64 == high && Shift6(high, 0x80 + low) % 64 == low
  {
  }

  lemma Shift6OfParts(c: nat)
    ensures Shift6(c / 64, 0x80 + c % 64) == c
    ensures c / 64 / 64 == c / 4096 && c / 64 / 64 / 64 == c / 262144 && c / 4096 / 64 == c / 262144
  {
  }

  /** The leading byte of an encoded scalar, and each byte after it, is what Next expects. */
  lemma NextOfEncoded(c: Scalar, rest: seq<Byte>)
    ensures Next(EncodeScalar(c) + rest) == Head(|EncodeScalar(c)|, Some(c))
  {
    var e := EncodeScalar(c);
    var b := e + rest;
    Shift6OfParts(c);
    Shift6OfParts(c / 64);
    Shift6OfParts(c / 4096);
    if c < 0x80 {
      assert b[0] == c;
    } else if c < 0x800 {
      assert b[0] == e[0] && b[1] == e[1];
      assert LeadLength(b[0]) == 2 && SecondOk(b[0], b[1]);
    } else if c < 0x10000 {
      assert b[0] == e[0] && b[1] == e[1] && b[2] == e[2];
      assert LeadLength(b[0]) == 3 && SecondOk(b[0], b[1]);
    } else {
      assert b[0] == e[0] && b[1] == e[1] && b[2] == e[2] && b[3] == e[3];
      assert LeadLength(b[0]) == 4 && SecondOk(b[0], b[1]);
    }
  }

  /** A sequence cut before its end is one ill-formed subpart: the decoder skips all of it at once. */
  lemma NextOfTorn(c: Scalar, k: nat)
    requires 0 < k < |EncodeScalar(c)|
    ensures Next(EncodeScalar(c)[..k]) == Head(k, None)
  {
    var e := EncodeScalar(c);
    assert LeadLength(e[0]) == |e|;
    assert k >= 2 ==> SecondOk(e[0], e[1]);
  }

  lemma NextIsEncoded(b: seq<Byte>)
    requires b != [] && Next(b).scalar.Some?
    ensures EncodeScalar(Next(b).scalar.value) == b[..Next(b).len]
  {
    var h := Next(b);
    if h.len >= 2 {
      var high1 := if h.len == 2 then b[0] - 0xC0 else if h.len == 3 then b[0] - 0xE0 else b[0] - 0xF0;
      Shift6Inverse(high1, b[1] - 0x80);
      if h.len >= 3 {
        var high2 := Shift6(high1, b[1]);
        Shift6Inverse(high2, b[2] - 0x80);
        Shift6OfParts(Shift6(high2, b[2]));
        if h.len == 4 {
          var high3 := Shift6(high2, b[2]);
          Shift6Inverse(high3, b[3] - 0x80);
          Shift6OfParts(Shift6(high3, b[3]));
        }
      }
    }
  }

  // ---- examples of the standards ----

  lemma EncodeOne(c: Scalar)
    ensures Encode([c]) == EncodeScalar(c)
  {
    assert [c][1..] == [];
  }

  /** The octets of section 7 of RFC 3629, one character of each length: U+0041, U+2262, U+0391, U+002E, U+D55C, U+65E5
      and U+233B4. */
  lemma EncodingExamples()
    ensures EncodeScalar(0x41) == [0x41] && EncodeScalar(0x2E) == [0x2E]
    ensures EncodeScalar(0x0391) == [0xCE, 0x91]
    ensures EncodeScalar(0x2262) == [0xE2, 0x89, 0xA2]
    ensures EncodeScalar(0xD55C) == [0xED, 0x95, 0x9C]
    ensures EncodeScalar(0x65E5) == [0xE6, 0x97, 0xA5]
    ensures EncodeScalar(0x233B4) == [0xF0, 0xA3, 0x8E, 0xB4]
  {
  }

  /** The truncated sequences and stray bytes of table 3-8 of the Unicode Standard, and the first bytes of an overlong
      form, of a surrogate and of a code point past U+10FFFF: each is a subpart of this many bytes. */
  lemma SubpartExamples()
    ensures Next([0xF1, 0x80, 0x80, 0xE1]) == Head(3, None)
    ensures Next([0xE1, 0x80, 0xC2]) == Head(2, None)
    ensures Next([0xC2, 0x62]) == Head(1, None)
    ensures Next([0x80, 0xBF]) == Head(1, None)
    ensures Next([0xC0, 0xAF]) == Head(1, None)
    ensures Next([0xE0, 0x80, 0xAF]) == Head(1, None)
    ensures Next([0xED, 0xA0, 0x80]) == Head(1, None)
    ensures Next([0xF4, 0x90, 0x80, 0x80]) == Head(1, None)
  {
  }

  /** Each subpart is decoded to one U+FFFD, or to nothing. */
  lemma SubpartIsReplaced(b: seq<Byte>, rest: seq<Byte>)
    requires b != [] && Next(b + rest) == Head(|b|, None)
    ensures Decode(b + rest, Replace) == [0xFFFD] + Decode(rest, Replace)
    ensures Decode(b + rest, Ignore) == Decode(rest, Ignore)
  {
    assert (b + rest)[|b|..] == rest;
  }

  // ---- whole texts ----

  lemma {:induction false} EncodeConcat(t: Text, u: Text)
    ensures Encode(t + u) == Encode(t) + Encode(u)
  {
    if t == [] {
      assert t + u == u;
    } else {
      assert (t + u)[1..] == t[1..] + u;
      EncodeConcat(t[1..], u);
    }
  }

  /** Decoding undoes encoding, whatever the error handler, and every encoding is valid. */
  lemma {:induction false} RoundTrip(t: Text, mode: OnError)
    ensures Decode(Encode(t), mode) == t
    ensures Valid(Encode(t))
  {
    if t != [] {
      var b := Encode(t);
      NextOfEncoded(t[0], Encode(t[1..]));
      assert b[|EncodeScalar(t[0])|..] == Encode(t[1..]);
      RoundTrip(t[1..], mode);
    }
  }

  /** Re-encoding a decoded string gives the bytes back exactly when they were valid UTF-8. */
  lemma {:induction false} ReencodeIffValid(b: seq<Byte>)
    ensures Valid(b) <==> Encode(Decode(b, Replace)) == b
  {
    RoundTrip(Decode(b, Replace), Replace);
    if Valid(b) {
      ReencodeValid(b);
    }
  }

  /** A valid string starts with the encoding of a scalar. */
  lemma ValidCons(b: seq<Byte>) returns (c: Scalar, n: nat)
    requires b != [] && Valid(b)
    ensures 1 <= n <= |b| && EncodeScalar(c) == b[..n] && Valid(b[n..])
    ensures Decode(b, Replace) == [c] + Decode(b[n..], Replace)
  {
    NextIsEncoded(b);
    c, n := Next(b).scalar.value, Next(b).len;
  }

  lemma EncodeCons(c: Scalar, t: Text, head: seq<Byte>, tail: seq<Byte>)
    requires EncodeScalar(c) == head && Encode(t) == tail
    ensures Encode([c] + t) == head + tail
  {
    assert ([c] + t)[1..] == t;
  }

  lemma {:induction false} ReencodeValid(b: seq<Byte>)
    requires Valid(b)
    ensures Encode(Decode(b, Replace)) == b
    decreases |b|
  {
    if b != [] {
      var c, n := ValidCons(b);
      ReencodeValid(b[n..]);
      EncodeCons(c, Decode(b[n..], Replace), b[..n], b[n..]);
      assert b == b[..n] + b[n..];
    }
  }

  /** The number of scalars whose encodings fit whole in n bytes. */
  function FitCount(t: Text, n: nat): (k: nat)
    ensures k <= |t|
    ensures |Encode(t[..k])| <= n
    ensures k < |t| ==> n < |Encode(t[..k + 1])|
  {
    if t == [] then 0
    else
      var w := |EncodeScalar(t[0])|;
      if n < w then
        assert t[..1] == [t[0]] && t[..1][1..] == [];
        0
      else
        var k := FitCount(t[1..], n - w);
        assert t[..k + 1][1..] == t[1..][..k];
        assert k + 1 < |t| ==> t[..k + 2][1..] == t[1..][..k + 1];
        k + 1
  }

  lemma DecodeTorn(c: Scalar, n: nat)
    requires n < |EncodeScalar(c)|
    ensures Decode(EncodeScalar(c)[..n], Ignore) == []
  {
    if n > 0 {
      var torn := EncodeScalar(c)[..n];
      NextOfTorn(c, n);
      assert torn[n..] == [];
    }
  }

  lemma DecodeWhole(c: Scalar, rest: seq<Byte>)
    ensures Decode(EncodeScalar(c) + rest, Ignore) == [c] + Decode(rest, Ignore)
  {
    NextOfEncoded(c, rest);
    assert (EncodeScalar(c) + rest)[|EncodeScalar(c)|..] == rest;
  }

  /** Of one scalar and the encoding of others, n bytes are a torn scalar, or the scalar and n bytes less its own. */
  lemma CutOne(c: Scalar, rest: seq<Byte>, n: nat)
    requires n <= |EncodeScalar(c) + rest|
    ensures n < |EncodeScalar(c)| ==> Decode((EncodeScalar(c) + rest)[..n], Ignore) == []
    ensures n >= |EncodeScalar(c)| ==>
              Decode((EncodeScalar(c) + rest)[..n], Ignore) == [c] + Decode(rest[..n - |EncodeScalar(c)|], Ignore)
  {
    var e := EncodeScalar(c);
    if n < |e| {
      assert (e + rest)[..n] == e[..n];
      DecodeTorn(c, n);
    } else {
      assert (e + rest)[..n] == e + rest[..n - |e|];
      DecodeWhole(c, rest[..n - |e|]);
    }
  }

  /** Cutting an encoding anywhere and ignoring the torn end keeps the characters that fit. */
  lemma {:induction false} DecodeCut(t: Text, n: nat)
    requires n <= |Encode(t)|
    ensures Decode(Encode(t)[..n], Ignore) == t[..FitCount(t, n)]
    decreases |t|
  {
    if t != [] {
      var w := |EncodeScalar(t[0])|;
      CutOne(t[0], Encode(t[1..]), n);
      if n >= w {
        DecodeCut(t[1..], n - w);
        assert t[..FitCount(t, n)] == [t[0]] + t[1..][..FitCount(t[1..], n - w)];
      }
    }
  }
}

/** The byte budget that the log formatter puts on each line. */
module LineTruncation {
  import opened Utf8

  /** _TruncatingProcessorFormatter.format, given the rendered record. */
  function Format(rendered: Text, max: nat): Text {
    var encoded := Encode(rendered);
    if |encoded| <= max then rendered else Decode(encoded[..max], Ignore)
  }

  /** The formatted line is the longest prefix of whole characters that fits the budget. */
  lemma FormatIsLongestFittingPrefix(rendered: Text, max: nat)
    ensures exists k: nat | k <= |rendered| ::
              && Format(rendered, max) == rendered[..k]
              && |Encode(rendered[..k])| <= max
              && forall j: nat | k < j <= |rendered| :: max < |Encode(rendered[..j])|
  {
    var k := if |Encode(rendered)| <= max then |rendered| else FitCount(rendered, max);
    if |Encode(rendered)| <= max {
      assert rendered[..k] == rendered;
    } else {
      DecodeCut(rendered, max);
    }
    forall j: nat | k < j <= |rendered|
      ensures max < |Encode(rendered[..j])|
    {
      assert rendered[..j] == rendered[..k + 1] + rendered[k + 1..j];
      EncodeConcat(rendered[..k + 1], rendered[k + 1..j]);
    }
  }
}
