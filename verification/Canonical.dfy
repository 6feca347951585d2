/** Payload identity of an upload: _canonical sorts mapping keys at every depth, and two payloads get
    the same canonical form exactly when they are the same document. */
module Canonical {
  /** A decoded JSON document as the interpreter holds it: mappings keep insertion order. */
  datatype Json =
    | Null
    | Bool(b: bool)
    | Num(token: string)
    | Str(s: string)
    | Arr(items: seq<Json>)
    | Obj(fields: seq<Field>)

  datatype Field = Field(key: string, value: Json)

  /** What a document means: a mapping is a finite map, without an order. */
  datatype Doc =
    | DNull
    | DBool(b: bool)
    | DNum(token: string)
    | DStr(s: string)
    | DArr(items: seq<Doc>)
    | DObj(entries: map<string, Doc>)

  function Keys(fields: seq<Field>): set<string> {
    set f | f in fields :: f.key
  }

  function Get(fields: seq<Field>, key: string): (v: Json)
    requires key in Keys(fields)
    ensures Field(key, v) in fields
  {
    if fields[0].key == key then fields[0].value else Get(fields[1..], key)
  }

  predicate DistinctKeys(fields: seq<Field>) {
    forall i, j | 0 <= i < j < |fields| :: fields[i].key != fields[j].key
  }

  /** A mapping never holds a key twice. */
  predicate WellFormed(j: Json) {
    match j
    case Arr(items) => forall v | v in items :: WellFormed(v)
    case Obj(fields) => DistinctKeys(fields) && forall f | f in fields :: WellFormed(f.value)
    case _ => true
  }

  function Meaning(j: Json): Doc {
    match j
    case Null => DNull
    case Bool(b) => DBool(b)
    case Num(t) => DNum(t)
    case Str(s) => DStr(s)
    case Arr(items) => DArr(seq(|items|, i requires 0 <= i < |items| => Meaning(items[i])))
    case Obj(fields) => DObj(map k | k in Keys(fields) :: Meaning(Get(fields, k)))
  }

  /** One document up to the order of mapping keys, at every depth. */
  predicate SameDocument(a: Json, b: Json)
    decreases a
  {
    match a
    case Arr(xs) => b.Arr? && |xs| == |b.items| && forall i | 0 <= i < |xs| :: SameDocument(xs[i], b.items[i])
    case Obj(fs) =>
      && b.Obj? && Keys(fs) == Keys(b.fields)
      && forall k | k in Keys(fs) :: SameDocument(Get(fs, k), Get(b.fields, k))
    case _ => a == b
  }

  predicate Agree(a: Json, b: Json) {
    SameDocument(a, b) <==> Meaning(a) == Meaning(b)
  }

  lemma ArrsAgree(xs: seq<Json>, ys: seq<Json>)
    requires |xs| == |ys| ==> forall i | 0 <= i < |xs| :: Agree(xs[i], ys[i])
    ensures Agree(Arr(xs), Arr(ys))
  {
    var ma, mb := Meaning(Arr(xs)).items, Meaning(Arr(ys)).items;
    assert |ma| == |xs| && |mb| == |ys|;
    if |xs| == |ys| {
      assert forall i | 0 <= i < |xs| :: SameDocument(xs[i], ys[i]) <==> ma[i] == mb[i];
      assert (forall i | 0 <= i < |xs| :: ma[i] == mb[i]) <==> ma == mb;
    }
  }

  lemma ObjsAgree(fs: seq<Field>, gs: seq<Field>)
    requires Keys(fs) == Keys(gs) ==> forall k | k in Keys(fs) :: Agree(Get(fs, k), Get(gs, k))
    ensures Agree(Obj(fs), Obj(gs))
  {
    var ma, mb := Meaning(Obj(fs)).entries, Meaning(Obj(gs)).entries;
    assert ma.Keys == Keys(fs) && mb.Keys == Keys(gs);
    if Keys(fs) == Keys(gs) {
      assert forall k | k in Keys(fs) :: SameDocument(Get(fs, k), Get(gs, k)) <==> ma[k] == mb[k];
      assert (forall k | k in Keys(fs) :: ma[k] == mb[k]) <==> ma == mb;
    }
  }

  /** That is what having the same meaning is. */
  lemma {:induction false} SameMeaningIsSameDocument(a: Json, b: Json)
    ensures SameDocument(a, b) <==> Meaning(a) == Meaning(b)
    decreases a
  {
    match a {
      case Arr(xs) =>
        if b.Arr? {
          forall i | 0 <= i < |xs| && |xs| == |b.items|
            ensures Agree(xs[i], b.items[i])
          {
            SameMeaningIsSameDocument(xs[i], b.items[i]);
          }
          ArrsAgree(xs, b.items);
        }
      case Obj(fs) =>
        if b.Obj? {
          forall k | k in Keys(fs) && Keys(fs) == Keys(b.fields)
            ensures Agree(Get(fs, k), Get(b.fields, k))
          {
            SameMeaningIsSameDocument(Get(fs, k), Get(b.fields, k));
          }
          ObjsAgree(fs, b.fields);
        }
      case _ =>
    }
  }

  // ---- sorted(keys) ----

  predicate Less(a: string, b: string) {
    b != [] && (a == [] || a[0] < b[0] || (a[0] == b[0] && Less(a[1..], b[1..])))
  }

  lemma {:induction false} LessTotal(a: string, b: string)
    ensures a == b || Less(a, b) || Less(b, a)
    ensures !(Less(a, b) && Less(b, a)) && !Less(a, a)
  {
    if a != [] && b != [] {
      LessTotal(a[1..], b[1..]);
      if a[0] == b[0] && a[1..] == b[1..] {
        assert a == [a[0]] + a[1..] && b == [b[0]] + b[1..];
      }
    }
    if a != [] {
      LessTotal(a[1..], a[1..]);
    }
  }

  lemma {:induction false} LessTransitive(a: string, b: string, c: string)
    requires Less(a, b) && Less(b, c)
    ensures Less(a, c)
  {
    if a != [] && a[0] == b[0] == c[0] {
      LessTransitive(a[1..], b[1..], c[1..]);
    }
  }

  /** The order of str: the first difference decides, and a proper prefix comes first. */
  lemma {:induction false} LessIsLexicographic(a: string, b: string)
    ensures Less(a, b) <==> exists n: nat ::
              n <= |a| && n < |b| && a[..n] == b[..n] && (n == |a| || a[n] < b[n])
  {
    if Less(a, b) {
      var n := FirstDifference(a, b);
    }
    if n: nat :| n <= |a| && n < |b| && a[..n] == b[..n] && (n == |a| || a[n] < b[n]) {
      DifferenceDecides(a, b, n);
    }
  }

  lemma {:induction false} FirstDifference(a: string, b: string) returns (n: nat)
    requires Less(a, b)
    ensures n <= |a| && n < |b| && a[..n] == b[..n] && (n == |a| || a[n] < b[n])
  {
    n := 0;
    if a != [] && a[0] == b[0] {
      n := FirstDifference(a[1..], b[1..]);
      assert a[..n + 1] == [a[0]] + a[1..][..n] && b[..n + 1] == [b[0]] + b[1..][..n];
      n := n + 1;
    }
  }

  lemma {:induction false} DifferenceDecides(a: string, b: string, n: nat)
    requires n <= |a| && n < |b| && a[..n] == b[..n] && (n == |a| || a[n] < b[n])
    ensures Less(a, b)
  {
    if n > 0 {
      assert a[0] == a[..n][0] == b[..n][0] == b[0];
      assert a[1..][..n - 1] == a[..n][1..] && b[1..][..n - 1] == b[..n][1..];
      DifferenceDecides(a[1..], b[1..], n - 1);
    }
  }

  predicate Ascending(ks: seq<string>) {
    forall i, j | 0 <= i < j < |ks| :: Less(ks[i], ks[j])
  }

  function Insert(k: string, ks: seq<string>): seq<string> {
    if ks == [] then [k]
    else if Less(k, ks[0]) then [k] + ks
    else [ks[0]] + Insert(k, ks[1..])
  }

  function SortedKeys(fields: seq<Field>): seq<string> {
    if fields == [] then [] else Insert(fields[0].key, SortedKeys(fields[1..]))
  }

  lemma {:induction false} InsertKeepsOrder(k: string, ks: seq<string>)
    requires Ascending(ks) && k !in ks
    ensures Ascending(Insert(k, ks))
    ensures forall x :: x in Insert(k, ks) <==> x == k || x in ks
  {
    if ks != [] {
      LessTotal(k, ks[0]);
      if Less(k, ks[0]) {
        forall j | 0 <= j < |ks|
          ensures Less(k, ks[j])
        {
          if j > 0 { LessTransitive(k, ks[0], ks[j]); }
        }
      } else {
        InsertKeepsOrder(k, ks[1..]);
        var r := Insert(k, ks[1..]);
        forall j | 0 <= j < |r|
          ensures Less(ks[0], r[j])
        {
          assert r[j] in r;
        }
        assert ks == [ks[0]] + ks[1..];
      }
    }
  }

  lemma {:induction false} SortedKeysShape(fields: seq<Field>)
    requires DistinctKeys(fields)
    ensures Ascending(SortedKeys(fields))
    ensures forall x :: x in SortedKeys(fields) <==> x in Keys(fields)
  {
    if fields != [] {
      SortedKeysShape(fields[1..]);
      assert fields == [fields[0]] + fields[1..];
      assert fields[0].key !in Keys(fields[1..]) by {
        forall f | f in fields[1..]
          ensures f.key != fields[0].key
        {
          var i :| 0 <= i < |fields[1..]| && fields[1..][i] == f;
          assert fields[i + 1] == f;
        }
      }
      InsertKeepsOrder(fields[0].key, SortedKeys(fields[1..]));
    }
  }

  lemma EmptyIffNoElement(a: seq<string>)
    ensures a == [] <==> forall x :: x !in a
  {
    assert a != [] ==> a[0] in a;
  }

  lemma FirstIsLeast(a: seq<string>, x: string)
    requires Ascending(a) && x in a
    ensures x == a[0] || Less(a[0], x)
  {
  }

  /** An ascending list is determined by its elements. */
  lemma {:induction false} AscendingUnique(a: seq<string>, b: seq<string>)
    requires Ascending(a) && Ascending(b)
    requires forall x :: x in a <==> x in b
    ensures a == b
  {
    if a == [] {
      EmptyIffNoElement(b);
    } else {
      assert a[0] in a;
      assert b != [];
      assert b[0] in b;
      FirstIsLeast(a, b[0]);
      FirstIsLeast(b, a[0]);
      LessTotal(a[0], b[0]);
      forall x
        ensures x in a[1..] <==> x in b[1..]
      {
        TailElements(a, x);
        TailElements(b, x);
      }
      AscendingUnique(a[1..], b[1..]);
      assert a == [a[0]] + a[1..] && b == [b[0]] + b[1..];
    }
  }

  lemma TailElements(a: seq<string>, x: string)
    requires a != [] && Ascending(a)
    ensures x in a[1..] <==> x in a && x != a[0]
  {
    LessTotal(a[0], a[0]);
    assert a == [a[0]] + a[1..];
  }

  // ---- _canonical ----

  function Canonical(j: Json): Json
    decreases j
  {
    match j
    case Arr(items) => Arr(seq(|items|, i requires 0 <= i < |items| => Canonical(items[i])))
    case Obj(fields) => Obj(CanonicalFields(fields, SortedKeys(fields)))
    case _ => j
  }

  /** {k: _canonical(value[k]) for k in ks} (a key that is not there cannot come out of sorted). */
  function CanonicalFields(fields: seq<Field>, ks: seq<string>): (r: seq<Field>)
    ensures |r| <= |ks|
    ensures (forall k | k in ks :: k in Keys(fields)) ==>
              |r| == |ks| && forall i | 0 <= i < |ks| :: r[i].key == ks[i]
    decreases Obj(fields), |ks|
  {
    if ks == [] then []
    else if ks[0] in Keys(fields) then
      [Field(ks[0], Canonical(Get(fields, ks[0])))] + CanonicalFields(fields, ks[1..])
    else CanonicalFields(fields, ks[1..])
  }

  lemma {:induction false} CanonicalFieldsAt(fields: seq<Field>, ks: seq<string>, i: nat)
    requires forall k | k in ks :: k in Keys(fields)
    requires i < |ks|
    ensures ks[i] in ks
    ensures CanonicalFields(fields, ks)[i] == Field(ks[i], Canonical(Get(fields, ks[i])))
  {
    if i > 0 {
      CanonicalFieldsAt(fields, ks[1..], i - 1);
    }
  }

  lemma GetUnique(fields: seq<Field>, i: nat)
    requires DistinctKeys(fields) && i < |fields|
    ensures fields[i].key in Keys(fields) && Get(fields, fields[i].key) == fields[i].value
  {
    assert fields[i] in fields;
    var v := Get(fields, fields[i].key);
    var j :| 0 <= j < |fields| && fields[j] == Field(fields[i].key, v);
  }

  /** The fields of a canonical mapping, one by one. */
  lemma CanonicalObjAt(fields: seq<Field>, i: nat)
    requires DistinctKeys(fields) && i < |CanonicalFields(fields, SortedKeys(fields))|
    ensures var r := CanonicalFields(fields, SortedKeys(fields));
            && r[i].key == SortedKeys(fields)[i] && r[i].key in Keys(fields)
            && r[i].value == Canonical(Get(fields, r[i].key))
  {
    SortedKeysShape(fields);
    CanonicalFieldsAt(fields, SortedKeys(fields), i);
  }

  lemma CanonicalObj(fields: seq<Field>)
    requires DistinctKeys(fields)
    ensures var r := CanonicalFields(fields, SortedKeys(fields));
            && DistinctKeys(r) && Keys(r) == Keys(fields)
            && (forall f | f in r :: f.key in Keys(fields) && f.value == Canonical(Get(fields, f.key)))
            && (forall k | k in Keys(fields) :: Get(r, k) == Canonical(Get(fields, k)))
  {
    var ks := SortedKeys(fields);
    var r := CanonicalFields(fields, ks);
    SortedKeysShape(fields);
    assert |r| == |ks|;
    forall i | 0 <= i < |r|
      ensures r[i].key == ks[i] && r[i].key in Keys(fields) && r[i].value == Canonical(Get(fields, r[i].key))
    {
      CanonicalObjAt(fields, i);
    }
    forall i, j | 0 <= i < j < |r|
      ensures r[i].key != r[j].key
    {
      LessTotal(ks[i], ks[j]);
    }
    forall k | k in Keys(fields)
      ensures k in Keys(r) && Get(r, k) == Canonical(Get(fields, k))
    {
      var i :| 0 <= i < |ks| && ks[i] == k;
      GetUnique(r, i);
    }
  }

  /** The value keeps its meaning. */
  predicate Keeps(j: Json) {
    WellFormed(Canonical(j)) && Meaning(Canonical(j)) == Meaning(j)
  }

  lemma ArrKeeps(items: seq<Json>)
    requires forall i | 0 <= i < |items| :: Keeps(items[i])
    ensures Keeps(Arr(items))
  {
  }

  lemma ObjKeeps(fields: seq<Field>)
    requires DistinctKeys(fields) && forall k | k in Keys(fields) :: Keeps(Get(fields, k))
    ensures Keeps(Obj(fields))
  {
    var r := CanonicalFields(fields, SortedKeys(fields));
    CanonicalObj(fields);
    forall f | f in r
      ensures WellFormed(f.value)
    {
      assert Keeps(Get(fields, f.key));
    }
    forall k | k in Keys(fields)
      ensures Meaning(Get(r, k)) == Meaning(Get(fields, k))
    {
      assert Keeps(Get(fields, k));
    }
  }

  /** Canonicalising keeps the document's meaning. */
  lemma {:induction false} CanonicalKeepsMeaning(j: Json)
    requires WellFormed(j)
    ensures WellFormed(Canonical(j)) && Meaning(Canonical(j)) == Meaning(j)
    decreases j
  {
    match j {
      case Arr(items) =>
        forall i | 0 <= i < |items|
          ensures Keeps(items[i])
        {
          CanonicalKeepsMeaning(items[i]);
        }
        ArrKeeps(items);
      case Obj(fields) =>
        forall k | k in Keys(fields)
          ensures Keeps(Get(fields, k))
        {
          assert Field(k, Get(fields, k)) in fields;
          CanonicalKeepsMeaning(Get(fields, k));
        }
        ObjKeeps(fields);
      case _ =>
    }
  }

  /** Documents with the same meaning have the same canonical form. */
  lemma {:induction false} SameMeaningSameForm(a: Json, b: Json)
    requires WellFormed(a) && WellFormed(b)
    requires Meaning(a) == Meaning(b)
    ensures Canonical(a) == Canonical(b)
    decreases a
  {
    match a {
      case Arr(xs) =>
        var ys := b.items;
        var ma, mb := Meaning(a).items, Meaning(b).items;
        assert |xs| == |ma| == |mb| == |ys|;
        forall i | 0 <= i < |xs|
          ensures Canonical(xs[i]) == Canonical(ys[i])
        {
          assert ma[i] == Meaning(xs[i]) && mb[i] == Meaning(ys[i]);
          SameMeaningSameForm(xs[i], ys[i]);
        }
      case Obj(fs) =>
        var gs := b.fields;
        var ma, mb := Meaning(a).entries, Meaning(b).entries;
        assert Keys(fs) == ma.Keys == mb.Keys == Keys(gs);
        forall k | k in Keys(fs)
          ensures Canonical(Get(fs, k)) == Canonical(Get(gs, k))
        {
          assert ma[k] == Meaning(Get(fs, k)) && mb[k] == Meaning(Get(gs, k));
          assert Field(k, Get(fs, k)) in fs && Field(k, Get(gs, k)) in gs;
          SameMeaningSameForm(Get(fs, k), Get(gs, k));
        }
        SameFieldsSameForm(fs, gs);
      case _ =>
    }
  }

  lemma SameFieldsSameForm(fs: seq<Field>, gs: seq<Field>)
    requires DistinctKeys(fs) && DistinctKeys(gs) && Keys(fs) == Keys(gs)
    requires forall k | k in Keys(fs) :: Canonical(Get(fs, k)) == Canonical(Get(gs, k))
    ensures Canonical(Obj(fs)) == Canonical(Obj(gs))
  {
    SortedKeysShape(fs);
    SortedKeysShape(gs);
    AscendingUnique(SortedKeys(fs), SortedKeys(gs));
    var ks := SortedKeys(fs);
    forall i | 0 <= i < |ks|
      ensures CanonicalFields(fs, ks)[i] == CanonicalFields(gs, ks)[i]
    {
      assert ks[i] in ks;
      CanonicalFieldsAt(fs, ks, i);
      CanonicalFieldsAt(gs, ks, i);
    }
  }

  /** The canonical form decides document equality: same form iff equal up to key order at every depth. */
  lemma CanonicalDecidesEquality(a: Json, b: Json)
    requires WellFormed(a) && WellFormed(b)
    ensures Canonical(a) == Canonical(b) <==> Meaning(a) == Meaning(b)
  {
    CanonicalKeepsMeaning(a);
    CanonicalKeepsMeaning(b);
    if Meaning(a) == Meaning(b) {
      SameMeaningSameForm(a, b);
    }
  }

  lemma CanonicalIdempotent(j: Json)
    requires WellFormed(j)
    ensures Canonical(Canonical(j)) == Canonical(j)
  {
    CanonicalKeepsMeaning(j);
    SameMeaningSameForm(Canonical(j), j);
  }

  // ---- _fingerprint ----

  /** The hash of the encoded payload; encoding and SHA-256 are injective, so the payload stands for it. */
  type Fingerprint = Json

  function FingerprintOf(sourceKey: string, document: Json): Fingerprint {
    Canonical(Obj([Field("source_key", Str(sourceKey)), Field("document", document)]))
  }

  lemma PayloadMeaning(sourceKey: string, document: Json)
    requires WellFormed(document)
    ensures var payload := Obj([Field("source_key", Str(sourceKey)), Field("document", document)]);
            && WellFormed(payload)
            && Meaning(payload) == DObj(map["source_key" := DStr(sourceKey), "document" := Meaning(document)])
  {
    var fields := [Field("source_key", Str(sourceKey)), Field("document", document)];
    assert "source_key"[0] == 's' && "document"[0] == 'd';
    assert fields[0] in fields && fields[1] in fields;
    GetUnique(fields, 0);
    GetUnique(fields, 1);
    assert Keys(fields) == {"source_key", "document"};
  }

  /** Two commands are the same payload exactly when the source key and the document agree. */
  lemma FingerprintDecidesPayload(key1: string, doc1: Json, key2: string, doc2: Json)
    requires WellFormed(doc1) && WellFormed(doc2)
    ensures FingerprintOf(key1, doc1) == FingerprintOf(key2, doc2) <==> key1 == key2 && Meaning(doc1) == Meaning(doc2)
  {
    PayloadMeaning(key1, doc1);
    PayloadMeaning(key2, doc2);
    CanonicalDecidesEquality(Obj([Field("source_key", Str(key1)), Field("document", doc1)]),
                             Obj([Field("source_key", Str(key2)), Field("document", doc2)]));
    var m1 := map["source_key" := DStr(key1), "document" := Meaning(doc1)];
    var m2 := map["source_key" := DStr(key2), "document" := Meaning(doc2)];
    assert "source_key"[0] == 's' && "document"[0] == 'd';
    if m1 == m2 {
      assert m1["source_key"] == m2["source_key"] && m1["document"] == m2["document"];
    }
  }
}
