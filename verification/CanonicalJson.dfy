/**
 JSON values as the store receives them, with object entries in arrival order,
 and `canonical_json`, which sorts them.  The reference is `Meaning`, where an
 object is an unordered map.
 */
module CanonicalJson {
  datatype Json =
    | Null
    | Bool(flag: bool)
    | Num(n: int)
    | Str(text: string)
    | Arr(items: seq<Json>)
    | Obj(entries: seq<Entry>)

  datatype Entry = Entry(key: string, value: Json)

  datatype Value =
    | VNull
    | VBool(flag: bool)
    | VNum(n: int)
    | VStr(text: string)
    | VArr(items: seq<Value>)
    | VObj(fields: map<string, Value>)

  // ---------------------------------------------------------------- key order

  /** Lexicographic order on keys. */
  predicate Below(a: string, b: string) {
    b != [] && (a == [] || a[0] < b[0] || (a[0] == b[0] && Below(a[1..], b[1..])))
  }

  lemma {:induction false} BelowTotal(a: string, b: string)
    ensures Below(a, b) || a == b || Below(b, a)
  {
    if a != [] && b != [] && a[0] == b[0] {
      BelowTotal(a[1..], b[1..]);
      assert a == [a[0]] + a[1..] && b == [b[0]] + b[1..];
    }
  }

  lemma {:induction false} BelowTransitive(a: string, b: string, c: string)
    requires Below(a, b) && Below(b, c)
    ensures Below(a, c)
  {
    if a != [] && a[0] == b[0] && b[0] == c[0] {
      BelowTransitive(a[1..], b[1..], c[1..]);
    }
  }

  lemma {:induction false} BelowIrreflexive(a: string)
    ensures !Below(a, a)
  {
    if a != [] {
      BelowIrreflexive(a[1..]);
    }
  }

  // ---------------------------------------------------------------- sorting

  predicate DistinctKeys(es: seq<Entry>) {
    forall i, j :: 0 <= i < j < |es| ==> es[i].key != es[j].key
  }

  predicate StrictlySorted(es: seq<Entry>) {
    forall i, j :: 0 <= i < j < |es| ==> Below(es[i].key, es[j].key)
  }

  function Insert(e: Entry, es: seq<Entry>): (r: seq<Entry>)
    ensures multiset(r) == multiset([e]) + multiset(es)
    ensures |r| == |es| + 1
  {
    if es == [] || !Below(es[0].key, e.key) then [e] + es
    else
      assert es == [es[0]] + es[1..];
      [es[0]] + Insert(e, es[1..])
  }

  /** Stable sort by key. */
  function Sort(es: seq<Entry>): (r: seq<Entry>)
    ensures multiset(r) == multiset(es)
    ensures |r| == |es|
    ensures forall e :: e in r ==> e in es
  {
    if es == [] then []
    else
      assert es == [es[0]] + es[1..];
      var r := Insert(es[0], Sort(es[1..]));
      assert multiset(r) == multiset(es);
      assert forall e :: e in r ==> e in multiset(r);
      r
  }

  lemma {:induction false} InsertSorts(e: Entry, es: seq<Entry>)
    requires StrictlySorted(es)
    requires forall x :: x in es ==> x.key != e.key
    ensures StrictlySorted(Insert(e, es))
  {
    if es == [] {
    } else if !Below(es[0].key, e.key) {
      BelowTotal(e.key, es[0].key);
      forall j | 0 <= j < |es| ensures Below(e.key, es[j].key) {
        if j > 0 {
          BelowTransitive(e.key, es[0].key, es[j].key);
        }
      }
    } else {
      var rest := Insert(e, es[1..]);
      InsertSorts(e, es[1..]);
      forall x | x in rest ensures Below(es[0].key, x.key) {
        assert x in multiset(rest);
        assert x == e || x in es[1..];
      }
    }
  }

  lemma {:induction false} SortSorts(es: seq<Entry>)
    requires DistinctKeys(es)
    ensures StrictlySorted(Sort(es))
  {
    if es != [] {
      SortSorts(es[1..]);
      InsertSorts(es[0], Sort(es[1..]));
    }
  }

  /** The keys of a strictly sorted list are determined by their set. */
  lemma {:induction false} SortedKeysUnique(a: seq<string>, b: seq<string>)
    requires forall i, j :: 0 <= i < j < |a| ==> Below(a[i], a[j])
    requires forall i, j :: 0 <= i < j < |b| ==> Below(b[i], b[j])
    requires forall k :: k in a <==> k in b
    ensures a == b
  {
    assert (a != [] ==> a[0] in b) && (b != [] ==> b[0] in a);
    if a != [] {
      if a[0] != b[0] {
        BelowTransitive(a[0], b[0], a[0]);
        BelowIrreflexive(a[0]);
        assert false;
      }
      forall k ensures k in a[1..] <==> k in b[1..] {
        TailMembers(a, k);
        TailMembers(b, k);
      }
      SortedKeysUnique(a[1..], b[1..]);
      assert a == [a[0]] + a[1..] && b == [b[0]] + b[1..];
    }
  }

  lemma TailMembers(a: seq<string>, k: string)
    requires a != []
    requires forall i, j :: 0 <= i < j < |a| ==> Below(a[i], a[j])
    ensures k in a[1..] <==> k in a && k != a[0]
  {
    if k in a[1..] {
      BelowIrreflexive(k);
    }
    assert a == [a[0]] + a[1..];
  }

  // ---------------------------------------------------------------- canonical form

  predicate WellFormed(v: Json) {
    match v
    case Arr(items) => forall i :: 0 <= i < |items| ==> WellFormed(items[i])
    case Obj(es) => DistinctKeys(es) && forall i :: 0 <= i < |es| ==> WellFormed(es[i].value)
    case _ => true
  }

  function Canonical(v: Json): (c: Json) {
    match v
    case Arr(items) => Arr(seq(|items|, i requires 0 <= i < |items| => Canonical(items[i])))
    case Obj(es) =>
      var sorted := Sort(es);
      Obj(seq(|sorted|, i requires 0 <= i < |sorted| =>
        assert sorted[i] in es;
        Entry(sorted[i].key, Canonical(sorted[i].value))))
    case _ => v
  }

  /** Every object inside the value lists its keys in strictly increasing order. */
  predicate DeeplySorted(v: Json) {
    match v
    case Arr(items) => forall i :: 0 <= i < |items| ==> DeeplySorted(items[i])
    case Obj(es) => StrictlySorted(es) && forall i :: 0 <= i < |es| ==> DeeplySorted(es[i].value)
    case _ => true
  }

  ghost function Meaning(v: Json): (m: Value)
    requires WellFormed(v)
  {
    match v
    case Null => VNull
    case Bool(b) => VBool(b)
    case Num(n) => VNum(n)
    case Str(s) => VStr(s)
    case Arr(items) => VArr(seq(|items|, i requires 0 <= i < |items| => Meaning(items[i])))
    case Obj(es) => VObj(map k | k in Keys(es) :: Meaning(Find(es, k).value))
  }

  function Keys(es: seq<Entry>): (ks: set<string>) {
    set e | e in es :: e.key
  }

  function Find(es: seq<Entry>, k: string): (e: Entry)
    requires k in Keys(es)
    ensures e in es && e.key == k
  {
    if es[0].key == k then es[0]
    else
      assert es == [es[0]] + es[1..];
      Find(es[1..], k)
  }

  /** A canonical form is sorted at every level. */
  lemma {:induction false} CanonicalIsSorted(v: Json)
    requires WellFormed(v)
    ensures DeeplySorted(Canonical(v))
    decreases v
  {
    match v
    case Arr(items) =>
      forall i | 0 <= i < |items| ensures DeeplySorted(Canonical(items[i])) {
        CanonicalIsSorted(items[i]);
      }
    case Obj(es) =>
      var sorted := Sort(es);
      var cs := Canonical(v).entries;
      SortSorts(es);
      forall i | 0 <= i < |sorted| ensures DeeplySorted(cs[i].value) {
        assert sorted[i] in es;
        CanonicalIsSorted(sorted[i].value);
      }
    case _ =>
  }

  /** Canonicalisation changes the order of object entries and nothing else. */
  lemma {:induction false} CanonicalKeepsMeaning(v: Json)
    requires WellFormed(v)
    ensures WellFormed(Canonical(v))
    ensures Meaning(Canonical(v)) == Meaning(v)
    decreases v, 1
  {
    match v
    case Arr(items) =>
      forall i | 0 <= i < |items|
        ensures WellFormed(Canonical(items[i])) && Meaning(Canonical(items[i])) == Meaning(items[i])
      {
        CanonicalKeepsMeaning(items[i]);
      }
      assert Meaning(Canonical(v)).items == Meaning(v).items;
    case Obj(es) =>
      ObjectKeepsMeaning(es);
    case _ =>
  }

  lemma {:induction false} ObjectKeepsMeaning(es: seq<Entry>)
    requires WellFormed(Obj(es))
    ensures WellFormed(Canonical(Obj(es)))
    ensures Meaning(Canonical(Obj(es))) == Meaning(Obj(es))
    decreases Obj(es), 0
  {
    var sorted := Sort(es);
    var cs := Canonical(Obj(es)).entries;
    forall i | 0 <= i < |sorted|
      ensures sorted[i] in es && cs[i].key == sorted[i].key
      ensures WellFormed(cs[i].value) && Meaning(cs[i].value) == Meaning(sorted[i].value)
    {
      assert sorted[i] in es;
      CanonicalKeepsMeaning(sorted[i].value);
    }
    SortSorts(es);
    forall i, j | 0 <= i < j < |sorted| ensures cs[i].key != cs[j].key {
      BelowIrreflexive(sorted[i].key);
    }
    forall e | e in es ensures e in sorted {
      assert e in multiset(es);
    }
    SameFields(es, sorted, cs);
  }

  lemma SameFields(es: seq<Entry>, sorted: seq<Entry>, cs: seq<Entry>)
    requires WellFormed(Obj(es)) && WellFormed(Obj(cs)) && |cs| == |sorted|
    requires forall e :: e in es <==> e in sorted
    requires forall i :: 0 <= i < |cs| ==>
      sorted[i] in es && cs[i].key == sorted[i].key && Meaning(cs[i].value) == Meaning(sorted[i].value)
    ensures Meaning(Obj(cs)) == Meaning(Obj(es))
  {
    var m, n := Meaning(Obj(cs)).fields, Meaning(Obj(es)).fields;
    forall e | e in es ensures e.key in m && m[e.key] == n[e.key] {
      var i :| 0 <= i < |sorted| && sorted[i] == e;
      FieldMeaning(es, e);
      FieldMeaning(cs, cs[i]);
    }
    forall k | k in m ensures k in n {
      var i :| 0 <= i < |cs| && cs[i].key == k;
      FieldMeaning(es, sorted[i]);
    }
    assert m == n;
  }

  /** Values with one meaning have one canonical form. */
  lemma {:induction false} MeaningFixesCanonical(v: Json, w: Json)
    requires WellFormed(v) && WellFormed(w)
    requires Meaning(v) == Meaning(w)
    ensures Canonical(v) == Canonical(w)
    decreases v, 1
  {
    match v
    case Arr(items) => ArraysAgree(items, w.items);
    case Obj(es) => ObjectsAgree(es, w.entries);
    case _ =>
  }

  lemma {:induction false} ArraysAgree(items: seq<Json>, other: seq<Json>)
    requires WellFormed(Arr(items)) && WellFormed(Arr(other)) && Meaning(Arr(items)) == Meaning(Arr(other))
    ensures Canonical(Arr(items)) == Canonical(Arr(other))
    decreases Arr(items), 0
  {
    assert |items| == |Meaning(Arr(items)).items| == |Meaning(Arr(other)).items| == |other|;
    forall i | 0 <= i < |items| ensures Canonical(items[i]) == Canonical(other[i]) {
      assert Meaning(Arr(items)).items[i] == Meaning(items[i]);
      assert Meaning(Arr(other)).items[i] == Meaning(other[i]);
      MeaningFixesCanonical(items[i], other[i]);
    }
  }

  lemma {:induction false} ObjectsAgree(es: seq<Entry>, other: seq<Entry>)
    requires WellFormed(Obj(es)) && WellFormed(Obj(other)) && Meaning(Obj(es)) == Meaning(Obj(other))
    ensures Canonical(Obj(es)) == Canonical(Obj(other))
    decreases Obj(es), 0
  {
    var a, b := Sort(es), Sort(other);
    SameSortedKeys(es, other);
    forall i | 0 <= i < |a| ensures a[i].key == b[i].key && Canonical(a[i].value) == Canonical(b[i].value) {
      assert a[i] in es && b[i] in other;
      assert KeySeq(a)[i] == KeySeq(b)[i];
      FieldMeaning(es, a[i]);
      FieldMeaning(other, b[i]);
      MeaningFixesCanonical(a[i].value, b[i].value);
    }
  }

  function KeySeq(es: seq<Entry>): (ks: seq<string>)
    ensures |ks| == |es| && forall i :: 0 <= i < |es| ==> ks[i] == es[i].key
  {
    seq(|es|, i requires 0 <= i < |es| => es[i].key)
  }

  lemma FieldMeaning(es: seq<Entry>, e: Entry)
    requires WellFormed(Obj(es)) && e in es
    ensures WellFormed(e.value)
    ensures e.key in Meaning(Obj(es)).fields && Meaning(Obj(es)).fields[e.key] == Meaning(e.value)
  {
    assert Find(es, e.key) == e;
  }

  lemma SameSortedKeys(a: seq<Entry>, b: seq<Entry>)
    requires WellFormed(Obj(a)) && WellFormed(Obj(b)) && Meaning(Obj(a)) == Meaning(Obj(b))
    ensures |a| == |b| && KeySeq(Sort(a)) == KeySeq(Sort(b))
  {
    SortSorts(a);
    SortSorts(b);
    forall k ensures k in KeySeq(Sort(a)) <==> k in KeySeq(Sort(b)) {
      KeysOfSort(a, k);
      KeysOfSort(b, k);
    }
    SortedKeysUnique(KeySeq(Sort(a)), KeySeq(Sort(b)));
  }

  lemma KeysOfSort(es: seq<Entry>, k: string)
    requires WellFormed(Obj(es))
    ensures k in KeySeq(Sort(es)) <==> k in Meaning(Obj(es)).fields
  {
    KeysAreFields(es, k);
    if k in KeySeq(Sort(es)) {
      var j :| 0 <= j < |es| && KeySeq(Sort(es))[j] == k;
      assert Sort(es)[j] in es;
    }
    if k in Keys(es) {
      var e :| e in es && e.key == k;
      assert e in multiset(es);
      assert e in Sort(es);
      var j :| 0 <= j < |es| && Sort(es)[j] == e;
      assert KeySeq(Sort(es))[j] == k;
    }
  }

  lemma KeysAreFields(es: seq<Entry>, k: string)
    requires WellFormed(Obj(es))
    ensures k in Keys(es) <==> k in Meaning(Obj(es)).fields
  {
  }

  /** Canonical forms decide equality of values, whatever the key order was. */
  lemma CanonicalDecidesMeaning(v: Json, w: Json)
    requires WellFormed(v) && WellFormed(w)
    ensures Canonical(v) == Canonical(w) <==> Meaning(v) == Meaning(w)
  {
    CanonicalKeepsMeaning(v);
    CanonicalKeepsMeaning(w);
    if Meaning(v) == Meaning(w) {
      MeaningFixesCanonical(v, w);
    }
  }

  lemma CanonicalIdempotent(v: Json)
    requires WellFormed(v)
    ensures Canonical(Canonical(v)) == Canonical(v)
  {
    CanonicalKeepsMeaning(v);
    MeaningFixesCanonical(Canonical(v), v);
  }
}
