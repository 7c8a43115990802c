/**
 JSON values as the bridge sees them after parsing, and the canonical form behind
 the request fingerprint. A Ruby Hash keeps insertion order, so an object is an
 ordered list of fields; a parsed object never repeats a key (WellFormed).
 */
module Json {
  import opened Basics

  datatype Json =
    | Null
    | Bool(b: bool)
    | Int(i: int)
    | Num(r: real)
    | Str(s: string)
    | Arr(items: seq<Json>)
    | Obj(fields: seq<Field>)

  datatype Field = Field(key: string, value: Json)

  // ---------- object access ----------

  function Keys(fs: seq<Field>): set<string> {
    set f | f in fs :: f.key
  }

  predicate HasKey(fs: seq<Field>, key: string) {
    exists i :: 0 <= i < |fs| && fs[i].key == key
  }

  /** Hash#[]: nil for a missing key. */
  function Get(fs: seq<Field>, key: string): Option<Json> {
    if fs == [] then None
    else if fs[0].key == key then Some(fs[0].value)
    else Get(fs[1..], key)
  }

  ghost predicate DistinctKeys(fs: seq<Field>) {
    forall i, j :: 0 <= i < j < |fs| ==> fs[i].key != fs[j].key
  }

  ghost predicate WellFormed(v: Json) {
    match v
    case Arr(items) => forall i :: 0 <= i < |items| ==> WellFormed(items[i])
    case Obj(fields) =>
      DistinctKeys(fields) && forall i :: 0 <= i < |fields| ==> WellFormed(fields[i].value)
    case _ => true
  }

  lemma {:induction false} GetFinds(fs: seq<Field>, i: nat)
    requires DistinctKeys(fs) && i < |fs|
    ensures Get(fs, fs[i].key) == Some(fs[i].value)
  {
    if i == 0 {
    } else {
      assert fs[0].key != fs[i].key;
      assert fs[1..][i - 1] == fs[i];
      GetFinds(fs[1..], i - 1);
    }
  }

  lemma {:induction false} GetSound(fs: seq<Field>, key: string)
    ensures Get(fs, key).Some? ==> Field(key, Get(fs, key).value) in fs
    ensures Get(fs, key).None? <==> !HasKey(fs, key)
  {
    if fs == [] {
    } else {
      assert fs == [fs[0]] + fs[1..];
      GetSound(fs[1..], key);
      if fs[0].key != key && HasKey(fs, key) {
        var i :| 0 <= i < |fs| && fs[i].key == key;
        assert fs[1..][i - 1].key == key;
      }
      if fs[0].key != key && HasKey(fs[1..], key) {
        var i :| 0 <= i < |fs[1..]| && fs[1..][i].key == key;
        assert fs[i + 1].key == key;
      }
    }
  }

  // ---------- string order ----------

  /** String#<=> on code points. */
  predicate Less(a: string, b: string) {
    if b == [] then false
    else if a == [] then true
    else a[0] < b[0] || (a[0] == b[0] && Less(a[1..], b[1..]))
  }

  lemma {:induction false} LessTrichotomy(a: string, b: string)
    ensures Less(a, b) || a == b || Less(b, a)
    ensures !(Less(a, b) && Less(b, a))
    ensures a == b ==> !Less(a, b)
  {
    if a != [] && b != [] {
      LessTrichotomy(a[1..], b[1..]);
      assert a == [a[0]] + a[1..] && b == [b[0]] + b[1..];
    }
  }

  lemma {:induction false} LessTransitive(a: string, b: string, c: string)
    requires Less(a, b) && Less(b, c)
    ensures Less(a, c)
  {
    if a != [] {
      if a[0] == b[0] && b[0] == c[0] {
        LessTransitive(a[1..], b[1..], c[1..]);
      }
    }
  }

  // ---------- sorting fields by key ----------

  function Insert(f: Field, fs: seq<Field>): (r: seq<Field>)
    ensures forall x :: x in r <==> x == f || x in fs
  {
    if fs == [] then [f]
    else if Less(f.key, fs[0].key) then [f] + fs
    else
      var rest := Insert(f, fs[1..]);
      assert fs == [fs[0]] + fs[1..];
      [fs[0]] + rest
  }

  function SortFields(fs: seq<Field>): (r: seq<Field>)
    ensures forall x :: x in r <==> x in fs
  {
    if fs == [] then []
    else
      assert fs == [fs[0]] + fs[1..];
      Insert(fs[0], SortFields(fs[1..]))
  }

  ghost predicate SortedKeys(fs: seq<Field>) {
    forall i, j :: 0 <= i < j < |fs| ==> Less(fs[i].key, fs[j].key)
  }

  lemma {:induction false} SortedDistinct(fs: seq<Field>)
    requires SortedKeys(fs)
    ensures DistinctKeys(fs)
  {
    forall i, j | 0 <= i < j < |fs| ensures fs[i].key != fs[j].key {
      LessTrichotomy(fs[i].key, fs[j].key);
    }
  }

  lemma {:induction false} InsertSorted(f: Field, fs: seq<Field>)
    requires SortedKeys(fs) && !HasKey(fs, f.key)
    ensures SortedKeys(Insert(f, fs))
    ensures |Insert(f, fs)| == |fs| + 1
  {
    if fs == [] {
    } else if Less(f.key, fs[0].key) {
      forall j | 0 <= j < |fs| ensures Less(f.key, fs[j].key) {
        if j > 0 { LessTransitive(f.key, fs[0].key, fs[j].key); }
      }
    } else {
      assert forall i :: 0 <= i < |fs[1..]| ==> fs[1..][i] == fs[i + 1];
      InsertSorted(f, fs[1..]);
      LessTrichotomy(f.key, fs[0].key);
      var rest := Insert(f, fs[1..]);
      forall j | 0 <= j < |rest| ensures Less(fs[0].key, rest[j].key) {
        assert rest[j] in rest;
        if rest[j] != f {
          var k :| 0 <= k < |fs[1..]| && fs[1..][k] == rest[j];
          assert fs[k + 1] == rest[j];
        }
      }
      var all := Insert(f, fs);
      assert all == [fs[0]] + rest;
      forall i, j | 0 <= i < j < |all| ensures Less(all[i].key, all[j].key) {
        assert all[j] == rest[j - 1];
        if i > 0 { assert all[i] == rest[i - 1]; }
      }
    }
  }

  lemma {:induction false} SortFieldsSorted(fs: seq<Field>)
    requires DistinctKeys(fs)
    ensures SortedKeys(SortFields(fs)) && |SortFields(fs)| == |fs|
  {
    if fs == [] {
    } else {
      var rest := SortFields(fs[1..]);
      assert forall i :: 0 <= i < |fs[1..]| ==> fs[1..][i] == fs[i + 1];
      SortFieldsSorted(fs[1..]);
      forall i | 0 <= i < |rest| ensures rest[i].key != fs[0].key {
        assert rest[i] in rest;
        var j :| 0 <= j < |fs[1..]| && fs[1..][j] == rest[i];
        assert fs[j + 1].key == rest[i].key;
      }
      InsertSorted(fs[0], rest);
    }
  }

  /** A list strictly sorted by key is determined by its elements. */
  lemma {:induction false} SortedUnique(a: seq<Field>, b: seq<Field>)
    requires SortedKeys(a) && SortedKeys(b) && |a| == |b|
    requires forall x :: x in a <==> x in b
    ensures a == b
  {
    if a == [] {
    } else {
      assert a[0] in a && b[0] in b;
      SortedDistinct(a);
      SortedDistinct(b);
      var i :| 0 <= i < |b| && b[i] == a[0];
      var j :| 0 <= j < |a| && a[j] == b[0];
      LessTrichotomy(a[0].key, b[0].key);
      assert forall k :: 0 < k < |b| ==> Less(b[0].key, b[k].key);
      assert forall k :: 0 < k < |a| ==> Less(a[0].key, a[k].key);
      assert a[0] == b[0];
      TailElements(a, b);
      TailElements(b, a);
      SortedUnique(a[1..], b[1..]);
      assert a == [a[0]] + a[1..] && b == [b[0]] + b[1..];
    }
  }

  lemma {:induction false} TailElements(a: seq<Field>, b: seq<Field>)
    requires a != [] && b != [] && a[0] == b[0]
    requires DistinctKeys(a)
    requires forall x :: x in a ==> x in b
    ensures forall x :: x in a[1..] ==> x in b[1..]
    ensures SortedKeys(a) ==> SortedKeys(a[1..])
  {
    forall x | x in a[1..] ensures x in b[1..] {
      var i :| 0 <= i < |a[1..]| && a[1..][i] == x;
      assert a[i + 1] == x;
      assert x != a[0] && x in a;
      var j :| 0 <= j < |b| && b[j] == x;
      assert b[1..][j - 1] == x;
    }
    assert forall i :: 0 <= i < |a[1..]| ==> a[1..][i] == a[i + 1];
  }

  // ---------- canonical form ----------

  /** canonicalize: keys sorted at every depth, everything else kept. */
  function Canon(v: Json): Json
    decreases v, 1
  {
    match v
    case Arr(items) => Arr(CanonItems(items))
    case Obj(fields) => Obj(SortFields(CanonFields(fields)))
    case _ => v
  }

  function CanonItems(items: seq<Json>): (r: seq<Json>)
    ensures |r| == |items|
    decreases items, 0
  {
    if items == [] then [] else [Canon(items[0])] + CanonItems(items[1..])
  }

  function CanonFields(fields: seq<Field>): (r: seq<Field>)
    ensures |r| == |fields|
    decreases fields, 0
  {
    if fields == [] then []
    else [Field(fields[0].key, Canon(fields[0].value))] + CanonFields(fields[1..])
  }

  /** Equal up to the order of object keys, at every depth. */
  ghost predicate SameUpToOrder(a: Json, b: Json) {
    match a
    case Arr(items) =>
      b.Arr? && |items| == |b.items| &&
      forall i :: 0 <= i < |items| ==> SameUpToOrder(items[i], b.items[i])
    case Obj(fields) =>
      b.Obj? && |fields| == |b.fields| &&
      forall i :: 0 <= i < |fields| ==>
        exists j :: 0 <= j < |b.fields| && b.fields[j].key == fields[i].key &&
          SameUpToOrder(fields[i].value, b.fields[j].value)
    case _ => a == b
  }

  lemma {:induction false} CanonItemsAt(items: seq<Json>, i: nat)
    requires i < |items|
    ensures CanonItems(items)[i] == Canon(items[i])
  {
    if i > 0 {
      CanonItemsAt(items[1..], i - 1);
      assert items[1..][i - 1] == items[i];
    }
  }

  lemma {:induction false} CanonFieldsAt(fields: seq<Field>, i: nat)
    requires i < |fields|
    ensures CanonFields(fields)[i] == Field(fields[i].key, Canon(fields[i].value))
  {
    if i > 0 {
      CanonFieldsAt(fields[1..], i - 1);
      assert fields[1..][i - 1] == fields[i];
    }
  }

  lemma {:induction false} CanonFieldsDistinct(fields: seq<Field>)
    requires DistinctKeys(fields)
    ensures DistinctKeys(CanonFields(fields))
  {
    forall i, j | 0 <= i < j < |fields| ensures CanonFields(fields)[i].key != CanonFields(fields)[j].key {
      CanonFieldsAt(fields, i);
      CanonFieldsAt(fields, j);
    }
  }

  /** Canonical forms agree exactly when the trees agree up to key order. */
  lemma {:induction false} CanonIffSame(a: Json, b: Json)
    requires WellFormed(a) && WellFormed(b)
    ensures Canon(a) == Canon(b) <==> SameUpToOrder(a, b)
    decreases a
  {
    if a.Arr? && b.Arr? {
      if Canon(a) == Canon(b) {
        forall i | 0 <= i < |a.items| ensures SameUpToOrder(a.items[i], b.items[i]) {
          CanonItemsAt(a.items, i);
          CanonItemsAt(b.items, i);
          CanonIffSame(a.items[i], b.items[i]);
        }
      }
      if SameUpToOrder(a, b) {
        forall i | 0 <= i < |a.items| ensures CanonItems(a.items)[i] == CanonItems(b.items)[i] {
          CanonItemsAt(a.items, i);
          CanonItemsAt(b.items, i);
          CanonIffSame(a.items[i], b.items[i]);
        }
        assert CanonItems(a.items) == CanonItems(b.items);
      }
    } else if a.Obj? && b.Obj? {
      CanonFieldsDistinct(a.fields);
      CanonFieldsDistinct(b.fields);
      SortFieldsSorted(CanonFields(a.fields));
      SortFieldsSorted(CanonFields(b.fields));
      if Canon(a) == Canon(b) {
        CanonEqualFieldsMatch(a, b);
      }
      if SameUpToOrder(a, b) {
        SameFieldsCanonEqual(a, b);
      }
    }
  }

  lemma {:induction false} CanonEqualFieldsMatch(a: Json, b: Json)
    requires a.Obj? && b.Obj? && WellFormed(a) && WellFormed(b)
    requires Canon(a) == Canon(b)
    ensures SameUpToOrder(a, b)
    decreases a, 0
  {
    var ca, cb := CanonFields(a.fields), CanonFields(b.fields);
    CanonFieldsDistinct(a.fields);
    CanonFieldsDistinct(b.fields);
    SortFieldsSorted(ca);
    SortFieldsSorted(cb);
    forall i | 0 <= i < |a.fields|
      ensures exists j :: 0 <= j < |b.fields| && b.fields[j].key == a.fields[i].key &&
                SameUpToOrder(a.fields[i].value, b.fields[j].value)
    {
      CanonFieldsAt(a.fields, i);
      assert ca[i] in ca;
      assert ca[i] in SortFields(cb);
      var j :| 0 <= j < |cb| && cb[j] == ca[i];
      CanonFieldsAt(b.fields, j);
      CanonIffSame(a.fields[i].value, b.fields[j].value);
    }
  }

  lemma {:induction false} SameFieldsCanonEqual(a: Json, b: Json)
    requires a.Obj? && b.Obj? && WellFormed(a) && WellFormed(b)
    requires SameUpToOrder(a, b)
    ensures Canon(a) == Canon(b)
    decreases a, 0
  {
    var ca, cb := CanonFields(a.fields), CanonFields(b.fields);
    CanonFieldsDistinct(a.fields);
    CanonFieldsDistinct(b.fields);
    SortFieldsSorted(ca);
    SortFieldsSorted(cb);
    forall x | x in ca ensures x in cb {
      var i :| 0 <= i < |ca| && ca[i] == x;
      CanonFieldsAt(a.fields, i);
      var j :| 0 <= j < |b.fields| && b.fields[j].key == a.fields[i].key &&
        SameUpToOrder(a.fields[i].value, b.fields[j].value);
      CanonFieldsAt(b.fields, j);
      CanonIffSame(a.fields[i].value, b.fields[j].value);
      assert cb[j] == x;
    }
    SubsetSameLength(ca, cb);
    SortedUnique(SortFields(ca), SortFields(cb));
  }

  /** Equal length, no repeated key, one inclusion: the other inclusion follows. */
  lemma {:induction false} SubsetSameLength(a: seq<Field>, b: seq<Field>)
    requires DistinctKeys(a) && DistinctKeys(b) && |a| == |b|
    requires forall x :: x in a ==> x in b
    ensures forall x :: x in b ==> x in a
  {
    ElementCount(a);
    ElementCount(b);
    assert Elements(a) <= Elements(b);
    SubsetCard(Elements(a), Elements(b));
    assert forall x :: x in b ==> x in Elements(b);
  }

  ghost function Elements(a: seq<Field>): set<Field> {
    set x | x in a
  }

  lemma {:induction false} ElementCount(a: seq<Field>)
    requires DistinctKeys(a)
    ensures |Elements(a)| == |a|
  {
    if a == [] {
    } else {
      TailDistinct(a);
      ElementCount(a[1..]);
      assert a == [a[0]] + a[1..];
      assert Elements(a) == {a[0]} + Elements(a[1..]);
    }
  }

  lemma {:induction false} TailDistinct(a: seq<Field>)
    requires a != [] && DistinctKeys(a)
    ensures DistinctKeys(a[1..]) && a[0] !in a[1..]
  {
    assert forall i :: 0 <= i < |a[1..]| ==> a[1..][i] == a[i + 1];
  }

  lemma {:induction false} SubsetCard<T>(a: set<T>, b: set<T>)
    requires a <= b && |a| == |b|
    ensures a == b
  {
    assert b == a + (b - a);
    assert |b| == |a| + |b - a|;
  }

  /** The canonical form is a tree with the same meaning, well formed. */
  lemma {:induction false} CanonSame(v: Json)
    requires WellFormed(v)
    ensures WellFormed(Canon(v)) && SameUpToOrder(Canon(v), v)
  {
    match v
    case Arr(items) =>
      forall i | 0 <= i < |items|
        ensures WellFormed(CanonItems(items)[i]) && SameUpToOrder(CanonItems(items)[i], items[i])
      {
        CanonItemsAt(items, i);
        CanonSame(items[i]);
      }
    case Obj(fields) =>
      var cf := CanonFields(fields);
      var sorted := SortFields(cf);
      CanonFieldsDistinct(fields);
      SortFieldsSorted(cf);
      SortedDistinct(sorted);
      forall i | 0 <= i < |sorted|
        ensures WellFormed(sorted[i].value)
        ensures exists j :: 0 <= j < |fields| && fields[j].key == sorted[i].key &&
                  SameUpToOrder(sorted[i].value, fields[j].value)
      {
        assert sorted[i] in cf;
        var j :| 0 <= j < |cf| && cf[j] == sorted[i];
        CanonFieldsAt(fields, j);
        CanonSame(fields[j].value);
      }
    case _ =>
  }

  lemma {:induction false} CanonIdempotent(v: Json)
    requires WellFormed(v)
    ensures Canon(Canon(v)) == Canon(v)
  {
    CanonSame(v);
    CanonIffSame(Canon(v), v);
  }
}
