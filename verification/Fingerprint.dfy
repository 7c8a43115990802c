/**
 The request fingerprint of the mutation engine. SHA-256 over generated JSON text is
 modelled as the injective pairing of the operation name with the canonical material.
 */
module Fingerprint {
  import opened Basics
  import opened Json

  datatype Digest = Digest(operation: string, material: Json)

  /** Hash#delete on a copy. */
  function RemoveKey(fs: seq<Field>, key: string): seq<Field> {
    if fs == [] then []
    else if fs[0].key == key then RemoveKey(fs[1..], key)
    else [fs[0]] + RemoveKey(fs[1..], key)
  }

  /** Hash#[]= on a copy: an existing key keeps its place, a new one goes last. */
  function SetKey(fs: seq<Field>, key: string, v: Json): seq<Field> {
    if fs == [] then [Field(key, v)]
    else if fs[0].key == key then [Field(key, v)] + fs[1..]
    else [fs[0]] + SetKey(fs[1..], key, v)
  }

  /** The mutation envelope of a payload, or no fields when there is none. */
  function Envelope(payload: seq<Field>): seq<Field> {
    match Get(payload, "mutation")
    case Some(Obj(fields)) => fields
    case _ => []
  }

  function Material(payload: seq<Field>): seq<Field> {
    SetKey(payload, "mutation", Obj(RemoveKey(Envelope(payload), "operation_id")))
  }

  /** fingerprint_for */
  function Of(operation: string, payload: seq<Field>): Digest {
    Digest(operation, Canon(Obj(Material(payload))))
  }

  // ---------- lookups through the edits ----------

  lemma {:induction false} GetRemove(fs: seq<Field>, key: string, k: string)
    ensures Get(RemoveKey(fs, key), k) == if k == key then None else Get(fs, k)
  {
    if fs == [] {
    } else {
      GetRemove(fs[1..], key, k);
    }
  }

  lemma {:induction false} GetSet(fs: seq<Field>, key: string, v: Json, k: string)
    ensures Get(SetKey(fs, key, v), k) == if k == key then Some(v) else Get(fs, k)
  {
    if fs == [] {
    } else {
      GetSet(fs[1..], key, v, k);
    }
  }

  lemma {:induction false} RemoveWellFormed(fs: seq<Field>, key: string)
    requires WellFormed(Obj(fs))
    ensures WellFormed(Obj(RemoveKey(fs, key)))
    ensures forall x :: x in RemoveKey(fs, key) ==> x in fs
  {
    if fs == [] {
    } else {
      TailDistinct(fs);
      assert fs == [fs[0]] + fs[1..];
      RemoveWellFormed(fs[1..], key);
      var rest := RemoveKey(fs[1..], key);
      if fs[0].key != key {
        ConsWellFormed(fs[0], rest, fs);
      }
    }
  }

  lemma {:induction false} ConsWellFormed(f: Field, rest: seq<Field>, fs: seq<Field>)
    requires WellFormed(Obj(fs)) && fs != [] && fs[0] == f && WellFormed(Obj(rest))
    requires forall x :: x in rest ==> x in fs[1..]
    ensures WellFormed(Obj([f] + rest))
  {
    forall i | 0 <= i < |rest| ensures rest[i].key != f.key {
      assert rest[i] in rest;
      var j :| 0 <= j < |fs[1..]| && fs[1..][j] == rest[i];
      assert fs[j + 1] == rest[i];
    }
    PairWellFormed(f, rest);
  }

  lemma {:induction false} PairWellFormed(f: Field, rest: seq<Field>)
    requires WellFormed(f.value) && WellFormed(Obj(rest))
    requires forall i :: 0 <= i < |rest| ==> rest[i].key != f.key
    ensures WellFormed(Obj([f] + rest))
  {
    var all := [f] + rest;
    forall i | 0 <= i < |all| ensures WellFormed(all[i].value) {
      if i > 0 { assert all[i] == rest[i - 1]; }
    }
  }

  lemma {:induction false} SetElements(fs: seq<Field>, key: string, v: Json)
    ensures forall x :: x in SetKey(fs, key, v) ==> x == Field(key, v) || x in fs
  {
    if fs != [] {
      assert fs == [fs[0]] + fs[1..];
      SetElements(fs[1..], key, v);
    }
  }

  lemma {:induction false} SetWellFormed(fs: seq<Field>, key: string, v: Json)
    requires WellFormed(Obj(fs)) && WellFormed(v)
    ensures WellFormed(Obj(SetKey(fs, key, v)))
  {
    if fs == [] {
      PairWellFormed(Field(key, v), []);
      assert [Field(key, v)] + [] == [Field(key, v)];
    } else {
      TailDistinct(fs);
      var tail := fs[1..];
      assert forall i :: 0 <= i < |tail| ==> tail[i] == fs[i + 1];
      if fs[0].key == key {
        PairWellFormed(Field(key, v), tail);
      } else {
        SetWellFormed(tail, key, v);
        SetElements(tail, key, v);
        var rest := SetKey(tail, key, v);
        forall i | 0 <= i < |rest| ensures rest[i].key != fs[0].key {
          assert rest[i] in rest;
          if rest[i] in tail {
            var j :| 0 <= j < |tail| && tail[j] == rest[i];
            assert fs[j + 1] == rest[i];
          }
        }
        PairWellFormed(fs[0], rest);
      }
    }
  }

  lemma {:induction false} MaterialWellFormed(payload: seq<Field>)
    requires WellFormed(Obj(payload))
    ensures WellFormed(Obj(Material(payload)))
  {
    EnvelopeWellFormed(payload);
    RemoveWellFormed(Envelope(payload), "operation_id");
    SetWellFormed(payload, "mutation", Obj(RemoveKey(Envelope(payload), "operation_id")));
  }

  lemma {:induction false} EnvelopeWellFormed(payload: seq<Field>)
    requires WellFormed(Obj(payload))
    ensures WellFormed(Obj(Envelope(payload)))
  {
    GetSound(payload, "mutation");
    if Get(payload, "mutation").Some? {
      var i :| 0 <= i < |payload| && payload[i] == Field("mutation", Get(payload, "mutation").value);
      assert WellFormed(payload[i].value);
    }
  }

  // ---------- agreement key by key ----------

  /** Both objects lack the key, or both hold the same value up to key order. */
  ghost predicate AgreeAt(a: seq<Field>, b: seq<Field>, key: string) {
    match (Get(a, key), Get(b, key))
    case (None, None) => true
    case (Some(x), Some(y)) => SameUpToOrder(x, y)
    case _ => false
  }

  lemma {:induction false} KeyCount(fs: seq<Field>)
    requires DistinctKeys(fs)
    ensures |Keys(fs)| == |fs|
  {
    if fs == [] {
    } else {
      TailDistinct(fs);
      KeyCount(fs[1..]);
      assert fs == [fs[0]] + fs[1..];
      assert forall i :: 0 <= i < |fs[1..]| ==> fs[1..][i] == fs[i + 1];
      assert Keys(fs) == {fs[0].key} + Keys(fs[1..]);
      assert fs[0].key !in Keys(fs[1..]);
    }
  }

  lemma {:induction false} KeysHas(fs: seq<Field>, key: string)
    ensures key in Keys(fs) <==> Get(fs, key).Some?
  {
    GetSound(fs, key);
    if HasKey(fs, key) {
      var i :| 0 <= i < |fs| && fs[i].key == key;
      assert fs[i] in fs;
    }
  }

  lemma {:induction false} SameIffAgree(a: seq<Field>, b: seq<Field>)
    requires WellFormed(Obj(a)) && WellFormed(Obj(b))
    ensures SameUpToOrder(Obj(a), Obj(b)) <==> forall k :: AgreeAt(a, b, k)
  {
    KeyCount(a);
    KeyCount(b);
    if SameUpToOrder(Obj(a), Obj(b)) {
      SameGivesAgree(a, b);
    }
    if forall k :: AgreeAt(a, b, k) {
      forall k ensures k in Keys(a) <==> k in Keys(b) {
        KeysHas(a, k);
        KeysHas(b, k);
        assert AgreeAt(a, b, k);
      }
      assert Keys(a) == Keys(b);
      forall i | 0 <= i < |a|
        ensures exists j :: 0 <= j < |b| && b[j].key == a[i].key && SameUpToOrder(a[i].value, b[j].value)
      {
        GetFinds(a, i);
        assert AgreeAt(a, b, a[i].key);
        GetSound(b, a[i].key);
        var j :| 0 <= j < |b| && b[j] == Field(a[i].key, Get(b, a[i].key).value);
      }
    }
  }

  lemma {:induction false} SameGivesAgree(a: seq<Field>, b: seq<Field>)
    requires WellFormed(Obj(a)) && WellFormed(Obj(b))
    requires SameUpToOrder(Obj(a), Obj(b))
    ensures forall k :: AgreeAt(a, b, k)
  {
    KeyCount(a);
    KeyCount(b);
    forall k | k in Keys(a) ensures k in Keys(b) && AgreeAt(a, b, k) {
      var i :| 0 <= i < |a| && a[i].key == k;
      var j :| 0 <= j < |b| && b[j].key == a[i].key && SameUpToOrder(a[i].value, b[j].value);
      GetFinds(a, i);
      GetFinds(b, j);
      assert b[j] in b;
    }
    SubsetCard(Keys(a), Keys(b));
    forall k ensures AgreeAt(a, b, k) {
      KeysHas(a, k);
      KeysHas(b, k);
    }
  }

  /** What the idempotency cache treats as the same request. */
  ghost predicate SameRequest(p: seq<Field>, q: seq<Field>) {
    && (forall k :: k != "mutation" ==> AgreeAt(p, q, k))
    && (forall k :: k != "operation_id" ==> AgreeAt(Envelope(p), Envelope(q), k))
  }

  /**
   Two requests share a fingerprint exactly when they name the same operation and
   agree on everything except operation_id, whatever the order of object keys.
   */
  lemma {:induction false} FingerprintIff(op: string, p: seq<Field>, op': string, q: seq<Field>)
    requires WellFormed(Obj(p)) && WellFormed(Obj(q))
    ensures Of(op, p) == Of(op', q) <==> op == op' && SameRequest(p, q)
  {
    MaterialWellFormed(p);
    MaterialWellFormed(q);
    CanonIffSame(Obj(Material(p)), Obj(Material(q)));
    SameIffAgree(Material(p), Material(q));
    MaterialAgree(p, q);
  }

  lemma {:induction false} MaterialAgree(p: seq<Field>, q: seq<Field>)
    requires WellFormed(Obj(p)) && WellFormed(Obj(q))
    ensures (forall k :: AgreeAt(Material(p), Material(q), k)) <==> SameRequest(p, q)
  {
    var ep := RemoveKey(Envelope(p), "operation_id");
    var eq := RemoveKey(Envelope(q), "operation_id");
    EnvelopeWellFormed(p);
    EnvelopeWellFormed(q);
    RemoveWellFormed(Envelope(p), "operation_id");
    RemoveWellFormed(Envelope(q), "operation_id");
    SameIffAgree(ep, eq);
    forall k ensures k != "mutation" ==> (AgreeAt(Material(p), Material(q), k) <==> AgreeAt(p, q, k)) {
      GetSet(p, "mutation", Obj(ep), k);
      GetSet(q, "mutation", Obj(eq), k);
    }
    GetSet(p, "mutation", Obj(ep), "mutation");
    GetSet(q, "mutation", Obj(eq), "mutation");
    assert AgreeAt(Material(p), Material(q), "mutation") <==> SameUpToOrder(Obj(ep), Obj(eq));
    forall k
      ensures AgreeAt(ep, eq, k) <==> (k == "operation_id" || AgreeAt(Envelope(p), Envelope(q), k))
    {
      GetRemove(Envelope(p), "operation_id", k);
      GetRemove(Envelope(q), "operation_id", k);
    }
  }

  /** Requests with one fingerprint carry the same expectations, so they go stale together. */
  lemma {:induction false} SameDigestSameExpectation(op: string, p: seq<Field>, op': string, q: seq<Field>, key: string)
    requires WellFormed(Obj(p)) && WellFormed(Obj(q))
    requires Of(op, p) == Of(op', q)
    requires key == "expected_revision" || key == "expected_model_guid" || key == "undo_label"
    requires match Get(Envelope(p), key) { case Some(Int(_)) => true case Some(Str(_)) => true case _ => false }
    ensures Get(Envelope(q), key) == Get(Envelope(p), key)
  {
    FingerprintIff(op, p, op', q);
    assert AgreeAt(Envelope(p), Envelope(q), key);
  }
}
