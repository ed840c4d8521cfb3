/**
 * What toArray promises, proved about its specification ToArraySpec: when it
 * succeeds and when it fails, which failure it reports, and which object each
 * key ends up holding.
 */
module ToArrayProperties {
  import opened Wrappers
  import opened PhpValues
  import opened PhpArrays
  import opened ResultSet

  /** Every object from position `from` on gets a key. */
  ghost predicate KeysOk<O>(withKey: KeyStrategy<O>, data: seq<Row>, objects: seq<O>, from: nat)
    requires |data| == |objects|
  {
    forall j :: from <= j < |objects| ==> DeriveKey(withKey, data[j], j, objects[j]).Ok?
  }

  /** The key of the object at position `j`. */
  function KeyAt<O>(withKey: KeyStrategy<O>, data: seq<Row>, objects: seq<O>, j: nat): (r: string)
    requires |data| == |objects| && j < |objects|
    requires DeriveKey(withKey, data[j], j, objects[j]).Ok?
  {
    DeriveKey(withKey, data[j], j, objects[j]).value
  }

  /** No object after position `j` gets the same key as the one at `j`. */
  ghost predicate LastWithKey<O>(withKey: KeyStrategy<O>, data: seq<Row>, objects: seq<O>, j: nat)
    requires |data| == |objects| && j < |objects| && KeysOk(withKey, data, objects, j)
  {
    forall l :: j < l < |objects| ==> KeyAt(withKey, data, objects, l) != KeyAt(withKey, data, objects, j)
  }

  /** The loop from `i` on completes exactly when every remaining object gets a key. */
  lemma {:induction false} ToArrayFromOkIff<O>(withKey: KeyStrategy<O>, data: seq<Row>, objects: seq<O>, i: nat, built: PhpArray<O>)
    requires |data| == |objects| && i <= |objects|
    ensures ToArrayFrom(withKey, data, objects, i, built).Ok? <==> KeysOk(withKey, data, objects, i)
    decreases |objects| - i
  {
    if i < |objects| {
      match DeriveKey(withKey, data[i], i, objects[i])
      case Err(_) =>
      case Ok(key) =>
        ToArrayFromOkIff(withKey, data, objects, i + 1, Assign(built, key, objects[i]));
        if KeysOk(withKey, data, objects, i + 1) {
          forall j | i <= j < |objects| ensures DeriveKey(withKey, data[j], j, objects[j]).Ok? {
            if j > i {
              assert DeriveKey(withKey, data[j], j, objects[j]).Ok?;
            }
          }
        }
    }
  }

  /** The loop from `i` on reports the failure of the first object, from `i` on, that gets no key. */
  lemma {:induction false} ToArrayFromFirstError<O>(withKey: KeyStrategy<O>, data: seq<Row>, objects: seq<O>, i: nat, built: PhpArray<O>, k: nat)
    requires |data| == |objects| && i <= k < |objects|
    requires DeriveKey(withKey, data[k], k, objects[k]).Err?
    requires forall j :: i <= j < k ==> DeriveKey(withKey, data[j], j, objects[j]).Ok?
    ensures ToArrayFrom(withKey, data, objects, i, built) == Err(DeriveKey(withKey, data[k], k, objects[k]).error)
    decreases k - i
  {
    if i < k {
      var key := DeriveKey(withKey, data[i], i, objects[i]).value;
      ToArrayFromFirstError(withKey, data, objects, i + 1, Assign(built, key, objects[i]), k);
    }
  }

  /** A failing loop from `i` on failed at some object that got no key, all before it having keys. */
  lemma {:induction false} ToArrayFromErrorWitness<O>(withKey: KeyStrategy<O>, data: seq<Row>, objects: seq<O>, i: nat, built: PhpArray<O>)
    returns (k: nat)
    requires |data| == |objects| && i <= |objects|
    requires ToArrayFrom(withKey, data, objects, i, built).Err?
    ensures i <= k < |objects|
    ensures forall j :: i <= j < k ==> DeriveKey(withKey, data[j], j, objects[j]).Ok?
    ensures DeriveKey(withKey, data[k], k, objects[k]) == Err(ToArrayFrom(withKey, data, objects, i, built).error)
    decreases |objects| - i
  {
    match DeriveKey(withKey, data[i], i, objects[i])
    case Err(_) =>
      k := i;
    case Ok(key) =>
      assert ToArrayFrom(withKey, data, objects, i, built) == ToArrayFrom(withKey, data, objects, i + 1, Assign(built, key, objects[i]));
      k := ToArrayFromErrorWitness(withKey, data, objects, i + 1, Assign(built, key, objects[i]));
  }

  /** The keys the objects from position `from` on get, in object order. */
  ghost function KeysFrom<O>(withKey: KeyStrategy<O>, data: seq<Row>, objects: seq<O>, from: nat): (r: seq<string>)
    requires |data| == |objects| && from <= |objects| && KeysOk(withKey, data, objects, from)
  {
    seq(|objects| - from, t requires 0 <= t < |objects| - from => KeyAt(withKey, data, objects, from + t))
  }

  /** The keys from `i` on are the key at `i` followed by the keys after it. */
  lemma KeysFromStep<O>(withKey: KeyStrategy<O>, data: seq<Row>, objects: seq<O>, i: nat)
    requires |data| == |objects| && i < |objects| && KeysOk(withKey, data, objects, i)
    ensures KeysFrom(withKey, data, objects, i) != []
    ensures KeysFrom(withKey, data, objects, i)[0] == KeyAt(withKey, data, objects, i)
    ensures KeysFrom(withKey, data, objects, i)[1..] == KeysFrom(withKey, data, objects, i + 1)
  {
    var ks, rest := KeysFrom(withKey, data, objects, i), KeysFrom(withKey, data, objects, i + 1);
    assert |ks[1..]| == |rest|;
    forall t | 0 <= t < |rest| ensures ks[1..][t] == rest[t] {
      assert ks[1..][t] == ks[t + 1] == KeyAt(withKey, data, objects, i + 1 + t);
    }
  }

  /** The keys the objects from position `from` on get, as a set: the entries of `KeysFrom`. */
  ghost function KeySet<O>(withKey: KeyStrategy<O>, data: seq<Row>, objects: seq<O>, from: nat): (r: set<string>)
    requires |data| == |objects| && from <= |objects| && KeysOk(withKey, data, objects, from)
  {
    set k | k in KeysFrom(withKey, data, objects, from)
  }

  /** The keys from `i` on are the key at `i` and the keys after it. */
  lemma KeySetStep<O>(withKey: KeyStrategy<O>, data: seq<Row>, objects: seq<O>, i: nat)
    requires |data| == |objects| && i < |objects| && KeysOk(withKey, data, objects, i)
    ensures KeySet(withKey, data, objects, i) == {KeyAt(withKey, data, objects, i)} + KeySet(withKey, data, objects, i + 1)
  {
    var ks := KeysFrom(withKey, data, objects, i);
    KeysFromStep(withKey, data, objects, i);
    assert ks == [ks[0]] + ks[1..];
  }

  /** The key set is the set of the objects' keys, position by position. */
  lemma KeySetByPosition<O>(withKey: KeyStrategy<O>, data: seq<Row>, objects: seq<O>, from: nat)
    requires |data| == |objects| && from <= |objects| && KeysOk(withKey, data, objects, from)
    ensures KeySet(withKey, data, objects, from) == set j | from <= j < |objects| :: KeyAt(withKey, data, objects, j)
  {
    var ks := KeysFrom(withKey, data, objects, from);
    forall k | k in ks ensures exists j :: from <= j < |objects| && KeyAt(withKey, data, objects, j) == k {
      var t :| 0 <= t < |ks| && ks[t] == k;
      assert KeyAt(withKey, data, objects, from + t) == k;
    }
    forall j | from <= j < |objects| ensures KeyAt(withKey, data, objects, j) in ks {
      assert ks[j - from] == KeyAt(withKey, data, objects, j);
    }
  }

  /** A completed loop from `i` on holds the keys it started with plus every derived key. */
  lemma {:induction false} ToArrayFromKeys<O>(withKey: KeyStrategy<O>, data: seq<Row>, objects: seq<O>, i: nat, built: PhpArray<O>)
    requires |data| == |objects| && i <= |objects|
    requires KeysOk(withKey, data, objects, i)
    ensures ToArrayFrom(withKey, data, objects, i, built).Ok?
    ensures ToArrayFrom(withKey, data, objects, i, built).value.values.Keys == built.values.Keys + KeySet(withKey, data, objects, i)
    decreases |objects| - i
  {
    if i < |objects| {
      var key := KeyAt(withKey, data, objects, i);
      var next := Assign(built, key, objects[i]);
      ToArrayFromKeys(withKey, data, objects, i + 1, next);
      KeySetStep(withKey, data, objects, i);
      assert next.values.Keys == built.values.Keys + {key};
    } else {
      assert KeysFrom(withKey, data, objects, i) == [];
    }
  }

  /** A starting key that no object from `i` on gets keeps its entry. */
  lemma {:induction false} ToArrayFromKeeps<O>(withKey: KeyStrategy<O>, data: seq<Row>, objects: seq<O>, i: nat, built: PhpArray<O>, key: string)
    requires |data| == |objects| && i <= |objects|
    requires KeysOk(withKey, data, objects, i)
    requires key in built.values
    requires forall j :: i <= j < |objects| ==> KeyAt(withKey, data, objects, j) != key
    ensures ToArrayFrom(withKey, data, objects, i, built).Ok?
    ensures key in ToArrayFrom(withKey, data, objects, i, built).value.values
    ensures ToArrayFrom(withKey, data, objects, i, built).value.values[key] == built.values[key]
    decreases |objects| - i
  {
    if i < |objects| {
      var k := KeyAt(withKey, data, objects, i);
      ToArrayFromKeeps(withKey, data, objects, i + 1, Assign(built, k, objects[i]), key);
    }
  }

  /** A completed loop from `i` on files under each derived key the last object that got it. */
  lemma {:induction false} ToArrayFromLastWins<O>(withKey: KeyStrategy<O>, data: seq<Row>, objects: seq<O>, i: nat, built: PhpArray<O>, j: nat)
    requires |data| == |objects| && i <= j < |objects|
    requires KeysOk(withKey, data, objects, i)
    requires LastWithKey(withKey, data, objects, j)
    ensures ToArrayFrom(withKey, data, objects, i, built).Ok?
    ensures KeyAt(withKey, data, objects, j) in ToArrayFrom(withKey, data, objects, i, built).value.values
    ensures ToArrayFrom(withKey, data, objects, i, built).value.values[KeyAt(withKey, data, objects, j)] == objects[j]
    decreases |objects| - i
  {
    var k := KeyAt(withKey, data, objects, i);
    if i == j {
      ToArrayFromKeeps(withKey, data, objects, i + 1, Assign(built, k, objects[i]), k);
    } else {
      ToArrayFromLastWins(withKey, data, objects, i + 1, Assign(built, k, objects[i]), j);
    }
  }

  /** toArray succeeds exactly when every object gets a key. */
  lemma ToArraySucceedsIff<O>(withKey: KeyStrategy<O>, data: seq<Row>, objects: seq<O>)
    requires |data| == |objects|
    ensures ToArraySpec(withKey, data, objects).Ok? <==>
              forall j :: 0 <= j < |objects| ==> DeriveKey(withKey, data[j], j, objects[j]).Ok?
  {
    ToArrayFromOkIff(withKey, data, objects, 0, PhpArray([], map[]));
  }

  /** toArray stops at the first object that gets no key and reports that object's failure. */
  lemma ToArrayFailsAtFirstBadKey<O>(withKey: KeyStrategy<O>, data: seq<Row>, objects: seq<O>, k: nat)
    requires |data| == |objects| && k < |objects|
    requires DeriveKey(withKey, data[k], k, objects[k]).Err?
    requires forall j :: 0 <= j < k ==> DeriveKey(withKey, data[j], j, objects[j]).Ok?
    ensures ToArraySpec(withKey, data, objects) == Err(DeriveKey(withKey, data[k], k, objects[k]).error)
  {
    ToArrayFromFirstError(withKey, data, objects, 0, PhpArray([], map[]), k);
  }

  /**
   * Every failure of toArray is one of two: the named field is missing from a
   * row, or a derived key casts to the empty string (null, false or "").
   */
  lemma ToArrayFailureCauses<O>(withKey: KeyStrategy<O>, data: seq<Row>, objects: seq<O>)
    requires |data| == |objects|
    requires ToArraySpec(withKey, data, objects).Err?
    ensures var e := ToArraySpec(withKey, data, objects).error;
      (e.MissingKeyField? && withKey.FieldKey? && e.field == withKey.name &&
        exists k :: 0 <= k < |data| && withKey.name !in data[k]) ||
      (e == EmptyKey(KeyLabel(withKey)) &&
        exists k :: 0 <= k < |data| && KeyValue(withKey, data[k], k, objects[k]).Ok? &&
          KeyValue(withKey, data[k], k, objects[k]).value in {Null, Bool(false), Str("")})
  {
    var k := ToArrayFromErrorWitness(withKey, data, objects, 0, PhpArray([], map[]));
    var v := KeyValue(withKey, data[k], k, objects[k]);
    if v.Ok? {
      assert ToString(v.value) == "";
    }
  }

  /**
   * Keyed by a field, toArray fails with "does not exist" when the first row
   * that yields no key lacks the field.
   */
  lemma ToArrayMissingField<O>(name: string, data: seq<Row>, objects: seq<O>, k: nat)
    requires |data| == |objects| && k < |data|
    requires name !in data[k]
    requires forall j :: 0 <= j < k ==> name in data[j] && ToString(data[j][name]) != ""
    ensures ToArraySpec(FieldKey(name), data, objects) == Err(MissingKeyField(name))
  {
    forall j | 0 <= j < k ensures DeriveKey(FieldKey(name), data[j], j, objects[j]).Ok? {
      assert KeyValue(FieldKey(name), data[j], j, objects[j]) == Ok(data[j][name]);
    }
    ToArrayFailsAtFirstBadKey(FieldKey(name), data, objects, k);
  }

  /**
   * Whatever the strategy, a callback included, toArray fails with "is empty"
   * when the first object that yields no key has a key value that casts to "".
   */
  lemma ToArrayEmptyKey<O>(withKey: KeyStrategy<O>, data: seq<Row>, objects: seq<O>, k: nat)
    requires |data| == |objects| && k < |data|
    requires KeyValue(withKey, data[k], k, objects[k]).Ok?
    requires ToString(KeyValue(withKey, data[k], k, objects[k]).value) == ""
    requires forall j :: 0 <= j < k ==> DeriveKey(withKey, data[j], j, objects[j]).Ok?
    ensures ToArraySpec(withKey, data, objects) == Err(EmptyKey(KeyLabel(withKey)))
  {
    ToArrayFailsAtFirstBadKey(withKey, data, objects, k);
  }

  /**
   * When every object gets a key, toArray holds exactly the derived keys, and
   * each key holds the last object that got it (later writes win).
   */
  lemma ToArrayLastWriteWins<O>(withKey: KeyStrategy<O>, data: seq<Row>, objects: seq<O>)
    requires |data| == |objects|
    requires KeysOk(withKey, data, objects, 0)
    ensures ToArraySpec(withKey, data, objects).Ok?
    ensures ToArraySpec(withKey, data, objects).value.values.Keys ==
              set j | 0 <= j < |objects| :: KeyAt(withKey, data, objects, j)
    ensures forall j :: 0 <= j < |objects| && LastWithKey(withKey, data, objects, j) ==>
              ToArraySpec(withKey, data, objects).value.values[KeyAt(withKey, data, objects, j)] == objects[j]
  {
    ToArrayFromKeys(withKey, data, objects, 0, PhpArray([], map[]));
    KeySetByPosition(withKey, data, objects, 0);
    forall j | 0 <= j < |objects| && LastWithKey(withKey, data, objects, j)
      ensures ToArraySpec(withKey, data, objects).value.values[KeyAt(withKey, data, objects, j)] == objects[j]
    {
      ToArrayFromLastWins(withKey, data, objects, 0, PhpArray([], map[]), j);
    }
  }

  /**
   * A completed loop from `i` on leaves the entries it started with where they
   * were and adds each new key where it is first assigned.
   */
  lemma {:induction false} ToArrayFromOrder<O>(withKey: KeyStrategy<O>, data: seq<Row>, objects: seq<O>, i: nat, built: PhpArray<O>)
    requires |data| == |objects| && i <= |objects|
    requires KeysOk(withKey, data, objects, i) && WellFormed(built)
    ensures ToArrayFrom(withKey, data, objects, i, built).Ok?
    ensures ToArrayFrom(withKey, data, objects, i, built).value.keys == AppendFirst(built.keys, KeysFrom(withKey, data, objects, i))
    ensures WellFormed(ToArrayFrom(withKey, data, objects, i, built).value)
    decreases |objects| - i
  {
    var ks := KeysFrom(withKey, data, objects, i);
    if i < |objects| {
      var k := KeyAt(withKey, data, objects, i);
      var next := Assign(built, k, objects[i]);
      assert ToArrayFrom(withKey, data, objects, i, built) == ToArrayFrom(withKey, data, objects, i + 1, next);
      KeysFromStep(withKey, data, objects, i);
      AssignAppendsFirst(built, objects[i], ks);
      ToArrayFromOrder(withKey, data, objects, i + 1, next);
    } else {
      assert ks == [];
    }
  }

  /**
   * When every object gets a key, toArray's entries are the derived keys, each
   * once, in the order of the first object that got each: a key overwritten
   * by a later object keeps the place of its first assignment.
   */
  lemma ToArrayEntryOrder<O>(withKey: KeyStrategy<O>, data: seq<Row>, objects: seq<O>)
    requires |data| == |objects|
    requires KeysOk(withKey, data, objects, 0)
    ensures ToArraySpec(withKey, data, objects).Ok?
    ensures var a := ToArraySpec(withKey, data, objects).value;
      WellFormed(a) &&
      a.keys == AppendFirst([], KeysFrom(withKey, data, objects, 0)) &&
      (forall c :: 0 <= c < |a.keys| ==> a.keys[c] in KeysFrom(withKey, data, objects, 0)) &&
      (forall p, q :: 0 <= p < q < |a.keys| ==>
        FirstIndex(KeysFrom(withKey, data, objects, 0), a.keys[p]) <
        FirstIndex(KeysFrom(withKey, data, objects, 0), a.keys[q]))
  {
    ToArrayFromOrder(withKey, data, objects, 0, PhpArray([], map[]));
    AppendFirstOrder([], KeysFrom(withKey, data, objects, 0));
  }

  /** The decimal forms of the positions 0 .. n-1, in order. */
  ghost function PositionKeys(n: nat): (r: seq<string>)
  {
    seq(n, j requires 0 <= j < n => NatToDecimal(j))
  }

  /** The decimal forms of the positions 0 .. n-1, as a set: the entries of `PositionKeys`. */
  ghost function Positions(n: nat): (r: set<string>)
  {
    set k | k in PositionKeys(n)
  }

  /**
   * Without a strategy the object at `j` gets the decimal form of `j`: a named
   * corollary of `DeriveKey`'s postcondition, for the positional lemmas below.
   */
  lemma PositionalKey<O>(data: seq<Row>, objects: seq<O>, j: nat)
    requires |data| == |objects| && j < |objects|
    ensures DeriveKey(NoKey, data[j], j, objects[j]) == Ok(NatToDecimal(j))
  {
  }

  /** Without a strategy every position gets a key no later position shares. */
  lemma PositionalKeysDistinct<O>(data: seq<Row>, objects: seq<O>, j: nat)
    requires |data| == |objects| && j < |objects|
    requires KeysOk(NoKey, data, objects, j)
    ensures LastWithKey(NoKey, data, objects, j)
  {
    forall l | j < l < |objects| ensures KeyAt(NoKey, data, objects, l) != KeyAt(NoKey, data, objects, j) {
      PositionalKey(data, objects, l);
      PositionalKey(data, objects, j);
      if NatToDecimal(l) == NatToDecimal(j) {
        NatToDecimalInjective(l, j);
      }
    }
  }

  /** Without a strategy the keys, in object order, are the positions' decimal forms, all different. */
  lemma PositionalKeysInOrder<O>(data: seq<Row>, objects: seq<O>)
    requires |data| == |objects|
    requires KeysOk(NoKey, data, objects, 0)
    ensures KeysFrom(NoKey, data, objects, 0) == PositionKeys(|objects|)
    ensures Distinct(PositionKeys(|objects|))
  {
    var ks := KeysFrom(NoKey, data, objects, 0);
    var ps := PositionKeys(|objects|);
    forall j | 0 <= j < |objects| ensures ks[j] == ps[j] {
      PositionalKey(data, objects, j);
    }
    forall a, b | 0 <= a < b < |ps| ensures ps[a] != ps[b] {
      if ps[a] == ps[b] {
        NatToDecimalInjective(a, b);
      }
    }
  }

  /** Without a strategy the entries, when every key is derived, are the positions in order. */
  lemma PositionalEntryOrder<O>(data: seq<Row>, objects: seq<O>)
    requires |data| == |objects|
    requires KeysOk(NoKey, data, objects, 0)
    ensures ToArraySpec(NoKey, data, objects).Ok?
    ensures ToArraySpec(NoKey, data, objects).value.keys == PositionKeys(|objects|)
  {
    ToArrayEntryOrder(NoKey, data, objects);
    PositionalKeysInOrder(data, objects);
    AppendFirstOfDistinct([], PositionKeys(|objects|));
    assert [] + PositionKeys(|objects|) == PositionKeys(|objects|);
  }

  /**
   * Without a strategy toArray never fails and its entries are "0" .. "n-1",
   * in that order, holding the objects in order.
   */
  lemma ToArrayPositional<O>(data: seq<Row>, objects: seq<O>)
    requires |data| == |objects|
    ensures ToArraySpec(NoKey, data, objects).Ok?
    ensures ToArraySpec(NoKey, data, objects).value.keys == PositionKeys(|objects|)
    ensures ToArraySpec(NoKey, data, objects).value.values.Keys == Positions(|objects|)
    ensures forall j :: 0 <= j < |objects| ==>
              NatToDecimal(j) in ToArraySpec(NoKey, data, objects).value.values &&
              ToArraySpec(NoKey, data, objects).value.values[NatToDecimal(j)] == objects[j]
  {
    var w: KeyStrategy<O> := NoKey;
    assert KeysOk(w, data, objects, 0) by {
      forall j | 0 <= j < |objects| ensures DeriveKey(w, data[j], j, objects[j]).Ok? {
        PositionalKey(data, objects, j);
      }
    }
    PositionalEntryOrder(data, objects);
    ToArrayFromKeys(w, data, objects, 0, PhpArray([], map[]));
    var m := ToArraySpec(w, data, objects).value.values;
    PositionalKeysInOrder(data, objects);
    forall j | 0 <= j < |objects| ensures NatToDecimal(j) in m {
      assert PositionKeys(|objects|)[j] == NatToDecimal(j);
    }
    forall j | 0 <= j < |objects| ensures m[NatToDecimal(j)] == objects[j] {
      PositionalKey(data, objects, j);
      PositionalKeysDistinct(data, objects, j);
      ToArrayFromLastWins(w, data, objects, 0, PhpArray([], map[]), j);
    }
  }

  /**
   * Keyed by a field present and non-empty in every row, toArray holds
   * exactly the fields' string forms, each holding the last object whose row
   * has it.
   */
  lemma ToArrayByField<O>(name: string, data: seq<Row>, objects: seq<O>)
    requires |data| == |objects|
    requires forall j :: 0 <= j < |data| ==> name in data[j] && ToString(data[j][name]) != ""
    ensures ToArraySpec(FieldKey(name), data, objects).Ok?
    ensures ToArraySpec(FieldKey(name), data, objects).value.values.Keys ==
              set j | 0 <= j < |data| :: ToString(data[j][name])
    ensures forall j :: 0 <= j < |data| && (forall l :: j < l < |data| ==> ToString(data[l][name]) != ToString(data[j][name])) ==>
              ToArraySpec(FieldKey(name), data, objects).value.values[ToString(data[j][name])] == objects[j]
  {
    var w: KeyStrategy<O> := FieldKey(name);
    forall j | 0 <= j < |data| ensures DeriveKey(w, data[j], j, objects[j]) == Ok(ToString(data[j][name])) {
      assert KeyValue(w, data[j], j, objects[j]) == Ok(data[j][name]);
    }
    ToArrayLastWriteWins(w, data, objects);
    assert (set j | 0 <= j < |objects| :: KeyAt(w, data, objects, j)) == set j | 0 <= j < |data| :: ToString(data[j][name]);
  }

  /**
   * Keyed by a callback whose value casts to a non-empty string for every
   * object, toArray holds exactly those strings, each holding the last object
   * that produced it.
   */
  lemma ToArrayByCallback<O>(f: O -> Value, data: seq<Row>, objects: seq<O>)
    requires |data| == |objects|
    requires forall j :: 0 <= j < |objects| ==> ToString(f(objects[j])) != ""
    ensures ToArraySpec(FnKey(f), data, objects).Ok?
    ensures ToArraySpec(FnKey(f), data, objects).value.values.Keys ==
              set j | 0 <= j < |objects| :: ToString(f(objects[j]))
    ensures forall j :: 0 <= j < |objects| && (forall l :: j < l < |objects| ==> ToString(f(objects[l])) != ToString(f(objects[j]))) ==>
              ToArraySpec(FnKey(f), data, objects).value.values[ToString(f(objects[j]))] == objects[j]
  {
    var w: KeyStrategy<O> := FnKey(f);
    forall j | 0 <= j < |objects| ensures DeriveKey(w, data[j], j, objects[j]) == Ok(ToString(f(objects[j]))) {
    }
    ToArrayLastWriteWins(w, data, objects);
    assert (set j | 0 <= j < |objects| :: KeyAt(w, data, objects, j)) == set j | 0 <= j < |objects| :: ToString(f(objects[j]));
  }
}
