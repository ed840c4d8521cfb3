/**
 * PHP's ordered arrays with string keys: each key holds one value, and the
 * entries stand in the order in which their keys were first assigned.
 */
module PhpArrays {

  /** An ordered array: `keys` lists its keys in entry order, `values` gives each key's value. */
  datatype PhpArray<V> = PhpArray(keys: seq<string>, values: map<string, V>)

  /** No key occurs twice. */
  ghost predicate Distinct(s: seq<string>)
  {
    forall a, b :: 0 <= a < b < |s| ==> s[a] != s[b]
  }

  /** Every key has one entry, and the entries are exactly the keys with a value. */
  ghost predicate WellFormed<V>(a: PhpArray<V>)
  {
    Distinct(a.keys) && forall k :: k in a.values <==> k in a.keys
  }

  /**
   * `$array[$key] = $value`: a new key gets a new entry at the end; a key
   * already present keeps its entry and its place, and takes the new value.
   */
  function Assign<V>(a: PhpArray<V>, key: string, value: V): (r: PhpArray<V>)
    ensures r.values == a.values[key := value]
  {
    if key in a.values then PhpArray(a.keys, a.values[key := value])
    else PhpArray(a.keys + [key], a.values[key := value])
  }

  /**
   * On a well-formed array, assignment keeps it well formed, leaves the
   * entry order alone for a key already present and appends a new key.
   */
  lemma AssignKeepsWellFormed<V>(a: PhpArray<V>, key: string, value: V)
    requires WellFormed(a)
    ensures WellFormed(Assign(a, key, value))
    ensures key in a.keys ==> Assign(a, key, value).keys == a.keys
    ensures key !in a.keys ==> Assign(a, key, value).keys == a.keys + [key]
  {
  }

  /**
   * The entry order that assigning the keys `ks`, one after another, leaves
   * behind an array whose entries are `acc`: `acc`, then each key of `ks` not
   * seen before, in the order of its first appearance.
   */
  function AppendFirst(acc: seq<string>, ks: seq<string>): (r: seq<string>)
    decreases |ks|
  {
    if ks == [] then acc
    else AppendFirst(if ks[0] in acc then acc else acc + [ks[0]], ks[1..])
  }

  /**
   * Assigning the first key of `ks` to a well-formed array leaves the entry
   * order that `AppendFirst` predicts for that key, ready for the rest.
   */
  lemma AssignAppendsFirst<V>(a: PhpArray<V>, value: V, ks: seq<string>)
    requires WellFormed(a) && ks != []
    ensures WellFormed(Assign(a, ks[0], value))
    ensures AppendFirst(a.keys, ks) == AppendFirst(Assign(a, ks[0], value).keys, ks[1..])
  {
    AssignKeepsWellFormed(a, ks[0], value);
  }

  /** Assigning further keys never moves the entries already there. */
  lemma {:induction false} AppendFirstKeepsPrefix(acc: seq<string>, ks: seq<string>)
    ensures |acc| <= |AppendFirst(acc, ks)| && AppendFirst(acc, ks)[..|acc|] == acc
    decreases |ks|
  {
    if ks != [] {
      var next := if ks[0] in acc then acc else acc + [ks[0]];
      AppendFirstKeepsPrefix(next, ks[1..]);
      assert AppendFirst(acc, ks)[..|acc|] == AppendFirst(acc, ks)[..|next|][..|acc|];
    }
  }

  /** The entries are exactly the keys there were and the keys assigned. */
  lemma {:induction false} AppendFirstElements(acc: seq<string>, ks: seq<string>)
    ensures forall x :: x in AppendFirst(acc, ks) <==> x in acc || x in ks
    decreases |ks|
  {
    if ks != [] {
      var next := if ks[0] in acc then acc else acc + [ks[0]];
      AppendFirstElements(next, ks[1..]);
      assert ks == [ks[0]] + ks[1..];
    }
  }

  /** Assigning keys never creates a second entry for a key. */
  lemma {:induction false} AppendFirstDistinct(acc: seq<string>, ks: seq<string>)
    requires Distinct(acc)
    ensures Distinct(AppendFirst(acc, ks))
    decreases |ks|
  {
    if ks != [] {
      var next := if ks[0] in acc then acc else acc + [ks[0]];
      assert Distinct(next);
      AppendFirstDistinct(next, ks[1..]);
    }
  }

  /** The position of the first occurrence of `x` in `s`. */
  function FirstIndex(s: seq<string>, x: string): (p: nat)
    requires x in s
    ensures p < |s| && s[p] == x
    ensures forall q :: 0 <= q < p ==> s[q] != x
  {
    if s[0] == x then 0 else 1 + FirstIndex(s[1..], x)
  }

  /**
   * The entries added by assigning `ks` are keys of `ks`, none of them an
   * earlier entry, and they stand in the order of their first assignment.
   */
  lemma {:induction false} AppendFirstOrder(acc: seq<string>, ks: seq<string>)
    requires Distinct(acc)
    ensures forall c :: |acc| <= c < |AppendFirst(acc, ks)| ==>
              AppendFirst(acc, ks)[c] in ks && AppendFirst(acc, ks)[c] !in acc
    ensures forall a, b :: |acc| <= a < b < |AppendFirst(acc, ks)| ==>
              FirstIndex(ks, AppendFirst(acc, ks)[a]) < FirstIndex(ks, AppendFirst(acc, ks)[b])
    decreases |ks|
  {
    if ks != [] {
      var x, rest := ks[0], ks[1..];
      var next := if x in acc then acc else acc + [x];
      var r := AppendFirst(next, rest);
      assert Distinct(next);
      AppendFirstOrder(next, rest);
      AppendFirstKeepsPrefix(next, rest);
      forall c | |next| <= c < |r|
        ensures r[c] in rest && r[c] != x && FirstIndex(ks, r[c]) == 1 + FirstIndex(rest, r[c])
      {
        assert x in next;
        assert r[c] !in next;
      }
      forall c | |acc| <= c < |r|
        ensures r[c] in ks && r[c] !in acc
      {
        if c < |next| {
          assert r[c] == r[..|next|][c] == x;
        } else {
          assert r[c] in rest && acc <= next;
        }
      }
      forall a, b | |acc| <= a < b < |r|
        ensures FirstIndex(ks, r[a]) < FirstIndex(ks, r[b])
      {
        if a < |next| {
          assert r[a] == r[..|next|][a] == x;
        }
      }
    }
  }

  /** Assigning keys that are all new and all different appends them in order. */
  lemma {:induction false} AppendFirstOfDistinct(acc: seq<string>, ks: seq<string>)
    requires Distinct(acc + ks)
    ensures AppendFirst(acc, ks) == acc + ks
    decreases |ks|
  {
    if ks != [] {
      forall a | 0 <= a < |acc|
        ensures acc[a] != ks[0]
      {
        assert (acc + ks)[a] == acc[a] && (acc + ks)[|acc|] == ks[0];
      }
      assert acc + ks == (acc + [ks[0]]) + ks[1..];
      AppendFirstOfDistinct(acc + [ks[0]], ks[1..]);
    }
  }
}
