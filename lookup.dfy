/** The id-keyed dictionaries and list transforms the pages share: the
    `reduce((acc, x) => { acc[k] = v; return acc }, {})` that builds a
    lookup table, and the `filter`/`map` by id that delete and edit use. */
module Lookup {

  /** The dictionary left by writing `acc[k] = v` for each pair in order. */
  function Assoc<V>(kvs: seq<(int, V)>): map<int, V>
  {
    if kvs == [] then map[] else Assoc(kvs[..|kvs| - 1])[kvs[|kvs| - 1].0 := kvs[|kvs| - 1].1]
  }

  /** Each element paired with its key. */
  function Keyed<T>(xs: seq<T>, key: T -> int): (kvs: seq<(int, T)>)
    ensures |kvs| == |xs|
    ensures forall i :: 0 <= i < |xs| ==> kvs[i] == (key(xs[i]), xs[i])
  {
    seq(|xs|, i requires 0 <= i < |xs| => (key(xs[i]), xs[i]))
  }

  /** `xs.reduce((acc, x) => { acc[key(x)] = x; return acc }, {})`. */
  function IndexBy<T>(xs: seq<T>, key: T -> int): map<int, T>
  {
    Assoc(Keyed(xs, key))
  }

  /** A key is present exactly when some pair carries it, and it then maps
      to the value of the LAST such pair. */
  lemma {:induction false} AssocLastWins<V>(kvs: seq<(int, V)>, k: int)
    ensures k in Assoc(kvs) <==> exists i :: 0 <= i < |kvs| && kvs[i].0 == k
    ensures k in Assoc(kvs) ==>
      exists i :: 0 <= i < |kvs| && kvs[i].0 == k && Assoc(kvs)[k] == kvs[i].1 &&
                  forall j :: i < j < |kvs| ==> kvs[j].0 != k
  {
    if kvs != [] {
      var n := |kvs| - 1;
      var p := kvs[..n];
      AssocLastWins(p, k);
      if kvs[n].0 != k {
        assert Assoc(kvs) == Assoc(p)[kvs[n].0 := kvs[n].1];
        if k in Assoc(p) {
          var i :| 0 <= i < |p| && p[i].0 == k && Assoc(p)[k] == p[i].1 &&
                   forall j :: i < j < |p| ==> p[j].0 != k;
          assert kvs[i] == p[i];
          assert forall j :: i < j < |kvs| ==> kvs[j].0 != k by {
            forall j | i < j < |kvs| ensures kvs[j].0 != k {
              if j < n { assert kvs[j] == p[j]; }
            }
          }
        } else {
          forall i | 0 <= i < |kvs| ensures kvs[i].0 != k {
            if i < n { assert kvs[i] == p[i]; }
          }
        }
      }
    }
  }

  /** The lookup table of `xs` holds exactly the keys of its elements, each
      mapped to the last element carrying it (later duplicates overwrite). */
  lemma IndexByLastWins<T>(xs: seq<T>, key: T -> int, k: int)
    ensures k in IndexBy(xs, key) <==> exists i :: 0 <= i < |xs| && key(xs[i]) == k
    ensures k in IndexBy(xs, key) ==>
      exists i :: 0 <= i < |xs| && key(xs[i]) == k && IndexBy(xs, key)[k] == xs[i] &&
                  forall j :: i < j < |xs| ==> key(xs[j]) != k
  {
    var kvs := Keyed(xs, key);
    AssocLastWins(kvs, k);
    if k in IndexBy(xs, key) {
      var i :| 0 <= i < |kvs| && kvs[i].0 == k && Assoc(kvs)[k] == kvs[i].1 &&
               forall j :: i < j < |kvs| ==> kvs[j].0 != k;
      assert key(xs[i]) == k && IndexBy(xs, key)[k] == xs[i];
      assert forall j :: i < j < |xs| ==> key(xs[j]) != k by {
        forall j | i < j < |xs| ensures key(xs[j]) != k {
          assert kvs[j].0 == key(xs[j]);
        }
      }
    } else {
      forall i | 0 <= i < |xs| ensures key(xs[i]) != k {
        assert kvs[i].0 == key(xs[i]);
      }
    }
  }

  /** The `reduce` loop that fills the accumulator dictionary pair by pair. */
  method BuildMap<V>(kvs: seq<(int, V)>) returns (acc: map<int, V>)
    ensures acc == Assoc(kvs)
  {
    acc := map[];
    var i := 0;
    while i < |kvs|
      invariant 0 <= i <= |kvs|
      invariant acc == Assoc(kvs[..i])
    {
      assert kvs[..i + 1][..i] == kvs[..i];
      acc := acc[kvs[i].0 := kvs[i].1];
      i := i + 1;
    }
    assert kvs[..i] == kvs;
  }

  /** `xs.filter(x => key(x) !== k)`. */
  function RemoveKey<T>(xs: seq<T>, key: T -> int, k: int): (r: seq<T>)
    ensures forall i :: 0 <= i < |r| ==> r[i] in xs && key(r[i]) != k
    ensures forall i :: 0 <= i < |xs| && key(xs[i]) != k ==> xs[i] in r
    ensures |r| <= |xs|
  {
    if xs == [] then [] else (if key(xs[0]) == k then [] else [xs[0]]) + RemoveKey(xs[1..], key, k)
  }

  /** Filtering distributes over concatenation, so the kept elements stay in
      their original order. */
  lemma {:induction false} RemoveKeyAppend<T>(a: seq<T>, b: seq<T>, key: T -> int, k: int)
    ensures RemoveKey(a + b, key, k) == RemoveKey(a, key, k) + RemoveKey(b, key, k)
  {
    if a != [] {
      assert (a + b)[0] == a[0];
      assert (a + b)[1..] == a[1..] + b;
      RemoveKeyAppend(a[1..], b, key, k);
    } else {
      assert a + b == b;
    }
  }

  /** Removing a key that no element carries changes nothing. */
  lemma {:induction false} RemoveKeyAbsent<T>(xs: seq<T>, key: T -> int, k: int)
    requires forall i :: 0 <= i < |xs| ==> key(xs[i]) != k
    ensures RemoveKey(xs, key, k) == xs
  {
    if xs != [] {
      RemoveKeyAbsent(xs[1..], key, k);
    }
  }

  /** `xs.map(x => key(x) === k ? y : x)`. */
  function ReplaceKey<T>(xs: seq<T>, key: T -> int, k: int, y: T): seq<T>
  {
    seq(|xs|, i requires 0 <= i < |xs| => if key(xs[i]) == k then y else xs[i])
  }

  /** When the replacement keeps the key, replacing leaves every element with
      another key exactly where it was: removing the key afterwards gives
      the same list as removing it before. */
  lemma {:induction false} ReplaceKeyKeepsOthers<T>(xs: seq<T>, key: T -> int, k: int, y: T)
    requires key(y) == k
    ensures RemoveKey(ReplaceKey(xs, key, k, y), key, k) == RemoveKey(xs, key, k)
  {
    if xs != [] {
      var r := ReplaceKey(xs, key, k, y);
      assert r[1..] == ReplaceKey(xs[1..], key, k, y);
      ReplaceKeyKeepsOthers(xs[1..], key, k, y);
    }
  }

  /** When the replacement keeps the key, the list keeps its length and the
      position of every element with that key; every element with the key
      is then the replacement, which is present exactly when the key was. */
  lemma ReplaceKeyReplaces<T>(xs: seq<T>, key: T -> int, k: int, y: T)
    requires key(y) == k
    ensures |ReplaceKey(xs, key, k, y)| == |xs|
    ensures forall i :: 0 <= i < |xs| ==> (key(ReplaceKey(xs, key, k, y)[i]) == k <==> key(xs[i]) == k)
    ensures forall x :: x in ReplaceKey(xs, key, k, y) && key(x) == k ==> x == y
    ensures y in ReplaceKey(xs, key, k, y) <==> exists i :: 0 <= i < |xs| && key(xs[i]) == k
  {
    var r := ReplaceKey(xs, key, k, y);
    if exists i :: 0 <= i < |xs| && key(xs[i]) == k {
      var i :| 0 <= i < |xs| && key(xs[i]) == k;
      assert r[i] == y;
    }
    if y in r {
      var i :| 0 <= i < |r| && r[i] == y;
      assert key(xs[i]) == k;
    }
  }
}
