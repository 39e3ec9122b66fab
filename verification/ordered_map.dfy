/**
 * An insertion-ordered table of (key, value) pairs: the behaviour of a
 * Python `dict`. Reading a key finds its entry, assigning an existing key
 * overwrites its value where it stands, assigning a new key appends it, and
 * deleting a key removes its entry and keeps the order of the others.
 *
 * The operations carry light contracts; each property is a lemma of its own
 * with the keys it talks about as parameters, so that callers pay only for
 * the facts they use.
 */
module OrderedMap {
  import opened Wrappers

  type Table<K, V> = seq<(K, V)>

  /** The keys of a table, in insertion order. */
  function Keys<K, V>(t: Table<K, V>): (ks: seq<K>)
    ensures |ks| == |t|
    ensures forall i :: 0 <= i < |t| ==> ks[i] == t[i].0
  {
    if t == [] then [] else [t[0].0] + Keys(t[1..])
  }

  /** No key occurs twice. */
  predicate Distinct<K(==)>(ks: seq<K>) {
    forall i, j :: 0 <= i < j < |ks| ==> ks[i] != ks[j]
  }

  /** The invariant every Python dict keeps: each key has one entry. */
  predicate UniqueKeys<K(==), V>(t: Table<K, V>) {
    Distinct(Keys(t))
  }

  /** `ks` with every occurrence of `x` taken out, the rest in order. */
  function Without<K(==)>(ks: seq<K>, x: K): (r: seq<K>)
    ensures x !in r
    ensures |r| <= |ks|
  {
    if ks == [] then []
    else if ks[0] == x then Without(ks[1..], x)
    else [ks[0]] + Without(ks[1..], x)
  }

  /** `d[k]`: the value of `k`, or None when the key is absent. */
  function Get<K(==), V>(t: Table<K, V>, k: K): (r: Option<V>)
  {
    if t == [] then None
    else if t[0].0 == k then Some(t[0].1)
    else Get(t[1..], k)
  }

  /** `d[k] = v`: overwrite the value of `k` where it stands, or append `(k, v)` when `k` is new. */
  function Set<K(==), V>(t: Table<K, V>, k: K, v: V): (r: Table<K, V>)
  {
    if t == [] then [(k, v)]
    else if t[0].0 == k then [(k, v)] + t[1..]
    else [t[0]] + Set(t[1..], k, v)
  }

  /** `del d[k]`: the entry of `k` goes and the others keep their order. */
  function Delete<K(==), V>(t: Table<K, V>, k: K): (r: Table<K, V>)
  {
    if t == [] then []
    else if t[0].0 == k then Delete(t[1..], k)
    else [t[0]] + Delete(t[1..], k)
  }

  // ---- sequences of keys ----

  lemma KeysCons<K, V>(p: (K, V), t: Table<K, V>)
    ensures Keys([p] + t) == [p.0] + Keys(t)
  {
    assert ([p] + t)[1..] == t;
  }

  lemma DistinctCons<K>(x: K, ks: seq<K>)
    ensures Distinct([x] + ks) <==> x !in ks && Distinct(ks)
  {
    var s := [x] + ks;
    if x !in ks && Distinct(ks) {
      forall i, j | 0 <= i < j < |s| ensures s[i] != s[j] {
        if i == 0 { assert s[j] == ks[j - 1]; } else { assert s[i] == ks[i - 1] && s[j] == ks[j - 1]; }
      }
    }
    if Distinct(s) {
      forall i, j | 0 <= i < j < |ks| ensures ks[i] != ks[j] { assert ks[i] == s[i + 1] && ks[j] == s[j + 1]; }
      forall j | 0 <= j < |ks| ensures ks[j] != x { assert s[0] == x && s[j + 1] == ks[j]; }
    }
  }

  /** Taking `x` out keeps every other member. */
  lemma {:induction false} WithoutKeeps<K>(ks: seq<K>, x: K, y: K)
    requires y != x
    ensures y in Without(ks, x) <==> y in ks
  {
    if ks != [] {
      WithoutKeeps(ks[1..], x, y);
      assert ks == [ks[0]] + ks[1..];
    }
  }

  /** Taking out a member that is not there changes nothing. */
  lemma {:induction false} WithoutAbsent<K>(ks: seq<K>, x: K)
    requires x !in ks
    ensures Without(ks, x) == ks
  {
    if ks != [] {
      assert ks == [ks[0]] + ks[1..];
      WithoutAbsent(ks[1..], x);
    }
  }

  /** Taking a key out of a concatenation takes it out of each part. */
  lemma {:induction false} WithoutConcat<K>(a: seq<K>, b: seq<K>, x: K)
    ensures Without(a + b, x) == Without(a, x) + Without(b, x)
  {
    if a == [] {
      assert a + b == b;
    } else {
      assert (a + b)[1..] == a[1..] + b;
      WithoutConcat(a[1..], b, x);
    }
  }

  /** Taking a key out of distinct keys leaves them distinct. */
  lemma {:induction false} WithoutDistinct<K>(ks: seq<K>, x: K)
    requires Distinct(ks)
    ensures Distinct(Without(ks, x))
  {
    if ks != [] {
      assert ks == [ks[0]] + ks[1..];
      DistinctCons(ks[0], ks[1..]);
      WithoutDistinct(ks[1..], x);
      if ks[0] != x {
        if ks[0] in Without(ks[1..], x) {
          WithoutKeeps(ks[1..], x, ks[0]);
        }
        DistinctCons(ks[0], Without(ks[1..], x));
      }
    }
  }

  // ---- Get ----

  /** `d[k]` finds a value exactly when `k` is one of the keys. */
  lemma {:induction false} GetPresent<K, V>(t: Table<K, V>, k: K)
    ensures Get(t, k).Some? <==> k in Keys(t)
  {
    if t != [] {
      GetPresent(t[1..], k);
      assert Keys(t) == [t[0].0] + Keys(t[1..]);
    }
  }

  /** In a table with one entry per key, reading the key of entry `i` gives that entry's value. */
  lemma {:induction false} GetAt<K, V>(t: Table<K, V>, i: nat)
    requires UniqueKeys(t) && i < |t|
    ensures Get(t, t[i].0) == Some(t[i].1)
  {
    if i > 0 {
      assert Keys(t) == [t[0].0] + Keys(t[1..]);
      DistinctCons(t[0].0, Keys(t[1..]));
      assert Keys(t)[i] == t[i].0;
      assert t[i].0 != t[0].0;
      GetAt(t[1..], i - 1);
    }
  }

  // ---- Set ----

  /** After `d[k] = v`, `d[k]` is `v` and every other key reads as before. */
  lemma {:induction false} SetGet<K, V>(t: Table<K, V>, k: K, v: V, k': K)
    ensures Get(Set(t, k, v), k') == if k' == k then Some(v) else Get(t, k')
  {
    if t != [] && t[0].0 != k {
      assert ([t[0]] + Set(t[1..], k, v))[1..] == Set(t[1..], k, v);
      SetGet(t[1..], k, v, k');
    } else if t != [] {
      assert ([(k, v)] + t[1..])[1..] == t[1..];
    }
  }

  /** `d[k] = v` keeps the key order when `k` is present and appends `k` when it is new. */
  lemma {:induction false} SetKeys<K, V>(t: Table<K, V>, k: K, v: V)
    ensures Keys(Set(t, k, v)) == if k in Keys(t) then Keys(t) else Keys(t) + [k]
  {
    if t == [] {
    } else if t[0].0 == k {
      KeysCons((k, v), t[1..]);
    } else {
      KeysCons(t[0], Set(t[1..], k, v));
      SetKeys(t[1..], k, v);
      assert Keys(t) == [t[0].0] + Keys(t[1..]);
    }
  }

  /** `d[k] = v` keeps one entry per key. */
  lemma SetUnique<K, V>(t: Table<K, V>, k: K, v: V)
    requires UniqueKeys(t)
    ensures UniqueKeys(Set(t, k, v))
  {
    SetKeys(t, k, v);
    if k !in Keys(t) {
      DistinctSnoc(Keys(t), k);
    }
  }

  lemma DistinctSnoc<K>(ks: seq<K>, x: K)
    requires Distinct(ks) && x !in ks
    ensures Distinct(ks + [x])
  {
    var s := ks + [x];
    forall i, j | 0 <= i < j < |s| ensures s[i] != s[j] {
      if j == |ks| { assert s[i] == ks[i]; }
    }
  }

  // ---- Delete ----

  /** After `del d[k]`, `k` is absent and every other key reads as before. */
  lemma {:induction false} DeleteGet<K, V>(t: Table<K, V>, k: K, k': K)
    ensures Get(Delete(t, k), k') == if k' == k then None else Get(t, k')
  {
    if t != [] {
      DeleteGet(t[1..], k, k');
      if t[0].0 != k {
        assert ([t[0]] + Delete(t[1..], k))[1..] == Delete(t[1..], k);
      }
    }
  }

  /** `del d[k]` removes `k` from the key order and keeps the other keys in order. */
  lemma {:induction false} DeleteKeys<K, V>(t: Table<K, V>, k: K)
    ensures Keys(Delete(t, k)) == Without(Keys(t), k)
  {
    if t != [] {
      DeleteKeys(t[1..], k);
      assert Keys(t) == [t[0].0] + Keys(t[1..]);
      if t[0].0 != k {
        KeysCons(t[0], Delete(t[1..], k));
      }
    }
  }

  /** Deleting an absent key leaves the table as it was. */
  lemma {:induction false} DeleteAbsent<K, V>(t: Table<K, V>, k: K)
    requires k !in Keys(t)
    ensures Delete(t, k) == t
  {
    if t != [] {
      assert Keys(t) == [t[0].0] + Keys(t[1..]);
      DeleteAbsent(t[1..], k);
    }
  }

  /** `del d[k]` keeps one entry per key. */
  lemma DeleteUnique<K, V>(t: Table<K, V>, k: K)
    requires UniqueKeys(t)
    ensures UniqueKeys(Delete(t, k))
  {
    DeleteKeys(t, k);
    WithoutDistinct(Keys(t), k);
  }

  /** Two tables with one entry per key are equal when they agree on the key order and on every key's value. */
  lemma TableExtensionality<K(!new), V>(s: Table<K, V>, t: Table<K, V>)
    requires UniqueKeys(s) && UniqueKeys(t)
    requires Keys(s) == Keys(t)
    requires forall k :: Get(s, k) == Get(t, k)
    ensures s == t
  {
    forall i | 0 <= i < |s| ensures s[i] == t[i] {
      assert Keys(s)[i] == s[i].0 && Keys(t)[i] == t[i].0;
      GetAt(s, i);
      GetAt(t, i);
    }
  }
}
