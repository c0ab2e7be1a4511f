/**
 * The PHP and libphutil array functions the JIRA publisher is built from
 * (array_filter, array_unique, mpull, array_select_keys, mgroup), stated over
 * Dafny sequences. A PHP list is a `seq`; a PHP array with keys is an
 * `OrderedMap`, a sequence of key/value pairs whose keys are distinct and whose
 * order is the array's iteration order.
 */
module PhpArrays {
  import opened Wrappers

  /** PHP truthiness of a string: "" and "0" are falsy (a null PHID reads as ""). */
  predicate Truthy(s: string) {
    s != "" && s != "0"
  }

  /** array_filter($s, $f) read in iteration order: the elements `f` keeps, in order. */
  function Filter<T(!new)>(f: T -> bool, s: seq<T>): (r: seq<T>)
    ensures |r| <= |s|
    ensures forall x :: x in r <==> x in s && f(x)
  {
    if s == [] then []
    else
      var n := |s| - 1;
      assert s == s[..n] + [s[n]];
      Filter(f, s[..n]) + (if f(s[n]) then [s[n]] else [])
  }

  /** Filtering one more element extends the filtered list by it when `f` keeps it. */
  lemma FilterSnoc<T(!new)>(f: T -> bool, s: seq<T>, x: T)
    ensures f(x) ==> Filter(f, s + [x]) == Filter(f, s) + [x]
    ensures !f(x) ==> Filter(f, s + [x]) == Filter(f, s)
  {
    assert (s + [x])[..|s|] == s;
  }

  /** Filtering a concatenation filters each part: the relative order of the parts survives. */
  lemma {:induction false} FilterAppend<T(!new)>(f: T -> bool, a: seq<T>, b: seq<T>)
    ensures Filter(f, a + b) == Filter(f, a) + Filter(f, b)
  {
    if b == [] {
      assert a + b == a;
    } else {
      var n := |b| - 1;
      var init, last := b[..n], b[n];
      assert b == init + [last];
      assert a + b == (a + init) + [last];
      FilterAppend(f, a, init);
      FilterSnoc(f, a + init, last);
      FilterSnoc(f, init, last);
      if f(last) {
        assert Filter(f, a) + (Filter(f, init) + [last]) == (Filter(f, a) + Filter(f, init)) + [last];
      }
    }
  }

  /** A filter that keeps every element is the identity. */
  lemma {:induction false} FilterKeepsAll<T(!new)>(f: T -> bool, s: seq<T>)
    requires forall x :: x in s ==> f(x)
    ensures Filter(f, s) == s
  {
    if s != [] {
      var n := |s| - 1;
      assert s == s[..n] + [s[n]];
      FilterKeepsAll(f, s[..n]);
    }
  }

  predicate NoDuplicates<T(==,!new)>(s: seq<T>) {
    forall i, j :: 0 <= i < j < |s| ==> s[i] != s[j]
  }

  /** The position of the first occurrence of `x` in `s`. */
  function FirstIndex<T(==,!new)>(s: seq<T>, x: T): (i: nat)
    requires x in s
    ensures i < |s| && s[i] == x && x !in s[..i]
  {
    var n := |s| - 1;
    if x in s[..n] then
      var i := FirstIndex(s[..n], x);
      assert s[..n][..i] == s[..i];
      i
    else
      assert s == s[..n] + [s[n]];
      n
  }

  /**
   * array_unique($s): each value once, at the place where it first occurs.
   * The three properties below determine the result: no repeats, the same
   * values as `s`, and ordered by first occurrence in `s`.
   */
  function ArrayUnique<T(==,!new)>(s: seq<T>): (r: seq<T>)
    ensures NoDuplicates(r)
    ensures forall x :: x in r <==> x in s
    ensures forall i, j :: 0 <= i < j < |r| ==> FirstIndex(s, r[i]) < FirstIndex(s, r[j])
  {
    if s == [] then []
    else
      var n := |s| - 1;
      assert s == s[..n] + [s[n]];
      var p := ArrayUnique(s[..n]);
      assert forall x :: x in s[..n] ==> FirstIndex(s, x) == FirstIndex(s[..n], x);
      if s[n] in s[..n] then p else p + [s[n]]
  }

  /** Appending a value leaves the first occurrence of every earlier value where it was. */
  lemma FirstIndexSnoc<T(!new)>(s: seq<T>, e: T, x: T)
    requires x in s
    ensures FirstIndex(s + [e], x) == FirstIndex(s, x)
  {
    var t := s + [e];
    assert t[..|t| - 1] == s;
    assert t[..|t| - 1][..FirstIndex(s, x)] == t[..FirstIndex(s, x)];
  }

  /** An appended new value first occurs at the end. */
  lemma FirstIndexLast<T(!new)>(s: seq<T>, e: T)
    requires e !in s
    ensures FirstIndex(s + [e], e) == |s|
  {
    var t := s + [e];
    assert t[..|t| - 1] == s;
    assert e !in t[..|t| - 1];
  }

  /**
   * Filtering keeps the first-occurrence order of the values it keeps: a value
   * that first occurs earlier in the filtered list first occurs earlier in the
   * original.
   */
  lemma {:induction false} FilterKeepsFirstOrder<T(!new)>(f: T -> bool, s: seq<T>, x: T, y: T)
    requires x in Filter(f, s) && y in Filter(f, s)
    requires FirstIndex(Filter(f, s), x) < FirstIndex(Filter(f, s), y)
    ensures FirstIndex(s, x) < FirstIndex(s, y)
  {
    var n := |s| - 1;
    var init, last := s[..n], s[n];
    assert s == init + [last];
    if x in Filter(f, init) && y in Filter(f, init) {
      FilterOrderBefore(f, init, last, x, y);
      FilterKeepsFirstOrder(f, init, x, y);
      FirstIndexSnoc(init, last, x);
      FirstIndexSnoc(init, last, y);
    } else {
      FilterOrderLast(f, init, last, x, y);
    }
  }

  /** Two values kept before `last` keep their order when `last` is dropped. */
  lemma FilterOrderBefore<T(!new)>(f: T -> bool, init: seq<T>, last: T, x: T, y: T)
    requires x in Filter(f, init) && y in Filter(f, init)
    requires FirstIndex(Filter(f, init + [last]), x) < FirstIndex(Filter(f, init + [last]), y)
    ensures FirstIndex(Filter(f, init), x) < FirstIndex(Filter(f, init), y)
  {
    var fi := Filter(f, init);
    FilterSnoc(f, init, last);
    if f(last) {
      FirstIndexSnoc(fi, last, x);
      FirstIndexSnoc(fi, last, y);
    }
  }

  /** When one of the two values is only kept as `last`, it is the later one, in both lists. */
  lemma FilterOrderLast<T(!new)>(f: T -> bool, init: seq<T>, last: T, x: T, y: T)
    requires x in Filter(f, init + [last]) && y in Filter(f, init + [last])
    requires FirstIndex(Filter(f, init + [last]), x) < FirstIndex(Filter(f, init + [last]), y)
    requires !(x in Filter(f, init) && y in Filter(f, init))
    ensures FirstIndex(init + [last], x) < FirstIndex(init + [last], y)
  {
    var fi := Filter(f, init);
    FilterSnoc(f, init, last);
    if x in fi {
      assert y == last && y !in init;
      FirstIndexLast(init, last);
      FirstIndexSnoc(init, last, x);
    } else {
      FirstIndexLast(fi, last);
      assert false;
    }
  }

  /** array_map($key, $s) for a key function: the key of every element, in order. */
  function Project<K(!new), V(!new)>(key: V -> K, s: seq<V>): (r: seq<K>)
    ensures |r| == |s|
    ensures forall i :: 0 <= i < |s| ==> r[i] == key(s[i])
  {
    if s == [] then [] else Project(key, s[..|s| - 1]) + [key(s[|s| - 1])]
  }

  /* ---------------------------------------------------------------------- */
  /* PHP arrays with keys                                                    */

  type OrderedMap<K, V> = seq<(K, V)>

  function Keys<K, V>(m: OrderedMap<K, V>): (ks: seq<K>)
    ensures |ks| == |m|
    ensures forall i :: 0 <= i < |m| ==> ks[i] == m[i].0
  {
    if m == [] then [] else [m[0].0] + Keys(m[1..])
  }

  function Values<K, V>(m: OrderedMap<K, V>): (vs: seq<V>)
    ensures |vs| == |m|
    ensures forall i :: 0 <= i < |m| ==> vs[i] == m[i].1
  {
    if m == [] then [] else [m[0].1] + Values(m[1..])
  }

  /** `$m[$k]`, or None when `$k` is not a key. */
  function Lookup<K(==,!new), V(!new)>(m: OrderedMap<K, V>, k: K): (r: Option<V>)
    ensures r.Some? <==> k in Keys(m)
  {
    if m == [] then None
    else if m[0].0 == k then Some(m[0].1)
    else Lookup(m[1..], k)
  }

  /**
   * `$m[$k] = $v`: an existing key keeps its position and takes the new value;
   * a new key goes last.
   */
  function Put<K(==,!new), V(!new)>(m: OrderedMap<K, V>, k: K, v: V): (r: OrderedMap<K, V>)
    ensures Keys(r) == if k in Keys(m) then Keys(m) else Keys(m) + [k]
    ensures forall k' :: Lookup(r, k') == if k' == k then Some(v) else Lookup(m, k')
  {
    if m == [] then [(k, v)]
    else if m[0].0 == k then [(k, v)] + m[1..]
    else [m[0]] + Put(m[1..], k, v)
  }

  /** In an array with distinct keys, looking up the key at position `i` gives the value there. */
  lemma {:induction false} LookupAt<K(!new), V(!new)>(m: OrderedMap<K, V>, i: nat)
    requires NoDuplicates(Keys(m))
    requires i < |m|
    ensures Lookup(m, m[i].0) == Some(m[i].1)
  {
    if i > 0 {
      assert Keys(m)[0] != Keys(m)[i];
      assert Keys(m[1..]) == Keys(m)[1..];
      LookupAt(m[1..], i - 1);
    }
  }

  /* ---------------------------------------------------------------------- */
  /* mpull, array_select_keys, mgroup                                        */

  /** The last element of `s` whose key is `k`. */
  function LastWithKey<K(==,!new), V(!new)>(key: V -> K, s: seq<V>, k: K): Option<V>
  {
    if s == [] then None
    else if key(s[|s| - 1]) == k then Some(s[|s| - 1])
    else LastWithKey(key, s[..|s| - 1], k)
  }

  lemma {:induction false} LastWithKeyFound<K(!new), V(!new)>(key: V -> K, s: seq<V>, k: K)
    ensures LastWithKey(key, s, k).Some? <==> k in Project(key, s)
    ensures LastWithKey(key, s, k).Some? ==>
              LastWithKey(key, s, k).value in s && key(LastWithKey(key, s, k).value) == k
  {
    if s != [] {
      var n := |s| - 1;
      assert s == s[..n] + [s[n]];
      assert Project(key, s) == Project(key, s[..n]) + [key(s[n])];
      LastWithKeyFound(key, s[..n], k);
    }
  }

  /** mpull($s, null, $key): the elements of `s` indexed by their key. */
  function MPull<K(==,!new), V(!new)>(key: V -> K, s: seq<V>): OrderedMap<K, V>
  {
    if s == [] then []
    else Put(MPull(key, s[..|s| - 1]), key(s[|s| - 1]), s[|s| - 1])
  }

  /**
   * mpull keys the array by first occurrence and, when several elements share
   * a key, keeps the last of them.
   */
  lemma {:induction false} MPullSpec<K(!new), V(!new)>(key: V -> K, s: seq<V>)
    ensures Keys(MPull(key, s)) == ArrayUnique(Project(key, s))
    ensures forall k :: Lookup(MPull(key, s), k) == LastWithKey(key, s, k)
  {
    if s != [] {
      var n := |s| - 1;
      MPullSpec(key, s[..n]);
      var ks := Project(key, s);
      assert ks[..n] == Project(key, s[..n]);
    }
  }

  /** array_select_keys($d, $ks): the entries of `d` whose keys are in `ks`, in `ks` order. */
  function ArraySelectKeys<K(==,!new), V(!new)>(d: OrderedMap<K, V>, ks: seq<K>): OrderedMap<K, V>
  {
    if ks == [] then []
    else
      var r := ArraySelectKeys(d, ks[..|ks| - 1]);
      match Lookup(d, ks[|ks| - 1])
      case None => r
      case Some(v) => Put(r, ks[|ks| - 1], v)
  }

  /**
   * array_select_keys keeps exactly the keys of `ks` that `d` has, each once,
   * in the order of their first occurrence in `ks`.
   */
  lemma {:induction false} ArraySelectKeysOrder<K(!new), V(!new)>(d: OrderedMap<K, V>, ks: seq<K>)
    ensures NoDuplicates(Keys(ArraySelectKeys(d, ks)))
    ensures forall k :: k in Keys(ArraySelectKeys(d, ks)) <==> k in ks && k in Keys(d)
    ensures forall i, j :: 0 <= i < j < |Keys(ArraySelectKeys(d, ks))| ==>
              FirstIndex(ks, Keys(ArraySelectKeys(d, ks))[i]) < FirstIndex(ks, Keys(ArraySelectKeys(d, ks))[j])
  {
    if ks != [] {
      var n := |ks| - 1;
      var init, last := ks[..n], ks[n];
      assert ks == init + [last];
      ArraySelectKeysOrder(d, init);
      var p := ArraySelectKeys(d, init);
      var kp := Keys(p);
      var kr := Keys(ArraySelectKeys(d, ks));
      if last in init || last !in Keys(d) {
        assert kr == kp;
        forall i | 0 <= i < |kr| ensures FirstIndex(ks, kr[i]) == FirstIndex(init, kr[i]) {
          assert kr[i] in init;
        }
      } else {
        assert kr == kp + [last];
        assert FirstIndex(ks, last) == n;
        forall i | 0 <= i < |kp| ensures FirstIndex(ks, kr[i]) == FirstIndex(init, kr[i]) < n {
          assert kr[i] == kp[i] && kp[i] in init;
        }
      }
    }
  }

  /** array_select_keys takes each value it keeps from `d`. */
  lemma {:induction false} ArraySelectKeysValues<K(!new), V(!new)>(d: OrderedMap<K, V>, ks: seq<K>)
    ensures forall k :: k in ks ==> Lookup(ArraySelectKeys(d, ks), k) == Lookup(d, k)
  {
    if ks != [] {
      var n := |ks| - 1;
      var init, last := ks[..n], ks[n];
      assert ks == init + [last];
      ArraySelectKeysValues(d, init);
      ArraySelectKeysOrder(d, init);
    }
  }

  /** The elements of `s` whose key is `k`, in order. */
  function WithKey<K(==,!new), V(!new)>(key: V -> K, s: seq<V>, k: K): (r: seq<V>)
    ensures forall v :: v in r <==> v in s && key(v) == k
  {
    if s == [] then []
    else
      var n := |s| - 1;
      assert s == s[..n] + [s[n]];
      WithKey(key, s[..n], k) + (if key(s[n]) == k then [s[n]] else [])
  }

  lemma WithAbsentKey<K(!new), V(!new)>(key: V -> K, s: seq<V>, k: K)
    requires k !in Project(key, s)
    ensures WithKey(key, s, k) == []
  {
  }

  /** mgroup($s, $key): the elements of `s` grouped by key, groups in first-occurrence order. */
  function MGroup<K(==,!new), V(!new)>(key: V -> K, s: seq<V>): OrderedMap<K, seq<V>>
  {
    if s == [] then []
    else
      var g := MGroup(key, s[..|s| - 1]);
      var k := key(s[|s| - 1]);
      Put(g, k, Lookup(g, k).GetOr([]) + [s[|s| - 1]])
  }

  /** mgroup has one group per distinct key, in first-occurrence order. */
  lemma {:induction false} MGroupKeys<K(!new), V(!new)>(key: V -> K, s: seq<V>)
    ensures Keys(MGroup(key, s)) == ArrayUnique(Project(key, s))
  {
    if s != [] {
      var n := |s| - 1;
      MGroupKeys(key, s[..n]);
      var ks := Project(key, s);
      assert ks[..n] == Project(key, s[..n]);
    }
  }

  /** The group of a key holds exactly the elements with that key, in their order. */
  lemma {:induction false} MGroupValues<K(!new), V(!new)>(key: V -> K, s: seq<V>)
    ensures forall k :: k in Project(key, s) ==> Lookup(MGroup(key, s), k) == Some(WithKey(key, s, k))
  {
    if s != [] {
      var n := |s| - 1;
      var init, last := s[..n], s[n];
      assert s == init + [last];
      MGroupValues(key, init);
      MGroupKeys(key, init);
      var g := MGroup(key, init);
      var ks := Project(key, s);
      assert ks[..n] == Project(key, init);
      assert ks == ks[..n] + [key(last)];
      forall k | k in ks
        ensures Lookup(MGroup(key, s), k) == Some(WithKey(key, s, k))
      {
        if k != key(last) {
          assert k in ks[..n];
          assert WithKey(key, s, k) == WithKey(key, init, k);
        } else if k in ks[..n] {
          assert WithKey(key, s, k) == WithKey(key, init, k) + [last];
        } else {
          assert Lookup(g, k) == None;
          WithAbsentKey(key, init, k);
          assert WithKey(key, s, k) == [last];
        }
      }
    }
  }

  /** array_unique leaves a list without repeats as it is. */
  lemma {:induction false} ArrayUniqueKeepsDistinct<T(!new)>(s: seq<T>)
    requires NoDuplicates(s)
    ensures ArrayUnique(s) == s
  {
    if s != [] {
      var n := |s| - 1;
      var init, last := s[..n], s[n];
      assert NoDuplicates(init) by {
        forall i, j | 0 <= i < j < |init| ensures init[i] != init[j] {
          assert init[i] == s[i] && init[j] == s[j];
        }
      }
      assert last !in init by {
        forall i | 0 <= i < |init| ensures init[i] != last {
          assert init[i] == s[i];
        }
      }
      ArrayUniqueKeepsDistinct(init);
      assert s == init + [last];
    }
  }
}
