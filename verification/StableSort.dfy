/** `Array.prototype.sort` by a numeric key, which ECMAScript requires to be stable. */
module StableSort {
  import opened Sequences

  datatype Keyed<T> = Keyed(key: int, item: T)

  predicate Ordered<T>(s: seq<Keyed<T>>) {
    forall i, j | 0 <= i < j < |s| :: s[i].key <= s[j].key
  }

  /** Behind the last element that is not greater. */
  function Insert<T>(s: seq<Keyed<T>>, x: Keyed<T>): seq<Keyed<T>> {
    if s == [] || x.key < s[0].key then [x] + s else [s[0]] + Insert(s[1..], x)
  }

  function Sort<T>(s: seq<Keyed<T>>): seq<Keyed<T>> {
    if s == [] then [] else Insert(Sort(s[..|s| - 1]), s[|s| - 1])
  }

  function IfKey<T>(x: Keyed<T>, key: int): seq<Keyed<T>> {
    if x.key == key then [x] else []
  }

  /** The elements with this key, in order. */
  function WithKey<T>(s: seq<Keyed<T>>, key: int): seq<Keyed<T>> {
    if s == [] then [] else IfKey(s[0], key) + WithKey(s[1..], key)
  }

  lemma {:induction false} WithKeyCons<T>(x: Keyed<T>, s: seq<Keyed<T>>, key: int)
    ensures WithKey([x] + s, key) == IfKey(x, key) + WithKey(s, key)
  {
    assert ([x] + s)[1..] == s;
  }

  lemma {:induction false} WithKeySnoc<T>(s: seq<Keyed<T>>, x: Keyed<T>, key: int)
    ensures WithKey(s + [x], key) == WithKey(s, key) + IfKey(x, key)
  {
    if s == [] {
      WithKeyCons(x, [], key);
      assert [] + [x] == [x] + [];
      assert IfKey(x, key) + [] == [] + IfKey(x, key);
    } else {
      assert s + [x] == [s[0]] + (s[1..] + [x]);
      WithKeyCons(s[0], s[1..] + [x], key);
      WithKeySnoc(s[1..], x, key);
      Associate(IfKey(s[0], key), WithKey(s[1..], key), IfKey(x, key));
    }
  }

  lemma {:induction false} NoneWithKey<T>(s: seq<Keyed<T>>, key: int)
    requires forall k | 0 <= k < |s| :: s[k].key != key
    ensures WithKey(s, key) == []
  {
    if s != [] {
      NoneWithKey(s[1..], key);
    }
  }

  lemma {:induction false} InsertOrdered<T>(s: seq<Keyed<T>>, x: Keyed<T>)
    requires Ordered(s)
    ensures Ordered(Insert(s, x)) && multiset(Insert(s, x)) == multiset(s) + multiset{x}
  {
    if !(s == [] || x.key < s[0].key) {
      var rest := s[1..];
      assert s == [s[0]] + rest;
      InsertOrdered(rest, x);
      OrderedCons(s[0], rest, x, Insert(rest, x));
    }
  }

  lemma {:induction false} OrderedCons<T>(first: Keyed<T>, rest: seq<Keyed<T>>, x: Keyed<T>, r: seq<Keyed<T>>)
    requires Ordered(r) && multiset(r) == multiset(rest) + multiset{x}
    requires first.key <= x.key && forall k | 0 <= k < |rest| :: first.key <= rest[k].key
    ensures Ordered([first] + r)
  {
    forall k | 0 <= k < |r|
      ensures first.key <= r[k].key
    {
      assert r[k] in multiset(r);
      assert r[k] == x || r[k] in rest;
    }
  }

  lemma {:induction false} InsertWithKey<T>(s: seq<Keyed<T>>, x: Keyed<T>, key: int)
    requires Ordered(s)
    ensures WithKey(Insert(s, x), key) == WithKey(s, key) + IfKey(x, key)
  {
    if s == [] || x.key < s[0].key {
      WithKeyCons(x, s, key);
      if x.key == key {
        NoneWithKey(s, key);
      }
      assert IfKey(x, key) + [] == [] + IfKey(x, key);
    } else {
      WithKeyCons(s[0], Insert(s[1..], x), key);
      InsertWithKey(s[1..], x, key);
      Associate(IfKey(s[0], key), WithKey(s[1..], key), IfKey(x, key));
    }
  }

  /** Sorting gives an ordered permutation in which equal keys keep their order. */
  lemma {:induction false} SortSpec<T>(s: seq<Keyed<T>>, key: int)
    ensures Ordered(Sort(s)) && multiset(Sort(s)) == multiset(s) && |Sort(s)| == |s|
    ensures WithKey(Sort(s), key) == WithKey(s, key)
  {
    if s != [] {
      var init, x := s[..|s| - 1], s[|s| - 1];
      assert s == init + [x];
      SortSpec(init, key);
      InsertOrdered(Sort(init), x);
      InsertWithKey(Sort(init), x, key);
      WithKeySnoc(init, x, key);
      assert |Sort(s)| == |multiset(Sort(s))| == |multiset(s)|;
    }
  }

  lemma {:induction false} InSort<T>(s: seq<Keyed<T>>, x: Keyed<T>)
    ensures x in Sort(s) <==> x in s
  {
    SortSpec(s, 0);
    assert x in Sort(s) <==> x in multiset(Sort(s));
  }

  function Items<T>(s: seq<Keyed<T>>): (r: seq<T>)
    ensures |r| == |s| && forall k | 0 <= k < |s| :: r[k] == s[k].item
  {
    if s == [] then [] else [s[0].item] + Items(s[1..])
  }

  lemma {:induction false} ItemsCons<T>(x: Keyed<T>, s: seq<Keyed<T>>)
    ensures Items([x] + s) == [x.item] + Items(s)
  {
    assert ([x] + s)[1..] == s;
  }

  lemma {:induction false} ItemsSnoc<T>(s: seq<Keyed<T>>, x: Keyed<T>)
    ensures Items(s + [x]) == Items(s) + [x.item]
  {
  }

  lemma {:induction false} ItemsInsert<T>(s: seq<Keyed<T>>, x: Keyed<T>)
    ensures multiset(Items(Insert(s, x))) == multiset(Items(s)) + multiset{x.item}
  {
    if s == [] || x.key < s[0].key {
      ItemsCons(x, s);
    } else {
      ItemsCons(s[0], Insert(s[1..], x));
      ItemsInsert(s[1..], x);
    }
  }

  lemma {:induction false} ItemsSort<T>(s: seq<Keyed<T>>)
    ensures multiset(Items(Sort(s))) == multiset(Items(s))
  {
    if s != [] {
      var init, x := s[..|s| - 1], s[|s| - 1];
      ItemsSort(init);
      ItemsInsert(Sort(init), x);
      ItemsSnoc(init, x);
      assert s == init + [x];
    }
  }
}
