/** Grouping a list of orders by a string key, the way the customers page
    (key: customer email) and the analytics page (key: calendar date) do it with
    a JavaScript `Map`, whose keys keep their first-insertion order.

    Every function is defined by peeling off the LAST order, so that a loop
    which has processed `s[..i]` and then handles `s[i]` matches one unfolding. */
module Grouping {
  import opened Orders

  /** No key occurs twice. */
  predicate NoDuplicates(ks: seq<string>)
  {
    forall i, j :: 0 <= i < j < |ks| ==> ks[i] != ks[j]
  }

  /** The distinct keys of `s`, in the order in which each first occurs. */
  function FirstKeys(s: seq<Order>, key: Order -> string): (ks: seq<string>)
    ensures |ks| <= |s|
  {
    if s == [] then []
    else
      var ks0 := FirstKeys(s[..|s| - 1], key);
      if key(s[|s| - 1]) in ks0 then ks0 else ks0 + [key(s[|s| - 1])]
  }

  /** Each key is listed once. */
  lemma {:induction false} FirstKeysDistinct(s: seq<Order>, key: Order -> string)
    ensures NoDuplicates(FirstKeys(s, key))
  {
    if s != [] {
      FirstKeysDistinct(s[..|s| - 1], key);
    }
  }

  /** A key is listed exactly when some order carries it. */
  lemma {:induction false} FirstKeysMember(s: seq<Order>, key: Order -> string, k: string)
    ensures k in FirstKeys(s, key) <==> exists i :: 0 <= i < |s| && key(s[i]) == k
  {
    if s != [] {
      var p := s[..|s| - 1];
      FirstKeysMember(p, key, k);
      assert forall i :: 0 <= i < |p| ==> p[i] == s[i];
      if k in FirstKeys(p, key) {
        var i :| 0 <= i < |p| && key(p[i]) == k;
        assert key(s[i]) == k;
      }
    }
  }

  /** The index of the first order whose key is `k`, or `|s|` when there is none. */
  function FirstIndex(s: seq<Order>, key: Order -> string, k: string): (p: nat)
    ensures p <= |s|
    ensures p < |s| ==> key(s[p]) == k
    ensures forall j :: 0 <= j < p ==> key(s[j]) != k
    ensures p == |s| <==> forall j :: 0 <= j < |s| ==> key(s[j]) != k
  {
    if s == [] then 0
    else
      var p0 := FirstIndex(s[..|s| - 1], key, k);
      if p0 < |s| - 1 then p0
      else if key(s[|s| - 1]) == k then |s| - 1
      else |s|
  }

  /** The keys are listed in order of first appearance: each key first occurs
      in `s`, and a key listed earlier first occurs earlier. */
  lemma {:induction false} FirstKeysOrder(s: seq<Order>, key: Order -> string)
    ensures forall i :: 0 <= i < |FirstKeys(s, key)| ==> FirstIndex(s, key, FirstKeys(s, key)[i]) < |s|
    ensures forall i, j :: 0 <= i < j < |FirstKeys(s, key)| ==>
      FirstIndex(s, key, FirstKeys(s, key)[i]) < FirstIndex(s, key, FirstKeys(s, key)[j])
  {
    if s != [] {
      var p := s[..|s| - 1];
      var ks0 := FirstKeys(p, key);
      var ks := FirstKeys(s, key);
      FirstKeysOrder(p, key);
      forall i | 0 <= i < |ks0|
        ensures FirstIndex(s, key, ks0[i]) == FirstIndex(p, key, ks0[i]) < |p|
      {
        assert FirstIndex(p, key, ks0[i]) < |p|;
      }
      if key(s[|s| - 1]) !in ks0 {
        var k := key(s[|s| - 1]);
        FirstKeysMember(p, key, k);
        assert FirstIndex(p, key, k) == |p|;
        assert ks == ks0 + [k];
        assert FirstIndex(s, key, ks[|ks0|]) == |p|;
        forall i | 0 <= i < |ks0| ensures ks[i] == ks0[i] { }
      } else {
        assert ks == ks0;
      }
    }
  }

  /** The sum of `amount` over the orders whose key is `k`. */
  function SumKey(s: seq<Order>, key: Order -> string, k: string, amount: Order -> int): int
  {
    if s == [] then 0
    else SumKey(s[..|s| - 1], key, k, amount) + (if key(s[|s| - 1]) == k then amount(s[|s| - 1]) else 0)
  }

  /** The sum of `amount` over all orders. */
  function Total(s: seq<Order>, amount: Order -> int): int
  {
    if s == [] then 0 else Total(s[..|s| - 1], amount) + amount(s[|s| - 1])
  }

  /** Every order weighs one: `SumKey` with `One` counts, `Total` with `One` is the length. */
  function One(o: Order): int { 1 }

  /** The sum over the keys `ks` of each key's `SumKey`. */
  function SumOverKeys(ks: seq<string>, s: seq<Order>, key: Order -> string, amount: Order -> int): int
  {
    if ks == [] then 0 else SumKey(s, key, ks[0], amount) + SumOverKeys(ks[1..], s, key, amount)
  }

  /** A key that no order carries sums to zero. */
  lemma {:induction false} SumKeyAbsent(s: seq<Order>, key: Order -> string, k: string, amount: Order -> int)
    requires forall i :: 0 <= i < |s| ==> key(s[i]) != k
    ensures SumKey(s, key, k, amount) == 0
  {
    if s != [] {
      SumKeyAbsent(s[..|s| - 1], key, k, amount);
    }
  }

  /** Appending one order adds its amount to the sum of exactly one key: the
      one it carries, if that key is listed (once) in `ks`. */
  lemma {:induction false} SumOverKeysAppend(ks: seq<string>, s: seq<Order>, o: Order, key: Order -> string, amount: Order -> int)
    requires NoDuplicates(ks)
    ensures SumOverKeys(ks, s + [o], key, amount)
         == SumOverKeys(ks, s, key, amount) + (if key(o) in ks then amount(o) else 0)
  {
    if ks != [] {
      assert (s + [o])[..|s + [o]| - 1] == s;
      assert NoDuplicates(ks[1..]);
      SumOverKeysAppend(ks[1..], s, o, key, amount);
      assert key(o) in ks <==> key(o) == ks[0] || key(o) in ks[1..];
      assert ks[0] !in ks[1..];
    }
  }

  /** Splitting the whole by key loses nothing: the per-key sums over the
      distinct keys add up to the sum over every order. */
  lemma {:induction false} SumOverFirstKeys(s: seq<Order>, key: Order -> string, amount: Order -> int)
    ensures SumOverKeys(FirstKeys(s, key), s, key, amount) == Total(s, amount)
  {
    if s != [] {
      var p, o := s[..|s| - 1], s[|s| - 1];
      assert s == p + [o];
      var ks0 := FirstKeys(p, key);
      SumOverFirstKeys(p, key, amount);
      FirstKeysDistinct(p, key);
      SumOverKeysAppend(ks0, p, o, key, amount);
      if key(o) !in ks0 {
        SumOverKeysSnoc(ks0, key(o), s, key, amount);
        FirstKeysMember(p, key, key(o));
        SumKeyAbsent(p, key, key(o), amount);
      }
    }
  }

  /** Summing over one more key adds that key's sum. */
  lemma {:induction false} SumOverKeysSnoc(ks: seq<string>, k: string, s: seq<Order>, key: Order -> string, amount: Order -> int)
    ensures SumOverKeys(ks + [k], s, key, amount) == SumOverKeys(ks, s, key, amount) + SumKey(s, key, k, amount)
  {
    if ks != [] {
      assert (ks + [k])[1..] == ks[1..] + [k];
      SumOverKeysSnoc(ks[1..], k, s, key, amount);
    }
  }

  /** The total of `One` over a list is its length. */
  lemma {:induction false} TotalOne(s: seq<Order>)
    ensures Total(s, One) == |s|
  {
    if s != [] {
      TotalOne(s[..|s| - 1]);
    }
  }
}
