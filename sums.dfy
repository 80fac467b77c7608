/** Totals of amounts: over a sequence (a Python `for` accumulation or `sum`
    over a list), and over a set of names looked up in a dictionary
    (iterating a Python `set`, whose order does not matter for a sum). */
module Sums {

  function Sum(xs: seq<int>): int {
    if xs == [] then 0 else Sum(xs[..|xs| - 1]) + xs[|xs| - 1]
  }

  /** `flt(d.get(k))`: a missing key reads as 0. */
  function Get(m: map<string, int>, k: string): int {
    if k in m then m[k] else 0
  }

  /** The total of `m`'s amounts over the names in `s`, in no particular order. */
  ghost function SetSum(s: set<string>, m: map<string, int>): int
    decreases s
  {
    if s == {} then 0 else var k :| k in s; Get(m, k) + SetSum(s - {k}, m)
  }

  /** A set total does not depend on which name is taken first. */
  lemma SetSumRemove(s: set<string>, k: string, m: map<string, int>)
    requires k in s
    ensures SetSum(s, m) == Get(m, k) + SetSum(s - {k}, m)
    decreases s
  {
    var j :| j in s && SetSum(s, m) == Get(m, j) + SetSum(s - {j}, m);
    if j != k {
      SetSumRemove(s - {j}, k, m);
      SetSumRemove(s - {k}, j, m);
      assert s - {j} - {k} == s - {k} - {j};
    }
  }

  lemma {:induction false} SetSumCongruent(s: set<string>, m1: map<string, int>, m2: map<string, int>)
    requires forall k :: k in s ==> Get(m1, k) == Get(m2, k)
    ensures SetSum(s, m1) == SetSum(s, m2)
    decreases s
  {
    if s != {} {
      var k :| k in s;
      SetSumRemove(s, k, m1);
      SetSumRemove(s, k, m2);
      SetSumCongruent(s - {k}, m1, m2);
    }
  }

  /** Names the dictionary does not hold contribute nothing. */
  lemma {:induction false} SetSumKnownOnly(s: set<string>, m: map<string, int>)
    ensures SetSum(s, m) == SetSum(s * m.Keys, m)
    decreases s
  {
    if s != {} {
      var k :| k in s;
      SetSumRemove(s, k, m);
      SetSumKnownOnly(s - {k}, m);
      assert (s - {k}) * m.Keys == s * m.Keys - {k};
      if k in m {
        SetSumRemove(s * m.Keys, k, m);
      } else {
        assert (s - {k}) * m.Keys == s * m.Keys;
      }
    }
  }

  /** A (name, amount) pair, as in a dictionary built from rows. */
  datatype Entry = Entry(key: string, amount: int)

  function Keys(es: seq<Entry>): set<string> {
    if es == [] then {} else Keys(es[..|es| - 1]) + {es[|es| - 1].key}
  }

  predicate DistinctKeys(es: seq<Entry>) {
    forall i, j :: 0 <= i < j < |es| ==> es[i].key != es[j].key
  }

  lemma {:induction false} KeysIndex(es: seq<Entry>, k: string)
    requires k in Keys(es)
    ensures exists i :: 0 <= i < |es| && es[i].key == k
  {
    var init := es[..|es| - 1];
    if k != es[|es| - 1].key {
      KeysIndex(init, k);
      var i :| 0 <= i < |init| && init[i].key == k;
      assert es[i] == init[i];
    }
  }

  /** `{e.key: e.amount for e in es}`: the last entry for a key wins. */
  function MapOf(es: seq<Entry>): (m: map<string, int>)
    ensures m.Keys == Keys(es)
  {
    if es == [] then map[] else MapOf(es[..|es| - 1])[es[|es| - 1].key := es[|es| - 1].amount]
  }

  /** The amounts of the entries whose key is in `names`, each entry once. */
  function SumWhere(es: seq<Entry>, names: set<string>): int {
    if es == [] then 0
    else SumWhere(es[..|es| - 1], names) + (if es[|es| - 1].key in names then es[|es| - 1].amount else 0)
  }

  lemma {:induction false} SumWhereRelevant(es: seq<Entry>, a: set<string>, b: set<string>)
    requires a * Keys(es) == b * Keys(es)
    ensures SumWhere(es, a) == SumWhere(es, b)
  {
    if es != [] {
      var init := es[..|es| - 1];
      forall x | x in Keys(init) ensures x in a <==> x in b {
        assert x in Keys(es);
        assert (x in a * Keys(es)) == (x in b * Keys(es));
      }
      SumWhereRelevant(init, a, b);
      var k := es[|es| - 1].key;
      assert k in Keys(es);
      assert (k in a * Keys(es)) == (k in b * Keys(es));
    }
  }

  /** Summing the dictionary over a set of names counts each entry once:
      with distinct keys it is the sum over the entries whose key is in the set. */
  lemma {:induction false} SetSumOfDistinct(es: seq<Entry>, names: set<string>)
    requires DistinctKeys(es)
    ensures SetSum(names, MapOf(es)) == SumWhere(es, names)
  {
    SetSumKnownOnly(names, MapOf(es));
    SetSumOfDistinctKnown(es, names * Keys(es));
    SumWhereRelevant(es, names, names * Keys(es));
  }

  lemma {:induction false} SetSumOfDistinctKnown(es: seq<Entry>, names: set<string>)
    requires DistinctKeys(es)
    requires names <= Keys(es)
    ensures SetSum(names, MapOf(es)) == SumWhere(es, names)
  {
    if es == [] {
      assert names == {};
    } else {
      var init, e := es[..|es| - 1], es[|es| - 1];
      assert DistinctKeys(init);
      if e.key in Keys(init) {
        KeysIndex(init, e.key);
        assert false;
      }
      var rest := names - {e.key};
      SetSumOfDistinctKnown(init, rest);
      SetSumCongruent(rest, MapOf(init), MapOf(es));
      SumWhereRelevant(init, names, rest);
      if e.key in names {
        SetSumRemove(names, e.key, MapOf(es));
      } else {
        assert names == rest;
      }
    }
  }
}
