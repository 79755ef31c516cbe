/** Frequency tables: the model of pandas `value_counts().to_dict()`, which maps each value
    that occurs in a column to the number of rows holding it. */
module Counting {

  /** Each value occurring in xs, with its number of occurrences. */
  function ValueCounts<K(==,!new)>(xs: seq<K>): (m: map<K, nat>)
    ensures forall k :: k in m <==> k in xs
    ensures forall k :: k in m ==> 0 < m[k] == multiset(xs)[k]
  {
    map k | k in xs :: multiset(xs)[k]
  }

  /** The total of the counts of m over the listed keys; a key m does not hold counts 0. */
  function SumOver<K(==)>(m: map<K, nat>, keys: seq<K>): nat
  {
    if keys == [] then 0
    else (if keys[0] in m then m[keys[0]] else 0) + SumOver(m, keys[1..])
  }

  /** The total multiplicity, in ms, of the listed keys. */
  function MultiplicitySum<K(==)>(ms: multiset<K>, keys: seq<K>): nat
  {
    if keys == [] then 0 else ms[keys[0]] + MultiplicitySum(ms, keys[1..])
  }

  predicate Distinct<K(==)>(keys: seq<K>)
  {
    forall i, j :: 0 <= i < j < |keys| ==> keys[i] != keys[j]
  }

  lemma {:induction false} SumOverIsMultiplicitySum<K(!new)>(xs: seq<K>, keys: seq<K>)
    ensures SumOver(ValueCounts(xs), keys) == MultiplicitySum(multiset(xs), keys)
  {
    if keys != [] {
      SumOverIsMultiplicitySum(xs, keys[1..]);
    }
  }

  lemma {:induction false} MultiplicitySumAdd<K>(ms: multiset<K>, x: K, keys: seq<K>)
    requires Distinct(keys)
    ensures MultiplicitySum(ms + multiset{x}, keys) == MultiplicitySum(ms, keys) + (if x in keys then 1 else 0)
  {
    if keys != [] {
      assert Distinct(keys[1..]) by {
        forall i, j | 0 <= i < j < |keys[1..]| ensures keys[1..][i] != keys[1..][j] {
          assert keys[1..][i] == keys[i + 1] && keys[1..][j] == keys[j + 1];
        }
      }
      MultiplicitySumAdd(ms, x, keys[1..]);
      if x == keys[0] {
        assert x !in keys[1..] by {
          forall j | 0 <= j < |keys[1..]| ensures keys[1..][j] != x {
            assert keys[1..][j] == keys[j + 1];
          }
        }
      } else {
        assert x in keys <==> x in keys[1..];
      }
    }
  }

  /** When every value of xs is among the distinct keys, the counts add up to the length of xs. */
  lemma {:induction false} CountsSumToLength<K(!new)>(xs: seq<K>, keys: seq<K>)
    requires Distinct(keys)
    requires forall i :: 0 <= i < |xs| ==> xs[i] in keys
    ensures SumOver(ValueCounts(xs), keys) == |xs|
  {
    SumOverIsMultiplicitySum(xs, keys);
    MultiplicitySumOfSeq(xs, keys);
  }

  lemma {:induction false} MultiplicitySumOfSeq<K>(xs: seq<K>, keys: seq<K>)
    requires Distinct(keys)
    requires forall i :: 0 <= i < |xs| ==> xs[i] in keys
    ensures MultiplicitySum(multiset(xs), keys) == |xs|
  {
    if xs == [] {
      MultiplicitySumEmpty(keys);
    } else {
      var init := xs[..|xs| - 1];
      var last := xs[|xs| - 1];
      assert xs == init + [last];
      assert multiset(xs) == multiset(init) + multiset{last};
      assert forall i :: 0 <= i < |init| ==> init[i] == xs[i];
      MultiplicitySumOfSeq(init, keys);
      MultiplicitySumAdd(multiset(init), last, keys);
    }
  }

  lemma {:induction false} MultiplicitySumEmpty<K>(keys: seq<K>)
    ensures MultiplicitySum(multiset{}, keys) == 0
  {
    if keys != [] {
      MultiplicitySumEmpty(keys[1..]);
    }
  }
}
