/** The total of a weight per key: what is left to do, summed over all processes. */
module Totals {
  ghost function TotalOf(weights: map<nat, nat>, keys: set<nat>): nat
    requires keys <= weights.Keys
  {
    if keys == {} then 0
    else
      var k :| k in keys;
      weights[k] + TotalOf(weights, keys - {k})
  }

  ghost function Total(weights: map<nat, nat>): nat { TotalOf(weights, weights.Keys) }

  lemma {:induction false} TotalSplits(weights: map<nat, nat>, keys: set<nat>, i: nat)
    requires keys <= weights.Keys && i in keys
    ensures TotalOf(weights, keys) == weights[i] + TotalOf(weights, keys - {i})
    decreases |keys|
  {
    var k :| k in keys && TotalOf(weights, keys) == weights[k] + TotalOf(weights, keys - {k});
    if k != i {
      TotalSplits(weights, keys - {k}, i);
      TotalSplits(weights, keys - {i}, k);
      assert keys - {k} - {i} == keys - {i} - {k};
    }
  }

  lemma {:induction false} TotalDependsOnKeys(weights: map<nat, nat>, others: map<nat, nat>, keys: set<nat>)
    requires keys <= weights.Keys && keys <= others.Keys && forall k :: k in keys ==> weights[k] == others[k]
    ensures TotalOf(weights, keys) == TotalOf(others, keys)
    decreases |keys|
  {
    if keys != {} {
      var k :| k in keys && TotalOf(weights, keys) == weights[k] + TotalOf(weights, keys - {k});
      TotalSplits(others, keys, k);
      TotalDependsOnKeys(weights, others, keys - {k});
    }
  }

  /** Changing one weight changes the total by as much. */
  lemma TotalPut(weights: map<nat, nat>, i: nat, weight: nat)
    requires i in weights
    ensures Total(weights[i := weight]) == Total(weights) - weights[i] + weight
  {
    var later := weights[i := weight];
    assert later.Keys == weights.Keys;
    TotalSplits(weights, weights.Keys, i);
    TotalSplits(later, weights.Keys, i);
    TotalDependsOnKeys(weights, later, weights.Keys - {i});
  }
}
