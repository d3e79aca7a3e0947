/**
  The one-level differ `_find_differences`: for every key in the union of
  both dicts' keys whose two lookups (missing keys read as `None`) are not
  equal under Python's `==`, an entry recording both sides. Nested values
  are compared whole, not diffed further.
*/
module Differ {
  import opened Json

  /** `{"env1": ..., "env2": ...}`: the two sides of one difference. */
  datatype DiffEntry = DiffEntry(env1: Json, env2: Json)

  type DiffMap = map<string, DiffEntry>

  /** Reference definition of the differ, key by key. */
  function Differences(a: ConfigValue, b: ConfigValue): DiffMap {
    map k | k in a.Keys + b.Keys && !PyEq(Get(a, k), Get(b, k)) :: DiffEntry(Get(a, k), Get(b, k))
  }

  /**
    `_find_differences` as written: a loop over the key union that fills a
    dict. Its result is the reference definition.
  */
  method FindDifferences(config1: ConfigValue, config2: ConfigValue) returns (differences: DiffMap)
    ensures forall k :: k in differences <==>
      (k in config1 || k in config2) && !PyEq(Get(config1, k), Get(config2, k))
    ensures forall k :: k in differences ==>
      differences[k] == DiffEntry(Get(config1, k), Get(config2, k))
    ensures differences == Differences(config1, config2)
  {
    differences := map[];
    var keys := config1.Keys + config2.Keys;
    var remaining := keys;
    while remaining != {}
      invariant remaining <= keys
      invariant forall k :: k in differences <==>
        k in keys - remaining && !PyEq(Get(config1, k), Get(config2, k))
      invariant forall k :: k in differences ==>
        differences[k] == DiffEntry(Get(config1, k), Get(config2, k))
      decreases remaining
    {
      var key :| key in remaining;
      if !PyEq(Get(config1, key), Get(config2, key)) {
        differences := differences[key := DiffEntry(Get(config1, key), Get(config2, key))];
      }
      remaining := remaining - {key};
    }
  }

  /** Comparing a value with itself reports nothing. */
  lemma DifferencesOfSelfEmpty(x: ConfigValue)
    ensures Differences(x, x) == map[]
  {
    forall k | k in x.Keys ensures PyEq(Get(x, k), Get(x, k)) {
      PyEqReflexive(Get(x, k));
    }
  }

  /** Swapping the arguments reports the same keys with the two sides swapped. */
  lemma DifferencesSwapSides(a: ConfigValue, b: ConfigValue)
    ensures Differences(a, b).Keys == Differences(b, a).Keys
    ensures forall k :: k in Differences(a, b) ==>
      Differences(b, a)[k] == DiffEntry(Differences(a, b)[k].env2, Differences(a, b)[k].env1)
  {
    forall k | k in a.Keys + b.Keys ensures PyEq(Get(a, k), Get(b, k)) == PyEq(Get(b, k), Get(a, k)) {
      PyEqSymmetric(Get(a, k), Get(b, k));
    }
  }

  /** No entry ever records two sides that Python considers equal. */
  lemma DifferencesSidesUnequal(a: ConfigValue, b: ConfigValue, k: string)
    requires k in Differences(a, b)
    ensures !PyEq(Differences(a, b)[k].env1, Differences(a, b)[k].env2)
    ensures Differences(a, b)[k].env1 != Differences(a, b)[k].env2
  {
    var e := Differences(a, b)[k];
    if e.env1 == e.env2 {
      PyEqReflexive(e.env1);
    }
  }

  /**
    Because a missing key reads as `None`, a key that is absent on one side
    and holds JSON null on the other is not reported.
  */
  lemma NullAndMissingNotReported(a: ConfigValue, b: ConfigValue, k: string)
    requires k in a && a[k] == JNull && k !in b
    ensures k !in Differences(a, b)
  {
  }

  /** Python's `True == 1` hides such a change from the differ. */
  lemma BoolAndIntNotReported()
    ensures Differences(map["debug" := JBool(true)], map["debug" := JNum(1)]) == map[]
  {
  }
}
