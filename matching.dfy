/**
 * The exact specification matcher (`cfepm/matching.py`): a product and an item match on a
 * list of keys when each key holds a truthy value on both sides and the values are equal.
 * The answer is three-valued: True, False on the first differing key, or None when a key is
 * missing or falsy first.
 */
module Matching {
  import opened Common
  import opened PyValues

  /** Both sides hold truthy, equal values under `k`. */
  predicate Agree(prod: map<string, PyValue>, item: map<string, PyValue>, k: string)
  {
    Truthy(Get(prod, k)) && Truthy(Get(item, k)) && Get(prod, k) == Get(item, k)
  }

  datatype ExactSpecMatcher = ExactSpecMatcher(keys: seq<string>)
  {
    /** `match(prod, item)` on the two specification dictionaries, keys in order. */
    function Match(prod: map<string, PyValue>, item: map<string, PyValue>): (r: Option<bool>)
    {
      MatchFrom(keys, prod, item)
    }
  }

  /**
   * The scan over the keys: the product's value is read first and a falsy one ends the scan
   * with None; then the item's, likewise; unequal values end it with False; True when every
   * key passes.
   */
  function MatchFrom(keys: seq<string>, prod: map<string, PyValue>, item: map<string, PyValue>): (r: Option<bool>)
    decreases |keys|
  {
    if keys == [] then Some(true)
    else
      var p := Get(prod, keys[0]);
      if !Truthy(p) then None
      else
        var i := Get(item, keys[0]);
        if !Truthy(i) then None
        else if p != i then Some(false)
        else MatchFrom(keys[1..], prod, item)
  }

  /** True exactly when every key agrees; so an empty key list matches anything. */
  lemma {:induction false} MatchTrue(keys: seq<string>, prod: map<string, PyValue>, item: map<string, PyValue>)
    ensures MatchFrom(keys, prod, item) == Some(true) <==> forall n :: 0 <= n < |keys| ==> Agree(prod, item, keys[n])
    decreases |keys|
  {
    if keys != [] {
      MatchTrue(keys[1..], prod, item);
      if forall n :: 0 <= n < |keys| ==> Agree(prod, item, keys[n]) {
        assert Agree(prod, item, keys[0]);
        assert forall n :: 0 <= n < |keys| - 1 ==> keys[1..][n] == keys[n + 1];
      }
      if MatchFrom(keys, prod, item) == Some(true) {
        forall n | 0 <= n < |keys| ensures Agree(prod, item, keys[n]) {
          if n > 0 {
            assert keys[n] == keys[1..][n - 1];
          }
        }
      }
    }
  }

  /**
   * The first key that does not agree decides: None when a value there is missing or falsy,
   * False when both are truthy but differ.
   */
  lemma {:induction false} MatchFirstDecisive(keys: seq<string>, prod: map<string, PyValue>, item: map<string, PyValue>, n: int)
    requires 0 <= n < |keys| && !Agree(prod, item, keys[n])
    requires forall m :: 0 <= m < n ==> Agree(prod, item, keys[m])
    ensures !Truthy(Get(prod, keys[n])) || !Truthy(Get(item, keys[n])) ==> MatchFrom(keys, prod, item) == None
    ensures Truthy(Get(prod, keys[n])) && Truthy(Get(item, keys[n])) ==> MatchFrom(keys, prod, item) == Some(false)
    decreases |keys|
  {
    if n > 0 {
      assert Agree(prod, item, keys[0]);
      assert keys[1..][n - 1] == keys[n];
      forall m | 0 <= m < n - 1 ensures Agree(prod, item, keys[1..][m]) {
        assert keys[1..][m] == keys[m + 1];
      }
      MatchFirstDecisive(keys[1..], prod, item, n - 1);
    }
  }

  /**
   * The item is read only under keys where the product's value is truthy: two items that
   * agree there get the same answer.
   */
  lemma {:induction false} MatchReadsItemAfterProduct(keys: seq<string>, prod: map<string, PyValue>, item1: map<string, PyValue>, item2: map<string, PyValue>)
    requires forall n :: 0 <= n < |keys| && Truthy(Get(prod, keys[n])) ==> Get(item1, keys[n]) == Get(item2, keys[n])
    ensures MatchFrom(keys, prod, item1) == MatchFrom(keys, prod, item2)
    decreases |keys|
  {
    if keys != [] {
      forall n | 0 <= n < |keys| - 1 && Truthy(Get(prod, keys[1..][n]))
        ensures Get(item1, keys[1..][n]) == Get(item2, keys[1..][n])
      {
        assert keys[1..][n] == keys[n + 1];
      }
      MatchReadsItemAfterProduct(keys[1..], prod, item1, item2);
    }
  }
}
