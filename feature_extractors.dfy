/**
 * The pairwise feature extractors of the product matcher (`cfepm/fe/feature_extractors.py`):
 * the Levenshtein distance, the contiguous-subsequence test, the Jaccard index, and the
 * extractors that compare token lists, sets and tokenised specification dictionaries of an
 * item and a product. Ratios are exact reals; Python's float rounding is not modelled.
 */
module FeatureExtractors {
  import opened Common
  import opened Ordering
  import opened PyValues

  // ---------------------------------------------------------------- Levenshtein

  function Min3(a: int, b: int, c: int): (r: int)
    ensures r <= a && r <= b && r <= c && (r == a || r == b || r == c)
  {
    if a <= b && a <= c then a else if b <= c then b else c
  }

  /**
   * The unit-cost edit distance: the fewest single-character insertions, deletions and
   * substitutions turning `a` into `b`, by the recurrence on the last characters.
   */
  function EditDistance(a: string, b: string): (d: nat)
    decreases |a| + |b|
  {
    if |a| == 0 then |b|
    else if |b| == 0 then |a|
    else Min3(EditDistance(a[..|a| - 1], b) + 1,
              EditDistance(a, b[..|b| - 1]) + 1,
              EditDistance(a[..|a| - 1], b[..|b| - 1]) + (if a[|a| - 1] == b[|b| - 1] then 0 else 1))
  }

  /** The distance does not depend on the direction of the comparison. */
  lemma {:induction false} EditDistanceSymmetric(a: string, b: string)
    ensures EditDistance(a, b) == EditDistance(b, a)
    decreases |a| + |b|
  {
    if |a| > 0 && |b| > 0 {
      EditDistanceSymmetric(a[..|a| - 1], b);
      EditDistanceSymmetric(a, b[..|b| - 1]);
      EditDistanceSymmetric(a[..|a| - 1], b[..|b| - 1]);
    }
  }

  /** The distance is zero exactly between equal strings. */
  lemma {:induction false} EditDistanceZero(a: string, b: string)
    ensures EditDistance(a, b) == 0 <==> a == b
    decreases |a| + |b|
  {
    if |a| > 0 && |b| > 0 {
      var a', b' := a[..|a| - 1], b[..|b| - 1];
      EditDistanceZero(a', b');
      if a == b {
        assert a' == b';
      }
      if EditDistance(a, b) == 0 {
        assert a == a' + [a[|a| - 1]] && b == b' + [b[|b| - 1]];
      }
    }
  }

  /** Against the empty string the distance is the other string's length, whichever side it is on. */
  lemma EditDistanceEmpty(s: string)
    ensures EditDistance(s, "") == |s| && EditDistance("", s) == |s|
  {
  }

  /** The distance lies between the difference of the lengths and the longer length. */
  lemma {:induction false} EditDistanceBounds(a: string, b: string)
    ensures EditDistance(a, b) <= (if |a| >= |b| then |a| else |b|)
    ensures EditDistance(a, b) >= (if |a| >= |b| then |a| - |b| else |b| - |a|)
    decreases |a| + |b|
  {
    if |a| > 0 && |b| > 0 {
      EditDistanceBounds(a[..|a| - 1], b);
      EditDistanceBounds(a, b[..|b| - 1]);
      EditDistanceBounds(a[..|a| - 1], b[..|b| - 1]);
    }
  }

  /** One cell of the table: the recurrence read on prefixes of the two arguments. */
  lemma EditDistanceCell(s1: string, s2: string, i: int, j: int)
    requires 0 <= i < |s1| && 0 <= j < |s2|
    ensures EditDistance(s1[..i + 1], s2[..j + 1]) ==
      Min3(EditDistance(s1[..i], s2[..j + 1]) + 1,
           EditDistance(s1[..i + 1], s2[..j]) + 1,
           EditDistance(s1[..i], s2[..j]) + (if s1[i] == s2[j] then 0 else 1))
  {
    assert s1[..i + 1][..i] == s1[..i];
    assert s2[..j + 1][..j] == s2[..j];
  }

  /**
   * `levenshtein(s1, s2)`: the shorter string is put second, then the table is filled one
   * row per character of the longer one, each row from the previous one.
   */
  method Levenshtein(s1: string, s2: string) returns (r: int)
    ensures r == EditDistance(s1, s2)
    decreases if |s1| < |s2| then 1 else 0
  {
    if |s1| < |s2| {
      r := Levenshtein(s2, s1);
      EditDistanceSymmetric(s2, s1);
      return;
    }
    if |s2| == 0 {
      return |s1|;
    }
    var previous: seq<int> := seq(|s2| + 1, j requires 0 <= j <= |s2| => j);
    var i := 0;
    while i < |s1|
      invariant 0 <= i <= |s1|
      invariant |previous| == |s2| + 1
      invariant forall j :: 0 <= j <= |s2| ==> previous[j] == EditDistance(s1[..i], s2[..j])
    {
      previous := NextRow(s1, s2, i, previous);
      i := i + 1;
    }
    assert s1[..i] == s1 && s2[..|s2|] == s2;
    r := previous[|s2|];
  }

  /**
   * One row of the table: from the distances of `s1[..i]` to every prefix of `s2`, those of
   * `s1[..i + 1]`.
   */
  method NextRow(s1: string, s2: string, i: int, previous: seq<int>) returns (current: seq<int>)
    requires 0 <= i < |s1| && |previous| == |s2| + 1
    requires forall j :: 0 <= j <= |s2| ==> previous[j] == EditDistance(s1[..i], s2[..j])
    ensures |current| == |s2| + 1
    ensures forall j :: 0 <= j <= |s2| ==> current[j] == EditDistance(s1[..i + 1], s2[..j])
  {
    EditDistanceEmpty(s1[..i + 1]);
    assert s2[..0] == "";
    current := [i + 1];
    var j := 0;
    while j < |s2|
      invariant 0 <= j <= |s2|
      invariant |current| == j + 1
      invariant forall k :: 0 <= k <= j ==> current[k] == EditDistance(s1[..i + 1], s2[..k])
    {
      var insertions := previous[j + 1] + 1;
      var deletions := current[j] + 1;
      var substitutions := previous[j] + (if s1[i] != s2[j] then 1 else 0);
      EditDistanceCell(s1, s2, i, j);
      var cell := Min3(insertions, deletions, substitutions);
      assert cell == EditDistance(s1[..i + 1], s2[..j + 1]);
      current := current + [cell];
      j := j + 1;
    }
  }

  // ---------------------------------------------------------------- subsequences

  /** `sub` occurs in `s` starting at `i`. */
  predicate OccursAt<T(==)>(s: seq<T>, sub: seq<T>, i: int)
  {
    0 <= i && i + |sub| <= |s| && s[i..i + |sub|] == sub
  }

  /**
   * `contains_subseq(seq, sub)`: whether `sub` occurs contiguously in `s`; never for a
   * longer `sub`, always for an empty one.
   */
  method ContainsSubseq<T(==)>(s: seq<T>, sub: seq<T>) returns (r: bool)
    ensures r <==> exists i :: OccursAt(s, sub, i)
    ensures |sub| > |s| ==> !r
    ensures sub == [] ==> r
  {
    if |sub| > |s| {
      return false;
    }
    var i := 0;
    while i < |s| - |sub| + 1
      invariant 0 <= i <= |s| - |sub| + 1
      invariant forall k :: 0 <= k < i ==> !OccursAt(s, sub, k)
    {
      if s[i..i + |sub|] == sub {
        assert OccursAt(s, sub, i);
        return true;
      }
      i := i + 1;
    }
    r := false;
    if sub == [] {
      assert OccursAt(s, sub, 0);
    }
  }

  // ---------------------------------------------------------------- sets

  /** `|A ∪ B| + |A ∩ B| == |A| + |B|`. */
  lemma {:induction false} UnionSize<T>(a: set<T>, b: set<T>)
    ensures |a + b| + |a * b| == |a| + |b|
    decreases |a|
  {
    if a != {} {
      var x :| x in a;
      var a' := a - {x};
      UnionSize(a', b);
      if x in b {
        assert a + b == a' + b;
        assert a * b == (a' * b) + {x};
      } else {
        assert a + b == (a' + b) + {x};
        assert a * b == a' * b;
      }
    } else {
      assert a + b == b;
      assert a * b == {};
    }
  }

  lemma SubsetSize<T>(a: set<T>, b: set<T>)
    requires a <= b
    ensures |a| <= |b|
  {
    assert b == a + (b - a);
  }

  /**
   * `jaccard_sim(s1, s2)`: the size of the intersection over the size of the union,
   * computed as `|s1| + |s2| - |s1 ∩ s2|`; for two empty sets the division fails.
   */
  function JaccardSim<T>(s1: set<T>, s2: set<T>): (r: Result<real>)
    ensures r.Err? <==> s1 == {} && s2 == {}
    ensures r.Err? ==> r.error == "ZeroDivisionError"
    ensures r.Ok? ==> r.value == (|s1 * s2| as real) / (|s1 + s2| as real) && 0.0 <= r.value <= 1.0
  {
    UnionSize(s1, s2);
    SubsetSize(s1 * s2, s1 + s2);
    var isect := s1 * s2;
    var denom := |s1| + |s2| - |isect|;
    if denom == 0 then Err("ZeroDivisionError") else Ok(|isect| as real / denom as real)
  }

  /** The Jaccard index is symmetric, and it is 1 exactly for two equal (non-empty) sets. */
  lemma JaccardOne<T>(s1: set<T>, s2: set<T>)
    requires s1 != {} || s2 != {}
    ensures JaccardSim(s1, s2) == JaccardSim(s2, s1)
    ensures JaccardSim(s1, s2).value == 1.0 <==> s1 == s2
  {
    assert s1 * s2 == s2 * s1 && s1 + s2 == s2 + s1;
    var isect, union := |s1 * s2| as real, |s1 + s2| as real;
    assert s1 + s2 != {};
    assert union > 0.0;
    if s1 == s2 {
      assert s1 * s2 == s1 + s2;
    }
    if JaccardSim(s1, s2).value == 1.0 {
      assert isect == (isect / union) * union;
      assert |s1 * s2| == |s1 + s2|;
      SameSizeSubset(s1 * s2, s1 + s2);
      assert forall x :: x in s1 ==> x in s1 * s2;
      assert forall x :: x in s2 ==> x in s1 * s2;
    }
  }

  lemma SameSizeSubset<T>(a: set<T>, b: set<T>)
    requires a <= b && |a| == |b|
    ensures a == b
  {
    assert b == a + (b - a);
    assert |b - a| == 0;
  }

  /** `SharedWordNumFE`: the number of distinct tokens the two lists share. */
  function SharedWordNum(t1: seq<string>, t2: seq<string>): (r: nat)
  {
    |Elems(t1) * Elems(t2)|
  }

  /** The shared-word count is symmetric and at most either list's number of distinct tokens. */
  lemma SharedWordNumBounds(t1: seq<string>, t2: seq<string>)
    ensures SharedWordNum(t1, t2) == SharedWordNum(t2, t1)
    ensures SharedWordNum(t1, t2) <= |Elems(t1)| && SharedWordNum(t1, t2) <= |Elems(t2)|
  {
    assert Elems(t1) * Elems(t2) == Elems(t2) * Elems(t1);
    SubsetSize(Elems(t1) * Elems(t2), Elems(t1));
    SubsetSize(Elems(t1) * Elems(t2), Elems(t2));
  }

  /** `WordJaccardFE`: the Jaccard index of the token sets, 0 when both lists are empty; it never divides by zero. */
  function WordJaccard(t1: seq<string>, t2: seq<string>): (r: real)
    ensures 0.0 <= r <= 1.0
    ensures t1 == [] && t2 == [] ==> r == 0.0
    ensures t1 != [] || t2 != [] ==> Ok(r) == JaccardSim(Elems(t1), Elems(t2))
  {
    if t1 != [] || t2 != [] then
      assert t1 != [] ==> t1[0] in Elems(t1);
      assert t2 != [] ==> t2[0] in Elems(t2);
      JaccardSim(Elems(t1), Elems(t2)).value
    else 0.0
  }

  /** `SetColumnJaccardIndexFE`: the Jaccard index of two sets, 0 when both are empty; it never divides by zero. */
  function SetColumnJaccardIndex(s1: set<string>, s2: set<string>): (r: real)
    ensures 0.0 <= r <= 1.0
    ensures s1 == {} && s2 == {} ==> r == 0.0
    ensures s1 != {} || s2 != {} ==> Ok(r) == JaccardSim(s1, s2)
  {
    if s1 == {} && s2 == {} then 0.0 else JaccardSim(s1, s2).value
  }

  // ---------------------------------------------------------------- extractors

  /**
   * `TwoArgComparisonBasedFE.extract`: the configured `none_result` when the first item's
   * attribute is None, then the same when the second's is; otherwise the comparison.
   */
  function Extract<V, R>(v1: Option<V>, v2: Option<V>, noneResult: R, compare: (V, V) -> R): (r: R)
    ensures v1.None? || v2.None? ==> r == noneResult
    ensures v1.Some? && v2.Some? ==> r == compare(v1.value, v2.value)
  {
    if v1.None? then noneResult
    else if v2.None? then noneResult
    else compare(v1.value, v2.value)
  }

  /** The default `none_result`. */
  const NoneResult: int := 0

  /**
   * A tokenised specification dictionary: attribute name to value tokens, or None where the
   * raw value was None (tokenising None gives None).
   */
  type SpecDict = map<string, Option<seq<string>>>

  /** `d.get(k)` on a specification dictionary: an absent key reads as None. */
  function SpecGet(d: SpecDict, k: string): (r: Option<seq<string>>)
    ensures k !in d ==> r.None?
    ensures k in d ==> r == d[k]
  {
    if k in d then d[k] else None
  }

  /** No value of the dictionary is None. */
  predicate NoneFree(d: SpecDict)
  {
    forall k :: k in d ==> d[k].Some?
  }

  /** The keys of `x` whose value `y.get` gives back; a None value matches a key `y` lacks. */
  function SharedSpecs(x: SpecDict, y: SpecDict): set<string>
  {
    set k | k in x && x[k] == SpecGet(y, k)
  }

  /** The count `ExactlySharedSpecNumFE` computes: over the first dictionary unless it is the larger one. */
  function SharedSpecCount(d1: SpecDict, d2: SpecDict): nat
  {
    if |d1| <= |d2| then |SharedSpecs(d1, d2)| else |SharedSpecs(d2, d1)|
  }

  /**
   * The shared keys are keys of the walked dictionary; a key the other one lacks is shared
   * exactly when its value is None. Without None values they are the keys both hold with
   * equal values, whichever dictionary comes first.
   */
  lemma SharedSpecsBounds(x: SpecDict, y: SpecDict)
    ensures SharedSpecs(x, y) <= x.Keys && |SharedSpecs(x, y)| <= |x|
    ensures forall k :: k in x && k !in y ==> (k in SharedSpecs(x, y) <==> x[k].None?)
    ensures NoneFree(x) ==> SharedSpecs(x, y) == set k | k in x && k in y && x[k] == y[k]
    ensures NoneFree(x) && NoneFree(y) ==> SharedSpecs(x, y) == SharedSpecs(y, x) && |SharedSpecs(x, y)| <= |y|
  {
    SubsetSize(SharedSpecs(x, y), x.Keys);
    if NoneFree(x) && NoneFree(y) {
      assert SharedSpecs(x, y) <= y.Keys;
      SubsetSize(SharedSpecs(x, y), y.Keys);
    }
  }

  /**
   * The count is at most the size of either dictionary; without None values it is the
   * number of keys both hold with equal values, and does not depend on the argument order.
   */
  lemma SharedSpecCountMeaning(d1: SpecDict, d2: SpecDict)
    ensures SharedSpecCount(d1, d2) <= |d1| && SharedSpecCount(d1, d2) <= |d2|
    ensures NoneFree(d1) && NoneFree(d2) ==>
      SharedSpecCount(d1, d2) == |set k | k in d1 && k in d2 && d1[k] == d2[k]| &&
      SharedSpecCount(d1, d2) == SharedSpecCount(d2, d1)
  {
    SharedSpecsBounds(d1, d2);
    SharedSpecsBounds(d2, d1);
    if NoneFree(d1) && NoneFree(d2) {
      assert (set k | k in d2 && k in d1 && d2[k] == d1[k]) == (set k | k in d1 && k in d2 && d1[k] == d2[k]);
    }
  }

  /**
   * With a None value the argument order matters: `{"brand": None}` against
   * `{"model": ["x"]}` counts 1, the other way round 0.
   */
  lemma SharedSpecCountOrderMatters()
    ensures var d1: SpecDict := map["brand" := None];
      var d2: SpecDict := map["model" := Some(["x"])];
      SharedSpecCount(d1, d2) == 1 && SharedSpecCount(d2, d1) == 0
  {
    var d1: SpecDict := map["brand" := None];
    var d2: SpecDict := map["model" := Some(["x"])];
    assert SharedSpecs(d1, d2) == {"brand"};
    assert SharedSpecs(d2, d1) == {};
  }

  /**
   * `ExactlySharedSpecNumFE.extract_by_comparison`: walks the first dictionary, or the
   * second when the first is larger, and counts the keys whose value the other dictionary's
   * `get` gives back, whatever the iteration order.
   */
  method ExactlySharedSpecNum(d1: SpecDict, d2: SpecDict) returns (r: int, ghost order: seq<string>)
    ensures r == SharedSpecCount(d1, d2)
  {
    var x, y := d1, d2;
    if |d1| > |d2| {
      x, y := d2, d1;
    }
    var keys := KeysOf(x);
    order := keys;
    r := CountShared(x, y, keys);
  }

  /** The counting loop over the keys of `x` in the iteration order `keys`. */
  method CountShared(x: SpecDict, y: SpecDict, keys: seq<string>) returns (shareCount: int)
    requires Distinct(keys) && forall k :: k in x <==> k in keys
    ensures shareCount == |SharedSpecs(x, y)|
  {
    shareCount := 0;
    ghost var shared: set<string> := {};
    var i := 0;
    while i < |keys|
      invariant 0 <= i <= |keys|
      invariant forall k :: k in shared ==> k in keys[..i]
      invariant forall j :: 0 <= j < i ==> (keys[j] in shared <==> x[keys[j]] == SpecGet(y, keys[j]))
      invariant shareCount == |shared|
    {
      var k := keys[i];
      var yVal := SpecGet(y, k);
      if x[k] == yVal {
        assert k !in shared;
        shared := shared + {k};
        shareCount := shareCount + 1;
      }
      i := i + 1;
    }
    assert shared == SharedSpecs(x, y) by {
      forall k | k in SharedSpecs(x, y) ensures k in shared {
        var j :| 0 <= j < |keys| && keys[j] == k;
      }
      assert keys[..i] == keys;
    }
  }

  /** `ExactlySharedSpecPartFE`: the shared count over the larger dictionary's size, 0 for two empty ones. */
  method ExactlySharedSpecPart(d1: SpecDict, d2: SpecDict) returns (r: real)
    ensures |d1| == 0 && |d2| == 0 ==> r == 0.0
    ensures |d1| > 0 || |d2| > 0 ==>
      r == (SharedSpecCount(d1, d2) as real) / ((if |d1| >= |d2| then |d1| else |d2|) as real)
    ensures 0.0 <= r <= 1.0
  {
    var sharedNum, order := ExactlySharedSpecNum(d1, d2);
    SharedSpecCountMeaning(d1, d2);
    var denom := if |d1| >= |d2| then |d1| else |d2|;
    if denom == 0 {
      return 0.0;
    }
    RatioAtMostOne(sharedNum, denom);
    r := sharedNum as real / denom as real;
  }

  /** A count out of a larger positive total is a ratio in [0, 1]. */
  lemma RatioAtMostOne(a: int, b: int)
    requires 0 <= a <= b && b > 0
    ensures 0.0 <= a as real / b as real <= 1.0
  {
    var q := a as real / b as real;
    assert q * (b as real) == a as real;
  }

  /** A Python value that is false as a condition: a missing (None) or empty set. */
  predicate FalsySet(v: Option<set<string>>)
  {
    v.None? || v.value == {}
  }

  /**
   * `IterableColumnMismatchFeatureExtractor`, over the colour sets it is given: 0 when either
   * side is None or empty, else 1 for equal and -1 for different sets.
   */
  function IterableColumnMismatch(v1: Option<set<string>>, v2: Option<set<string>>): (r: int)
  {
    if FalsySet(v1) || FalsySet(v2) then 0 else if v1 == v2 then 1 else -1
  }

  /**
   * The mismatch feature is symmetric, and it is 1, 0 or -1 as the sides hold the same
   * colours, one is missing or empty, or they hold different colours.
   */
  lemma IterableColumnMismatchMeaning(v1: Option<set<string>>, v2: Option<set<string>>)
    ensures IterableColumnMismatch(v1, v2) == IterableColumnMismatch(v2, v1)
    ensures IterableColumnMismatch(v1, v2) == 1 <==> v1.Some? && v2.Some? && v1.value != {} && v1.value == v2.value
    ensures IterableColumnMismatch(v1, v2) == 0 <==> FalsySet(v1) || FalsySet(v2)
    ensures IterableColumnMismatch(v1, v2) == -1 <==>
      v1.Some? && v2.Some? && v1.value != {} && v2.value != {} && v1.value != v2.value
  {
  }

  /** The value tokens that stand for "not available". */
  const NaSpecValues: set<string> := {"na", "apply", "none"}

  /** `attr_val_is_na`: an empty token list, or a single "na", "apply" or "none". */
  predicate AttrValIsNa(toks: seq<string>)
  {
    toks == [] || (|toks| == 1 && toks[0] in NaSpecValues)
  }

  /** `ExactStringAttributeSimilarity.normalize`: the tokens joined by single spaces. */
  function Normalize(toks: seq<string>): (r: string)
  {
    Join(toks, " ")
  }

  /** `ExactStringAttributeSimilarity.__call__`: 1 for equal texts, -1 otherwise. */
  function ExactStringSimilarity(v1: string, v2: string): (r: int)
  {
    if v1 == v2 then 1 else -1
  }

  /**
   * `AttributeComparisonFE._comp_sim` with the exact-string similarity: 0 when either side
   * is missing or not available, else the similarity of the joined texts.
   */
  function CompSim(v1: Option<seq<string>>, v2: Option<seq<string>>): (r: int)
  {
    if v1.None? || AttrValIsNa(v1.value) then 0
    else if v2.None? || AttrValIsNa(v2.value) then 0
    else ExactStringSimilarity(Normalize(v1.value), Normalize(v2.value))
  }

  /**
   * An attribute scores 0 exactly when a side is missing or not available, 1 when both are
   * available with the same joined text, and -1 otherwise; the score is symmetric.
   */
  lemma CompSimMeaning(v1: Option<seq<string>>, v2: Option<seq<string>>)
    ensures CompSim(v1, v2) == CompSim(v2, v1)
    ensures CompSim(v1, v2) == 0 <==> v1.None? || v2.None? || AttrValIsNa(v1.value) || AttrValIsNa(v2.value)
    ensures CompSim(v1, v2) == 1 <==>
      v1.Some? && v2.Some? && !AttrValIsNa(v1.value) && !AttrValIsNa(v2.value) &&
      Join(v1.value, " ") == Join(v2.value, " ")
  {
  }

  /** The attributes of the default similarity table; every one is compared as exact text. */
  const DefaultAttributes: set<string> :=
    {"brand", "model", "mpn", "upc", "network", "publisher", "carrier", "card manufacturer", "year", "platform"}

  class AttributeComparisonFE {
    /** The compared attribute names, sorted. */
    const attrKeysSorted: seq<string>

    constructor (attributes: set<string>)
      ensures Ascending(attrKeysSorted) && |attrKeysSorted| == |attributes|
      ensures forall a :: a in attrKeysSorted <==> a in attributes
    {
      var sorted := SortedNames(attributes);
      attrKeysSorted := sorted;
    }

    /** `extract_by_comparison(dict1, dict2)`: one score per attribute, in sorted order. */
    method ExtractByComparison(dict1: SpecDict, dict2: SpecDict) returns (r: seq<int>)
      ensures |r| == |attrKeysSorted|
      ensures forall i :: 0 <= i < |r| ==> r[i] == CompSim(SpecGet(dict1, attrKeysSorted[i]), SpecGet(dict2, attrKeysSorted[i]))
    {
      r := [];
      var i := 0;
      while i < |attrKeysSorted|
        invariant 0 <= i <= |attrKeysSorted|
        invariant |r| == i
        invariant forall k :: 0 <= k < i ==> r[k] == CompSim(SpecGet(dict1, attrKeysSorted[k]), SpecGet(dict2, attrKeysSorted[k]))
      {
        var name := attrKeysSorted[i];
        r := r + [CompSim(SpecGet(dict1, name), SpecGet(dict2, name))];
        i := i + 1;
      }
    }
  }
}
