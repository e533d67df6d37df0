/**
 * Shared vocabulary of the model: optional and failing results, Java's
 * string helpers the sources lean on, decimal text of integers, and the
 * last-write-wins indexing that every `map.put` loop of the sources performs.
 */
module Common {

  /** A Java reference that may be null, an `Optional`, or a Python value that may be None. */
  datatype Option<T> = None | Some(value: T)

  /** The outcome of an operation that may throw; `error` is the exception's message. */
  datatype Result<T> = Ok(value: T) | Err(error: string)

  type Byte = b: int | 0 <= b < 256

  /** What `StringBuilder.append` and `+` write for a string reference that may be null. */
  function JavaText(s: Option<string>): (r: string)
    ensures s.Some? ==> r == s.value
    ensures s.None? ==> r == "null"
  {
    match s
    case None => "null"
    case Some(t) => t
  }

  predicate IsDigit(c: char) { '0' <= c <= '9' }

  predicate AllDigits(s: string) { forall i :: 0 <= i < |s| ==> IsDigit(s[i]) }

  function DigitChar(d: int): char
    requires 0 <= d < 10
  {
    ('0' as int + d) as char
  }

  function DigitValue(c: char): int
    requires IsDigit(c)
  {
    c as int - '0' as int
  }

  /** Decimal digits of a natural number, most significant first, without leading zeros. */
  function NatText(n: nat): (r: string)
    decreases n
  {
    if n < 10 then [DigitChar(n)] else NatText(n / 10) + [DigitChar(n % 10)]
  }

  /** Value of a string of decimal digits. */
  function DigitsValue(s: string): (v: nat)
    requires AllDigits(s)
    decreases |s|
  {
    if s == [] then 0 else 10 * DigitsValue(s[..|s| - 1]) + DigitValue(s[|s| - 1])
  }

  lemma {:induction false} NatTextDigits(n: nat)
    ensures |NatText(n)| >= 1 && AllDigits(NatText(n))
    ensures DigitsValue(NatText(n)) == n
    decreases n
  {
    if n >= 10 {
      NatTextDigits(n / 10);
      var s := NatText(n);
      assert s[..|s| - 1] == NatText(n / 10);
    }
  }

  /** `String.valueOf(int)`, `Integer.toString` and Python's `str(int)`: decimal with a leading '-' when negative. */
  function IntText(i: int): (r: string)
  {
    if i < 0 then "-" + NatText(-i) else NatText(i)
  }

  lemma IntTextShape(i: int)
    ensures |IntText(i)| >= 1
    ensures i >= 0 ==> AllDigits(IntText(i)) && DigitsValue(IntText(i)) == i
    ensures i < 0 ==> IntText(i)[0] == '-' && AllDigits(IntText(i)[1..]) && DigitsValue(IntText(i)[1..]) == -i
  {
    if i < 0 {
      NatTextDigits(-i);
      assert IntText(i)[1..] == NatText(-i);
    } else {
      NatTextDigits(i);
    }
  }

  /**
   * `Integer.valueOf(String)` / `Integer.parseInt`: an optional sign followed by at least one
   * decimal digit, within the 32-bit range; anything else throws NumberFormatException.
   */
  function ParseJavaInt(s: string): (r: Option<int>)
    ensures r.Some? ==> -0x8000_0000 <= r.value < 0x8000_0000
  {
    if |s| >= 1 && (s[0] == '-' || s[0] == '+') then
      var digits := s[1..];
      if |digits| >= 1 && AllDigits(digits) then
        var v: int := if s[0] == '-' then -(DigitsValue(digits) as int) else DigitsValue(digits);
        if -0x8000_0000 <= v < 0x8000_0000 then Some(v) else None
      else None
    else if |s| >= 1 && AllDigits(s) && DigitsValue(s) < 0x8000_0000 then Some(DigitsValue(s))
    else None
  }

  /** Reading back what `String.valueOf(int)` wrote gives the same int. */
  lemma ParseJavaIntOfText(i: int)
    requires -0x8000_0000 <= i < 0x8000_0000
    ensures ParseJavaInt(IntText(i)) == Some(i)
  {
    IntTextShape(i);
    if i >= 0 {
      NatTextDigits(i);
      assert IntText(i)[0] != '-' && IntText(i)[0] != '+';
    }
  }

  predicate StartsWith(s: string, prefix: string)
  {
    |prefix| <= |s| && s[..|prefix|] == prefix
  }

  predicate EndsWith(s: string, suffix: string)
  {
    |suffix| <= |s| && s[|s| - |suffix|..] == suffix
  }

  /**
   * `s.indexOf(c, from)`: the first index at or after `from` (a negative `from` counts as 0)
   * holding `c`, or -1 when there is none.
   */
  function IndexOf(s: string, c: char, from: int): (r: int)
    ensures r == -1 || (0 <= r < |s| && r >= from && s[r] == c)
    ensures r == -1 ==> forall k :: 0 <= k < |s| && k >= from ==> s[k] != c
    ensures r != -1 ==> forall k :: 0 <= k < r && k >= from ==> s[k] != c
    decreases |s| - from
  {
    if from < 0 then IndexOf(s, c, 0)
    else if from >= |s| then -1
    else if s[from] == c then from
    else IndexOf(s, c, from + 1)
  }

  /** The set of elements of a sequence. */
  function Elems<T>(s: seq<T>): set<T>
  {
    set x | x in s
  }

  predicate Distinct<T(==)>(s: seq<T>)
  {
    forall i, j :: 0 <= i < j < |s| ==> s[i] != s[j]
  }

  /** A duplicate-free listing of a set has exactly as many elements as the set. */
  lemma {:induction false} EnumerationSize<T>(s: seq<T>, elems: set<T>)
    requires Distinct(s) && forall x :: x in s <==> x in elems
    ensures |s| == |elems|
    decreases |s|
  {
    if s != [] {
      var last := s[|s| - 1];
      var init := s[..|s| - 1];
      forall x ensures x in init <==> x in elems - {last} {
        if x in init {
          var i :| 0 <= i < |init| && init[i] == x;
          assert s[i] == x && i < |s| - 1;
        }
        if x in elems - {last} {
          assert x in s;
          var i :| 0 <= i < |s| && s[i] == x;
          assert init[i] == x;
        }
      }
      EnumerationSize(init, elems - {last});
    } else {
      assert elems == {};
    }
  }

  /**
   * The map a loop of `m.put(key(v), v)` over `vs` leaves behind, starting from an empty map:
   * every key present, each bound to the last element carrying it.
   */
  function IndexBy<K(==), V>(vs: seq<V>, key: V -> K): map<K, V>
    decreases |vs|
  {
    if vs == [] then map[] else IndexBy(vs[..|vs| - 1], key)[key(vs[|vs| - 1]) := vs[|vs| - 1]]
  }

  lemma {:induction false} IndexByKeys<K, V>(vs: seq<V>, key: V -> K, k: K)
    ensures k in IndexBy(vs, key) <==> exists i :: 0 <= i < |vs| && key(vs[i]) == k
    decreases |vs|
  {
    if vs != [] {
      var init := vs[..|vs| - 1];
      IndexByKeys(init, key, k);
      if k in IndexBy(init, key) {
        var i :| 0 <= i < |init| && key(init[i]) == k;
        assert key(vs[i]) == k;
      }
      if exists i :: 0 <= i < |vs| && key(vs[i]) == k {
        var i :| 0 <= i < |vs| && key(vs[i]) == k;
        if i < |init| {
          assert key(init[i]) == k;
        }
      }
    }
  }

  /** Each key is bound to the last element that carries it (last write wins). */
  lemma {:induction false} IndexByLast<K, V>(vs: seq<V>, key: V -> K, i: int)
    requires 0 <= i < |vs|
    requires forall j :: i < j < |vs| ==> key(vs[j]) != key(vs[i])
    ensures key(vs[i]) in IndexBy(vs, key) && IndexBy(vs, key)[key(vs[i])] == vs[i]
    decreases |vs|
  {
    if i < |vs| - 1 {
      var init := vs[..|vs| - 1];
      IndexByLast(init, key, i);
    }
  }

  /** Every bound value is one of the indexed elements, stored under its own key. */
  lemma {:induction false} IndexByValues<K, V>(vs: seq<V>, key: V -> K, k: K)
    requires k in IndexBy(vs, key)
    ensures IndexBy(vs, key)[k] in vs && key(IndexBy(vs, key)[k]) == k
    decreases |vs|
  {
    var last := vs[|vs| - 1];
    if key(last) != k {
      IndexByValues(vs[..|vs| - 1], key, k);
    }
  }

  /**
   * Putting every element of `vs` into `m` under its key (a merge): keys that no element
   * carries keep their old value, and every element's key ends bound to the last element
   * carrying it.
   */
  lemma MergeByKey<K, V>(m: map<K, V>, vs: seq<V>, key: V -> K, k: K)
    ensures (forall i :: 0 <= i < |vs| ==> key(vs[i]) != k) ==>
      (k in m + IndexBy(vs, key) <==> k in m) && (k in m ==> (m + IndexBy(vs, key))[k] == m[k])
    ensures forall i :: 0 <= i < |vs| && key(vs[i]) == k && (forall j :: i < j < |vs| ==> key(vs[j]) != k) ==>
      k in m + IndexBy(vs, key) && (m + IndexBy(vs, key))[k] == vs[i]
  {
    IndexByKeys(vs, key, k);
    forall i | 0 <= i < |vs| && key(vs[i]) == k && (forall j :: i < j < |vs| ==> key(vs[j]) != k)
      ensures k in m + IndexBy(vs, key) && (m + IndexBy(vs, key))[k] == vs[i]
    {
      IndexByLast(vs, key, i);
    }
  }

  /** The loop `vs.forEach(v -> m.put(key(v), v))`: what the map holds afterwards. */
  method PutAll<K, V>(m: map<K, V>, vs: seq<V>, key: V -> K) returns (r: map<K, V>)
    ensures r == m + IndexBy(vs, key)
  {
    r := m;
    var i := 0;
    while i < |vs|
      invariant 0 <= i <= |vs|
      invariant r == m + IndexBy(vs[..i], key)
    {
      assert vs[..i + 1][..i] == vs[..i];
      r := r[key(vs[i]) := vs[i]];
      i := i + 1;
    }
    assert vs[..i] == vs;
  }

  /** The keys of a map in some order, each once: how the sources iterate a HashMap. */
  method KeysOf<K(==), V>(m: map<K, V>) returns (ks: seq<K>)
    ensures |ks| == |m| && Distinct(ks)
    ensures forall k :: k in m <==> k in ks
  {
    ks := [];
    var rest := m.Keys;
    while rest != {}
      invariant forall k :: k in m <==> k in ks || k in rest
      invariant forall k :: k in ks ==> k !in rest
      invariant Distinct(ks)
      invariant |ks| + |rest| == |m|
      decreases |rest|
    {
      var k :| k in rest;
      ks := ks + [k];
      rest := rest - {k};
    }
  }

  /** The values of `m` listed in the order of the key enumeration `ks`. */
  function ValuesAt<K, V>(m: map<K, V>, ks: seq<K>): (vs: seq<V>)
    requires forall k :: k in ks ==> k in m
    ensures |vs| == |ks| && forall i :: 0 <= i < |ks| ==> vs[i] == m[ks[i]]
  {
    seq(|ks|, i requires 0 <= i < |ks| => m[ks[i]])
  }

  /** What `new ArrayList<>(m.values())` holds: every stored value, once per key, in some order. */
  method ValuesOf<K(==), V>(m: map<K, V>) returns (vs: seq<V>, ks: seq<K>)
    ensures |ks| == |m| && Distinct(ks) && (forall k :: k in m <==> k in ks)
    ensures vs == ValuesAt(m, ks)
  {
    ks := KeysOf(m);
    vs := ValuesAt(m, ks);
  }
}
