/**
 * Lexicographic order on strings, character by character (Java's `String.compareTo` and
 * Python's `str` comparison), and the sorted listing of a set of names that both
 * `Stream.sorted(Comparator.comparing(...))` and Python's `sorted` produce on distinct keys.
 */
module Ordering {
  import opened Common

  /** `a` sorts strictly before `b`: first differing character decides, a proper prefix sorts first. */
  predicate Before(a: string, b: string)
    decreases |a|
  {
    if |a| == 0 then |b| > 0
    else if |b| == 0 then false
    else if a[0] != b[0] then a[0] < b[0]
    else Before(a[1..], b[1..])
  }

  lemma {:induction false} BeforeIrreflexive(a: string)
    ensures !Before(a, a)
    decreases |a|
  {
    if |a| > 0 {
      BeforeIrreflexive(a[1..]);
    }
  }

  lemma {:induction false} BeforeTotal(a: string, b: string)
    ensures a == b || Before(a, b) || Before(b, a)
    decreases |a|
  {
    if |a| > 0 && |b| > 0 && a[0] == b[0] {
      BeforeTotal(a[1..], b[1..]);
      if a[1..] == b[1..] {
        assert a == [a[0]] + a[1..] && b == [b[0]] + b[1..];
      }
    }
  }

  lemma {:induction false} BeforeAsymmetric(a: string, b: string)
    requires Before(a, b)
    ensures !Before(b, a)
    decreases |a|
  {
    if |a| > 0 && |b| > 0 && a[0] == b[0] {
      BeforeAsymmetric(a[1..], b[1..]);
    }
  }

  lemma {:induction false} BeforeTransitive(a: string, b: string, c: string)
    requires Before(a, b) && Before(b, c)
    ensures Before(a, c)
    decreases |a|
  {
    if |a| > 0 && |b| > 0 && |c| > 0 && a[0] == b[0] && b[0] == c[0] {
      BeforeTransitive(a[1..], b[1..], c[1..]);
    }
  }

  /** Strictly ascending, hence also free of duplicates. */
  predicate Ascending(s: seq<string>)
  {
    forall i, j :: 0 <= i < j < |s| ==> Before(s[i], s[j])
  }

  /** Strictly descending. */
  predicate Descending(s: seq<string>)
  {
    forall i, j :: 0 <= i < j < |s| ==> Before(s[j], s[i])
  }

  /** `x` placed into the ascending list `s` in front of the first element it sorts before. */
  function Insert(s: seq<string>, x: string): (r: seq<string>)
    decreases |s|
  {
    if s == [] then [x]
    else if Before(x, s[0]) then [x] + s
    else [s[0]] + Insert(s[1..], x)
  }

  lemma {:induction false} InsertContents(s: seq<string>, x: string)
    ensures |Insert(s, x)| == |s| + 1
    ensures forall y :: y in Insert(s, x) <==> y == x || y in s
    decreases |s|
  {
    if s != [] && !Before(x, s[0]) {
      InsertContents(s[1..], x);
      assert s == [s[0]] + s[1..];
    }
  }

  lemma {:induction false} InsertAscending(s: seq<string>, x: string)
    requires Ascending(s) && x !in s
    ensures Ascending(Insert(s, x))
    decreases |s|
  {
    InsertContents(s, x);
    if s != [] {
      if Before(x, s[0]) {
        var r := Insert(s, x);
        forall i, j | 0 <= i < j < |r| ensures Before(r[i], r[j]) {
          if i == 0 && j > 1 {
            BeforeTransitive(x, s[0], s[j - 1]);
          }
        }
      } else {
        BeforeTotal(x, s[0]);
        InsertAscending(s[1..], x);
        InsertContents(s[1..], x);
        var r := Insert(s, x);
        forall i, j | 0 <= i < j < |r| ensures Before(r[i], r[j]) {
          if i == 0 {
            assert r[j] in Insert(s[1..], x);
            if r[j] != x {
              var k :| 0 <= k < |s[1..]| && s[1..][k] == r[j];
              assert s[k + 1] == r[j];
            }
          }
        }
      }
    }
  }

  /** Two ascending lists with the same elements are equal: the sorted listing is unique. */
  lemma {:induction false} AscendingUnique(s: seq<string>, t: seq<string>)
    requires Ascending(s) && Ascending(t)
    requires forall y :: y in s <==> y in t
    ensures s == t
    decreases |s|
  {
    if s != [] {
      assert s[0] in t;
    }
    if t != [] {
      assert t[0] in s;
    }
    if s != [] && t != [] {
      if s[0] != t[0] {
        var i :| 0 <= i < |t| && t[i] == s[0];
        var j :| 0 <= j < |s| && s[j] == t[0];
        assert Before(t[0], s[0]) && Before(s[0], t[0]);
        BeforeAsymmetric(t[0], s[0]);
      }
      forall y ensures y in s[1..] <==> y in t[1..] {
        if y in s[1..] {
          var k :| 0 <= k < |s[1..]| && s[1..][k] == y;
          assert Before(s[0], s[k + 1]);
          BeforeIrreflexive(s[0]);
          assert s[k + 1] in s && y in t;
          var m :| 0 <= m < |t| && t[m] == y;
          assert m != 0;
          assert t[1..][m - 1] == y;
        }
        if y in t[1..] {
          var k :| 0 <= k < |t[1..]| && t[1..][k] == y;
          assert Before(t[0], t[k + 1]);
          BeforeIrreflexive(t[0]);
          assert t[k + 1] in t && y in s;
          var m :| 0 <= m < |s| && s[m] == y;
          assert m != 0;
          assert s[1..][m - 1] == y;
        }
      }
      AscendingUnique(s[1..], t[1..]);
      assert s == [s[0]] + s[1..] && t == [t[0]] + t[1..];
    }
  }

  /** The members of `names` in ascending order, each once. */
  method SortedNames(names: set<string>) returns (r: seq<string>)
    ensures Ascending(r) && |r| == |names|
    ensures forall y :: y in r <==> y in names
  {
    r := [];
    var rest := names;
    while rest != {}
      invariant Ascending(r)
      invariant forall y :: y in names <==> y in r || y in rest
      invariant forall y :: y in r ==> y !in rest
      invariant |r| + |rest| == |names|
      decreases |rest|
    {
      var x :| x in rest;
      InsertAscending(r, x);
      InsertContents(r, x);
      r := Insert(r, x);
      rest := rest - {x};
    }
  }

  /** `s` in reverse order. */
  function Reversed(s: seq<string>): (r: seq<string>)
    ensures |r| == |s| && forall i :: 0 <= i < |s| ==> r[i] == s[|s| - 1 - i]
  {
    seq(|s|, i requires 0 <= i < |s| => s[|s| - 1 - i])
  }
}
