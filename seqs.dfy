/** The array methods the application builds its lists with: `filter`, `map`
    and `find`, and the order facts about them. */
module Seqs {
  import opened Js

  /** `s` appears in `t` in the same relative order, possibly with gaps. */
  ghost predicate IsSubsequence<T>(s: seq<T>, t: seq<T>)
    decreases |t|
  {
    if s == [] then true
    else if t == [] then false
    else (s[0] == t[0] && IsSubsequence(s[1..], t[1..])) || IsSubsequence(s, t[1..])
  }

  /** No element occurs twice. */
  ghost predicate Distinct<T>(s: seq<T>) {
    forall i, j :: 0 <= i < j < |s| ==> s[i] != s[j]
  }

  /** `s.filter(keep)`. */
  function Filter<T(!new)>(s: seq<T>, keep: T -> bool): (r: seq<T>)
    ensures |r| <= |s|
    ensures forall x :: x in r <==> x in s && keep(x)
  {
    if s == [] then [] else (if keep(s[0]) then [s[0]] else []) + Filter(s[1..], keep)
  }

  /** `s.map(f)`. */
  function Map<T, U>(s: seq<T>, f: T -> U): (r: seq<U>)
    ensures |r| == |s|
    ensures forall i :: 0 <= i < |s| ==> r[i] == f(s[i])
  {
    seq(|s|, i requires 0 <= i < |s| => f(s[i]))
  }

  /** `s.find(p)`: the first element satisfying `p`, if any. */
  function Find<T(!new)>(s: seq<T>, p: T -> bool): (r: Option<T>)
    ensures r.Some? ==> r.value in s && p(r.value)
    ensures r.None? <==> forall x :: x in s ==> !p(x)
  {
    if s == [] then None else if p(s[0]) then Some(s[0]) else Find(s[1..], p)
  }

  /** `find` returns the element at the first index that satisfies `p`. */
  lemma {:induction false} FindIsFirst<T(!new)>(s: seq<T>, p: T -> bool)
    requires Find(s, p).Some?
    ensures exists i :: 0 <= i < |s| && s[i] == Find(s, p).value
                        && forall j :: 0 <= j < i ==> !p(s[j])
  {
    if p(s[0]) {
      assert s[0] == Find(s, p).value;
    } else {
      FindIsFirst(s[1..], p);
      var i :| 0 <= i < |s| - 1 && s[1..][i] == Find(s, p).value
               && forall j :: 0 <= j < i ==> !p(s[1..][j]);
      assert s[i + 1] == Find(s, p).value;
      forall j | 0 <= j < i + 1 ensures !p(s[j]) {
        if j > 0 { assert s[j] == s[1..][j - 1]; }
      }
    }
  }

  /** `filter` keeps the relative order of what it keeps. */
  lemma {:induction false} FilterIsSubsequence<T(!new)>(s: seq<T>, keep: T -> bool)
    ensures IsSubsequence(Filter(s, keep), s)
    decreases |s|
  {
    if s != [] {
      FilterIsSubsequence(s[1..], keep);
      if keep(s[0]) {
        assert Filter(s, keep)[1..] == Filter(s[1..], keep);
      } else {
        assert Filter(s, keep) == Filter(s[1..], keep);
      }
    }
  }

  /** A filter that keeps every element returns the array unchanged. */
  lemma {:induction false} FilterKeepsAll<T(!new)>(s: seq<T>, keep: T -> bool)
    requires forall x :: x in s ==> keep(x)
    ensures Filter(s, keep) == s
    decreases |s|
  {
    if s != [] {
      FilterKeepsAll(s[1..], keep);
      assert [s[0]] + s[1..] == s;
    }
  }

  /** Filtering twice with the same predicate is filtering once. */
  lemma FilterIdempotent<T(!new)>(s: seq<T>, keep: T -> bool)
    ensures Filter(Filter(s, keep), keep) == Filter(s, keep)
  {
    FilterKeepsAll(Filter(s, keep), keep);
  }

  /** `filter` distributes over concatenation. */
  lemma {:induction false} FilterAppend<T(!new)>(a: seq<T>, b: seq<T>, keep: T -> bool)
    ensures Filter(a + b, keep) == Filter(a, keep) + Filter(b, keep)
    decreases |a|
  {
    if a == [] {
      assert a + b == b;
    } else {
      var head := if keep(a[0]) then [a[0]] else [];
      assert (a + b)[0] == a[0] && (a + b)[1..] == a[1..] + b;
      assert Filter(a + b, keep) == head + Filter(a[1..] + b, keep);
      FilterAppend(a[1..], b, keep);
      assert Filter(a, keep) == head + Filter(a[1..], keep);
    }
  }

  /** Two predicates that agree on every element filter alike. */
  lemma {:induction false} FilterCongruent<T(!new)>(s: seq<T>, p: T -> bool, q: T -> bool)
    requires forall x :: x in s ==> p(x) == q(x)
    ensures Filter(s, p) == Filter(s, q)
    decreases |s|
  {
    if s != [] {
      FilterCongruent(s[1..], p, q);
    }
  }

  /** A subsequence of a duplicate-free array is duplicate-free. */
  lemma {:induction false} SubsequenceOfDistinct<T>(s: seq<T>, t: seq<T>)
    requires IsSubsequence(s, t) && Distinct(t)
    ensures Distinct(s)
    decreases |t|
  {
    if s != [] && t != [] {
      if s[0] == t[0] && IsSubsequence(s[1..], t[1..]) {
        SubsequenceOfDistinct(s[1..], t[1..]);
        SubsequenceIncluded(s[1..], t[1..]);
        forall j | 0 < j < |s| ensures s[0] != s[j] {
          assert s[j] == s[1..][j - 1];
          assert s[j] in s[1..];
          var k :| 0 <= k < |t| - 1 && t[1..][k] == s[j];
          assert t[k + 1] == s[j];
        }
        forall i, j | 0 <= i < j < |s| ensures s[i] != s[j] {
          if i > 0 { assert s[i] == s[1..][i - 1] && s[j] == s[1..][j - 1]; }
        }
      } else {
        SubsequenceOfDistinct(s, t[1..]);
      }
    }
  }

  /** Every element of a subsequence comes from the array. */
  lemma {:induction false} SubsequenceIncluded<T>(s: seq<T>, t: seq<T>)
    requires IsSubsequence(s, t)
    ensures forall x :: x in s ==> exists k :: 0 <= k < |t| && t[k] == x
    decreases |t|
  {
    if s != [] && t != [] {
      if s[0] == t[0] && IsSubsequence(s[1..], t[1..]) {
        SubsequenceIncluded(s[1..], t[1..]);
        forall x | x in s ensures exists k :: 0 <= k < |t| && t[k] == x {
          if x == s[0] {
            assert t[0] == x;
          } else {
            assert x in s[1..];
            var k :| 0 <= k < |t| - 1 && t[1..][k] == x;
            assert t[k + 1] == x;
          }
        }
      } else {
        SubsequenceIncluded(s, t[1..]);
        forall x | x in s ensures exists k :: 0 <= k < |t| && t[k] == x {
          var k :| 0 <= k < |t| - 1 && t[1..][k] == x;
          assert t[k + 1] == x;
        }
      }
    }
  }

  /** Appending an element not yet present keeps an array duplicate-free. */
  lemma AppendFresh<T>(s: seq<T>, x: T)
    requires Distinct(s) && x !in s
    ensures Distinct(s + [x])
  {
    var r := s + [x];
    forall i, j | 0 <= i < j < |r| ensures r[i] != r[j] {
      assert r[i] == s[i];
      if j == |s| {
        assert s[i] in s;
      } else {
        assert r[j] == s[j];
      }
    }
  }

  /** Filtering a duplicate-free array keeps it duplicate-free. */
  lemma FilterDistinct<T(!new)>(s: seq<T>, keep: T -> bool)
    requires Distinct(s)
    ensures Distinct(Filter(s, keep))
  {
    FilterIsSubsequence(s, keep);
    SubsequenceOfDistinct(Filter(s, keep), s);
  }

  /** Removing one element that occurs exactly once shortens the array by one. */
  lemma {:induction false} FilterOutOne<T(!new)>(s: seq<T>, x: T, keep: T -> bool)
    requires Distinct(s) && x in s
    requires forall y :: keep(y) <==> y != x
    ensures |Filter(s, keep)| == |s| - 1
    decreases |s|
  {
    if s[0] == x {
      forall y | y in s[1..] ensures keep(y) {
        var k :| 0 <= k < |s| - 1 && s[1..][k] == y;
        assert s[k + 1] == y;
      }
      FilterKeepsAll(s[1..], keep);
    } else {
      assert x in s[1..];
      assert Distinct(s[1..]) by {
        forall i, j | 0 <= i < j < |s| - 1 ensures s[1..][i] != s[1..][j] {
          assert s[1..][i] == s[i + 1] && s[1..][j] == s[j + 1];
        }
      }
      FilterOutOne(s[1..], x, keep);
    }
  }
}
