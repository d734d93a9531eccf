/** Order-preserving selection over sequences: the model of `Array.prototype.filter`. */
module Sequences {

  /** `a` is obtained from `b` by dropping some elements, keeping the rest in order. */
  ghost predicate IsSubsequence<T>(a: seq<T>, b: seq<T>)
    decreases |b|
  {
    a == [] || (b != [] && ((a[0] == b[0] && IsSubsequence(a[1..], b[1..])) || IsSubsequence(a, b[1..])))
  }

  /** `s.filter(keep)`: the elements of `s` for which `keep` holds, in their original order. */
  function Select<T(!new)>(s: seq<T>, keep: T -> bool): (r: seq<T>)
    ensures |r| <= |s|
    ensures forall x :: x in r <==> x in s && keep(x)
    ensures forall x :: multiset(r)[x] == if keep(x) then multiset(s)[x] else 0
    decreases |s|
  {
    if s == [] then []
    else
      assert s == [s[0]] + s[1..];
      if keep(s[0]) then [s[0]] + Select(s[1..], keep)
      else Select(s[1..], keep)
  }

  /** Filtering only drops elements: the result is a subsequence of the input. */
  lemma {:induction false} SelectIsSubsequence<T(!new)>(s: seq<T>, keep: T -> bool)
    ensures IsSubsequence(Select(s, keep), s)
    decreases |s|
  {
    if s != [] {
      SelectIsSubsequence(s[1..], keep);
    }
  }

  /** A predicate that holds everywhere keeps the whole sequence. */
  lemma {:induction false} SelectAll<T(!new)>(s: seq<T>, keep: T -> bool)
    requires forall x :: x in s ==> keep(x)
    ensures Select(s, keep) == s
    decreases |s|
  {
    if s != [] {
      assert s == [s[0]] + s[1..];
      SelectAll(s[1..], keep);
    }
  }

  /** A stronger predicate keeps a subsequence of what a weaker one keeps. */
  lemma {:induction false} SelectStronger<T(!new)>(s: seq<T>, strong: T -> bool, weak: T -> bool)
    requires forall x :: x in s && strong(x) ==> weak(x)
    ensures IsSubsequence(Select(s, strong), Select(s, weak))
    decreases |s|
  {
    if s != [] {
      SelectStronger(s[1..], strong, weak);
      var rs, rw := Select(s[1..], strong), Select(s[1..], weak);
      if strong(s[0]) {
        assert Select(s, strong) == [s[0]] + rs && Select(s, weak) == [s[0]] + rw;
        assert ([s[0]] + rs)[1..] == rs && ([s[0]] + rw)[1..] == rw;
      } else if weak(s[0]) {
        assert Select(s, weak) == [s[0]] + rw;
        assert ([s[0]] + rw)[1..] == rw;
      }
    }
  }

  /** Predicates that agree on the elements of `s` select the same subsequence. */
  lemma {:induction false} SelectCongruent<T(!new)>(s: seq<T>, p: T -> bool, q: T -> bool)
    requires forall x :: x in s ==> p(x) == q(x)
    ensures Select(s, p) == Select(s, q)
    decreases |s|
  {
    if s != [] {
      SelectCongruent(s[1..], p, q);
    }
  }
}
