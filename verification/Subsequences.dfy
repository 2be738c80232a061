/** Order-preserving sublists: what pruning a target list leaves. */
module Subsequences {

  predicate IsSubsequence<T(==)>(a: seq<T>, b: seq<T>) {
    if a == [] then true
    else if b == [] then false
    else if a[0] == b[0] then IsSubsequence(a[1..], b[1..])
    else IsSubsequence(a, b[1..])
  }

  /** The elements whose probe answered, in order; a missing answer counts as a failed probe. */
  function Keep<T>(s: seq<T>, up: seq<bool>): (r: seq<T>)
    ensures |r| <= |s|
  {
    if s == [] || up == [] then []
    else (if up[0] then [s[0]] else []) + Keep(s[1..], up[1..])
  }

  lemma SubsequenceWeakens<T>(a: seq<T>, b: seq<T>)
    requires b != [] && IsSubsequence(a, b[1..])
    ensures IsSubsequence(a, b)
    decreases |b|, 0
  {
    if a != [] && a[0] == b[0] {
      SubsequenceTail(a, b[1..]);
    }
  }

  lemma {:induction false} SubsequenceTail<T>(a: seq<T>, b: seq<T>)
    requires a != [] && IsSubsequence(a, b)
    ensures IsSubsequence(a[1..], b)
    decreases |b|, 1
  {
    if a[0] == b[0] {
      SubsequenceWeakens(a[1..], b);
    } else {
      SubsequenceTail(a, b[1..]);
      SubsequenceWeakens(a[1..], b);
    }
  }

  lemma {:induction false} SubsequenceIsTransitive<T>(a: seq<T>, b: seq<T>, c: seq<T>)
    requires IsSubsequence(a, b) && IsSubsequence(b, c)
    ensures IsSubsequence(a, c)
    decreases |c|
  {
    if a == [] {
    } else {
      if b[0] == c[0] {
        if a[0] == b[0] {
          SubsequenceIsTransitive(a[1..], b[1..], c[1..]);
        } else {
          SubsequenceIsTransitive(a, b[1..], c[1..]);
        }
      } else {
        SubsequenceIsTransitive(a, b, c[1..]);
        SubsequenceWeakens(a, c);
      }
    }
  }

  lemma {:induction false} KeepIsSubsequence<T>(s: seq<T>, up: seq<bool>)
    ensures IsSubsequence(Keep(s, up), s)
  {
    if s != [] && up != [] {
      KeepIsSubsequence(s[1..], up[1..]);
      if up[0] {
        assert Keep(s, up)[1..] == Keep(s[1..], up[1..]);
      } else {
        assert Keep(s, up) == Keep(s[1..], up[1..]);
        SubsequenceWeakens(Keep(s[1..], up[1..]), s);
      }
    }
  }

  lemma {:induction false} SubsequenceMembers<T>(a: seq<T>, b: seq<T>, x: T)
    requires IsSubsequence(a, b) && x in a
    ensures x in b
    decreases |b|
  {
    if a[0] == b[0] {
      if x != a[0] {
        assert x in a[1..];
        SubsequenceMembers(a[1..], b[1..], x);
      }
    } else {
      SubsequenceMembers(a, b[1..], x);
    }
  }

  lemma {:induction false} SubsequenceLength<T>(a: seq<T>, b: seq<T>)
    requires IsSubsequence(a, b)
    ensures |a| <= |b|
  {
    if a == [] {
    } else {
      if a[0] == b[0] {
        SubsequenceLength(a[1..], b[1..]);
      } else {
        SubsequenceLength(a, b[1..]);
      }
    }
  }
}
