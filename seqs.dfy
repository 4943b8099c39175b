/**
 * The two list operations the handlers build their results from: keeping the
 * elements of a list that satisfy a test (`Array.prototype.filter`), and the
 * substring test of `String.prototype.includes`.
 */
module Seqs {

  /** `r` is `s` with some elements left out, the rest in their order. */
  predicate IsSubsequence<T(==)>(r: seq<T>, s: seq<T>)
    decreases |s|
  {
    if r == [] then true
    else if s == [] then false
    else (r[0] == s[0] && IsSubsequence(r[1..], s[1..])) || IsSubsequence(r, s[1..])
  }

  /**
   * `s.filter(p)`: every element that satisfies `p`, as often as it occurs in
   * `s`, and no other element.
   */
  function Keep<T(==)>(s: seq<T>, p: T -> bool): (r: seq<T>)
    ensures |r| <= |s|
    ensures forall x :: x in r ==> x in s && p(x)
    ensures forall x :: x in s ==> multiset(r)[x] == if p(x) then multiset(s)[x] else 0
  {
    if s == [] then []
    else
      var rest := Keep(s[1..], p);
      assert s == [s[0]] + s[1..];
      if p(s[0]) then [s[0]] + rest else rest
  }

  /** The elements `Keep` returns are in the order `s` has them. */
  lemma {:induction false} KeepIsSubsequence<T>(s: seq<T>, p: T -> bool)
    ensures IsSubsequence(Keep(s, p), s)
  {
    if s != [] {
      KeepIsSubsequence(s[1..], p);
      var rest := Keep(s[1..], p);
      if !p(s[0]) {
        SubsequenceOfTail(rest, s);
      }
    }
  }

  lemma {:induction false} SubsequenceOfTail<T>(r: seq<T>, s: seq<T>)
    requires s != [] && IsSubsequence(r, s[1..])
    ensures IsSubsequence(r, s)
  {
  }

  /** `q` occurs in `s` starting at index `i`. */
  predicate OccursAt(s: string, q: string, i: int) {
    0 <= i && i + |q| <= |s| && s[i..i + |q|] == q
  }

  /** `s.includes(q)`, scanning `s` from the left. */
  predicate Includes(s: string, q: string)
    decreases |s|
  {
    if |q| > |s| then false
    else s[..|q|] == q || Includes(s[1..], q)
  }

  /** `Includes` holds exactly when `q` occurs somewhere in `s`. */
  lemma {:induction false} IncludesIffOccurs(s: string, q: string)
    ensures Includes(s, q) <==> exists i :: OccursAt(s, q, i)
  {
    if |q| <= |s| {
      if s[..|q|] == q {
        assert OccursAt(s, q, 0);
      } else {
        IncludesIffOccurs(s[1..], q);
        if Includes(s[1..], q) {
          var i :| OccursAt(s[1..], q, i);
          assert s[1..][i..i + |q|] == s[i + 1..i + 1 + |q|];
          assert OccursAt(s, q, i + 1);
        }
        if i :| OccursAt(s, q, i) {
          assert i != 0;
          assert s[1..][i - 1..i - 1 + |q|] == s[i..i + |q|];
          assert OccursAt(s[1..], q, i - 1);
        }
      }
    } else {
      if i :| OccursAt(s, q, i) {
        assert false;
      }
    }
  }

  /** The empty string occurs in every string. */
  lemma EveryStringIncludesEmpty(s: string)
    ensures Includes(s, "")
  {
    assert s[..0] == "";
  }
}
