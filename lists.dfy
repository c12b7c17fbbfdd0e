/** The two list updates the frontend components apply to their state arrays:
    `prev.map(x => p(x) ? f(x) : x)` and `prev.filter(x => !p(x))`. */
module Lists {

  /** `s.map(x => p(x) ? f(x) : x)`. */
  function ReplaceWhere<T>(s: seq<T>, p: T -> bool, f: T -> T): (r: seq<T>)
    ensures |r| == |s|
    ensures forall i :: 0 <= i < |s| ==> r[i] == if p(s[i]) then f(s[i]) else s[i]
  {
    if s == [] then [] else [if p(s[0]) then f(s[0]) else s[0]] + ReplaceWhere(s[1..], p, f)
  }

  /** `s.filter(x => !p(x))`. */
  function RemoveWhere<T(!new)>(s: seq<T>, p: T -> bool): (r: seq<T>)
    ensures forall i :: 0 <= i < |r| ==> !p(r[i])
    ensures Subsequence(r, s)
  {
    if s == [] then []
    else if p(s[0]) then RemoveWhere(s[1..], p)
    else [s[0]] + RemoveWhere(s[1..], p)
  }

  /** Filtering drops every occurrence of a matching element and keeps every occurrence of
      the others. */
  lemma {:induction false} RemoveWhereCounts<T(!new)>(s: seq<T>, p: T -> bool, x: T)
    ensures multiset(RemoveWhere(s, p))[x] == if p(x) then 0 else multiset(s)[x]
  {
    if s != [] {
      assert s == [s[0]] + s[1..];
      RemoveWhereCounts(s[1..], p, x);
      if !p(s[0]) {
        assert RemoveWhere(s, p) == [s[0]] + RemoveWhere(s[1..], p);
      }
    }
  }

  /** a is b with some elements deleted, the rest kept in their order. */
  ghost predicate Subsequence<T>(a: seq<T>, b: seq<T>)
    decreases |b|
  {
    if a == [] then true
    else if b == [] then false
    else (a[0] == b[0] && Subsequence(a[1..], b[1..])) || Subsequence(a, b[1..])
  }

  lemma {:induction false} ReplaceWhereNoMatch<T>(s: seq<T>, p: T -> bool, f: T -> T)
    requires forall i :: 0 <= i < |s| ==> !p(s[i])
    ensures ReplaceWhere(s, p, f) == s
  {
  }

  lemma {:induction false} RemoveWhereNoMatch<T(!new)>(s: seq<T>, p: T -> bool)
    requires forall i :: 0 <= i < |s| ==> !p(s[i])
    ensures RemoveWhere(s, p) == s
  {
    if s != [] {
      RemoveWhereNoMatch(s[1..], p);
    }
  }

  /** Filtering a concatenation filters each part. */
  lemma {:induction false} RemoveWhereAppend<T(!new)>(a: seq<T>, b: seq<T>, p: T -> bool)
    ensures RemoveWhere(a + b, p) == RemoveWhere(a, p) + RemoveWhere(b, p)
  {
    if a == [] {
      assert a + b == b;
    } else {
      assert (a + b)[0] == a[0] && (a + b)[1..] == a[1..] + b;
      RemoveWhereAppend(a[1..], b, p);
    }
  }

  /** Mapping a concatenation maps each part. */
  lemma ReplaceWhereAppend<T>(a: seq<T>, b: seq<T>, p: T -> bool, f: T -> T)
    ensures ReplaceWhere(a + b, p, f) == ReplaceWhere(a, p, f) + ReplaceWhere(b, p, f)
  {
  }
}
