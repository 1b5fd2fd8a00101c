/** Array operations the pages use on in-memory lists: `filter` and `slice(0, n)`. */
module Lists {

  /** `r` can be obtained from `s` by deleting elements, keeping the rest in order
      (decided greedily, which is complete for subsequences). */
  predicate IsSubsequence<T(==)>(r: seq<T>, s: seq<T>)
    decreases |s|
  {
    if r == [] then true
    else if s == [] then false
    else if r[0] == s[0] then IsSubsequence(r[1..], s[1..])
    else IsSubsequence(r, s[1..])
  }

  /** No value occurs twice in `s`. */
  predicate Distinct<T(==)>(s: seq<T>) {
    forall i, j :: 0 <= i < j < |s| ==> s[i] != s[j]
  }

  /** `s.filter(p)`: the elements of `s` that satisfy `p`, in their original order. */
  function Filter<T(==)>(s: seq<T>, p: T -> bool): (r: seq<T>)
    ensures |r| <= |s|
    ensures forall i :: 0 <= i < |r| ==> r[i] in s && p(r[i])
    ensures forall i :: 0 <= i < |s| && p(s[i]) ==> s[i] in r
    ensures IsSubsequence(r, s)
    ensures multiset(r) <= multiset(s)
    ensures forall i :: 0 <= i < |s| && p(s[i]) ==> multiset(r)[s[i]] == multiset(s)[s[i]]
  {
    if s == [] then []
    else
      var t := Filter(s[1..], p);
      FilterCounts(s, p, t);
      FilterOrder(s, p, t);
      if p(s[0]) then [s[0]] + t else t
  }

  /** One step of `Filter`: if `t` is an order-preserving selection of the elements of `s[1..]`
      that satisfy `p`, then `t` with `s[0]` in front when it satisfies `p` is one for `s`. */
  lemma FilterOrder<T>(s: seq<T>, p: T -> bool, t: seq<T>)
    requires s != [] && |t| <= |s| - 1
    requires forall i :: 0 <= i < |t| ==> t[i] in s[1..] && p(t[i])
    requires forall i :: 1 <= i < |s| && p(s[i]) ==> s[i] in t
    requires IsSubsequence(t, s[1..])
    ensures var r := if p(s[0]) then [s[0]] + t else t;
      && |r| <= |s|
      && (forall i :: 0 <= i < |r| ==> r[i] in s && p(r[i]))
      && (forall i :: 0 <= i < |s| && p(s[i]) ==> s[i] in r)
      && IsSubsequence(r, s)
  {
    var r := if p(s[0]) then [s[0]] + t else t;
    if p(s[0]) {
      assert r[1..] == t;
    } else {
      assert t == [] || t[0] != s[0];
    }
    forall i | 0 <= i < |r| ensures r[i] in s && p(r[i]) {
      if !p(s[0]) || i > 0 {
        var k := if p(s[0]) then i - 1 else i;
        assert r[i] == t[k] && t[k] in s[1..];
      }
    }
    forall i | 0 <= i < |s| && p(s[i]) ensures s[i] in r {
      if i > 0 {
        assert s[i] == s[1..][i - 1];
      }
    }
  }

  /** One step of `Filter`: if `t` keeps every copy of each element of `s[1..]` that satisfies
      `p`, then `t` with `s[0]` in front when it satisfies `p` does so for `s`. */
  lemma FilterCounts<T>(s: seq<T>, p: T -> bool, t: seq<T>)
    requires s != []
    requires multiset(t) <= multiset(s[1..])
    requires forall i :: 0 <= i < |s[1..]| && p(s[1..][i]) ==> multiset(t)[s[1..][i]] == multiset(s[1..])[s[1..][i]]
    ensures var r := if p(s[0]) then [s[0]] + t else t;
      && multiset(r) <= multiset(s)
      && forall i :: 0 <= i < |s| && p(s[i]) ==> multiset(r)[s[i]] == multiset(s)[s[i]]
  {
    var tail := s[1..];
    assert s == [s[0]] + tail;
    assert multiset(s) == multiset{s[0]} + multiset(tail);
    var r := if p(s[0]) then [s[0]] + t else t;
    assert multiset(r) == if p(s[0]) then multiset{s[0]} + multiset(t) else multiset(t);
    forall i | 0 <= i < |s| && p(s[i]) ensures multiset(r)[s[i]] == multiset(s)[s[i]] {
      var x := s[i];
      if x in tail {
        var j :| 0 <= j < |tail| && tail[j] == x;
        assert multiset(t)[x] == multiset(tail)[x];
      } else {
        assert multiset(tail)[x] == 0;
      }
    }
  }

  /** Filtering with a predicate every element satisfies returns the list itself. */
  lemma {:induction false} FilterKeepsAll<T>(s: seq<T>, p: T -> bool)
    requires forall i :: 0 <= i < |s| ==> p(s[i])
    ensures Filter(s, p) == s
  {
    if s != [] {
      FilterKeepsAll(s[1..], p);
    }
  }

  /** When `p` and `q` split the elements of `s` between them, the two filters together
      have as many elements as `s`. */
  lemma {:induction false} FilterSplit<T>(s: seq<T>, p: T -> bool, q: T -> bool)
    requires forall i :: 0 <= i < |s| ==> (p(s[i]) <==> !q(s[i]))
    ensures |Filter(s, p)| + |Filter(s, q)| == |s|
  {
    if s != [] {
      FilterSplit(s[1..], p, q);
    }
  }

  /** Filtering preserves the absence of duplicates. */
  lemma {:induction false} FilterDistinct<T>(s: seq<T>, p: T -> bool)
    requires Distinct(s)
    ensures Distinct(Filter(s, p))
  {
    if s != [] {
      FilterDistinct(s[1..], p);
      var t := Filter(s[1..], p);
      if p(s[0]) {
        var r := [s[0]] + t;
        forall i, j | 0 <= i < j < |r| ensures r[i] != r[j] {
          if i == 0 {
            assert r[j] in t;
          }
        }
      }
    }
  }

  /** `s.slice(0, n)`: the first `n` elements of `s`, or all of them when there are fewer. */
  function Take<T>(s: seq<T>, n: nat): (r: seq<T>)
    ensures |r| == if |s| < n then |s| else n
    ensures r == s[..|r|]
  {
    if |s| < n then s else s[..n]
  }
}
