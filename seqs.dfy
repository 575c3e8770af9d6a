/**
 * The two array combinators every store is written with: `filter` (keep the
 * elements a predicate accepts, in order) and `find` (the first element a
 * predicate accepts, or nothing).
 */
module Seqs {
  import opened Wrappers

  /** The elements of `s` that `keep` accepts, in their original order. */
  function Filter<T>(s: seq<T>, keep: T -> bool): (r: seq<T>)
    ensures |r| <= |s|
    ensures forall i :: 0 <= i < |r| ==> r[i] in s && keep(r[i])
    ensures forall i :: 0 <= i < |s| && keep(s[i]) ==> s[i] in r
  {
    if s == [] then []
    else if keep(s[0]) then [s[0]] + Filter(s[1..], keep)
    else Filter(s[1..], keep)
  }

  /** Filtering a concatenation filters each part: the survivors keep their relative order. */
  lemma {:induction false} FilterConcat<T>(a: seq<T>, b: seq<T>, keep: T -> bool)
    ensures Filter(a + b, keep) == Filter(a, keep) + Filter(b, keep)
  {
    if a == [] {
      assert a + b == b;
    } else {
      assert (a + b)[0] == a[0];
      assert (a + b)[1..] == a[1..] + b;
      FilterConcat(a[1..], b, keep);
    }
  }

  /** A filter that accepts every element returns its input unchanged. */
  lemma {:induction false} FilterKeepsAll<T>(s: seq<T>, keep: T -> bool)
    requires forall i :: 0 <= i < |s| ==> keep(s[i])
    ensures Filter(s, keep) == s
  {
    if s != [] {
      FilterKeepsAll(s[1..], keep);
    }
  }

  /** A filter that rejects every element returns nothing. */
  lemma {:induction false} FilterDropsAll<T>(s: seq<T>, keep: T -> bool)
    requires forall i :: 0 <= i < |s| ==> !keep(s[i])
    ensures Filter(s, keep) == []
  {
    if s != [] {
      FilterDropsAll(s[1..], keep);
    }
  }

  /** Two successive filters can be applied in either order. */
  lemma {:induction false} FilterCommutes<T>(s: seq<T>, p: T -> bool, q: T -> bool)
    ensures Filter(Filter(s, p), q) == Filter(Filter(s, q), p)
  {
    if s != [] {
      FilterCommutes(s[1..], p, q);
    }
  }

  /** Filter keeps one element per accepted position: its length is the number of positions `keep` accepts. */
  lemma FilterCount<T>(s: seq<T>, keep: T -> bool)
    ensures |Filter(s, keep)| == |Accepted(s, keep)|
  {
    FilterPrefixCount(s, keep, |s|);
    assert s[..|s|] == s;
  }

  /** The positions of `s` whose element `keep` accepts. */
  function Accepted<T>(s: seq<T>, keep: T -> bool): set<int> {
    set j | 0 <= j < |s| && keep(s[j])
  }

  lemma {:induction false} FilterPrefixCount<T>(s: seq<T>, keep: T -> bool, k: int)
    requires 0 <= k <= |s|
    ensures |Filter(s[..k], keep)| == |set j | 0 <= j < k && keep(s[j])|
  {
    if k > 0 {
      FilterPrefixCount(s, keep, k - 1);
      var below := set j | 0 <= j < k - 1 && keep(s[j]);
      var upTo := set j | 0 <= j < k && keep(s[j]);
      assert s[..k] == s[..k - 1] + [s[k - 1]];
      FilterConcat(s[..k - 1], [s[k - 1]], keep);
      assert [s[k - 1]][1..] == [];
      if keep(s[k - 1]) {
        assert upTo == below + {k - 1};
      } else {
        assert upTo == below;
      }
    }
  }

  /** The first element of `s` that `p` accepts, if there is one. */
  function Find<T>(s: seq<T>, p: T -> bool): (r: Option<T>)
    ensures r.Some? ==> r.value in s && p(r.value)
    ensures r.None? <==> forall i :: 0 <= i < |s| ==> !p(s[i])
  {
    if s == [] then None
    else if p(s[0]) then Some(s[0])
    else Find(s[1..], p)
  }

  /** Find returns the element at the first accepted position. */
  lemma {:induction false} FindFirst<T>(s: seq<T>, p: T -> bool, k: int)
    requires 0 <= k < |s| && p(s[k])
    requires forall j :: 0 <= j < k ==> !p(s[j])
    ensures Find(s, p) == Some(s[k])
  {
    if k > 0 {
      assert !p(s[0]);
      FindFirst(s[1..], p, k - 1);
    }
  }

  /** When Find succeeds, what it returns sits at the first position `p` accepts. */
  lemma {:induction false} FindIsFirst<T>(s: seq<T>, p: T -> bool) returns (k: int)
    requires Find(s, p).Some?
    ensures 0 <= k < |s| && s[k] == Find(s, p).value && p(s[k])
    ensures forall j :: 0 <= j < k ==> !p(s[j])
  {
    if p(s[0]) {
      k := 0;
    } else {
      var k' := FindIsFirst(s[1..], p);
      k := k' + 1;
    }
  }
}
