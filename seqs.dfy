/** Sequence helpers shared by the modules: filtering and joining. */
module Seqs {
  import opened Wrappers


  /** The elements of `s` that satisfy `p`, in their original order. */
  function Filter<T>(p: T -> bool, s: seq<T>): (r: seq<T>)
    ensures |r| <= |s|
    ensures forall x :: x in r ==> x in s && p(x)
    ensures forall x :: x in s && p(x) ==> x in r
  {
    if s == [] then []
    else if p(s[0]) then [s[0]] + Filter(p, s[1..])
    else Filter(p, s[1..])
  }

  /** `sub` is obtained from `s` by deleting elements (order is preserved). */
  predicate IsSubsequence<T(==)>(sub: seq<T>, s: seq<T>)
    decreases |s|
  {
    if sub == [] then true
    else if s == [] then false
    else if sub[0] == s[0] then IsSubsequence(sub[1..], s[1..])
    else IsSubsequence(sub, s[1..])
  }

  lemma {:induction false} FilterIsSubsequence<T>(p: T -> bool, s: seq<T>)
    ensures IsSubsequence(Filter(p, s), s)
  {
    if s != [] {
      FilterIsSubsequence(p, s[1..]);
      if !p(s[0]) {
        SubsequenceSkip(Filter(p, s[1..]), s[0], s[1..]);
      }
    }
  }

  lemma {:induction false} SubsequenceSkip<T>(sub: seq<T>, x: T, s: seq<T>)
    requires IsSubsequence(sub, s)
    ensures IsSubsequence(sub, [x] + s)
    decreases |s|, 1
  {
    if sub != [] && sub[0] == x {
      // the head matches x, so the rest must be a subsequence of s
      assert ([x] + s)[1..] == s;
      SubsequenceDropHead(sub, s);
    } else {
      assert ([x] + s)[1..] == s;
    }
  }

  lemma {:induction false} SubsequenceDropHead<T>(sub: seq<T>, s: seq<T>)
    requires sub != [] && IsSubsequence(sub, s)
    ensures IsSubsequence(sub[1..], s)
    decreases |s|, 0
  {
    if s != [] {
      if sub[0] == s[0] {
        if sub[1..] != [] {
          SubsequenceSkip(sub[1..], s[0], s[1..]);
          assert [s[0]] + s[1..] == s;
        }
      } else {
        SubsequenceDropHead(sub, s[1..]);
        if sub[1..] != [] {
          SubsequenceSkip(sub[1..], s[0], s[1..]);
          assert [s[0]] + s[1..] == s;
        }
      }
    }
  }

  /** Filtering distributes over concatenation (used by loops that filter one element at a time). */
  lemma {:induction false} FilterAppend<T>(p: T -> bool, s: seq<T>, x: T)
    ensures Filter(p, s + [x]) == Filter(p, s) + (if p(x) then [x] else [])
  {
    if s == [] {
      assert s + [x] == [x];
    } else {
      assert (s + [x])[1..] == s[1..] + [x];
      FilterAppend(p, s[1..], x);
    }
  }

  /** `xs` and `ys` have the same length and `rel` holds between the elements at each index. */
  predicate Pointwise<A, B>(xs: seq<A>, ys: seq<B>, rel: (A, B) -> bool) {
    |xs| == |ys| && forall j :: 0 <= j < |xs| ==> rel(xs[j], ys[j])
  }

  lemma PointwiseAppend<A, B>(xs0: seq<A>, ys0: seq<B>, xs1: seq<A>, ys1: seq<B>, rel: (A, B) -> bool)
    requires Pointwise(xs0, ys0, rel) && Pointwise(xs1, ys1, rel)
    ensures Pointwise(xs0 + xs1, ys0 + ys1, rel)
  {
    var xs, ys := xs0 + xs1, ys0 + ys1;
    forall j | 0 <= j < |xs|
      ensures rel(xs[j], ys[j])
    {
      if j >= |xs0| {
        assert xs[j] == xs1[j - |xs0|] && ys[j] == ys1[j - |xs0|];
      }
    }
  }

  /** The strings of `ls`, separated by `sep` (Python `sep.join(ls)`, JavaScript `ls.join(sep)`). */
  function Join(ls: seq<string>, sep: string): (r: string)
    ensures ls == [] ==> r == ""
    ensures |ls| == 1 ==> r == ls[0]
  {
    if ls == [] then ""
    else if |ls| == 1 then ls[0]
    else ls[0] + sep + Join(ls[1..], sep)
  }

  lemma {:induction false} JoinAppend(ls: seq<string>, l: string, sep: string)
    ensures Join(ls + [l], sep) == if ls == [] then l else Join(ls, sep) + sep + l
  {
    if |ls| > 1 {
      assert (ls + [l])[1..] == ls[1..] + [l];
      JoinAppend(ls[1..], l, sep);
    } else if |ls| == 1 {
      assert (ls + [l])[1..] == [l];
    }
  }

  /** `f` of the first element of `s` that satisfies `p`, None when none does
      (the shape of a loop that breaks at its first hit). */
  function FirstMap<T, U>(p: T -> bool, f: T -> U, s: seq<T>): (r: Option<U>)
    ensures r.None? ==> forall x :: x in s ==> !p(x)
    ensures r.Some? ==> exists x :: x in s && p(x) && r.value == f(x)
  {
    if s == [] then None else if p(s[0]) then Some(f(s[0])) else FirstMap(p, f, s[1..])
  }

  /** The hit is the first element satisfying `p`: every element before it fails `p`. */
  lemma {:induction false} FirstMapIsFirst<T, U>(p: T -> bool, f: T -> U, s: seq<T>)
    ensures FirstMap(p, f, s).None? <==> forall i :: 0 <= i < |s| ==> !p(s[i])
    ensures FirstMap(p, f, s).Some? ==>
      exists i :: 0 <= i < |s| && p(s[i]) && (forall j :: 0 <= j < i ==> !p(s[j])) && FirstMap(p, f, s).value == f(s[i])
  {
    if s != [] && !p(s[0]) {
      FirstMapIsFirst(p, f, s[1..]);
      if FirstMap(p, f, s).Some? {
        var i :| 0 <= i < |s[1..]| && p(s[1..][i]) && (forall j :: 0 <= j < i ==> !p(s[1..][j]))
                 && FirstMap(p, f, s[1..]).value == f(s[1..][i]);
        assert p(s[i + 1]);
        assert forall j :: 0 <= j < i + 1 ==> !p(s[j]) by {
          forall j | 0 <= j < i + 1 ensures !p(s[j]) {
            if j > 0 {
              assert s[j] == s[1..][j - 1];
            }
          }
        }
      } else {
        forall i | 0 <= i < |s| ensures !p(s[i]) {
          if i > 0 {
            assert s[i] == s[1..][i - 1];
          }
        }
      }
    }
  }

  /** `f` applied to the elements of `s` that satisfy `p`, defined from the back
      (the shape of a loop that appends `f(x)` for each kept `x`). */
  function MapFilter<T, U>(p: T -> bool, f: T -> U, s: seq<T>): (r: seq<U>)
    ensures |r| <= |s|
  {
    if s == [] then []
    else MapFilter(p, f, s[..|s| - 1]) + (if p(s[|s| - 1]) then [f(s[|s| - 1])] else [])
  }

  /** One result per kept element, in order. */
  lemma {:induction false} MapFilterPointwise<T, U>(p: T -> bool, f: T -> U, s: seq<T>)
    ensures var kept := Filter(p, s);
      |MapFilter(p, f, s)| == |kept| && forall k :: 0 <= k < |kept| ==> MapFilter(p, f, s)[k] == f(kept[k])
  {
    if s != [] {
      var init, last := s[..|s| - 1], s[|s| - 1];
      MapFilterPointwise(p, f, init);
      assert init + [last] == s;
      FilterAppend(p, init, last);
    }
  }
}
