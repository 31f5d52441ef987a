/** Order-preserving selection over sequences: PHP's `array_filter`, `array_map`, and scans for a first or last match. */
module Seqs {

  /** `array_filter`: the elements satisfying `p`, in their original order. */
  function Filter<T>(s: seq<T>, p: T -> bool): (r: seq<T>)
    ensures |r| <= |s|
    ensures forall i :: 0 <= i < |r| ==> p(r[i])
  {
    if |s| == 0 then []
    else Filter(s[..|s| - 1], p) + (if p(s[|s| - 1]) then [s[|s| - 1]] else [])
  }

  /** An element is selected exactly when it occurs in the input and satisfies `p`. */
  lemma {:induction false} FilterMembers<T>(s: seq<T>, p: T -> bool, x: T)
    ensures x in Filter(s, p) <==> x in s && p(x)
  {
    if |s| > 0 {
      assert s == s[..|s| - 1] + [s[|s| - 1]];
      FilterMembers(s[..|s| - 1], p, x);
    }
  }

  /** Filtering distributes over concatenation, so the selected elements keep their relative order. */
  lemma {:induction false} FilterConcat<T>(a: seq<T>, b: seq<T>, p: T -> bool)
    ensures Filter(a + b, p) == Filter(a, p) + Filter(b, p)
    decreases |b|
  {
    if |b| == 0 {
      assert a + b == a;
    } else {
      var ab := a + b;
      assert ab[..|ab| - 1] == a + b[..|b| - 1];
      FilterConcat(a, b[..|b| - 1], p);
    }
  }

  /** One more element extends the selection by itself when it satisfies `p`, and by nothing otherwise. */
  lemma FilterSnoc<T>(s: seq<T>, i: nat, p: T -> bool)
    requires i < |s|
    ensures Filter(s[..i + 1], p) == Filter(s[..i], p) + (if p(s[i]) then [s[i]] else [])
  {
    assert s[..i + 1][..i] == s[..i];
  }

  /** `array_map`. */
  function Map<T, U>(s: seq<T>, f: T -> U): (r: seq<U>)
    ensures |r| == |s|
    ensures forall i :: 0 <= i < |s| ==> r[i] == f(s[i])
  {
    if |s| == 0 then [] else Map(s[..|s| - 1], f) + [f(s[|s| - 1])]
  }

  /** Mapping distributes over concatenation. */
  lemma {:induction false} MapConcat<T, U>(a: seq<T>, b: seq<T>, f: T -> U)
    ensures Map(a + b, f) == Map(a, f) + Map(b, f)
  {
    var m := Map(a + b, f);
    assert forall i :: 0 <= i < |a| ==> (a + b)[i] == a[i];
    assert forall i :: |a| <= i < |a + b| ==> (a + b)[i] == b[i - |a|];
    assert m == Map(a, f) + Map(b, f);
  }

  /** One more element extends the mapped sequence by its image. */
  lemma MapSnoc<T, U>(s: seq<T>, x: T, f: T -> U)
    ensures Map(s + [x], f) == Map(s, f) + [f(x)]
  {
    assert (s + [x])[..|s|] == s;
  }

  /** The index of the first element satisfying `p`, or `|s|` when there is none. */
  function FirstIndex<T>(s: seq<T>, p: T -> bool): (k: nat)
    ensures k <= |s|
    ensures k < |s| ==> p(s[k])
    ensures forall j :: 0 <= j < k ==> !p(s[j])
  {
    if |s| == 0 then 0
    else if p(s[0]) then 0
    else 1 + FirstIndex(s[1..], p)
  }

  /** The index of the last element satisfying `p`, or -1 when there is none. */
  function LastIndex<T>(s: seq<T>, p: T -> bool): (k: int)
    ensures -1 <= k < |s|
    ensures 0 <= k ==> p(s[k])
    ensures forall j :: k < j < |s| ==> !p(s[j])
  {
    if |s| == 0 then -1
    else if p(s[|s| - 1]) then |s| - 1
    else LastIndex(s[..|s| - 1], p)
  }

  /** Nothing matches, nothing is selected. */
  lemma {:induction false} FilterNone<T>(s: seq<T>, p: T -> bool)
    requires forall i :: 0 <= i < |s| ==> !p(s[i])
    ensures Filter(s, p) == []
  {
    if |s| > 0 {
      FilterNone(s[..|s| - 1], p);
    }
  }

  /** A filter is empty exactly when there is no first match, and otherwise it starts with that first match. */
  lemma {:induction false} FilterHead<T>(s: seq<T>, p: T -> bool)
    ensures Filter(s, p) == [] <==> FirstIndex(s, p) == |s|
    ensures Filter(s, p) != [] ==> Filter(s, p)[0] == s[FirstIndex(s, p)]
  {
    var k := FirstIndex(s, p);
    if k < |s| {
      var pre, post := s[..k], s[k + 1..];
      FilterNone(pre, p);
      assert s == (pre + [s[k]]) + post;
      FilterConcat(pre + [s[k]], post, p);
      FilterConcat(pre, [s[k]], p);
      FilterSingle(s[k], p);
    } else {
      FilterNone(s, p);
    }
  }

  lemma {:induction false} FilterSingle<T>(x: T, p: T -> bool)
    ensures Filter([x], p) == if p(x) then [x] else []
  {
    assert [x][..0] == [];
  }

  /** One more element extends the last-match scan: it wins if it matches. */
  lemma {:induction false} LastIndexSnoc<T>(s: seq<T>, i: nat, p: T -> bool)
    requires i < |s|
    ensures LastIndex(s[..i + 1], p) == if p(s[i]) then i else LastIndex(s[..i], p)
  {
    assert s[..i + 1][..i] == s[..i];
  }

  /** The first-match index is pinned down by its two defining facts. */
  lemma FirstIndexIs<T>(s: seq<T>, p: T -> bool, i: nat)
    requires i <= |s|
    requires i < |s| ==> p(s[i])
    requires forall j :: 0 <= j < i ==> !p(s[j])
    ensures FirstIndex(s, p) == i
  {
  }

  /** Inserting an element that does not match moves the first match by at most one place and keeps it the same element. */
  lemma FirstIndexSkip<T>(a: seq<T>, x: T, b: seq<T>, p: T -> bool)
    requires !p(x)
    ensures var k := FirstIndex(a + b, p);
      FirstIndex(a + [x] + b, p) == if k < |a| then k else k + 1
  {
    var s, s' := a + b, a + [x] + b;
    var k := FirstIndex(s, p);
    var k' := if k < |a| then k else k + 1;
    assert forall j :: 0 <= j < |a| ==> s'[j] == s[j];
    assert forall j :: |a| < j < |s'| ==> s'[j] == s[j - 1];
    assert k' < |s'| ==> s'[k'] == s[k];
    FirstIndexIs(s', p, k');
  }

  /** Inserting an element that does not match moves the last match by at most one place and keeps it the same element. */
  lemma LastIndexSkip<T>(a: seq<T>, x: T, b: seq<T>, p: T -> bool)
    requires !p(x)
    ensures var k := LastIndex(a + b, p);
      LastIndex(a + [x] + b, p) == if k < |a| then k else k + 1
  {
    var s, s' := a + b, a + [x] + b;
    var k := LastIndex(s, p);
    var k' := if k < |a| then k else k + 1;
    assert forall j :: 0 <= j < |a| ==> s'[j] == s[j];
    assert forall j :: |a| < j < |s'| ==> s'[j] == s[j - 1];
    LastIndexIs(s', p, k');
  }

  /** The last-match index is pinned down by its two defining facts. */
  lemma {:induction false} LastIndexIs<T>(s: seq<T>, p: T -> bool, i: int)
    requires -1 <= i < |s|
    requires 0 <= i ==> p(s[i])
    requires forall j :: i < j < |s| ==> !p(s[j])
    ensures LastIndex(s, p) == i
  {
  }
}
