/** Sequence operations the panel applies to its lists: `filter`, `map` with a
    condition, index-based `map`/`filter`, and `find`. */
module Seqs {
  import opened Wrappers

  /** `a` occurs in `b` in the same relative order (greedy matching). */
  predicate IsSubseq<T(==)>(a: seq<T>, b: seq<T>)
    decreases |b|
  {
    if |a| == 0 then true
    else if |b| == 0 then false
    else if a[0] == b[0] then IsSubseq(a[1..], b[1..])
    else IsSubseq(a, b[1..])
  }

  /** Every sequence is a subsequence of itself. */
  lemma {:induction false} SubseqRefl<T>(a: seq<T>)
    ensures IsSubseq(a, a)
    decreases |a|
  {
    if |a| > 0 {
      SubseqRefl(a[1..]);
    }
  }

  /** A subsequence of the tail is a subsequence of the whole. */
  lemma {:induction false} SubseqOfTail<T>(a: seq<T>, c: seq<T>)
    requires |c| > 0 && IsSubseq(a, c[1..])
    ensures IsSubseq(a, c)
    decreases |c|, 0
  {
    if |a| > 0 && a[0] == c[0] {
      SubseqDropFirst(a, c[1..]);
    }
  }

  /** Dropping the first element keeps a subsequence a subsequence. */
  lemma {:induction false} SubseqDropFirst<T>(a: seq<T>, c: seq<T>)
    requires |a| > 0 && IsSubseq(a, c)
    ensures IsSubseq(a[1..], c)
    decreases |c|, 1
  {
    if a[0] == c[0] {
      SubseqOfTail(a[1..], c);
    } else {
      SubseqDropFirst(a, c[1..]);
      SubseqOfTail(a[1..], c);
    }
  }

  /** Being a subsequence is transitive. */
  lemma {:induction false} SubseqTransitive<T>(a: seq<T>, b: seq<T>, c: seq<T>)
    requires IsSubseq(a, b) && IsSubseq(b, c)
    ensures IsSubseq(a, c)
    decreases |c|
  {
    if |a| > 0 {
      if b[0] == c[0] {
        if a[0] == b[0] {
          SubseqTransitive(a[1..], b[1..], c[1..]);
        } else {
          SubseqTransitive(a, b[1..], c[1..]);
        }
      } else {
        SubseqTransitive(a, b, c[1..]);
        if a[0] == c[0] {
          SubseqDropFirst(a, c[1..]);
        }
      }
    }
  }

  /** `Array.prototype.filter`: the elements of `xs` satisfying `p`, in order. */
  function Filter<T(==,!new)>(xs: seq<T>, p: T -> bool): (r: seq<T>)
    ensures |r| <= |xs|
    ensures forall x :: x in r <==> x in xs && p(x)
  {
    if |xs| == 0 then []
    else if p(xs[0]) then [xs[0]] + Filter(xs[1..], p)
    else Filter(xs[1..], p)
  }

  /** The filter keeps every copy of an element satisfying `p` and no copy of
      any other. */
  lemma {:induction false} FilterCounts<T(!new)>(xs: seq<T>, p: T -> bool)
    ensures forall x :: multiset(Filter(xs, p))[x] == if p(x) then multiset(xs)[x] else 0
    decreases |xs|
  {
    if |xs| > 0 {
      assert xs == [xs[0]] + xs[1..];
      assert multiset(xs) == multiset([xs[0]]) + multiset(xs[1..]);
      var rest := Filter(xs[1..], p);
      FilterCounts(xs[1..], p);
      if p(xs[0]) {
        assert multiset([xs[0]] + rest) == multiset([xs[0]]) + multiset(rest);
      }
    }
  }

  /** Filtering keeps the survivors in their original relative order. */
  lemma {:induction false} FilterIsSubseq<T(!new)>(xs: seq<T>, p: T -> bool)
    ensures IsSubseq(Filter(xs, p), xs)
    decreases |xs|
  {
    if |xs| > 0 {
      var rest := Filter(xs[1..], p);
      FilterIsSubseq(xs[1..], p);
      if p(xs[0]) {
        assert Filter(xs, p) == [xs[0]] + rest;
        assert ([xs[0]] + rest)[1..] == rest;
      } else {
        assert Filter(xs, p) == rest;
        if |rest| > 0 {
          assert rest[0] in rest;
          assert rest[0] != xs[0];
        }
      }
    }
  }

  /** The positions of `xs` holding an element that satisfies `p`. */
  function Positions<T>(xs: seq<T>, p: T -> bool): set<int> {
    set i | 0 <= i < |xs| && p(xs[i])
  }

  /** A filter keeps one element per position that passes. */
  lemma {:induction false} FilterCountIsPositions<T(!new)>(xs: seq<T>, p: T -> bool)
    ensures |Filter(xs, p)| == |Positions(xs, p)|
    decreases |xs|
  {
    if |xs| == 0 {
      assert Positions(xs, p) == {};
    } else {
      var init, x := xs[..|xs| - 1], xs[|xs| - 1];
      assert xs == init + [x];
      FilterCountIsPositions(init, p);
      FilterConcat(init, [x], p);
      assert [x][1..] == [];
      PositionsGrow(init, x, p);
    }
  }

  /** Appending an element adds its position exactly when it passes. */
  lemma PositionsGrow<T>(xs: seq<T>, x: T, p: T -> bool)
    ensures |Positions(xs + [x], p)| == |Positions(xs, p)| + if p(x) then 1 else 0
  {
    var before := Positions(xs, p);
    var added: set<int> := if p(x) then {|xs|} else {};
    PositionsOfAppend(xs, x, p);
    assert |xs| !in before;
    assert |before + added| == |before| + |added|;
  }

  /** The positions of `xs + [x]`: those of `xs`, and `|xs|` when `x` passes. */
  lemma PositionsOfAppend<T>(xs: seq<T>, x: T, p: T -> bool)
    ensures Positions(xs + [x], p) == Positions(xs, p) + if p(x) then {|xs|} else {}
  {
    var ys := xs + [x];
    forall i | 0 <= i < |xs|
      ensures ys[i] == xs[i]
    {
    }
  }

  /** Filtering distributes over concatenation. */
  lemma {:induction false} FilterConcat<T(!new)>(xs: seq<T>, ys: seq<T>, p: T -> bool)
    ensures Filter(xs + ys, p) == Filter(xs, p) + Filter(ys, p)
    decreases |xs|
  {
    if |xs| > 0 {
      assert (xs + ys)[1..] == xs[1..] + ys;
      FilterConcat(xs[1..], ys, p);
    } else {
      assert xs + ys == ys;
    }
  }

  /** Two complementary filters split a sequence between them. */
  lemma {:induction false} FilterSplit<T(!new)>(xs: seq<T>, p: T -> bool, q: T -> bool)
    requires forall x :: p(x) <==> !q(x)
    ensures |Filter(xs, p)| + |Filter(xs, q)| == |xs|
    decreases |xs|
  {
    if |xs| > 0 {
      FilterSplit(xs[1..], p, q);
    }
  }

  /** A second filter that implies the first makes the first redundant. */
  lemma {:induction false} FilterAbsorb<T(!new)>(xs: seq<T>, p: T -> bool, q: T -> bool)
    requires forall x :: x in xs && q(x) ==> p(x)
    ensures Filter(Filter(xs, p), q) == Filter(xs, q)
    decreases |xs|
  {
    if |xs| > 0 {
      assert forall x :: x in xs[1..] ==> x in xs;
      FilterAbsorb(xs[1..], p, q);
      if p(xs[0]) {
        assert Filter(xs, p) == [xs[0]] + Filter(xs[1..], p);
        assert ([xs[0]] + Filter(xs[1..], p))[1..] == Filter(xs[1..], p);
      }
    }
  }

  /** A filter that every element passes is the identity. */
  lemma {:induction false} FilterKeepsAll<T(!new)>(xs: seq<T>, p: T -> bool)
    requires forall i :: 0 <= i < |xs| ==> p(xs[i])
    ensures Filter(xs, p) == xs
    decreases |xs|
  {
    if |xs| > 0 {
      FilterKeepsAll(xs[1..], p);
      assert [xs[0]] + xs[1..] == xs;
    }
  }

  /** A filter that no element passes gives `[]`. */
  lemma {:induction false} FilterKeepsNone<T(!new)>(xs: seq<T>, p: T -> bool)
    requires forall i :: 0 <= i < |xs| ==> !p(xs[i])
    ensures Filter(xs, p) == []
    decreases |xs|
  {
    if |xs| > 0 {
      FilterKeepsNone(xs[1..], p);
    }
  }

  /** The last survivor of a filter is the last element of `xs` satisfying `p`. */
  lemma {:induction false} FilterLast<T(!new)>(xs: seq<T>, p: T -> bool)
    requires |Filter(xs, p)| > 0
    ensures exists i :: 0 <= i < |xs| && xs[i] == Last(Filter(xs, p)) && p(xs[i])
                        && forall j :: i < j < |xs| ==> !p(xs[j])
    decreases |xs|
  {
    var rest := Filter(xs[1..], p);
    if |rest| > 0 {
      FilterLast(xs[1..], p);
      var k :| 0 <= k < |xs[1..]| && xs[1..][k] == Last(rest) && p(xs[1..][k])
               && forall j :: k < j < |xs[1..]| ==> !p(xs[1..][j]);
      ShiftWitness(xs, p, k, Last(rest));
      assert Last(Filter(xs, p)) == Last(rest);
    } else {
      NoLaterMatch(xs, p);
    }
  }

  /** The last element of a non-empty sequence. */
  function Last<T>(xs: seq<T>): T
    requires |xs| > 0
  {
    xs[|xs| - 1]
  }

  lemma ShiftWitness<T>(xs: seq<T>, p: T -> bool, k: int, v: T)
    requires 0 <= k < |xs| - 1 && xs[1..][k] == v && p(v)
    requires forall j :: k < j < |xs[1..]| ==> !p(xs[1..][j])
    ensures 0 <= k + 1 < |xs| && xs[k + 1] == v && forall j :: k + 1 < j < |xs| ==> !p(xs[j])
  {
    forall j | k + 1 < j < |xs|
      ensures !p(xs[j])
    {
      assert xs[j] == xs[1..][j - 1];
    }
  }

  lemma NoLaterMatch<T(!new)>(xs: seq<T>, p: T -> bool)
    requires |xs| > 0 && |Filter(xs, p)| > 0 && |Filter(xs[1..], p)| == 0
    ensures xs[0] == Last(Filter(xs, p)) && p(xs[0]) && forall j :: 0 < j < |xs| ==> !p(xs[j])
  {
    forall j | 0 < j < |xs|
      ensures !p(xs[j])
    {
      assert xs[j] in xs[1..];
      assert xs[j] !in Filter(xs[1..], p);
    }
  }

  /** `Array.prototype.map` with a conditional replacement: matching elements
      are replaced by `f` of themselves; everything else stays in place. */
  function MapIf<T>(xs: seq<T>, p: T -> bool, f: T -> T): (r: seq<T>)
    ensures |r| == |xs|
    ensures forall i :: 0 <= i < |xs| && !p(xs[i]) ==> r[i] == xs[i]
    ensures forall i :: 0 <= i < |xs| && p(xs[i]) ==> r[i] == f(xs[i])
  {
    if |xs| == 0 then []
    else [if p(xs[0]) then f(xs[0]) else xs[0]] + MapIf(xs[1..], p, f)
  }

  /** `xs.map((x, j) => j === i ? f(x) : x)`: only position `i` changes, and an
      index outside the list changes nothing. */
  function ReplaceAt<T>(xs: seq<T>, i: int, f: T -> T): (r: seq<T>)
    ensures |r| == |xs|
    ensures 0 <= i < |xs| ==> r[i] == f(xs[i])
    ensures forall j :: 0 <= j < |xs| && j != i ==> r[j] == xs[j]
  {
    if |xs| == 0 then []
    else [if i == 0 then f(xs[0]) else xs[0]] + ReplaceAt(xs[1..], i - 1, f)
  }

  /** `xs.filter((_, j) => j !== i)`: exactly position `i` is dropped, the rest
      keep their order, and an index outside the list changes nothing. */
  function RemoveAt<T>(xs: seq<T>, i: int): (r: seq<T>)
    ensures 0 <= i < |xs| ==> r == xs[..i] + xs[i + 1..]
    ensures !(0 <= i < |xs|) ==> r == xs
  {
    if |xs| == 0 then []
    else
      var rest := RemoveAt(xs[1..], i - 1);
      if i == 0 then rest
      else
        assert 0 < i < |xs| ==> rest == xs[1..][..i - 1] + xs[1..][i..];
        assert 0 < i < |xs| ==> xs[..i] == [xs[0]] + xs[1..][..i - 1];
        assert 0 < i < |xs| ==> xs[i + 1..] == xs[1..][i..];
        assert xs == [xs[0]] + xs[1..];
        [xs[0]] + rest
  }

  /** Index of the first element satisfying `p`, or -1 (`findIndex`). */
  function FindIndex<T>(xs: seq<T>, p: T -> bool): (k: int)
    ensures -1 <= k < |xs|
    ensures k == -1 <==> forall i :: 0 <= i < |xs| ==> !p(xs[i])
    ensures k >= 0 ==> p(xs[k]) && forall j :: 0 <= j < k ==> !p(xs[j])
  {
    if |xs| == 0 then -1
    else if p(xs[0]) then 0
    else
      var k := FindIndex(xs[1..], p);
      assert forall j :: 0 < j < |xs| ==> xs[j] == xs[1..][j - 1];
      if k == -1 then -1 else k + 1
  }

  /** `Array.prototype.find`: the first element satisfying `p`, if any. */
  function FindFirst<T(==)>(xs: seq<T>, p: T -> bool): (r: Option<T>)
    ensures r.None? <==> forall i :: 0 <= i < |xs| ==> !p(xs[i])
    ensures r.Some? ==> p(r.value) && r.value in xs
    ensures r.Some? ==> xs[FindIndex(xs, p)] == r.value
  {
    var k := FindIndex(xs, p);
    if k == -1 then None else Some(xs[k])
  }
}
