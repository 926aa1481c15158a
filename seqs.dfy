/** Sequence and string helpers with Python's meaning: `str.startswith`,
    clamped slicing `s[a:b]`, and flattening a list of lists. */
module Seqs {

  /** Python's `s.startswith(prefix)`. */
  predicate StartsWith<T(==)>(s: seq<T>, prefix: seq<T>)
  {
    |prefix| <= |s| && s[..|prefix|] == prefix
  }

  lemma StartsWithConcat<T>(prefix: seq<T>, rest: seq<T>)
    ensures StartsWith(prefix + rest, prefix)
  {
    assert (prefix + rest)[..|prefix|] == prefix;
  }

  lemma StartsWithShorter<T>(s: seq<T>, prefix: seq<T>, rest: seq<T>)
    requires StartsWith(s, prefix + rest)
    ensures StartsWith(s, prefix)
  {
    assert s[..|prefix|] == s[..|prefix + rest|][..|prefix|];
  }

  /** Python's slice `s[a:b]` for non-negative bounds: both bounds are clamped to `len(s)`,
      and a lower bound past the upper one gives the empty list. */
  function PySlice<T>(s: seq<T>, a: nat, b: nat): (r: seq<T>)
    ensures |r| <= |s|
    ensures a <= b <= |s| ==> r == s[a..b]
    ensures b <= a ==> r == []
    ensures a <= |s| <= b ==> r == s[a..]
    ensures |s| <= a ==> r == []
  {
    var lo := if a < |s| then a else |s|;
    var hi := if b < |s| then b else |s|;
    if lo <= hi then s[lo..hi] else []
  }

  /** `[x for xs in xss for x in xs]`: concatenation in order. */
  function Flatten<T>(xss: seq<seq<T>>): seq<T>
  {
    if xss == [] then [] else Flatten(xss[..|xss| - 1]) + xss[|xss| - 1]
  }

  lemma {:induction false} FlattenAppend<T>(xss: seq<seq<T>>, yss: seq<seq<T>>)
    ensures Flatten(xss + yss) == Flatten(xss) + Flatten(yss)
    decreases |yss|
  {
    if yss == [] {
      assert xss + yss == xss;
    } else {
      var n := |yss| - 1;
      assert (xss + yss)[..|xss + yss| - 1] == xss + yss[..n];
      FlattenAppend(xss, yss[..n]);
    }
  }

  /** Applies `f` to every element, keeping order (Python's ordered `map`). */
  function MapSeq<A, B>(f: A -> B, s: seq<A>): (r: seq<B>)
    ensures |r| == |s|
    ensures forall i :: 0 <= i < |s| ==> r[i] == f(s[i])
  {
    seq(|s|, i requires 0 <= i < |s| => f(s[i]))
  }

  /** The elements of `s` are pairwise distinct. */
  predicate Distinct<T(==)>(s: seq<T>)
  {
    forall i, j :: 0 <= i < j < |s| ==> s[i] != s[j]
  }

  /** A sequence without repetitions has as many elements as its set. */
  lemma {:induction false} DistinctCardinality<T>(s: seq<T>)
    requires Distinct(s)
    ensures |set x | x in s| == |s|
    decreases |s|
  {
    if s != [] {
      var init := s[..|s| - 1];
      var last := s[|s| - 1];
      DistinctCardinality(init);
      assert (set x | x in s) == (set x | x in init) + {last};
      assert last !in (set x | x in init);
    }
  }

  /** The outcome of a Python call that may raise `ValueError`. */
  datatype Result<T> = Ok(value: T) | ValueError

  function Min(a: int, b: int): int
  {
    if a < b then a else b
  }

  /** `range(start, stop, step)` for a positive step: `start`, `start + step`, ... while
      below `stop`. */
  function Range(start: nat, stop: nat, step: nat): (r: seq<nat>)
    requires step > 0
    ensures |r| > 0 <==> start < stop
    ensures |r| > 0 ==> r[0] == start && stop <= r[|r| - 1] + step
    ensures forall k :: 0 <= k < |r| ==> start <= r[k] < stop
    decreases if start < stop then stop - start else 0
  {
    if stop <= start then [] else [start] + Range(start + step, stop, step)
  }

  /** Consecutive values of a range are `step` apart. */
  lemma {:induction false} RangeStep(start: nat, stop: nat, step: nat, k: nat)
    requires step > 0 && k + 1 < |Range(start, stop, step)|
    ensures Range(start, stop, step)[k + 1] == Range(start, stop, step)[k] + step
    decreases k
  {
    var rest := Range(start + step, stop, step);
    assert Range(start, stop, step) == [start] + rest;
    if k > 0 {
      RangeStep(start + step, stop, step, k - 1);
    }
  }

  /** `range(0, stop, step)` for any integer step: a zero step raises `ValueError`, a
      negative one counts down from 0 and so yields nothing. */
  function RangeFromZero(stop: nat, step: int): (r: Result<seq<nat>>)
    ensures r.ValueError? <==> step == 0
    ensures step < 0 ==> r == Ok([])
    ensures step > 0 ==> r == Ok(Range(0, stop, step))
  {
    if step == 0 then ValueError
    else if step < 0 then Ok([])
    else Ok(Range(0, stop, step))
  }

  /** `[s[i : min(i + width, total)] for i in starts]`. */
  function Windows<T>(s: seq<T>, starts: seq<nat>, width: nat, total: nat): (r: seq<seq<T>>)
    ensures |r| == |starts|
    ensures forall k :: 0 <= k < |starts| ==> r[k] == PySlice(s, starts[k], Min(starts[k] + width, total))
  {
    seq(|starts|, k requires 0 <= k < |starts| => PySlice(s, starts[k], Min(starts[k] + width, total)))
  }

  lemma FlattenCons<T>(xs: seq<T>, xss: seq<seq<T>>)
    ensures Flatten([xs] + xss) == xs + Flatten(xss)
  {
    FlattenAppend([xs], xss);
    assert Flatten([xs]) == Flatten([xs][..0]) + xs;
    assert [xs][..0] == [];
  }

  lemma WindowsCons<T>(s: seq<T>, start: nat, rest: seq<nat>, width: nat, total: nat)
    ensures Windows(s, [start] + rest, width, total)
            == [PySlice(s, start, Min(start + width, total))] + Windows(s, rest, width, total)
  {
    var l, r := Windows(s, [start] + rest, width, total), Windows(s, rest, width, total);
    var first := PySlice(s, start, Min(start + width, total));
    forall k | 0 <= k < |l| ensures l[k] == ([first] + r)[k] {
      if k > 0 {
        assert ([start] + rest)[k] == rest[k - 1];
      }
    }
  }

  lemma TakeSnoc<T>(s: seq<T>, k: nat)
    requires k < |s|
    ensures s[..k + 1] == s[..k] + [s[k]]
  {
  }

  lemma SplitAt<T>(s: seq<T>, a: nat, b: nat)
    requires a <= b <= |s|
    ensures s[a..] == s[a..b] + s[b..]
  {
  }

  /** Taking off the first window of a range of windows. */
  lemma WindowsStep<T>(s: seq<T>, start: nat, width: nat)
    requires width > 0 && start < |s|
    ensures var mid := Min(start + width, |s|);
            Flatten(Windows(s, Range(start, |s|, width), width, |s|))
            == s[start..mid] + Flatten(Windows(s, Range(start + width, |s|, width), width, |s|))
  {
    var rest := Range(start + width, |s|, width);
    var mid := Min(start + width, |s|);
    var later := Windows(s, rest, width, |s|);
    assert Range(start, |s|, width) == [start] + rest;
    WindowsCons(s, start, rest, width, |s|);
    assert PySlice(s, start, mid) == s[start..mid];
    FlattenCons(s[start..mid], later);
  }

  /** The windows over `range(start, len(s), width)` put back together give `s[start:]`. */
  lemma {:induction false} WindowsFrom<T>(s: seq<T>, start: nat, width: nat)
    requires width > 0 && start <= |s|
    ensures Flatten(Windows(s, Range(start, |s|, width), width, |s|)) == s[start..]
    decreases |s| - start
  {
    if start == |s| {
      assert Windows(s, [], width, |s|) == [];
    } else {
      var mid := Min(start + width, |s|);
      WindowsStep(s, start, width);
      if mid < |s| {
        WindowsFrom(s, mid, width);
      } else {
        assert Range(start + width, |s|, width) == [];
        assert Windows(s, [], width, |s|) == [];
      }
      SplitAt(s, start, mid);
    }
  }

  /** The windows over `range(0, len(s), width)` partition `s`: their concatenation is
      `s` again. */
  lemma WindowsRoundTrip<T>(s: seq<T>, width: nat)
    requires width > 0
    ensures Flatten(Windows(s, Range(0, |s|, width), width, |s|)) == s
  {
    WindowsFrom(s, 0, width);
  }

  /** Window `k` over `range(0, len(s), width)`: every start but the last is followed by
      one `width` further on, so only the last window can be short. */
  lemma WindowSize<T>(s: seq<T>, width: nat, k: nat)
    requires width > 0 && k < |Range(0, |s|, width)|
    ensures var ws := Windows(s, Range(0, |s|, width), width, |s|);
            0 < |ws[k]| <= width && (k < |ws| - 1 ==> |ws[k]| == width)
  {
    var starts := Range(0, |s|, width);
    if k < |starts| - 1 {
      RangeStep(0, |s|, width, k);
    }
    WindowAt(s, starts, width, k);
  }

  /** A window whose start lies inside `s` is non-empty and at most `width` long, and it is
      exactly `width` long when it does not reach the end. */
  lemma WindowAt<T>(s: seq<T>, starts: seq<nat>, width: nat, k: nat)
    requires width > 0 && k < |starts| && starts[k] < |s|
    ensures var ws := Windows(s, starts, width, |s|);
            0 < |ws[k]| <= width && (starts[k] + width <= |s| ==> |ws[k]| == width)
  {
  }

  /** Each window over `range(0, total, width)` is non-empty and at most `width` long, and
      every window but the last is exactly `width` long. */
  lemma WindowSizes<T>(s: seq<T>, width: nat)
    requires width > 0
    ensures var ws := Windows(s, Range(0, |s|, width), width, |s|);
            forall k :: 0 <= k < |ws| ==>
              0 < |ws[k]| <= width && (k < |ws| - 1 ==> |ws[k]| == width)
  {
    var ws := Windows(s, Range(0, |s|, width), width, |s|);
    forall k | 0 <= k < |ws|
      ensures 0 < |ws[k]| <= width && (k < |ws| - 1 ==> |ws[k]| == width)
    {
      WindowSize(s, width, k);
    }
  }

  /** Applying `f` inside every part and then flattening is applying `f` to the flattened
      list: order is kept across and within parts. */
  lemma {:induction false} FlattenMapInside<A, B>(f: A -> B, xss: seq<seq<A>>, yss: seq<seq<B>>)
    requires |yss| == |xss| && forall k :: 0 <= k < |xss| ==> yss[k] == MapSeq(f, xss[k])
    ensures Flatten(yss) == MapSeq(f, Flatten(xss))
    decreases |xss|
  {
    if xss != [] {
      var n := |xss| - 1;
      FlattenMapInside(f, xss[..n], yss[..n]);
      assert MapSeq(f, Flatten(xss[..n]) + xss[n]) == MapSeq(f, Flatten(xss[..n])) + MapSeq(f, xss[n]);
    }
  }

  /** If every part keeps its length, so does the flattened list. */
  lemma {:induction false} FlattenSameLength<A, B>(xss: seq<seq<A>>, yss: seq<seq<B>>)
    requires |yss| == |xss| && forall k :: 0 <= k < |xss| ==> |yss[k]| == |xss[k]|
    ensures |Flatten(yss)| == |Flatten(xss)|
    decreases |xss|
  {
    if xss != [] {
      var n := |xss| - 1;
      FlattenSameLength(xss[..n], yss[..n]);
    }
  }
}
