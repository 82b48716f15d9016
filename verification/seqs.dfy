/**
 * The two array operations the dialogs and pages lean on: `Array.prototype.filter`
 * with an element predicate, and `filter` by position, which removes one index.
 */
module Seqs {

  /** `s.filter(keep)`: the elements of `s` that satisfy `keep`, in their original order. */
  function Filter<T>(s: seq<T>, keep: T -> bool): (r: seq<T>)
    ensures |r| <= |s|
    ensures forall x :: x in r ==> x in s && keep(x)
    ensures forall i :: 0 <= i < |s| && keep(s[i]) ==> s[i] in r
    decreases |s|
  {
    if s == [] then []
    else if keep(s[0]) then [s[0]] + Filter(s[1..], keep)
    else Filter(s[1..], keep)
  }

  /** Filtering distributes over concatenation. */
  lemma {:induction false} FilterAppend<T>(a: seq<T>, b: seq<T>, keep: T -> bool)
    ensures Filter(a + b, keep) == Filter(a, keep) + Filter(b, keep)
    decreases |a|
  {
    if a == [] {
      assert a + b == b;
    } else {
      assert (a + b)[0] == a[0];
      assert (a + b)[1..] == a[1..] + b;
      FilterAppend(a[1..], b, keep);
    }
  }

  /** Filtering a filtered list with the same predicate changes nothing. */
  lemma {:induction false} FilterIdempotent<T>(s: seq<T>, keep: T -> bool)
    ensures Filter(Filter(s, keep), keep) == Filter(s, keep)
    decreases |s|
  {
    if s != [] {
      FilterIdempotent(s[1..], keep);
      if keep(s[0]) {
        var r := Filter(s[1..], keep);
        assert ([s[0]] + r)[0] == s[0];
        assert ([s[0]] + r)[1..] == r;
      }
    }
  }

  /** When every element is kept, the filter is the identity. */
  lemma {:induction false} FilterKeepsAll<T>(s: seq<T>, keep: T -> bool)
    requires forall i :: 0 <= i < |s| ==> keep(s[i])
    ensures Filter(s, keep) == s
    decreases |s|
  {
    if s != [] {
      FilterKeepsAll(s[1..], keep);
    }
  }

  /** Two predicates that agree on every element select the same elements. */
  lemma {:induction false} FilterCongruent<T>(s: seq<T>, f: T -> bool, g: T -> bool)
    requires forall i :: 0 <= i < |s| ==> f(s[i]) == g(s[i])
    ensures Filter(s, f) == Filter(s, g)
    decreases |s|
  {
    if s != [] {
      FilterCongruent(s[1..], f, g);
    }
  }

  /** The filter keeps every element exactly when its length equals the input's. */
  lemma {:induction false} FilterFullIff<T>(s: seq<T>, keep: T -> bool)
    ensures |Filter(s, keep)| == |s| <==> forall i :: 0 <= i < |s| ==> keep(s[i])
    decreases |s|
  {
    if s != [] {
      FilterFullIff(s[1..], keep);
      assert forall i :: 1 <= i < |s| ==> s[i] == s[1..][i - 1];
    } 
  }

  /** The positions of `s` whose element satisfies `keep`. */
  ghost function KeptPositions<T>(s: seq<T>, keep: T -> bool): set<int>
  {
    set i | 0 <= i < |s| && keep(s[i])
  }

  /** Appending an element adds its own position to the kept positions exactly when it is kept. */
  lemma KeptPositionsSnoc<T>(init: seq<T>, last: T, keep: T -> bool)
    ensures KeptPositions(init + [last], keep) ==
      KeptPositions(init, keep) + (if keep(last) then {|init|} else {})
  {
    var s := init + [last];
    forall i | 0 <= i < |init| ensures s[i] == init[i] { }
  }

  /** The filter keeps one element per position that satisfies `keep`, duplicates included. */
  lemma {:induction false} FilterCount<T>(s: seq<T>, keep: T -> bool)
    ensures |Filter(s, keep)| == |KeptPositions(s, keep)|
    decreases |s|
  {
    if s == [] {
      assert KeptPositions(s, keep) == {};
    } else {
      var init, last := s[..|s| - 1], s[|s| - 1];
      assert s == init + [last];
      FilterCount(init, keep);
      FilterAppend(init, [last], keep);
      KeptPositionsSnoc(init, last, keep);
      assert |init| !in KeptPositions(init, keep);
      assert |Filter([last], keep)| == if keep(last) then 1 else 0;
    }
  }

  /** `idx` lists strictly increasing positions. */
  predicate StrictlyIncreasing(idx: seq<nat>)
  {
    forall j, k :: 0 <= j < k < |idx| ==> idx[j] < idx[k]
  }

  /** `r` sits inside `s` at the strictly increasing positions `idx`: r[k] == s[idx[k]]. */
  ghost predicate EmbedsAt<T>(r: seq<T>, s: seq<T>, idx: seq<nat>)
  {
    |idx| == |r| && StrictlyIncreasing(idx) &&
    forall k :: 0 <= k < |idx| ==> idx[k] < |s| && r[k] == s[idx[k]]
  }

  function Shift(idx: seq<nat>): (r: seq<nat>)
  {
    seq(|idx|, k requires 0 <= k < |idx| => idx[k] + 1)
  }

  /** Putting an element in front of `s` moves every position one up. */
  lemma EmbedsAtSkip<T>(x: T, r: seq<T>, tail: seq<T>, idx: seq<nat>)
    requires EmbedsAt(r, tail, idx)
    ensures EmbedsAt(r, [x] + tail, Shift(idx))
  {
    var s := [x] + tail;
    forall k | 0 <= k < |idx| ensures s[Shift(idx)[k]] == tail[idx[k]] { }
  }

  /** Putting the same element in front of both keeps the embedding, with position 0 for it. */
  lemma EmbedsAtCons<T>(x: T, r: seq<T>, tail: seq<T>, idx: seq<nat>)
    requires EmbedsAt(r, tail, idx)
    ensures EmbedsAt([x] + r, [x] + tail, [0] + Shift(idx))
  {
    EmbedsAtSkip(x, r, tail, idx);
    var s, r', idx' := [x] + tail, [x] + r, [0] + Shift(idx);
    forall k | 0 < k < |idx'| ensures idx'[k] < |s| && r'[k] == s[idx'[k]] {
      assert idx'[k] == Shift(idx)[k - 1] && r'[k] == r[k - 1];
    }
  }

  /**
   * The filter is an order-preserving subsequence of its input: its k-th element
   * is the input's element at position idx[k], and the positions strictly increase.
   */
  lemma {:induction false} FilterIsSubsequence<T>(s: seq<T>, keep: T -> bool) returns (idx: seq<nat>)
    ensures EmbedsAt(Filter(s, keep), s, idx)
    decreases |s|
  {
    if s == [] {
      idx := [];
    } else {
      var tail := s[1..];
      assert s == [s[0]] + tail;
      var rest := FilterIsSubsequence(tail, keep);
      if keep(s[0]) {
        EmbedsAtCons(s[0], Filter(tail, keep), tail, rest);
        idx := [0] + Shift(rest);
      } else {
        EmbedsAtSkip(s[0], Filter(tail, keep), tail, rest);
        idx := Shift(rest);
      }
    }
  }

  /**
   * `s.filter((_, i) => i !== index)`: keeps every position except `index`.
   * Walking the list, the target position is counted down; once it passes zero
   * (or if it was negative from the start) every later element is kept.
   */
  function DropIndex<T>(s: seq<T>, index: int): (r: seq<T>)
    ensures |r| == if 0 <= index < |s| then |s| - 1 else |s|
    decreases |s|
  {
    if s == [] then []
    else (if index == 0 then [] else [s[0]]) + DropIndex(s[1..], index - 1)
  }

  /** For a position in range, exactly that element goes and the rest keep their order. */
  lemma {:induction false} DropIndexInRange<T>(s: seq<T>, index: nat)
    requires index < |s|
    ensures DropIndex(s, index) == s[..index] + s[index + 1..]
    decreases |s|
  {
    var tail := s[1..];
    if index == 0 {
      DropIndexOutOfRange(tail, -1);
      assert DropIndex(s, index) == tail;
      assert s[..index] + s[index + 1..] == tail;
    } else {
      DropIndexInRange(tail, index - 1);
      assert DropIndex(s, index) == [s[0]] + (tail[..index - 1] + tail[index..]);
      assert s[..index] == [s[0]] + tail[..index - 1];
      assert s[index + 1..] == tail[index..];
    }
  }

  /** For a position out of range, nothing is removed. */
  lemma {:induction false} DropIndexOutOfRange<T>(s: seq<T>, index: int)
    requires index < 0 || index >= |s|
    ensures DropIndex(s, index) == s
    decreases |s|
  {
    if s != [] {
      DropIndexOutOfRange(s[1..], index - 1);
    }
  }
}
