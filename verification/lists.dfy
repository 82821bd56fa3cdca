/**
 * `Array.prototype.filter` as the sheet uses it: every remove-by-id, the
 * save-slot upsert and delete, and the per-level groups of powers keep the
 * elements that pass a test, in their original order.
 */
module Lists {

  /** `xs.filter(keep)`, built element by element from the front of the list. */
  function Filter<T>(xs: seq<T>, keep: T -> bool): (r: seq<T>)
    ensures |r| <= |xs|
    ensures forall i :: 0 <= i < |r| ==> r[i] in xs && keep(r[i])
    ensures forall i :: 0 <= i < |xs| && keep(xs[i]) ==> xs[i] in r
  {
    if xs == [] then []
    else Filter(xs[..|xs| - 1], keep) + (if keep(xs[|xs| - 1]) then [xs[|xs| - 1]] else [])
  }

  /** Nothing survives a filter that no element passes. */
  lemma {:induction false} FilterNone<T>(xs: seq<T>, keep: T -> bool)
    requires forall i :: 0 <= i < |xs| ==> !keep(xs[i])
    ensures Filter(xs, keep) == []
    decreases |xs|
  {
    if xs != [] {
      FilterNone(xs[..|xs| - 1], keep);
    }
  }

  /** Filtering a list with one more element at the end filters that element on its own. */
  lemma FilterAppend<T>(xs: seq<T>, x: T, keep: T -> bool)
    ensures Filter(xs + [x], keep) == Filter(xs, keep) + (if keep(x) then [x] else [])
  {
    assert (xs + [x])[..|xs|] == xs;
  }

  /**
   * `r` is the sub-list of `xs` found at the strictly increasing positions `idx`:
   * it holds elements of `xs` only, each once, in their original order.
   */
  ghost predicate IsSelection<T>(xs: seq<T>, r: seq<T>, idx: seq<nat>) {
    && |idx| == |r|
    && (forall k :: 0 <= k < |idx| ==> idx[k] < |xs| && r[k] == xs[idx[k]])
    && (forall k, m :: 0 <= k < m < |idx| ==> idx[k] < idx[m])
  }

  /**
   * The positions selected from all of `xs` but its last element extend to
   * `xs`: the last position joins them exactly when its element passes.
   */
  lemma SelectionStep<T>(xs: seq<T>, keep: T -> bool, r: seq<T>, prev: seq<nat>) returns (idx: seq<nat>)
    requires xs != []
    requires IsSelection(xs[..|xs| - 1], r, prev)
    requires forall k :: 0 <= k < |prev| ==> keep(xs[..|xs| - 1][prev[k]])
    requires forall i :: 0 <= i < |xs| - 1 && keep(xs[..|xs| - 1][i]) ==> i in prev
    ensures IsSelection(xs, r + (if keep(xs[|xs| - 1]) then [xs[|xs| - 1]] else []), idx)
    ensures forall k :: 0 <= k < |idx| ==> keep(xs[idx[k]])
    ensures forall i :: 0 <= i < |xs| && keep(xs[i]) ==> i in idx
  {
    var n := |xs| - 1;
    var init := xs[..n];
    assert forall i :: 0 <= i < n ==> init[i] == xs[i];
    if keep(xs[n]) {
      idx := prev + [n];
      assert idx[|prev|] == n;
    } else {
      idx := prev;
    }
  }

  /** What `filter` keeps: exactly the positions whose element passes, in increasing order. */
  lemma {:induction false} FilterSelection<T>(xs: seq<T>, keep: T -> bool) returns (idx: seq<nat>)
    ensures IsSelection(xs, Filter(xs, keep), idx)
    ensures forall k :: 0 <= k < |idx| ==> keep(xs[idx[k]])
    ensures forall i :: 0 <= i < |xs| && keep(xs[i]) ==> i in idx
    decreases |xs|
  {
    if xs == [] {
      idx := [];
    } else {
      var prev := FilterSelection(xs[..|xs| - 1], keep);
      idx := SelectionStep(xs, keep, Filter(xs[..|xs| - 1], keep), prev);
    }
  }
}
