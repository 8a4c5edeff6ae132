/**
 * High-water-mark snapshots (`map[alias]int64`), the comparison the loop
 * uses to decide whether anything moved, and the arithmetic of the delta
 * windows that successive snapshots cut out for one table.
 */
module Snapshots {
  import opened SqlAst

  type Snapshot = map<Alias, int>

  /** Go's `m[k]`: a missing key reads as zero. */
  function Lookup(m: Snapshot, k: Alias): int {
    if k in m then m[k] else 0
  }

  /** What `maxRowtimesEqual` decides: same size, and `right` agrees on every key of `left`. */
  predicate SameMarks(left: Snapshot, right: Snapshot) {
    |left| == |right| && forall k :: k in left ==> left[k] == Lookup(right, k)
  }

  /** `maxRowtimesEqual`: a loop over `left` that returns at the first disagreement. */
  method MaxRowtimesEqual(left: Snapshot, right: Snapshot) returns (equal: bool)
    ensures equal <==> SameMarks(left, right)
  {
    if |left| != |right| {
      return false;
    }
    var todo := left.Keys;
    while todo != {}
      invariant todo <= left.Keys
      invariant forall k :: k in left && k !in todo ==> left[k] == Lookup(right, k)
      decreases todo
    {
      var key :| key in todo;
      if left[key] != Lookup(right, key) {
        return false;
      }
      todo := todo - {key};
    }
    return true;
  }

  /** When both snapshots cover the same tables, the comparison is plain equality. */
  lemma SameMarksOnSameKeys(left: Snapshot, right: Snapshot)
    requires left.Keys == right.Keys
    ensures SameMarks(left, right) <==> left == right
  {
    if SameMarks(left, right) {
      assert forall k :: k in left ==> left[k] == right[k];
    }
  }

  /**
   * Without the same keys it is not: a table missing from `right` reads as
   * zero there, so a mark of zero on one table can hide a new table's mark.
   */
  lemma SameMarksIsNotEquality()
    ensures var a, b := Alias("a", ""), Alias("b", "");
      SameMarks(map[a := 0], map[b := 5]) && map[a := 0] != map[b := 5]
  {
    var a, b := Alias("a", ""), Alias("b", "");
    assert a != b;
    assert map[b := 5].Keys == {b};
    assert a !in map[b := 5];
  }

  // ---------------------------------------------------------------------
  // Delta windows

  predicate NonDecreasing(marks: seq<int>) {
    forall i, j :: 0 <= i <= j < |marks| ==> marks[i] <= marks[j]
  }

  /**
   * Slot 0 is the bootstrap query's range, `x <= marks[0]`; slot i >= 1 is
   * the i-th delta window `(marks[i-1], marks[i]]`.
   */
  predicate InSlot(marks: seq<int>, i: nat, x: int)
    requires i < |marks|
  {
    if i == 0 then x <= marks[0] else marks[i - 1] < x <= marks[i]
  }

  /**
   * For non-decreasing marks the slots tile `x <= marks[n]`: every such x
   * lies in some slot, no slot reaches past the last mark, and no two slots
   * share an x.
   */
  lemma {:induction false} SlotsTile(marks: seq<int>, x: int)
    requires |marks| >= 1 && NonDecreasing(marks)
    ensures x <= marks[|marks| - 1] <==> exists i :: 0 <= i < |marks| && InSlot(marks, i, x)
    ensures forall i, j :: 0 <= i < j < |marks| && InSlot(marks, i, x) ==> !InSlot(marks, j, x)
    decreases |marks|
  {
    var n := |marks| - 1;
    if n > 0 {
      var init := marks[..n];
      assert NonDecreasing(init);
      SlotsTile(init, x);
      forall i | 0 <= i < n ensures InSlot(init, i, x) == InSlot(marks, i, x) {
      }
      if x <= marks[n] && !(x <= marks[n - 1]) {
        assert InSlot(marks, n, x);
      }
      if exists i :: 0 <= i < |marks| && InSlot(marks, i, x) {
        var i :| 0 <= i < |marks| && InSlot(marks, i, x);
        assert x <= marks[i] <= marks[n];
      }
    } else {
      assert InSlot(marks, 0, x) <==> x <= marks[0];
    }
    forall i, j | 0 <= i < j < |marks| && InSlot(marks, i, x) ensures !InSlot(marks, j, x) {
      assert x <= marks[i] <= marks[j - 1];
    }
  }
}
