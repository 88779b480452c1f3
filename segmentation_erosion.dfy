/**
 * The class remap the segmentation post-processing applies before a mask is
 * turned into a palette image (segmentation_erosion.py,
 * remap_classes_for_convertor). A mask is a grid of class values, row by row.
 */
module SegmentationErosion {

  type Mask = seq<seq<int>>

  /** The distinct class values of a mask (`np.unique`). */
  function Values(m: Mask): set<int> {
    set i, j | 0 <= i < |m| && 0 <= j < |m[i]| :: m[i][j]
  }

  /** The remap fires on a two-class mask one of whose classes is 2. */
  predicate NeedsRemap(m: Mask) {
    |Values(m)| == 2 && 2 in Values(m)
  }

  /**
   * A copy of the mask in which, when the remap fires, every 2 becomes 1;
   * otherwise an unchanged copy.
   */
  function RemapClasses(m: Mask): (r: Mask)
    ensures |r| == |m| && forall i :: 0 <= i < |m| ==> |r[i]| == |m[i]|
    ensures !NeedsRemap(m) ==> r == m
    ensures NeedsRemap(m) ==> 2 !in Values(r)
    ensures NeedsRemap(m) ==> forall i, j :: 0 <= i < |m| && 0 <= j < |m[i]| && m[i][j] == 2 ==> r[i][j] == 1
    ensures forall i, j :: 0 <= i < |m| && 0 <= j < |m[i]| && m[i][j] != 2 ==> r[i][j] == m[i][j]
  {
    if NeedsRemap(m) then
      var r := seq(|m|, i requires 0 <= i < |m| => seq(|m[i]|, j requires 0 <= j < |m[i]| => if m[i][j] == 2 then 1 else m[i][j]));
      assert forall i, j :: 0 <= i < |r| && 0 <= j < |r[i]| ==> r[i][j] != 2;
      r
    else m
  }

  /** Remapping a remapped mask changes nothing. */
  lemma RemapIdempotent(m: Mask)
    ensures RemapClasses(RemapClasses(m)) == RemapClasses(m)
  {
    var r := RemapClasses(m);
    if NeedsRemap(m) {
      assert !NeedsRemap(r);
    }
  }

  /** A mask of classes 1 and 2 comes out all 1. */
  lemma RemapCollapsesOneAndTwo(m: Mask)
    requires Values(m) == {1, 2}
    ensures forall i, j :: 0 <= i < |m| && 0 <= j < |m[i]| ==> RemapClasses(m)[i][j] == 1
  {
    assert |Values(m)| == 2;
    var r := RemapClasses(m);
    forall i, j | 0 <= i < |m| && 0 <= j < |m[i]| ensures r[i][j] == 1 {
      assert m[i][j] in Values(m);
    }
  }

  /** A background-and-class-2 mask becomes a background-and-class-1 mask. */
  lemma RemapZeroAndTwo(m: Mask)
    requires Values(m) == {0, 2}
    ensures Values(RemapClasses(m)) == {0, 1}
  {
    assert |Values(m)| == 2;
    var r := RemapClasses(m);
    forall v | v in Values(r) ensures v == 0 || v == 1 {
      var i, j :| 0 <= i < |r| && 0 <= j < |r[i]| && r[i][j] == v;
      assert m[i][j] in Values(m);
    }
    var i0, j0 :| 0 <= i0 < |m| && 0 <= j0 < |m[i0]| && m[i0][j0] == 0;
    var i2, j2 :| 0 <= i2 < |m| && 0 <= j2 < |m[i2]| && m[i2][j2] == 2;
    assert r[i0][j0] == 0 && r[i2][j2] == 1;
  }
}
