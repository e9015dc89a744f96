/**
  The cross-lane reassembly the update kernel needs when a z-difference reads
  a neighbour that lives in the adjacent lane group, and the boundary guard
  `(bool)pos` it uses on every axis.
 */
module LaneShift {
  import opened Lanes

  /**
    The guard `(bool)pos[k]` subtracted from an index to reach its lower
    neighbour: 1 for a nonzero index, 0 at the first index, so `i - Shift(i)`
    is never negative and falls back to `i` itself at the lower edge.
   */
  function Shift(i: nat): (s: nat)
    ensures s <= 1 && s <= i
    ensures s == 0 <==> i == 0
  {
    if i != 0 then 1 else 0
  }

  /**
    The `temp` group of the voltage update: lane 0 from lane 3 of the group
    below (`prev`), lanes 1..3 from lanes 0..2 of the current group.
   */
  function BackTemp(prev: F4, cur: F4): F4
  {
    F4(prev.f3, cur.f0, cur.f1, cur.f2)
  }

  /**
    The `temp` group of the current update: lanes 0..2 from lanes 1..3 of the
    current group, lane 3 from lane 0 of the group above (`next`).
   */
  function FwdTemp(cur: F4, next: F4): F4
  {
    F4(cur.f1, cur.f2, cur.f3, next.f0)
  }

  /**
    The scalar z-sample the backward difference reads below `z`: `z - 1`,
    except at z = 0, where the group guard keeps group 0 and so lane 3 of
    that same group (sample 3) is read.
   */
  function ZBack(z: nat): (r: nat)
    ensures z > 0 ==> r == z - 1
    ensures z == 0 ==> r == 3
  {
    if z == 0 then 3 else z - 1
  }

  /**
    Per lane, the assembled backward `temp` of group z / 4 holds the scalar
    sample ZBack(z): lane l > 0 is lane l - 1 of the same group, lane 0 is
    lane 3 of the previous group, and for group 0 lane 3 of group 0 itself.
   */
  lemma BackTempLane(col: seq<F4>, z: nat)
    requires z < 4 * |col|
    ensures ZBack(z) < 4 * |col|
    ensures Lane(BackTemp(col[z / 4 - Shift(z / 4)], col[z / 4]), z % 4) == ScalarAt(col, ZBack(z))
  { // the group and lane of ZBack(z), which keep the solver's arithmetic small
    var g, l := z / 4, z % 4;
    if l == 0 && g > 0 {
      assert ZBack(z) / 4 == g - 1 && ZBack(z) % 4 == 3;
    } else if l > 0 {
      assert ZBack(z) / 4 == g && ZBack(z) % 4 == l - 1;
    }
  }

  /**
    Per lane, the assembled forward `temp` of group z / 4 holds the scalar
    sample z + 1; lane 3 comes from lane 0 of the next group, which must exist.
   */
  lemma FwdTempLane(col: seq<F4>, z: nat)
    requires z / 4 + 1 < |col|
    ensures z + 1 < 4 * |col|
    ensures Lane(FwdTemp(col[z / 4], col[z / 4 + 1]), z % 4) == ScalarAt(col, z + 1)
  { // the group and lane of z + 1
    var g, l := z / 4, z % 4;
    if l == 3 {
      assert (z + 1) / 4 == g + 1 && (z + 1) % 4 == 0;
    } else {
      assert (z + 1) / 4 == g && (z + 1) % 4 == l + 1;
    }
  }

  /** The backward `temp` of every group of a z-column. */
  function BackwardColumn(col: seq<F4>): (r: seq<F4>)
    ensures |r| == |col|
  {
    seq(|col|, g requires 0 <= g < |col| => BackTemp(col[g - Shift(g)], col[g]))
  }

  /** The forward `temp` of every group of a z-column that has a group above it. */
  function ForwardColumn(col: seq<F4>): (r: seq<F4>)
    requires |col| > 0
    ensures |r| == |col| - 1
  {
    seq(|col| - 1, g requires 0 <= g < |col| - 1 => FwdTemp(col[g], col[g + 1]))
  }

  /**
    Unpacked, the backward temps of a column are the column's scalar samples
    shifted up by one, with sample 3 (lane 3 of group 0, not zero) entering at
    the bottom.
   */
  lemma {:induction false} BackwardColumnIsScalarShift(col: seq<F4>)
    requires |col| > 0
    ensures Flatten(BackwardColumn(col)) == [ScalarAt(col, 3)] + Flatten(col)[..4 * |col| - 1]
  {
    var lhs, rhs := Flatten(BackwardColumn(col)), [ScalarAt(col, 3)] + Flatten(col)[..4 * |col| - 1];
    assert |lhs| == |rhs| == 4 * |col|;
    forall z | 0 <= z < 4 * |col|
      ensures lhs[z] == rhs[z]
    {
      BackwardColumnAt(col, z);
      if z > 0 {
        FlattenAt(col, z - 1);
        assert rhs[z] == Flatten(col)[z - 1];
      }
    }
  }

  lemma BackwardColumnAt(col: seq<F4>, z: nat)
    requires z < 4 * |col|
    ensures ZBack(z) < 4 * |col|
    ensures Flatten(BackwardColumn(col))[z] == ScalarAt(col, ZBack(z))
  {
    var g := z / 4;
    FlattenAt(BackwardColumn(col), z);
    assert BackwardColumn(col)[g] == BackTemp(col[g - Shift(g)], col[g]);
    BackTempLane(col, z);
  }

  /**
    Unpacked, the forward temps of a column are the column's scalar samples
    shifted down by one: sample z of the result is sample z + 1 of the column.
   */
  lemma {:induction false} ForwardColumnIsScalarShift(col: seq<F4>)
    requires |col| > 0
    ensures Flatten(ForwardColumn(col)) == Flatten(col)[1..4 * |col| - 3]
  {
    var lhs, rhs := Flatten(ForwardColumn(col)), Flatten(col)[1..4 * |col| - 3];
    assert |lhs| == |rhs| == 4 * (|col| - 1);
    forall z | 0 <= z < 4 * (|col| - 1)
      ensures lhs[z] == rhs[z]
    {
      FlattenAt(ForwardColumn(col), z);
      assert ForwardColumn(col)[z / 4] == FwdTemp(col[z / 4], col[z / 4 + 1]);
      FwdTempLane(col, z);
      FlattenAt(col, z + 1);
    }
  }
}
