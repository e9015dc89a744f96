/**
  The SSE leapfrog kernel `Engine_sse`: it owns three packed voltage arrays
  and three packed current arrays, indexed [x, y, g] where g is a group of
  four z-lanes, and advances them in place with coefficients read from an
  operator it borrows.
 */
module EngineSse {
  import opened Lanes
  import opened LaneShift

  /** Values of a C `unsigned int` lie in [0, UIntRange). */
  const UIntRange: int := 0x1_0000_0000

  /**
    `n - 1` on `unsigned int`: the bound `numLines[k]-1` of the current loops,
    which wraps to the largest unsigned value when n is 0.
   */
  function UMinusOne(n: nat): (r: nat)
    requires n < UIntRange
    ensures r < UIntRange
    ensures n > 0 ==> r == n - 1
    ensures n == 0 ==> r == UIntRange - 1
  {
    (n + UIntRange - 1) % UIntRange
  }

  /**
    The z-extent `ceil(numLines[2]/4)` of both sweeps. The division is on
    unsigned integers, so `ceil` receives a whole number and the extent is
    the floor of nz / 4: a trailing partial group is not swept.
   */
  function ZGroups(nz: nat): (g: nat)
    ensures 4 * g <= nz < 4 * g + 4
    ensures nz % 4 != 0 ==> 4 * g < nz
  {
    nz / 4
  }

  /** Cell (x, y, g) is one the current sweep visits. */
  predicate VisitedByCurrents(nx: nat, ny: nat, nz: nat, x: nat, y: nat, g: nat)
    requires nx < UIntRange && ny < UIntRange
  {
    x < UMinusOne(nx) && y < UMinusOne(ny) && g < ZGroups(nz)
  }

  /**
    Every forward neighbour the current sweep reads, (x + 1, y, g),
    (x, y + 1, g) and group g + 1, lies inside storage with `groups` groups.
   */
  ghost predicate ForwardReadsInBounds(nx: nat, ny: nat, nz: nat, groups: nat)
    requires nx < UIntRange && ny < UIntRange
  {
    forall x: nat, y: nat, g: nat :: VisitedByCurrents(nx, ny, nz, x, y, g) ==>
      x + 1 < nx && y + 1 < ny && g + 1 < groups
  }

  /**
    The forward reads stay in bounds exactly when the sweep is empty, or the
    grid has lines along x and y and storage holds a group beyond the swept
    ones (the "outside sim area" read of group g + 1).
   */
  lemma ForwardReadsInBoundsIff(nx: nat, ny: nat, nz: nat, groups: nat)
    requires nx < UIntRange && ny < UIntRange
    ensures ForwardReadsInBounds(nx, ny, nz, groups) <==>
      (UMinusOne(nx) == 0 || UMinusOne(ny) == 0 || ZGroups(nz) == 0 ||
       (nx > 0 && ny > 0 && ZGroups(nz) < groups))
  {
    if UMinusOne(nx) != 0 && UMinusOne(ny) != 0 && ZGroups(nz) != 0 && ForwardReadsInBounds(nx, ny, nz, groups) {
      assert VisitedByCurrents(nx, ny, nz, UMinusOne(nx) - 1, UMinusOne(ny) - 1, ZGroups(nz) - 1);
    }
  }

  /**
    Storage of exactly nz / 4 groups is too small: the last swept group reads
    lane 0 of a group that does not exist.
   */
  lemma UnpaddedStorageReadsOutOfBounds(nx: nat, ny: nat, nz: nat)
    requires 2 <= nx < UIntRange && 2 <= ny < UIntRange && 4 <= nz
    ensures !ForwardReadsInBounds(nx, ny, nz, ZGroups(nz))
  {
    assert VisitedByCurrents(nx, ny, nz, 0, 0, ZGroups(nz) - 1);
  }

  /**
    With no lines along x, `numLines[0]-1` wraps and the current sweep reads
    (1, y, g) of an empty array as soon as it visits anything.
   */
  lemma EmptyXAxisReadsOutOfBounds(ny: nat, nz: nat, groups: nat)
    requires 2 <= ny < UIntRange && 4 <= nz
    ensures !ForwardReadsInBounds(0, ny, nz, groups)
  {
    assert VisitedByCurrents(0, ny, nz, 0, 0, 0);
  }

  /** Cells (x', y', g') already visited when a sweep stands at (x, y, g). */
  predicate Swept(xc: nat, yc: nat, gc: nat, x: nat, y: nat, g: nat, yEnd: nat, gEnd: nat)
  {
    gc < gEnd && yc < yEnd && (xc < x || (xc == x && (yc < y || (yc == y && gc < g))))
  }

  /** Sample z of the packed array `a` along the z-column at (x, y). */
  ghost function ScalarView(a: array3<F4>, x: nat, y: nat, z: nat): real
    requires x < a.Length0 && y < a.Length1 && z < 4 * a.Length2
    reads a
  {
    Lane(a[x, y, z / 4], z % 4)
  }

  /** The z-column of `a` at (x, y), group by group. */
  ghost function ColumnOf(a: array3<F4>, x: nat, y: nat): (col: seq<F4>)
    requires x < a.Length0 && y < a.Length1
    reads a
    ensures |col| == a.Length2
    ensures forall g :: 0 <= g < a.Length2 ==> col[g] == a[x, y, g]
  {
    seq(a.Length2, g requires 0 <= g < a.Length2 reads a => a[x, y, g])
  }

  /**
    A set of three packed field arrays, one per polarization, each of
    nx x ny x groups zeroed lane groups. Stands for the array allocator,
    whose body and allocation size are not part of this model.
   */
  method CreateFieldSet(nx: nat, ny: nat, groups: nat) returns (f: array<array3<F4>>)
    ensures fresh(f) && f.Length == 3
    ensures forall p :: 0 <= p < 3 ==>
      fresh(f[p]) && f[p].Length0 == nx && f[p].Length1 == ny && f[p].Length2 == groups
    ensures f[0] != f[1] && f[0] != f[2] && f[1] != f[2]
    ensures forall p, x, y, g :: 0 <= p < 3 && 0 <= x < nx && 0 <= y < ny && 0 <= g < groups ==> f[p][x, y, g] == Zero
  {
    var a0 := new F4[nx, ny, groups]((x, y, g) => Zero);
    var a1 := new F4[nx, ny, groups]((x, y, g) => Zero);
    var a2 := new F4[nx, ny, groups]((x, y, g) => Zero);
    f := new array3<F4>[3] [a0, a1, a2];
  }

  /**
    The coefficient provider (`Operator_sse`), external to the kernel: the
    grid's line counts and, per polarization, the voltage decay and update
    coefficients (`f4_vv`, `f4_vi`) and the current ones (`f4_ii`, `f4_iv`).
   */
  class Operator {
    const numLines: seq<nat>
    const vv: seq<array3<F4>>
    const vi: seq<array3<F4>>
    const ii: seq<array3<F4>>
    const iv: seq<array3<F4>>

    constructor (numLines: seq<nat>, vv: seq<array3<F4>>, vi: seq<array3<F4>>,
                 ii: seq<array3<F4>>, iv: seq<array3<F4>>)
      ensures this.numLines == numLines && this.vv == vv && this.vi == vi
      ensures this.ii == ii && this.iv == iv
    {
      this.numLines, this.vv, this.vi, this.ii, this.iv := numLines, vv, vi, ii, iv;
    }

    /** Three unsigned line counts and three arrays of each coefficient kind. */
    predicate Valid()
    {
      |numLines| == 3 && (forall n :: 0 <= n < 3 ==> numLines[n] < UIntRange) &&
      |vv| == 3 && |vi| == 3 && |ii| == 3 && |iv| == 3
    }

    function GetNumberOfLines(n: nat): (r: nat)
      requires Valid() && n < 3
      ensures r < UIntRange
    {
      numLines[n]
    }
  }

  class Engine {
    const op: Operator
    const numLines: seq<nat>
    var numTS: nat
    var f4Volt: array?<array3<F4>>
    var f4Curr: array?<array3<F4>>

    /** The engine captures the operator and its three line counts. */
    constructor (op: Operator)
      requires op.Valid()
      ensures this.op == op && numLines == op.numLines
      ensures f4Volt == null && f4Curr == null
    {
      var lines: seq<nat> := [];
      var n := 0;
      while n < 3
        invariant 0 <= n <= 3
        invariant lines == op.numLines[..n]
      {
        lines := lines + [op.GetNumberOfLines(n)];
        n := n + 1;
      }
      assert op.numLines[..3] == op.numLines;
      this.op := op;
      numLines := lines;
      f4Volt, f4Curr := null, null;
    }

    /** Array `a` spans the grid in x and y and holds `groups` lane groups along z. */
    predicate Shaped(a: array3<F4>, groups: nat)
      requires |numLines| == 3
    {
      a.Length0 == numLines[0] && a.Length1 == numLines[1] && a.Length2 == groups
    }

    /** Both field sets exist, share one shape, and are six distinct arrays. */
    ghost predicate Allocated()
      reads this, f4Volt, f4Curr
    {
      |numLines| == 3 && (forall n :: 0 <= n < 3 ==> numLines[n] < UIntRange) &&
      f4Volt != null && f4Curr != null && f4Volt.Length == 3 && f4Curr.Length == 3 &&
      (forall p :: 0 <= p < 3 ==>
        Shaped(f4Volt[p], f4Volt[0].Length2) && Shaped(f4Curr[p], f4Volt[0].Length2)) &&
      (forall p, q :: 0 <= p < 3 && 0 <= q < 3 ==>
        f4Volt[p] != f4Curr[q] && (p != q ==> f4Volt[p] != f4Volt[q] && f4Curr[p] != f4Curr[q]))
    }

    /** The operator's twelve coefficient arrays have the fields' shape. */
    predicate OperatorShaped(groups: nat)
      requires |numLines| == 3
    {
      |op.vv| == 3 && |op.vi| == 3 && |op.ii| == 3 && |op.iv| == 3 &&
      forall p :: 0 <= p < 3 ==>
        Shaped(op.vv[p], groups) && Shaped(op.vi[p], groups) &&
        Shaped(op.ii[p], groups) && Shaped(op.iv[p], groups)
    }

    /**
      The state both update sweeps work on: fields allocated, coefficients of
      matching shape, and no field array shared with a coefficient array.
     */
    ghost predicate Ready()
      reads this, f4Volt, f4Curr
    {
      Allocated() && OperatorShaped(f4Volt[0].Length2) &&
      forall p, q :: 0 <= p < 3 && 0 <= q < 3 ==>
        f4Volt[p] != op.vv[q] && f4Volt[p] != op.vi[q] && f4Volt[p] != op.ii[q] && f4Volt[p] != op.iv[q] &&
        f4Curr[p] != op.vv[q] && f4Curr[p] != op.vi[q] && f4Curr[p] != op.ii[q] && f4Curr[p] != op.iv[q]
    }

    /** Lane groups along z in every field array. */
    function Groups(): nat
      requires Ready()
      reads this, f4Volt, f4Curr
    {
      f4Volt[0].Length2
    }

    /**
      Fresh, zeroed field sets of `groups` lane groups per z-column and a step
      counter of 0. The allocation size is a parameter: how many groups the
      array allocator reserves is not part of this model.
     */
    method Init(groups: nat)
      requires |numLines| == 3 && forall n :: 0 <= n < 3 ==> numLines[n] < UIntRange
      modifies this
      ensures numTS == 0
      ensures Allocated() && f4Volt[0].Length2 == groups
      ensures fresh(f4Volt) && fresh(f4Curr)
      ensures forall p :: 0 <= p < 3 ==> fresh(f4Volt[p]) && fresh(f4Curr[p])
      ensures forall p, x, y, g :: 0 <= p < 3 && 0 <= x < numLines[0] && 0 <= y < numLines[1] && 0 <= g < groups ==>
        f4Volt[p][x, y, g] == Zero && f4Curr[p][x, y, g] == Zero
      ensures OperatorShaped(groups) ==> Ready()
    {
      numTS := 0;
      f4Volt := CreateFieldSet(numLines[0], numLines[1], groups);
      f4Curr := CreateFieldSet(numLines[0], numLines[1], groups);
    }

    /** Both field-set pointers become null; the step counter is kept. */
    method Reset()
      modifies this
      ensures f4Volt == null && f4Curr == null
      ensures numTS == old(numTS)
    {
      f4Volt := null;
      f4Curr := null;
    }

    /** Tear-down (the destructor) is a Reset. */
    method Destroy()
      modifies this
      ensures f4Volt == null && f4Curr == null
      ensures numTS == old(numTS)
    {
      Reset();
    }

    /**
      The backward discrete curl of the currents at (x, y, g), first index
      guarded on every axis, using the packed z-shift for the z-difference.
     */
    ghost function VoltageCurl(p: nat, x: nat, y: nat, g: nat): F4
      requires Ready() && p < 3 && x < numLines[0] && y < numLines[1] && g < Groups()
      reads this, f4Volt, f4Curr, f4Curr[0], f4Curr[1], f4Curr[2]
    {
      var cx, cy, cz := f4Curr[0], f4Curr[1], f4Curr[2];
      if p == 0 then
        Curl(cz[x, y, g], cz[x, y - Shift(y), g], cy[x, y, g], BackTemp(cy[x, y, g - Shift(g)], cy[x, y, g]))
      else if p == 1 then
        Curl(cx[x, y, g], BackTemp(cx[x, y, g - Shift(g)], cx[x, y, g]), cz[x, y, g], cz[x - Shift(x), y, g])
      else
        Curl(cy[x, y, g], cy[x - Shift(x), y, g], cx[x, y, g], cx[x, y - Shift(y), g])
    }

    /** The value voltage cell (p, x, y, g) takes when it held `prev`. */
    ghost function NewVoltage(p: nat, x: nat, y: nat, g: nat, prev: F4): F4
      requires Ready() && p < 3 && x < numLines[0] && y < numLines[1] && g < Groups()
      reads this, f4Volt, f4Curr, f4Curr[0], f4Curr[1], f4Curr[2], op.vv[p], op.vi[p]
    {
      Leapfrog(prev, op.vv[p][x, y, g], op.vi[p][x, y, g], VoltageCurl(p, x, y, g))
    }

    /**
      The forward discrete curl of the voltages at (x, y, g), reading the
      neighbours at x + 1, y + 1 and, for the z-difference, lane 0 of group g + 1.
     */
    ghost function CurrentCurl(p: nat, x: nat, y: nat, g: nat): F4
      requires Ready() && p < 3 && x + 1 < numLines[0] && y + 1 < numLines[1] && g + 1 < Groups()
      reads this, f4Volt, f4Curr, f4Volt[0], f4Volt[1], f4Volt[2]
    {
      var vx, vy, vz := f4Volt[0], f4Volt[1], f4Volt[2];
      if p == 0 then
        Curl(vz[x, y, g], vz[x, y + 1, g], vy[x, y, g], FwdTemp(vy[x, y, g], vy[x, y, g + 1]))
      else if p == 1 then
        Curl(vx[x, y, g], FwdTemp(vx[x, y, g], vx[x, y, g + 1]), vz[x, y, g], vz[x + 1, y, g])
      else
        Curl(vy[x, y, g], vy[x + 1, y, g], vx[x, y, g], vx[x, y + 1, g])
    }

    /** The value current cell (p, x, y, g) takes when it held `prev`. */
    ghost function NewCurrent(p: nat, x: nat, y: nat, g: nat, prev: F4): F4
      requires Ready() && p < 3 && x + 1 < numLines[0] && y + 1 < numLines[1] && g + 1 < Groups()
      reads this, f4Volt, f4Curr, f4Volt[0], f4Volt[1], f4Volt[2], op.ii[p], op.iv[p]
    {
      Leapfrog(prev, op.ii[p][x, y, g], op.iv[p][x, y, g], CurrentCurl(p, x, y, g))
    }

    /** Scalar sample z of current polarization p along the z-column at (x, y). */
    ghost function CurrentAt(p: nat, x: nat, y: nat, z: nat): real
      requires Ready() && p < 3 && x < numLines[0] && y < numLines[1] && z < 4 * Groups()
      reads this, f4Volt, f4Curr, f4Curr[p]
    {
      ScalarView(f4Curr[p], x, y, z)
    }

    /** Scalar sample z of voltage polarization p along the z-column at (x, y). */
    ghost function VoltageAt(p: nat, x: nat, y: nat, z: nat): real
      requires Ready() && p < 3 && x < numLines[0] && y < numLines[1] && z < 4 * Groups()
      reads this, f4Volt, f4Curr, f4Volt[p]
    {
      ScalarView(f4Volt[p], x, y, z)
    }

    /**
      Lane by lane, the packed backward curl is the scalar curl stencil: each
      difference reads the sample one below along its axis, the x and y ones
      fall back to the sample itself at index 0, and the z one reads ZBack(z).
     */
    lemma VoltageCurlIsScalarStencil(x: nat, y: nat, z: nat)
      requires Ready() && x < numLines[0] && y < numLines[1] && z < 4 * Groups()
      ensures Lane(VoltageCurl(0, x, y, z / 4), z % 4) ==
        (CurrentAt(2, x, y, z) - CurrentAt(2, x, y - Shift(y), z)) - (CurrentAt(1, x, y, z) - CurrentAt(1, x, y, ZBack(z)))
      ensures Lane(VoltageCurl(1, x, y, z / 4), z % 4) ==
        (CurrentAt(0, x, y, z) - CurrentAt(0, x, y, ZBack(z))) - (CurrentAt(2, x, y, z) - CurrentAt(2, x - Shift(x), y, z))
      ensures Lane(VoltageCurl(2, x, y, z / 4), z % 4) ==
        (CurrentAt(1, x, y, z) - CurrentAt(1, x - Shift(x), y, z)) - (CurrentAt(0, x, y, z) - CurrentAt(0, x, y - Shift(y), z))
    { // the z-differences, through the lane-level shift of each column
      BackTempLane(ColumnOf(f4Curr[1], x, y), z);
      BackTempLane(ColumnOf(f4Curr[0], x, y), z);
    }

    /**
      Lane by lane, the packed forward curl is the scalar curl stencil with
      every difference reading the sample one above along its axis; along z
      that is sample z + 1, lane 0 of the next group for lane 3.
     */
    lemma CurrentCurlIsScalarStencil(x: nat, y: nat, z: nat)
      requires Ready() && x + 1 < numLines[0] && y + 1 < numLines[1] && z / 4 + 1 < Groups()
      ensures Lane(CurrentCurl(0, x, y, z / 4), z % 4) ==
        (VoltageAt(2, x, y, z) - VoltageAt(2, x, y + 1, z)) - (VoltageAt(1, x, y, z) - VoltageAt(1, x, y, z + 1))
      ensures Lane(CurrentCurl(1, x, y, z / 4), z % 4) ==
        (VoltageAt(0, x, y, z) - VoltageAt(0, x, y, z + 1)) - (VoltageAt(2, x, y, z) - VoltageAt(2, x + 1, y, z))
      ensures Lane(CurrentCurl(2, x, y, z / 4), z % 4) ==
        (VoltageAt(1, x, y, z) - VoltageAt(1, x + 1, y, z)) - (VoltageAt(0, x, y, z) - VoltageAt(0, x, y + 1, z))
    { // the z-differences, through the lane-level shift of each column
      FwdTempLane(ColumnOf(f4Volt[1], x, y), z);
      FwdTempLane(ColumnOf(f4Volt[0], x, y), z);
    }

    /**
      At x = 0 (resp. y = 0) the guarded lower neighbour is the cell itself, so
      the x- (resp. y-) difference drops out of every voltage curl that has one
      and only the other difference is left; at the corner column x = y = 0 the
      z-polarization curl vanishes.
     */
    lemma LowerEdgeDifferencesVanish(x: nat, y: nat, g: nat)
      requires Ready() && x < numLines[0] && y < numLines[1] && g < Groups()
      ensures x == 0 ==>
                VoltageCurl(1, x, y, g) == Sub(f4Curr[0][x, y, g], BackTemp(f4Curr[0][x, y, g - Shift(g)], f4Curr[0][x, y, g]))
      ensures x == 0 ==> VoltageCurl(2, x, y, g) == Sub(f4Curr[0][x, y - Shift(y), g], f4Curr[0][x, y, g])
      ensures y == 0 ==>
                VoltageCurl(0, x, y, g) == Sub(BackTemp(f4Curr[1][x, y, g - Shift(g)], f4Curr[1][x, y, g]), f4Curr[1][x, y, g])
      ensures y == 0 ==> VoltageCurl(2, x, y, g) == Sub(f4Curr[1][x, y, g], f4Curr[1][x - Shift(x), y, g])
      ensures x == 0 && y == 0 ==> VoltageCurl(2, x, y, g) == Zero
    {
    }

    /**
      All-zero fields are a fixed point of the voltage update: with every
      current zero the curl is zero, and a zero voltage stays zero whatever
      the coefficients.
     */
    lemma ZeroCurrentsGiveZeroVoltageUpdate(p: nat, x: nat, y: nat, g: nat)
      requires Ready() && p < 3 && x < numLines[0] && y < numLines[1] && g < Groups()
      requires forall q, i, j, k :: 0 <= q < 3 && 0 <= i < numLines[0] && 0 <= j < numLines[1] && 0 <= k < Groups() ==>
        f4Curr[q][i, j, k] == Zero
      ensures VoltageCurl(p, x, y, g) == Zero
      ensures NewVoltage(p, x, y, g, Zero) == Zero
    {
    }

    /**
      All-zero fields are a fixed point of the current update as well.
     */
    lemma ZeroVoltagesGiveZeroCurrentUpdate(p: nat, x: nat, y: nat, g: nat)
      requires Ready() && p < 3 && x + 1 < numLines[0] && y + 1 < numLines[1] && g + 1 < Groups()
      requires forall q, i, j, k :: 0 <= q < 3 && 0 <= i < numLines[0] && 0 <= j < numLines[1] && 0 <= k < Groups() ==>
        f4Volt[q][i, j, k] == Zero
      ensures CurrentCurl(p, x, y, g) == Zero
      ensures NewCurrent(p, x, y, g, Zero) == Zero
    {
    }

    /**
      One half-step current -> voltage over x < Nx, y < Ny, g < Nz / 4. Each
      visited voltage cell becomes old * vv + vi * (backward curl of the
      currents), from its own old value only; groups from Nz / 4 on keep their
      values; currents and coefficients are only read.
     */
    method UpdateVoltages()
      requires Ready() && ZGroups(numLines[2]) <= Groups()
      modifies f4Volt[0], f4Volt[1], f4Volt[2]
      ensures Ready()
      ensures forall p, x, y, g :: 0 <= p < 3 && 0 <= x < numLines[0] && 0 <= y < numLines[1] && 0 <= g < Groups() ==>
        f4Volt[p][x, y, g] ==
          if g < ZGroups(numLines[2]) then NewVoltage(p, x, y, g, old(f4Volt[p][x, y, g])) else old(f4Volt[p][x, y, g])
      ensures forall p :: 0 <= p < 3 ==>
        unchanged(f4Curr[p]) && unchanged(op.vv[p]) && unchanged(op.vi[p]) && unchanged(op.ii[p]) && unchanged(op.iv[p])
    {
      var nx, ny, gEnd, groups := numLines[0], numLines[1], ZGroups(numLines[2]), Groups();
      var x := 0;
      while x < nx
        invariant 0 <= x <= nx
        invariant Ready() && Groups() == groups
        invariant forall p, i, j, k {:trigger f4Volt[p][i, j, k]} :: 0 <= p < 3 && 0 <= i < nx && 0 <= j < ny && 0 <= k < groups ==>
          f4Volt[p][i, j, k] ==
            if Swept(i, j, k, x, 0, 0, ny, gEnd) then NewVoltage(p, i, j, k, old(f4Volt[p][i, j, k])) else old(f4Volt[p][i, j, k])
      {
        var y := 0;
        while y < ny
          invariant 0 <= y <= ny
          invariant Ready() && Groups() == groups
          invariant forall p, i, j, k {:trigger f4Volt[p][i, j, k]} :: 0 <= p < 3 && 0 <= i < nx && 0 <= j < ny && 0 <= k < groups ==>
            f4Volt[p][i, j, k] ==
              if Swept(i, j, k, x, y, 0, ny, gEnd) then NewVoltage(p, i, j, k, old(f4Volt[p][i, j, k])) else old(f4Volt[p][i, j, k])
        {
          label before:
          UpdateVoltageColumn(x, y);
          assert forall p, i, j, k, v :: 0 <= p < 3 && 0 <= i < nx && 0 <= j < ny && 0 <= k < groups ==>
            NewVoltage(p, i, j, k, v) == old@before(NewVoltage(p, i, j, k, v));
          y := y + 1;
        }
        x := x + 1;
      }
    }

    /**
      The innermost loop of UpdateVoltages: the z-column at (x, y), group by
      group up to Nz / 4; nothing outside that column changes.
     */
    method UpdateVoltageColumn(x: nat, y: nat)
      requires Ready() && x < numLines[0] && y < numLines[1] && ZGroups(numLines[2]) <= Groups()
      modifies f4Volt[0], f4Volt[1], f4Volt[2]
      ensures Ready()
      ensures forall p, i, j, k :: 0 <= p < 3 && 0 <= i < numLines[0] && 0 <= j < numLines[1] && 0 <= k < Groups() ==>
        f4Volt[p][i, j, k] ==
          if i == x && j == y && k < ZGroups(numLines[2]) then NewVoltage(p, i, j, k, old(f4Volt[p][i, j, k]))
          else old(f4Volt[p][i, j, k])
    {
      var nx, ny, gEnd, groups := numLines[0], numLines[1], ZGroups(numLines[2]), Groups();
      var g := 0;
      while g < gEnd
        invariant 0 <= g <= gEnd
        invariant Ready() && Groups() == groups
        invariant forall p, i, j, k {:trigger f4Volt[p][i, j, k]} :: 0 <= p < 3 && 0 <= i < nx && 0 <= j < ny && 0 <= k < groups ==>
          f4Volt[p][i, j, k] ==
            if i == x && j == y && k < g then NewVoltage(p, i, j, k, old(f4Volt[p][i, j, k])) else old(f4Volt[p][i, j, k])
      {
        label before:
        UpdateVoltageGroup(x, y, g);
        assert forall p, i, j, k, v :: 0 <= p < 3 && 0 <= i < nx && 0 <= j < ny && 0 <= k < groups ==>
          NewVoltage(p, i, j, k, v) == old@before(NewVoltage(p, i, j, k, v));
        g := g + 1;
      }
    }

    /**
      The loop body of UpdateVoltages at (x, y, g): the three voltage groups
      there, and nothing else, take their new values.
     */
    method UpdateVoltageGroup(x: nat, y: nat, g: nat)
      requires Ready() && x < numLines[0] && y < numLines[1] && g < Groups()
      modifies f4Volt[0], f4Volt[1], f4Volt[2]
      ensures forall p, i, j, k :: 0 <= p < 3 && 0 <= i < numLines[0] && 0 <= j < numLines[1] && 0 <= k < Groups() ==>
        f4Volt[p][i, j, k] ==
          if i == x && j == y && k == g then NewVoltage(p, i, j, k, old(f4Volt[p][i, j, k])) else old(f4Volt[p][i, j, k])
    {
      var vx: array3<F4>, vy: array3<F4>, vz: array3<F4> := f4Volt[0], f4Volt[1], f4Volt[2];
      var cx: array3<F4>, cy: array3<F4>, cz: array3<F4> := f4Curr[0], f4Curr[1], f4Curr[2];
      var shiftX, shiftY := Shift(x), Shift(y);
      var temp: F4 := Zero;

      // x-polarization
      temp := temp.(f0 := cy[x, y, g - Shift(g)].f3);
      temp := temp.(f1 := cy[x, y, g].f0);
      temp := temp.(f2 := cy[x, y, g].f1);
      temp := temp.(f3 := cy[x, y, g].f2);
      vx[x, y, g] := Mul(vx[x, y, g], op.vv[0][x, y, g]);
      vx[x, y, g] := Add(vx[x, y, g], Mul(op.vi[0][x, y, g], Curl(cz[x, y, g], cz[x, y - shiftY, g], cy[x, y, g], temp)));

      // y-polarization
      temp := temp.(f0 := cx[x, y, g - Shift(g)].f3);
      temp := temp.(f1 := cx[x, y, g].f0);
      temp := temp.(f2 := cx[x, y, g].f1);
      temp := temp.(f3 := cx[x, y, g].f2);
      vy[x, y, g] := Mul(vy[x, y, g], op.vv[1][x, y, g]);
      vy[x, y, g] := Add(vy[x, y, g], Mul(op.vi[1][x, y, g], Curl(cx[x, y, g], temp, cz[x, y, g], cz[x - shiftX, y, g])));

      // z-polarization
      vz[x, y, g] := Mul(vz[x, y, g], op.vv[2][x, y, g]);
      vz[x, y, g] := Add(vz[x, y, g], Mul(op.vi[2][x, y, g], Curl(cy[x, y, g], cy[x - shiftX, y, g], cx[x, y, g], cx[x, y - shiftY, g])));
    }

    /**
      One half-step voltage -> current over x < Nx - 1, y < Ny - 1 (unsigned),
      g < Nz / 4. Each visited current cell becomes old * ii + iv * (forward
      curl of the voltages); the faces x = Nx - 1 and y = Ny - 1 and the
      groups from Nz / 4 on keep their values; voltages and coefficients are
      only read. The caller must guarantee that every forward read, including
      lane 0 of group g + 1, is inside storage.
     */
    method UpdateCurrents()
      requires Ready()
      requires ForwardReadsInBounds(numLines[0], numLines[1], numLines[2], Groups())
      modifies f4Curr[0], f4Curr[1], f4Curr[2]
      ensures Ready()
      ensures forall p, x, y, g :: 0 <= p < 3 && 0 <= x < numLines[0] && 0 <= y < numLines[1] && 0 <= g < Groups() ==>
        f4Curr[p][x, y, g] ==
          if VisitedByCurrents(numLines[0], numLines[1], numLines[2], x, y, g)
          then NewCurrent(p, x, y, g, old(f4Curr[p][x, y, g])) else old(f4Curr[p][x, y, g])
      ensures forall p, x, y, g ::
        0 <= p < 3 && 0 <= x < numLines[0] && 0 <= y < numLines[1] && 0 <= g < Groups() &&
        (x == numLines[0] - 1 || y == numLines[1] - 1 || g >= ZGroups(numLines[2])) ==>
          f4Curr[p][x, y, g] == old(f4Curr[p][x, y, g])
      ensures forall p :: 0 <= p < 3 ==>
        unchanged(f4Volt[p]) && unchanged(op.vv[p]) && unchanged(op.vi[p]) && unchanged(op.ii[p]) && unchanged(op.iv[p])
    {
      var nx, ny := numLines[0], numLines[1];
      var xEnd, yEnd, gEnd, groups := UMinusOne(nx), UMinusOne(ny), ZGroups(numLines[2]), Groups();
      ForwardReadsInBoundsIff(nx, ny, numLines[2], Groups());
      var x := 0;
      while x < xEnd
        invariant 0 <= x <= xEnd
        invariant Ready() && Groups() == groups
        invariant forall p, i, j, k {:trigger f4Curr[p][i, j, k]} :: 0 <= p < 3 && 0 <= i < nx && 0 <= j < ny && 0 <= k < groups ==>
          f4Curr[p][i, j, k] ==
            if Swept(i, j, k, x, 0, 0, yEnd, gEnd) then NewCurrent(p, i, j, k, old(f4Curr[p][i, j, k])) else old(f4Curr[p][i, j, k])
      {
        var y := 0;
        while y < yEnd
          invariant 0 <= y <= yEnd
          invariant Ready() && Groups() == groups
          invariant forall p, i, j, k {:trigger f4Curr[p][i, j, k]} :: 0 <= p < 3 && 0 <= i < nx && 0 <= j < ny && 0 <= k < groups ==>
            f4Curr[p][i, j, k] ==
              if Swept(i, j, k, x, y, 0, yEnd, gEnd) then NewCurrent(p, i, j, k, old(f4Curr[p][i, j, k])) else old(f4Curr[p][i, j, k])
        {
          label before:
          UpdateCurrentColumn(x, y);
          assert forall p, i, j, k, v :: 0 <= p < 3 && 0 <= i + 1 < nx && 0 <= j + 1 < ny && 0 <= k + 1 < groups ==>
            NewCurrent(p, i, j, k, v) == old@before(NewCurrent(p, i, j, k, v));
          y := y + 1;
        }
        x := x + 1;
      }
    }

    /**
      The innermost loop of UpdateCurrents: the z-column at (x, y), group by
      group up to Nz / 4; nothing outside that column changes. Every swept
      group needs the group above it in storage.
     */
    method UpdateCurrentColumn(x: nat, y: nat)
      requires Ready()
      requires ZGroups(numLines[2]) == 0 || (x + 1 < numLines[0] && y + 1 < numLines[1] && ZGroups(numLines[2]) < Groups())
      modifies f4Curr[0], f4Curr[1], f4Curr[2]
      ensures Ready()
      ensures forall p, i, j, k :: 0 <= p < 3 && 0 <= i < numLines[0] && 0 <= j < numLines[1] && 0 <= k < Groups() ==>
        f4Curr[p][i, j, k] ==
          if i == x && j == y && k < ZGroups(numLines[2]) then NewCurrent(p, i, j, k, old(f4Curr[p][i, j, k]))
          else old(f4Curr[p][i, j, k])
    {
      var nx, ny, gEnd, groups := numLines[0], numLines[1], ZGroups(numLines[2]), Groups();
      var g := 0;
      while g < gEnd
        invariant 0 <= g <= gEnd
        invariant Ready() && Groups() == groups
        invariant forall p, i, j, k {:trigger f4Curr[p][i, j, k]} :: 0 <= p < 3 && 0 <= i < nx && 0 <= j < ny && 0 <= k < groups ==>
          f4Curr[p][i, j, k] ==
            if i == x && j == y && k < g then NewCurrent(p, i, j, k, old(f4Curr[p][i, j, k])) else old(f4Curr[p][i, j, k])
      {
        label before:
        UpdateCurrentGroup(x, y, g);
        assert forall p, i, j, k, v :: 0 <= p < 3 && 0 <= i + 1 < nx && 0 <= j + 1 < ny && 0 <= k + 1 < groups ==>
          NewCurrent(p, i, j, k, v) == old@before(NewCurrent(p, i, j, k, v));
        g := g + 1;
      }
    }

    /**
      The loop body of UpdateCurrents at (x, y, g): the three current groups
      there, and nothing else, take their new values.
     */
    method UpdateCurrentGroup(x: nat, y: nat, g: nat)
      requires Ready() && x + 1 < numLines[0] && y + 1 < numLines[1] && g + 1 < Groups()
      modifies f4Curr[0], f4Curr[1], f4Curr[2]
      ensures forall p, i, j, k :: 0 <= p < 3 && 0 <= i < numLines[0] && 0 <= j < numLines[1] && 0 <= k < Groups() ==>
        f4Curr[p][i, j, k] ==
          if i == x && j == y && k == g then NewCurrent(p, i, j, k, old(f4Curr[p][i, j, k])) else old(f4Curr[p][i, j, k])
    {
      var vx: array3<F4>, vy: array3<F4>, vz: array3<F4> := f4Volt[0], f4Volt[1], f4Volt[2];
      var cx: array3<F4>, cy: array3<F4>, cz: array3<F4> := f4Curr[0], f4Curr[1], f4Curr[2];
      var temp: F4 := Zero;

      // x-polarization
      temp := temp.(f0 := vy[x, y, g].f1);
      temp := temp.(f1 := vy[x, y, g].f2);
      temp := temp.(f2 := vy[x, y, g].f3);
      temp := temp.(f3 := vy[x, y, g + 1].f0);
      cx[x, y, g] := Mul(cx[x, y, g], op.ii[0][x, y, g]);
      cx[x, y, g] := Add(cx[x, y, g], Mul(op.iv[0][x, y, g], Curl(vz[x, y, g], vz[x, y + 1, g], vy[x, y, g], temp)));

      // y-polarization
      temp := temp.(f0 := vx[x, y, g].f1);
      temp := temp.(f1 := vx[x, y, g].f2);
      temp := temp.(f2 := vx[x, y, g].f3);
      temp := temp.(f3 := vx[x, y, g + 1].f0);
      cy[x, y, g] := Mul(cy[x, y, g], op.ii[1][x, y, g]);
      cy[x, y, g] := Add(cy[x, y, g], Mul(op.iv[1][x, y, g], Curl(vx[x, y, g], temp, vz[x, y, g], vz[x + 1, y, g])));

      // z-polarization
      cz[x, y, g] := Mul(cz[x, y, g], op.ii[2][x, y, g]);
      cz[x, y, g] := Add(cz[x, y, g], Mul(op.iv[2][x, y, g], Curl(vy[x, y, g], vy[x + 1, y, g], vx[x, y, g], vx[x, y + 1, g])));
    }
  }
}
