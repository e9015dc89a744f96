/**
  A packed lane group: four consecutive z-samples of one field component
  stored side by side (the engine's `f4vector`), with the lane-wise
  arithmetic the update kernel applies to whole groups. Values are `real`;
  floating-point rounding is not modelled.
 */
module Lanes {

  datatype F4 = F4(f0: real, f1: real, f2: real, f3: real)

  const Zero: F4 := F4(0.0, 0.0, 0.0, 0.0)

  /** Lane `l` of a group (the `.f[l]` view of the union). */
  function Lane(v: F4, l: nat): real
    requires l < 4
  {
    if l == 0 then v.f0 else if l == 1 then v.f1 else if l == 2 then v.f2 else v.f3
  }

  function Add(a: F4, b: F4): (r: F4)
    ensures forall l :: 0 <= l < 4 ==> Lane(r, l) == Lane(a, l) + Lane(b, l)
  {
    F4(a.f0 + b.f0, a.f1 + b.f1, a.f2 + b.f2, a.f3 + b.f3)
  }

  function Sub(a: F4, b: F4): (r: F4)
    ensures forall l :: 0 <= l < 4 ==> Lane(r, l) == Lane(a, l) - Lane(b, l)
  {
    F4(a.f0 - b.f0, a.f1 - b.f1, a.f2 - b.f2, a.f3 - b.f3)
  }

  function Mul(a: F4, b: F4): (r: F4)
    ensures forall l :: 0 <= l < 4 ==> Lane(r, l) == Lane(a, l) * Lane(b, l)
  {
    F4(a.f0 * b.f0, a.f1 * b.f1, a.f2 * b.f2, a.f3 * b.f3)
  }

  /**
    The stencil expression `a - b - c + d` as the kernel evaluates it, left to
    right on whole groups. In every lane it is the difference of two finite
    differences, (a - b) - (c - d).
   */
  function Curl(a: F4, b: F4, c: F4, d: F4): (r: F4)
    ensures forall l :: 0 <= l < 4 ==> Lane(r, l) == (Lane(a, l) - Lane(b, l)) - (Lane(c, l) - Lane(d, l))
    ensures a == b && c == d ==> r == Zero
  {
    Add(Sub(Sub(a, b), c), d)
  }

  /**
    One leapfrog half-step of a group: first `field *= decay`, then
    `field += gain * curl`.
   */
  function Leapfrog(prev: F4, decay: F4, gain: F4, curl: F4): (r: F4)
    ensures forall l :: 0 <= l < 4 ==> Lane(r, l) == Lane(prev, l) * Lane(decay, l) + Lane(gain, l) * Lane(curl, l)
    ensures prev == Zero && curl == Zero ==> r == Zero
  {
    Add(Mul(prev, decay), Mul(gain, curl))
  }

  /** The scalar sample at packed position `z` of a z-column: group z / 4, lane z % 4. */
  function ScalarAt(col: seq<F4>, z: nat): real
    requires z < 4 * |col|
  {
    Lane(col[z / 4], z % 4)
  }

  /** The unpacked scalar z-column: the lanes of every group, in order. */
  function Flatten(col: seq<F4>): (s: seq<real>)
    ensures |s| == 4 * |col|
  {
    if col == [] then [] else [col[0].f0, col[0].f1, col[0].f2, col[0].f3] + Flatten(col[1..])
  }

  /** Sample z of the unpacked column is lane z % 4 of group z / 4. */
  lemma {:induction false} FlattenAt(col: seq<F4>, z: nat)
    requires z < 4 * |col|
    ensures Flatten(col)[z] == ScalarAt(col, z)
  {
    if z >= 4 {
      FlattenAt(col[1..], z - 4);
      assert (z - 4) / 4 == z / 4 - 1 && (z - 4) % 4 == z % 4;
    }
  }
}
