# Engine_sse: the SSE leapfrog update kernel of openEMS, in Dafny

`Engine_sse` advances an FDTD simulation by one leapfrog step. It works on
two sets of three packed field arrays: voltages (E-like) and currents
(H-like), one array per polarization x, y, z. Each array is indexed
`[x][y][g]`. Here `g` is a group of four consecutive z-samples, called
lanes, stored together as one SIMD vector.

- `UpdateVoltages` sets `volt = volt * vv + vi * curl(curr)` with backward
  differences. At the first x or y index the lower neighbour is the cell
  itself. Along z, a `temp` group is assembled from lane 3 of group
  `g - (g != 0)` and lanes 0..2 of group `g`.
- `UpdateCurrents` sets `curr = curr * ii + iv * curl(volt)` with forward
  differences. Its loops stop at `Nx - 1` and `Ny - 1`, computed in unsigned
  arithmetic. Its z `temp` takes lane 0 of group `g + 1`.
- The constructor captures the three line counts from the operator. `Init`
  allocates both field sets and zeroes the step counter. `Reset` (also run
  by the destructor) sets both field-set pointers to null.

The model has three modules:

- `Lanes` (`lanes.dfy`) holds a lane group as the datatype `F4` of four
  `real`s. It has the lane-wise operations, the stencil expression `Curl`,
  the per-cell step `Leapfrog`, and the unpacked scalar view of a z-column
  (`Flatten`).
- `LaneShift` (`lane_shift.dfy`) holds the boundary guard `Shift`
  (`(bool)pos`) and the two `temp` reassemblies, `BackTemp` and `FwdTemp`.
  It proves that each reassembly is a scalar z-shift, first lane by lane and
  then for a whole column.
- `EngineSse` (`engine_sse.dfy`) holds the unsigned loop bounds and the
  operator, which is only read here. It also holds the class `Engine`: its
  fields are `f4Volt` and `f4Curr` (nullable arrays of three `array3<F4>`),
  `numTS` and `numLines`. The two sweeps are nested `while` loops over x, y
  and g that update those arrays in place. They are proved against the ghost per-cell
  functions `NewVoltage` / `NewCurrent`, which are built on `VoltageCurl` /
  `CurrentCurl`. Lemmas link those functions to the scalar curl stencil.

The innermost z-loop of each sweep is a method of its own
(`UpdateVoltageColumn`, `UpdateCurrentColumn`), and so is the loop body
(`UpdateVoltageGroup`, `UpdateCurrentGroup`). The loop body keeps the
source's statement order: `*=` then `+=`, and `temp` built one lane at a
time. `LaneShift.ZBack` is the reference scalar index of the backward
z-neighbour (z - 1, and 3 at z = 0) against which the lane shifts are
stated.

## Model

| member | source | states |
|---|---|---|
| `Lanes.Leapfrog` | FDTD/engine_sse.cpp:79-80 | in every lane the new value is old * decay + gain * curl; zero field and zero curl give zero |
| `Lanes.Curl` | FDTD/engine_sse.cpp:79-92 | the kernel's `a - b - c + d` is, lane by lane, the difference of two finite differences (a - b) - (c - d); equal pairs give zero |
| `Lanes.Flatten` | FDTD/engine_sse.cpp:75-78 | the unpacked z-column holds 4 scalar samples per lane group |
| `Lanes.FlattenAt` | FDTD/engine_sse.cpp:75-78 | scalar sample z of a column is lane z % 4 of group z / 4 |
| `LaneShift.Shift` | FDTD/engine_sse.cpp:68-71 | the guard `(bool)pos` is 1 exactly when the index is nonzero and never exceeds the index, so `pos - shift` is never negative |
| `LaneShift.BackTemp` | FDTD/engine_sse.cpp:75-78 | definition of the backward `temp` group (also lines 83-86); its meaning is stated by `LaneShift.BackTempLane` |
| `LaneShift.FwdTemp` | FDTD/engine_sse.cpp:110-113 | definition of the forward `temp` group (also lines 118-121); its meaning is stated by `LaneShift.FwdTempLane` |
| `LaneShift.BackTempLane` | FDTD/engine_sse.cpp:75-78 | lane z % 4 of the assembled backward `temp` of group z / 4 is scalar sample ZBack(z): lane l > 0 is lane l - 1 of group g, lane 0 is lane 3 of group g - 1, and for g = 0 it is lane 3 of group 0 itself |
| `LaneShift.FwdTempLane` | FDTD/engine_sse.cpp:110-113 | lane z % 4 of the assembled forward `temp` of group z / 4 is scalar sample z + 1; lane 3 comes from lane 0 of group g + 1, which must exist |
| `LaneShift.BackwardColumnIsScalarShift` | FDTD/engine_sse.cpp:83-86 | over a whole column, the unpacked backward temps equal the unpacked column shifted up one sample, with sample 3 entering at the bottom |
| `LaneShift.ForwardColumnIsScalarShift` | FDTD/engine_sse.cpp:118-121 | over a whole column, the unpacked forward temps of groups 0..G-2 equal samples 1 .. 4(G-1) of the column |
| `EngineSse.UMinusOne` | FDTD/engine_sse.cpp:103-105 | the unsigned `numLines[k]-1` is n - 1 for n > 0 and wraps to 2^32 - 1 for n = 0 |
| `EngineSse.ZGroups` | FDTD/engine_sse.cpp:72 | the z extent `ceil(numLines[2]/4)` is the floor of Nz / 4; when Nz is not a multiple of 4 the tail samples lie beyond it |
| `EngineSse.ForwardReadsInBoundsIff` | FDTD/engine_sse.cpp:103-113 | every forward read of the current sweep is in storage exactly when the sweep is empty, or Nx > 0, Ny > 0 and storage holds more than Nz / 4 groups |
| `EngineSse.UnpaddedStorageReadsOutOfBounds` | FDTD/engine_sse.cpp:113 | with storage of exactly Nz / 4 groups, the read of group g + 1 leaves storage (Nx, Ny >= 2, Nz >= 4) |
| `EngineSse.EmptyXAxisReadsOutOfBounds` | FDTD/engine_sse.cpp:103 | with Nx = 0 the wrapped bound makes the current sweep read out of bounds whenever it visits a cell |
| `EngineSse.CreateFieldSet` | FDTD/engine_sse.cpp:46-47 | a field set is three fresh, distinct, zeroed arrays of the requested shape |
| `EngineSse.Operator.GetNumberOfLines` | FDTD/engine_sse.cpp:34 | a line count is an unsigned 32-bit value |
| `EngineSse.Engine.constructor` | FDTD/engine_sse.cpp:29-36 | the engine keeps the operator and copies its three line counts |
| `EngineSse.Engine.Init` | FDTD/engine_sse.cpp:43-50 | numTS is 0; both field sets are fresh, zeroed and of one shape; with matching coefficient arrays the engine is ready to update |
| `EngineSse.Engine.Reset` | FDTD/engine_sse.cpp:52-58 | both field-set pointers are null afterwards |
| `EngineSse.Engine.Destroy` | FDTD/engine_sse.cpp:38-41 | tear-down runs Reset: both pointers null |
| `EngineSse.Engine.VoltageCurl` | FDTD/engine_sse.cpp:74-92 | definition of the packed backward curl of each polarization; its meaning is stated by `VoltageCurlIsScalarStencil` |
| `EngineSse.Engine.NewVoltage` | FDTD/engine_sse.cpp:79-92 | definition of the value a voltage cell takes in the sweep; `UpdateVoltages` states that the sweep produces it |
| `EngineSse.Engine.CurrentCurl` | FDTD/engine_sse.cpp:109-127 | definition of the packed forward curl of each polarization; its meaning is stated by `CurrentCurlIsScalarStencil` |
| `EngineSse.Engine.NewCurrent` | FDTD/engine_sse.cpp:114-127 | definition of the value a current cell takes in the sweep; `UpdateCurrents` states that the sweep produces it |
| `EngineSse.Engine.VoltageCurlIsScalarStencil` | FDTD/engine_sse.cpp:74-92 | each lane of the packed backward curl of each polarization equals the scalar curl stencil, with the x/y guards and the z neighbour ZBack(z) |
| `EngineSse.Engine.CurrentCurlIsScalarStencil` | FDTD/engine_sse.cpp:109-127 | each lane of the packed forward curl of each polarization equals the scalar stencil reading x + 1, y + 1 and z + 1 |
| `EngineSse.Engine.LowerEdgeDifferencesVanish` | FDTD/engine_sse.cpp:68-92 | at x = 0 (resp. y = 0) the x (resp. y) difference drops out: each voltage curl that has one equals its other difference alone; at x = y = 0 the z-polarization curl is zero |
| `EngineSse.Engine.ZeroCurrentsGiveZeroVoltageUpdate` | FDTD/engine_sse.cpp:79-92 | with all currents zero the voltage curl is zero and a zero voltage cell stays zero |
| `EngineSse.Engine.ZeroVoltagesGiveZeroCurrentUpdate` | FDTD/engine_sse.cpp:114-127 | with all voltages zero the current curl is zero and a zero current cell stays zero |
| `EngineSse.Engine.UpdateVoltageGroup` | FDTD/engine_sse.cpp:74-92 | the loop body: the three voltage groups at (x, y, g) take their new values, and no other cell changes |
| `EngineSse.Engine.UpdateVoltageColumn` | FDTD/engine_sse.cpp:72-93 | the innermost loop: groups g < Nz / 4 of the column (x, y) take their new values, and no other cell changes |
| `EngineSse.Engine.UpdateVoltages` | FDTD/engine_sse.cpp:60-96 | every voltage cell with g < Nz / 4 becomes old * vv + vi * backward curl, from its own old value only; groups from Nz / 4 on keep their values; currents and all coefficient arrays are unchanged; all reads are in bounds |
| `EngineSse.Engine.UpdateCurrentGroup` | FDTD/engine_sse.cpp:109-127 | the loop body: the three current groups at (x, y, g) take their new values, and no other cell changes |
| `EngineSse.Engine.UpdateCurrentColumn` | FDTD/engine_sse.cpp:107-128 | the innermost loop: groups g < Nz / 4 of the column (x, y) take their new values, and no other cell changes; requires the forward reads in storage when it sweeps anything |
| `EngineSse.Engine.UpdateCurrents` | FDTD/engine_sse.cpp:98-131 | cells with x < Nx - 1, y < Ny - 1 (unsigned) and g < Nz / 4 become old * ii + iv * forward curl; the faces x = Nx - 1 and y = Ny - 1 and the groups from Nz / 4 on are unchanged; voltages and coefficients are unchanged; requires that every forward read, including group g + 1, is in storage |

## Boundary behaviour of the code

- **z = 0 neighbour.** The backward z neighbour of sample 0 is not zero. The
  group guard `pos[2]-(bool)pos[2]` keeps group 0, so lane 3 of group 0 is
  read (engine_sse.cpp:75, 83; `LaneShift.BackTempLane` at z = 0).
- **z extent.** The bound `ceil(numLines[2]/4)` divides in unsigned
  arithmetic before `ceil` is applied, so it is floor(Nz / 4)
  (engine_sse.cpp:72, 107). A partly filled last group is never swept, and
  Nz < 4 sweeps nothing (`EngineSse.ZGroups`).
- **Repeated deletion.** That deleting twice is safe is not claimed, because
  the deleter's body is not part of this model. `Reset` only sets the two
  pointers to null.

## Left out

- SSE intrinsics and the `f4vector` union layout: a lane group is the
  datatype `F4` of four reals.
- IEEE floating-point rounding: all arithmetic is on `real`. Stability,
  energy and Courant conditions are physics that this code does not
  establish.
- `Create_N_3DArray_v4sf` / `Delete_N_3DArray_v4sf`: their bodies and
  allocation size are not part of this model.
  - Allocation is `CreateFieldSet`, with the group count as a parameter of
    `Init`.
  - The updates state the storage they need as preconditions: at least
    Nz / 4 groups for the voltage sweep, and every forward read in storage
    for the current sweep.
  - Freeing storage is not modelled.
- `Operator_sse`: how the coefficients are derived, `GetNumberOfLines` and
  the contents of `f4_vv`, `f4_vi`, `f4_ii` and `f4_iv` are external. The
  class `Operator` only holds read-only arrays of the fields' shape.
- The base class `Engine`, the static `New`, the increments of `numTS`
  elsewhere and the time-stepping driver are not part of this model.
- What the base-class constructor leaves in the field pointers is not
  visible. The model's constructor starts them at null.
- The unused scalar `volt`/`curr` pointers set to 0 in `Init` carry no
  logic and are not modelled.
- Concurrency: the kernel is single-threaded. Aliasing between field and
  coefficient arrays is excluded by `Ready()`, since the kernel's results
  assume distinct arrays.
