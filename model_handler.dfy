/** src/core/model-handler.ts: the lattice voxelizer, the two ray-voting occupancy rules,
    the generator variant of the voxelizer, and typed-array concatenation.

    Ray casting (Raycaster.intersectObject) is a foreign call; it is given to the model
    as a `Caster`: the distance of the first intersection of the ray from `origin` along
    `direction` with `mesh`, or None when the ray misses (an empty intersection list). */
module Handler {
  import opened Wrappers
  import opened Geometry
  import opened Elements
  import opened Loader

  type Caster = (FragmentMesh, Vec3, Vec3) -> Option<real>

  /** The fourteen ray directions checkCollision tries, in order. */
  const Rays: seq<Vec3> := [
    Vec3(0.0, 1.0, 0.0), Vec3(0.0, -1.0, 0.0), Vec3(-1.0, 0.0, 0.0),
    Vec3(1.0, 0.0, 0.0), Vec3(0.0, 0.0, -1.0), Vec3(0.0, 0.0, 1.0),
    Vec3(1.0, 1.0, 0.0), Vec3(-1.0, 1.0, 0.0), Vec3(1.0, -1.0, 0.0),
    Vec3(-1.0, -1.0, 0.0), Vec3(1.0, 0.0, 1.0), Vec3(-1.0, 0.0, 1.0),
    Vec3(0.0, 1.0, 1.0), Vec3(0.0, -1.0, 1.0)
  ]

  /** The six axis directions `test` casts, in order. */
  const AxisDirections: seq<Vec3> := [
    Vec3(1.0, 0.0, 0.0), Vec3(-1.0, 0.0, 0.0), Vec3(0.0, 1.0, 0.0),
    Vec3(0.0, -1.0, 0.0), Vec3(0.0, 0.0, 1.0), Vec3(0.0, 0.0, -1.0)
  ]

  // ---------------------------------------------------------------------------------
  // Occupancy rules

  /** The ray along `Rays[d]` has a first hit no further than half a grid step away. */
  predicate RayHitsWithin(cast: Caster, point: Vec3, mesh: FragmentMesh, gridSize: real, d: int)
    requires 0 <= d < |Rays|
  {
    var hit := cast(mesh, point, Rays[d]);
    hit.Some? && hit.value <= gridSize / 2.0
  }

  /** checkCollision's verdict: some of the fourteen rays hits within gridSize / 2. */
  predicate Collides(cast: Caster, point: Vec3, mesh: FragmentMesh, gridSize: real) {
    exists d :: 0 <= d < |Rays| && RayHitsWithin(cast, point, mesh, gridSize, d)
  }

  /** checkCollision: tries the rays in order and answers at the first close hit. */
  method CheckCollision(point: Vec3, mesh: FragmentMesh, gridSize: real, cast: Caster) returns (r: bool)
    ensures r <==> Collides(cast, point, mesh, gridSize)
  {
    for d := 0 to |Rays|
      invariant forall e :: 0 <= e < d ==> !RayHitsWithin(cast, point, mesh, gridSize, e)
    {
      var intersects := cast(mesh, point, Rays[d]);
      if intersects.Some? && intersects.value <= gridSize / 2.0 {
        assert RayHitsWithin(cast, point, mesh, gridSize, d);
        return true;
      }
    }
    return false;
  }

  /** The axis directions among the first `n` whose ray hits the mesh at all. */
  function HitAxes(cast: Caster, point: Vec3, mesh: FragmentMesh, n: int): (r: set<int>) {
    set d | 0 <= d < n && d < |AxisDirections| && cast(mesh, point, AxisDirections[d]).Some?
  }

  /** `test`'s verdict: at least three of the six axis rays hit the mesh. */
  predicate MajorityHit(cast: Caster, point: Vec3, mesh: FragmentMesh) {
    |HitAxes(cast, point, mesh, |AxisDirections|)| >= 3
  }

  /** test: counts the axis directions with at least one hit. */
  method Test(point: Vec3, mesh: FragmentMesh, cast: Caster) returns (r: bool)
    ensures r <==> MajorityHit(cast, point, mesh)
  {
    var count := 0;
    for d := 0 to |AxisDirections|
      invariant count == |HitAxes(cast, point, mesh, d)|
    {
      var intersects := cast(mesh, point, AxisDirections[d]);
      if intersects.Some? {
        assert HitAxes(cast, point, mesh, d + 1) == HitAxes(cast, point, mesh, d) + {d};
        count := count + 1;
      } else {
        assert HitAxes(cast, point, mesh, d + 1) == HitAxes(cast, point, mesh, d);
      }
    }
    r := count >= 3;
  }

  /** A lattice point is occupied when some concrete fragment collides with its centre. */
  predicate Occupied(cast: Caster, concretes: seq<FragmentMesh>, point: Vec3, gridSize: real) {
    exists m :: 0 <= m < |concretes| && Collides(cast, point, concretes[m], gridSize)
  }

  // ---------------------------------------------------------------------------------
  // The lattice

  /** A lattice over [lo, hi] with spacing `gridSize`; each emitted point is the
      lattice point moved by `offset` on every axis. */
  datatype Lattice = Lattice(lo: Vec3, hi: Vec3, gridSize: real, offset: real)

  type ValidLattice = l: Lattice | l.gridSize > 0.0 witness Lattice(Vec3(0.0, 0.0, 0.0), Vec3(0.0, 0.0, 0.0), 1.0, 0.0)

  /** The number of steps `lo, lo + g, lo + 2g, ...` that stay at or below `hi`. */
  function AxisCount(lo: real, hi: real, g: real): (r: nat)
    requires g > 0.0
  {
    if hi < lo then 0 else ((hi - lo) / g).Floor + 1
  }

  /** The source's loop test `lo + i * g <= hi` holds exactly for the first AxisCount
      indices. */
  lemma AxisCountExact(lo: real, hi: real, g: real, i: nat)
    requires g > 0.0
    ensures lo + (i as real) * g <= hi <==> i < AxisCount(lo, hi, g)
  {
    if lo <= hi {
      var q := (hi - lo) / g;
      assert q * g == hi - lo;
      StepMonotone(i as real, q, g);
    }
  }

  /** Multiplying by a positive step keeps the order. */
  lemma StepMonotone(a: real, b: real, g: real)
    requires g > 0.0
    ensures a <= b <==> a * g <= b * g
  {
    if a <= b {
      assert (b - a) * g >= 0.0;
    } else {
      assert (a - b) * g > 0.0;
    }
  }

  function CountX(l: ValidLattice): (r: nat) { AxisCount(l.lo.x, l.hi.x, l.gridSize) }
  function CountY(l: ValidLattice): (r: nat) { AxisCount(l.lo.y, l.hi.y, l.gridSize) }
  function CountZ(l: ValidLattice): (r: nat) { AxisCount(l.lo.z, l.hi.z, l.gridSize) }

  /** The point emitted for lattice index (i, j, k). */
  function CenterAt(l: ValidLattice, i: nat, j: nat, k: nat): (r: Vec3) {
    Vec3(l.lo.x + (i as real) * l.gridSize, l.lo.y + (j as real) * l.gridSize,
         l.lo.z + (k as real) * l.gridSize).Shift(l.offset)
  }

  predicate InRange(l: ValidLattice, i: nat, j: nat, k: nat) {
    i < CountX(l) && j < CountY(l) && k < CountZ(l)
  }

  /** What one lattice point contributes: `make(c)` when `c` is occupied, else nothing. */
  function Emit<T>(l: ValidLattice, occupied: Vec3 -> bool, make: Vec3 -> T, i: nat, j: nat, k: nat): (r: seq<T>) {
    var c := CenterAt(l, i, j, k);
    if occupied(c) then [make(c)] else []
  }

  /** The contributions of the first `k` points of the z-row (i, j). */
  function RowZ<T>(l: ValidLattice, occupied: Vec3 -> bool, make: Vec3 -> T, i: nat, j: nat, k: nat): (r: seq<T>) {
    if k == 0 then [] else RowZ(l, occupied, make, i, j, k - 1) + Emit(l, occupied, make, i, j, k - 1)
  }

  /** The contributions of the first `j` z-rows of the plane x = i. */
  function PlaneY<T>(l: ValidLattice, occupied: Vec3 -> bool, make: Vec3 -> T, i: nat, j: nat): (r: seq<T>) {
    if j == 0 then [] else PlaneY(l, occupied, make, i, j - 1) + RowZ(l, occupied, make, i, j - 1, CountZ(l))
  }

  /** The contributions of the first `i` planes. */
  function BlockX<T>(l: ValidLattice, occupied: Vec3 -> bool, make: Vec3 -> T, i: nat): (r: seq<T>) {
    if i == 0 then [] else BlockX(l, occupied, make, i - 1) + PlaneY(l, occupied, make, i - 1, CountY(l))
  }

  /** The whole sweep: x outermost, z innermost, each axis in increasing order. */
  function Sweep<T>(l: ValidLattice, occupied: Vec3 -> bool, make: Vec3 -> T): (r: seq<T>) {
    BlockX(l, occupied, make, CountX(l))
  }

  lemma {:induction false} RowZSound<T>(l: ValidLattice, occupied: Vec3 -> bool, make: Vec3 -> T, i: nat, j: nat, k: nat)
    ensures forall v :: v in RowZ(l, occupied, make, i, j, k) ==>
              exists c: nat :: c < k && occupied(CenterAt(l, i, j, c)) && v == make(CenterAt(l, i, j, c))
  {
    if k > 0 {
      RowZSound(l, occupied, make, i, j, k - 1);
    }
  }

  lemma {:induction false} PlaneYSound<T>(l: ValidLattice, occupied: Vec3 -> bool, make: Vec3 -> T, i: nat, j: nat)
    ensures forall v :: v in PlaneY(l, occupied, make, i, j) ==>
              exists b: nat, c: nat :: b < j && c < CountZ(l) &&
                             occupied(CenterAt(l, i, b, c)) && v == make(CenterAt(l, i, b, c))
  {
    if j > 0 {
      PlaneYSound(l, occupied, make, i, j - 1);
      RowZSound(l, occupied, make, i, j - 1, CountZ(l));
    }
  }

  lemma {:induction false} BlockXSound<T>(l: ValidLattice, occupied: Vec3 -> bool, make: Vec3 -> T, i: nat)
    ensures forall v :: v in BlockX(l, occupied, make, i) ==>
              exists a: nat, b: nat, c: nat :: a < i && b < CountY(l) && c < CountZ(l) &&
                                occupied(CenterAt(l, a, b, c)) && v == make(CenterAt(l, a, b, c))
  {
    if i > 0 {
      BlockXSound(l, occupied, make, i - 1);
      PlaneYSound(l, occupied, make, i - 1, CountY(l));
    }
  }

  /** Everything the sweep emits comes from an occupied lattice point in range. */
  lemma SweepSound<T>(l: ValidLattice, occupied: Vec3 -> bool, make: Vec3 -> T)
    ensures forall v :: v in Sweep(l, occupied, make) ==>
              exists a: nat, b: nat, c: nat :: InRange(l, a, b, c) &&
                                occupied(CenterAt(l, a, b, c)) && v == make(CenterAt(l, a, b, c))
  {
    BlockXSound(l, occupied, make, CountX(l));
  }

  lemma {:induction false} RowZComplete<T>(l: ValidLattice, occupied: Vec3 -> bool, make: Vec3 -> T, i: nat, j: nat, k: nat)
    ensures forall c: nat :: c < k && occupied(CenterAt(l, i, j, c)) ==>
              make(CenterAt(l, i, j, c)) in RowZ(l, occupied, make, i, j, k)
  {
    if k > 0 {
      RowZComplete(l, occupied, make, i, j, k - 1);
    }
  }

  lemma {:induction false} PlaneYComplete<T>(l: ValidLattice, occupied: Vec3 -> bool, make: Vec3 -> T, i: nat, j: nat)
    ensures forall b: nat, c: nat :: b < j && c < CountZ(l) && occupied(CenterAt(l, i, b, c)) ==>
              make(CenterAt(l, i, b, c)) in PlaneY(l, occupied, make, i, j)
  {
    if j > 0 {
      PlaneYComplete(l, occupied, make, i, j - 1);
      RowZComplete(l, occupied, make, i, j - 1, CountZ(l));
    }
  }

  lemma {:induction false} BlockXComplete<T>(l: ValidLattice, occupied: Vec3 -> bool, make: Vec3 -> T, i: nat)
    ensures forall a: nat, b: nat, c: nat :: a < i && b < CountY(l) && c < CountZ(l) && occupied(CenterAt(l, a, b, c)) ==>
              make(CenterAt(l, a, b, c)) in BlockX(l, occupied, make, i)
  {
    if i > 0 {
      BlockXComplete(l, occupied, make, i - 1);
      PlaneYComplete(l, occupied, make, i - 1, CountY(l));
    }
  }

  /** Every occupied lattice point in range contributes to the sweep. */
  lemma SweepComplete<T>(l: ValidLattice, occupied: Vec3 -> bool, make: Vec3 -> T)
    ensures forall a: nat, b: nat, c: nat :: InRange(l, a, b, c) && occupied(CenterAt(l, a, b, c)) ==>
              make(CenterAt(l, a, b, c)) in Sweep(l, occupied, make)
  {
    BlockXComplete(l, occupied, make, CountX(l));
  }

  lemma {:induction false} RowZLength<T>(l: ValidLattice, occupied: Vec3 -> bool, make: Vec3 -> T, i: nat, j: nat, k: nat)
    ensures |RowZ(l, occupied, make, i, j, k)| <= k
  {
    if k > 0 {
      RowZLength(l, occupied, make, i, j, k - 1);
    }
  }

  lemma {:induction false} PlaneYLength<T>(l: ValidLattice, occupied: Vec3 -> bool, make: Vec3 -> T, i: nat, j: nat)
    ensures |PlaneY(l, occupied, make, i, j)| <= j * CountZ(l)
  {
    if j > 0 {
      PlaneYLength(l, occupied, make, i, j - 1);
      RowZLength(l, occupied, make, i, j - 1, CountZ(l));
      assert j * CountZ(l) == (j - 1) * CountZ(l) + CountZ(l);
    }
  }

  lemma {:induction false} BlockXLength<T>(l: ValidLattice, occupied: Vec3 -> bool, make: Vec3 -> T, i: nat)
    ensures |BlockX(l, occupied, make, i)| <= i * (CountY(l) * CountZ(l))
  {
    if i > 0 {
      BlockXLength(l, occupied, make, i - 1);
      PlaneYLength(l, occupied, make, i - 1, CountY(l));
      assert i * (CountY(l) * CountZ(l)) == (i - 1) * (CountY(l) * CountZ(l)) + CountY(l) * CountZ(l);
    }
  }

  /** At most one item per lattice point. */
  lemma SweepLength<T>(l: ValidLattice, occupied: Vec3 -> bool, make: Vec3 -> T)
    ensures |Sweep(l, occupied, make)| <= CountX(l) * (CountY(l) * CountZ(l))
  {
    BlockXLength(l, occupied, make, CountX(l));
  }

  // ---------------------------------------------------------------------------------
  // voxelizeModel

  /** The lattice voxelizeModel walks: from the box minimum to the box maximum plus one
      grid step on each axis; voxel centres sit half a voxel above each lattice point. */
  function VoxelLattice(min: Vec3, max: Vec3, gridSize: real, boxSize: real): (r: ValidLattice)
    requires gridSize > 0.0
  {
    Lattice(min, max.Shift(gridSize), gridSize, boxSize / 2.0)
  }

  function ConcreteOccupancy(cast: Caster, concretes: seq<FragmentMesh>, gridSize: real): (r: Vec3 -> bool) {
    p => Occupied(cast, concretes, p, gridSize)
  }

  /** voxelizeModel passes no transparency to the VoxelModelData constructor. */
  function VoxelMaker(boxSize: real, boxRoundness: real): (r: Vec3 -> VoxelModelData) {
    p => NewVoxel(p, boxSize, boxRoundness, None)
  }

  /** The voxels voxelizeModel produces for a non-empty concrete list and a box. */
  function Voxelized(cast: Caster, concretes: seq<FragmentMesh>, box: Box3, gridSize: real,
                     boxSize: real, boxRoundness: real): (r: seq<VoxelModelData>)
    requires gridSize > 0.0
  {
    if box.Empty? then []
    else Sweep(VoxelLattice(box.min, box.max, gridSize, boxSize),
               ConcreteOccupancy(cast, concretes, gridSize), VoxelMaker(boxSize, boxRoundness))
  }

  /** Each voxel sits at an occupied lattice point (plus half a voxel) and carries the
      given size and roundness; each occupied lattice point yields a voxel; and there is
      at most one voxel per lattice point. */
  lemma VoxelizedMeaning(cast: Caster, concretes: seq<FragmentMesh>, min: Vec3, max: Vec3,
                         gridSize: real, boxSize: real, boxRoundness: real)
    requires gridSize > 0.0
    ensures var l := VoxelLattice(min, max, gridSize, boxSize);
            var vs := Voxelized(cast, concretes, Bounds(min, max), gridSize, boxSize, boxRoundness);
            (forall v :: v in vs ==>
               v.boxSize == boxSize && v.boxRoundness == boxRoundness && v.color == DefaultColor &&
               exists a: nat, b: nat, c: nat :: InRange(l, a, b, c) && v.center == CenterAt(l, a, b, c) &&
                                 Occupied(cast, concretes, v.center, gridSize)) &&
            (forall a: nat, b: nat, c: nat :: InRange(l, a, b, c) && Occupied(cast, concretes, CenterAt(l, a, b, c), gridSize) ==>
               NewVoxel(CenterAt(l, a, b, c), boxSize, boxRoundness, None) in vs) &&
            |vs| <= CountX(l) * (CountY(l) * CountZ(l))
  {
    var l := VoxelLattice(min, max, gridSize, boxSize);
    var occ := ConcreteOccupancy(cast, concretes, gridSize);
    var mk := VoxelMaker(boxSize, boxRoundness);
    SweepSound(l, occ, mk);
    SweepComplete(l, occ, mk);
    SweepLength(l, occ, mk);
  }

  /** voxelizeModel: nothing happens without concrete or without a box; otherwise the
      voxel list is reset and refilled by the lattice sweep, one voxel per lattice point
      that collides with some concrete fragment. The voxel size and roundness are read
      from the loader's settings. */
  method VoxelizeModel(element: ModelElement, settings: ModelSetting, box: Option<Box3>, gridSize: real, cast: Caster)
    requires gridSize > 0.0
    modifies element`voxelModelData
    ensures |element.concreteList| < 1 || box.None? ==> element.voxelModelData == old(element.voxelModelData)
    ensures |element.concreteList| >= 1 && box.Some? ==>
              element.voxelModelData ==
                Voxelized(cast, element.concreteList, box.value, gridSize, settings.boxSize, settings.boxRoundness)
  {
    var concreteList := element.concreteList;
    var boxSize := settings.boxSize;
    var boxRoundness := settings.boxRoundness;
    if |concreteList| < 1 || box.None? {
      return;
    }
    element.voxelModelData := [];
    if box.value.Empty? {
      // a fresh Box3 spans +Infinity..-Infinity: no lattice point passes the loop tests
      return;
    }
    var l := VoxelLattice(box.value.min, box.value.max, gridSize, boxSize);
    ghost var occ := ConcreteOccupancy(cast, concreteList, gridSize);
    ghost var mk := VoxelMaker(boxSize, boxRoundness);
    var x := 0;
    while l.lo.x + (x as real) * gridSize <= l.hi.x
      invariant x <= CountX(l)
      invariant element.voxelModelData == BlockX(l, occ, mk, x)
      decreases CountX(l) - x
    {
      AxisCountExact(l.lo.x, l.hi.x, gridSize, x);
      VoxelPlane(element, l, concreteList, boxSize, boxRoundness, cast, x);
      x := x + 1;
    }
    AxisCountExact(l.lo.x, l.hi.x, gridSize, x);
  }

  /** The y-loop of voxelizeModel for the plane x = i. */
  method VoxelPlane(element: ModelElement, l: ValidLattice, concretes: seq<FragmentMesh>,
                    boxSize: real, boxRoundness: real, cast: Caster, i: nat)
    modifies element`voxelModelData
    ensures element.voxelModelData ==
              old(element.voxelModelData) +
              PlaneY(l, ConcreteOccupancy(cast, concretes, l.gridSize), VoxelMaker(boxSize, boxRoundness), i, CountY(l))
  {
    ghost var start := element.voxelModelData;
    ghost var occ := ConcreteOccupancy(cast, concretes, l.gridSize);
    ghost var mk := VoxelMaker(boxSize, boxRoundness);
    var y := 0;
    while l.lo.y + (y as real) * l.gridSize <= l.hi.y
      invariant y <= CountY(l)
      invariant element.voxelModelData == start + PlaneY(l, occ, mk, i, y)
      decreases CountY(l) - y
    {
      AxisCountExact(l.lo.y, l.hi.y, l.gridSize, y);
      ghost var before := element.voxelModelData;
      VoxelRow(element, l, concretes, boxSize, boxRoundness, cast, i, y);
      ghost var row := RowZ(l, occ, mk, i, y, CountZ(l));
      assert element.voxelModelData == before + row;
      assert PlaneY(l, occ, mk, i, y + 1) == PlaneY(l, occ, mk, i, y) + row;
      y := y + 1;
    }
    AxisCountExact(l.lo.y, l.hi.y, l.gridSize, y);
  }

  /** The z-loop of voxelizeModel for the row (i, j). */
  method VoxelRow(element: ModelElement, l: ValidLattice, concretes: seq<FragmentMesh>,
                  boxSize: real, boxRoundness: real, cast: Caster, i: nat, j: nat)
    modifies element`voxelModelData
    ensures element.voxelModelData ==
              old(element.voxelModelData) +
              RowZ(l, ConcreteOccupancy(cast, concretes, l.gridSize), VoxelMaker(boxSize, boxRoundness), i, j, CountZ(l))
  {
    ghost var start := element.voxelModelData;
    ghost var occ := ConcreteOccupancy(cast, concretes, l.gridSize);
    ghost var mk := VoxelMaker(boxSize, boxRoundness);
    var z := 0;
    while l.lo.z + (z as real) * l.gridSize <= l.hi.z
      invariant z <= CountZ(l)
      invariant element.voxelModelData == start + RowZ(l, occ, mk, i, j, z)
      decreases CountZ(l) - z
    {
      AxisCountExact(l.lo.z, l.hi.z, l.gridSize, z);
      VoxelCell(element, l, concretes, boxSize, boxRoundness, cast, i, j, z);
      z := z + 1;
    }
    AxisCountExact(l.lo.z, l.hi.z, l.gridSize, z);
  }

  /** The body of voxelizeModel's innermost loop: the concretes are tried in order, and
      the first one that collides with the centre adds one voxel and ends the search. */
  method VoxelCell(element: ModelElement, l: ValidLattice, concretes: seq<FragmentMesh>,
                   boxSize: real, boxRoundness: real, cast: Caster, i: nat, j: nat, k: nat)
    modifies element`voxelModelData
    ensures element.voxelModelData ==
              old(element.voxelModelData) +
              Emit(l, ConcreteOccupancy(cast, concretes, l.gridSize), VoxelMaker(boxSize, boxRoundness), i, j, k)
  {
    var centerPoint := CenterAt(l, i, j, k);
    var m := 0;
    while m < |concretes|
      invariant 0 <= m <= |concretes|
      invariant forall q :: 0 <= q < m ==> !Collides(cast, centerPoint, concretes[q], l.gridSize)
      invariant element.voxelModelData == old(element.voxelModelData)
    {
      var hit := CheckCollision(centerPoint, concretes[m], l.gridSize, cast);
      if hit {
        element.voxelModelData := element.voxelModelData + [NewVoxel(centerPoint, boxSize, boxRoundness, None)];
        return;
      }
      m := m + 1;
    }
  }

  // ---------------------------------------------------------------------------------
  // handleVoxelModel

  function MajorityOccupancy(cast: Caster, mesh: FragmentMesh): (r: Vec3 -> bool) {
    p => MajorityHit(cast, p, mesh)
  }

  function Position(): (r: Vec3 -> Vec3) {
    p => p
  }

  /** The lattice handleVoxelModel walks: min to max (no extra step), centres half a
      voxel above each lattice point. */
  function GeneratorLattice(min: Vec3, max: Vec3, gridSize: real, boxSize: real): (r: ValidLattice)
    requires gridSize > 0.0
  {
    Lattice(min, max, gridSize, boxSize / 2.0)
  }

  /** Every yielded centre is an in-range lattice centre where `test` holds, and every
      such centre is yielded. */
  lemma GeneratedMeaning(cast: Caster, mesh: FragmentMesh, min: Vec3, max: Vec3, gridSize: real, boxSize: real)
    requires gridSize > 0.0
    ensures var l := GeneratorLattice(min, max, gridSize, boxSize);
            var ps := Sweep(l, MajorityOccupancy(cast, mesh), Position());
            (forall p :: p in ps ==> MajorityHit(cast, p, mesh) &&
                                     exists a: nat, b: nat, c: nat :: InRange(l, a, b, c) && p == CenterAt(l, a, b, c)) &&
            (forall a: nat, b: nat, c: nat :: InRange(l, a, b, c) && MajorityHit(cast, CenterAt(l, a, b, c), mesh) ==>
                                 CenterAt(l, a, b, c) in ps)
  {
    var l := GeneratorLattice(min, max, gridSize, boxSize);
    SweepSound(l, MajorityOccupancy(cast, mesh), Position());
    SweepComplete(l, MajorityOccupancy(cast, mesh), Position());
  }

  /** handleVoxelModel, with the yielded centres collected in order: the lattice spans
      the loader's running box (getBoundingBox) and the voxel size is the loader's. */
  method HandleVoxelModel(loader: ModelLoader, mesh: FragmentMesh, gridSize: real, cast: Caster)
    returns (yielded: seq<Vec3>)
    requires gridSize > 0.0
    ensures yielded == Sweep(GeneratorLattice(loader.absoluteMin, loader.absoluteMax, gridSize, loader.settings.boxSize),
                             MajorityOccupancy(cast, mesh), Position())
  {
    var boundingBox := loader.BoundingBox();
    var boxSize := loader.settings.boxSize;
    var l := GeneratorLattice(boundingBox.min, boundingBox.max, gridSize, boxSize);
    yielded := [];
    var x := 0;
    while l.lo.x + (x as real) * gridSize <= l.hi.x
      invariant x <= CountX(l)
      invariant yielded == BlockX(l, MajorityOccupancy(cast, mesh), Position(), x)
      decreases CountX(l) - x
    {
      AxisCountExact(l.lo.x, l.hi.x, gridSize, x);
      var plane := GeneratePlane(mesh, l, cast, x);
      yielded := yielded + plane;
      x := x + 1;
    }
    AxisCountExact(l.lo.x, l.hi.x, gridSize, x);
  }

  /** The y-loop of handleVoxelModel for the plane x = i. */
  method GeneratePlane(mesh: FragmentMesh, l: ValidLattice, cast: Caster, i: nat) returns (yielded: seq<Vec3>)
    ensures yielded == PlaneY(l, MajorityOccupancy(cast, mesh), Position(), i, CountY(l))
  {
    yielded := [];
    var y := 0;
    while l.lo.y + (y as real) * l.gridSize <= l.hi.y
      invariant y <= CountY(l)
      invariant yielded == PlaneY(l, MajorityOccupancy(cast, mesh), Position(), i, y)
      decreases CountY(l) - y
    {
      AxisCountExact(l.lo.y, l.hi.y, l.gridSize, y);
      var row := GenerateRow(mesh, l, cast, i, y);
      yielded := yielded + row;
      y := y + 1;
    }
    AxisCountExact(l.lo.y, l.hi.y, l.gridSize, y);
  }

  /** The z-loop of handleVoxelModel for the row (i, j): a centre is yielded when `test`
      holds there. */
  method GenerateRow(mesh: FragmentMesh, l: ValidLattice, cast: Caster, i: nat, j: nat) returns (yielded: seq<Vec3>)
    ensures yielded == RowZ(l, MajorityOccupancy(cast, mesh), Position(), i, j, CountZ(l))
  {
    yielded := [];
    var z := 0;
    while l.lo.z + (z as real) * l.gridSize <= l.hi.z
      invariant z <= CountZ(l)
      invariant yielded == RowZ(l, MajorityOccupancy(cast, mesh), Position(), i, j, z)
      decreases CountZ(l) - z
    {
      AxisCountExact(l.lo.z, l.hi.z, l.gridSize, z);
      var centerPoint := CenterAt(l, i, j, z);
      var inside := Test(centerPoint, mesh, cast);
      if inside {
        yielded := yielded + [centerPoint];
      }
      z := z + 1;
    }
    AxisCountExact(l.lo.z, l.hi.z, l.gridSize, z);
  }

  // ---------------------------------------------------------------------------------
  // mergeTypedArrays

  /** The arrays laid end to end. */
  function Concat<T>(arrays: seq<seq<T>>): (r: seq<T>) {
    if arrays == [] then [] else Concat(arrays[..|arrays| - 1]) + arrays[|arrays| - 1]
  }

  /** The sum of the lengths. */
  function TotalLength<T>(arrays: seq<seq<T>>): (r: nat) {
    if arrays == [] then 0 else TotalLength(arrays[..|arrays| - 1]) + |arrays[|arrays| - 1]|
  }

  /** Concatenation keeps every element: its length is the sum of the lengths, and the
      `k`-th array sits at the offset of the lengths before it. */
  lemma {:induction false} ConcatLayout<T>(arrays: seq<seq<T>>, k: nat)
    requires k < |arrays|
    ensures TotalLength(arrays[..k]) + |arrays[k]| <= |Concat(arrays)|
    ensures Concat(arrays)[TotalLength(arrays[..k])..TotalLength(arrays[..k]) + |arrays[k]|] == arrays[k]
    decreases |arrays|
  {
    var init := arrays[..|arrays| - 1];
    ConcatLength(init);
    if k < |arrays| - 1 {
      ConcatLayout(init, k);
      assert init[..k] == arrays[..k];
    } else {
      assert arrays[..k] == init;
    }
  }

  lemma {:induction false} ConcatLength<T>(arrays: seq<seq<T>>)
    ensures |Concat(arrays)| == TotalLength(arrays)
    decreases |arrays|
  {
    if arrays != [] {
      ConcatLength(arrays[..|arrays| - 1]);
    }
  }

  /** mergeTypedArrays: sums the lengths, allocates, then copies each array at a moving
      offset. */
  method MergeTypedArrays<T(0)>(arrays: seq<seq<T>>) returns (mergedArray: array<T>)
    ensures mergedArray.Length == TotalLength(arrays)
    ensures mergedArray[..] == Concat(arrays)
  {
    var totalLength := 0;
    for n := 0 to |arrays|
      invariant totalLength == TotalLength(arrays[..n])
    {
      assert arrays[..n + 1][..n] == arrays[..n];
      totalLength := totalLength + |arrays[n]|;
    }
    assert arrays[..|arrays|] == arrays;
    ConcatLength(arrays);
    mergedArray := new T[totalLength];
    var offset := 0;
    for n := 0 to |arrays|
      invariant offset == TotalLength(arrays[..n]) == |Concat(arrays[..n])|
      invariant offset <= mergedArray.Length
      invariant mergedArray[..offset] == Concat(arrays[..n])
    {
      assert arrays[..n + 1][..n] == arrays[..n];
      ConcatLength(arrays[..n + 1]);
      ConcatLayout(arrays, n);
      var part := arrays[n];
      // mergedArray.set(array, offset)
      for e := 0 to |part|
        invariant mergedArray[..offset] == Concat(arrays[..n])
        invariant mergedArray[offset..offset + e] == part[..e]
      {
        mergedArray[offset + e] := part[e];
        assert mergedArray[offset..offset + e + 1] == mergedArray[offset..offset + e] + [part[e]];
      }
      assert mergedArray[..offset + |part|] == mergedArray[..offset] + mergedArray[offset..offset + |part|];
      offset := offset + |part|;
    }
    assert arrays[..|arrays|] == arrays;
    assert mergedArray[..] == mergedArray[..offset];
  }
}
