/** World-space vectors and axis-aligned boxes (the parts of three.js's Vector3 and Box3
    that the voxelizer uses), and the fragment meshes the model loader hands over. */
module Geometry {
  import opened Wrappers

  datatype Axis = X | Y | Z

  datatype Vec3 = Vec3(x: real, y: real, z: real) {
    function At(a: Axis): (r: real) {
      match a
      case X => x
      case Y => y
      case Z => z
    }

    /** Adds `d` to every coordinate. */
    function Shift(d: real): (r: Vec3)
      ensures forall a :: r.At(a) == At(a) + d
    {
      Vec3(x + d, y + d, z + d)
    }
  }

  function Min(a: real, b: real): (r: real) { if b < a then b else a }
  function Max(a: real, b: real): (r: real) { if b > a then b else a }

  /** Vector3.min: lowers each coordinate of `a` that `b` undercuts. */
  function LowerTo(a: Vec3, b: Vec3): (r: Vec3)
    ensures forall ax :: r.At(ax) <= a.At(ax) && r.At(ax) <= b.At(ax)
    ensures forall ax :: r.At(ax) == a.At(ax) || r.At(ax) == b.At(ax)
  {
    Vec3(Min(a.x, b.x), Min(a.y, b.y), Min(a.z, b.z))
  }

  /** Vector3.max: raises each coordinate of `a` that `b` exceeds. */
  function RaiseTo(a: Vec3, b: Vec3): (r: Vec3)
    ensures forall ax :: r.At(ax) >= a.At(ax) && r.At(ax) >= b.At(ax)
    ensures forall ax :: r.At(ax) == a.At(ax) || r.At(ax) == b.At(ax)
  {
    Vec3(Max(a.x, b.x), Max(a.y, b.y), Max(a.z, b.z))
  }

  /** `a <= b` on every axis. */
  predicate Below(a: Vec3, b: Vec3) {
    forall ax :: a.At(ax) <= b.At(ax)
  }

  lemma BelowTrans(a: Vec3, b: Vec3, c: Vec3)
    requires Below(a, b) && Below(b, c)
    ensures Below(a, c)
  {
  }

  /** `p` lies in the closed box [lo, hi]. */
  predicate Inside(p: Vec3, lo: Vec3, hi: Vec3) {
    Below(lo, p) && Below(p, hi)
  }

  /** three.js Box3. A fresh `new Box3()` has min +Infinity and max -Infinity on every
      axis, which are neutral for union; `Empty` stands for that value. */
  datatype Box3 = Empty | Bounds(min: Vec3, max: Vec3)

  /** Box3.union: componentwise min of the minima and max of the maxima. */
  function Union(a: Box3, b: Box3): (r: Box3)
    ensures r.Empty? <==> a.Empty? && b.Empty?
    ensures a.Bounds? && r.Bounds? ==> Below(r.min, a.min) && Below(a.max, r.max)
    ensures b.Bounds? && r.Bounds? ==> Below(r.min, b.min) && Below(b.max, r.max)
  {
    match (a, b)
    case (Empty, _) => b
    case (_, Empty) => a
    case (Bounds(amin, amax), Bounds(bmin, bmax)) => Bounds(LowerTo(amin, bmin), RaiseTo(amax, bmax))
  }

  /** Box3.isEmpty: the maximum is below the minimum on some axis. */
  predicate IsEmpty(b: Box3) {
    b.Empty? || b.max.x < b.min.x || b.max.y < b.min.y || b.max.z < b.min.z
  }

  /** Box3.getSize: (0,0,0) for an empty box, otherwise max - min. */
  function Size(b: Box3): (r: Vec3)
    ensures forall ax :: r.At(ax) >= 0.0
    ensures !IsEmpty(b) ==> forall ax :: r.At(ax) == b.max.At(ax) - b.min.At(ax)
  {
    if IsEmpty(b) then Vec3(0.0, 0.0, 0.0)
    else Vec3(b.max.x - b.min.x, b.max.y - b.min.y, b.max.z - b.min.z)
  }

  /** `outer` covers `inner` on every axis (an empty inner box is covered by anything). */
  predicate Encloses(outer: Box3, inner: Box3) {
    inner.Empty? || (outer.Bounds? && Below(outer.min, inner.min) && Below(inner.max, outer.max))
  }

  /** Stands for a three.js BufferGeometry; geometry operations are not modelled. */
  datatype GeometryRef =
    | Source(id: nat)
    | Transformed(base: GeometryRef, instance: nat)
    | Merged(parts: seq<GeometryRef>)

  /** A fragment mesh as the loader sees it. The index buffer is optional (an un-indexed
      geometry), `positions` is the position attribute, the transforms (mesh.matrixWorld
      and the per-instance matrices) are given as functions, and `worldBox` is the result
      of `new Box3().setFromObject(mesh)`, computed by three.js. */
  datatype FragmentMesh = FragmentMesh(
    index: Option<seq<nat>>,
    positions: seq<Vec3>,
    matrixWorld: Vec3 -> Vec3,
    isInstanced: bool,
    instanceMatrices: seq<Vec3 -> Vec3>,
    geometry: GeometryRef,
    worldBox: Box3)
  {
    /** mesh.count: the number of instances. */
    function Count(): (r: nat) { |instanceMatrices| }
  }
}
