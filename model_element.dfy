/** src/core/model-element.ts: the voxel record and the element store that holds the
    concrete and reinforcing-bar fragments, their merged geometry, the union box of the
    concrete and its volume, and the voxel lists. */
module Elements {
  import opened Wrappers
  import opened Geometry

  /** Colour of a freshly created voxel. */
  const DefaultColor: string := "#057400"

  /** VoxelModelData without its three.js mesh and uuid. `transparent` is None when the
      caller leaves the argument out (JavaScript's `undefined`). */
  datatype VoxelModelData = VoxelModelData(
    center: Vec3,
    boxSize: real,
    boxRoundness: real,
    transparent: Option<real>,
    color: string,
    reBarList: seq<FragmentMesh>)

  /** The VoxelModelData constructor: stores the given centre, size, roundness and
      transparency, colours the voxel with the default colour and starts with no bars. */
  function NewVoxel(center: Vec3, boxSize: real, boxRoundness: real, transparent: Option<real>): (v: VoxelModelData)
    ensures v.center == center && v.boxSize == boxSize
    ensures v.boxRoundness == boxRoundness && v.transparent == transparent
    ensures v.color == DefaultColor && v.reBarList == []
  {
    VoxelModelData(center, boxSize, boxRoundness, transparent, DefaultColor, [])
  }

  /** The world boxes (Box3.setFromObject) of a list of fragments. */
  function WorldBoxes(meshes: seq<FragmentMesh>): (r: seq<Box3>)
    ensures |r| == |meshes|
    ensures forall k :: 0 <= k < |meshes| ==> r[k] == meshes[k].worldBox
  {
    seq(|meshes|, k requires 0 <= k < |meshes| => meshes[k].worldBox)
  }

  /** The union of a list of boxes, folded from a fresh (empty) Box3. */
  function UnionAll(boxes: seq<Box3>): (r: Box3) {
    if boxes == [] then Empty else Union(UnionAll(boxes[..|boxes| - 1]), boxes[|boxes| - 1])
  }

  /** The union covers every box it was built from. */
  lemma {:induction false} UnionAllEncloses(boxes: seq<Box3>)
    ensures forall k :: 0 <= k < |boxes| ==> Encloses(UnionAll(boxes), boxes[k])
  {
    if boxes != [] {
      var init := boxes[..|boxes| - 1];
      UnionAllEncloses(init);
      var u := UnionAll(boxes);
      forall k | 0 <= k < |boxes| ensures Encloses(u, boxes[k]) {
        if k < |boxes| - 1 && boxes[k].Bounds? {
          assert boxes[k] == init[k];
          var p := UnionAll(init);
          BelowTrans(u.min, p.min, boxes[k].min);
          BelowTrans(boxes[k].max, p.max, u.max);
        }
      }
    }
  }

  /** The union is the smallest such box: any box that covers every input covers it. */
  lemma {:induction false} UnionAllLeast(boxes: seq<Box3>, outer: Box3)
    requires forall k :: 0 <= k < |boxes| ==> Encloses(outer, boxes[k])
    ensures Encloses(outer, UnionAll(boxes))
  {
    if boxes != [] {
      var init := boxes[..|boxes| - 1];
      assert forall k :: 0 <= k < |init| ==> init[k] == boxes[k];
      UnionAllLeast(init, outer);
    }
  }

  /** The product of the three extents of a box (0 for an empty box). */
  function Volume(b: Box3): (r: real) {
    var s := Size(b);
    s.x * s.y * s.z
  }

  lemma VolumeNonNegative(b: Box3)
    ensures Volume(b) >= 0.0
    ensures IsEmpty(b) ==> Volume(b) == 0.0
  {
    var s := Size(b);
    assert s.At(X) >= 0.0 && s.At(Y) >= 0.0 && s.At(Z) >= 0.0;
    assert s.x * s.y >= 0.0;
  }

  /** renderConvertGeometry: one copy of the geometry per instance, moved by that
      instance's matrix, all merged into one geometry. */
  function ConvertedGeometry(mesh: FragmentMesh): (r: GeometryRef) {
    Merged(seq(mesh.Count(), i requires 0 <= i < mesh.Count() => Transformed(mesh.geometry, i)))
  }

  function ConvertedAll(meshes: seq<FragmentMesh>): (r: seq<GeometryRef>)
    ensures |r| == |meshes|
  {
    seq(|meshes|, k requires 0 <= k < |meshes| => ConvertedGeometry(meshes[k]))
  }

  /** Appending a fragment appends its world box and its converted geometry. */
  lemma AppendFragment(meshes: seq<FragmentMesh>, m: FragmentMesh)
    ensures WorldBoxes(meshes + [m]) == WorldBoxes(meshes) + [m.worldBox]
    ensures ConvertedAll(meshes + [m]) == ConvertedAll(meshes) + [ConvertedGeometry(m)]
  {
    assert forall k :: 0 <= k < |meshes| ==> (meshes + [m])[k] == meshes[k];
  }

  class ModelElement {
    var concreteList: seq<FragmentMesh>
    var concreteVolume: real
    var reinforcingBarList: seq<FragmentMesh>
    var boundingBoxConcrete: Option<Box3>
    var voxelModelData: seq<VoxelModelData>
    var voxelHasRebar: seq<VoxelModelData>
    var voxelHasNotRebar: seq<VoxelModelData>
    /** The merged geometries of concreteMesh and reinforcingBarMesh (None: not yet made). */
    var concreteMesh: Option<GeometryRef>
    var reinforcingBarMesh: Option<GeometryRef>

    constructor ()
      ensures concreteList == [] && reinforcingBarList == [] && concreteVolume == 0.0
      ensures voxelModelData == [] && voxelHasRebar == [] && voxelHasNotRebar == []
      ensures boundingBoxConcrete.None? && concreteMesh.None? && reinforcingBarMesh.None?
    {
      concreteList := [];
      concreteVolume := 0.0;
      reinforcingBarList := [];
      voxelModelData := [];
      voxelHasRebar := [];
      voxelHasNotRebar := [];
      boundingBoxConcrete := None;
      concreteMesh := None;
      reinforcingBarMesh := None;
    }

    /** Empties the five lists; volume, box and meshes stay as they are. */
    method CleanUp()
      modifies this
      ensures concreteList == [] && reinforcingBarList == []
      ensures voxelModelData == [] && voxelHasRebar == [] && voxelHasNotRebar == []
      ensures concreteVolume == old(concreteVolume) && boundingBoxConcrete == old(boundingBoxConcrete)
      ensures concreteMesh == old(concreteMesh) && reinforcingBarMesh == old(reinforcingBarMesh)
    {
      concreteList := [];
      reinforcingBarList := [];
      voxelModelData := [];
      voxelHasRebar := [];
      voxelHasNotRebar := [];
    }

    /** renderConvertGeometry: exactly one transformed copy per instance index, in order. */
    method RenderConvertGeometry(mesh: FragmentMesh) returns (g: GeometryRef)
      ensures g.Merged? && |g.parts| == mesh.Count()
      ensures forall i :: 0 <= i < mesh.Count() ==> g.parts[i] == Transformed(mesh.geometry, i)
    {
      var geometries: seq<GeometryRef> := [];
      var i := 0;
      while i < mesh.Count()
        invariant 0 <= i <= mesh.Count()
        invariant |geometries| == i
        invariant forall j :: 0 <= j < i ==> geometries[j] == Transformed(mesh.geometry, j)
      {
        geometries := geometries + [Transformed(mesh.geometry, i)];
        i := i + 1;
      }
      g := Merged(geometries);
    }

    /** setup: unions the concrete boxes into a fresh box, takes the volume of the union,
        and merges the converted geometries of each list into one mesh when the list is
        not empty (an empty list leaves the previous mesh in place). */
    method Setup()
      modifies this
      ensures concreteList == old(concreteList) && reinforcingBarList == old(reinforcingBarList)
      ensures voxelModelData == old(voxelModelData)
      ensures voxelHasRebar == old(voxelHasRebar) && voxelHasNotRebar == old(voxelHasNotRebar)
      ensures boundingBoxConcrete == Some(UnionAll(WorldBoxes(concreteList)))
      ensures concreteVolume == Volume(boundingBoxConcrete.value)
      ensures concreteMesh == if |concreteList| > 0 then Some(Merged(ConvertedAll(concreteList)))
                              else old(concreteMesh)
      ensures reinforcingBarMesh == if |reinforcingBarList| > 0
                                    then Some(Merged(ConvertedAll(reinforcingBarList)))
                                    else old(reinforcingBarMesh)
    {
      var concreteGeoList: seq<GeometryRef> := [];
      var box := Empty;
      var i := 0;
      while i < |concreteList|
        invariant 0 <= i <= |concreteList|
        modifies {}
        invariant box == UnionAll(WorldBoxes(concreteList[..i]))
        invariant concreteGeoList == ConvertedAll(concreteList[..i])
      {
        var concrete := concreteList[i];
        assert concreteList[..i + 1] == concreteList[..i] + [concrete];
        AppendFragment(concreteList[..i], concrete);
        box := Union(box, concrete.worldBox);
        var g := RenderConvertGeometry(concrete);
        assert g == ConvertedGeometry(concrete);
        concreteGeoList := concreteGeoList + [g];
        i := i + 1;
      }
      assert concreteList[..i] == concreteList;
      boundingBoxConcrete := Some(box);
      if |concreteGeoList| > 0 {
        concreteMesh := Some(Merged(concreteGeoList));
      }
      var size := Size(box);
      concreteVolume := size.x * size.y * size.z;

      var rebarGeoList: seq<GeometryRef> := [];
      i := 0;
      while i < |reinforcingBarList|
        invariant 0 <= i <= |reinforcingBarList|
        modifies {}
        invariant rebarGeoList == ConvertedAll(reinforcingBarList[..i])
      {
        assert reinforcingBarList[..i + 1] == reinforcingBarList[..i] + [reinforcingBarList[i]];
        AppendFragment(reinforcingBarList[..i], reinforcingBarList[i]);
        var g := RenderConvertGeometry(reinforcingBarList[i]);
        assert g == ConvertedGeometry(reinforcingBarList[i]);
        rebarGeoList := rebarGeoList + [g];
        i := i + 1;
      }
      assert reinforcingBarList[..i] == reinforcingBarList;
      if |rebarGeoList| > 0 {
        reinforcingBarMesh := Some(Merged(rebarGeoList));
      }
    }
  }
}
