/** src/core/model-loader.ts: the voxel-size settings (ModelSetting), the bounds of a
    fragment's indexed vertices, and the running world-space box of all loaded fragments. */
module Loader {
  import opened Wrappers
  import opened Geometry

  const DefaultVoxelSize: real := 0.5

  /** One row of the volume-to-voxel-size step table. */
  datatype ScaleEntry = ScaleEntry(volume: real, scale: real)

  const VolumeScaleMap: seq<ScaleEntry> := [
    ScaleEntry(0.0, 0.2),
    ScaleEntry(200.0, 0.3),
    ScaleEntry(600.0, 0.4),
    ScaleEntry(1000.0, 0.5),
    ScaleEntry(1300.0, 0.6),
    ScaleEntry(1500.0, 0.7),
    ScaleEntry(2000.0, 0.8),
    ScaleEntry(2500.0, 0.9),
    ScaleEntry(4000.0, 1.0),
    ScaleEntry(8000.0, 1.1),
    ScaleEntry(12000.0, 1.2),
    ScaleEntry(20000.0, 1.3),
    ScaleEntry(25000.0, 1.4),
    ScaleEntry(30000.0, 1.5)
  ]

  /** Scale returned when no table entry matches (never reached, see ScaleIsFirstMatch). */
  const FallbackScale: real := 1.0

  /** The table's volumes and scales both rise strictly from one row to the next. */
  predicate Ascending(t: seq<ScaleEntry>) {
    forall k :: 0 <= k < |t| - 1 ==> t[k].volume < t[k + 1].volume && t[k].scale < t[k + 1].scale
  }

  lemma TableShape()
    ensures |VolumeScaleMap| == 14 && Ascending(VolumeScaleMap)
    ensures VolumeScaleMap[0] == ScaleEntry(0.0, 0.2)
    ensures VolumeScaleMap[13] == ScaleEntry(30000.0, 1.5)
    ensures forall k :: 0 <= k < 14 ==> 0.2 <= VolumeScaleMap[k].scale <= 1.5
  {
    var t := VolumeScaleMap;
    forall k | 0 <= k < |t| - 1
      ensures t[k].volume < t[k + 1].volume && t[k].scale < t[k + 1].scale
    {
      if k < 7 {
        assert k == 0 || k == 1 || k == 2 || k == 3 || k == 4 || k == 5 || k == 6;
      } else {
        assert k == 7 || k == 8 || k == 9 || k == 10 || k == 11 || k == 12;
      }
    }
  }

  /** The scale of the first entry at or after row `i` whose volume is at least `volume`,
      or the fallback when there is none. */
  function FirstScaleFrom(volume: real, i: nat): (r: real)
    decreases |VolumeScaleMap| - i
  {
    if i >= |VolumeScaleMap| then FallbackScale
    else if volume <= VolumeScaleMap[i].volume then VolumeScaleMap[i].scale
    else FirstScaleFrom(volume, i + 1)
  }

  /** The voxel size calculateScale picks for a concrete volume. */
  function ScaleFor(volume: real): (r: real) {
    var last := VolumeScaleMap[|VolumeScaleMap| - 1];
    if last.volume <= volume then last.scale else FirstScaleFrom(volume, 0)
  }

  /** FirstScaleFrom is the scale of the first matching row, and the fallback exactly
      when no row from `i` on matches. */
  lemma {:induction false} FirstScaleFromIsFirstMatch(volume: real, i: nat)
    requires i <= |VolumeScaleMap|
    ensures forall k :: i <= k < |VolumeScaleMap| && volume <= VolumeScaleMap[k].volume &&
                        (forall j :: i <= j < k ==> VolumeScaleMap[j].volume < volume)
                        ==> FirstScaleFrom(volume, i) == VolumeScaleMap[k].scale
    ensures (forall j :: i <= j < |VolumeScaleMap| ==> VolumeScaleMap[j].volume < volume)
            ==> FirstScaleFrom(volume, i) == FallbackScale
    decreases |VolumeScaleMap| - i
  {
    if i < |VolumeScaleMap| && VolumeScaleMap[i].volume < volume {
      FirstScaleFromIsFirstMatch(volume, i + 1);
    }
  }

  /** calculateScale: 1.5 from volume 30000 on; below that the scale of the first row
      whose volume bound is at least `volume`, so the fallback is never returned. */
  lemma ScaleIsFirstMatch(volume: real)
    ensures 30000.0 <= volume ==> ScaleFor(volume) == 1.5
    ensures volume < 30000.0 ==>
              exists k :: 0 <= k < |VolumeScaleMap| && volume <= VolumeScaleMap[k].volume &&
                          (forall j :: 0 <= j < k ==> VolumeScaleMap[j].volume < volume) &&
                          ScaleFor(volume) == VolumeScaleMap[k].scale
  {
    TableShape();
    FirstScaleFromIsFirstMatch(volume, 0);
    if volume < 30000.0 {
      var k := FirstMatchIndex(volume, 0);
      assert ScaleFor(volume) == VolumeScaleMap[k].scale;
    }
  }

  /** The first row at or after `i` whose volume bound is at least `volume`. */
  function FirstMatchIndex(volume: real, i: nat): (k: nat)
    requires i < |VolumeScaleMap| && volume <= VolumeScaleMap[|VolumeScaleMap| - 1].volume
    ensures i <= k < |VolumeScaleMap| && volume <= VolumeScaleMap[k].volume
    ensures forall j :: i <= j < k ==> VolumeScaleMap[j].volume < volume
    decreases |VolumeScaleMap| - i
  {
    if volume <= VolumeScaleMap[i].volume then i else FirstMatchIndex(volume, i + 1)
  }

  /** Concrete steps of the table: up to 0 gives 0.2, 200 gives 0.3, 201 gives 0.4. */
  lemma ScaleSteps(volume: real)
    ensures volume <= 0.0 ==> ScaleFor(volume) == 0.2
    ensures 0.0 < volume <= 200.0 ==> ScaleFor(volume) == 0.3
    ensures 200.0 < volume <= 600.0 ==> ScaleFor(volume) == 0.4
  {
  }

  lemma {:induction false} FirstScaleFromBounds(volume: real, i: nat)
    requires i < |VolumeScaleMap| && volume <= VolumeScaleMap[|VolumeScaleMap| - 1].volume
    ensures VolumeScaleMap[i].scale <= FirstScaleFrom(volume, i) <= 1.5
    decreases |VolumeScaleMap| - i
  {
    TableShape();
    if VolumeScaleMap[i].volume < volume {
      FirstScaleFromBounds(volume, i + 1);
    }
  }

  /** The voxel size always lies in [0.2, 1.5]. */
  lemma ScaleRange(volume: real)
    ensures 0.2 <= ScaleFor(volume) <= 1.5
  {
    TableShape();
    if volume < 30000.0 {
      FirstScaleFromBounds(volume, 0);
    }
  }

  lemma {:induction false} FirstScaleFromMonotone(v1: real, v2: real, i: nat)
    requires v1 <= v2 <= VolumeScaleMap[|VolumeScaleMap| - 1].volume && i < |VolumeScaleMap|
    ensures FirstScaleFrom(v1, i) <= FirstScaleFrom(v2, i)
    decreases |VolumeScaleMap| - i
  {
    TableShape();
    if v1 <= VolumeScaleMap[i].volume {
      if VolumeScaleMap[i].volume < v2 {
        FirstScaleFromBounds(v2, i + 1);
      }
    } else {
      FirstScaleFromMonotone(v1, v2, i + 1);
    }
  }

  /** A larger concrete volume never gets a smaller voxel size. */
  lemma ScaleMonotone(v1: real, v2: real)
    requires v1 <= v2
    ensures ScaleFor(v1) <= ScaleFor(v2)
  {
    TableShape();
    if v2 < 30000.0 {
      FirstScaleFromMonotone(v1, v2, 0);
    } else {
      ScaleRange(v1);
    }
  }

  /** The three user-adjustable voxel settings (the shape that setupSetting copies). */
  datatype SettingsData = SettingsData(boxSize: real, boxRoundness: real, transparent: real)

  class ModelSetting {
    var boxSize: real
    var boxRoundness: real
    var transparent: real
    var sizeLimit: real

    function Data(): (r: SettingsData)
      reads this
    {
      SettingsData(boxSize, boxRoundness, transparent)
    }

    constructor ()
      ensures boxSize == DefaultVoxelSize && boxRoundness == 0.01
      ensures transparent == 0.4 && sizeLimit == DefaultVoxelSize
    {
      boxSize := DefaultVoxelSize;
      boxRoundness := 0.01;
      transparent := 0.4;
      sizeLimit := DefaultVoxelSize;
    }

    /** Sizes the voxels for a concrete volume; the slider limit is one above the size. */
    method Setup(volume: real)
      modifies this
      ensures boxSize == ScaleFor(volume) && sizeLimit == boxSize + 1.0
      ensures boxRoundness == old(boxRoundness) && transparent == old(transparent)
    {
      var newSize := CalculateScale(volume);
      boxSize := newSize;
      sizeLimit := newSize + 1.0;
    }

    /** Copies the three settings; the size limit is left as it was. */
    method SetupSetting(setting: SettingsData) returns (isSuccess: bool)
      modifies this
      ensures Data() == setting && sizeLimit == old(sizeLimit)
      ensures isSuccess
    {
      boxSize := setting.boxSize;
      boxRoundness := setting.boxRoundness;
      transparent := setting.transparent;
      isSuccess := true;
    }

    /** The step-table lookup, a scan with an early break. */
    method CalculateScale(volume: real) returns (scale: real)
      ensures scale == ScaleFor(volume)
    {
      var last := VolumeScaleMap[|VolumeScaleMap| - 1];
      if last.volume <= volume {
        return last.scale;
      }
      scale := FallbackScale;
      var i := 0;
      while i < |VolumeScaleMap|
        invariant 0 <= i <= |VolumeScaleMap|
        invariant scale == FallbackScale
        invariant FirstScaleFrom(volume, i) == FirstScaleFrom(volume, 0)
      {
        var entry := VolumeScaleMap[i];
        if volume <= entry.volume {
          scale := entry.scale;
          break;
        }
        i := i + 1;
      }
    }
  }

  // ---------------------------------------------------------------------------------
  // Bounds of a fragment's indexed vertices (getFragmentBounds)

  const TwoTo1074: nat := 202402253307310618352495346718917307049556649764142118356901358027430339567995346891960383701437124495187077864316811911389808737385793476867013399940738509921517424276566361364466907742093216341239767678472745068562007483424692698618103355649159556340810056512358769552333414615230502532186327508646006263307707741093494784

  /** JavaScript's Number.MIN_VALUE, 2^-1074: the smallest POSITIVE double. */
  const NumberMinValue: real := 1.0 / (TwoTo1074 as real)

  /** The triple of index entries starting at `i` is (0, 0, 0); an entry past the end
      reads as `undefined`, which is not 0. */
  predicate DegenerateAt(indices: seq<nat>, i: nat) {
    i + 2 < |indices| && indices[i] == 0 && indices[i + 1] == 0 && indices[i + 2] == 0
  }

  /** Index entry `k` is read: the triple it belongs to is not the (0, 0, 0) triple. */
  predicate Visited(indices: seq<nat>, k: nat) {
    !DegenerateAt(indices, k - k % 3)
  }

  /** Index entry `k` is read and names an existing vertex (a vertex past the end of the
      position attribute reads as `undefined`, and every comparison with it is false). */
  predicate Scanned(indices: seq<nat>, positions: seq<Vec3>, k: nat)
    requires k < |indices|
  {
    Visited(indices, k) && indices[k] < |positions|
  }

  /** The start value of the running minimum and maximum. */
  function StartBounds(): (r: Box3) {
    Bounds(Vec3(NumberMinValue, NumberMinValue, NumberMinValue),
           Vec3(-NumberMinValue, -NumberMinValue, -NumberMinValue))
  }

  /** The running minimum and maximum after reading the first `n` index entries. */
  function FragmentBoundsUpTo(indices: seq<nat>, positions: seq<Vec3>, n: nat): (b: Box3)
    requires n <= |indices|
    ensures b.Bounds?
  {
    if n == 0 then StartBounds()
    else
      var prev := FragmentBoundsUpTo(indices, positions, n - 1);
      if Scanned(indices, positions, n - 1) then
        var v := positions[indices[n - 1]];
        Bounds(LowerTo(prev.min, v), RaiseTo(prev.max, v))
      else prev
  }

  function FragmentBounds(indices: seq<nat>, positions: seq<Vec3>): (b: Box3)
    ensures b.Bounds?
  {
    FragmentBoundsUpTo(indices, positions, |indices|)
  }

  /** Every scanned vertex lies in the bounds; the minimum never rises above its start
      value Number.MIN_VALUE and the maximum never drops below its negation. */
  lemma {:induction false} FragmentBoundsContain(indices: seq<nat>, positions: seq<Vec3>, n: nat)
    requires n <= |indices|
    ensures var b := FragmentBoundsUpTo(indices, positions, n);
            forall k {:trigger Scanned(indices, positions, k)} :: 0 <= k < n && Scanned(indices, positions, k) ==>
              Inside(positions[indices[k]], b.min, b.max)
    ensures var b := FragmentBoundsUpTo(indices, positions, n);
            Below(b.min, StartBounds().min) && Below(StartBounds().max, b.max)
  {
    if n > 0 {
      FragmentBoundsContain(indices, positions, n - 1);
      var prev := FragmentBoundsUpTo(indices, positions, n - 1);
      var b := FragmentBoundsUpTo(indices, positions, n);
      if Scanned(indices, positions, n - 1) {
        var v := positions[indices[n - 1]];
        assert b == Bounds(LowerTo(prev.min, v), RaiseTo(prev.max, v));
        forall k | 0 <= k < n && Scanned(indices, positions, k)
          ensures Inside(positions[indices[k]], b.min, b.max)
        {
          if k < n - 1 {
            BelowTrans(b.min, prev.min, positions[indices[k]]);
            BelowTrans(positions[indices[k]], prev.max, b.max);
          }
        }
        BelowTrans(b.min, prev.min, StartBounds().min);
        BelowTrans(StartBounds().max, prev.max, b.max);
      }
    }
  }

  /** The bounds are tight: each coordinate of the minimum (maximum) is the start value
      or the coordinate of some scanned vertex. */
  lemma {:induction false} FragmentBoundsTight(indices: seq<nat>, positions: seq<Vec3>, n: nat)
    requires n <= |indices|
    ensures var b := FragmentBoundsUpTo(indices, positions, n);
            forall ax :: b.min.At(ax) == StartBounds().min.At(ax) ||
                         exists k {:trigger Scanned(indices, positions, k)} :: 0 <= k < n && Scanned(indices, positions, k) &&
                                     positions[indices[k]].At(ax) == b.min.At(ax)
    ensures var b := FragmentBoundsUpTo(indices, positions, n);
            forall ax :: b.max.At(ax) == StartBounds().max.At(ax) ||
                         exists k {:trigger Scanned(indices, positions, k)} :: 0 <= k < n && Scanned(indices, positions, k) &&
                                     positions[indices[k]].At(ax) == b.max.At(ax)
  {
    if n > 0 {
      FragmentBoundsTight(indices, positions, n - 1);
    }
  }

  /** Number of instances whose transformed corners are merged into the absolute box. */
  function InstanceCount(mesh: FragmentMesh): (r: nat) {
    if mesh.isInstanced then mesh.Count() else 1
  }

  /** A corner of the fragment bounds, moved by instance `i`'s matrix (instanced meshes
      only) and then by the mesh's world matrix. */
  function WorldCorner(mesh: FragmentMesh, corner: Vec3, i: nat): (r: Vec3)
    requires i < InstanceCount(mesh)
  {
    var p := if mesh.isInstanced then mesh.instanceMatrices[i](corner) else corner;
    mesh.matrixWorld(p)
  }

  class ModelLoader {
    var settings: ModelSetting
    var absoluteMax: Vec3
    var absoluteMin: Vec3

    constructor ()
      ensures fresh(settings) && settings.Data() == SettingsData(DefaultVoxelSize, 0.01, 0.4)
      ensures settings.sizeLimit == DefaultVoxelSize
      ensures absoluteMin == Vec3(0.0, 0.0, 0.0) && absoluteMax == Vec3(0.0, 0.0, 0.0)
    {
      settings := new ModelSetting();
      absoluteMax := Vec3(0.0, 0.0, 0.0);
      absoluteMin := Vec3(0.0, 0.0, 0.0);
    }

    /** getBoundingBox: the box spanned by the two running corners. The source's Box3
        shares the two running vectors rather than copying them; as a value, this box
        does not follow later updates of the corners. */
    function BoundingBox(): (r: Box3)
      reads this
    {
      Bounds(absoluteMin, absoluteMax)
    }

    /** getFragmentBounds: fails on an un-indexed geometry, otherwise scans the index
        buffer, skipping each (0, 0, 0) triple, and keeps a running minimum and maximum. */
    method GetFragmentBounds(mesh: FragmentMesh) returns (r: Result<Box3, string>)
      ensures mesh.index.None? ==> r == Failure("Geometry must be indexed!")
      ensures mesh.index.Some? ==> r == Success(FragmentBounds(mesh.index.value, mesh.positions))
    {
      var maxNum := NumberMinValue;
      var minNum := -maxNum;
      var min := Vec3(maxNum, maxNum, maxNum);
      var max := Vec3(minNum, minNum, minNum);
      if mesh.index.None? {
        return Failure("Geometry must be indexed!");
      }
      var indices := mesh.index.value;
      var positions := mesh.positions;
      var i := 0;
      while i < |indices|
        invariant 0 <= i <= |indices|
        invariant i % 3 != 0 ==> !DegenerateAt(indices, i - i % 3)
        invariant Bounds(min, max) == FragmentBoundsUpTo(indices, positions, i)
      {
        if i % 3 == 0 && DegenerateAt(indices, i) {
          assert (i + 1) % 3 == 1 && (i + 2) % 3 == 2;
          assert FragmentBoundsUpTo(indices, positions, i + 1) == Bounds(min, max);
          assert FragmentBoundsUpTo(indices, positions, i + 2) == Bounds(min, max);
          i := i + 3;  // `i += 2; continue;` followed by the loop's `i++`
          continue;
        }
        assert Visited(indices, i);
        var index := indices[i];
        if index < |positions| {
          var v := positions[index];
          min := LowerTo(min, v);
          max := RaiseTo(max, v);
        }
        i := i + 1;
      }
      r := Success(Bounds(min, max));
    }

    /** getBoudingBoxFormMesh: widens the running world box by both transformed corners
        of the fragment bounds, once per instance (once for a mesh that is not instanced).
        An un-indexed mesh changes nothing. */
    method GetBoundingBoxFromMesh(mesh: FragmentMesh)
      modifies this`absoluteMin, this`absoluteMax
      ensures mesh.index.None? ==> absoluteMin == old(absoluteMin) && absoluteMax == old(absoluteMax)
      ensures Below(absoluteMin, old(absoluteMin)) && Below(old(absoluteMax), absoluteMax)
      ensures mesh.index.Some? ==>
                var b := FragmentBounds(mesh.index.value, mesh.positions);
                forall i :: 0 <= i < InstanceCount(mesh) ==>
                  Inside(WorldCorner(mesh, b.min, i), absoluteMin, absoluteMax) &&
                  Inside(WorldCorner(mesh, b.max, i), absoluteMin, absoluteMax)
      ensures mesh.index.Some? ==>
                var b := FragmentBounds(mesh.index.value, mesh.positions);
                forall ax :: (absoluteMin.At(ax) == old(absoluteMin).At(ax) ||
                              exists i :: 0 <= i < InstanceCount(mesh) &&
                                          IsCornerCoordinate(mesh, b, i, ax, absoluteMin.At(ax))) &&
                             (absoluteMax.At(ax) == old(absoluteMax).At(ax) ||
                              exists i :: 0 <= i < InstanceCount(mesh) &&
                                          IsCornerCoordinate(mesh, b, i, ax, absoluteMax.At(ax)))
    {
      if mesh.index.None? {
        return;
      }
      var r := GetFragmentBounds(mesh);
      var bbox := r.value;
      var count := InstanceCount(mesh);
      var i := 0;
      while i < count
        invariant 0 <= i <= count
        invariant Below(absoluteMin, old(absoluteMin)) && Below(old(absoluteMax), absoluteMax)
        invariant forall j :: 0 <= j < i ==>
                    Inside(WorldCorner(mesh, bbox.min, j), absoluteMin, absoluteMax) &&
                    Inside(WorldCorner(mesh, bbox.max, j), absoluteMin, absoluteMax)
        invariant forall ax :: (absoluteMin.At(ax) == old(absoluteMin).At(ax) ||
                                exists j :: 0 <= j < i &&
                                            IsCornerCoordinate(mesh, bbox, j, ax, absoluteMin.At(ax))) &&
                               (absoluteMax.At(ax) == old(absoluteMax).At(ax) ||
                                exists j :: 0 <= j < i &&
                                            IsCornerCoordinate(mesh, bbox, j, ax, absoluteMax.At(ax)))
      {
        var min := WorldCorner(mesh, bbox.min, i);
        var max := WorldCorner(mesh, bbox.max, i);
        assert forall ax :: IsCornerCoordinate(mesh, bbox, i, ax, min.At(ax)) &&
                            IsCornerCoordinate(mesh, bbox, i, ax, max.At(ax));
        absoluteMin := LowerTo(absoluteMin, min);
        absoluteMax := RaiseTo(absoluteMax, min);
        absoluteMax := RaiseTo(absoluteMax, max);
        absoluteMin := LowerTo(absoluteMin, max);
        i := i + 1;
      }
    }
  }

  /** `c` is the `ax` coordinate of one of instance `i`'s two transformed corners. */
  predicate IsCornerCoordinate(mesh: FragmentMesh, b: Box3, i: nat, ax: Axis, c: real)
    requires b.Bounds? && i < InstanceCount(mesh)
  {
    WorldCorner(mesh, b.min, i).At(ax) == c || WorldCorner(mesh, b.max, i).At(ax) == c
  }
}
