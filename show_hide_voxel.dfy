/** src/components/Viewer/ToolSideBar/ShowHideVoxel/index.tsx: the "Show/Hide Voxel by
    Color" menu, an "all" item and one item per voxel colour. */
module ShowHideVoxel {
  import opened Wrappers
  import opened MenuToggle

  /** The menu's items; each colour item is named after its colour constant. */
  const Items: seq<MenuItem> := [
    MenuItem("all", "All", false),
    MenuItem("color 0", "0x00d4ff", false),
    MenuItem("color 1", "0x09e8cd", false),
    MenuItem("color 2", "0x09e810", false),
    MenuItem("color 3", "0xe8de09", false),
    MenuItem("color 4", "0xe80909", false)
  ]

  /** The colour constants the items "color 0" .. "color 4" stand for, in order. */
  const VoxelColors: seq<int> := [0x00d4ff, 0x09e8cd, 0x09e810, 0xe8de09, 0xe80909]

  /** The effect on `loaded`: every item shown once a model is loaded, every item hidden
      otherwise. */
  function InitialMenu(loaded: bool): (r: seq<MenuItem>)
    ensures |r| == |Items|
    ensures forall k :: 0 <= k < |Items| ==> r[k].id == Items[k].id && r[k].name == Items[k].name
    ensures forall k :: 0 <= k < |Items| ==> r[k].isShow == loaded
  {
    SetAll(Items, loaded)
  }

  /** The loader call a checkbox makes. */
  datatype VoxelCall = ShowVoxelByColor(color: int) | HideVoxelByColor(color: int)

  /** The colour an item id stands for: "color k" is the k-th colour; "all" and unknown
      ids stand for none. */
  function ColorOfId(id: string): (r: Option<int>) {
    if id == "color 0" then Some(0x00d4ff)
    else if id == "color 1" then Some(0x09e8cd)
    else if id == "color 2" then Some(0x09e810)
    else if id == "color 3" then Some(0xe8de09)
    else if id == "color 4" then Some(0xe80909)
    else None
  }

  /** handleShowModel: the show call for a colour item, no call for anything else. */
  function HandleShowModel(id: string): (r: Option<VoxelCall>) {
    match ColorOfId(id)
    case Some(c) => Some(ShowVoxelByColor(c))
    case None => None
  }

  /** handleRemoveModel: the hide call for a colour item, no call for anything else. */
  function HandleRemoveModel(id: string): (r: Option<VoxelCall>) {
    match ColorOfId(id)
    case Some(c) => Some(HideVoxelByColor(c))
    case None => None
  }

  /** Exactly the five colour items make a call, item k naming colour k in both
      directions; "all" makes none; different items name different colours. */
  lemma DispatchCoversColors(id: string)
    ensures HandleShowModel(AllId).None? && HandleRemoveModel(AllId).None?
    ensures forall k :: 1 <= k < |Items| ==>
              HandleShowModel(Items[k].id) == Some(ShowVoxelByColor(VoxelColors[k - 1])) &&
              HandleRemoveModel(Items[k].id) == Some(HideVoxelByColor(VoxelColors[k - 1]))
    ensures HandleShowModel(id).Some? <==> exists k :: 1 <= k < |Items| && Items[k].id == id
    ensures HandleShowModel(id).Some? <==> HandleRemoveModel(id).Some?
    ensures forall j, k :: 0 <= j < k < |VoxelColors| ==> VoxelColors[j] != VoxelColors[k]
  {
    if HandleShowModel(id).Some? {
      if id == "color 0" { assert Items[1].id == id; }
      else if id == "color 1" { assert Items[2].id == id; }
      else if id == "color 2" { assert Items[3].id == id; }
      else if id == "color 3" { assert Items[4].id == id; }
      else { assert Items[5].id == id; }
    }
  }

  /** From the loaded menu, unchecking one colour hides that colour's item and unchecks
      "all"; the other colours stay shown. */
  lemma UncheckOneColor(k: int)
    requires 1 <= k < |Items|
    ensures var m := HandleOnChangeShow(InitialMenu(true), Items[k].id, false);
            !m[0].isShow && !m[k].isShow &&
            forall j :: 1 <= j < |Items| && j != k ==> m[j].isShow
  {
    var m := HandleOnChangeShow(InitialMenu(true), Items[k].id, false);
    forall j | 1 <= j < |Items| && j != k
      ensures m[j].isShow
    {
      assert Items[j].id != Items[k].id;
    }
  }
}
