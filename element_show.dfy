/** src/components/Viewer/ToolSideBar/ElementShow/index.tsx: the "Element show" menu,
    which shows or hides the voxels, the concrete and the reinforcing bars. */
module ElementShow {
  import opened Wrappers
  import opened MenuToggle

  const Items: seq<MenuItem> := [
    MenuItem("all", "All", false),
    MenuItem("voxel", "Voxel", false),
    MenuItem("concrete", "Concrete", false),
    MenuItem("reinforcingBar", "Reinforcing Bar", false)
  ]

  /** The items not shown when a model has just loaded. */
  const HiddenOnLoad: set<string> := {"all", "concrete"}

  /** The effect on `loaded`: once a model is loaded the voxels and the reinforcing bars
      are shown and "all" and the concrete are not; before that nothing is shown. */
  function InitialMenu(loaded: bool): (r: seq<MenuItem>)
    ensures |r| == |Items|
    ensures forall k :: 0 <= k < |Items| ==> r[k].id == Items[k].id && r[k].name == Items[k].name
    ensures !loaded ==> forall k :: 0 <= k < |Items| ==> !r[k].isShow
    ensures loaded ==> forall k :: 0 <= k < |Items| ==>
              (r[k].isShow <==> Items[k].id == "voxel" || Items[k].id == "reinforcingBar")
  {
    if loaded then seq(|Items|, k requires 0 <= k < |Items| => Items[k].(isShow := Items[k].id !in HiddenOnLoad))
    else SetAll(Items, false)
  }

  /** The IFC entity types whose fragments the loader shows or removes. */
  datatype IfcType = IfcBuildingElementProxy | IfcReinforcingBar

  datatype ElementCall =
    | ShowModel(ifcType: IfcType)
    | RemoveModel(ifcType: IfcType)
    | ShowVoxelModel
    | HideVoxelModel

  /** handleShowModel. */
  function HandleShowModel(id: string): (r: Option<ElementCall>) {
    if id == "concrete" then Some(ShowModel(IfcBuildingElementProxy))
    else if id == "reinforcingBar" then Some(ShowModel(IfcReinforcingBar))
    else if id == "voxel" then Some(ShowVoxelModel)
    else None
  }

  /** handleRemoveModel. */
  function HandleRemoveModel(id: string): (r: Option<ElementCall>) {
    if id == "concrete" then Some(RemoveModel(IfcBuildingElementProxy))
    else if id == "reinforcingBar" then Some(RemoveModel(IfcReinforcingBar))
    else if id == "voxel" then Some(HideVoxelModel)
    else None
  }

  /** The concrete is the building-element-proxy type, the bars the reinforcing-bar type
      and the voxels the voxel calls; "all" makes no call; every item that can be shown
      can be hidden again, through the same target. */
  lemma DispatchTargets(id: string)
    ensures HandleShowModel("concrete") == Some(ShowModel(IfcBuildingElementProxy))
    ensures HandleRemoveModel("concrete") == Some(RemoveModel(IfcBuildingElementProxy))
    ensures HandleShowModel("reinforcingBar") == Some(ShowModel(IfcReinforcingBar))
    ensures HandleRemoveModel("reinforcingBar") == Some(RemoveModel(IfcReinforcingBar))
    ensures HandleShowModel("voxel") == Some(ShowVoxelModel) && HandleRemoveModel("voxel") == Some(HideVoxelModel)
    ensures HandleShowModel(AllId).None? && HandleRemoveModel(AllId).None?
    ensures HandleShowModel(id).Some? <==> HandleRemoveModel(id).Some?
    ensures HandleShowModel(id).Some? <==> id in {"voxel", "concrete", "reinforcingBar"}
    ensures forall t :: HandleShowModel(id) == Some(ShowModel(t)) <==> HandleRemoveModel(id) == Some(RemoveModel(t))
  {
  }

  /** From the loaded menu, checking the concrete shows every element, while "all" stays
      unchecked. */
  lemma CheckConcreteAfterLoad()
    ensures var m := HandleOnChangeShow(InitialMenu(true), "concrete", true);
            !m[0].isShow && m[1].isShow && m[2].isShow && m[3].isShow
  {
    var m0 := InitialMenu(true);
    assert m0[0].id == "all" && m0[2].id == "concrete";
  }
}
