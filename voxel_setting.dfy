/** src/components/Viewer/ToolSideBar/VoxelSetting/index.tsx: editing the voxel
    settings and applying them. Applying either rebuilds the voxels (the size changed)
    or only re-renders them (the roundness or the transparency changed).

    The calls the component makes (setLoaded, setIsModaling, settings.setupSetting,
    reSetupLoadModel, reRenderVoxel) are recorded, in order, as `Action`s; what the last
    two do is not part of this model. A settings copy is recorded with the settings as
    they stand right after it, which is what the rebuild or re-render that follows reads. */
module VoxelSettings {
  import opened Loader

  /** The settings field a slider edits. */
  datatype SettingField = BoxSize | BoxRoundness | Transparent

  datatype Action =
    | SetLoaded(loaded: bool)
    | SetIsModaling(modaling: bool)
    | SetupSetting(setting: SettingsData)
    | ReSetupLoadModel
    | ReRenderVoxel(boxSize: real, boxRoundness: real, transparent: real)

  /** handleChangeSetting: the named field takes the new value; the other two keep
      theirs. */
  function HandleChangeSetting(data: SettingsData, value: real, field: SettingField): (r: SettingsData)
    ensures field == BoxSize ==> r.boxSize == value
    ensures field == BoxRoundness ==> r.boxRoundness == value
    ensures field == Transparent ==> r.transparent == value
    ensures field != BoxSize ==> r.boxSize == data.boxSize
    ensures field != BoxRoundness ==> r.boxRoundness == data.boxRoundness
    ensures field != Transparent ==> r.transparent == data.transparent
  {
    match field
    case BoxSize => data.(boxSize := value)
    case BoxRoundness => data.(boxRoundness := value)
    case Transparent => data.(transparent := value)
  }

  /** Changing a field twice keeps only the second value, and changing it to the value it
      has changes nothing. */
  lemma ChangeSettingLastWins(data: SettingsData, v1: real, v2: real, field: SettingField)
    ensures HandleChangeSetting(HandleChangeSetting(data, v1, field), v2, field) == HandleChangeSetting(data, v2, field)
    ensures field == BoxSize ==> HandleChangeSetting(data, data.boxSize, field) == data
    ensures field == BoxRoundness ==> HandleChangeSetting(data, data.boxRoundness, field) == data
    ensures field == Transparent ==> HandleChangeSetting(data, data.transparent, field) == data
  {
  }

  /** The calls made between setLoaded(false)/setIsModaling(false) and setLoaded(true)
      when `data` is applied over settings holding `current`: each viewer call comes
      right after the settings copy. */
  function Decision(current: SettingsData, data: SettingsData): (r: seq<Action>) {
    if data.boxSize != current.boxSize then [SetupSetting(data), ReSetupLoadModel]
    else if data.boxRoundness != current.boxRoundness || data.transparent != current.transparent then
      [SetupSetting(data), ReRenderVoxel(data.boxSize, data.boxRoundness, data.transparent)]
    else []
  }

  /** A changed size rebuilds and never also re-renders; an unchanged size with a changed
      roundness or transparency re-renders only; with nothing changed nothing is called.
      So at most one of the two is called, and only when something changed. Each of them
      comes right after a copy of `data` into the settings, and only they follow one. */
  lemma DecisionCases(current: SettingsData, data: SettingsData)
    ensures ReSetupLoadModel in Decision(current, data) <==> data.boxSize != current.boxSize
    ensures (exists a :: a in Decision(current, data) && a.ReRenderVoxel?) <==>
              data.boxSize == current.boxSize &&
              (data.boxRoundness != current.boxRoundness || data.transparent != current.transparent)
    ensures Decision(current, data) == [] <==> data == current
    ensures forall a :: a in Decision(current, data) && a.ReRenderVoxel? ==>
              a == ReRenderVoxel(data.boxSize, data.boxRoundness, data.transparent)
    ensures forall a :: a in Decision(current, data) && a.SetupSetting? ==> a == SetupSetting(data)
    ensures Decision(current, data) == [] ||
            (|Decision(current, data)| == 2 && Decision(current, data)[0] == SetupSetting(data) &&
             !Decision(current, data)[1].SetupSetting?)
  {
    var d := Decision(current, data);
    if d != [] {
      assert d[1] in d;
    }
  }

  /** handleApplySetting, with the 100 ms timeout run to completion. `settings` is the
      loader's ModelSetting (null when no model is loaded). The second comparison reads
      the settings again, after the first branch may already have copied `data` in. */
  method HandleApplySetting(settings: ModelSetting?, data: SettingsData) returns (actions: seq<Action>)
    modifies settings
    ensures settings == null ==> actions == [SetLoaded(false), SetIsModaling(false), SetLoaded(true)]
    ensures settings != null ==>
              actions == [SetLoaded(false), SetIsModaling(false)] + Decision(old(settings.Data()), data) + [SetLoaded(true)]
    ensures settings != null ==>
              settings.Data() == data &&
              settings.sizeLimit == old(settings.sizeLimit)
  {
    actions := [SetLoaded(false), SetIsModaling(false)];
    if settings != null {
      if data.boxSize != settings.Data().boxSize {
        var _ := settings.SetupSetting(data);
        actions := actions + [SetupSetting(settings.Data()), ReSetupLoadModel];
      }
      if data.boxRoundness != settings.Data().boxRoundness || data.transparent != settings.Data().transparent {
        var _ := settings.SetupSetting(data);
        actions := actions + [SetupSetting(settings.Data()),
                              ReRenderVoxel(data.boxSize, data.boxRoundness, data.transparent)];
      }
    }
    actions := actions + [SetLoaded(true)];
  }
}
