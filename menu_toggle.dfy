/** The checkbox toggle rule shared by the two visibility menus of the tool side bar
    (src/components/Viewer/ToolSideBar/ShowHideVoxel/index.tsx and
    src/components/Viewer/ToolSideBar/ElementShow/index.tsx, whose handleOnChangeShow
    bodies are the same). A menu is a list of checkbox items; the item with id "all"
    stands for every other item. */
module MenuToggle {

  const AllId: string := "all"

  datatype MenuItem = MenuItem(id: string, name: string, isShow: bool)

  /** What handleOnChangeShow's map does to one item when checkbox `id` is set to
      `status`. */
  function ToggleItem(item: MenuItem, id: string, status: bool): (r: MenuItem) {
    if id != AllId && !status && item.id == AllId then item.(isShow := false)
    else if item.id == id || id == AllId then item.(isShow := status)
    else item
  }

  /** handleOnChangeShow: toggling "all" sets every item; unchecking another item also
      unchecks "all"; checking another item leaves "all" as it was; every item other
      than the toggled one and "all" is kept as it was; the list keeps its length, order,
      ids and names. */
  function HandleOnChangeShow(menu: seq<MenuItem>, id: string, status: bool): (r: seq<MenuItem>)
    ensures |r| == |menu|
    ensures forall k :: 0 <= k < |menu| ==> r[k].id == menu[k].id && r[k].name == menu[k].name
    ensures id == AllId ==> forall k :: 0 <= k < |menu| ==> r[k].isShow == status
    ensures id != AllId ==> forall k :: 0 <= k < |menu| && menu[k].id == id ==> r[k].isShow == status
    ensures id != AllId && !status ==> forall k :: 0 <= k < |menu| && menu[k].id == AllId ==> !r[k].isShow
    ensures id != AllId && status ==> forall k :: 0 <= k < |menu| && menu[k].id == AllId ==> r[k] == menu[k]
    ensures forall k :: 0 <= k < |menu| && menu[k].id != id && menu[k].id != AllId && id != AllId ==>
              r[k] == menu[k]
  {
    seq(|menu|, k requires 0 <= k < |menu| => ToggleItem(menu[k], id, status))
  }

  /** Repeating a toggle changes nothing more. */
  lemma ToggleIdempotent(menu: seq<MenuItem>, id: string, status: bool)
    ensures HandleOnChangeShow(HandleOnChangeShow(menu, id, status), id, status) == HandleOnChangeShow(menu, id, status)
  {
    var once := HandleOnChangeShow(menu, id, status);
    var twice := HandleOnChangeShow(once, id, status);
    forall k | 0 <= k < |menu|
      ensures twice[k] == once[k]
    {
      assert once[k] == ToggleItem(menu[k], id, status);
    }
  }

  /** Unchecking an item and checking it again restores it, but leaves "all" unchecked:
      "all" is never turned back on implicitly. */
  lemma UncheckThenCheck(menu: seq<MenuItem>, id: string)
    requires id != AllId
    ensures var r := HandleOnChangeShow(HandleOnChangeShow(menu, id, false), id, true);
            |r| == |menu| &&
            (forall k :: 0 <= k < |menu| && menu[k].id == id ==> r[k] == menu[k].(isShow := true)) &&
            (forall k :: 0 <= k < |menu| && menu[k].id == AllId ==> r[k] == menu[k].(isShow := false)) &&
            (forall k :: 0 <= k < |menu| && menu[k].id != id && menu[k].id != AllId ==> r[k] == menu[k])
  {
    var once := HandleOnChangeShow(menu, id, false);
    var r := HandleOnChangeShow(once, id, true);
    forall k | 0 <= k < |menu| && menu[k].id == AllId
      ensures r[k] == menu[k].(isShow := false)
    {
      assert once[k] == ToggleItem(menu[k], id, false);
    }
  }

  /** The menu with every item's visibility set to `isShow`. */
  function SetAll(menu: seq<MenuItem>, isShow: bool): (r: seq<MenuItem>)
    ensures |r| == |menu|
    ensures forall k :: 0 <= k < |menu| ==> r[k] == menu[k].(isShow := isShow)
  {
    seq(|menu|, k requires 0 <= k < |menu| => menu[k].(isShow := isShow))
  }

  /** Toggling "all" is the same as setting every item. */
  lemma ToggleAllIsSetAll(menu: seq<MenuItem>, status: bool)
    ensures HandleOnChangeShow(menu, AllId, status) == SetAll(menu, status)
  {
  }
}
