// The older side bar (src/components/sideBar/SideBar.js): the list of open
// sub-items, the bar toggle and the hover handlers of the menu and of the
// sub-menu drawer. `openSideBar` and `openSliderBar` live in the side-bar
// context; here they are fields of the same state.

module OldSideBar {
  import opened Js

  class SideBarState {
    var openSideBar: bool
    var openSliderBar: Option<string>
    var isHovering: bool
    var openSubItems: seq<string>

    constructor(openSideBar0: bool)
      ensures openSideBar == openSideBar0 && openSliderBar.None? && !isHovering && openSubItems == []
    {
      openSideBar, openSliderBar, isHovering, openSubItems := openSideBar0, None, false, [];
    }

    /** `toggleSubItem`: an open id is removed, a closed one appended at the end. */
    method ToggleSubItem(id: string)
      modifies this
      ensures openSubItems == ToggleMember(old(openSubItems), id)
      ensures id in openSubItems <==> id !in old(openSubItems)
      ensures id !in old(openSubItems) ==> openSubItems == old(openSubItems) + [id]
      ensures openSideBar == old(openSideBar) && openSliderBar == old(openSliderBar) && isHovering == old(isHovering)
    {
      openSubItems := if id in openSubItems then Filter(openSubItems, (item: string) => item != id) else openSubItems + [id];
      FilterIsRemoveAll(old(openSubItems), id);
    }

    /** `toggleSidebar` */
    method ToggleSidebar()
      modifies this
      ensures openSideBar == !old(openSideBar) && openSliderBar.None?
      ensures isHovering == old(isHovering) && openSubItems == old(openSubItems)
    {
      openSideBar := !openSideBar;
      openSliderBar := None;
    }

    /** Hovering a menu item: an item with children opens its slider, any other item closes it. */
    method MenuItemMouseEnter(itemId: string, childCount: nat)
      modifies this
      ensures childCount > 0 ==> openSliderBar == Some(itemId)
      ensures childCount == 0 ==> openSliderBar.None?
      ensures openSideBar == old(openSideBar) && isHovering == old(isHovering) && openSubItems == old(openSubItems)
    {
      openSliderBar := if childCount > 0 then Some(itemId) else None;
    }

    /** Entering the sub-menu drawer. */
    method SubmenuMouseEnter()
      modifies this
      ensures isHovering
      ensures openSideBar == old(openSideBar) && openSliderBar == old(openSliderBar) && openSubItems == old(openSubItems)
    {
      isHovering := true;
    }

    /** Leaving the sub-menu drawer closes it. */
    method SubmenuMouseLeave()
      modifies this
      ensures !isHovering && openSliderBar.None?
      ensures openSideBar == old(openSideBar) && openSubItems == old(openSubItems)
    {
      isHovering := false;
      openSliderBar := None;
    }
  }

  /** `prev.filter((item) => item !== id)` removes every copy of `id` and nothing else. */
  lemma {:induction false} FilterIsRemoveAll(xs: seq<string>, id: string)
    ensures Filter(xs, (item: string) => item != id) == RemoveAll(xs, id)
    decreases |xs|
  {
    if |xs| > 0 {
      FilterIsRemoveAll(xs[1..], id);
    }
  }
}
