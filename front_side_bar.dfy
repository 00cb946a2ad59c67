// The application side bar (src/frontend/components/sideBar/SideBar.js): the
// menu tree lookup and the handlers that open the slider, expand sub-menus,
// route a leaf click and follow the window width. Icons are names; the
// router and `signOut` are effects the click handler returns.

module FrontSideBar {
  import opened Js

  /** A menu entry; an entry without `children` has an empty list. */
  datatype MenuItem = MenuItem(id: string, title: string, icon: Option<string>, children: seq<MenuItem>)

  /** The tree in pre-order: each item, then its children's trees, then its later siblings. */
  function Preorder(items: seq<MenuItem>): (r: seq<MenuItem>)
    ensures |items| > 0 ==> |r| > 0 && r[0] == items[0]
    decreases items
  {
    if |items| == 0 then [] else [items[0]] + Preorder(items[0].children) + Preorder(items[1..])
  }

  lemma {:induction false} PreorderAppend(a: seq<MenuItem>, b: seq<MenuItem>)
    ensures Preorder(a + b) == Preorder(a) + Preorder(b)
    decreases a
  {
    if |a| == 0 {
      assert a + b == b;
    } else {
      assert (a + b)[0] == a[0];
      assert (a + b)[1..] == a[1..] + b;
      PreorderAppend(a[1..], b);
    }
  }

  /** The first item of a list with the given id. */
  function FirstWithId(xs: seq<MenuItem>, id: string): (r: Option<MenuItem>)
    ensures r.Some? ==> r.value.id == id && r.value in xs
    ensures r.None? <==> forall i :: 0 <= i < |xs| ==> xs[i].id != id
    decreases |xs|
  {
    if |xs| == 0 then None
    else if xs[0].id == id then Some(xs[0])
    else
      assert forall i :: 1 <= i < |xs| ==> xs[i] == xs[1..][i - 1];
      FirstWithId(xs[1..], id)
  }

  /** The item found is the one at the first position holding the id. */
  lemma {:induction false} FirstWithIdIsFirst(xs: seq<MenuItem>, id: string)
    requires FirstWithId(xs, id).Some?
    ensures exists i :: 0 <= i < |xs| && xs[i] == FirstWithId(xs, id).value && forall j :: 0 <= j < i ==> xs[j].id != id
    decreases |xs|
  {
    if xs[0].id != id {
      FirstWithIdIsFirst(xs[1..], id);
      var i :| 0 <= i < |xs[1..]| && xs[1..][i] == FirstWithId(xs[1..], id).value && forall j :: 0 <= j < i ==> xs[1..][j].id != id;
      assert xs[i + 1] == FirstWithId(xs, id).value;
      assert forall j :: 0 <= j < i + 1 ==> xs[j].id != id by {
        assert forall j :: 1 <= j < i + 1 ==> xs[j] == xs[1..][j - 1];
      }
    } else {
      assert xs[0] == FirstWithId(xs, id).value;
    }
  }

  lemma {:induction false} FirstWithIdAppend(a: seq<MenuItem>, b: seq<MenuItem>, id: string)
    ensures FirstWithId(a + b, id) == if FirstWithId(a, id).Some? then FirstWithId(a, id) else FirstWithId(b, id)
    decreases |a|
  {
    if |a| == 0 {
      assert a + b == b;
    } else {
      assert (a + b)[1..] == a[1..] + b;
      FirstWithIdAppend(a[1..], b, id);
    }
  }

  /** `findItemById(items, id)`: a depth-first search that returns the first match in pre-order, or null. */
  method FindItemById(items: seq<MenuItem>, id: string) returns (found: Option<MenuItem>)
    ensures found == FirstWithId(Preorder(items), id)
    decreases items
  {
    var i := 0;
    while i < |items|
      invariant 0 <= i <= |items|
      invariant FirstWithId(Preorder(items[..i]), id).None?
    {
      var item := items[i];
      assert Preorder(items[..i + 1]) == Preorder(items[..i]) + ([item] + Preorder(item.children)) by {
        assert items[..i + 1] == items[..i] + [item];
        PreorderAppend(items[..i], [item]);
        assert [item][1..] == [];
      }
      FirstWithIdAppend(Preorder(items[..i]), [item] + Preorder(item.children), id);
      FirstWithIdAppend([item], Preorder(item.children), id);
      if item.id == id {
        PrefixDecides(items, i, id);
        return Some(item);
      }
      var sub := FindItemById(item.children, id);
      if sub.Some? {
        PrefixDecides(items, i, id);
        return sub;
      }
      i := i + 1;
    }
    assert items[..i] == items;
    return None;
  }

  /** When the first `i + 1` trees hold a match, the whole list's first match is theirs. */
  lemma PrefixDecides(items: seq<MenuItem>, i: nat, id: string)
    requires i < |items|
    requires FirstWithId(Preorder(items[..i + 1]), id).Some?
    ensures FirstWithId(Preorder(items), id) == FirstWithId(Preorder(items[..i + 1]), id)
  {
    assert items == items[..i + 1] + items[i + 1..];
    PreorderAppend(items[..i + 1], items[i + 1..]);
    FirstWithIdAppend(Preorder(items[..i + 1]), Preorder(items[i + 1..]), id);
  }

  /** The menu of the application. */
  const Menu: seq<MenuItem> := [
    MenuItem("home", "Home", Some("FaHome"), [
      MenuItem("dashboard", "Dashboard", Some("FaTachometerAlt"), []),
      MenuItem("reports", "Reports", Some("FaChartBar"), [])]),
    MenuItem("users", "Usuários", Some("FaUsers"), [
      MenuItem("all_users", "Listar usuários", Some("FaUserFriends"), [])])]

  /** What a click asks of the router or of next-auth. */
  datatype Effect = NoEffect | Navigate(url: string) | SignOut

  /** The route of a leaf click; `edit_profile` needs the session's user id. */
  function LeafEffect(itemId: string, sessionUserId: Option<string>): (e: Effect)
    ensures itemId == "dashboard" ==> e == Navigate("/dashboard")
    ensures itemId == "reports" ==> e == Navigate("/reports")
    ensures itemId == "all_users" ==> e == Navigate("/users/list")
    ensures itemId == "edit_profile" ==>
      (sessionUserId.Some? && sessionUserId.value != "" ==> e == Navigate("/user/register?userId=" + sessionUserId.value))
      && (!(sessionUserId.Some? && sessionUserId.value != "") ==> e == NoEffect)
    ensures itemId == "logout" ==> e == SignOut
    ensures itemId !in {"dashboard", "reports", "all_users", "edit_profile", "logout"} ==> e == NoEffect
  {
    if itemId == "edit_profile" then
      if sessionUserId.Some? && sessionUserId.value != "" then Navigate("/user/register?userId=" + sessionUserId.value) else NoEffect
    else if itemId == "logout" then SignOut
    else if itemId == "dashboard" then Navigate("/dashboard")
    else if itemId == "reports" then Navigate("/reports")
    else if itemId == "all_users" then Navigate("/users/list")
    else NoEffect
  }

  /** `prev[itemId]` read as a boolean: a missing key is undefined, which is falsy. */
  function Expanded(expanded: map<string, bool>, itemId: string): bool
  {
    itemId in expanded && expanded[itemId]
  }

  class SideBarState {
    var openSliderBar: Option<string>
    var openSideBar: bool
    var currentMenuTitle: string
    var currentMenuIcon: Option<string>
    var expandedItems: map<string, bool>

    constructor()
      ensures openSliderBar.None? && openSideBar && currentMenuTitle == "" && currentMenuIcon.None? && expandedItems == map[]
    {
      openSliderBar, openSideBar, currentMenuTitle, currentMenuIcon, expandedItems := None, true, "", None, map[];
    }

    /** The resize handler: below 768 pixels the bar closes and the slider is cleared; from 768 it opens. */
    method HandleResize(innerWidth: int)
      modifies this
      ensures openSideBar == (innerWidth >= 768)
      ensures old(openSideBar) && innerWidth < 768 ==> openSliderBar.None? && currentMenuTitle == "" && currentMenuIcon.None?
      ensures !(old(openSideBar) && innerWidth < 768) ==>
        openSliderBar == old(openSliderBar) && currentMenuTitle == old(currentMenuTitle) && currentMenuIcon == old(currentMenuIcon)
      ensures expandedItems == old(expandedItems)
    {
      var shouldBeOpen := !(innerWidth < 768);
      if openSideBar != shouldBeOpen {
        if !shouldBeOpen {
          openSliderBar, currentMenuTitle, currentMenuIcon := None, "", None;
        }
        openSideBar := shouldBeOpen;
      }
    }

    /** `handleMenuClick` */
    method HandleMenuClick()
      modifies this
      ensures !openSideBar && openSliderBar.None? && currentMenuTitle == "" && currentMenuIcon.None?
      ensures expandedItems == old(expandedItems)
    {
      openSideBar, openSliderBar, currentMenuTitle, currentMenuIcon := false, None, "", None;
    }

    /**
     * `handleSubItemClick`: the item is looked up among the children of the
     * menu whose slider is open; a missing item changes nothing, an item
     * with children flips its expansion, and a leaf is routed and closes
     * the slider.
     */
    method HandleSubItemClick(menu: seq<MenuItem>, itemId: string, sessionUserId: Option<string>) returns (effect: Effect)
      modifies this
      ensures var parent := if old(openSliderBar).Some? then FirstWithId(menu, old(openSliderBar).value) else None;
        var item := FirstWithId(Preorder(if parent.Some? then parent.value.children else []), itemId);
        (item.None? ==> effect == NoEffect && openSliderBar == old(openSliderBar)
                        && currentMenuTitle == old(currentMenuTitle) && currentMenuIcon == old(currentMenuIcon)
                        && expandedItems == old(expandedItems))
        && (item.Some? && |item.value.children| > 0 ==>
              effect == NoEffect && expandedItems == old(expandedItems)[itemId := !Expanded(old(expandedItems), itemId)]
              && openSliderBar == old(openSliderBar) && currentMenuTitle == old(currentMenuTitle) && currentMenuIcon == old(currentMenuIcon))
        && (item.Some? && |item.value.children| == 0 ==>
              effect == LeafEffect(itemId, sessionUserId) && expandedItems == old(expandedItems)
              && openSliderBar.None? && currentMenuTitle == "" && currentMenuIcon.None?)
      ensures openSideBar == old(openSideBar)
    {
      var parent := if openSliderBar.Some? then FirstWithId(menu, openSliderBar.value) else None;
      var item := FindItemById(if parent.Some? then parent.value.children else [], itemId);
      effect := NoEffect;
      if item.None? {
        return;
      }
      if |item.value.children| > 0 {
        expandedItems := expandedItems[itemId := !Expanded(expandedItems, itemId)];
      } else {
        effect := LeafEffect(itemId, sessionUserId);
        openSliderBar, currentMenuTitle, currentMenuIcon := None, "", None;
      }
    }

    /** `handleMenuItemMouseEnter`: ignored while the bar is closed; otherwise opens that slider and collapses everything. */
    method HandleMenuItemMouseEnter(menu: seq<MenuItem>, itemId: string)
      modifies this
      ensures !old(openSideBar) ==>
        openSliderBar == old(openSliderBar) && currentMenuTitle == old(currentMenuTitle)
        && currentMenuIcon == old(currentMenuIcon) && expandedItems == old(expandedItems)
      ensures old(openSideBar) ==>
        openSliderBar == Some(itemId) && expandedItems == map[]
        && (itemId == "settings" ==> currentMenuTitle == "Configurações" && currentMenuIcon == Some("FaCog"))
        && (itemId != "settings" && FirstWithId(menu, itemId).Some? ==>
              currentMenuTitle == FirstWithId(menu, itemId).value.title && currentMenuIcon == FirstWithId(menu, itemId).value.icon)
        && (itemId != "settings" && FirstWithId(menu, itemId).None? ==> currentMenuTitle == "" && currentMenuIcon.None?)
      ensures openSideBar == old(openSideBar)
    {
      if openSideBar {
        openSliderBar := Some(itemId);
        if itemId == "settings" {
          currentMenuTitle, currentMenuIcon := "Configurações", Some("FaCog");
        } else {
          var item := FirstWithId(menu, itemId);
          currentMenuTitle := if item.Some? then item.value.title else "";
          currentMenuIcon := if item.Some? then item.value.icon else None;
        }
        expandedItems := map[];
      }
    }

    /** `handleSliderBarMouseLeave` */
    method HandleSliderBarMouseLeave()
      modifies this
      ensures openSliderBar.None? && currentMenuTitle == "" && currentMenuIcon.None?
      ensures openSideBar == old(openSideBar) && expandedItems == old(expandedItems)
    {
      openSliderBar, currentMenuTitle, currentMenuIcon := None, "", None;
    }

    /**
     * `handleMenuItemMouseLeave`: leaving an item for a node inside the
     * slider keeps it open; leaving for anywhere else clears it.
     * `intoSliderBar` is the DOM containment test.
     */
    method HandleMenuItemMouseLeave(intoSliderBar: bool)
      modifies this
      ensures intoSliderBar ==> openSliderBar == old(openSliderBar) && currentMenuTitle == old(currentMenuTitle) && currentMenuIcon == old(currentMenuIcon)
      ensures !intoSliderBar ==> openSliderBar.None? && currentMenuTitle == "" && currentMenuIcon.None?
      ensures openSideBar == old(openSideBar) && expandedItems == old(expandedItems)
    {
      if intoSliderBar {
        return;
      }
      openSliderBar, currentMenuTitle, currentMenuIcon := None, "", None;
    }
  }

  /** In the application's menu, the "all_users" entry is found under "users" and routes to the user list. */
  lemma AllUsersRoute()
    ensures FirstWithId(Preorder(Menu[1].children), "all_users").Some?
    ensures LeafEffect("all_users", None) == Navigate("/users/list")
  {
    assert Preorder(Menu[1].children)[0] == Menu[1].children[0];
  }
}
