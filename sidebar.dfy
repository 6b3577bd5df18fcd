/** The `Sidebar`: which menu entry is highlighted for the current path, and the open
    flags of its three dropdowns. */
module Sidebar {
  import opened Text

  datatype SubItem = SubItem(path: string, caption: string)

  /** A menu entry (`caption` is its `label`); `subItems` is `None` for the plain links. */
  datatype MenuItem = MenuItem(path: string, caption: string, hasDropdown: bool, isOpen: bool,
                               subItems: Option<seq<SubItem>>)

  /** The `homeSlidesOpen`, `productsOpen` and `categoriesOpen` state. */
  datatype Dropdowns = Dropdowns(homeSlidesOpen: bool, productsOpen: bool, categoriesOpen: bool)

  const HOME_SLIDES: nat := 1
  const PRODUCTS: nat := 3
  const CATEGORIES: nat := 4

  /** `menuItems`, as built on each render from the open flags. */
  function MenuItems(d: Dropdowns): (items: seq<MenuItem>)
    ensures |items| == 7
    ensures items[HOME_SLIDES].isOpen == d.homeSlidesOpen && items[PRODUCTS].isOpen == d.productsOpen
    ensures items[CATEGORIES].isOpen == d.categoriesOpen
    ensures forall i :: 0 <= i < 7 ==> (items[i].hasDropdown <==> i in {HOME_SLIDES, PRODUCTS, CATEGORIES})
  {
    [MenuItem("/", "Dashboard", false, false, None),
     MenuItem("/home-slides", "Home Slides", true, d.homeSlidesOpen,
              Some([SubItem("/home-slides/list", "Home Banners Slides List"),
                    SubItem("/home-slides/add", "Add Home Banner Slide")])),
     MenuItem("/customers", "Users", false, false, None),
     MenuItem("/products", "Products", true, d.productsOpen,
              Some([SubItem("/products/list", "Product List"), SubItem("/products/upload", "Product Upload")])),
     MenuItem("/categories", "Categories", true, d.categoriesOpen,
              Some([SubItem("/categories/list", "Category List"), SubItem("/categories/add", "Add a Category"),
                    SubItem("/categories/sub-list", "Sub Category List"),
                    SubItem("/categories/sub-add", "Add a Sub Category")])),
     MenuItem("/orders", "Orders", false, false, None),
     MenuItem("/logout", "Logout", false, false, None)]
  }

  /** `isActive(path)`: an exact comparison with the pathname. */
  predicate IsActive(pathname: string, path: string)
  {
    pathname == path
  }

  /** `subItems.some(subItem => pathname === subItem.path)`. */
  predicate SomeSubItemActive(pathname: string, subs: seq<SubItem>)
    decreases |subs|
  {
    subs != [] && (IsActive(pathname, subs[0].path) || SomeSubItemActive(pathname, subs[1..]))
  }

  /** `isParentActive(item)`. */
  predicate IsParentActive(pathname: string, item: MenuItem)
  {
    item.subItems.Some? && SomeSubItemActive(pathname, item.subItems.value)
  }

  lemma {:induction false} ParentActiveIff(pathname: string, item: MenuItem)
    ensures IsParentActive(pathname, item) <==>
              item.subItems.Some? && exists i :: 0 <= i < |item.subItems.value| && item.subItems.value[i].path == pathname
  {
    if item.subItems.Some? {
      SomeActiveIff(pathname, item.subItems.value);
    }
  }

  lemma {:induction false} SomeActiveIff(pathname: string, subs: seq<SubItem>)
    ensures SomeSubItemActive(pathname, subs) <==> exists i :: 0 <= i < |subs| && subs[i].path == pathname
    decreases |subs|
  {
    if subs != [] {
      SomeActiveIff(pathname, subs[1..]);
      if exists i :: 0 <= i < |subs| && subs[i].path == pathname {
        var i :| 0 <= i < |subs| && subs[i].path == pathname;
        if i > 0 {
          assert subs[1..][i - 1] == subs[i];
        }
      }
      if SomeSubItemActive(pathname, subs[1..]) {
        var i :| 0 <= i < |subs[1..]| && subs[1..][i].path == pathname;
        assert subs[i + 1].path == pathname;
      }
    }
  }

  /** Whether an entry is drawn highlighted: a dropdown when its own path or one of its
      sub-paths is current, a link when its path is. */
  predicate Highlighted(pathname: string, item: MenuItem)
  {
    if item.hasDropdown then IsActive(pathname, item.path) || IsParentActive(pathname, item)
    else IsActive(pathname, item.path)
  }

  /** `onClick={() => isOpen && item.setIsOpen(!item.isOpen)}`: a dropdown opens or closes
      only while the sidebar is expanded. */
  function ClickDropdown(d: Dropdowns, sidebarOpen: bool, index: nat): (r: Dropdowns)
    ensures !sidebarOpen ==> r == d
    ensures sidebarOpen && index == HOME_SLIDES ==> r == d.(homeSlidesOpen := !d.homeSlidesOpen)
    ensures sidebarOpen && index == PRODUCTS ==> r == d.(productsOpen := !d.productsOpen)
    ensures sidebarOpen && index == CATEGORIES ==> r == d.(categoriesOpen := !d.categoriesOpen)
    ensures index !in {HOME_SLIDES, PRODUCTS, CATEGORIES} ==> r == d
  {
    if !sidebarOpen then d
    else if index == HOME_SLIDES then d.(homeSlidesOpen := !d.homeSlidesOpen)
    else if index == PRODUCTS then d.(productsOpen := !d.productsOpen)
    else if index == CATEGORIES then d.(categoriesOpen := !d.categoriesOpen)
    else d
  }

  /** `item.hasDropdown && isOpen && item.isOpen`. */
  predicate SubmenuVisible(item: MenuItem, sidebarOpen: bool)
  {
    item.hasDropdown && sidebarOpen && item.isOpen
  }

  /** While the sidebar is collapsed no submenu shows, clicked or not; while it is
      expanded a click on a dropdown flips its submenu. No other entry's flag changes. */
  lemma ClickShowsOrHides(d: Dropdowns, sidebarOpen: bool, index: nat, other: nat)
    requires index < 7 && other < 7 && other != index
    ensures !sidebarOpen ==> !SubmenuVisible(MenuItems(ClickDropdown(d, sidebarOpen, index))[index], sidebarOpen)
    ensures sidebarOpen && MenuItems(d)[index].hasDropdown ==>
              SubmenuVisible(MenuItems(ClickDropdown(d, sidebarOpen, index))[index], sidebarOpen)
              != SubmenuVisible(MenuItems(d)[index], sidebarOpen)
    ensures MenuItems(ClickDropdown(d, sidebarOpen, index))[other].isOpen == MenuItems(d)[other].isOpen
  {
  }

  /** The entry a path belongs to: the menu's paths are told apart by their length and
      their second character. */
  ghost function EntryOf(p: string): nat
  {
    if |p| <= 1 then 0
    else if p[1] == 'h' then HOME_SLIDES
    else if p[1] == 'c' then (if |p| == 10 then 2 else CATEGORIES)
    else if p[1] == 'p' then PRODUCTS
    else if p[1] == 'o' then 5
    else 6
  }

  /** Every path and sub-path of entry `i` belongs to entry `i`. */
  lemma MenuEntries(d: Dropdowns)
    ensures forall i :: 0 <= i < 7 ==> EntryOf(MenuItems(d)[i].path) == i
    ensures forall i, k :: 0 <= i < 7 && MenuItems(d)[i].subItems.Some? && 0 <= k < |MenuItems(d)[i].subItems.value| ==>
              EntryOf(MenuItems(d)[i].subItems.value[k].path) == i
  {
    var items := MenuItems(d);
    assert EntryOf(items[0].path) == 0 && EntryOf(items[2].path) == 2;
    assert EntryOf(items[5].path) == 5 && EntryOf(items[6].path) == 6;
    assert forall k :: 0 <= k < 2 ==> EntryOf(items[HOME_SLIDES].subItems.value[k].path) == HOME_SLIDES;
    assert forall k :: 0 <= k < 2 ==> EntryOf(items[PRODUCTS].subItems.value[k].path) == PRODUCTS;
    assert forall k :: 0 <= k < 4 ==> EntryOf(items[CATEGORIES].subItems.value[k].path) == CATEGORIES;
  }

  /** Only the entry a path belongs to can be highlighted for it. */
  lemma HighlightedEntry(d: Dropdowns, pathname: string, i: nat)
    requires i < 7
    ensures Highlighted(pathname, MenuItems(d)[i]) ==> EntryOf(pathname) == i
  {
    var item := MenuItems(d)[i];
    MenuEntries(d);
    ParentActiveIff(pathname, item);
    if Highlighted(pathname, item) && !IsActive(pathname, item.path) {
      var k :| 0 <= k < |item.subItems.value| && item.subItems.value[k].path == pathname;
    }
  }

  /** The menu's paths and sub-paths are all different, so for any pathname at most one
      entry is highlighted. */
  lemma AtMostOneHighlighted(d: Dropdowns, pathname: string, i: nat, j: nat)
    requires i < j < 7
    ensures !(Highlighted(pathname, MenuItems(d)[i]) && Highlighted(pathname, MenuItems(d)[j]))
  {
    HighlightedEntry(d, pathname, i);
    HighlightedEntry(d, pathname, j);
  }
}
