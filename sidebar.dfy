/** The dashboard's side navigation: which menu entry is highlighted for
    the current route, the class-list helper it styles itself with, and
    the open/closed state its toggle button flips. */
module Sidebar {
  import opened Optional
  import opened Text

  datatype MenuItem = MenuItem(name: string, href: string)

  /** `menuItems` */
  const MenuItems: seq<MenuItem> := [
    MenuItem("Home", "/home"),
    MenuItem("Create Events", "/create-event"),
    MenuItem("Manage Events", "/manage-events"),
    MenuItem("Artist Request", "/artist-request"),
    MenuItem("Stalls", "/stalls"),
    MenuItem("Analytics", "/analytics")
  ]

  /** `footerItems`, which are never highlighted. */
  const FooterItems: seq<MenuItem> := [MenuItem("Help", "/help"), MenuItem("Feedback", "/feedback")]

  /** An entry is highlighted when the route is its link, or, for any link
      but "/", when the route merely starts with it. A missing route
      highlights nothing. */
  predicate IsActive(pathname: Option<string>, href: string) {
    pathname == Some(href) || (href != "/" && pathname.Some? && StartsWith(pathname.value, href))
  }

  /** Any route that extends a link as a string, not only as a path,
      highlights it. */
  lemma ExtensionIsActive(href: string, ext: string)
    requires href != "/"
    ensures IsActive(Some(href + ext), href)
  {
    assert (href + ext)[..|href|] == href;
  }

  /** No link is highlighted without a route that starts with it. */
  lemma ActiveNeedsPrefix(pathname: Option<string>, href: string)
    requires IsActive(pathname, href)
    ensures pathname.Some? && StartsWith(pathname.value, href)
  {
    if pathname == Some(href) {
      assert pathname.value[..|href|] == href;
    }
  }

  /** The links of the menu start differently within three characters. */
  lemma MenuHeadsDiffer(i: int, j: int)
    requires 0 <= i < |MenuItems| && 0 <= j < |MenuItems| && i != j
    ensures |MenuItems[i].href| >= 3 && |MenuItems[j].href| >= 3
    ensures MenuItems[i].href[..3] != MenuItems[j].href[..3]
  {
    assert MenuItems[0].href[..3] == "/ho";
    assert MenuItems[1].href[..3] == "/cr";
    assert MenuItems[2].href[..3] == "/ma";
    assert MenuItems[3].href[..3] == "/ar";
    assert MenuItems[4].href[..3] == "/st";
    assert MenuItems[5].href[..3] == "/an";
  }

  /** At most one menu entry is highlighted, whatever the route. */
  lemma AtMostOneActive(pathname: Option<string>, i: int, j: int)
    requires 0 <= i < |MenuItems| && 0 <= j < |MenuItems|
    requires IsActive(pathname, MenuItems[i].href) && IsActive(pathname, MenuItems[j].href)
    ensures i == j
  {
    if i != j {
      MenuHeadsDiffer(i, j);
      ActiveNeedsPrefix(pathname, MenuItems[i].href);
      ActiveNeedsPrefix(pathname, MenuItems[j].href);
    }
  }

  // ---------------------------------------------------------------------
  // Class lists.

  /** The non-empty class names, in order (`filter(Boolean)` on strings). */
  function NonEmpty(classes: seq<string>): (r: seq<string>)
    ensures forall i :: 0 <= i < |r| ==> r[i] != []
    ensures forall c :: c in r <==> c in classes && c != []
    ensures |r| <= |classes|
  {
    if classes == [] then []
    else
      var rest := NonEmpty(classes[1..]);
      assert forall c :: c in classes <==> c == classes[0] || c in classes[1..];
      (if classes[0] == [] then [] else [classes[0]]) + rest
  }

  /** `classNames(...classes)` */
  function ClassNames(classes: seq<string>): (s: string)
  {
    Join(NonEmpty(classes), " ")
  }

  /** With single class names, the class attribute splits back into them,
      empty names dropped. */
  lemma ClassNamesSplit(classes: seq<string>)
    requires forall i :: 0 <= i < |classes| ==> ' ' !in classes[i]
    requires exists i :: 0 <= i < |classes| && classes[i] != []
    ensures Split(ClassNames(classes), ' ') == NonEmpty(classes)
  {
    var r := NonEmpty(classes);
    var i :| 0 <= i < |classes| && classes[i] != [];
    assert classes[i] in r;
    forall k | 0 <= k < |r|
      ensures ' ' !in r[k]
    {
      assert r[k] in classes;
    }
    JoinSplit(r, ' ');
  }

  /** An empty name adds nothing, and two names are joined by one space. */
  lemma ClassNamesPair(a: string, b: string)
    requires a != [] && b != []
    ensures ClassNames([a, b]) == a + " " + b
    ensures ClassNames([a, ""]) == a && ClassNames(["", b]) == b
  {
    assert [a, b][1..] == [b];
    assert [a, ""][1..] == [""];
    assert ["", b][1..] == [b];
    assert NonEmpty([b]) == [b];
    assert NonEmpty([""]) == [];
    assert NonEmpty([a, b]) == [a] + [b] == [a, b];
    assert [a, b][1..] == [b];
    assert Join([a, b], " ") == a + " " + Join([b], " ");
  }

  // ---------------------------------------------------------------------
  // Open and closed.

  /** The toggle button: `setIsOpen(!isOpen)`. */
  function Toggled(isOpen: bool): (r: bool)
    ensures r != isOpen
  {
    !isOpen
  }

  /** The width class of the wide-screen sidebar. */
  function WidthClass(isOpen: bool): (c: string)
    ensures isOpen <==> c == "w-[260px]"
    ensures !isOpen ==> c == "w-[80px]"
  {
    if isOpen then "w-[260px]" else "w-[80px]"
  }

  /** The class of an entry's label: hidden while closed. */
  function LabelVisibility(isOpen: bool): (c: string)
    ensures isOpen <==> c == "opacity-100"
    ensures !isOpen ==> c == "opacity-0 w-0 overflow-hidden"
  {
    if isOpen then "opacity-100" else "opacity-0 w-0 overflow-hidden"
  }

  /** Toggling changes the width class, and toggling twice restores it. */
  lemma ToggleWidth(isOpen: bool)
    ensures WidthClass(Toggled(isOpen)) != WidthClass(isOpen)
    ensures WidthClass(Toggled(Toggled(isOpen))) == WidthClass(isOpen)
  {
  }
}
