/** The `Sidebar` component: the collapse toggle, the exact-match active
    rule for the nine navigation links, and which parts of each link are
    rendered. */
module Sidebar {

  datatype NavItem = NavItem(name: string, href: string)

  /** `navigationItems`, without their icons. */
  const NavItems: seq<NavItem> := [
    NavItem("Dashboard", "/"),
    NavItem("Robotic Arm Control", "/robotic-arm-control"),
    NavItem("Digital Testing", "/digital-testing"),
    NavItem("Engine Assembly", "/engine-assembly"),
    NavItem("Drones & Aircraft", "/drones-aircraft"),
    NavItem("Inventory", "/inventory"),
    NavItem("Alerts & Logs", "/alerts-logs"),
    NavItem("AI Insights", "/ai-insights"),
    NavItem("System Configurations", "/system-configurations")
  ]

  /** `useState(true)`: the sidebar starts collapsed. */
  const InitiallyCollapsed := true

  /** The collapse button's handler. */
  function ToggleCollapsed(collapsed: bool): (r: bool)
    ensures r != collapsed
  {
    !collapsed
  }

  /** Two clicks restore the sidebar. */
  lemma ToggleTwice(collapsed: bool)
    ensures ToggleCollapsed(ToggleCollapsed(collapsed)) == collapsed
  {
  }

  /** A link is active only when the path is exactly its target: "/" is not
      active on "/inventory", nor "/inventory" on "/inventory/". */
  predicate IsActive(pathname: string, href: string) {
    pathname == href
  }

  lemma NoPrefixMatching()
    ensures !IsActive("/inventory", "/")
    ensures !IsActive("/inventory/", "/inventory")
    ensures IsActive("/inventory", "/inventory")
  {
    assert "/inventory"[1] != "/"[0] || |"/inventory"| != |"/"|;
  }

  /** The parts of one rendered link. */
  datatype LinkView = LinkView(
    name: string,
    active: bool,
    inlineLabel: bool,
    tooltip: bool,
    activeBar: bool)

  function RenderLink(item: NavItem, pathname: string, collapsed: bool): (v: LinkView)
    ensures v.inlineLabel != v.tooltip
    ensures v.inlineLabel <==> !collapsed
    ensures v.activeBar <==> v.active && !collapsed
    ensures v.active <==> pathname == item.href
  {
    var active := IsActive(pathname, item.href);
    LinkView(item.name, active, !collapsed, collapsed, active && !collapsed)
  }

  /** The navigation list, one link per item in order. */
  function RenderNav(items: seq<NavItem>, pathname: string, collapsed: bool): (r: seq<LinkView>)
    ensures |r| == |items|
    ensures forall i :: 0 <= i < |items| ==> r[i] == RenderLink(items[i], pathname, collapsed)
  {
    seq(|items|, i requires 0 <= i < |items| => RenderLink(items[i], pathname, collapsed))
  }

  /** No two items share a target. */
  ghost predicate DistinctTargets(items: seq<NavItem>) {
    forall i, j :: 0 <= i < j < |items| ==> items[i].href != items[j].href
  }

  /** With distinct targets at most one link is active, whatever the path. */
  lemma AtMostOneActive(items: seq<NavItem>, pathname: string, collapsed: bool, i: int, j: int)
    requires DistinctTargets(items)
    requires 0 <= i < |items| && 0 <= j < |items|
    requires RenderNav(items, pathname, collapsed)[i].active
    requires RenderNav(items, pathname, collapsed)[j].active
    ensures i == j
  {
    var r := RenderNav(items, pathname, collapsed);
    assert r[i] == RenderLink(items[i], pathname, collapsed);
    assert r[j] == RenderLink(items[j], pathname, collapsed);
  }

  /** The nine targets are pairwise different, so at most one link of the
      real sidebar is ever active. */
  lemma NavTargetsDistinct()
    ensures DistinctTargets(NavItems)
  {
    forall i, j | 0 <= i < j < |NavItems|
      ensures NavItems[i].href != NavItems[j].href
    {
      var a, b := NavItems[i].href, NavItems[j].href;
      assert |a| != |b| || a[1] != b[1] || a[2] != b[2];
    }
  }

  /** The sidebar frame: width, brand title and chevron. */
  datatype FrameView = FrameView(width: string, brandTitle: bool, chevronRight: bool)

  function RenderFrame(collapsed: bool): (v: FrameView)
    ensures v.width == "w-16" <==> collapsed
    ensures v.width == "w-64" <==> !collapsed
    ensures v.brandTitle <==> !collapsed
    ensures v.chevronRight <==> collapsed
  {
    FrameView(if collapsed then "w-16" else "w-64", !collapsed, collapsed)
  }

  /** On first render the sidebar is narrow, shows tooltips instead of
      labels, points its chevron right, and draws no active bar. */
  lemma InitialSidebar(pathname: string)
    ensures RenderFrame(InitiallyCollapsed) == FrameView("w-16", false, true)
    ensures forall v :: v in RenderNav(NavItems, pathname, InitiallyCollapsed) ==>
      v.tooltip && !v.inlineLabel && !v.activeBar
  {
  }
}
