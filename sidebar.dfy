/** The navigation sidebar (components/Sidebar.tsx): the closed set of
    top-level views, the table of navigation items, and which item is
    highlighted. The sidebar holds no state of its own; a click forwards the
    item's view to the `setActiveView` callback it is given. */
module Sidebar {

  /** The `View` union type: exactly five identifiers. */
  datatype View = Dashboard | CreativeStudio | ResearchHub | StrategyEngine | SynthesisCore

  /** Every view, in navigation order. */
  const AllViews: seq<View> := [Dashboard, CreativeStudio, ResearchHub, StrategyEngine, SynthesisCore]

  /** `View` has exactly five values, all listed in `AllViews`. */
  lemma ViewIsClosed()
    ensures forall v: View :: v in AllViews
    ensures forall i, j :: 0 <= i < j < |AllViews| ==> AllViews[i] != AllViews[j]
    ensures |AllViews| == 5
  {
    forall v: View
      ensures v in AllViews
    {
      var i := match v
        case Dashboard => 0
        case CreativeStudio => 1
        case ResearchHub => 2
        case StrategyEngine => 3
        case SynthesisCore => 4;
      assert AllViews[i] == v;
    }
  }

  /** One entry of `navItems`: its `label` (here `caption`, since `label`
      is a Dafny keyword) and its `viewName`; the icon is left out. */
  datatype NavItem = NavItem(caption: string, viewName: View)

  /** The `navItems` table, in display order. */
  function NavItems(): (items: seq<NavItem>)
    ensures |items| == |AllViews|
    ensures forall i :: 0 <= i < |items| ==> items[i].viewName == AllViews[i]
  {
    [
      NavItem("Dashboard", Dashboard),
      NavItem("Creative Studio", CreativeStudio),
      NavItem("Research Hub", ResearchHub),
      NavItem("Strategy Engine", StrategyEngine),
      NavItem("Synthesis Core", SynthesisCore)
    ]
  }

  /** `isActive` for an item: its view is the active one. */
  predicate IsActive(item: NavItem, activeView: View) {
    activeView == item.viewName
  }

  /** The one highlighted item: for every active view exactly one item is
      active, the one whose `viewName` is that view. */
  function ActiveIndex(activeView: View): (k: nat)
    ensures k < |NavItems()|
    ensures NavItems()[k].viewName == activeView
    ensures forall i :: 0 <= i < |NavItems()| && IsActive(NavItems()[i], activeView) ==> i == k
  {
    match activeView
    case Dashboard => 0
    case CreativeStudio => 1
    case ResearchHub => 2
    case StrategyEngine => 3
    case SynthesisCore => 4
  }

  /** Every view has its item: the table lists each view exactly once. */
  lemma {:induction false} NavItemsListEachViewOnce(v: View)
    ensures exists i :: 0 <= i < |NavItems()| && NavItems()[i].viewName == v
    ensures forall i, j ::
      (0 <= i < |NavItems()| && 0 <= j < |NavItems()|
       && NavItems()[i].viewName == v && NavItems()[j].viewName == v) ==> i == j
  {
    var k := ActiveIndex(v);
    assert NavItems()[k].viewName == v;
  }

  /** The item's `onClick`: the view passed to `setActiveView`. */
  function ClickTarget(i: nat): (v: View)
    requires i < |NavItems()|
    ensures IsActive(NavItems()[i], v)
    ensures ActiveIndex(v) == i
  {
    NavItems()[i].viewName
  }
}
