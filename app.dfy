/** The root component (App.tsx): the active view and the About modal flag,
    the header title and the body derived from the active view, and the
    agreement between the header titles and the sidebar and dashboard
    tables. */
module App {
  import opened Sidebar
  import Dashboard

  /** The component `renderActiveView` puts in the main area. */
  datatype Page = DashboardPage | CreativeStudioPage | ResearchHubPage | StrategyEnginePage | SynthesisCorePage

  /** `renderActiveView`: each view has its own page; the `default` branch,
      which also yields the dashboard, cannot be reached with a `View`. */
  function RenderActiveView(v: View): (p: Page)
    ensures p == DashboardPage <==> v == Dashboard
  {
    match v
    case Dashboard => DashboardPage
    case CreativeStudio => CreativeStudioPage
    case ResearchHub => ResearchHubPage
    case StrategyEngine => StrategyEnginePage
    case SynthesisCore => SynthesisCorePage
  }

  /** No two views render the same page. */
  lemma RenderActiveViewInjective(v: View, w: View)
    ensures RenderActiveView(v) == RenderActiveView(w) ==> v == w
  {
  }

  /** `getHeaderTitle`: the title shown after "MindWeaver |", which is the
      label of the sidebar item for the same view. The `default` branch
      ("MindWeaver") cannot be reached with a `View`. */
  function HeaderTitle(v: View): (t: string)
    ensures t == NavItems()[ActiveIndex(v)].caption
  {
    match v
    case Dashboard => "Dashboard"
    case CreativeStudio => "Creative Studio"
    case ResearchHub => "Research Hub"
    case StrategyEngine => "Strategy Engine"
    case SynthesisCore => "Synthesis Core"
  }

  /** Different views have different header titles. */
  lemma HeaderTitleInjective(v: View, w: View)
    ensures HeaderTitle(v) == HeaderTitle(w) ==> v == w
  {
    if v != w {
      assert HeaderTitle(v)[1] != HeaderTitle(w)[1];
    }
  }

  /** Each sidebar label is the header title of its item's view. */
  lemma SidebarLabelsMatchHeaderTitles()
    ensures forall i :: 0 <= i < |NavItems()| ==> NavItems()[i].caption == HeaderTitle(NavItems()[i].viewName)
  {
    forall i | 0 <= i < |NavItems()|
      ensures NavItems()[i].caption == HeaderTitle(NavItems()[i].viewName)
    {
      assert ActiveIndex(NavItems()[i].viewName) == i;
    }
  }

  /** Each dashboard hub's title is the header title of the hub's view. */
  lemma HubTitlesMatchHeaderTitles()
    ensures forall i :: 0 <= i < |Dashboard.Hubs()| ==> Dashboard.Hubs()[i].title == HeaderTitle(Dashboard.Hubs()[i].view)
  {
  }

  /** The root component's state. */
  class App {
    var activeView: View
    var isAboutModalOpen: bool

    /** The initial state: the dashboard, with the About modal closed. */
    constructor ()
      ensures activeView == Dashboard && !isAboutModalOpen
    {
      activeView := Dashboard;
      isAboutModalOpen := false;
    }

    /** `setActiveView`, as handed to the sidebar and the dashboard. */
    method SetActiveView(v: View)
      modifies this
      ensures activeView == v
      ensures isAboutModalOpen == old(isAboutModalOpen)
    {
      activeView := v;
    }

    /** Clicking sidebar item `i`: that item's view becomes active, and it is
        the item highlighted afterwards. */
    method ClickNavItem(i: nat)
      requires i < |NavItems()|
      modifies this
      ensures activeView == NavItems()[i].viewName
      ensures ActiveIndex(activeView) == i
      ensures isAboutModalOpen == old(isAboutModalOpen)
    {
      SetActiveView(Sidebar.ClickTarget(i));
    }

    /** Clicking the button of dashboard hub `i` (shown only while the
        dashboard is the page): the hub's view becomes active. */
    method ClickHub(i: nat)
      requires i < |Dashboard.Hubs()|
      requires Body() == DashboardPage
      modifies this
      ensures activeView == Dashboard.Hubs()[i].view
      ensures Body() != DashboardPage
      ensures isAboutModalOpen == old(isAboutModalOpen)
    {
      SetActiveView(Dashboard.ClickTarget(i));
    }

    /** The About button. */
    method OpenAbout()
      modifies this
      ensures isAboutModalOpen
      ensures activeView == old(activeView)
    {
      isAboutModalOpen := true;
    }

    /** A click on the About modal's backdrop or on its close button. */
    method CloseAbout()
      modifies this
      ensures !isAboutModalOpen
      ensures activeView == old(activeView)
    {
      isAboutModalOpen := false;
    }

    /** The header title shown. */
    function Header(): (t: string)
      reads this
      ensures t == NavItems()[ActiveIndex(activeView)].caption
    {
      HeaderTitle(activeView)
    }

    /** The page in the main area. */
    function Body(): (p: Page)
      reads this
      ensures p == DashboardPage <==> activeView == Dashboard
    {
      RenderActiveView(activeView)
    }
  }

  /** The header and the body always come from the same view: whatever view
      is active, the header names the page that is shown. */
  lemma HeaderNamesTheBody(v: View, w: View)
    ensures HeaderTitle(v) == HeaderTitle(w) <==> RenderActiveView(v) == RenderActiveView(w)
  {
    HeaderTitleInjective(v, w);
    RenderActiveViewInjective(v, w);
  }
}
