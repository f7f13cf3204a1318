/** The dashboard (components/Dashboard.tsx): a static table of hub cards,
    each of whose buttons forwards its view to the `setActiveView` callback
    the dashboard is given. */
module Dashboard {
  import opened Sidebar

  /** One entry of `hubs` (the icon is left out). */
  datatype Hub = Hub(view: View, title: string, description: string, buttonText: string)

  /** The hub descriptions. */
  const CreativeStudioBlurb := "Generate art, video scripts, music, and more. A suite for the modern digital artist."
  const ResearchHubBlurb := "Accelerate discovery with AI-powered literature reviews, data analysis, and hypothesis generation."
  const StrategyEngineBlurb := "Develop robust business and project plans with tools for market analysis and risk assessment."
  const SynthesisCoreBlurb := "Discover breakthrough insights by connecting ideas from unrelated fields and domains."

  /** The `hubs` table, in display order. */
  function Hubs(): (hubs: seq<Hub>)
    ensures |hubs| == 4
  {
    [
      Hub(CreativeStudio, "Creative Studio",
          CreativeStudioBlurb,
          "Create"),
      Hub(ResearchHub, "Research Hub",
          ResearchHubBlurb,
          "Research"),
      Hub(StrategyEngine, "Strategy Engine",
          StrategyEngineBlurb,
          "Strategize"),
      Hub(SynthesisCore, "Synthesis Core",
          SynthesisCoreBlurb,
          "Synthesize")
    ]
  }

  /** The hubs lead to the four views other than the dashboard, each once,
      in navigation order. */
  lemma HubViewsAreTheOtherViews()
    ensures forall i :: 0 <= i < |Hubs()| ==> Hubs()[i].view == AllViews[i + 1]
    ensures forall i :: 0 <= i < |Hubs()| ==> Hubs()[i].view != Dashboard
    ensures forall i, j :: 0 <= i < j < |Hubs()| ==> Hubs()[i].view != Hubs()[j].view
  {
  }

  /** The hub leading to a view: every view but the dashboard has one. */
  function HubIndex(v: View): (i: nat)
    requires v != Dashboard
    ensures i < |Hubs()| && Hubs()[i].view == v
  {
    match v
    case CreativeStudio => 0
    case ResearchHub => 1
    case StrategyEngine => 2
    case SynthesisCore => 3
  }

  /** A hub button's `onClick`: the view passed to `setActiveView`, never
      the dashboard itself. */
  function ClickTarget(i: nat): (v: View)
    requires i < |Hubs()|
    ensures v == Hubs()[i].view
    ensures v != Dashboard
  {
    Hubs()[i].view
  }
}
