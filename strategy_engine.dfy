/** The Strategy Engine hub (components/StrategyEngine.tsx): six text tools, each opening
    the text-generation modal. */
module StrategyEngine {
  import opened Wrappers
  import opened ToolCatalog

  /** The text `marketAnalysis` puts before the quoted input. */
  const MarketAnalysisPrompt := "You are an expert market analyst. Provide a concise market analysis for a product or service related to the following concept. Include target audience, potential competitors, market size, and key trends.\n\nConcept: \""

  /** The text `businessModelCanvas` puts before the quoted input. */
  const BusinessModelCanvasPrompt := "Based on the following business idea, generate a simple Business Model Canvas. Fill in the key sections: Key Partners, Key Activities, Value Propositions, Customer Relationships, Customer Segments, Key Resources, Channels, Cost Structure, and Revenue Streams.\n\nBusiness Idea: \""

  /** The text `stakeholderMapper` puts before the quoted input. */
  const StakeholderMapperPrompt := "For the following project, identify the key stakeholders. For each stakeholder, describe their likely interests, influence, and potential impact on the project.\n\nProject: \""

  /** The text `riskAssessor` puts before the quoted input. */
  const RiskAssessorPrompt := "Analyze the following plan and identify five potential risks. For each risk, categorize it (e.g., financial, operational, market) and suggest a possible mitigation strategy.\n\nPlan: \""

  /** The text `implementationPlanner` puts before the quoted input. */
  const ImplementationPlannerPrompt := "Create a high-level implementation plan for the following project. Break it down into four major phases and list 2-3 key milestones for each phase.\n\nProject: \""

  /** The text `strategyChatbot` puts before the quoted input. */
  const StrategyChatbotPrompt := "Provide a clear and concise explanation of the following business strategy or framework. Include its purpose and key components.\n\nConcept: \""

  /** The card text of `marketAnalysis`. */
  const MarketAnalysisDescription := "Analyze market trends, competitors, and audience for a product."
  const MarketAnalysisPlaceholder := "e.g., A subscription box for eco-friendly cleaning supplies."

  /** The card text of `businessModelCanvas`. */
  const BusinessModelCanvasDescription := "Generate a Business Model Canvas from a business idea."
  const BusinessModelCanvasPlaceholder := "e.g., A mobile app that connects local artists with buyers."

  /** The card text of `stakeholderMapper`. */
  const StakeholderMapperDescription := "Identify key stakeholders and their interests for a project."
  const StakeholderMapperPlaceholder := "e.g., Building a new public park in a residential neighborhood."

  /** The card text of `riskAssessor`. */
  const RiskAssessorDescription := "Identify potential risks and mitigation strategies for a plan."
  const RiskAssessorPlaceholder := "e.g., Launching a new software product in a competitive market."

  /** The card text of `implementationPlanner`. */
  const ImplementationPlannerDescription := "Create a high-level implementation plan with key milestones."
  const ImplementationPlannerPlaceholder := "e.g., Developing and launching a new e-commerce website."

  /** The card text of `strategyChatbot`. */
  const StrategyChatbotDescription := "Ask questions about business frameworks and strategic concepts."
  const StrategyChatbotPlaceholder := "e.g., Explain SWOT Analysis, What are Porter's Five Forces?"

  /** The `tools` table, in card order. */
  function Tools(): (tools: seq<Tool>)
    ensures |tools| == 6
  {
    [
      Tool(
        "marketAnalysis",
        "Market Analyst",
        MarketAnalysisDescription,
        input => MarketAnalysisPrompt + input + "\"",
        MarketAnalysisPlaceholder),
      Tool(
        "businessModelCanvas",
        "Business Model Canvas",
        BusinessModelCanvasDescription,
        input => BusinessModelCanvasPrompt + input + "\"",
        BusinessModelCanvasPlaceholder),
      Tool(
        "stakeholderMapper",
        "Stakeholder Mapper",
        StakeholderMapperDescription,
        input => StakeholderMapperPrompt + input + "\"",
        StakeholderMapperPlaceholder),
      Tool(
        "riskAssessor",
        "Risk Assessor",
        RiskAssessorDescription,
        input => RiskAssessorPrompt + input + "\"",
        RiskAssessorPlaceholder),
      Tool(
        "implementationPlanner",
        "Implementation Planner",
        ImplementationPlannerDescription,
        input => ImplementationPlannerPrompt + input + "\"",
        ImplementationPlannerPlaceholder),
      Tool(
        "strategyChatbot",
        "Strategy Chatbot",
        StrategyChatbotDescription,
        input => StrategyChatbotPrompt + input + "\"",
        StrategyChatbotPlaceholder)
    ]
  }

  /** Every card has its own id. */
  lemma ToolIdsDistinct()
    ensures DistinctIds(Tools())
  {
  }

  /** The generator of card `i` is a quoted template. */
  lemma ToolQuotesItsInput(i: nat)
    requires i < |Tools()|
    ensures QuotedTemplate(Tools()[i].promptGenerator)
  {
    if i == 0 {
      LiteralTemplate(Tools()[0].promptGenerator, MarketAnalysisPrompt);
    } else if i == 1 {
      LiteralTemplate(Tools()[1].promptGenerator, BusinessModelCanvasPrompt);
    } else if i == 2 {
      LiteralTemplate(Tools()[2].promptGenerator, StakeholderMapperPrompt);
    } else if i == 3 {
      LiteralTemplate(Tools()[3].promptGenerator, RiskAssessorPrompt);
    } else if i == 4 {
      LiteralTemplate(Tools()[4].promptGenerator, ImplementationPlannerPrompt);
    } else if i == 5 {
      LiteralTemplate(Tools()[5].promptGenerator, StrategyChatbotPrompt);
    }
  }

  /** Every generator is a quoted template: a fixed text, then the input
      verbatim between double quotes. */
  lemma ToolsQuoteTheirInput()
    ensures forall i :: 0 <= i < |Tools()| ==> QuotedTemplate(Tools()[i].promptGenerator)
  {
    forall i | 0 <= i < |Tools()|
      ensures QuotedTemplate(Tools()[i].promptGenerator)
    {
      ToolQuotesItsInput(i);
    }
  }

  /** For a fixed tool, distinct inputs yield distinct prompts. */
  lemma PromptsDistinguishInputs(i: nat, a: string, b: string)
    requires i < |Tools()|
    requires a != b
    ensures Tools()[i].promptGenerator(a) != Tools()[i].promptGenerator(b)
  {
    ToolsQuoteTheirInput();
    if Tools()[i].promptGenerator(a) == Tools()[i].promptGenerator(b) {
      TemplateInjective(Tools()[i].promptGenerator, a, b);
    }
  }

  /** Mounting the hub: a hub over this table with no card open. */
  method Mount() returns (hub: ToolHub)
    ensures fresh(hub)
    ensures hub.tools == Tools() && hub.activeTool == None
  {
    hub := new ToolHub(Tools());
  }
}
