/** The Synthesis Core hub (components/SynthesisCore.tsx): six text tools, each opening
    the text-generation modal. */
module SynthesisCore {
  import opened Wrappers
  import opened ToolCatalog

  /** The text `crossDomainWeaver` puts before the quoted input. */
  const CrossDomainWeaverPrompt := "Analyze the core principles of the following concept and find surprising, insightful, and innovative connections to three completely unrelated fields or domains. Explain the connection for each.\n\nCore Concept: \""

  /** The text `analogyFinder` puts before the quoted input. */
  const AnalogyFinderPrompt := "You are a creative AI specializing in analogies. Find a surprising and insightful analogy from a completely different domain to explain the core concept of the following complex idea. Explain why the analogy works.\n\nComplex Idea: \""

  /** The text `futureForecaster` puts before the quoted input. */
  const FutureForecasterPrompt := "Based on the current state of the following technology or idea, extrapolate and describe three potential future trends or societal impacts it could have in the next 20 years.\n\nTechnology/Idea: \""

  /** The text `ethicalImplications` puts before the quoted input. */
  const EthicalImplicationsPrompt := "Analyze the following concept or technology and identify three potential ethical dilemmas or societal challenges it might create. For each point, briefly explain the nature of the ethical concern.\n\nConcept/Technology: \""

  /** The text `systemMapper` puts before the quoted input. */
  const SystemMapperPrompt := "Describe the following as a complex system. Identify its key components, the relationships between them, and the overall emergent behavior of the system.\n\nSystem: \""

  /** The text `synthesisChatbot` puts before the quoted input. */
  const SynthesisChatbotPrompt := "Provide a historical example of a major innovation that resulted from the synthesis of ideas from different fields. Describe the fields involved and how their combination led to the breakthrough.\n\nTopic of Interest: \""

  /** The card text of `crossDomainWeaver`. */
  const CrossDomainWeaverDescription := "Connect a concept to unrelated fields to spark innovation."
  const CrossDomainWeaverPlaceholder := "e.g., Mycelial networks, quantum computing, ancient Greek philosophy..."

  /** The card text of `analogyFinder`. */
  const AnalogyFinderDescription := "Find powerful analogies to explain complex ideas simply."
  const AnalogyFinderPlaceholder := "e.g., Blockchain technology, general relativity, machine learning..."

  /** The card text of `futureForecaster`. */
  const FutureForecasterDescription := "Extrapolate future trends based on a current technology or idea."
  const FutureForecasterPlaceholder := "e.g., Artificial general intelligence, ubiquitous augmented reality..."

  /** The card text of `ethicalImplications`. */
  const EthicalImplicationsDescription := "Explore the potential ethical dilemmas of a new concept."
  const EthicalImplicationsPlaceholder := "e.g., AI that can perfectly mimic human voices, fully autonomous weapons..."

  /** The card text of `systemMapper`. */
  const SystemMapperDescription := "Describe the interconnected parts of a complex system."
  const SystemMapperPlaceholder := "e.g., A city's transportation network, the global food supply chain..."

  /** The card text of `synthesisChatbot`. */
  const SynthesisChatbotDescription := "Discuss historical examples of innovation and synthesis."
  const SynthesisChatbotPlaceholder := "e.g., The printing press, the invention of the GPS..."

  /** The `tools` table, in card order. */
  function Tools(): (tools: seq<Tool>)
    ensures |tools| == 6
  {
    [
      Tool(
        "crossDomainWeaver",
        "Cross-Domain Weaver",
        CrossDomainWeaverDescription,
        input => CrossDomainWeaverPrompt + input + "\"",
        CrossDomainWeaverPlaceholder),
      Tool(
        "analogyFinder",
        "Analogy Finder",
        AnalogyFinderDescription,
        input => AnalogyFinderPrompt + input + "\"",
        AnalogyFinderPlaceholder),
      Tool(
        "futureForecaster",
        "Future Forecaster",
        FutureForecasterDescription,
        input => FutureForecasterPrompt + input + "\"",
        FutureForecasterPlaceholder),
      Tool(
        "ethicalImplications",
        "Ethical Implications",
        EthicalImplicationsDescription,
        input => EthicalImplicationsPrompt + input + "\"",
        EthicalImplicationsPlaceholder),
      Tool(
        "systemMapper",
        "System Mapper",
        SystemMapperDescription,
        input => SystemMapperPrompt + input + "\"",
        SystemMapperPlaceholder),
      Tool(
        "synthesisChatbot",
        "Synthesis Chatbot",
        SynthesisChatbotDescription,
        input => SynthesisChatbotPrompt + input + "\"",
        SynthesisChatbotPlaceholder)
    ]
  }

  /** Every card has its own id. */
  lemma ToolIdsDistinct()
    ensures DistinctIds(Tools())
  {
  }

  /** The generator of card `i` is a quoted template. */
  lemma ToolQuotesItsInput(i: nat)
    requires i < |Tools()|
    ensures QuotedTemplate(Tools()[i].promptGenerator)
  {
    if i == 0 {
      LiteralTemplate(Tools()[0].promptGenerator, CrossDomainWeaverPrompt);
    } else if i == 1 {
      LiteralTemplate(Tools()[1].promptGenerator, AnalogyFinderPrompt);
    } else if i == 2 {
      LiteralTemplate(Tools()[2].promptGenerator, FutureForecasterPrompt);
    } else if i == 3 {
      LiteralTemplate(Tools()[3].promptGenerator, EthicalImplicationsPrompt);
    } else if i == 4 {
      LiteralTemplate(Tools()[4].promptGenerator, SystemMapperPrompt);
    } else if i == 5 {
      LiteralTemplate(Tools()[5].promptGenerator, SynthesisChatbotPrompt);
    }
  }

  /** Every generator is a quoted template: a fixed text, then the input
      verbatim between double quotes. */
  lemma ToolsQuoteTheirInput()
    ensures forall i :: 0 <= i < |Tools()| ==> QuotedTemplate(Tools()[i].promptGenerator)
  {
    forall i | 0 <= i < |Tools()|
      ensures QuotedTemplate(Tools()[i].promptGenerator)
    {
      ToolQuotesItsInput(i);
    }
  }

  /** For a fixed tool, distinct inputs yield distinct prompts. */
  lemma PromptsDistinguishInputs(i: nat, a: string, b: string)
    requires i < |Tools()|
    requires a != b
    ensures Tools()[i].promptGenerator(a) != Tools()[i].promptGenerator(b)
  {
    ToolsQuoteTheirInput();
    if Tools()[i].promptGenerator(a) == Tools()[i].promptGenerator(b) {
      TemplateInjective(Tools()[i].promptGenerator, a, b);
    }
  }

  /** Mounting the hub: a hub over this table with no card open. */
  method Mount() returns (hub: ToolHub)
    ensures fresh(hub)
    ensures hub.tools == Tools() && hub.activeTool == None
  {
    hub := new ToolHub(Tools());
  }
}
