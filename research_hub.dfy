/** The Research Hub (components/ResearchHub.tsx): six text tools, each opening
    the text-generation modal. */
module ResearchHub {
  import opened Wrappers
  import opened ToolCatalog

  /** The text `literatureReview` puts before the quoted input. */
  const LiteratureReviewPrompt := "You are an AI research assistant. Provide a concise summary of the current state of research, key findings, and notable gaps in the academic literature regarding the following topic:\n\nTopic: \""

  /** The text `hypothesisGenerator` puts before the quoted input. */
  const HypothesisGeneratorPrompt := "Based on the following research question, generate three distinct, novel, and testable scientific hypotheses. For each hypothesis, briefly describe a potential experimental approach.\n\nResearch Question: \""

  /** The text `dataAnalyst` puts before the quoted input. */
  const DataAnalystPrompt := "I have a dataset with the following characteristics and a specific research goal. Suggest appropriate statistical or machine learning methods to analyze this data.\n\nDataset & Goal: \""

  /** The text `codeGenerator` puts before the quoted input. */
  const CodeGeneratorPrompt := "Write a code snippet in Python to perform the following task. Include comments explaining the code.\n\nTask: \""

  /** The text `experimentDesigner` puts before the quoted input. */
  const ExperimentDesignerPrompt := "Outline a basic experimental design to test the following hypothesis. Include the independent variable, dependent variable, control group, and main steps of the procedure.\n\nHypothesis: \""

  /** The text `researchChatbot` puts before the quoted input. */
  const ResearchChatbotPrompt := "Provide a clear and detailed explanation for the following scientific question. Explain it as you would to a university student.\n\nQuestion: \""

  /** The card text of `literatureReview`. */
  const LiteratureReviewDescription := "Summarize key findings and gaps in literature for a topic."
  const LiteratureReviewPlaceholder := "e.g., The impact of microplastics on marine life, CRISPR gene editing ethics..."

  /** The card text of `hypothesisGenerator`. */
  const HypothesisGeneratorDescription := "Generate novel, testable hypotheses from a research question."
  const HypothesisGeneratorPlaceholder := "e.g., How does sleep deprivation affect long-term memory consolidation?"

  /** The card text of `dataAnalyst`. */
  const DataAnalystDescription := "Suggest analysis methods for a given dataset and goal."
  const DataAnalystPlaceholder := "e.g., Dataset: daily stock prices for 5 years. Goal: forecast next month's price trend."

  /** The card text of `codeGenerator`. */
  const CodeGeneratorDescription := "Generate code snippets for data analysis or simulation tasks."
  const CodeGeneratorPlaceholder := "e.g., A Python function to calculate the standard deviation of a list of numbers."

  /** The card text of `experimentDesigner`. */
  const ExperimentDesignerDescription := "Outline an experimental design to test a hypothesis."
  const ExperimentDesignerPlaceholder := "e.g., Hypothesis: Plants exposed to classical music will grow taller than those in silence."

  /** The card text of `researchChatbot`. */
  const ResearchChatbotDescription := "Ask complex scientific questions and get detailed explanations."
  const ResearchChatbotPlaceholder := "e.g., Explain the mechanism of mRNA vaccines."

  /** The `tools` table, in card order. */
  function Tools(): (tools: seq<Tool>)
    ensures |tools| == 6
  {
    [
      Tool(
        "literatureReview",
        "Literature Reviewer",
        LiteratureReviewDescription,
        input => LiteratureReviewPrompt + input + "\"",
        LiteratureReviewPlaceholder),
      Tool(
        "hypothesisGenerator",
        "Hypothesis Generator",
        HypothesisGeneratorDescription,
        input => HypothesisGeneratorPrompt + input + "\"",
        HypothesisGeneratorPlaceholder),
      Tool(
        "dataAnalyst",
        "Data Analyst",
        DataAnalystDescription,
        input => DataAnalystPrompt + input + "\"",
        DataAnalystPlaceholder),
      Tool(
        "codeGenerator",
        "Code Generator",
        CodeGeneratorDescription,
        input => CodeGeneratorPrompt + input + "\"",
        CodeGeneratorPlaceholder),
      Tool(
        "experimentDesigner",
        "Experiment Designer",
        ExperimentDesignerDescription,
        input => ExperimentDesignerPrompt + input + "\"",
        ExperimentDesignerPlaceholder),
      Tool(
        "researchChatbot",
        "Research Chatbot",
        ResearchChatbotDescription,
        input => ResearchChatbotPrompt + input + "\"",
        ResearchChatbotPlaceholder)
    ]
  }

  /** Every card has its own id. */
  lemma ToolIdsDistinct()
    ensures DistinctIds(Tools())
  {
  }

  /** The generator of card `i` is a quoted template. */
  lemma ToolQuotesItsInput(i: nat)
    requires i < |Tools()|
    ensures QuotedTemplate(Tools()[i].promptGenerator)
  {
    if i == 0 {
      LiteralTemplate(Tools()[0].promptGenerator, LiteratureReviewPrompt);
    } else if i == 1 {
      LiteralTemplate(Tools()[1].promptGenerator, HypothesisGeneratorPrompt);
    } else if i == 2 {
      LiteralTemplate(Tools()[2].promptGenerator, DataAnalystPrompt);
    } else if i == 3 {
      LiteralTemplate(Tools()[3].promptGenerator, CodeGeneratorPrompt);
    } else if i == 4 {
      LiteralTemplate(Tools()[4].promptGenerator, ExperimentDesignerPrompt);
    } else if i == 5 {
      LiteralTemplate(Tools()[5].promptGenerator, ResearchChatbotPrompt);
    }
  }

  /** Every generator is a quoted template: a fixed text, then the input
      verbatim between double quotes. */
  lemma ToolsQuoteTheirInput()
    ensures forall i :: 0 <= i < |Tools()| ==> QuotedTemplate(Tools()[i].promptGenerator)
  {
    forall i | 0 <= i < |Tools()|
      ensures QuotedTemplate(Tools()[i].promptGenerator)
    {
      ToolQuotesItsInput(i);
    }
  }

  /** For a fixed tool, distinct inputs yield distinct prompts. */
  lemma PromptsDistinguishInputs(i: nat, a: string, b: string)
    requires i < |Tools()|
    requires a != b
    ensures Tools()[i].promptGenerator(a) != Tools()[i].promptGenerator(b)
  {
    ToolsQuoteTheirInput();
    if Tools()[i].promptGenerator(a) == Tools()[i].promptGenerator(b) {
      TemplateInjective(Tools()[i].promptGenerator, a, b);
    }
  }

  /** The Literature Reviewer given `CRISPR gene editing ethics` ends its
      prompt with `Topic: "CRISPR gene editing ethics"`. */
  lemma LiteratureReviewExample()
    ensures var input := "CRISPR gene editing ethics";
      var p, tail := Tools()[0].promptGenerator(input), "Topic: \"" + input + "\"";
      |p| >= |tail| && p[|p| - |tail|..] == tail
  {
    var gen, marker := Tools()[0].promptGenerator, "Topic: \"";
    assert QuotedTemplate(gen) && Prefix(gen) == LiteratureReviewPrompt by {
      LiteralTemplate(gen, LiteratureReviewPrompt);
    }
    assert |marker| <= |Prefix(gen)| && Prefix(gen)[|Prefix(gen)| - |marker|..] == marker by {
      assert LiteratureReviewPrompt[|LiteratureReviewPrompt| - 8..] == marker;
    }
    TemplateEndsWith(gen, marker, "CRISPR gene editing ethics");
  }

  /** Mounting the hub: a hub over this table with no card open. */
  method Mount() returns (hub: ToolHub)
    ensures fresh(hub)
    ensures hub.tools == Tools() && hub.activeTool == None
  {
    hub := new ToolHub(Tools());
  }
}
