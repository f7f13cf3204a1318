/** What the tool hubs have in common: the record for one tool card, the
    shape every prompt generator has (a fixed text, then the user's input in
    double quotes), and the `activeTool` state of a hub whose every card
    opens the text-generation modal (Research Hub, Strategy Engine and
    Synthesis Core). */
module ToolCatalog {
  import opened Wrappers
  import opened ToolModal

  /** One card of a hub (the `Tool` type of components/ResearchHub.tsx,
      components/StrategyEngine.tsx and components/SynthesisCore.tsx; the
      icon is left out). */
  datatype Tool = Tool(
    id: string,
    title: string,
    description: string,
    promptGenerator: string -> string,
    placeholder: string)

  /** The props the hub passes to the modal for a tool. */
  function Spec(t: Tool): ToolSpec {
    ToolSpec(t.title, t.description, t.promptGenerator, t.placeholder)
  }

  /** No two cards of a table share an id (the React `key`). */
  predicate DistinctIds(tools: seq<Tool>) {
    forall i, j :: 0 <= i < j < |tools| ==> tools[i].id != tools[j].id
  }

  /** The fixed text a generator puts before the input: its output on the
      empty input, without the closing quote. */
  function Prefix(gen: string -> string): string
    requires |gen("")| > 0
  {
    gen("")[..|gen("") | - 1]
  }

  /** A prompt template: the generator returns a fixed text ending in an
      opening double quote, then the input unchanged, then a closing double
      quote, whatever the input is. */
  ghost predicate QuotedTemplate(gen: string -> string) {
    && |gen("")| > 0
    && |Prefix(gen)| > 0 && Prefix(gen)[|Prefix(gen)| - 1] == '"'
    && forall input :: gen(input) == Prefix(gen) + input + "\""
  }

  /** A generator written as `(input) => prefix + input + '"'`, with a prefix
      that ends in a double quote, is a quoted template with that prefix. */
  lemma LiteralTemplate(gen: string -> string, prefix: string)
    requires |prefix| > 0 && prefix[|prefix| - 1] == '"'
    requires forall input :: gen(input) == prefix + input + "\""
    ensures QuotedTemplate(gen) && Prefix(gen) == prefix
  {
    assert gen("") == prefix + "" + "\"";
    assert (prefix + "" + "\"")[..|prefix|] == prefix;
  }

  /** The input sits verbatim, between quotes, right after the prefix, and
      the prompt is exactly one character longer than prefix and input. */
  lemma TemplateEmbedsInput(gen: string -> string, input: string)
    requires QuotedTemplate(gen)
    ensures var p, n := gen(input), |Prefix(gen)|;
      && |p| == n + |input| + 1
      && p[..n] == Prefix(gen)
      && p[n - 1] == '"'
      && p[n..n + |input|] == input
      && p[|p| - 1] == '"'
  {
    var p, n := gen(input), |Prefix(gen)|;
    assert p == Prefix(gen) + input + "\"";
    assert p[..n] == Prefix(gen);
    assert p[n..n + |input|] == input;
  }

  /** When the prefix ends with `marker` (such as `Topic: "`), the prompt
      ends with that marker, the input and the closing quote. */
  lemma TemplateEndsWith(gen: string -> string, marker: string, input: string)
    requires QuotedTemplate(gen)
    requires |marker| <= |Prefix(gen)| && Prefix(gen)[|Prefix(gen)| - |marker|..] == marker
    ensures var p, tail := gen(input), marker + input + "\"";
      |p| >= |tail| && p[|p| - |tail|..] == tail
  {
    var a := Prefix(gen);
    var p, tail := gen(input), marker + input + "\"";
    assert p == a[..|a| - |marker|] + tail by {
      assert a == a[..|a| - |marker|] + marker;
    }
  }

  /** Distinct inputs give distinct prompts. */
  lemma TemplateInjective(gen: string -> string, a: string, b: string)
    requires QuotedTemplate(gen)
    requires gen(a) == gen(b)
    ensures a == b
  {
    TemplateEmbedsInput(gen, a);
    TemplateEmbedsInput(gen, b);
  }

  /** The `activeTool` state of a hub whose cards all open the modal. */
  class ToolHub {
    const tools: seq<Tool>
    var activeTool: Option<Tool>

    /** Mounting the hub: no card is open. */
    constructor (tools: seq<Tool>)
      ensures this.tools == tools
      ensures activeTool == None
    {
      this.tools := tools;
      activeTool := None;
    }

    /** A card's `onClick`: that card's tool becomes the active one. */
    method SelectTool(i: nat)
      requires i < |tools|
      modifies this
      ensures activeTool == Some(tools[i])
      ensures Modal() == Some(Spec(tools[i]))
    {
      activeTool := Some(tools[i]);
    }

    /** `handleCloseModal`, passed to the modal as `onClose`. */
    method CloseModal()
      modifies this
      ensures activeTool == None
      ensures Modal() == None
    {
      activeTool := None;
    }

    /** The modal rendered above the cards: present exactly when a tool is
        active, and given that tool's title, description, generator and
        placeholder. */
    function Modal(): (m: Option<ToolSpec>)
      reads this
      ensures m.Some? <==> activeTool.Some?
      ensures m.Some? ==>
        && m.value.title == activeTool.value.title
        && m.value.description == activeTool.value.description
        && m.value.promptGenerator == activeTool.value.promptGenerator
        && m.value.placeholder == activeTool.value.placeholder
    {
      match activeTool
      case None => None
      case Some(t) => Some(Spec(t))
    }
  }
}
