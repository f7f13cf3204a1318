/** The generic text-generation modal (components/ToolModal.tsx): one open
    tool, the text the user typed, and the lifecycle of the request sent to
    the text-generation service. The awaited `generateText` call is split
    into `HandleGenerate`, which runs up to the call and returns the prompt
    it would send, and `Complete`, which applies the call's outcome. */
module ToolModal {
  import opened Wrappers
  import opened JsStrings

  /** The `tool` prop: what a hub passes to the modal. */
  datatype ToolSpec = ToolSpec(
    title: string,
    description: string,
    promptGenerator: string -> string,
    placeholder: string)

  /** The four mutually exclusive blocks of the output panel. */
  datatype Panel =
    | LoadingPanel                 // spinner, "MindWeaving in progress..."
    | ErrorPanel(message: string)  // "Generation Failed" and the message
    | ResultPanel(text: string)    // the generated text
    | PlaceholderPanel             // "AI-generated output will appear here."

  const UnknownErrorMessage := "An unknown error occurred."

  /** The validation message for an empty input. */
  function MissingInputMessage(title: string): (m: string)
    ensures |m| > |title| && m[|m| - |title|..] == title
  {
    "Please provide input for: " + title
  }

  /** The message stored when the call rejects: the `Error`'s own message,
      or a fixed text for anything else that was thrown. */
  function FailureMessage(thrown: Thrown): (m: string)
    ensures thrown.ErrorInstance? ==> m == thrown.message
    ensures thrown.NonErrorValue? ==> m == UnknownErrorMessage
  {
    match thrown
    case ErrorInstance(message) => message
    case NonErrorValue => UnknownErrorMessage
  }

  class ToolModal {
    const tool: ToolSpec
    var input: string
    var result: string
    var isLoading: bool
    var error: Option<string>
    /** Calls to the generation service issued and not yet completed. */
    ghost var inFlight: nat

    /** The spinner is only up while a call is outstanding. */
    ghost predicate Valid()
      reads this
    {
      isLoading ==> inFlight > 0
    }

    /** Mounting the modal: empty input and result, not loading, no error. */
    constructor (tool: ToolSpec)
      ensures Valid()
      ensures this.tool == tool
      ensures input == "" && result == "" && !isLoading && error == None
      ensures inFlight == 0
    {
      this.tool := tool;
      input := "";
      result := "";
      isLoading := false;
      error := None;
      inFlight := 0;
    }

    /** The textarea's `onChange`. */
    method SetInput(text: string)
      requires Valid()
      modifies this`input
      ensures Valid()
      ensures input == text
    {
      input := text;
    }

    /** `isGenerateDisabled`: loading, or nothing but whitespace typed. */
    function IsGenerateDisabled(): (disabled: bool)
      reads this
      ensures disabled <==> isLoading || forall i :: 0 <= i < |input| ==> IsWhitespace(input[i])
    {
      isLoading || IsBlank(input)
    }

    /** The synchronous part of `handleGenerate`, up to the awaited call.
        Returns the prompt passed to the text-generation service, or `None`
        when validation stops the handler before any call. */
    method HandleGenerate() returns (request: Option<string>)
      requires Valid()
      modifies this
      ensures Valid()
      ensures input == old(input)
      ensures request.Some? <==> !IsBlank(input)
      ensures !old(IsGenerateDisabled()) ==> request.Some?
      ensures IsBlank(input) ==>
        && error == Some(MissingInputMessage(tool.title))
        && isLoading == old(isLoading) && result == old(result)
        && inFlight == old(inFlight)
      ensures !IsBlank(input) ==>
        && request == Some(tool.promptGenerator(input))
        && isLoading && error == None && result == ""
        && inFlight == old(inFlight) + 1
    {
      if IsBlank(input) {
        error := Some(MissingInputMessage(tool.title));
        return None;
      }
      isLoading := true;
      error := None;
      result := "";
      var prompt := tool.promptGenerator(input);
      inFlight := inFlight + 1;
      request := Some(prompt);
    }

    /** The rest of `handleGenerate`, once the call settles: the resolved
        text is stored verbatim, a rejection stores its message, and in
        either case the spinner is taken down (the `finally` block). */
    method Complete(outcome: Outcome<string>)
      requires Valid()
      requires inFlight > 0
      modifies this
      ensures Valid()
      ensures !isLoading
      ensures input == old(input)
      ensures inFlight == old(inFlight) - 1
      ensures outcome.Ok? ==> result == outcome.value && error == old(error)
      ensures outcome.Err? ==>
        result == old(result) && error == Some(FailureMessage(outcome.thrown))
    {
      match outcome {
        case Ok(text) =>
          result := text;
        case Err(thrown) =>
          error := Some(FailureMessage(thrown));
      }
      isLoading := false;
      inFlight := inFlight - 1;
    }

    /** While the spinner is up, a call is outstanding, so `Complete` can
        always be applied to a loading modal. */
    lemma LoadingMeansCallPending()
      requires Valid() && isLoading
      ensures inFlight > 0
    {
    }

    /** The panels whose JSX guard holds, each guard written as the
        component writes it (with JavaScript truthiness for `error` and
        `result`). */
    function VisiblePanels(): (ps: set<Panel>)
      reads this
      ensures |ps| == 1
    {
      (if isLoading then {LoadingPanel} else {})
      + (if Truthy(error) && !isLoading then {ErrorPanel(error.value)} else {})
      + (if !isLoading && !Truthy(error) && result != "" then {ResultPanel(result)} else {})
      + (if !isLoading && !Truthy(error) && result == "" then {PlaceholderPanel} else {})
    }

    /** The output panel: exactly one block is shown, chosen by priority
        loading, then error, then a non-empty result, then the placeholder. */
    function OutputPanel(): (p: Panel)
      reads this
      ensures VisiblePanels() == {p}
      ensures p.LoadingPanel? <==> isLoading
      ensures p.ErrorPanel? <==> !isLoading && Truthy(error)
      ensures p.ResultPanel? <==> !isLoading && !Truthy(error) && result != ""
    {
      if isLoading then LoadingPanel
      else if Truthy(error) then ErrorPanel(error.value)
      else if result != "" then ResultPanel(result)
      else PlaceholderPanel
    }
  }

  /** One user interaction from a freshly opened modal: type `text`, press
      Generate, and (when a call is made) let it settle with `reply`.
      Returns the prompt sent, if any, and the panel shown afterwards. */
  method GenerateOnce(tool: ToolSpec, text: string, reply: Outcome<string>)
    returns (request: Option<string>, shown: Panel)
    ensures request.None? <==> IsBlank(text)
    ensures request.Some? ==> request.value == tool.promptGenerator(text)
    ensures IsBlank(text) ==> shown == ErrorPanel(MissingInputMessage(tool.title))
    ensures !IsBlank(text) && reply.Ok? ==>
      shown == if reply.value == "" then PlaceholderPanel else ResultPanel(reply.value)
    ensures !IsBlank(text) && reply.Err? ==>
      var m := FailureMessage(reply.thrown);
      shown == if m == "" then PlaceholderPanel else ErrorPanel(m)
  {
    var modal := new ToolModal(tool);
    modal.SetInput(text);
    request := modal.HandleGenerate();
    if request.Some? {
      modal.Complete(reply);
    }
    shown := modal.OutputPanel();
  }
}
