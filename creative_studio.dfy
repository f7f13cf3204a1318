/** The Creative Studio hub (components/CreativeStudio.tsx): six tools, of
    which the image editor opens its own modal and the five others open the
    text-generation modal. */
module CreativeStudio {
  import opened Wrappers
  import opened ToolModal
  import opened ToolCatalog

  /** One card of the studio. Only the image editor comes without a prompt
      generator and a placeholder, so both are optional here. */
  datatype CreativeTool = CreativeTool(
    id: string,
    title: string,
    description: string,
    promptGenerator: Option<string -> string>,
    placeholder: Option<string>)

  const ImageEditorId := "imageEditor"

  /** The text `videoScript` puts before the quoted input. */
  const VideoScriptPrompt := "Write a short, engaging video script (approx. 1 minute) about the following topic. Include scene descriptions and dialogue or voiceover text.\n\nTopic: \""

  /** The text `musicComposer` puts before the quoted input. */
  const MusicComposerPrompt := "Describe a musical composition that would fit the following mood or theme. Include suggestions for instrumentation, tempo, and melody.\n\nMood/Theme: \""

  /** The text `storyWriter` puts before the quoted input. */
  const StoryWriterPrompt := "Write a short story plot outline based on the following premise. Include a beginning, rising action, climax, and resolution.\n\nPremise: \""

  /** The text `uiMockup` puts before the quoted input. */
  const UiMockupPrompt := "Provide a detailed description of the UI/UX for the following app concept. Describe the main screens, key components, and user flow.\n\nApp Concept: \""

  /** The text `3dModel` puts before the quoted input. */
  const ThreeDModelPrompt := "Create a detailed text description for a 3D model based on the following idea. Include details about its shape, texture, color, and key features to help a 3D artist create it.\n\nModel Idea: \""

  /** The card text of `imageEditor`. */
  const ImageEditorDescription := "Edit images with text prompts, powered by AI."

  /** The card text of `videoScript`. */
  const VideoScriptDescription := "Generate a script for a short video based on a topic."
  const VideoScriptPlaceholder := "e.g., The history of coffee, a tutorial on changing a tire..."

  /** The card text of `musicComposer`. */
  const MusicComposerDescription := "Get ideas for a musical piece based on a mood or theme."
  const MusicComposerPlaceholder := "e.g., A heroic battle, a peaceful morning, a cyberpunk city at night..."

  /** The card text of `storyWriter`. */
  const StoryWriterDescription := "Brainstorm a short story plot from a simple premise."
  const StoryWriterPlaceholder := "e.g., A detective who can read minds, a baker who discovers a magical recipe..."

  /** The card text of `uiMockup`. */
  const UiMockupDescription := "Describe the UI/UX for an app concept."
  const UiMockupPlaceholder := "e.g., A language learning app that uses AR, a social media app for gardeners..."

  /** The card text of `3dModel`. */
  const ThreeDModelDescription := "Generate a detailed description for a 3D model."
  const ThreeDModelPlaceholder := "e.g., A futuristic sci-fi helmet, a fantasy enchanted sword..."

  /** The `tools` table, in card order. */
  function Tools(): (tools: seq<CreativeTool>)
    ensures |tools| == 6
  {
    [
      CreativeTool(
        "imageEditor",
        "Image Editor",
        ImageEditorDescription,
        None,
        None),
      CreativeTool(
        "videoScript",
        "Video Script Generator",
        VideoScriptDescription,
        Some(input => VideoScriptPrompt + input + "\""),
        Some(VideoScriptPlaceholder)),
      CreativeTool(
        "musicComposer",
        "Music Composer",
        MusicComposerDescription,
        Some(input => MusicComposerPrompt + input + "\""),
        Some(MusicComposerPlaceholder)),
      CreativeTool(
        "storyWriter",
        "Story Writer",
        StoryWriterDescription,
        Some(input => StoryWriterPrompt + input + "\""),
        Some(StoryWriterPlaceholder)),
      CreativeTool(
        "uiMockup",
        "UI/UX Mockup Ideas",
        UiMockupDescription,
        Some(input => UiMockupPrompt + input + "\""),
        Some(UiMockupPlaceholder)),
      CreativeTool(
        "3dModel",
        "3D Model Concepts",
        ThreeDModelDescription,
        Some(input => ThreeDModelPrompt + input + "\""),
        Some(ThreeDModelPlaceholder))
    ]
  }

  /** Every card has its own id. */
  lemma ToolIdsDistinct()
    ensures forall i, j :: 0 <= i < j < |Tools()| ==> Tools()[i].id != Tools()[j].id
  {
  }

  /** Card `i` lacks a generator, and a placeholder, iff it is the image
      editor. */
  lemma CardLacksGeneratorIffImageEditor(i: nat)
    requires i < |Tools()|
    ensures Tools()[i].promptGenerator.None? <==> Tools()[i].id == ImageEditorId
    ensures Tools()[i].placeholder.None? <==> Tools()[i].id == ImageEditorId
  {
    if i != 0 {
      assert Tools()[i].id[0] != ImageEditorId[0];
    }
  }

  /** The image editor is the only card without a prompt generator, and the
      only one without a placeholder. */
  lemma OnlyImageEditorLacksGenerator()
    ensures forall i :: 0 <= i < |Tools()| ==>
      && (Tools()[i].promptGenerator.None? <==> Tools()[i].id == ImageEditorId)
      && (Tools()[i].placeholder.None? <==> Tools()[i].id == ImageEditorId)
  {
    forall i | 0 <= i < |Tools()|
      ensures Tools()[i].promptGenerator.None? <==> Tools()[i].id == ImageEditorId
      ensures Tools()[i].placeholder.None? <==> Tools()[i].id == ImageEditorId
    {
      CardLacksGeneratorIffImageEditor(i);
    }
  }

  /** The generator of card `i`, when it has one, is a quoted template. */
  lemma ToolQuotesItsInput(i: nat)
    requires i < |Tools()| && Tools()[i].promptGenerator.Some?
    ensures QuotedTemplate(Tools()[i].promptGenerator.value)
  {
    if i == 1 {
      LiteralTemplate(Tools()[1].promptGenerator.value, VideoScriptPrompt);
    } else if i == 2 {
      LiteralTemplate(Tools()[2].promptGenerator.value, MusicComposerPrompt);
    } else if i == 3 {
      LiteralTemplate(Tools()[3].promptGenerator.value, StoryWriterPrompt);
    } else if i == 4 {
      LiteralTemplate(Tools()[4].promptGenerator.value, UiMockupPrompt);
    } else if i == 5 {
      LiteralTemplate(Tools()[5].promptGenerator.value, ThreeDModelPrompt);
    }
  }

  /** For a fixed tool, distinct inputs yield distinct prompts. */
  lemma PromptsDistinguishInputs(i: nat, a: string, b: string)
    requires i < |Tools()| && Tools()[i].promptGenerator.Some?
    requires a != b
    ensures Tools()[i].promptGenerator.value(a) != Tools()[i].promptGenerator.value(b)
  {
    ToolQuotesItsInput(i);
    if Tools()[i].promptGenerator.value(a) == Tools()[i].promptGenerator.value(b) {
      TemplateInjective(Tools()[i].promptGenerator.value, a, b);
    }
  }

  /** What the studio renders above its cards. */
  datatype Overlay = NoOverlay | ImageEditorOverlay | ToolModalOverlay(tool: ToolSpec)

  /** The guard of the image-editor element: it never holds together with
      the text modal's guard. */
  function ShowsImageEditor(active: Option<CreativeTool>): (shows: bool)
    ensures shows ==> active.Some? && !ShowsToolModal(active)
  {
    active.Some? && active.value.id == ImageEditorId
  }

  /** The guard of the text-modal element (a falsy, empty placeholder hides
      it as well). */
  predicate ShowsToolModal(active: Option<CreativeTool>) {
    && active.Some? && active.value.id != ImageEditorId
    && active.value.promptGenerator.Some? && Truthy(active.value.placeholder)
  }

  /** The dispatch on the active tool: the two guarded elements never show
      together, nothing shows without an active tool, and the text modal is
      given the active tool's title, description, generator and placeholder. */
  function Render(active: Option<CreativeTool>): (o: Overlay)
    ensures o.ImageEditorOverlay? <==> ShowsImageEditor(active)
    ensures o.ToolModalOverlay? <==> ShowsToolModal(active)
    ensures active.None? ==> o == NoOverlay
    ensures o.ToolModalOverlay? ==>
      o.tool == ToolSpec(active.value.title, active.value.description,
                         active.value.promptGenerator.value, active.value.placeholder.value)
  {
    if ShowsImageEditor(active) then ImageEditorOverlay
    else if ShowsToolModal(active) then
      var t := active.value;
      ToolModalOverlay(ToolSpec(t.title, t.description, t.promptGenerator.value, t.placeholder.value))
    else NoOverlay
  }

  /** Every card opens a modal: the first card the image editor, each other
      card the text modal. */
  lemma EveryCardOpensAModal(i: nat)
    requires i < |Tools()|
    ensures Render(Some(Tools()[i])).ImageEditorOverlay? <==> i == 0
    ensures Render(Some(Tools()[i])).ToolModalOverlay? <==> i != 0
  {
  }

  /** The studio's `activeTool` state. */
  class CreativeStudio {
    var activeTool: Option<CreativeTool>

    /** Mounting the studio: no card is open. */
    constructor ()
      ensures activeTool == None
    {
      activeTool := None;
    }

    /** A card's `onClick`: that card becomes the active tool, and a modal
        opens, the image editor for the first card and the text modal for
        any other. */
    method SelectTool(i: nat)
      requires i < |Tools()|
      modifies this
      ensures activeTool == Some(Tools()[i])
      ensures CurrentOverlay().ImageEditorOverlay? <==> i == 0
      ensures CurrentOverlay().ToolModalOverlay? <==> i != 0
    {
      activeTool := Some(Tools()[i]);
      EveryCardOpensAModal(i);
    }

    /** `handleCloseModal`, passed to either modal as `onClose`. */
    method CloseModal()
      modifies this
      ensures activeTool == None
      ensures CurrentOverlay() == NoOverlay
    {
      activeTool := None;
    }

    /** The overlay currently rendered. */
    function CurrentOverlay(): (o: Overlay)
      reads this
      ensures activeTool.None? ==> o == NoOverlay
      ensures o.ImageEditorOverlay? ==> activeTool.value.id == ImageEditorId
      ensures o.ToolModalOverlay? ==>
        activeTool.value.id != ImageEditorId && o.tool.title == activeTool.value.title
    {
      Render(activeTool)
    }
  }
}
