/** The image editor (components/ImageEditorTool.tsx): the uploaded image and
    its preview URL, the edit prompt, and the lifecycle of the request sent to
    the image-editing service, plus the name given to the downloaded result.
    The awaited `editImageWithPrompt` call is split into `HandleGenerateClick`,
    which runs up to the call and returns what it would send, and `Complete`,
    which applies the call's outcome. Object URLs are handles; the ghost sets
    `issued` and `revoked` record which ones were created and released. */
module ImageEditorTool {
  import opened Wrappers
  import opened JsStrings

  /** A file picked in the file input: its name, and which file it is. */
  datatype File = File(name: string, identity: nat)

  /** A URL made by `URL.createObjectURL`. */
  datatype ObjectUrl = ObjectUrl(handle: nat)

  /** The `ImageFile` record: the file and its preview URL. */
  datatype ImageFile = ImageFile(file: File, previewUrl: ObjectUrl)

  /** The arguments of one `editImageWithPrompt` call. */
  datatype EditRequest = EditRequest(image: File, prompt: string)

  /** The anchor `handleDownload` builds and clicks. */
  datatype Download = Download(href: string, filename: string)

  /** The four mutually exclusive blocks of the display area. */
  datatype Display =
    | LoadingDisplay                 // spinner, "MindWeaving in progress..."
    | ErrorDisplay(message: string)  // "Generation Failed" and the message
    | ImageDisplay(url: string)      // the edited image and the Download button
    | PlaceholderDisplay             // "Your generated image will appear here."

  /** The `inspirationalPrompts` table. */
  const InspirationalPrompts: seq<string> := [
    "Add a dreamy, watercolor painting effect.",
    "Make this look like a still from a Wes Anderson film.",
    "Turn the landscape into a futuristic cyberpunk city with neon lights.",
    "Add a majestic dragon flying in the sky.",
    "Change the season to a snowy winter landscape."
  ]

  const ValidationMessage := "Please upload an image and enter a prompt."
  const ErrorPrefix := "An error occurred: "
  const UnknownErrorMessage := "An unknown error occurred."
  const FallbackBase := "image"
  const DownloadSuffix := "-edited.png"

  /** The message stored when the call rejects. Unlike the text modal's, it is
      never empty, so every failure reaches the display area. */
  function FailureMessage(thrown: Thrown): (m: string)
    ensures |m| > 0
    ensures thrown.ErrorInstance? ==>
      |m| == |ErrorPrefix| + |thrown.message|
      && m[..|ErrorPrefix|] == ErrorPrefix && m[|ErrorPrefix|..] == thrown.message
    ensures thrown.NonErrorValue? ==> m == UnknownErrorMessage
  {
    match thrown
    case ErrorInstance(message) => ErrorPrefix + message
    case NonErrorValue => UnknownErrorMessage
  }

  /** The index `Math.floor(random * n)` picks for a `Math.random` value. */
  function RandomIndex(random: real, n: nat): (i: nat)
    requires 0.0 <= random < 1.0 && n > 0
    ensures i < n
    ensures i as real <= random * n as real < i as real + 1.0
  {
    var x := random * n as real;
    assert x < n as real by {
      var d := 1.0 - random;
      assert d > 0.0;
      assert n as real - x == d * n as real;
      assert d * n as real > 0.0;
    }
    x.Floor
  }

  /** Every index can be drawn: `i / n` picks `i`. */
  lemma EveryIndexCanBeDrawn(i: nat, n: nat)
    requires i < n
    ensures 0.0 <= i as real / n as real < 1.0
    ensures RandomIndex(i as real / n as real, n) == i
  {
    var r := i as real / n as real;
    assert r * n as real == i as real;
  }

  /** The download name for an uploaded file name: the name up to its last
      dot (split on '.', last part dropped, rejoined), or "image" when that is
      empty, followed by "-edited.png". */
  function FilenameFor(name: string): (f: string)
    ensures |f| > |DownloadSuffix| && f[|f| - |DownloadSuffix|..] == DownloadSuffix
    ensures var base := f[..|f| - |DownloadSuffix|];
      || base == FallbackBase
      || (|base| < |name| && base == name[..|base|] && name[|base|] == '.')
  {
    var base := BeforeLast(name, '.');
    (if base == "" then FallbackBase else base) + DownloadSuffix
  }

  /** The download name `handleDownload` gives: also "image-edited.png" when
      no image is held (the optional chain yields `undefined`). */
  function DownloadFilename(image: Option<ImageFile>): (f: string)
    ensures |f| > |DownloadSuffix| && f[|f| - |DownloadSuffix|..] == DownloadSuffix
    ensures image.None? ==> f[..|f| - |DownloadSuffix|] == FallbackBase
  {
    match image
    case None => FallbackBase + DownloadSuffix
    case Some(img) => FilenameFor(img.file.name)
  }

  /** A name without a dot gets the fallback base. */
  lemma FilenameWithoutDot(name: string)
    requires '.' !in name
    ensures FilenameFor(name) == FallbackBase + DownloadSuffix
  {
  }

  /** A name whose last dot is at `k` keeps everything before it, or gets
      the fallback base when the dot is its first character. */
  lemma FilenameCutsAtLastDot(name: string, k: nat)
    requires k < |name| && name[k] == '.' && '.' !in name[k + 1..]
    ensures FilenameFor(name) == (if k == 0 then FallbackBase else name[..k]) + DownloadSuffix
  {
    assert name[k] in name;
    var b := BeforeLast(name, '.');
    assert |b| == k;
  }

  /** An extension is dropped, and only the last one: "photo.jpg" downloads
      as "photo-edited.png" and "a.b.jpg" as "a.b-edited.png". */
  lemma FilenameDropsExtension(stem: string, ext: string)
    requires stem != "" && '.' !in ext
    ensures FilenameFor(stem + "." + ext) == stem + DownloadSuffix
  {
    var name := stem + "." + ext;
    assert name[|stem| + 1..] == ext;
    FilenameCutsAtLastDot(name, |stem|);
    assert name[..|stem|] == stem;
  }

  /** A name without an extension falls back: "README" downloads as
      "image-edited.png". */
  lemma FilenameFallsBackWithoutDot()
    ensures FilenameFor("README") == "image-edited.png"
  {
    FilenameWithoutDot("README");
  }

  /** A name that is only an extension falls back: ".png" downloads as
      "image-edited.png". */
  lemma FilenameFallsBackForDotName()
    ensures FilenameFor(".png") == "image-edited.png"
  {
    assert ".png"[1..] == "png";
    FilenameCutsAtLastDot(".png", 0);
  }

  class ImageEditor {
    var imageFile: Option<ImageFile>
    var prompt: string
    var editedImageUrl: Option<string>
    var isLoading: bool
    var error: Option<string>
    /** Calls to the image-editing service issued and not yet completed. */
    ghost var inFlight: nat
    /** Object URLs this editor created, and those it revoked. */
    ghost var issued: set<ObjectUrl>
    ghost var revoked: set<ObjectUrl>

    /** The object URLs this editor still holds: the current preview's. */
    ghost function Live(): set<ObjectUrl>
      reads this
    {
      if imageFile.Some? then {imageFile.value.previewUrl} else {}
    }

    /** The spinner is only up while a call is outstanding; no call, and so
        no edited image, before an image is chosen; every preview URL
        created, except the one on screen, has been revoked. */
    ghost predicate Valid()
      reads this
    {
      && (isLoading ==> inFlight > 0)
      && (imageFile.None? ==> inFlight == 0 && editedImageUrl.None?)
      && Live() <= issued
      && revoked == issued - Live()
    }

    /** Mounting the editor: nothing chosen, nothing typed, nothing shown. */
    constructor ()
      ensures Valid()
      ensures imageFile == None && prompt == "" && editedImageUrl == None
      ensures !isLoading && error == None
      ensures inFlight == 0 && issued == {} && revoked == {}
    {
      imageFile := None;
      prompt := "";
      editedImageUrl := None;
      isLoading := false;
      error := None;
      inFlight := 0;
      issued := {};
      revoked := {};
    }

    /** The textarea's `onChange`. */
    method SetPrompt(text: string)
      requires Valid()
      modifies this`prompt
      ensures Valid()
      ensures prompt == text
    {
      prompt := text;
    }

    /** `handleFileChange`: `selected` is the first file of the input, if
        any, and `created` the URL `URL.createObjectURL` makes for it. The
        previous preview URL is revoked here and again by the effect cleanup
        that the change of `imageFile` triggers; as a set, `revoked` gains it
        once. */
    method HandleFileChange(selected: Option<File>, created: ObjectUrl)
      requires Valid()
      requires created !in issued
      modifies this
      ensures Valid()
      ensures selected.None? ==>
        && imageFile == old(imageFile) && editedImageUrl == old(editedImageUrl)
        && error == old(error) && issued == old(issued) && revoked == old(revoked)
      ensures selected.Some? ==>
        && imageFile == Some(ImageFile(selected.value, created))
        && editedImageUrl == None && error == None
        && issued == old(issued) + {created}
        && revoked == old(revoked) + old(Live())
      ensures prompt == old(prompt) && isLoading == old(isLoading)
      ensures inFlight == old(inFlight)
    {
      if selected.Some? {
        if imageFile.Some? {
          revoked := revoked + {imageFile.value.previewUrl};
        }
        issued := issued + {created};
        imageFile := Some(ImageFile(selected.value, created));
        editedImageUrl := None;
        error := None;
      }
    }

    /** `isGenerateDisabled`: loading, no image, or a prompt made only of
        whitespace. */
    function IsGenerateDisabled(): (disabled: bool)
      reads this
      ensures disabled <==>
        isLoading || imageFile.None? || forall i :: 0 <= i < |prompt| ==> IsWhitespace(prompt[i])
    {
      isLoading || imageFile.None? || IsBlank(prompt)
    }

    /** The synchronous part of `handleGenerateClick`, up to the awaited call.
        Returns the file and the untrimmed prompt passed to the service, or
        `None` when validation stops the handler before any call. */
    method HandleGenerateClick() returns (request: Option<EditRequest>)
      requires Valid()
      modifies this
      ensures Valid()
      ensures imageFile == old(imageFile) && prompt == old(prompt)
      ensures issued == old(issued) && revoked == old(revoked)
      ensures request.Some? <==> imageFile.Some? && !IsBlank(prompt)
      ensures !old(IsGenerateDisabled()) ==> request.Some?
      ensures request.None? ==>
        && error == Some(ValidationMessage)
        && isLoading == old(isLoading) && editedImageUrl == old(editedImageUrl)
        && inFlight == old(inFlight)
      ensures request.Some? ==>
        && request.value == EditRequest(imageFile.value.file, prompt)
        && isLoading && error == None && editedImageUrl == None
        && inFlight == old(inFlight) + 1
    {
      if imageFile.None? || IsBlank(prompt) {
        error := Some(ValidationMessage);
        return None;
      }
      isLoading := true;
      error := None;
      editedImageUrl := None;
      inFlight := inFlight + 1;
      request := Some(EditRequest(imageFile.value.file, prompt));
    }

    /** While the spinner is up, a call is outstanding, so `Complete` can
        always be applied to a loading editor. */
    lemma LoadingMeansCallPending()
      requires Valid() && isLoading
      ensures inFlight > 0
    {
    }

    /** The rest of `handleGenerateClick`, once the call settles: the
        resolved URL is stored verbatim, a rejection stores its message, and
        in either case the spinner is taken down (the `finally` block). */
    method Complete(outcome: Outcome<string>)
      requires Valid()
      requires inFlight > 0
      modifies this
      ensures Valid()
      ensures !isLoading
      ensures inFlight == old(inFlight) - 1
      ensures imageFile == old(imageFile) && prompt == old(prompt)
      ensures issued == old(issued) && revoked == old(revoked)
      ensures outcome.Ok? ==> editedImageUrl == Some(outcome.value) && error == old(error)
      ensures outcome.Err? ==>
        editedImageUrl == old(editedImageUrl) && error == Some(FailureMessage(outcome.thrown))
    {
      match outcome {
        case Ok(url) =>
          editedImageUrl := Some(url);
        case Err(thrown) =>
          error := Some(FailureMessage(thrown));
      }
      isLoading := false;
      inFlight := inFlight - 1;
    }

    /** `suggestPrompt`, with `random` the value `Math.random()` returned:
        the prompt becomes one of the inspirational prompts. */
    method SuggestPrompt(random: real)
      requires Valid()
      requires 0.0 <= random < 1.0
      modifies this`prompt
      ensures Valid()
      ensures prompt in InspirationalPrompts
      ensures prompt == InspirationalPrompts[RandomIndex(random, |InspirationalPrompts|)]
    {
      prompt := InspirationalPrompts[RandomIndex(random, |InspirationalPrompts|)];
    }

    /** `handleDownload`: nothing without an edited image (null or empty),
        otherwise a link to it named after the uploaded file. */
    function HandleDownload(): (d: Option<Download>)
      reads this
      ensures d.Some? <==> Truthy(editedImageUrl)
      ensures d.Some? ==> d.value.href == editedImageUrl.value
      ensures Valid() && d.Some? ==>
        imageFile.Some? && d.value.filename == FilenameFor(imageFile.value.file.name)
    {
      if !Truthy(editedImageUrl) then None
      else Some(Download(editedImageUrl.value, DownloadFilename(imageFile)))
    }

    /** The blocks whose JSX guard holds, each guard written as the component
        writes it (with JavaScript truthiness for `error` and
        `editedImageUrl`). */
    function VisibleDisplays(): (ds: set<Display>)
      reads this
      ensures |ds| == 1
    {
      (if isLoading then {LoadingDisplay} else {})
      + (if Truthy(error) && !isLoading then {ErrorDisplay(error.value)} else {})
      + (if !isLoading && !Truthy(error) && Truthy(editedImageUrl)
         then {ImageDisplay(editedImageUrl.value)} else {})
      + (if !isLoading && !Truthy(error) && !Truthy(editedImageUrl)
         then {PlaceholderDisplay} else {})
    }

    /** The display area: exactly one block is shown, chosen by priority
        loading, then error, then the edited image, then the placeholder. */
    function CurrentDisplay(): (p: Display)
      reads this
      ensures VisibleDisplays() == {p}
      ensures p.LoadingDisplay? <==> isLoading
      ensures p.ErrorDisplay? <==> !isLoading && Truthy(error)
      ensures p.ImageDisplay? <==> !isLoading && !Truthy(error) && Truthy(editedImageUrl)
    {
      if isLoading then LoadingDisplay
      else if Truthy(error) then ErrorDisplay(error.value)
      else if Truthy(editedImageUrl) then ImageDisplay(editedImageUrl.value)
      else PlaceholderDisplay
    }

    /** The Download button sits in the edited-image block, and whenever that
        block shows, the button downloads the image it shows under a name
        derived from the uploaded file (never the no-image fallback). */
    lemma DownloadMatchesDisplay()
      requires Valid()
      ensures CurrentDisplay().ImageDisplay? ==>
        && HandleDownload().Some?
        && HandleDownload().value.href == CurrentDisplay().url
        && imageFile.Some?
        && HandleDownload().value.filename == FilenameFor(imageFile.value.file.name)
    {
    }

    /** Unmounting: the effect cleanup revokes the preview on screen, after
        which every object URL the editor created has been revoked. */
    method Unmount()
      requires Valid()
      modifies this`revoked
      ensures revoked == old(revoked) + old(Live())
      ensures revoked == issued
    {
      if imageFile.Some? {
        revoked := revoked + {imageFile.value.previewUrl};
      }
    }
  }

  /** One user interaction from a freshly opened editor: choose `file`
      (previewed under `created`), type `text`, press Generate, and (when a
      call is made) let it settle with `reply`. Returns the request made, if
      any, the block shown afterwards and what Download would save. */
  method EditOnce(file: File, created: ObjectUrl, text: string, reply: Outcome<string>)
    returns (request: Option<EditRequest>, shown: Display, download: Option<Download>)
    ensures request.None? <==> IsBlank(text)
    ensures request.Some? ==> request.value == EditRequest(file, text)
    ensures IsBlank(text) ==> shown == ErrorDisplay(ValidationMessage) && download.None?
    ensures !IsBlank(text) && reply.Err? ==>
      shown == ErrorDisplay(FailureMessage(reply.thrown)) && download.None?
    ensures !IsBlank(text) && reply.Ok? && reply.value != "" ==>
      && shown == ImageDisplay(reply.value)
      && download == Some(Download(reply.value, FilenameFor(file.name)))
    ensures !IsBlank(text) && reply.Ok? && reply.value == "" ==>
      shown == PlaceholderDisplay && download.None?
  {
    var editor := new ImageEditor();
    editor.HandleFileChange(Some(file), created);
    editor.SetPrompt(text);
    request := editor.HandleGenerateClick();
    if request.Some? {
      editor.Complete(reply);
    }
    shown := editor.CurrentDisplay();
    download := editor.HandleDownload();
  }
}
