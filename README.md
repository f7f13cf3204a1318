# MindWeaver client core, modelled in Dafny

MindWeaver is a React client. A sidebar and a dashboard route between five
views. Four of them are tool hubs. Each hub card opens a modal that sends a
prompt built from the user's text to a generation service. One card opens an
image editor, which sends an uploaded image and an edit prompt instead.

This project models the logic of those components and proves properties of it:

- the closed set of views and the navigation tables (`Sidebar`, `Dashboard`);
- the root component's state, with its header title and body (`App`);
- the prompt-template tables of the four hubs (`CreativeStudio`,
  `ResearchHub`, `StrategyEngine`, `SynthesisCore`). All four share the
  template shape in `ToolCatalog`. The three text-only hubs also share its
  card record and its `activeTool` state (`ToolHub`). `CreativeStudio` has
  its own record, whose generator and placeholder are optional, and its own
  state class;
- the request lifecycle and output panel of the text modal (`ToolModal`);
- the image editor (`ImageEditorTool`): preview-URL handling, the edit
  request lifecycle, the inspirational prompts and the download file name.

Two helper modules back these:

- `Wrappers` holds `Option`, and the outcome of an awaited call (`Outcome`).
  A rejection carries either an `Error` with its message or some other
  thrown value.
- `JsStrings` holds JavaScript's `String.prototype.trim` (its whitespace set
  written out), `split` on one character and `join`. It proves that
  `join(split(s))` returns `s`.

How the model is shaped:

- Every awaited handler is split in two. The synchronous part
  (`HandleGenerate`, `HandleGenerateClick`) returns the request it would send,
  or `None` when validation stops it. `Complete(outcome)` applies the
  settled call.
- A ghost counter `inFlight` records calls that were issued and have not
  completed, so a completion can only follow a call.
- JSX guards use JavaScript truthiness: `null` and `""` are both falsy
  (`Wrappers.Truthy`).
- Object URLs are handles. The ghost sets `issued` and `revoked` record which
  ones the editor created and which it released.

Three behaviours of the code that the model keeps as written:

- The text modal stores `e.message` verbatim. A rejection with `Error('')`
  therefore stores an empty error. That error is falsy, so the placeholder
  is shown instead of "Generation Failed". `ToolModal.GenerateOnce` states
  this case. The image editor prefixes its message, so it never stores an
  empty one.
- A replaced preview URL is revoked twice: once in `handleFileChange` and
  once by the effect cleanup. The model records revocation as membership in
  a set. It promises that every URL except the one on screen has been
  revoked, not that each was revoked exactly once.
- Neither handler refuses a second submission while loading. Only the
  button's disabled state does. The model adds no guard, and `inFlight` may
  exceed one.

## Model

| member | source | states |
|---|---|---|
| JsStrings.Trim | components/ToolModal.tsx:22 | the trimmed text is a slice of the input: only whitespace precedes it, only whitespace follows it, and it neither starts nor ends with whitespace |
| JsStrings.TrimEmptyIffAllWhitespace | components/ImageEditorTool.tsx:43 | the trimmed text is empty exactly when every character is whitespace |
| JsStrings.IsBlank | components/ToolModal.tsx:22 | `!s.trim()` holds exactly when every character of `s` is whitespace |
| JsStrings.Split | components/ImageEditorTool.tsx:67 | `split` yields at least one part, and no part contains the separator |
| JsStrings.JoinSplit | components/ImageEditorTool.tsx:67 | joining the parts of a split with the same separator gives back the original string |
| JsStrings.Join | components/ImageEditorTool.tsx:67 | the joined text starts with the first part, followed by the separator when there is a second part |
| JsStrings.SplitJoin | components/ImageEditorTool.tsx:67 | splitting a join of non-empty lists of separator-free parts gives back the parts |
| JsStrings.JoinDropLast | components/ImageEditorTool.tsx:67 | dropping the last part before joining cuts the joined text just before its last separator |
| JsStrings.DropLastPartIsPrefixToLastSeparator | components/ImageEditorTool.tsx:67 | split, drop the last part and rejoin: gives "" when the separator is absent, otherwise the prefix up to the last occurrence of the separator |
| JsStrings.BeforeLast | components/ImageEditorTool.tsx:67 | `s.split(sep).slice(0, -1).join(sep)` is "" without a separator, otherwise the prefix of `s` ending just before its last separator |
| ToolModal.MissingInputMessage | components/ToolModal.tsx:23 | the validation message is longer than the tool title and ends with it |
| ToolModal.FailureMessage | components/ToolModal.tsx:36 | an `Error`'s own message, or "An unknown error occurred." for any other thrown value |
| ToolModal.ToolModal.constructor | components/ToolModal.tsx:16-19 | the modal opens with empty input and result, not loading, no error and no call outstanding |
| ToolModal.ToolModal.SetInput | components/ToolModal.tsx:71 | typing replaces the input and nothing else |
| ToolModal.ToolModal.IsGenerateDisabled | components/ToolModal.tsx:42 | Generate is disabled iff loading or every character of the input is whitespace |
| ToolModal.ToolModal.HandleGenerate | components/ToolModal.tsx:21-31 | a call is made iff the trimmed input is non-empty, so only when Generate is disabled can a press be refused. A blank input sets the missing-input message and leaves loading, result and the call count alone. Otherwise the untrimmed input goes through the tool's generator, loading starts, and error and result are cleared |
| ToolModal.ToolModal.LoadingMeansCallPending | components/ToolModal.tsx:25-37 | the spinner is set only when the call is issued and cleared in its `finally`, so a loading modal always has a call to complete |
| ToolModal.ToolModal.Complete | components/ToolModal.tsx:32-39 | success stores the text verbatim and failure stores the failure message. Loading ends either way, and the input is kept |
| ToolModal.ToolModal.VisiblePanels | components/ToolModal.tsx:95-116 | the four JSX guards, written as the component writes them, hold for exactly one block |
| ToolModal.ToolModal.OutputPanel | components/ToolModal.tsx:95-116 | exactly one of the four guarded blocks is visible: loading, then a truthy error, then a non-empty result, then the placeholder |
| ToolModal.GenerateOnce | components/ToolModal.tsx:21-116 | from a fresh modal: a blank text makes no call and shows the validation error. Otherwise the generated prompt is sent, and the panel shows the result, the error, or the placeholder when the reply or the error message is empty |
| ToolCatalog.LiteralTemplate | components/ResearchHub.tsx:20 | a generator `prefix + input + '"'`, with a prefix ending in a quote, is a quoted template with that prefix |
| ToolCatalog.TemplateEmbedsInput | components/ResearchHub.tsx:20-60 | a quoted template puts the input verbatim between quotes right after its prefix, and the prompt is prefix length + input length + 1 long |
| ToolCatalog.TemplateEndsWith | components/ResearchHub.tsx:20 | when the prefix ends with a marker such as `Topic: "`, the prompt ends with the marker, the input and a quote |
| ToolCatalog.TemplateInjective | components/ResearchHub.tsx:20-60 | a quoted template sends different inputs to different prompts |
| ToolCatalog.ToolHub.constructor | components/ResearchHub.tsx:77 | a hub starts with no active tool |
| ToolCatalog.ToolHub.SelectTool | components/ResearchHub.tsx:89 | clicking card `i` makes its tool active and opens the modal with that tool |
| ToolCatalog.ToolHub.CloseModal | components/ResearchHub.tsx:79 | closing clears the active tool and removes the modal |
| ToolCatalog.ToolHub.Modal | components/ResearchHub.tsx:83-85 | the modal is rendered iff a tool is active, and gets that tool's title, description, generator and placeholder |
| ResearchHub.Tools | components/ResearchHub.tsx:14-63 | the table has six cards |
| ResearchHub.ToolIdsDistinct | components/ResearchHub.tsx:14-63 | no two cards share an id |
| ResearchHub.ToolQuotesItsInput | components/ResearchHub.tsx:20-60 | the generator of each card is a quoted template |
| ResearchHub.ToolsQuoteTheirInput | components/ResearchHub.tsx:20-60 | every generator of the table is a quoted template |
| ResearchHub.PromptsDistinguishInputs | components/ResearchHub.tsx:20-60 | for a fixed card, distinct inputs give distinct prompts |
| ResearchHub.LiteratureReviewExample | components/ResearchHub.tsx:20 | the Literature Reviewer given `CRISPR gene editing ethics` ends its prompt with `Topic: "CRISPR gene editing ethics"` |
| ResearchHub.Mount | components/ResearchHub.tsx:76-79 | the hub mounts over its table with no card open |
| StrategyEngine.Tools | components/StrategyEngine.tsx:14-63 | the table has six cards |
| StrategyEngine.ToolIdsDistinct | components/StrategyEngine.tsx:14-63 | no two cards share an id |
| StrategyEngine.ToolQuotesItsInput | components/StrategyEngine.tsx:20-60 | the generator of each card is a quoted template |
| StrategyEngine.ToolsQuoteTheirInput | components/StrategyEngine.tsx:20-60 | every generator of the table is a quoted template |
| StrategyEngine.PromptsDistinguishInputs | components/StrategyEngine.tsx:20-60 | for a fixed card, distinct inputs give distinct prompts |
| StrategyEngine.Mount | components/StrategyEngine.tsx:76-79 | the hub mounts over its table with no card open |
| SynthesisCore.Tools | components/SynthesisCore.tsx:14-63 | the table has six cards |
| SynthesisCore.ToolIdsDistinct | components/SynthesisCore.tsx:14-63 | no two cards share an id |
| SynthesisCore.ToolQuotesItsInput | components/SynthesisCore.tsx:20-60 | the generator of each card is a quoted template |
| SynthesisCore.ToolsQuoteTheirInput | components/SynthesisCore.tsx:20-60 | every generator of the table is a quoted template |
| SynthesisCore.PromptsDistinguishInputs | components/SynthesisCore.tsx:20-60 | for a fixed card, distinct inputs give distinct prompts |
| SynthesisCore.Mount | components/SynthesisCore.tsx:76-79 | the hub mounts over its table with no card open |
| CreativeStudio.Tools | components/CreativeStudio.tsx:15-62 | the table has six cards |
| CreativeStudio.ToolIdsDistinct | components/CreativeStudio.tsx:15-62 | no two cards share an id |
| CreativeStudio.CardLacksGeneratorIffImageEditor | components/CreativeStudio.tsx:16-61 | card `i` lacks a generator iff it is the image editor, and likewise for the placeholder |
| CreativeStudio.OnlyImageEditorLacksGenerator | components/CreativeStudio.tsx:16-61 | across the whole table, the image editor is the only card without a generator and the only one without a placeholder |
| CreativeStudio.ToolQuotesItsInput | components/CreativeStudio.tsx:27-59 | every generator present is a quoted template |
| CreativeStudio.PromptsDistinguishInputs | components/CreativeStudio.tsx:27-59 | for a fixed card with a generator, distinct inputs give distinct prompts |
| CreativeStudio.ShowsImageEditor | components/CreativeStudio.tsx:82 | the image editor's guard needs an active tool and never holds together with the text modal's guard |
| CreativeStudio.ShowsToolModal | components/CreativeStudio.tsx:83 | the text modal's guard: an active tool other than the image editor, with a generator and a truthy placeholder |
| CreativeStudio.Render | components/CreativeStudio.tsx:82-93 | the image editor is shown iff the active id is `imageEditor`, and the text modal iff the active id differs and a generator and a truthy placeholder exist. So the two never show together, and nothing shows without an active tool. The text modal gets the tool's title, description, generator and placeholder |
| CreativeStudio.EveryCardOpensAModal | components/CreativeStudio.tsx:82-93 | opening the first card shows the image editor, and opening any other card shows the text modal |
| CreativeStudio.CreativeStudio.constructor | components/CreativeStudio.tsx:76 | the studio starts with no active tool |
| CreativeStudio.CreativeStudio.SelectTool | components/CreativeStudio.tsx:97 | clicking card `i` makes it active and opens the image editor iff `i` is the first card, and the text modal otherwise |
| CreativeStudio.CreativeStudio.CurrentOverlay | components/CreativeStudio.tsx:82-93 | nothing shows without an active tool; the image editor shows only for the `imageEditor` card; the text modal shows only for another card, titled as that card |
| CreativeStudio.CreativeStudio.CloseModal | components/CreativeStudio.tsx:78 | closing clears the active tool, and no overlay is shown |
| ImageEditorTool.FailureMessage | components/ImageEditorTool.tsx:55 | "An error occurred: " followed by an `Error`'s message, or "An unknown error occurred." The message is never empty |
| ImageEditorTool.RandomIndex | components/ImageEditorTool.tsx:75 | `Math.floor(random * n)` is a valid index of the table: the largest integer not above `random * n` |
| ImageEditorTool.EveryIndexCanBeDrawn | components/ImageEditorTool.tsx:75 | every index of the table is drawn for some `Math.random` value |
| ImageEditorTool.FilenameFor | components/ImageEditorTool.tsx:67-68 | the name always ends with "-edited.png", and what precedes it is "image" or a prefix of the file name that ends just before a dot |
| ImageEditorTool.DownloadFilename | components/ImageEditorTool.tsx:67-68 | the name always ends with "-edited.png", and without a held image its base is "image" |
| ImageEditorTool.FilenameWithoutDot | components/ImageEditorTool.tsx:67-68 | a name without a dot downloads as "image-edited.png" |
| ImageEditorTool.FilenameCutsAtLastDot | components/ImageEditorTool.tsx:67-68 | a name whose last dot is at `k` downloads as its first `k` characters + "-edited.png", or as "image-edited.png" when `k` is 0 |
| ImageEditorTool.FilenameDropsExtension | components/ImageEditorTool.tsx:67-68 | for any non-empty stem and dot-free extension, `stem.ext` downloads as `stem-edited.png`, so only the last extension is dropped ("photo.jpg" gives "photo-edited.png", "a.b.jpg" gives "a.b-edited.png") |
| ImageEditorTool.FilenameFallsBackWithoutDot | components/ImageEditorTool.tsx:67-68 | "README" downloads as "image-edited.png" |
| ImageEditorTool.FilenameFallsBackForDotName | components/ImageEditorTool.tsx:67-68 | ".png" downloads as "image-edited.png" |
| ImageEditorTool.ImageEditor.constructor | components/ImageEditorTool.tsx:19-23 | the editor opens with no image, an empty prompt, no edited image, no error, not loading, and no object URL created |
| ImageEditorTool.ImageEditor.SetPrompt | components/ImageEditorTool.tsx:103 | typing replaces the prompt and nothing else |
| ImageEditorTool.ImageEditor.HandleFileChange | components/ImageEditorTool.tsx:26-40 | with no file nothing changes. With a file, the file and its new preview URL are installed, the edited image and error are cleared, and the prompt and loading flag are kept. The previous preview URL joins the revoked set, and every URL except the one on screen stays revoked |
| ImageEditorTool.ImageEditor.IsGenerateDisabled | components/ImageEditorTool.tsx:79 | Generate is disabled iff loading, no image is held, or every character of the prompt is whitespace |
| ImageEditorTool.ImageEditor.HandleGenerateClick | components/ImageEditorTool.tsx:42-51 | a call is made iff an image is held and the trimmed prompt is non-empty, so only when Generate is disabled can a press be refused. A refusal sets the validation message and leaves loading, the edited image and the call count alone. Otherwise the held file and the untrimmed prompt are sent, loading starts, and error and edited image are cleared |
| ImageEditorTool.ImageEditor.LoadingMeansCallPending | components/ImageEditorTool.tsx:46-57 | the spinner is set only when the call is issued and cleared in its `finally`, so a loading editor always has a call to complete |
| ImageEditorTool.ImageEditor.Complete | components/ImageEditorTool.tsx:52-58 | success stores the returned URL verbatim and failure stores the failure message. Loading ends either way, and the image and prompt are kept |
| ImageEditorTool.ImageEditor.SuggestPrompt | components/ImageEditorTool.tsx:74-76 | the prompt becomes the inspirational prompt at the drawn index, so always one of the five |
| ImageEditorTool.ImageEditor.HandleDownload | components/ImageEditorTool.tsx:63-68 | nothing happens without a truthy edited image. Otherwise the link points at the edited image and, in every reachable state, is named after the held file |
| ImageEditorTool.ImageEditor.VisibleDisplays | components/ImageEditorTool.tsx:113-123 | the four JSX guards, written as the component writes them, hold for exactly one block |
| ImageEditorTool.ImageEditor.CurrentDisplay | components/ImageEditorTool.tsx:113-123 | exactly one of the four guarded blocks is visible: loading, then a truthy error, then a truthy edited image, then the placeholder |
| ImageEditorTool.ImageEditor.DownloadMatchesDisplay | components/ImageEditorTool.tsx:115-119 | whenever the edited image is shown, its Download button saves that image under a name derived from the held file |
| ImageEditorTool.ImageEditor.Unmount | components/ImageEditorTool.tsx:26-30 | the cleanup on unmount revokes the preview on screen, after which every object URL the editor created is revoked |
| ImageEditorTool.EditOnce | components/ImageEditorTool.tsx:32-68 | from a fresh editor with a chosen file: a blank prompt shows the validation error and makes no call. Otherwise the file and prompt are sent. A failure shows its message; a non-empty URL shows the image with a download named after the file; an empty URL shows the placeholder |
| Sidebar.ViewIsClosed | components/Sidebar.tsx:4 | `View` has exactly five values, all listed once in navigation order |
| Sidebar.NavItems | components/Sidebar.tsx:35-61 | the items' views are the five views in navigation order |
| Sidebar.IsActive | components/Sidebar.tsx:73 | an item is active iff its view is the active view |
| Sidebar.ActiveIndex | components/Sidebar.tsx:73 | for any active view exactly one item is active, the one whose view it is |
| Sidebar.NavItemsListEachViewOnce | components/Sidebar.tsx:35-61 | every view has an item, and only one |
| Sidebar.ClickTarget | components/Sidebar.tsx:74 | clicking item `i` forwards its view, which makes item `i` the highlighted one |
| Dashboard.Hubs | components/Dashboard.tsx:11-40 | the table has four hubs |
| Dashboard.HubViewsAreTheOtherViews | components/Dashboard.tsx:11-40 | the four hubs lead to the four non-dashboard views, pairwise distinct, in navigation order |
| Dashboard.HubIndex | components/Dashboard.tsx:13-34 | every view but the dashboard has a hub |
| Dashboard.ClickTarget | components/Dashboard.tsx:59 | a hub button forwards the hub's view, never the dashboard |
| App.RenderActiveView | App.tsx:15-30 | the dashboard page is rendered iff the view is the dashboard; the `default` branch is unreachable |
| App.RenderActiveViewInjective | App.tsx:15-30 | each view has its own page |
| App.HeaderTitle | App.tsx:32-41 | the header title is the caption of the sidebar item for the same view |
| App.HeaderTitleInjective | App.tsx:32-41 | different views have different header titles |
| App.SidebarLabelsMatchHeaderTitles | components/Sidebar.tsx:35-61 | every sidebar label equals the header title of its view |
| App.HubTitlesMatchHeaderTitles | components/Dashboard.tsx:15-36 | every hub title equals the header title of its view |
| App.App.constructor | App.tsx:12-13 | the app starts on the dashboard with the About modal closed |
| App.App.SetActiveView | App.tsx:13 | the view changes and the About flag is kept |
| App.App.ClickNavItem | App.tsx:116 | a sidebar click activates that item's view, highlights that item and keeps the About flag |
| App.App.ClickHub | App.tsx:18 | a hub click on the dashboard activates the hub's view, which leaves the dashboard page |
| App.App.Header | App.tsx:121 | the header shows the label of the sidebar item highlighted for the active view |
| App.App.Body | App.tsx:133 | the main area shows the dashboard iff the dashboard is the active view |
| App.App.OpenAbout | App.tsx:124 | the About button opens the modal and keeps the view |
| App.App.CloseAbout | App.tsx:46-56 | the backdrop or the close button closes the modal and keeps the view |
| App.HeaderNamesTheBody | App.tsx:121-133 | two views have the same header title iff they render the same page |

## Left out

- JSX layout, CSS classes, icons and the About modal's prose are presentation only.
- `generateText` and `editImageWithPrompt` come from `services/geminiService`, which is not part of this model. Their results are the `Outcome` passed to `Complete`.
- async scheduling: the handlers are split at the awaited call, and completions may arrive in any order the caller chooses.
- `console.error` in the catch blocks has no effect on state.
- DOM download mechanics (creating, appending, clicking and removing the anchor) are left out. `HandleDownload` returns the link's `href` and file name.
- `URL.createObjectURL` and `URL.revokeObjectURL` are handles and a revoked set. The caller supplies the fresh handle. How many times a URL is revoked is not recorded.
- `Math.random` is the `random` parameter of `SuggestPrompt`, a real in [0, 1). Floating-point rounding of `random * 5` is not modelled.
- `triggerFileSelect` (a click forwarded to the hidden file input) and the `disabled` attributes of the Inspire Me button and the textarea are left out. They guard only the UI, not the handlers.
- React effect timing is left out beyond the revocation the preview effect performs. So is the loss of a hub's `activeTool` and a modal's state when its component unmounts because the view or the active tool changes.
- The `default` branches of `renderActiveView` and `getHeaderTitle` are unreachable with a `View`, so they are not modelled.
- JavaScript's whitespace set is written out by code point (tab, vertical tab, form feed, the space separators of current Unicode, the line terminators and the byte-order mark). Characters a later Unicode version adds to the space separators are not included.
