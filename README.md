# feature-generator core in Dafny

feature-generator turns UI mockups into software requirements by talking to a
local Ollama model service. This project models the deterministic part of that
pipeline and proves what it does:

- `OllamaClient`: `list_models`, `pull_model`, `model_exists` with its
  `:latest` rule, `ensure_model`, and the pre-checks and request building of
  `analyze_image` and `generate_text`.
- `ImageAnalyzer`:
  - the line-by-line component parser `_parse_components`;
  - the validation and result record of `analyze_image`;
  - the partial-failure batching of `analyze_batch`;
  - the frame selection, naming and clean-up of `analyze_video`.
- `RequirementsBuilder`:
  - the built-in template and the template fallback;
  - the single-screen, multi-screen and refinement prompts;
  - the three `build_*`/`refine_*` operations;
  - the extension rule and the write of `save_output`.

The model service is a value (`Gateway.Service`). It holds the listing reply,
the pull stream per model name, and the `generate` and `chat` replies as
functions of the request. The file system is a value too (`Files.FileSystem`):
regular files with their contents, plus the set of directories. Each
operation that talks to the service returns, besides its result, the list of
requests it made (`Gateway.Call`). That is how "fails before any request" and
"the last request is the chat with these messages" are stated.

Modules:

- `Text`: the Python string operations the core uses (`strip`, `lstrip`,
  `lower`, `split`, `in`, decimal and zero-padded formatting), plus facts about
  concatenation and the order of occurrences.
- `Errors`: the exceptions that leave the core, and their `str(e)`.
- `Files`: `Path.name`, `Path.suffix` and `Path.stem`, and the file system.
- `Gateway`: `OllamaClient`.
- `Components`: `_parse_components`.
- `Analyzer`: the rest of `ImageAnalyzer`.
- `Prompts`: `RequirementsBuilder`.

Where the code loops and updates variables, the model is a method with a loop,
proved equal to a specification function. The properties are then proved
about that function:

- the parser `Components.ParseComponents`;
- `Analyzer.AnalyzeBatch`, `Analyzer.ExtractFrames` and `Analyzer.CleanUp`;
- the prompt builders `Prompts.BuildPrompt` and `Prompts.BuildMultiScreenPrompt`;
- `Gateway.PullModel` and `Gateway.GenerateText`.

Where the code is straight-line, the model is a function.

Three points where the model follows the code rather than a looser reading of
it:

- **Frame interval.** `analyze_video` accepts any integer interval.
  - Zero raises `ZeroDivisionError` at the first frame, after the scratch
    directory exists, and the clean-up still runs.
  - A negative interval keeps the same frames as its absolute value, because
    Python's `%` returns 0 exactly for the multiples.
  - The model covers all three cases instead of requiring a positive interval.
- **The prompt is a parameter.** `Analyzer.ImageOutcome` and
  `Analyzer.VideoOutcome` take the prompt actually sent. `Analyzer.AnalyzeImage`
  passes the custom prompt or the built-in vision prompt, and
  `Analyzer.AnalyzeBatch` and `Analyzer.AnalyzeVideo` pass the built-in one,
  as the code does.
- **Zero interval with no frames.** `Analyzer.ExtractFrames` tests for a zero
  interval before the loop. This matches the code, whose first `%` raises
  exactly when there is at least one frame.

## Model

| member | source | states |
|---|---|---|
| Text.Strip | src/feature_generator/analyzer.py:151 | the result has no surrounding whitespace, is a contiguous piece of the line with only whitespace cut from either end, and is empty exactly for blank lines |
| Text.LStrip | src/feature_generator/analyzer.py:171 | the result is a suffix of the input, everything cut belongs to the character set, and the result does not start with one of them |
| Text.Lower | src/feature_generator/analyzer.py:156 | same length, each character lowered (ASCII) |
| Text.Split | src/feature_generator/analyzer.py:147 | at least one piece, no piece holds the separator |
| Text.JoinSplit | src/feature_generator/analyzer.py:147 | joining the pieces of `split` with the separator gives the text back |
| Text.Decimal | src/feature_generator/analyzer.py:220 | the decimal text of a number is non-empty and made of digits |
| Text.DecimalNoLeadingZero | src/feature_generator/analyzer.py:220 | like `str(n)`, the decimal text starts with the digit 0 exactly when the number is 0 |
| Text.DecimalValue | src/feature_generator/analyzer.py:220 | reading the decimal text back gives the number |
| Text.ZeroPad | src/feature_generator/analyzer.py:220 | `:04d` padding: the length is the wider of the text and the width, the text ends the result, and only zeros precede it |
| Text.ZeroPadValue | src/feature_generator/analyzer.py:220 | padding keeps the value of the digits |
| Files.Name | src/feature_generator/analyzer.py:86 | `Path.name` holds no separator, ends the path, and is the whole path or follows a separator |
| Files.LastIndex | src/feature_generator/analyzer.py:66 | `rfind`: none exactly when the character is absent; otherwise an index of it with none after |
| Files.SuffixStart | src/feature_generator/analyzer.py:66 | the suffix starts at the name's last dot, unless that dot starts or ends the name |
| Files.Suffix | src/feature_generator/analyzer.py:66 | `Path.suffix` is empty, or a dot, then at least one character without a dot, at the end of a name it does not exhaust |
| Files.Stem | src/feature_generator/analyzer.py:210 | `Path.stem` followed by the suffix is the name |
| Files.NameAppend | src/feature_generator/prompt_builder.py:297-299 | appending text without a separator extends the name by that text |
| Files.AppendedSuffix | src/feature_generator/prompt_builder.py:297-299 | a named path given `.ext` (no dot or separator in `ext`) has suffix `.ext` |
| Gateway.ListModels | src/feature_generator/ollama_client.py:55-60 | the `models` entry of the listing; the empty list when the entry is missing or the listing raises |
| Gateway.NormalizeName | src/feature_generator/ollama_client.py:104-106 | a name with a colon is kept; any other name gets `:latest`; the result always has a colon |
| Gateway.NormalizeIdempotent | src/feature_generator/ollama_client.py:104-106 | normalising twice is normalising once |
| Gateway.Names | src/feature_generator/ollama_client.py:102 | the `name` field of every listed model, in order |
| Gateway.NamesListed | src/feature_generator/ollama_client.py:102 | a name is among the names exactly when some listed model carries it |
| Gateway.ModelExists | src/feature_generator/ollama_client.py:101-108 | true exactly when some listed model's name is the normalised name |
| Gateway.BareNameIsLatest | src/feature_generator/ollama_client.py:104-108 | `m` and `m:latest` get the same answer for the same listing |
| Gateway.ReportedStatuses | src/feature_generator/ollama_client.py:79-81 | no more status lines are shown than progress events arrive |
| Gateway.PullModel | src/feature_generator/ollama_client.py:73-89 | true exactly when the progress stream ends without an exception; the status lines shown only when progress is on |
| Gateway.EnsureModel | src/feature_generator/ollama_client.py:120-124 | available means listed or pulled; a listed model is never pulled; an unlisted one is pulled last |
| Gateway.ChatMessages | src/feature_generator/ollama_client.py:184-187 | one user message with the prompt, last; a system message first exactly when a system prompt is given; no other system message |
| Gateway.TextExchange | src/feature_generator/ollama_client.py:180-195 | every text request starts with the listing |
| Gateway.GenerateText | src/feature_generator/ollama_client.py:180-195 | computes the text exchange; an unavailable model fails with the runtime error and no chat request; otherwise the chat request goes last and succeeds exactly when the service replies |
| Gateway.TextSent | src/feature_generator/ollama_client.py:183-193 | for an available model: the chat request is last, success matches a reply, and the reply's content is returned unchanged |
| Gateway.ImageExchange | src/feature_generator/ollama_client.py:144-160 | every image request starts with the listing |
| Gateway.ImageSent | src/feature_generator/ollama_client.py:147-160 | for an available model and a readable file: the generate request with the file's bytes is last, success matches a reply, and the `response` entry (or "") is returned |
| Gateway.AnalyzeImage | src/feature_generator/ollama_client.py:144-160 | computes the image exchange; an unavailable model fails with no read and no generate request; otherwise the generate request with the file's contents goes last |
| Gateway.RecommendedModels | src/feature_generator/ollama_client.py:204-207 | both recommended names are already in normalised form |
| Components.Initial | src/feature_generator/analyzer.py:138-145 | the six categories, in order, all empty |
| Components.Classify | src/feature_generator/analyzer.py:157-168 | a header line names one of the six categories |
| Components.MatchesGroupWords | src/feature_generator/analyzer.py:157-168 | each keyword group matches exactly when the lowered line contains one of its words |
| Components.ClassifyFirstMatch | src/feature_generator/analyzer.py:157-168 | a line is a header for category g exactly when group g matches and no earlier group does |
| Components.ClassifyNone | src/feature_generator/analyzer.py:157-169 | a line is no header exactly when no group matches |
| Components.LineItem | src/feature_generator/analyzer.py:171 | the stored item is stripped |
| Components.Append | src/feature_generator/analyzer.py:173 | appends the item to one category's list and changes nothing else |
| Components.Step | src/feature_generator/analyzer.py:150-173 | a blank line changes nothing; a header switches the current category; a bulleted line under an active category appends its item |
| Components.StepChanges | src/feature_generator/analyzer.py:169-173 | a line leaves every category unchanged except that the active one may gain this line's item |
| Components.Parse | src/feature_generator/analyzer.py:138-175 | the result has exactly the six keys, in order |
| Components.ParseComponents | src/feature_generator/analyzer.py:138-175 | the loop computes the specification and returns the six keys |
| Components.RunFromAppend | src/feature_generator/analyzer.py:150 | parsing two runs of lines is parsing the first, then the second from where it stopped |
| Components.NoHeaderNoEffect | src/feature_generator/analyzer.py:169 | with no active category, lines that are not headers change nothing |
| Components.LinesBeforeFirstHeaderIgnored | src/feature_generator/analyzer.py:169 | lines before the first header do not contribute |
| Components.RunExtendsPrefix | src/feature_generator/analyzer.py:173 | each category's list for a prefix of the lines is a prefix of its final list: items keep text order |
| Components.TotalItemsUpdate | src/feature_generator/analyzer.py:173 | replacing one category changes the total by the difference in its length |
| Components.ItemsAtMostLines | src/feature_generator/analyzer.py:147-173 | the total number of items is at most the number of lines |
| Components.StepItems | src/feature_generator/analyzer.py:169-173 | an item present after a line was there before, or is this line's item |
| Components.ItemFromStepAt | src/feature_generator/analyzer.py:171-173 | an item present after a line is non-empty, stripped, and comes from some line read so far |
| Components.ItemsFromStep | src/feature_generator/analyzer.py:171-173 | each line keeps the property "every item is non-empty, stripped and from some line" |
| Components.ItemsComeFromListLines | src/feature_generator/analyzer.py:147-175 | every stored item is non-empty, stripped and taken from a bulleted line of the text |
| Analyzer.AnalyzeImage | src/feature_generator/analyzer.py:61-90 | computes the image outcome with the custom prompt, or the built-in one when the custom prompt is empty |
| Analyzer.RejectedBeforeAnyCall | src/feature_generator/analyzer.py:63-67 | a missing path or a suffix outside the four image types is rejected with its error, and exactly then no request is made |
| Analyzer.PromptSent | src/feature_generator/analyzer.py:72-79 | for an accepted image and an available model: the last request is the generate request with this prompt and the image's bytes; success matches a reply; the record holds the reply's text |
| Analyzer.LettersOnly | src/feature_generator/analyzer.py:66 | an extension whose lowered form is letters holds no dot or separator |
| Analyzer.DottedImageSuffix | src/feature_generator/analyzer.py:66 | a dot before an image extension, in any letter case, gives an accepted suffix |
| Analyzer.LowerDotted | src/feature_generator/analyzer.py:66 | lowering `.ext` is a dot before the lowered extension |
| Analyzer.AcceptedSuffix | src/feature_generator/analyzer.py:63-67 | an existing path whose lowered suffix is an image suffix passes both checks |
| Analyzer.ImageExtensionAccepted | src/feature_generator/analyzer.py:63-67 | an existing `name.png`, `.JPG`, `.jpeg`, `.WebP` (any case) passes both checks |
| Analyzer.AnalysisRecord | src/feature_generator/analyzer.py:84-90 | a successful record holds the path, its name, the model, and the parse of its own raw text with the six keys |
| Analyzer.BatchEntries | src/feature_generator/analyzer.py:107-123 | one entry per input |
| Analyzer.BatchGrows | src/feature_generator/analyzer.py:111-121 | each input adds its entry at the end and its requests after the earlier ones |
| Analyzer.AnalyzeBatch | src/feature_generator/analyzer.py:107-123 | the loop computes the batch specification: the entries and the requests of the inputs, in input order |
| Analyzer.BatchEntryPerInput | src/feature_generator/analyzer.py:113-121 | entry i names input i; it is an error entry exactly when that input fails, with the error's message, and otherwise its record |
| Analyzer.BatchEntriesSplit | src/feature_generator/analyzer.py:111 | the entries of two runs of inputs are the entries of each, in order: a failure does not stop later inputs |
| Analyzer.BatchCallsSplit | src/feature_generator/analyzer.py:111 | the same for the requests |
| Analyzer.Kept | src/feature_generator/analyzer.py:219 | no more frames are kept than read |
| Analyzer.KeptFrames | src/feature_generator/analyzer.py:214-225 | frame k is kept exactly when it was read and k mod interval is 0 |
| Analyzer.KeptStep | src/feature_generator/analyzer.py:219 | between two multiples of the interval, only the upper one is kept |
| Analyzer.KeptCount | src/feature_generator/analyzer.py:219-223 | with m frames kept, the frame count lies in ((m-1)·|interval|, m·|interval|] |
| Analyzer.KeptElements | src/feature_generator/analyzer.py:219-223 | the j-th kept frame is frame j·|interval| |
| Analyzer.KeptIsCeiling | src/feature_generator/analyzer.py:238 | `analyzed_frames` is ceil(total / |interval|) |
| Analyzer.FrameNameExample | src/feature_generator/analyzer.py:220 | frames 7 and 42 are named `frame_0007.png` and `frame_0042.png` |
| Analyzer.FrameNamesDistinct | src/feature_generator/analyzer.py:220 | different frame numbers give different names, also beyond 9999 |
| Analyzer.FramePathBelow | src/feature_generator/analyzer.py:220 | every frame path lies inside the scratch directory |
| Analyzer.FramePathsDistinct | src/feature_generator/analyzer.py:220 | frame paths are distinct |
| Analyzer.FramePaths | src/feature_generator/analyzer.py:222 | one path per saved frame |
| Analyzer.Extract | src/feature_generator/analyzer.py:221 | saving frames creates no directory |
| Analyzer.ExtractFrame | src/feature_generator/analyzer.py:219-223 | the j-th saved path holds the j-th kept frame of this video, unless a directory is in the way |
| Analyzer.ExtractOthers | src/feature_generator/analyzer.py:221 | files other than the frame paths are untouched |
| Analyzer.UnlinkAll | src/feature_generator/analyzer.py:246-247 | unlinking paths that are not directories removes exactly those files, missing ones included |
| Analyzer.ExtractGrows | src/feature_generator/analyzer.py:219-225 | one more frame read adds one saved frame exactly when its number is a multiple of the interval |
| Analyzer.ExtractFrames | src/feature_generator/analyzer.py:214-225 | the loop raises exactly for a zero interval with at least one frame; otherwise it reads every frame; it saves the kept frames under consecutive names |
| Analyzer.CleanUp | src/feature_generator/analyzer.py:244-248 | the loop computes the `finally` clean-up specification |
| Analyzer.AnalyzeVideo | src/feature_generator/analyzer.py:196-248 | computes the video outcome with the built-in prompt |
| Analyzer.VideoMissing | src/feature_generator/analyzer.py:198-199 | a missing video fails with not-found, no request and no change |
| Analyzer.UnlinkFrames | src/feature_generator/analyzer.py:246-247 | unlinking the saved frames leaves the file system as before extraction, with the scratch directory |
| Analyzer.CleanupRestores | src/feature_generator/analyzer.py:244-248 | when the scratch directory held nothing before, the clean-up removes every saved frame and the directory and raises nothing |
| Analyzer.VideoResult | src/feature_generator/analyzer.py:204-248 | for a fresh scratch directory: the file system ends as it began minus that directory; a zero interval with frames raises with no request; otherwise the record holds the path, name, total, ceil count, interval, model and the batch analysis of the saved frames |
| Analyzer.SavedFrameContents | src/feature_generator/analyzer.py:219-221 | the j-th saved frame file holds frame j·|interval| of this video |
| Prompts.TemplatePathPlacement | src/feature_generator/prompt_builder.py:161 | the template path ends in `.yaml`; a relative name is looked up under the templates directory, an absolute name where it points, whatever the directory |
| Prompts.LoadTemplate | src/feature_generator/prompt_builder.py:161-170 | no file at the template path gives the built-in template; a file gives its parse; a directory there is the only failure |
| Prompts.Replace | src/feature_generator/prompt_builder.py:219 | each character equal to `from` becomes `to`, the rest are kept |
| Prompts.Title | src/feature_generator/prompt_builder.py:219 | same length |
| Prompts.TitleCases | src/feature_generator/prompt_builder.py:219 | each character equals the input's up to case; letters stay letters; a letter is upper case exactly when it starts a run of letters |
| Prompts.TitleIdempotent | src/feature_generator/prompt_builder.py:219 | title-casing twice is title-casing once |
| Prompts.Label | src/feature_generator/prompt_builder.py:219 | the label has the key's length and no underscore |
| Prompts.CategoryLabels | src/feature_generator/prompt_builder.py:219 | `ui_elements` is labelled `Ui Elements` |
| Prompts.BulletLines | src/feature_generator/prompt_builder.py:220-221 | one `- item` line per item |
| Prompts.CategoryBlocks | src/feature_generator/prompt_builder.py:217-221 | one block per category |
| Prompts.AppendBullets | src/feature_generator/prompt_builder.py:230-231 | the loop adds the list's lines to the prompt |
| Prompts.AppendComponents | src/feature_generator/prompt_builder.py:217-221 | the nested loop adds the category blocks, in order |
| Prompts.AppendTech | src/feature_generator/prompt_builder.py:233-236 | the loop adds the technology block, which is empty for no technologies |
| Prompts.BuildPrompt | src/feature_generator/prompt_builder.py:202-249 | the appends build exactly the prompt text |
| Prompts.PromptParts | src/feature_generator/prompt_builder.py:206-247 | the prompt has seven parts |
| Prompts.PromptIsParts | src/feature_generator/prompt_builder.py:206-247 | the prompt is its seven parts in order |
| Prompts.PartInPrompt | src/feature_generator/prompt_builder.py:206-247 | each part occurs whole at its place |
| Prompts.PartOrder | src/feature_generator/prompt_builder.py:206-247 | order inside a part is order in the prompt |
| Prompts.PromptFraming | src/feature_generator/prompt_builder.py:206-247 | the prompt starts with the line naming the output format and ends with "Format the output as well-structured {format}." |
| Prompts.PromptCarriesAnalysis | src/feature_generator/prompt_builder.py:202-211 | the image name (default `mockup`) and then the raw analysis appear verbatim |
| Prompts.BulletInList | src/feature_generator/prompt_builder.py:220-221 | each item's line is in the list at its place |
| Prompts.BulletsInOrder | src/feature_generator/prompt_builder.py:220-221 | the lines of a list keep the list's order |
| Prompts.HeaderThenBullets | src/feature_generator/prompt_builder.py:219-221 | every line of a list follows the header before it |
| Prompts.CategoriesInOrder | src/feature_generator/prompt_builder.py:217 | categories appear in the mapping's order |
| Prompts.BlockItemListed | src/feature_generator/prompt_builder.py:218-221 | inside a category block, every item follows the label line |
| Prompts.BlockItemsInOrder | src/feature_generator/prompt_builder.py:218-221 | inside a category block, of any two items the earlier one in the list comes first (and after the label line) |
| Prompts.CategoryItemListed | src/feature_generator/prompt_builder.py:217-221 | in the prompt, every item of a category follows that category's label line |
| Prompts.CategoryItemsInOrder | src/feature_generator/prompt_builder.py:217-221 | in the prompt, of any two items of a category the earlier one in the list comes first |
| Prompts.NonEmpty | src/feature_generator/prompt_builder.py:218 | every kept category has items |
| Prompts.CategoryBlocksAppend | src/feature_generator/prompt_builder.py:217 | the blocks of two runs of categories are the blocks of each |
| Prompts.EmptyCategoriesVanish | src/feature_generator/prompt_builder.py:218 | leaving out the empty categories gives the same text |
| Prompts.PromptWithoutEmptyCategories | src/feature_generator/prompt_builder.py:218 | an analysis without its empty categories gets the same prompt |
| Prompts.SectionAfterHeader | src/feature_generator/prompt_builder.py:228-231 | every section of the template is listed after the output-structure header naming the template |
| Prompts.SectionsListed | src/feature_generator/prompt_builder.py:228-231 | of any two sections, the earlier one in the template is listed first |
| Prompts.TechBlockIff | src/feature_generator/prompt_builder.py:233-236 | dropping `tech_stack_defaults` leaves the prompt unchanged exactly when it lists no technology |
| Prompts.TechListed | src/feature_generator/prompt_builder.py:229-236 | the technology header follows the sections line, and each technology's line follows the header |
| Prompts.DefaultTemplatePrompt | src/feature_generator/prompt_builder.py:172-183 | the built-in template has four sections and no technologies; its prompt lists the four sections in their order after its header |
| Prompts.ScreenBlocks | src/feature_generator/prompt_builder.py:262-266 | one block per analysis |
| Prompts.BuildMultiScreenPrompt | src/feature_generator/prompt_builder.py:257-279 | the appends build exactly the multi-screen text |
| Prompts.MultiFraming | src/feature_generator/prompt_builder.py:257-277 | the prompt opens with the number of analyses and ends with the markdown instruction |
| Prompts.ScreenInPrompt | src/feature_generator/prompt_builder.py:257-266 | every screen's block, numbered from 1, is in the prompt right after the opening and the blocks of the screens before it |
| Prompts.ScreensInOrder | src/feature_generator/prompt_builder.py:262-266 | of any two screens, the earlier one in the input is listed first, each under its number counting from 1 |
| Prompts.BlocksInOrder | src/feature_generator/prompt_builder.py:262 | earlier blocks come before later ones |
| Prompts.ScreenCarriesAnalysis | src/feature_generator/prompt_builder.py:263-266 | each screen block opens with `### Screen i: name` and continues with the raw analysis, verbatim; the name defaults to `Screen i` |
| Prompts.RefineCarriesBoth | src/feature_generator/prompt_builder.py:132-139 | the requirements and the feedback appear verbatim, each after its introduction, the requirements first |
| Prompts.SystemPromptFirst | src/feature_generator/prompt_builder.py:65-69 | for an available model, the request sends the system prompt, then the prompt |
| Prompts.BuildRequirements | src/feature_generator/prompt_builder.py:59-73 | computes the requirements exchange: a template that cannot be read fails with no request; otherwise the built prompt goes to the text model |
| Prompts.BuildMultiScreenRequirements | src/feature_generator/prompt_builder.py:97-111 | the same with the multi-screen prompt |
| Prompts.RefineRequirements | src/feature_generator/prompt_builder.py:132-149 | sends the refinement prompt with the system prompt and returns the reply |
| Prompts.RequirementsFlow | src/feature_generator/prompt_builder.py:59-73 | a template error ends the operation with no request; otherwise, for an available model, the chat request with the system prompt and this prompt is last |
| Prompts.MultiFlow | src/feature_generator/prompt_builder.py:97-111 | a template error ends the operation with no request; otherwise the loaded template plays no part in the request |
| Prompts.OutputTarget | src/feature_generator/prompt_builder.py:295-299 | a path with a suffix is kept; otherwise `with_suffix` fails exactly for a format that is empty or holds a separator, or for a path without a name |
| Prompts.OutputGetsFormat | src/feature_generator/prompt_builder.py:297-299 | a path without a suffix gets `path.format`, whose suffix is `.format` |
| Prompts.OutputTargetIdempotent | src/feature_generator/prompt_builder.py:297-299 | for a format without a dot, choosing the target again keeps it |
| Prompts.WriteText | src/feature_generator/prompt_builder.py:301 | writing to a directory fails; otherwise the target holds the content verbatim and no other entry changes |
| Prompts.SaveOutput | src/feature_generator/prompt_builder.py:295-301 | the content goes to the target `with_suffix` chose, and its errors stop the write |

## Left out

- `cli.py` and `__init__.py`: command-line glue, tables and the interactive confirmation.
- Console output, progress display and spinners: they do not affect results.
- `check_health`: an `httpx` request outside the core.
- `async`/`await`: every await is modelled as an ordinary call.
- The service's real behaviour is a parameter. A successful pull does not add the model to the listing the model sees.
- A listing entry without a `name` field is not modelled; the code would raise `KeyError` there.
- OpenCV decoding is left out: the number of frames the video yields is a parameter. `imwrite` into a directory is modelled as a silent no-op; other `imwrite` failures are not modelled.
- YAML parsing is a parameter (`parse`). YAML syntax errors and a file that loads as something other than a mapping are not modelled.
- Analysis and template values are modelled as present-or-absent entries of the expected type. An entry present with value `None`, or of another type, is not modelled.
- Path normalisation by `pathlib` (repeated or trailing separators, `.`) is not modelled: paths are taken in normal form.
- Missing parent directories for `write_text`, `mkdir` and `open`, and text encoding, are not modelled.
- Text.Lower and Prompts.Title: only ASCII letters change case; Python's Unicode case mapping is not modelled.
- Errors.Message: the `repr` of a path in `with_suffix`'s message does not escape quotes or special characters.
- Prompts.Title: states only the length; the letter-by-letter behaviour is in Prompts.TitleCases.
- Gateway.ReportedStatuses: states only the bound on the number of lines; the lines are the `status` entries by definition.
