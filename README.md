# storyx story generator, modelled in Dafny

storyx is a small web application that writes an essay-like "story" with a generative model: the
user gives a topic, an expertise, a tone, a writing style, optional context, optional YouTube
references and a number of parts, and the application asks the model for the parts one after
another. Each prompt carries the summaries of the parts before it, so that later parts build on
the earlier ones.

This project models the core of that application and proves properties of the model:

- `config.dfy` (module `Config`): the allow-lists, the keyword classifier `get_topic_category`,
  and the checks `init_gemini` makes before it configures the client.
- `prompt_builder.dfy` (module `PromptBuilder`): `build_story_prompt`. Three parts of it are
  modelled:
  - the instruction lookups with their fallbacks;
  - the custom template filled by `str.format`, or else the built-in body;
  - the position guidance chosen from `(part - 1) / (total - 1)`, and the continuity reminder.
- `templates.dfy` (module `Templates`): Python's `str.format` with keyword arguments. A template is
  read into literal characters, fields and a trailing error marker. Formatting is done left to
  right, so the first field that cannot be filled raises.
- `prompt_manager.dfy` (module `PromptStore`): `PromptManager`. It is a class over the prompts
  file, abstracted as the map it holds, or as missing, or as unreadable. It has save, get,
  delete (which refuses 'default') and list.
- `services.dfy` (module `Services`): the two outside services as oracles.
  - The model client answers its `n`-th prompt with a reply or a raised message.
  - The video extractor turns its `n`-th URL into text.
  - Both keep a log of what they were asked.
- `reference_processor.dfy` (module `References`): `process_youtube_references`, with its two
  loops. The first loop fetches and keeps the texts that are not errors. The second analyses
  each kept text. A final call combines the successful analyses.
- `story_generator.dfy` (module `Stories`): `StoryGenerator` and `generate_summary`.
  - Validation, and the reference step that may add an integrated context.
  - The template choice and one part.
  - The part loop of `generate_complete_story`, which appends a summary after every part but the
    last.
- `youtube.dfy` (module `YouTube`): `extract_video_id` from `utils/youtube_extractor.py`: 
  Three patterns are tried in order; each is searched leftmost-first and captures the run up to
  `&`, `?` or a newline.
- `app.dfy` (module `App`): the `/generate` handler up to where it constructs the generator, and
  the `/download` handler. Both are decisions from the request to the reply.
- `wrappers.dfy`, `text.dfy` and `numerals.dfy`: `Option`/`Result`, and the Python string
  operations the code relies on. These are `startswith`, `in`, `lower`, `join`, `str(int)` and
  `int(str)`.

The imperative parts of the source are methods on classes:
- `PromptManager`, `ReferenceProcessor` and `StoryGenerator`, with their loops and invariants;
- `ModelClient` and `VideoSource`, whose logs grow with every call.

Each such method is proved equal to a pure specification function over the oracles and the logs
before the call (`ProcessReferences`, `ChunkRun`, `Loop`/`CompleteStory`). The properties are
then proved about those functions.

The specifications are parametric in the fixed texts:
- the builder's lookup tables, built-in body and closings (`PromptBuilder.Texts`);
- the wording of the generator's and processor's own prompts (`Stories.Wording`,
  `References.Wording`);
- the store's built-in prompts (`defaults`).

The constructors fix these to the source's own values (`PromptBuilder.Source`,
`Stories.SourceWording`, `References.SourceWording` and `PromptStore.DefaultPrompts`). So every
property stated for any texts holds for the application's in particular, and the long literals
are kept out of the proofs that do not need them.

Four behaviours of the code are worth stating plainly:
- **A failed part does not abort the run.** The part becomes the text
  "Error generating story part N: …" and the loop goes on.
- **A failed summary is not skipped.** It becomes "Summary unavailable: …" and is still passed to
  later parts.
- **There is no retry, backoff or empty-response check.** Each part and each summary is one model
  call.
- **`total_parts` of 1 is not special-cased.** Part 1 is the opening, whatever the total.

## Model

| member | source | states |
|---|---|---|
| Config.Matches | utils/config.py:113 | some keyword of category `k` occurs in the text |
| Config.FirstMatch | utils/config.py:111-117 | the result is one of the categories from index `k` on, or "general" |
| Config.TopicCategory | utils/config.py:90-117 | `get_topic_category` returns one of the four categories or "general" |
| Config.CategoriesDistinct | utils/config.py:104-109 | the four categories are distinct and none is "general" |
| Config.FirstMatchIff | utils/config.py:111-114 | from index `k`, category `i` is returned iff its keywords match and no earlier category's do |
| Config.FirstMatchFallback | utils/config.py:111-117 | from index `k`, "general" is returned iff no later category matches |
| Config.TopicCategoryIff | utils/config.py:101-114 | topic is in category `i` iff its lowered text contains a keyword of `i` and none of any earlier category (first match wins) |
| Config.TopicCategoryFallback | utils/config.py:112-117 | "general" exactly when no keyword of any category occurs in the lowered topic |
| Config.TopicCategoryIgnoresCase | utils/config.py:101 | the category of a topic equals that of its lowered text |
| Config.StartupIsCreative | utils/config.py:105-113 | "startup" is classified creative: substring matching finds "art" before the business keyword "startup" is tried |
| Config.StartupFacts | utils/config.py:105-108 | "startup" is already lower case, matches no technical keyword and matches the creative keyword "art" |
| Config.StartupNotTechnical | utils/config.py:105 | no technical keyword occurs in "startup" |
| Config.InitGemini | utils/config.py:77-85 | an unsupported model raises "Model X not supported"; otherwise the key is the argument, else the environment's; a missing key raises "API key not found"; it succeeds iff the model is allowed and some key is non-empty |
| Config.ModelCheckedFirst | utils/config.py:78-85 | for an unsupported model the outcome does not depend on the keys |
| Text.Contains | utils/config.py:113 | `p in s` |
| Text.Join | utils/story_generator.py:118 | `sep.join(parts)` |
| Text.ContainsIff | utils/config.py:113 | `p in s` holds iff `p` occurs at some index of `s` |
| Text.ContainsAt | utils/config.py:113 | an occurrence at an index gives containment |
| Text.NotContainsChar | utils/config.py:113 | a keyword holding a character the text lacks is not contained |
| Text.LowerChar | utils/config.py:101 | ASCII capitals map to lower case, every other character is unchanged |
| Text.Lower | utils/config.py:101 | `lower()` keeps the length and lowers character by character |
| Text.LowerLower | utils/config.py:101 | lowering twice is lowering once |
| Text.JoinAppend | utils/story_generator.py:118 | joining one more part appends the separator and the part (just the part when it is the first) |
| Numerals.DigitChar | utils/prompt_builder.py:109 | a digit below ten becomes the character with that value |
| Numerals.NatToString | utils/prompt_builder.py:109 | `str(n)` is a non-empty string of digits without a leading zero |
| Numerals.IntToString | utils/prompt_builder.py:94-96 | `str(i)` starts with '-' iff `i` is negative and ends in a digit |
| Numerals.StripLeft | app.py:63 | the result is a suffix of the text with no leading whitespace |
| Numerals.StripRight | app.py:63 | the result is a prefix of the text with no trailing whitespace |
| Numerals.ParseDigits | app.py:63 | a digit string is accepted iff it is non-empty, starts and ends with a digit, has single underscores only, and has at most 4300 digits; its value ignores the underscores |
| Numerals.DigitCountAllDigits | app.py:63 | in a string of digits only, every character counts towards the 4300-digit limit |
| Numerals.DigitLimit | app.py:63 | a string of more than 4300 digits is refused by `int()` |
| Numerals.ParseInt | app.py:63 | `int(s)` succeeds only on stripped text starting with a digit or a sign |
| Numerals.DigitsValueOfNat | app.py:63 | the value of the digits of `str(n)` is `n` |
| Numerals.ParseNatString | app.py:63 | the digits of `str(n)` parse to `n` |
| Numerals.StripNoSpace | app.py:63 | text without whitespace at either end is not changed by stripping |
| Numerals.NotAnInteger | app.py:63 | text starting with anything but whitespace, a sign or a digit is refused by `int()` |
| Numerals.NatRoundTrip | app.py:63 | `int(str(n)) == n` for `n >= 0` of at most 4300 digits |
| Numerals.NegativeRoundTrip | app.py:63 | `int("-" + str(n)) == -n` for `n` of at most 4300 digits |
| Numerals.IntRoundTrip | app.py:63 | `int(str(i)) == i` for every integer of at most 4300 digits |
| Templates.NameEnd | utils/prompt_builder.py:94-106 | a field name runs up to the first brace after the opening `{`, or to the end of the template |
| Templates.Tokenize | utils/prompt_builder.py:94-106 | `str.format` reads the template left to right into literal characters, fields and at most one trailing error |
| Templates.TokenizeFieldErrors | utils/prompt_builder.py:94-106 | inside a field name, a `{` before any `}` raises "unexpected '{' in field name", and the end of the template raises "expected '}' before end of string" |
| Templates.FieldErrorExamples | utils/prompt_builder.py:94-106 | `"{a{b}"` and `"{a{"` raise "unexpected '{' in field name"; `"{ab"` raises "expected '}' before end of string" |
| Templates.Repr | utils/prompt_builder.py:94-106 | the `KeyError` message `repr(name)` is the name between the quotes `repr` chooses |
| Templates.ReprCharsPlain | utils/prompt_builder.py:94-106 | characters with no escape are shown as they are |
| Templates.ReprPlain | utils/prompt_builder.py:94-106 | a name with no quote, backslash or control character is shown between single quotes |
| Templates.ReprExamples | utils/prompt_builder.py:94-106 | `it's` is shown as `"it's"`, and a newline in a name is shown as `\n` |
| Templates.Format | utils/prompt_builder.py:94-106 | `template.format(**args)` fills the pieces left to right and raises the first error met |
| Templates.Render | utils/prompt_builder.py:94-106 | the template text of the pieces, with literal braces doubled (the inverse of `Tokenize`, see below) |
| Templates.TokenizeChar | utils/prompt_builder.py:94-106 | a character that is not a brace is read as one literal character |
| Templates.TokenizeDoubled | utils/prompt_builder.py:94-106 | `{{` and `}}` are read as one literal brace |
| Templates.TokenizeOpenField | utils/prompt_builder.py:94-106 | `{name}` whose name holds no brace is read as the field `name` |
| Templates.TokenizeError | utils/prompt_builder.py:94-106 | a brace that opens no escape and no closed field ends the template in an error marker |
| Templates.ShapedCons | utils/prompt_builder.py:94-106 | prefixing a non-error piece keeps the template shape |
| Templates.TokenizeShape | utils/prompt_builder.py:94-106 | only the last piece read can be an error, and every literal is one character |
| Templates.Lookup | utils/prompt_builder.py:94-106 | a field fills iff its name is a supplied keyword (not empty, not all digits, leading digits within `sys.maxsize`), with that value; otherwise an empty name is positional index 0, a name whose leading digits exceed `sys.maxsize` is "Too many decimal digits" whatever follows them, another numeric name is that positional index, and any other name is a `KeyError` |
| Templates.LeadingDigits | utils/prompt_builder.py:94-106 | the digits `format` reads at the start of a field name: a digit-only prefix that stops at the first non-digit, and the whole name iff the name is all digits |
| Templates.DigitsValuePrefix | utils/prompt_builder.py:94-106 | the value read so far never decreases, so the overflow check fires iff the whole leading run is above `sys.maxsize` |
| Templates.KeywordNoOverflow | utils/prompt_builder.py:94-106 | a name starting with a non-digit is neither a positional index nor an overflow |
| Templates.TwentyDigitsOverflow | utils/prompt_builder.py:94-106 | twenty leading digits not starting with 0, followed by a non-digit, raise "Too many decimal digits" before the rest of the name is read |
| Templates.OverflowExamples | utils/prompt_builder.py:94-106 | `{12345678901234567890x}` and `{99999999999999999999.a}` raise "Too many decimal digits" |
| Templates.Message | utils/story_generator.py:89-90 | `str(e)` of each exception `format` raises: the four syntax messages, the digits message, `repr` of the key, and the index message |
| Templates.FormatSucceedsIff | utils/prompt_builder.py:94-106 | `format` succeeds iff every piece can be filled |
| Templates.FormatFirstError | utils/prompt_builder.py:94-106 | a failure is the error of the first piece that cannot be filled, all earlier pieces filling |
| Templates.FormatConcat | utils/prompt_builder.py:94-106 | formatting a concatenation formats the left part first, then the right |
| Templates.Chars | utils/prompt_builder.py:94-106 | a text as one literal piece per character |
| Templates.FormatChars | utils/prompt_builder.py:94-106 | literal characters format to themselves |
| Templates.FormatExplode | utils/prompt_builder.py:94-106 | splitting literals into characters does not change the formatted text |
| Templates.RenderCons | utils/prompt_builder.py:94-106 | rendering a piece followed by others is rendering each in turn |
| Templates.RenderTokenize | utils/prompt_builder.py:94-106 | a template read without errors renders back to itself |
| Templates.RenderDoubled | utils/prompt_builder.py:94-106 | the escaped-brace step of the render round trip |
| Templates.RenderField | utils/prompt_builder.py:94-106 | the field step of the render round trip |
| Templates.RenderChar | utils/prompt_builder.py:94-106 | the literal step of the render round trip |
| Templates.RenderTokenizeStep | utils/prompt_builder.py:94-106 | a first piece that renders the first `k` characters extends the round trip |
| Templates.TokenizeEscape | utils/prompt_builder.py:94-106 | an escaped literal is read back as its characters |
| Templates.CloseAfterName | utils/prompt_builder.py:94-106 | the closing brace after a brace-free name is found right after it |
| Templates.TokenizeField | utils/prompt_builder.py:94-106 | `{name}` is read back as the field `name` |
| Templates.TokenizeRender | utils/prompt_builder.py:94-106 | reading back a rendered template gives its pieces, with literals split into characters |
| PromptBuilder.ExpertiseFallback | utils/prompt_builder.py:21-31 | the expertise instruction is empty iff the expertise is not an allowed level, and never raises |
| PromptBuilder.ToneFallback | utils/prompt_builder.py:33-45 | the tone instruction is empty iff the tone is not an allowed tone |
| PromptBuilder.StyleFallback | utils/prompt_builder.py:47-90 | a style gets the 'balanced' guidelines iff it is 'balanced' or not an allowed style |
| PromptBuilder.ContextText | utils/prompt_builder.py:16 | the context section is empty iff the context is, else it is the header followed by the context |
| PromptBuilder.PreviousContext | utils/prompt_builder.py:17-19 | the previous-parts section is present iff there are summaries and the part is after the first; it is the summaries joined by newlines |
| PromptBuilder.Arguments | utils/prompt_builder.py:94-106 | a custom template is formatted with exactly the eleven keyword arguments |
| PromptBuilder.PositionOf | utils/prompt_builder.py:142-189 | part 1 is the opening, otherwise the last part is final; division by zero is raised iff the part is neither and the total is 1 |
| PromptBuilder.TemplateBody | utils/prompt_builder.py:93-139 | an empty custom template gives the built-in body; otherwise the body builds iff the template can be filled |
| PromptBuilder.FillFor | utils/prompt_builder.py:15-106 | the values the body is filled with: the part and total as text, the category, the context and previous-parts sections, and the three instructions looked up with their fallbacks |
| PromptBuilder.Closing | utils/prompt_builder.py:142-200 | the guidance for the part's position followed by the continuity reminder |
| PromptBuilder.BuiltInBody | utils/prompt_builder.py:107-139 | the built-in body, with the part, total, topic, category, context, previous parts and the three instructions in their places |
| PromptBuilder.GuidanceText | utils/prompt_builder.py:142-189 | the guidance text of each position: opening, final and the three middle bands |
| PromptBuilder.ErrorMessage | utils/story_generator.py:89-90 | `str(e)` of an exception from the builder: the format message, or "division by zero" |
| PromptBuilder.BuildStoryPrompt | utils/prompt_builder.py:4-202 | `build_story_prompt` is `BuildWith` over the source's own texts, so every property of `BuildWith` holds of it |
| PromptBuilder.BuildWith | utils/prompt_builder.py:4-202 | the prompt builds iff the body builds and the position is defined; it starts with the body and ends with the closing for the part's position; with a good body the only error is division by zero |
| PromptBuilder.RatioBelow | utils/prompt_builder.py:162-172 | comparing two ratios with positive denominators is comparing cross products |
| PromptBuilder.PositionBands | utils/prompt_builder.py:161-189 | a middle part is early, middle or late exactly as `100(p-1)` compares with `33(t-1)` and `66(t-1)` |
| PromptBuilder.NoDivisionInRange | utils/prompt_builder.py:142-162 | a part between 1 and the total never divides by zero |
| PromptBuilder.PlaceholderNamesAreKeywords | utils/prompt_builder.py:94-106 | every placeholder name is a non-empty, non-numeric, brace-free keyword |
| PromptBuilder.CustomFillableIff | utils/prompt_builder.py:94-106 | a custom template can be filled iff it is well formed and names only the eleven placeholders |
| PromptBuilder.UnknownPlaceholderFails | utils/prompt_builder.py:94-106 | a custom template naming any other field makes the prompt fail |
| PromptBuilder.TemplateErrorFirst | utils/prompt_builder.py:93-162 | a template error is raised before the guidance is chosen, so it wins over a division by zero |
| PromptBuilder.CustomTemplateSubstitutes | utils/prompt_builder.py:93-106 | a template written from pieces is filled field by field with the computed values |
| PromptBuilder.BuiltInAlwaysBuilds | utils/prompt_builder.py:107-200 | with no custom template, a part between 1 and the total always gets a prompt |
| PromptStore.Load | utils/prompt_manager.py:51-56 | `load_prompts` returns the stored map, or the defaults when the file is missing or unreadable |
| PromptStore.Seeded | utils/prompt_manager.py:45-49 | creating the manager writes the defaults exactly when the file is missing, leaves a stored or unreadable file as it is, and does not change what is read |
| PromptStore.Saved | utils/prompt_manager.py:58-66 | `save_prompt` writes the loaded prompts with the id set to the new entry |
| PromptStore.Deleted | utils/prompt_manager.py:72-81 | `delete_prompt` refuses 'default', removes a present id and writes the file, and otherwise changes nothing |
| PromptStore.Get | utils/prompt_manager.py:68-70 | `get_prompt` finds an entry iff the id is among the loaded prompts, and returns that entry |
| PromptStore.PromptManager.constructor | utils/prompt_manager.py:6-43 | the defaults are the 'default' prompt, and the file is seeded with them when missing |
| PromptStore.PromptManager.SavePrompt | utils/prompt_manager.py:58-66 | the file becomes the loaded prompts with the id set to the entry, and the entry is returned |
| PromptStore.PromptManager.GetPrompt | utils/prompt_manager.py:68-70 | returns the entry the loaded prompts hold for the id, if any |
| PromptStore.PromptManager.DeletePrompt | utils/prompt_manager.py:72-81 | refuses 'default'; removes a present id, rewrites the file and returns true; otherwise changes nothing |
| PromptStore.PromptManager.ListPrompts | utils/prompt_manager.py:83-84 | returns the loaded prompts |
| PromptStore.UnreadableIsDefault | utils/prompt_manager.py:51-56 | a missing or unreadable file reads as the default prompts, so 'default' is always found |
| PromptStore.GetAfterSave | utils/prompt_manager.py:58-70 | after saving, the id reads back as the saved entry |
| PromptStore.SaveOnlyThatKey | utils/prompt_manager.py:58-66 | saving changes no other id and adds only that id |
| PromptStore.DeleteDefaultRefused | utils/prompt_manager.py:73-74 | deleting 'default' returns false and changes nothing |
| PromptStore.DeleteIff | utils/prompt_manager.py:72-81 | delete returns true iff the id is present and not 'default'; it then removes only that id, and otherwise changes nothing |
| PromptStore.DefaultStaysPresent | utils/prompt_manager.py:58-81 | once 'default' is present, no save or delete removes it |
| PromptStore.DefaultFieldNames | utils/prompt_manager.py:11-39 | every field of the default template is one of the eleven placeholders |
| PromptStore.DefaultRenderable | utils/prompt_manager.py:11-39 | the default template is expressible as template text |
| PromptStore.DefaultFillable | utils/prompt_manager.py:11-39 | the default template can be filled from any arguments covering the placeholders |
| PromptStore.DefaultTemplateFills | utils/prompt_manager.py:11-39 | the default template's text reads back as its pieces and always formats with the builder's arguments |
| Services.Ask | utils/story_generator.py:87-88 | one model call: the reply to the next index, with the prompt appended to the log |
| Services.Fetch | utils/reference_processor.py:16 | one extractor call: the text for the next index, with the URL appended to the log |
| Services.ModelClient.constructor | utils/config.py:87-88 | a configured client that has been asked nothing |
| Services.ModelClient.Generate | utils/story_generator.py:87-88 | the reply is the oracle's answer for this call, and the prompt is logged |
| Services.VideoSource.constructor | utils/youtube_extractor.py:43-66 | an extractor that has been asked nothing |
| Services.VideoSource.Content | utils/reference_processor.py:16 | the text is the oracle's for this call, and the URL is logged |
| References.AnalysisPrompts | utils/reference_processor.py:25-41 | one analysis prompt per content, in order, each embedding its content |
| References.CallResults | utils/reference_processor.py:13-48 | calls made one after another: one result per argument, in order, at consecutive call indices |
| References.Kept | utils/reference_processor.py:13-18 | the extracted texts of the URLs that do not start with "Error", in order |
| References.IsError | utils/reference_processor.py:17 | `content.startswith('Error')` |
| References.Usable | utils/reference_processor.py:15-18 | the texts that are not errors, in their order (UsableMembers and UsableConcat state it) |
| References.Successes | utils/reference_processor.py:43-48 | the replies of the calls that succeeded, in their order (SuccessesConcat and SuccessesEmptyIff state it) |
| References.AnalysisPrompt | utils/reference_processor.py:26-41 | the analysis prompt with the text in its place |
| References.CombinationPrompt | utils/reference_processor.py:54-69 | the combination prompt with the analyses joined by "\n\n---\n\n" in their place |
| References.Analyses | utils/reference_processor.py:24-48 | the successful analyses of the kept texts, in order |
| References.ProcessReferences | utils/reference_processor.py:8-75 | `process_youtube_references`: the result and the calls it makes (properties below) |
| References.FetchesPrefix | utils/reference_processor.py:15-16 | fetching one more URL appends its text |
| References.AnalysisPromptsPrefix | utils/reference_processor.py:25-45 | analysing one more content appends its prompt and its outcome |
| References.UsableAppend | utils/reference_processor.py:17-18 | one more text is kept iff it does not start with "Error" |
| References.SuccessesAppend | utils/reference_processor.py:43-48 | one more outcome is kept iff it is a reply |
| References.UsableConcat | utils/reference_processor.py:15-18 | filtering keeps the order of the texts |
| References.UsableMembers | utils/reference_processor.py:15-18 | exactly the texts not starting with "Error" are kept |
| References.SuccessesConcat | utils/reference_processor.py:43-48 | filtering keeps the order of the replies |
| References.SuccessesEmptyIff | utils/reference_processor.py:43-51 | there is no analysis iff every analysis call failed |
| References.NoUrls | utils/reference_processor.py:10-11 | no URLs: the result is "" and no call is made |
| References.CallCounts | utils/reference_processor.py:8-75 | the extractor is asked every URL once, in order; the model is asked one prompt per kept text, plus the combination iff some analysis succeeded |
| References.ResultCases | utils/reference_processor.py:20-75 | "" when nothing was kept or no analysis succeeded; otherwise the combination's reply, or "Error processing references: " with its message |
| References.ReferenceProcessor.constructor | utils/reference_processor.py:5-6 | the processor uses the given model and extractor, with the source's wording |
| References.ReferenceProcessor.ProcessYoutubeReferences | utils/reference_processor.py:8-75 | the result and the calls made are those `ProcessReferences` specifies |
| References.ReferenceProcessor.FetchUsable | utils/reference_processor.py:13-18 | the first loop fetches every URL and keeps the non-error texts in order |
| References.ReferenceProcessor.AnalyzeAll | utils/reference_processor.py:24-48 | the second loop asks one analysis per content and keeps the successful replies in order |
| Stories.ChunkError | utils/story_generator.py:89-90 | a failed part's text starts with "Error generating story part N: " |
| Stories.ValidateInputs | utils/story_generator.py:19-23 | no error iff expertise and tone are allowed; expertise is checked first, and each has its message |
| Stories.MergeContext | utils/story_generator.py:66-67 | with no context the integrated text replaces it; otherwise the context, the references separator, then the integrated text |
| Stories.WithReferences | utils/story_generator.py:41-69 | the reference step of a part: the context after fetching, analysing and integrating the references |
| Stories.IntegrationPrompt | utils/story_generator.py:47-61 | the integration prompt with the topic and the reference text in their places |
| Stories.ChooseTemplate | utils/story_generator.py:72-85 | the stored template when the id has an entry, else "" which selects the built-in body (TemplateChoice states the prompt built) |
| Stories.BuilderOf | utils/prompt_builder.py:4-202 | `build_story_prompt` over given fixed texts, as the builder a generator calls |
| Stories.ChunkRun | utils/story_generator.py:25-90 | `generate_story_chunk`: validation, the reference step, then the part |
| Stories.PartFromContext | utils/story_generator.py:72-90 | building the prompt and asking the model; a raised error becomes the part's error text |
| Stories.SummaryRun | utils/summary_generator.py:1-24 | `generate_summary`: one model call with the summary prompt |
| Stories.SummaryPrompt | utils/summary_generator.py:3-20 | the summary prompt with the part's text in its place |
| Stories.SummaryText | utils/summary_generator.py:21-24 | a reply is the summary itself; a raised message becomes "Summary unavailable: " followed by the message |
| Stories.Loop | utils/story_generator.py:106-116 | the first `k` iterations of the part loop |
| Stories.Next | utils/story_generator.py:106-116 | one iteration: the part is appended, and a summary of it too when the part is below the total (LoopShape, LoopPartBuilt and LoopSummaryOf state it) |
| Stories.CompleteStory | utils/story_generator.py:92-118 | `generate_complete_story`: the loop's parts joined by a blank line |
| Stories.LoopShape | utils/story_generator.py:103-116 | after `k` iterations there are `k` parts and a summary for each part but a final one |
| Stories.LoopPrefix | utils/story_generator.py:103-115 | later iterations only append parts and summaries |
| Stories.StoryShape | utils/story_generator.py:103-118 | the story has `total_parts` parts (none if not positive) and one fewer summaries, joined by a blank line |
| Stories.NoParts | utils/story_generator.py:106-118 | a non-positive `total_parts` gives "" and makes no call |
| Stories.LoopPartBuilt | utils/story_generator.py:106-111 | part `p` comes from the step run after the parts before it, with exactly their `p - 1` summaries |
| Stories.PartBuiltWithPriorSummaries | utils/story_generator.py:106-111 | part `p` is `generate_story_chunk` run with exactly the summaries of parts 1 to `p - 1` |
| Stories.LoopSummaryOf | utils/story_generator.py:113-115 | summary `i` is the summary step applied to part `i + 1` |
| Stories.SummaryOfEachPart | utils/story_generator.py:113-115 | summary `i` is the model's summary of part `i + 1`, or "Summary unavailable: …" |
| Stories.LoopOfErrors | utils/story_generator.py:106-115 | when every part is an error made without calls, the parts are those errors and only the summaries call the model |
| Stories.InvalidInputsRun | utils/story_generator.py:38-39 | with an expertise or tone not allowed, every part is the validation error, no URL is fetched, and the only model calls are the summaries |
| Stories.LoopUrls | utils/story_generator.py:106-115 | when each part fetches the URLs and summaries fetch nothing, `k` iterations fetch them `k` times |
| Stories.ValidInputsFetchPerPart | utils/story_generator.py:41-44 | with allowed inputs the references are fetched again for every part, in order |
| Stories.PartFetches | utils/story_generator.py:41-44 | with allowed inputs one part fetches each URL once, in order |
| Stories.ContextChangesOnlyOnIntegration | utils/story_generator.py:42-69 | the context changes only when the references are non-empty and not an error and integration replied; conversely, in that case it becomes the merge of the context and the reply, after exactly the integration call; a failed integration keeps the context |
| Stories.ChunkIsReplyOrError | utils/story_generator.py:87-90 | every part is a model reply or an "Error generating story part N: " text |
| Stories.TemplateChoice | utils/story_generator.py:72-85 | with allowed inputs, the prompt a part asks for begins with the built-in body when the id has no stored entry or an empty template, else with the stored template formatted with the part's values; a template that cannot be formatted makes the part the error text, with no model call |
| Stories.DefaultPromptBuilds | utils/story_generator.py:72-79 | with the default prompt stored and chosen, a part between 1 and the total always gets a prompt |
| Stories.GenerateSummary | utils/summary_generator.py:1-24 | one model call with the summary prompt; a failure becomes "Summary unavailable: …" |
| Stories.StoryGenerator.constructor | utils/story_generator.py:9-17 | the reference processor shares the model and extractor; the builder is `build_story_prompt` over the source's texts |
| Stories.StoryGenerator.Create | utils/story_generator.py:10-17 | fails iff `init_gemini` fails, with its message; otherwise a fresh generator, with fresh clients that have been asked nothing, and a prompt store seeded from disk |
| Stories.StoryGenerator.GatherContext | utils/story_generator.py:41-69 | the context and the calls made are those `WithReferences` specifies |
| Stories.StoryGenerator.GenerateStoryChunk | utils/story_generator.py:25-90 | the part's text and the calls made are those `ChunkRun` specifies |
| Stories.StoryGenerator.NextPart | utils/story_generator.py:106-116 | one iteration: the part, then its summary unless it is the last part, as `Next` specifies; the prompts are unchanged |
| Stories.StoryGenerator.GenerateCompleteStory | utils/story_generator.py:92-118 | the story and the calls made are those `CompleteStory` specifies |
| YouTube.Run | utils/youtube_extractor.py:32-34 | the capture is the longest prefix without '&', '?' or a newline |
| YouTube.AltAt | utils/youtube_extractor.py:32 | at an index, the first alternative that occurs there is taken, and none iff none occurs |
| YouTube.SearchFromIff | utils/youtube_extractor.py:38 | the search from `i` matches iff some prefix occurs at an index from `i` on |
| YouTube.SearchIff | utils/youtube_extractor.py:38-39 | a pattern matches iff one of its prefixes occurs somewhere in the URL |
| YouTube.SearchFromLeftmost | utils/youtube_extractor.py:38-40 | a match from `i` is at the leftmost index and captures after the first prefix there |
| YouTube.SearchLeftmost | utils/youtube_extractor.py:38-40 | the match is at the leftmost occurrence, the first alternative there is consumed, and the run after it is captured |
| YouTube.SearchFrom | utils/youtube_extractor.py:38 | `re.search` of one pattern from index `i` on |
| YouTube.Search | utils/youtube_extractor.py:38 | `re.search` of one pattern over the whole URL (SearchIff and SearchLeftmost state it) |
| YouTube.ExtractFrom | utils/youtube_extractor.py:37-41 | the patterns from `k` on, tried in order |
| YouTube.ExtractVideoId | utils/youtube_extractor.py:29-41 | `extract_video_id`: the first pattern that matches gives its capture, else `None` |
| YouTube.ExtractFromNone | utils/youtube_extractor.py:37-41 | from pattern `k`, nothing is found iff no later pattern occurs |
| YouTube.ExtractNoneIff | utils/youtube_extractor.py:29-41 | `None` iff no prefix of any pattern occurs in the URL |
| YouTube.ExtractFromFirst | utils/youtube_extractor.py:37-40 | a found id comes from the first pattern from `k` on that occurs |
| YouTube.ExtractFirstPattern | utils/youtube_extractor.py:29-40 | a found id is the match of the first pattern that occurs anywhere in the URL |
| YouTube.EmptyIdExample | utils/youtube_extractor.py:32-40 | "youtu.be/?x" gives the empty id |
| YouTube.WatchIdExample | utils/youtube_extractor.py:32-40 | "youtube.com/watch?v=abc&t=1" gives "abc" |
| App.PyInt | app.py:63 | `int(x)` accepts booleans, integers and integer text, and raises ValueError on other text, else TypeError |
| App.Truthy | app.py:67 | Python's truth value of a decoded JSON value |
| App.Get | app.py:57-65 | `data.get(key, default)`: the value when the key is present, else the default |
| App.ApiKey | app.py:23-24 | the key is the environment's when set, else the session's; missing iff both are |
| App.Clamp | app.py:63 | `min(n, 2)`: at most 2, at most `n`, equal to one of them |
| App.DecideGenerate | app.py:47-70 | no key gives 401; every error is 400, 401 or 500; a request that proceeds carries the key and at most two parts |
| App.NoKeyFirst | app.py:50-54 | without a key the reply is 401, whatever the body |
| App.BodyNotObject | app.py:56-57 | with a key, a body that is not a JSON object is a 500 for the raised exception |
| App.ConversionFirst | app.py:63-70 | a `total_parts` that `int` refuses is a 500, even when required fields are missing |
| App.CountTooLong | app.py:63 | a `total_parts` of more than 4300 digits is a 500 even with every required field present |
| App.ConversionFirstExample | app.py:63-70 | `{"total_parts": "two"}` with no topic gives 500 for a ValueError, not 400 |
| App.RequiredFields | app.py:67-70 | once the body is read, the reply is 400 "Missing required fields" iff topic, expertise or tone is missing or falsy |
| App.ProceedIff | app.py:47-72 | the request proceeds iff there is a key, an object body, a convertible count, and all three required fields |
| App.ProceedArguments | app.py:56-65 | a request that proceeds passes on the fields it sent, the defaults for the ones it omitted, and `min(int(total_parts), 2)` (2 when omitted) |
| App.DefaultModelAvailable | app.py:58 | the handler's default model is the configured default, and it is available |
| App.NoLowerBound | app.py:63 | a count of 0 or below proceeds unchanged: there is no lower bound |
| App.DecideDownload | app.py:101-117 | every error is 400 or 500; an attachment holds the body's story |
| App.DownloadIff | app.py:104-114 | an attachment iff the body is an object whose story is non-empty text; it holds that text as "generated_story.txt"; a missing or falsy story is a 400 |

## Left out

- The generative model library (`genai.configure`, `GenerativeModel`, `generate_content`) is a foreign call. It is an oracle from the call index and the prompt to a reply or a raised message.
- `get_video_content`, `is_valid_youtube_url` and pytube (utils/youtube_extractor.py:5-27,43-66) are network and library behaviour. The extractor is an oracle from the call index and the URL to a text, which may start with "Error".
- `time.sleep(2)` between parts is left out: a delay with no effect on the result.
- The `print` calls that log a failed integration or analysis are left out: the failure itself is modelled.
- The prompts file's JSON encoding, `os.makedirs`, and exceptions raised while writing it are left out. The file is the map it holds, or missing or unreadable.
- Flask routing, sessions, the `/` and `/setup` routes, templates, the configuration of content length and session lifetime, and `send_file`'s UTF-8 encoding are the web layer and are left out.
- The `/generate` path after line 72 is left out. `generate_complete_story` is synchronous, so awaiting its string raises TypeError, and `json` is never imported for line 85. Only the validation prefix is modelled.
- App.DecideGenerate: the arguments passed on are the JSON values as read. They are not converted to the generator's request, because the original never reaches the generator from this handler.
- App.PyInt and Numerals.ParseInt: only ASCII whitespace and ASCII digits, and only integer JSON numbers; `int()` of a float and Unicode digits are not modelled. The 4300-digit limit is the default one; changing it with `sys.set_int_max_str_digits` is not modelled.
- Numerals.NatToString does not model the ValueError `str(n)` raises beyond 4300 digits; it is used for part numbers, which never get that large.
- App.Raised: the 500 replies name the kind of exception raised; the text of `str(e)` is not modelled.
- Text.Lower lowers ASCII letters only; Python's `lower()` also lowers other Unicode letters.
- PromptBuilder.PositionOf compares `(p - 1) / (t - 1)` with 0.33 and 0.66 as exact rationals; floating-point rounding is not modelled.
- Templates: a field name is taken whole; conversions (`!r`), format specs (`:x`), attribute and index access in field names are not interpreted. So a `[` that hides a brace until its `]` (as in `{a[{]}`) is not modelled either.
- Templates.Lookup: only ASCII digits make a positional index, where Python also accepts other Unicode decimal digits; `sys.maxsize` is that of a 64-bit build.
- Templates.Repr escapes the quote, backslashes and ASCII control characters; the escapes `repr` writes for non-printable characters beyond ASCII are not modelled.
- Stories.SummaryOfEachPart and Stories.ChunkIsReplyOrError state that the text is the model's reply to some call, not to which call index; the exact calls are given by `CompleteStory` and `ChunkRun`.
- PromptBuilder.BuildWith states that the prompt starts with the body and ends with the closing, not that nothing lies between; its body is exactly their concatenation.
- The f-string at utils/reference_processor.py:57 puts a backslash inside the expression, a syntax error before Python 3.12; the intended join of the analyses is modelled.
- `None` and "" are the same value in the model for the context, the API keys and a prompt's template, since the code checks each only for its truth value.
- The descriptions and emphases of `TOPIC_CATEGORIES` (utils/config.py:54-75) are used by no code and are left out.
- utils/prompt_routes.py, utils/prompt_preview.py and static/js/main.js are route glue and browser code and are not part of this model.
