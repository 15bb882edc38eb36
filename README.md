# Presentation generator: ingestion and sanitising layer

This project models the layer of the presentation generator that takes
untyped data from documents and from AI output and makes it safe to render:

- the four payload validators (chart series, metrics, timeline, images),
  their fallback tables and the four "member or default" normalisers;
- front-matter defaulting, the three-tier processing of a presentation
  file, the listing of presentations and the document lint;
- the AI helpers: the template lookup behind the prompt, the structural
  check of generated documents with its paired issues and suggestions, and
  the two record normalisers;
- the change colour and sign helpers, unit printing, and icon paths.

JavaScript values are a datatype (`JsValues.Js`) with `typeof`, truthiness
and property reads written out. Numbers are reals tagged with `NaN` and the
two infinities. String operations (`indexOf`, `includes`, `startsWith`,
`endsWith`, `replace` with a string pattern, and the global regular
expressions the lint and the AI check use) are defined in `Strings`.

The validators are one generic loop method, `Validation.ValidatePayload`.
It is proved equal to a specification function, `Validation.Outcome`. The
four kinds differ only in the per-element check. The document lint and the
AI check are methods with loops, proved against recursive specification
functions. The presentation file processing is a method over an abstract
file store.

The lint evaluates the text the code's replace chain extracts from each
data literal (lib/mdx.ts:161), not the captured literal. The captured
literal is modelled beside it as the evidently intended extraction
(`Mdx.DataLiteralText`, `Mdx.IntendedLiteralIssues`). The two agree on
literals with no `}` before their end (`Mdx.LiteralIssuesAgree`).

Where the code and its design notes disagree, the model follows the code.
The design describes the validators as all-or-nothing. The code returns the
accepted subset in `data` even when `valid` is false (lib/validation.ts:62-66).
Only the rendering callers fall back
(`Validation.ChartDataToRender`, `Validation.MetricsToRender`).

## Model

| member | source | states |
|---|---|---|
| Validation.Outcome | lib/validation.ts:21-67 | A non-array gives `valid = false`, no data and exactly "K data must be an array". An empty array gives exactly "K data cannot be empty". For a non-empty array, `|data| + |errors|` equals the input length. `valid` holds iff there is no error. |
| Validation.ValidatePayload | lib/validation.ts:40-66 | The `forEach` loop with early return computes exactly `Outcome`: the accepted records and the errors, in input order. |
| Validation.OutcomeCount | lib/validation.ts:40-60 | Each element yields exactly one record or exactly one error. |
| Validation.NoRejectionIff | lib/validation.ts:62-66 | No error is pushed iff every element is accepted. |
| Validation.AcceptedIndices | lib/validation.ts:56-59 | `data` is the subsequence of accepted elements: strictly increasing indices, each element's own record, and every accepted element included. |
| Validation.RejectedIndices | lib/validation.ts:40-60 | `errors` lists the rejected elements in input order, each with its own message, and every rejected element is included. |
| Validation.AcceptEvery | lib/validation.ts:56-66 | When every element is accepted with a given record, `data` is exactly those records and there is no error. |
| Validation.AcceptedSatisfy | lib/validation.ts:56-59 | Every pushed record satisfies what the element check guarantees of each record it accepts. |
| Validation.ValidMeansAllAccepted | lib/validation.ts:62-66 | `valid` holds iff the input is a non-empty array whose every element is accepted; then `data` has one record per element. |
| Validation.CheckChartItem | lib/validation.ts:41-59 | Accepts iff the item is an object with a string `name` and a finite number `value`, and copies both unchanged. Otherwise the message is "Item at index I" followed by the first failing test in check order: " must be an object", the `name` message or the `value` message. |
| Validation.CheckMetricItem | lib/validation.ts:93-131 | Accepts iff `label` is a string, `value` is finite, and `unit` and `change` are absent or of the right type (a finite number for `change`); present fields are copied. Otherwise the message is "Metric at index I" followed by the first failing test in check order: object, `label`, `value`, `unit`, `change`. |
| Validation.StatusOf | lib/validation.ts:197-204 | A status is recognised iff it is one of the three names, and it maps back to that name. |
| Validation.CheckTimelineItem | lib/validation.ts:164-206 | Accepts iff `title` is a string, `description` and `date` are absent or strings, and `status` is absent or one of the three names. Otherwise the message is "Timeline item at index I" followed by the first failing test in order: object, `title`, `description`, `date`, and for a bad status exactly " 'status' must be one of: completed, current, upcoming". |
| Validation.CheckImageItem | lib/validation.ts:239-266 | Accepts iff `src` and `alt` are strings and `caption` is absent or a string. Otherwise the message is "Image at index I" followed by the first failing test in order: object, `src`, `alt`, `caption`. |
| Validation.ValidateChartData | lib/validation.ts:21-67 | Equals `Outcome` with the chart element check and the "Chart" kind. |
| Validation.ValidateMetricData | lib/validation.ts:73-139 | Equals `Outcome` with the metric element check and the "Metric" kind. |
| Validation.ValidateTimelineData | lib/validation.ts:144-214 | Equals `Outcome` with the timeline element check and the "Timeline" kind. |
| Validation.ValidateImageData | lib/validation.ts:219-274 | Equals `Outcome` with the image element check and the "Image" kind. |
| Validation.ChartScenario | lib/validation.ts:40-66 | A good point followed by a point with a string value gives `valid = false`, the first point in `data`, and one error for index 1. |
| Validation.TimelineScenario | lib/validation.ts:197-202 | An unknown status rejects the entry with the message listing completed, current, upcoming. |
| Validation.ChartRoundTrip | lib/validation.ts:56-59 | Validating well-formed chart records written as values gives them back, with no error. |
| Validation.MetricRoundTrip | lib/validation.ts:108-131 | The same for metric records, optional fields included. |
| Validation.TimelineRoundTrip | lib/validation.ts:174-206 | The same for timeline records. |
| Validation.ImageRoundTrip | lib/validation.ts:254-266 | The same for image records. |
| Validation.ValidChartWellFormed | lib/validation.ts:51-59 | Every chart record pushed has a finite value. |
| Validation.ValidMetricWellFormed | lib/validation.ts:103-131 | Every metric record pushed has finite `value` and `change`. |
| Validation.ChartIdempotent | lib/validation.ts:62-66 | Re-validating the data of a valid chart result gives the same result. |
| Validation.MetricIdempotent | lib/validation.ts:134-138 | The same for metrics. |
| Validation.TimelineIdempotent | lib/validation.ts:209-213 | The same for timelines. |
| Validation.ImageIdempotent | lib/validation.ts:269-273 | The same for images. |
| Validation.CreateChartFallback | lib/validation.ts:279-301 | The fallback is non-empty and well-formed; an unknown type gives the bar fallback `[{Data, 0}]`. |
| Validation.ChartFallbackFamilies | lib/validation.ts:280-298 | line and area give Start/End at 0, pie gives `[{No Data, 100}]`, bar and scatter give their one zero point. |
| Validation.ChartFallbackValid | lib/validation.ts:279-301 | Every chart fallback passes the chart validator unchanged. |
| Validation.CreateMetricsFallback | lib/validation.ts:306-315 | The metrics fallback is non-empty and well-formed. |
| Validation.MetricsFallbackValid | lib/validation.ts:306-315 | The metrics fallback passes the metric validator unchanged. |
| Validation.Normalize | lib/validation.ts:320-338 | The result is always a member of the allowed set. |
| Validation.NormalizeLaws | lib/validation.ts:320-338 | Members are kept, anything else becomes the default, and normalising twice changes nothing. |
| Validation.ValidateLayout | lib/validation.ts:320-323 | Always one of the five layouts. |
| Validation.ValidateEmphasis | lib/validation.ts:325-328 | Always one of the five emphases. |
| Validation.ValidateChartType | lib/validation.ts:330-333 | Always one of the five chart types, and each has its own fallback. |
| Validation.ValidateColorScheme | lib/validation.ts:335-338 | Always one of the four colour schemes. |
| Validation.ChartDataToRender | components/ChartSection.tsx:45 | What the chart renders is never empty or ill-typed, and is the validated data whenever the payload is valid. |
| Validation.MetricsToRender | components/MetricGrid.tsx:12 | The same for the metric grid. |
| Mdx.ValidateFrontmatter | lib/mdx.ts:35-42 | Truthy `title`, `date` and `type` are kept; otherwise the defaults "Untitled Presentation", today's date and "presentation" are used. `description` passes through unchanged. |
| Mdx.ValidateFrontmatterIdempotent | lib/mdx.ts:35-42 | Defaulting an already defaulted front matter changes nothing. |
| Mdx.DefaultFrontmatter | lib/mdx.ts:84-89 | Defaulting an empty object gives the three defaults and no description. |
| Mdx.MetadataBlock | lib/mdx.ts:74-78 | `None` iff no `export const metadata = {` is ever followed by a `}`. Otherwise the block starts right after the first occurrence of that prefix and runs up to the first `}` after it, which it does not include; the lazy match requires exactly this. |
| Mdx.ProcessMdxFile | lib/mdx.ts:47-109 | A missing file fails with exactly "MDX file not found: S.mdx". A success keeps the slug. Other failures carry the "Failed to process MDX file: " prefix. Text starting with `---` takes the parser's body. Otherwise the body is the whole text, and the front matter comes from the metadata block or from the defaults. |
| Mdx.PresentationExistsIffListed | lib/mdx.ts:186-195 | Over a directory whose entries are its stored files, `presentationExists` holds for a slug iff the corrected listing names that slug. |
| Mdx.SlugNames | lib/mdx.ts:123-125 | Each listed name plus `.mdx` is an entry of the directory, and at most one name is listed per entry. |
| Mdx.SlugNamesComplete | lib/mdx.ts:123-125 | Every `.mdx` entry is listed without its suffix. |
| Mdx.SlugNamesAppend | lib/mdx.ts:123-125 | Listing keeps directory order: listing the concatenation of two listings concatenates their names. |
| Mdx.GetAvailablePresentations | lib/mdx.ts:114-130 | `[]` when the directory is absent or unreadable; otherwise every listed name's file is in the directory. |
| Mdx.ListedPresentationsExist | lib/mdx.ts:186-195 | Every listed presentation exists under its name. |
| Mdx.AsWrittenAgreesOnPlainNames | lib/mdx.ts:125 | Where `.mdx` occurs in a name only as its suffix, the code as written lists the same names as the corrected listing. |
| Mdx.AsWrittenNames | lib/mdx.ts:123-125 | The code as written lists at most one name per directory entry. |
| Mdx.GetAvailablePresentationsAsWritten | lib/mdx.ts:114-130 | `[]` when the directory is absent or unreadable; otherwise at most one name per entry. |
| Mdx.AsWrittenNamesSoundComplete | lib/mdx.ts:123-125 | Each name the code as written lists is an `.mdx` entry with its first `.mdx` removed. Every `.mdx` entry is listed that way. |
| Mdx.RenamedSoundComplete | lib/mdx.ts:123-125 | A `filter` followed by a `map` keeps exactly the selected entries, each renamed: every name comes from a selected entry, and every selected entry gives its name. |
| Mdx.AsWrittenListingNamesMissingFile | lib/mdx.ts:125 | For `v1.mdx-notes.mdx`, the code as written lists `v1-notes.mdx`, which does not exist; the corrected listing gives `v1.mdx-notes`, which does. |
| Mdx.WordRun | lib/mdx.ts:139 | The run of `\w` characters at a position is maximal. |
| Mdx.ComponentTokensFrom | lib/mdx.ts:139-140 | Every name matched by `<(\w+)` is non-empty and occurs after a `<` in the text. |
| Mdx.ComponentTokensComplete | lib/mdx.ts:139-140 | The global match misses nothing. The names are exactly the word runs after each `<` followed by a word character, in text order, as an independent position-by-position scan finds them. |
| Mdx.SkipWordRun | lib/mdx.ts:139 | No match of `<(\w+)` starts inside a run of word characters, so skipping a matched name skips no match. |
| Mdx.NoAngleNoTokens | lib/mdx.ts:139-142 | A text without `<` names no component. |
| Mdx.UnknownComponentIssuesEmptyIff | lib/mdx.ts:145-150 | There is no component issue iff every matched name is whitelisted. |
| Mdx.UnknownComponentIssuesNameTokens | lib/mdx.ts:145-150 | Every component issue is "Unknown component: X" for a matched name X outside the whitelist. |
| Mdx.UnknownComponentIssues | lib/mdx.ts:145-150 | At most one issue per matched name, and each issue starts with "Unknown component: ". |
| Mdx.DataLiteralText | lib/mdx.ts:154-156 | The captured group of a match, in the `data={` … `}` wrapping that makes up the match; it starts with `[` and ends with `]`. This is the intended extraction, not the one the code evaluates. |
| Mdx.AsWrittenExtractionBreaksObjectLiterals | lib/mdx.ts:161 | For `data={[{}]}` the code as written hands `[{]}` to `eval`; the captured literal is `[{}]`. |
| Mdx.ExtractionAgrees | lib/mdx.ts:161 | For a match with no `}` before its last character, the replace chain as written gives exactly the captured literal. |
| Mdx.ObjectLiteralLint | lib/mdx.ts:157-175 | For the body `data={[{}]}` the lint evaluates `[{]}`. The intended extraction would evaluate `[{}]`. |
| Mdx.DataLiteralsShape | lib/mdx.ts:154-156 | Every match of the data pattern has the `data={[`…`]}` shape. |
| Strings.NextLiteral | lib/mdx.ts:154 | The next match starts at the first occurrence of the opening at or after the position and ends at the first `]}` after the opening. |
| Strings.NextLiteralNoneIff | lib/mdx.ts:154 | There is no next match iff no opening at or after the position is ever followed by `]}`. |
| Strings.LiteralMatchesEmptyIff | lib/mdx.ts:154-156 | The global match yields nothing iff no opening is ever followed by `]}`. |
| Mdx.ItemIssuesEmptyIff | lib/mdx.ts:164-170 | A literal's items raise no issue iff every item is an object with a string `name` and a number `value`; a `null` item raises the syntax issue. |
| Mdx.ItemIssuesFrom | lib/mdx.ts:164-170 | There is at most one issue more than there are items. The syntax issue is raised iff some item is `null`, and then it is the last issue, because reading `null.name` throws out of the loop. |
| Mdx.LiteralCheck | lib/mdx.ts:159-174 | An `eval` that throws gives exactly the syntax issue. |
| Mdx.LiteralCheckEmptyIff | lib/mdx.ts:159-174 | A literal raises nothing iff `eval` succeeds and, when it yields an array, every item is chart-shaped. |
| Mdx.ValidatorAcceptedPassesLint | lib/mdx.ts:166 | Items the chart validator accepts raise no lint issue. |
| Mdx.NaNPassesLintOnly | lib/mdx.ts:166 | A `NaN` value passes the lint but not the chart validator. |
| Mdx.LiteralIssuesEmptyIff | lib/mdx.ts:157-175 | For any extraction, including the replace chain as written at line 161, the data-literal pass raises nothing iff no literal raises anything. |
| Mdx.CheckComponents | lib/mdx.ts:145-150 | The component loop pushes exactly one issue per non-whitelisted name, in text order. |
| Mdx.CheckDataLiterals | lib/mdx.ts:157-175 | The data-literal loop pushes the issues of each literal's extracted text, in order. |
| Mdx.ValidateMdxContent | lib/mdx.ts:135-181 | The issues are the component issues followed by the data-literal issues of the text the replace chain as written extracts, and `valid` holds iff there is no issue. Every data match has the `data={[`…`]}` shape. |
| Mdx.LintCleanIff | lib/mdx.ts:135-181 | A body passes iff every matched name is whitelisted and every data literal, extracted as the code does, raises nothing. |
| Mdx.LiteralIssuesAgree | lib/mdx.ts:157-175 | Where no data literal has a `}` before its end, the lint as written raises exactly the issues of the intended extraction. |
| AiTemplates.GenerateAiPrompt | lib/ai-helpers.ts:188-197 | Succeeds iff the type is business-results, product-demo or quarterly-review. The template found has that type and the title and custom requirements are carried. Otherwise it throws exactly "Unknown presentation type: T". |
| AiTemplates.TemplateKeys | lib/ai-helpers.ts:36-183 | The table has exactly the three types, each keyed by its own `type`. |
| AiTemplates.TemplatesUseKnownComponents | lib/ai-helpers.ts:36-183 | Every component a template names or suggests is in the lint's whitelist. |
| AiTemplates.TemplateExamplesValidate | lib/ai-helpers.ts:70-181 | Every example payload a template shows passes the validator of its kind. |
| AiOutput.IssueTextInjective | lib/ai-helpers.ts:249-278 | The four issue texts are distinct. |
| AiOutput.FoundAmong | lib/ai-helpers.ts:255 | The filter keeps exactly the whitelisted names whose `<Name` occurs in the text. |
| AiOutput.FoundComponentsEmptyIff | lib/ai-helpers.ts:255-257 | Nothing is found iff no whitelisted component opens in the text. |
| AiOutput.KeyIssuesEmptyIff | lib/ai-helpers.ts:265-281 | A literal pass raises nothing iff every literal contains both keys. |
| AiOutput.FlaggedEmptyIff | lib/ai-helpers.ts:265-281 | A flagging pass raises nothing iff no element is flagged. |
| AiOutput.PushFlagged | lib/ai-helpers.ts:265-281 | The `forEach` loop pushes the issue and its suggestion once for each flagged element, in order, and the lists stay paired. |
| AiOutput.CheckLiteralKeys | lib/ai-helpers.ts:265-281 | One `forEach` pass pushes an issue and its suggestion for each literal lacking a key, in order. |
| AiOutput.ReportsAppend | lib/ai-helpers.ts:244-288 | Issue/suggestion pairing is preserved when groups of pushes follow each other. |
| AiOutput.CheckFrontmatter | lib/ai-helpers.ts:248-251 | Pushes "Missing frontmatter section" with its suggestion iff the text has no `---`, and nothing otherwise. |
| AiOutput.CheckComponentsFound | lib/ai-helpers.ts:254-260 | Pushes "No valid components found" with its suggestion iff no whitelisted component is found, and nothing otherwise. |
| AiOutput.ValidateAiOutput | lib/ai-helpers.ts:239-289 | Issues and suggestions have equal length. Each issue is paired with its own suggestion, in check order. `valid` holds iff there is no issue. |
| AiOutput.MissingFrontmatterIff | lib/ai-helpers.ts:248-251 | "Missing frontmatter section" is raised iff the text has no `---`, and then it comes first. |
| AiOutput.NoComponentsIff | lib/ai-helpers.ts:254-260 | "No valid components found" is raised iff no whitelisted `<Name` occurs. |
| AiOutput.LintedComponentIsFound | lib/ai-helpers.ts:254-260 | A text in which the document lint matches a whitelisted name never gets "No valid components found". |
| AiOutput.AiOutputValidIff | lib/ai-helpers.ts:239-289 | A document is valid iff it has `---`, opens a whitelisted component, and every chart and metrics literal holds both of its keys. |
| AiOutput.FirstTruthy | lib/ai-helpers.ts:300 | Either the result is the property of the first key whose property is truthy, or no key's property is truthy and the result is the fallback. |
| AiOutput.FirstNumber | lib/ai-helpers.ts:303-306 | The result is the first property of number type among the keys, or the fallback when there is none. |
| AiOutput.FormatPoint | lib/ai-helpers.ts:298-309 | `name` is the property of the first of name/label/category/period that is truthy, and "Unknown" only when none is. `value` is the first number among value/amount/count/revenue, else 0. |
| AiOutput.FormatDataForChart | lib/ai-helpers.ts:294-310 | Length and order are preserved, one point per record. |
| AiOutput.FormatDataForChartIdempotent | lib/ai-helpers.ts:294-310 | Formatting formatted points changes nothing. |
| AiOutput.PointRecordFixed | lib/ai-helpers.ts:298-309 | A point with a truthy name, written back as a record, formats to itself. |
| AiOutput.FormatMetric | lib/ai-helpers.ts:318-328 | `label` is the first truthy of label/name, and "Metric" only when neither is truthy. `value` is the first truthy of value/amount, and 0 only when neither is. `unit` is set iff it is truthy. `change` is set iff it is of number type. |
| AiOutput.FormatMetricsData | lib/ai-helpers.ts:315-329 | Length and order are preserved, one card per record. |
| AiOutput.MetricRecordRoundTrip | lib/ai-helpers.ts:318-328 | A card written back as a record formats to itself. |
| AiOutput.FormatMetricsDataIdempotent | lib/ai-helpers.ts:315-329 | Formatting formatted cards changes nothing. |
| Utils.FormatNumber | lib/utils.ts:8-26 | `%`, `M` and `K` follow the plain print of the value. `$` precedes the locale print. Any other unit, or none, gives the locale print alone. |
| Utils.FormatNumberUnitRoundTrip | lib/utils.ts:9-23 | Removing the suffix unit recovers the printed value. |
| Utils.GetChangeColor | lib/utils.ts:28-33 | Green iff the change is positive, red iff negative, muted iff absent, zero or NaN. |
| Utils.GetChangeSymbol | lib/utils.ts:35-38 | "+" iff the change is positive, otherwise the empty string. |
| Utils.ChangeSymbolMatchesColor | lib/utils.ts:28-38 | The plus sign appears exactly with the green colour. |
| Utils.ChangeColorTrichotomy | lib/utils.ts:28-33 | Every change gets exactly one of the three colours. |
| Icons.SizeClass | components/Icon.tsx:14-20 | A size has classes iff it is one of the five names. |
| Icons.SizeClassesDistinct | components/Icon.tsx:14-20 | The five sizes have pairwise different classes. |
| Icons.SpaceFolder | components/Icon.tsx:28-35 | Known variants map through the table. An unknown variant gives "regular-outline". An absent variant counts as `regular`. |
| Icons.GetIconPath | components/Icon.tsx:23-38 | A doodle is "/icons/doodle/SVG/" + name + ".svg". A space icon is "/icons/space/" + folder + "/SVG/" + name + ".svg". |
| Icons.IconNameFromPath | components/Icon.tsx:23-38 | The icon name is recovered from its path. |
| Icons.IconPathInjective | components/Icon.tsx:23-38 | Different names of one category and variant have different paths. |
| Icons.DoodleIgnoresVariant | components/Icon.tsx:24-26 | A doodle's path does not depend on the variant. |
| Icons.SpaceVariantLaws | components/Icon.tsx:27-37 | regular and outline give the same path; an unknown or absent variant gives the regular path. |
| Icons.Icon | components/Icon.tsx:40-61 | The image shows the icon's path for its category (doodle by default), its name as alternative text, and the classes of its size (`md` by default). |
| Icons.DoodleIcon | components/Icon.tsx:64-66 | A doodle path, `sm` by default. |
| Icons.SpaceIcon | components/Icon.tsx:68-70 | With no variant, the path is in the `regular-filled-outline` folder of the `filled` variant. With no size, the classes are those of `lg`, `w-8 h-8`. |
| Icons.TrendIconName | components/Icon.tsx:73-76 | None for a neutral trend, "arrows/arrow-up" for up, "arrows/arrow-down" for down. |
| Icons.TrendIcon | components/Icon.tsx:73-85 | Nothing iff the trend is neutral. Up gives the doodle path of `arrows/arrow-up`, down that of `arrows/arrow-down`, both with the `sm` classes `w-4 h-4`. |
| Icons.TrendArrowsDiffer | components/Icon.tsx:76 | The two arrows are different files. |

## Left out

- Reading the directory, `existsSync`, `readFileSync` and path joining are left out. The presentations directory is a map from file name to text, or an optional listing.
- The gray-matter parser and `eval` are function parameters. They return the parsed value or what they throw. So is the `eval` of data literals in the lint.
- `new Date()` is left out: today's date is a parameter of `Mdx.ValidateFrontmatter`.
- `String()`, `Number()` and `toLocaleString()` are not modelled. The normalised records keep the value before coercion, and `Utils.FormatNumber` takes the two printers as parameters.
- Property reads use own properties only. Keys inherited from `Object.prototype` (`constructor`, `toString`, …) would make the template lookup, the variant table and the fallback table return a function where the model sees no entry.
- AiTemplates.GenerateAiPrompt: the prompt text is not built. The model returns the template, title and custom requirements the text is made from, and states only the throw/no-throw contract.
- The template fields `purpose` and `example` (the component snippets) are prompt text and are left out; the example payloads are kept.
- `singlePromptTemplate` is a constant prompt text and is left out.
- `cn` (clsx and tailwind-merge), the icon's inline style, `className`, and all React rendering are left out.
- The BulletList markdown replacements only feed HTML to the view and are left out.
- The page routes are not part of this model. The first finding uses only the fact that `generateStaticParams` (app/presentations/[slug]/page.tsx:33-40) turns each listed name into a page whose slug is processed.
- The metadata block in plain documents is evaluated with the same `eval` parameter as the data literals.

## Findings

| source | as written | input that shows it | evidently intended | confidence | as-written member | corrected member |
|---|---|---|---|---|---|---|
| lib/mdx.ts:125 | `file.replace('.mdx', '')` removes the first `.mdx`, not the suffix the filter tested | a file named `v1.mdx-notes.mdx` is listed as `v1-notes.mdx`, and no file of that name exists | remove the trailing `.mdx` | not executed | Mdx.AsWrittenListingNamesMissingFile | Mdx.GetAvailablePresentations |
| lib/mdx.ts:161 | `match.replace('data={', '').replace('}', '')` removes the first `}`, which is inside the array when it holds objects | `data={[{}]}` hands `[{]}` to `eval`, a syntax error, so the literal is reported as invalid syntax | evaluate the captured group `[{}]` | not executed | Mdx.ObjectLiteralLint | Mdx.LiteralIssuesAgree |
