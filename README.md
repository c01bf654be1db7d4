# site-admin core, modelled in Dafny

This project models the logic core of the site-admin application, an administrative web app that
keeps a catalogue of AI tools, categories and articles in a table store and asks language-model
providers to fill in tool records. The model covers:

- the provider layer (`lib/providers.js`): the base research schema, its conversion to an
  OpenAI-style function tool, the guard on the model's tool call, the research prompt and the
  default model;
- the four request handlers (`pages/api/research.js`, `pages/api/tools/research.js`,
  `pages/api/generate-article.js`, `pages/tools/add-tool.js`): their guards, their calls and the
  one reply each request gets;
- the form pipeline (`lib/form-helpers.js`, `pages/tools/new.js`, `components/ToolForm.js`): body
  reading, URL-encoded record building, the coercion of a submitted tool, the form's default values
  and the research assistant's state;
- the pagination bar (`components/Pagination.js`);
- the image-ideas email (`lib/email.js`).

Modules:

- `Wrappers` holds `Option` and `Result`.
- `Strings` models the JavaScript string operations used: `join`, `split` on one character, `trim`,
  `includes`, `startsWith` and ASCII `toLowerCase`.
- `Records` models a submitted or stored record as a map from field names to text, list or boolean
  values, with JavaScript truthiness.
- `Http` models the `res` object as a class with the headers set and the replies sent. It also holds
  the catch-block rule the provider handlers share.
- There is one module per core file: `Providers`, `Pagination`, `FormHelpers`, `ToolFormView`,
  `NewToolPage`, `ResearchApi`, `ToolsResearchApi`, `GenerateArticleApi`, `AddToolApi` and `Email`.

Each handler has two parts:

- a method that writes to `Http.Response` with the source's early returns;
- a pure `Decide` function stating the whole decision table: the reply, whether the `Allow` header
  was set, and the store and provider calls made, in order.

The method's postcondition ties it to `Decide`.

Imperative source keeps its imperative form:

- `GetVisiblePages` and `ConvertToOpenAITool` are loops proved equal to specification functions.
- The body readers are a class updated by data and end events.
- `getServerSideProps` reassigns one field at a time.
- `handleResearch` steps the fields of a class standing for the page's React state.

Everything outside the program is a parameter that returns `Ok(value)` or `Err(message)`:

- the table store;
- the OpenRouter and Gemini clients;
- `fetch`;
- `JSON.parse` and `response.text()`;
- `URLSearchParams` decoding, taken as a function from the body to its ordered (name, value) pairs;
- `PRICING_OPTIONS`.

`Date.now()` is a `now` parameter.

## Model

| member | source | states |
|---|---|---|
| Providers.PropertiesOfSpec | lib/providers.js:81-85 | the properties have exactly the schema's keys, and each holds its field converted (mapped type, same description) |
| Providers.RequiredKeysMembers | lib/providers.js:97-99 | a key is in `required` iff some schema field with that key has a description whose lower-cased form starts with "required" |
| Providers.RequiredKeysOrdered | lib/providers.js:81-99 | `required` lists its keys in schema order |
| Providers.RequiredKeysDistinct | lib/providers.js:81-99 | for a schema with distinct keys, `required` holds each key once |
| Providers.RequiredStep | lib/providers.js:97-99 | each loop step appends the current key to `required` exactly when its field is required |
| Providers.RequiredAreProperties | lib/providers.js:97-107 | every required key is a property key |
| Providers.EnumPlacement | lib/providers.js:86-96 | each field becomes a property with the mapped type and the same description; an array field's `items` gets the mapped item type and the item enum; a top-level enum stays on the property |
| Providers.ConvertToOpenAITool | lib/providers.js:73-110 | the for-of loop that fills `properties` and pushes onto `required` builds exactly the function tool named "format_tool_research" over those properties and keys |
| Providers.RequiredPrefix | lib/providers.js:97 | the "required" test looks only at the first eight characters, lower-cased |
| Providers.MarkedIsRequired | lib/providers.js:97 | a description starting "Required - " marks its field required |
| Providers.UnmarkedIsOptional | lib/providers.js:97 | a description that is absent, empty, or not starting with r or R leaves its field optional |
| Providers.MarkedFieldsRequired | lib/providers.js:8-54 | the ten descriptions that start "Required - " make their fields required |
| Providers.UnmarkedFieldsOptional | lib/providers.js:46-67 | the Pricing, Tags and Categories descriptions leave those fields optional |
| Providers.BaseShapedRequired | lib/providers.js:81-99 | a 13-field schema in the base order with exactly fields 9, 11 and 12 optional yields `required` = Name … Buyer, Base_Model |
| Providers.BaseSchemaRequired | lib/providers.js:7-68 | for the base schema, `required` is exactly Name, Domain, Website, Why, Description, Details, Features, Cautions, Buyer, Base_Model |
| Providers.BaseSchemaMarks | lib/providers.js:7-68 | `BaseSchema`, the model of `getBaseSchema`, has its 13 keys in order, and a field is required iff it is not Pricing, Tags or Categories |
| Providers.BaseSchemaMarked | lib/providers.js:7-54 | every base-schema field other than Pricing, Tags and Categories is required |
| Providers.BaseSchemaUnmarked | lib/providers.js:46-67 | Pricing, Tags and Categories are not required |
| Providers.BaseSchemaEnums | lib/providers.js:46-67 | the Categories item enum is `categoryNames` unchanged and the Pricing item enum is the pricing options, both on `items` of an "array" property |
| Providers.FirstToolCall | lib/providers.js:137 | the optional chain yields a call iff there is a first choice with a message and a non-empty tool-call list, and then it is the first call |
| Providers.AcceptToolCall | lib/providers.js:137-141 | a missing call or one with another function name is the error "OpenRouter did not return the expected tool call."; otherwise the result is the parse of its arguments, with no coercion |
| Providers.Prompt | lib/providers.js:124 | the prompt starts with the fixed researcher sentence, names the tool and lists the categories joined with ", " |
| Providers.GenerateWithOpenRouter | lib/providers.js:114-142 | the request carries the given model, the one converted base-schema tool, a forced tool choice naming that same function and the research prompt; the outcome is the client's error or the guarded tool call |
| Providers.EffectiveModel | lib/providers.js:148 | the model is "anthropic/claude-3-haiku:beta" exactly when the requested one is missing or empty, otherwise the requested one |
| Providers.GenerateToolResearch | lib/providers.js:146-150 | the OpenRouter request uses the effective model, with everything else as above |
| Pagination.PageRun | components/Pagination.js:15-22 | the middle run is the consecutive pages from its low to its high bound |
| Pagination.GetVisiblePages | components/Pagination.js:3-33 | the pushes and the counting loop build exactly the specified layout, which has at most 9 entries |
| Pagination.Layout | components/Pagination.js:3-33 | page 1, an optional left ellipsis, the middle run, an optional right ellipsis and the last page, in this order |
| Pagination.Ends | components/Pagination.js:8-30 | the first entry is page 1; if total > 1 the last is `total`; if total = 1 the result is exactly [1] |
| Pagination.Sorted | components/Pagination.js:8-30 | the page numbers strictly increase and lie in [1, total] |
| Pagination.CurrentOnce | components/Pagination.js:8-30 | the current page appears exactly once |
| Pagination.NeighboursShown | components/Pagination.js:15-22 | every page within 2 of the current one, inside [1, total], is shown |
| Pagination.EllipsisPlacement | components/Pagination.js:10-27 | a left ellipsis appears (second) iff current − 2 > 2, a right one (second to last) iff current + 2 < total − 1, and nowhere else |
| Pagination.EllipsisHidesPages | components/Pagination.js:10-27 | each ellipsis stands between pages at least 2 apart, so it hides at least one page |
| Pagination.NoSilentGaps | components/Pagination.js:10-27 | two adjacent page entries differ by exactly 1 |
| Pagination.ClickTarget | components/Pagination.js:42-54 | a click yields a page number exactly for page entries; an ellipsis yields none and is disabled |
| Pagination.ButtonStyle | components/Pagination.js:55-61 | the highlighted style goes exactly to the current page and the muted style exactly to ellipses |
| Pagination.OneHighlighted | components/Pagination.js:39-61 | exactly one button of the bar is highlighted |
| FormHelpers.FromEntriesKeys | lib/form-helpers.js:11 | `Object.fromEntries` has exactly the submitted names as keys, each holding text |
| FormHelpers.FromEntriesLast | lib/form-helpers.js:11 | a repeated name keeps the value of its last occurrence |
| FormHelpers.FromEntriesSpec | lib/form-helpers.js:11 | the keys are the names, the last occurrence wins and every value is text |
| FormHelpers.GetAllMembers | lib/form-helpers.js:42 | `getAll(name)` holds exactly the values submitted under that name |
| FormHelpers.GetAllAppend | lib/form-helpers.js:42 | `getAll` keeps submission order: more pairs append their values |
| FormHelpers.ConcatAppend | lib/form-helpers.js:35-39 | chunks arriving later are appended after earlier ones |
| FormHelpers.BodyReader.OnData | lib/form-helpers.js:37 | a data event appends the chunk to the body and resolves nothing |
| FormHelpers.BodyReader.OnEnd | lib/form-helpers.js:38 | the end event resolves the promise with the body read so far; a promise resolves once |
| FormHelpers.ReadBody | lib/form-helpers.js:35-39 | the body is the concatenation of the chunks in arrival order |
| FormHelpers.ParseFormBody | lib/form-helpers.js:6-14 | the record's keys are the decoded names, the last value of each name wins and every value is text |
| FormHelpers.ToolFormRecord | lib/form-helpers.js:40-43 | the tool-form record holds no boolean values |
| FormHelpers.ToolFormRecordSpec | lib/form-helpers.js:40-43 | the keys are the submitted names plus Categories; Categories is the list of every submitted Categories value in order ([] when none); every other name keeps its last value |
| FormHelpers.ParseToolForm | lib/form-helpers.js:34-44 | the result is the tool-form record of the decoded body of the concatenated chunks |
| FormHelpers.PricingKeepsLastOnly | lib/form-helpers.js:41 | two checked pricing options arrive as the second one alone |
| FormHelpers.ToolFormRecordAllSpec | lib/form-helpers.js:42 | the corrected record collects Categories, Pricing and Articles alike: each is the list of all its submitted values, in order |
| FormHelpers.PrepareArticleData | lib/form-helpers.js:21-27 | the keys are the input keys plus Published; Published is true iff the submitted value is exactly "on" (so false when absent); every other field is copied unchanged |
| ToolFormView.TextDefault | components/ToolForm.js:13 | a text input shows the field when it is truthy, otherwise '' |
| ToolFormView.ListDefault | components/ToolForm.js:42-52 | a list field shows its items joined with the separator, a text field shows itself, a missing field shows '' |
| ToolFormView.FeaturesDefault | components/ToolForm.js:42 | a stored Features list is shown joined with line breaks, one feature per line |
| ToolFormView.CautionsDefault | components/ToolForm.js:47 | a stored Cautions list is shown joined with line breaks, one caution per line |
| ToolFormView.TagsDefault | components/ToolForm.js:52 | a stored Tags list is shown joined with ", " |
| ToolFormView.LinesRoundTrip | components/ToolForm.js:42-47 | splitting the shown text on line breaks gives back the stored entries, when none holds a line break |
| ToolFormView.Includes | components/ToolForm.js:71 | `includes` is true iff a list has the element or a text has the substring; on a boolean it throws |
| ToolFormView.PricingChecked | components/ToolForm.js:71 | a pricing box is checked iff the stored Pricing list holds its option; no field means unchecked; a boolean field throws |
| ToolFormView.ArticleChecked | components/ToolForm.js:114 | an article box is checked iff the stored Articles list holds its id; no field means unchecked; a boolean field throws |
| ToolFormView.CategoryChecked | components/ToolForm.js:95 | a category box is checked iff the tool's Categories list holds the category's id or its Name; no field means unchecked; a non-list field throws |
| ToolFormView.ShortTitle | components/ToolForm.js:117 | titles of at most 25 characters are unchanged, longer ones become their first 25 characters plus "..."; the result has at most 28 characters and starts with the title's head |
| ToolFormView.SubmitLabel | components/ToolForm.js:136 | the button reads "Create Tool" iff the tool has no id (`isNew`, line 4), otherwise "Update Tool" |
| ToolFormView.BoxChecked | components/ToolForm.js:125-129 | Active and Featured are checked iff the stored field is truthy; absent means unchecked |
| NewToolPage.AsList | pages/tools/new.js:22-26 | a list is kept, a truthy text becomes a one-element list, and an absent or empty value becomes [] |
| NewToolPage.CleanTags | pages/tools/new.js:30 | at most one tag per piece, none empty and none with surrounding whitespace |
| NewToolPage.CleanTagsAppend | pages/tools/new.js:30 | cleaning goes piece by piece: the tags of two runs of pieces follow one another |
| NewToolPage.CleanTagsSnoc | pages/tools/new.js:30 | a further piece adds its trimmed text as the last tag, or nothing when it trims to empty; so the tags are the trimmed non-empty pieces, in order |
| NewToolPage.NormalTags | pages/tools/new.js:29-33 | a text Tags value becomes the cleaned pieces of its split on ',' (so every tag is non-empty and trimmed), an absent or empty one [], and a list stays |
| NewToolPage.Normalised | pages/tools/new.js:15-47 | Active and Featured are true iff submitted as "on"; Pricing, Categories and Articles become lists by the list-or-singleton-or-empty rule; Tags are split and cleaned; every other field passes through; the keys are the submitted ones plus the six rewritten |
| NewToolPage.CoerceList | pages/tools/new.js:22-47 | one in-place reassignment of a multi-select field |
| NewToolPage.CoerceTags | pages/tools/new.js:29-33 | the in-place reassignment of Tags |
| NewToolPage.NormaliseToolData | pages/tools/new.js:15-47 | the field-by-field reassignments produce exactly the normalised record |
| NewToolPage.SubmittedPricingKeepsLastOnly | pages/tools/new.js:22-26 | as written, two checked pricing options are stored as the last one alone |
| NewToolPage.CorrectedFormKeepsEveryChoice | pages/tools/new.js:22-47 | with the corrected form record, every checked pricing option, category and article is stored, in order |
| NewToolPage.SpaceEach | components/ToolForm.js:52 | each tag after the first is preceded by the space that ", " leaves |
| NewToolPage.JoinSpaced | components/ToolForm.js:52 | joining with ", " is joining the space-prefixed tags with "," |
| NewToolPage.CleanSpaced | pages/tools/new.js:30 | trimming and dropping empties undoes the space prefix of clean tags |
| NewToolPage.ShownPieces | components/ToolForm.js:52 | the pieces of the shown Tags text: the first tag, then each other tag behind the space that ", " leaves |
| NewToolPage.JoinShownPieces | components/ToolForm.js:52 | the Tags text joined with ", " is those pieces joined with "," |
| NewToolPage.ShownTagsSplit | pages/tools/new.js:30 | for comma-free tags, `split(',')` of the shown text gives exactly those pieces |
| NewToolPage.CleanShownTags | pages/tools/new.js:30 | trimming those pieces and dropping empties gives back clean tags |
| NewToolPage.TagsRoundTrip | pages/tools/new.js:29-33 | non-empty, trimmed, comma-free tags shown in the form joined with ", " (components/ToolForm.js line 52) and submitted come back as the same list |
| NewToolPage.GetServerSideProps | pages/tools/new.js:11-84 | a POST stores the normalised record of the parsed body; success redirects to /tools; failure re-renders with the error message or "Something went wrong."; other methods render the empty form |
| NewToolPage.ResearchOutcome | pages/tools/new.js:106-125 | the data is loaded iff the reply is ok and its body parses; a non-ok reply's message becomes the error, "Research failed." when missing or empty |
| NewToolPage.ResearchAssistant.constructor | pages/tools/new.js:87-92 | the initial state: empty term, not researching, no data, key `now`, no error, model "anthropic/claude-3.5-haiku" |
| NewToolPage.ResearchAssistant.HandleResearch | pages/tools/new.js:102-129 | an empty term changes nothing; otherwise the request carries the term and the selected model, the flag is raised during it and always lowered, and the outcome loads data with a fresh key or records the error |
| Http.Response.constructor | pages/api/research.js:4 | a fresh response has no headers and no replies |
| Http.Response.SetHeader | pages/api/research.js:6 | setting a header changes that header only |
| Http.Response.Send | pages/api/research.js:7 | sending appends one reply and leaves the headers |
| Http.MethodNotAllowed | pages/api/research.js:7 | the 405 text names the method |
| Http.ErrorMessage | pages/api/research.js:34 | a missing or empty message becomes "An unknown error occurred"; the result is never empty |
| Http.UnknownErrorIsNotKeyError | pages/api/research.js:34-35 | the default message never counts as a key error |
| Http.KeyErrorFromMessage | pages/api/research.js:34-35 | the key-error test holds iff the thrown message contains "API key not valid" |
| Http.ProviderFailure | pages/api/research.js:32-39 | 401 with the key message iff the error message contains "API key not valid", else 500 with the prefix and the message |
| Http.TemplateValue | pages/tools/add-tool.js:38 | a missing value renders as "undefined" and a text as itself |
| ResearchApi.Decide | pages/api/research.js:4-40 | 405 with `Allow: POST` for other methods; 400 before any call for a missing name; 500 after the category fetch alone, with different messages for a failed and an empty fetch; otherwise one provider call with the name, the model and the categories as received, and 200 with its data unchanged or the catch block's reply |
| ResearchApi.Handle | pages/api/research.js:4-40 | the handler sends exactly the decided reply, once, sets `Allow` only for other methods and makes exactly the decided calls |
| ToolsResearchApi.SameAsBaseSchema | pages/api/tools/research.js:7-71 | `ToolResearchSchema`, the model of `getToolResearchSchema`, has the base schema's 13 names in the same order, with the same types, descriptions and item enums |
| ToolsResearchApi.SameRequiredFields | pages/api/tools/research.js:7-71 | with no `required` list, the descriptions still mark exactly the ten base-schema required fields |
| ToolsResearchApi.RequestFor | pages/api/tools/research.js:99-107 | the prompt names the tool and lists the categories joined with ", " |
| ToolsResearchApi.BlockedMessage | pages/api/tools/research.js:116 | the blocked-prompt message names the block reason |
| ToolsResearchApi.EmptyReply | pages/api/tools/research.js:112-119 | an empty response gives 500, naming the block reason when there is one and the generic message otherwise |
| ToolsResearchApi.Answer | pages/api/tools/research.js:109-132 | 200 with the parsed text exactly when there are candidates and both the text and the parse succeed; every throw reaches the catch block (401 for a key error, else 500) |
| ToolsResearchApi.Decide | pages/api/tools/research.js:73-133 | the guards in order (405, 400, 500 for a failed or empty category fetch) all come before the model call; past them the one model call gets "gemini-1.5-flash-latest", JSON output, the schema and the prompt |
| ToolsResearchApi.Handle | pages/api/tools/research.js:73-133 | the handler sends exactly the decided reply, once, and makes exactly the decided calls |
| GenerateArticleApi.Decide | pages/api/generate-article.js:3-27 | 405 with `Allow: POST`; 400 with no provider call for a missing topic; otherwise one call forwarding topic, model and article type unchanged, and 200 with its data or the catch block's reply |
| GenerateArticleApi.UnauthorisedExactlyOnKeyError | pages/api/generate-article.js:20-25 | the reply is 401 iff the provider failed with a message containing "API key not valid" |
| GenerateArticleApi.Handle | pages/api/generate-article.js:3-27 | the handler sends exactly the decided reply, once |
| AddToolApi.Merge | pages/tools/add-tool.js:45-48 | research values win on shared keys, form-only keys stay and research-only keys are added |
| AddToolApi.Decide | pages/tools/add-tool.js:6-58 | 405 with `Allow: POST`; 400 without calling research when Name is missing; one research call whose body holds only the name; 502 naming the research error for a non-ok reply; 200 with "Tool created successfully!" and the merged tool; 500 for anything thrown |
| AddToolApi.MissingResearchMessage | pages/tools/add-tool.js:33-39 | a failed research reply without a message gives "Failed to research the tool: undefined" |
| AddToolApi.Handle | pages/tools/add-tool.js:6-58 | the handler parses the tool form from the chunks and sends exactly the decided reply, once |
| Email.IsEmailConfigured | lib/email.js:13-19 | mail is enabled iff GMAIL_USER, GMAIL_PASS and GMAIL_TO are all set and non-empty |
| Email.Subject | lib/email.js:39 | the subject is the fixed lead, the title and a closing quote |
| Email.SubjectInjective | lib/email.js:39 | the title can be read back from the subject, so distinct titles give distinct subjects |
| Email.Item | lib/email.js:40 | an idea's list item holds the idea verbatim, unescaped |
| Email.ListItemsAppend | lib/email.js:40 | the items of consecutive ideas are concatenated with no separator |
| Email.ListItemsAt | lib/email.js:40 | each idea's item sits after the items of the ideas before it and before those after it |
| Email.ListItemsLength | lib/email.js:40 | the list is exactly the ideas plus nine tag characters each: nothing is added between items |
| Email.HtmlBody | lib/email.js:40 | the body starts with the fixed heading and names the title |
| Email.HtmlBodyListsEachIdea | lib/email.js:40 | every idea appears in the body as its own list item |
| Email.NoticeLine | lib/email.js:34 | the disabled notice names the title |
| Email.Bullets | lib/email.js:35 | each idea is logged as "- " followed by the idea |
| Email.LogTextRoundTrip | lib/email.js:35 | the logged text splits into one bullet per idea, in order, when no idea holds a line break |
| Email.Sender | lib/email.js:43 | the sender header names GMAIL_USER |
| Email.Compose | lib/email.js:32-47 | a message is built iff mail is configured, from GMAIL_USER to GMAIL_TO with the subject and body above; otherwise the two console lines |
| Email.SendImageIdeasEmail | lib/email.js:32-48 | logging always succeeds; a configured call fails exactly when `sendMail` rejects, with its message, and otherwise delivers the composed message |
| Email.UnsetVariableOnlyLogs | lib/email.js:13-37 | with any variable unset or empty, only the two console lines are produced and the transport is never reached |
| Strings.Split | pages/tools/new.js:30 | the pieces hold no separator and joining them with it gives back the string |
| Strings.SplitJoin | pages/tools/new.js:30 | splitting a join of separator-free pieces gives back the pieces |
| Strings.Trim | pages/tools/new.js:30 | the trimmed string is a substring with no surrounding whitespace, and everything cut off before and after it is whitespace |
| Strings.ToLower | lib/providers.js:97 | lower-casing maps each character and keeps the length |

## Left out

- Network, SDK and mail clients: the OpenRouter client, the Gemini SDK, the table store, `fetch` and the nodemailer transport's `sendMail` are parameters returning `Ok` or `Err`. Their configuration (base URL, API keys, referer headers, the Gmail service) is not modelled.
- `JSON.parse` and `response.text()` are parameters; the model does not check enum membership or list shapes in model output, and neither does the program.
- `URLSearchParams` decoding is a parameter: a function from the body to its ordered (name, value) pairs.
- `PRICING_OPTIONS` is a parameter, because `lib/constants` is not part of this model.
- `generateArticleContent` is not part of this model (it is imported but not shown), so `GenerateArticleApi` takes the provider as a parameter. The image-ideas email trigger is not shown either, so nothing connects `Email` to a handler.
- ResearchApi.Decide: the category records are taken as their names; `record.get("Name")` returning undefined is not modelled.
- ToolsResearchApi.Decide: the category records are taken as their names, as for the OpenRouter endpoint.
- ResearchApi.Handle: the provider is a parameter rather than a call to `Providers.GenerateToolResearch`. The provider's own contract is stated separately.
- ToolsResearchApi.Answer: the Gemini response is reduced to its candidate count, its block reason and the outcome of `text()`.
- Request body fields are `Option<string>`; non-string values in the JSON body are not modelled.
- Strings are sequences of characters, not UTF-16 code units, so lengths of characters outside the Basic Multilingual Plane differ.
- Strings.ToLower: covers only ASCII letters. It is used only to compare the description's lead with "required".
- Object key enumeration order is not modelled: `properties` and records are maps.
- Console logging (`console.error`, `console.warn`, the click logs) is not modelled, except the two lines `sendImageIdeasEmail` logs in place of mail, which are its output.
- The module-load warning in `lib/email.js` is not modelled.
- React rendering, the JSX markup and the page components' props are not modelled.
- `Promise.all` over categories and articles in `getServerSideProps` is not modelled; neither is the `localeCompare` sort of the model list.
- `Date.now()` is the `now` parameter.
- Async sequencing is not modelled: each handler runs to completion in one step.
- NewToolPage.Normalised: the Tags cleanliness guarantee is stated for absent and text values only. A list value is kept as it is, as in the source, and carries no such guarantee.
- NewToolPage.GetServerSideProps: the category and article lists loaded for the re-rendered form are not part of the outcome.

## Findings

| source | as written | input that shows it | evidently intended | confidence | as-written member | corrected member |
|---|---|---|---|---|---|---|
| lib/form-helpers.js:41 | `parseToolForm` collects only `Categories` with `getAll`. Pricing and Articles, also checkbox groups (components/ToolForm.js:69, components/ToolForm.js:112), go through `Object.fromEntries`, which keeps only the last checked value. The `Array.isArray` branches at pages/tools/new.js:23 and pages/tools/new.js:44 can then never see a list. | body `Pricing=Free&Pricing=Paid` | every checked pricing option and article is stored, as for Categories | not executed | FormHelpers.PricingKeepsLastOnly | FormHelpers.ToolFormRecordAllSpec |

`NewToolPage.SubmittedPricingKeepsLastOnly` shows what the page stores as written.
`NewToolPage.CorrectedFormKeepsEveryChoice` shows the corrected record carried through the page's normalisation.
The handlers themselves follow the code as written.
