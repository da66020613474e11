# InsideView AI: prompt resolver and generation session

InsideView AI turns an object name into an "exploded view" image. The image
comes from Gemini, together with a list of the object's parts and a chat
coach. This project models the two deterministic pieces of the app and
proves properties of them:

- **The prompt resolver and request helpers** (`services/geminiService.ts`):
  - `buildPrompt` picks one of four JSON templates by "organic or not" and
    "photo or not". It replaces `{OBJECT_NAME}`, `{ASPECT_RATIO}` and
    `{DETAIL_LEVEL}` throughout the template's JSON text, takes
    `promptDetails.description`, and
    appends the label, kid-safe, 8K and user-hint clauses in a fixed order.
    When the template does not parse, it falls back to
    `"Exploded view of " + name`. The model fills the placeholder slots of
    the parsed template instead of rewriting the text. For a name without
    `{`, `\` or `"` (`Prompt.PlainName`) the two give the same description,
    and `Prompt.SubstituteIsReplace` relates them (see "Left out").
  - Around it: the choice of the pro or flash image model and the 4K size,
    the reference-image attachment, and the stripping of a `data:` URL
    header with `split(',')[1] || s`.
  - Also around it: the scan of the response parts for inline image data,
    the rewrite of any "403" error into the fixed permission message, the
    first-occurrence substitution into the parts prompt, and the failure
    policies (parts degrade to `[]`, analysis to `null`, a missing key
    always throws).
- **The generation session** (`App.tsx`), as the class `App.Session`:
  - Its fields are the component's state: form, history, current result
    and parts, transcript, chat input, coach, error, key flag, in-flight
    flags, analysis and page.
  - Its methods are the handlers: `handleGenerate`, `deleteHistoryItem`,
    `handleSendMessage`, `handleImageUploaded` and `loadPreset`.
  - Each method states its new state as a step function of the old one
    (`GenerateStep`, `DeleteStep`, `SendStep`, `UploadStep`, `PresetStep`).
    The lemmas about those functions carry the handler's properties, and
    every method keeps the invariant `ValidState`.
- **The constant data** (`constants.ts`: the four templates, the parts
  prompt, `CATEGORIES`, `PRESETS`) and **the types** (`types.ts`).

Layout:

- `types.dfy` (module `Types`): the enumerations with their texts and
  parse round trips, and the records.
- `jstext.dfy` (module `JsText`): the JavaScript string operations the core
  uses: `includes`, global and first-occurrence `replace`, `trim`, and
  `split(',')[1] || s`.
- `templates.dfy` (module `Templates`): each template is a list of literal
  pieces and placeholder slots. This module holds the fill operations, the
  constants, and the placeholder counts of each constant.
- `prompt.dfy` (module `Prompt`): `buildPrompt`.
- `gemini.dfy` (module `Gemini`): `generateImage`, `generateObjectParts`,
  `createCoachChat`, `analyzeImage`, and the chat's `sendMessage`.
- `app.dfy` (module `App`): the session.

What the Gemini service returns is an input of the model:

- the reply to `generateContent`, as a function from request to `Reply`;
- whether `JSON.parse` accepts the substituted template, as a predicate;
- the outcome of each call a handler awaits, as a parameter of the handler;
- the `Date.now()` readings, as a `Clock`.

Behaviour of the code that the model keeps as it is:

- A missing key makes `generateImage` throw "API Key is missing.", which
  `handleGenerate` reads as an authorization failure: the key flag drops.
- Every preset keeps `category` outside its `params`, so loading a preset
  never changes the form's category.
- An upload that clears the image leaves `analysisResult` null, and
  leaves the name and category as they were.

## Model

| member | source | states |
|---|---|---|
| Types.AspectRatioRoundTrip | types.ts:2 | The ratio texts parse back to their ratio, and exactly the five strings "1:1", "3:4", "4:3", "9:16", "16:9" parse |
| Types.DetailLevelRoundTrip | types.ts:3 | The detail texts round-trip, and exactly "Standard", "High", "Ultra" parse |
| Types.CategoryRoundTrip | types.ts:4 | The category texts round-trip, and exactly "technical", "organic", "electronics" parse |
| Types.ModeRoundTrip | types.ts:5 | The mode texts round-trip, and exactly "text" and "photo" parse |
| JsText.ReplaceAll | services/geminiService.ts:32-34 | A global literal replace leaves a string without the pattern unchanged |
| JsText.ReplaceFirst | services/geminiService.ts:133-135 | A first-occurrence replace leaves a string without the pattern unchanged |
| JsText.TrimEmptyIffBlank | App.tsx:141 | `!s.trim()` holds exactly when every character of `s` is JavaScript white space |
| JsText.SecondField | services/geminiService.ts:89 | `split(',')[1]` exists exactly when there is a comma. It is then the text after the first comma up to the next comma or the end, and holds no comma |
| JsText.Trim | App.tsx:141 | `trim()`: JavaScript white space removed at both ends (the property used is `TrimEmptyIffBlank`) |
| JsText.StripDataUrlPrefix | services/geminiService.ts:89 | Input without a comma is returned unchanged. A non-empty second field is returned. Anything else returned is that comma-free second field |
| JsText.StripAfterHeader | services/geminiService.ts:89 | For a comma-free header and a non-empty comma-free payload, `header,payload` strips to exactly the payload |
| Templates.Fill | services/geminiService.ts:32-34 | A global fill keeps the length and replaces exactly the slots of the placeholder by the value |
| Templates.FillRemovesOnly | services/geminiService.ts:32-34 | After a global fill the placeholder is gone, and every other placeholder occurs as often as before |
| Templates.FillFirstIsFill | services/geminiService.ts:133-135 | Where a placeholder occurs at most once, first-occurrence and global fill agree |
| Templates.RenderReplaceAll | services/geminiService.ts:32-34 | On brace-free literals and value, JavaScript's global replace of the token in the rendered text renders the filled template |
| Templates.RenderReplaceFirst | services/geminiService.ts:133-135 | On brace-free literals, JavaScript's first-occurrence replace renders the first-occurrence fill |
| Templates.FillFirst | services/geminiService.ts:133-135 | `replace` with a string pattern: fills only the first slot of the placeholder; see `FillFirstIsFill` and `RenderReplaceFirst` |
| Templates.FillHints | services/geminiService.ts:32-34 | Filling the hints removes the placeholder from them and keeps the count of every other placeholder |
| Templates.FillTemplate | services/geminiService.ts:32-34 | Filling a template removes the placeholder from description and hints, keeps other counts, and keeps style tags and negative prompt |
| Templates.TechnicalSlots | constants.ts:5-29 | TECHNICAL_TEMPLATE writes `{OBJECT_NAME}` once in its description; ratio and detail appear once each and only in the hints; no `{CATEGORY}` |
| Templates.OrganicSlots | constants.ts:31-56 | ORGANIC_TEMPLATE writes `{OBJECT_NAME}` twice in its description; ratio and detail appear only in the hints |
| Templates.TechnicalPhotoSlots | constants.ts:58-83 | TECHNICAL_PHOTO_TEMPLATE writes the name once in the description and once in `referenceImageMode`; ratio and detail appear only in the hints |
| Templates.OrganicPhotoSlots | constants.ts:85-111 | ORGANIC_PHOTO_TEMPLATE writes the name twice in the description and once in `referenceImageMode`; ratio and detail appear only in the hints |
| Templates.ObjectNameOccurrences | constants.ts:5-111 | `{OBJECT_NAME}` occurs once in the technical descriptions and twice in the organic ones, and in the hints only of the photo templates |
| Templates.RatioAndDetailOnlyInHints | constants.ts:5-111 | In every image template `{ASPECT_RATIO}` and `{DETAIL_LEVEL}` never occur in the description |
| Templates.TemplatesDistinct | constants.ts:5-111 | The four image templates are pairwise distinct |
| Templates.PartsPromptPlaceholders | constants.ts:156-169 | PARTS_GENERATION_PROMPT holds `{CATEGORY}` and `{OBJECT_NAME}` exactly once each and no other placeholder |
| Templates.CategoriesEachOnce | constants.ts:148-152 | CATEGORIES lists technical, electronics and organic, each exactly once |
| Templates.PresetsShape | constants.ts:113-146 | Every preset sets a name and text mode, and none sets a category, a reference image or a hint |
| Prompt.SelectTemplateFamily | services/geminiService.ts:23-29 | Two requests get the same template exactly when they agree on "organic" and on the mode |
| Prompt.SelectTemplateShape | services/geminiService.ts:23-29 | The selected template is one of the four constants, can be resolved, and has a reference-image hint exactly in photo mode |
| Prompt.NoPlaceholderSurvives | services/geminiService.ts:32-34 | After the three global replacements no placeholder is left anywhere; style tags and negative prompt are untouched |
| Prompt.SubstituteInClears | services/geminiService.ts:32-34 | The same for any resolvable template |
| Prompt.SubstituteIsReplace | services/geminiService.ts:32-34 | On the selected template's description, written out as text, the chain of three JavaScript global replaces gives the rendered slot-filled description. Requires brace-free literals and name. The replaces on the whole JSON text and its decoding are not covered |
| Prompt.Clauses | services/geminiService.ts:40-58 | The list starts with the label clause that matches showLabels; the numbered-labels clause is present iff showLabels, the no-labels one iff not. Kid-safe clause iff organic and kid-friendly. 8K clause iff Ultra. A hint clause iff photo mode with a truthy hint, and it carries that hint |
| Prompt.ClausesInOrder | services/geminiService.ts:40-58 | The clauses come strictly in the order label, kid-safe, 8K, hint |
| Prompt.DecorateIsConcat | services/geminiService.ts:38-60 | The appended text is exactly the clause texts, concatenated in order |
| Prompt.BuildPromptShape | services/geminiService.ts:36-64 | If the template parses: the substituted description followed by the clause texts. Otherwise: exactly "Exploded view of " + name, with no clause |
| Prompt.PromptMentionsObject | services/geminiService.ts:22-65 | For a plain name, the prompt contains the object name whether or not parsing succeeds |
| Prompt.ElectronicsResolvesAsTechnical | services/geminiService.ts:23-46 | An electronics request resolves to the same template and the same prompt as the technical request it otherwise equals |
| Prompt.BaseIgnoresRatioAndDetail | services/geminiService.ts:32-38 | For a plain name, the substituted description does not depend on aspect ratio or detail level |
| Prompt.SubstituteInIgnores | services/geminiService.ts:32-38 | The same for any resolvable template |
| Prompt.PromptIgnoresRatio | services/geminiService.ts:22-65 | For a plain name and the same parse outcome, changing the aspect ratio leaves the prompt unchanged |
| Prompt.TurbochargerScenario | services/geminiService.ts:38-60 | A labelled, technical, text-mode, Ultra request gets exactly the label clause and then the 8K clause |
| Prompt.HumanHeartScenario | services/geminiService.ts:40-53 | A kid-friendly, organic, text-mode, Standard "Human Heart" gets exactly the label clause and then the kid-safe clause, and no 8K clause |
| Prompt.TokenInNameIsRewritten | services/geminiService.ts:32-34 | The source's chained replaces turn "of {OBJECT_NAME}" with the name "W{DETAIL_LEVEL}" and detail High into "of WHigh" |
| Prompt.TokenInNameIsKept | services/geminiService.ts:32-34 | The slot fills write that same name as it is, which is why the lemmas above require a plain name |
| Prompt.SelectTemplate | services/geminiService.ts:23-29 | The template choice; its properties are `SelectTemplateFamily` and `SelectTemplateShape` |
| Prompt.SubstituteIn | services/geminiService.ts:32-34 | The three replacements in the source's order, as slot fills; see `SubstituteInClears` and `SubstituteInIgnores` |
| Prompt.Substitute | services/geminiService.ts:32-34 | The replacements on the selected template; see `NoPlaceholderSurvives` and `SubstituteIsReplace` |
| Prompt.BuildPrompt | services/geminiService.ts:22-65 | `buildPrompt`; see `BuildPromptShape` and `PromptMentionsObject` |
| Prompt.Decorate | services/geminiService.ts:38-60 | The conditional appends; see `DecorateIsConcat` and the two scenarios |
| Gemini.Client | services/geminiService.ts:14-19 | A client exists iff the key is truthy; otherwise the failure is "API Key is missing." |
| Gemini.ImageModelFor | services/geminiService.ts:72-73 | The pro image model for High and Ultra, the flash image model otherwise; see `TierSelection` |
| Gemini.ImageConfigFor | services/geminiService.ts:75-81 | The requested ratio, plus a 4K size with the pro model; see `TierSelection` |
| Gemini.ImageParts | services/geminiService.ts:83-96 | The prompt part, then the stripped reference as PNG in photo mode; see `ReferenceAttachment` and `ReferencePayload` |
| Gemini.ImageRequestFor | services/geminiService.ts:67-105 | The whole image request: model, parts and config; see `TierSelection` and `ReferenceAttachment` |
| Gemini.TierSelection | services/geminiService.ts:72-81 | Pro model with a 4K size iff High or Ultra; flash model with no size iff Standard; the ratio is always forwarded |
| Gemini.ReferenceAttachment | services/geminiService.ts:83-96 | The prompt is the first part. A second, PNG inline-data part is present iff photo mode has a truthy reference, and carries the stripped reference |
| Gemini.ReferencePayload | services/geminiService.ts:87-95 | A `header,payload` reference is sent as just its payload; a bare payload is sent as it is |
| Gemini.FirstImageData | services/geminiService.ts:107-113 | None iff no part has inline data; otherwise the data of the first part that has it |
| Gemini.ScanForImage | services/geminiService.ts:107-113 | The loop over the parts returns exactly the first inline data |
| Gemini.GenerateImage | services/geminiService.ts:67-129 | The method computes `ImageOutcome` (key check, request, extraction, 403 rewrite) |
| Gemini.MissingKeyBeforeService | services/geminiService.ts:67-69 | Without a key every service gives the same "API Key is missing." failure: the service is never consulted, and the message is not rewritten |
| Gemini.ImageSuccess | services/geminiService.ts:107-113 | A success had a key, and is "data:image/png;base64," + the first inline data; stripping it gives the data back |
| Gemini.ServiceFailureRewritten | services/geminiService.ts:122-128 | A thrown error mentioning "403" in its message or serialisation becomes the permission error; any other passes unchanged |
| Gemini.NoImageFailure | services/geminiService.ts:115-121 | No inline data: a truthy finish reason gives the "Generation stopped" error naming it; otherwise "No image data found in response" |
| Gemini.PartsOutcome | services/geminiService.ts:131-166 | The parts call fails exactly when the key is missing, with the missing-key message |
| Gemini.PartsNeverFail | services/geminiService.ts:137-166 | With a key the parts call succeeds. A non-empty reply that parses is returned exactly as parsed, and a non-empty list comes only from such a reply. A thrown call, an unparsable reply or an empty text gives `[]` |
| Gemini.PartsRequest | services/geminiService.ts:138-159 | The parts request: the flash text model and the filled parts prompt as its only part; see `PartsNeverFail` |
| Gemini.PartsPromptFilled | services/geminiService.ts:133-135 | The first-occurrence fills leave no placeholder, equal the global fills, and write the category and the name |
| Gemini.PartsPromptIsReplace | services/geminiService.ts:133-135 | The two JavaScript `replace` calls on the prompt text equal the rendered fill (brace-free literals) |
| Gemini.AnalysisOutcome | services/geminiService.ts:184-231 | The analysis call fails exactly when the key is missing |
| Gemini.AnalysisOnlyFromReply | services/geminiService.ts:186-230 | With a key, a non-empty reply gives exactly its parse, and a thrown call or an empty reply gives null. A result comes only from such a reply. The request carries the stripped image as JPEG and appends the hint only when truthy |
| Gemini.ImageOutcome | services/geminiService.ts:67-129 | `generateImage` as a function of the key and the reply; see `GenerateImage` and the lemmas after it |
| Gemini.ExtractImage | services/geminiService.ts:107-121 | The image data, the finish-reason error or the no-image error; see `ImageSuccess` and `NoImageFailure` |
| Gemini.Rewrite | services/geminiService.ts:122-127 | The 403 rewrite; see `ServiceFailureRewritten` |
| Gemini.PartsPrompt | services/geminiService.ts:133-135 | The parts prompt; see `PartsPromptFilled` and `PartsPromptIsReplace` |
| Gemini.AnalysisText | services/geminiService.ts:190 | The analyzer prompt, with "\nUser Hint: " and the hint appended only for a truthy hint; see `AnalysisOnlyFromReply` |
| Gemini.AnalysisRequest | services/geminiService.ts:186-194 | The analysis request; see `AnalysisOnlyFromReply` |
| Gemini.CoachSeed | services/geminiService.ts:179 | The context message naming the category, the object and the ratio; see `CreateCoachChat` |
| Gemini.CreateCoachChat | services/geminiService.ts:169-182 | A chat exists iff the key is truthy: flash model, coach instruction, one seed message naming the object |
| Gemini.SendToCoach | App.tsx:205-209 | An answered message joins the chat's history and the reply's text comes back, "" for none; a thrown call fails and leaves the history as it was |
| App.InitialValid | App.tsx:16-56 | The first state has an empty history, the given key flag, and satisfies the invariant |
| App.Join | App.tsx:163-166 | The joint outcome succeeds iff both calls did; the image's failure takes precedence over the parts' failure |
| App.GenerateBlankIsNoop | App.tsx:141 | A blank name changes nothing, whatever the calls would give |
| App.GeneratePhotoGate | App.tsx:142-145 | Photo mode without a reference only sets the photo-required error, independent of every call outcome |
| App.GenerateReset | App.tsx:147-158 | Once dispatched: form, input, analysis and page unchanged, nothing in flight, transcript exactly the greeting when a coach was created (else empty, previous coach kept) |
| App.SettleKeeps | App.tsx:161-194 | Settling touches only history, result, parts, error, key flag and the in-flight flag |
| App.GenerateSuccess | App.tsx:163-180 | Success prepends the new image (a copy of the form with the returned url and parts), makes it current, shows its parts, and leaves no error |
| App.GenerateFailure | App.tsx:182-191 | Failure leaves history alone and clears the result. An authorization-looking message sets the fixed text and drops the key flag; any other message is shown as it is, and an empty one becomes the generic text |
| App.MissingKeyRevokesAuth | App.tsx:184-188 | The missing-key failure counts as an authorization failure |
| App.ForbiddenRevokesAuth | App.tsx:184-188 | The rewritten 403 failure counts as an authorization failure |
| App.PermissionNamesKey | services/geminiService.ts:125 | The permission message contains "API Key" |
| App.NewImage | App.tsx:168-175 | The stored image: clock id and time, the returned url, a copy of the form, the "Exploded View of" label and the parts; see `GenerateSuccess` |
| App.GenerateStep | App.tsx:140-195 | `handleGenerate` on the state; see the Generate lemmas above |
| App.Reset | App.tsx:147-159 | The reset before the calls; see `GenerateReset` |
| App.Settle | App.tsx:161-194 | The outcome's effect on the state; see `SettleKeeps`, `GenerateSuccess`, `GenerateFailure` |
| App.ErrorMessage | App.tsx:184 | `err.message || JSON.stringify(err)`; see `GenerateFailure` |
| App.IsAuthorizationError | App.tsx:186 | The "403", "permission" or "API Key" test; see `MissingKeyRevokesAuth` and `ForbiddenRevokesAuth` |
| App.DeleteStep | App.tsx:212-214 | `deleteHistoryItem` on the state; see `WithoutId` and `DeleteKeepsValid` |
| App.SendStep | App.tsx:197-210 | `handleSendMessage` on the state; see `SendAppendsTurn` |
| App.Exchange | App.tsx:200-209 | The exchange past the guard; see `SendAppendsTurn` |
| App.UploadStep | App.tsx:105-138 | `handleImageUploaded` on the state; see `UploadAutofill` and `UploadKeepsValid` |
| App.Autofill | App.tsx:108-134 | The analysis branch; see `UploadAutofill` |
| App.MergePreset | App.tsx:101 | The spread merge; see `MergePresetFields` |
| App.PresetStep | App.tsx:100-103 | `loadPreset` on the state; see `PresetLoad` |
| App.GenerateKeepsValid | App.tsx:140-195 | Generation keeps the session invariant |
| App.SettleKeepsValid | App.tsx:161-194 | Settling a dispatched form keeps the invariant: the stored image is well formed |
| App.WithoutId | App.tsx:212-214 | The filter never grows the history, and keeps exactly the items whose id differs |
| App.WithoutIdAppend | App.tsx:212-214 | The filter works item by item, so the survivors keep their relative order |
| App.WithoutIdAbsent | App.tsx:212-214 | Deleting an id nobody has leaves the history unchanged |
| App.WithoutIdIdempotent | App.tsx:212-214 | Deleting twice is deleting once |
| App.WithoutIdUnique | App.tsx:212-214 | With unique ids, deleting the id at position k removes exactly that item |
| App.DeleteKeepsValid | App.tsx:212-214 | Deleting keeps the invariant and the current result |
| App.SendAppendsTurn | App.tsx:197-210 | No-op exactly on blank input or no coach. Otherwise one user message, then one model message (reply, "", or apology); input cleared; the coach records the message when it was answered |
| App.AppCategory | App.tsx:116-119 | organism to organic, electronics to electronics, anything else to technical, each as an iff |
| App.UploadAutofill | App.tsx:105-138 | An analysis fills in name, mapped category and 1:1 ratio and keeps the rest of the form. No analysis changes only the reference. A failure leaves the auto-fill message |
| App.UploadKeepsValid | App.tsx:105-138 | An upload keeps the invariant |
| App.PresetLoad | App.tsx:100-103 | Loading any preset forces text mode, opens the studio and writes its name, plus its ratio and detail when given. Category, labels, kid flag, reference and hint keep their values, as do history and error |
| App.MergePresetFields | App.tsx:100-103 | The merge always ends in text mode. Each of name, category, ratio, detail, labels, kid flag, reference and hint is the given value when present and the previous one when absent. An empty partial over a text-mode form changes nothing |
| App.Session.constructor | App.tsx:16-56 | The fields start as the initial state, which is valid |
| App.Session.Generate | App.tsx:140-195 | The new state is `GenerateStep` of the old one, and the invariant holds |
| App.Session.RunGeneration | App.tsx:147-194 | Past the guards: the reset, then the settled joint outcome |
| App.Session.ResetForGeneration | App.tsx:147-158 | The new state is `Reset` of the old one |
| App.Session.ClearOutcome | App.tsx:147-150 | In-flight flag up; error, result and parts cleared |
| App.Session.Greet | App.tsx:151-159 | Transcript is the greeting and the coach replaced when a coach was created; otherwise the transcript is empty |
| App.Session.SettleGeneration | App.tsx:161-194 | The new state is `Settle` of the old one |
| App.Session.StoreImage | App.tsx:177-179 | The image becomes current, its parts are shown, and it heads the history |
| App.Session.ReportFailure | App.tsx:182-191 | The error classification and the key flag, as in `Settle` |
| App.Session.DeleteHistoryItem | App.tsx:212-214 | The new state is `DeleteStep` of the old one, and the invariant holds |
| App.Session.SendMessage | App.tsx:197-210 | The new state is `SendStep` of the old one, and the invariant holds |
| App.Session.Converse | App.tsx:200-209 | Past the guard: the new state is `Exchange` of the old one |
| App.Session.AddUserTurn | App.tsx:200-202 | The user's message is appended and the input cleared |
| App.Session.AddCoachTurn | App.tsx:204-209 | The reply (or apology) is appended and the coach holds the new turn |
| App.Session.ImageUploaded | App.tsx:105-138 | The new state is `UploadStep` of the old one, and the invariant holds |
| App.Session.Analyze | App.tsx:108-134 | The new state is `Autofill` of the old one; the in-flight flag is down again |
| App.Session.ApplyAnalysis | App.tsx:110-133 | The error is cleared, then the form is filled or the failure reported, as `Autofill` says |
| App.Session.LoadPreset | App.tsx:100-103 | The new state is `PresetStep` of the old one, and the invariant holds |

## Left out

- Prompt.BuildPrompt / Prompt.Substitute / Prompt.SubstituteIn: these fill the slots of the parsed template instead of rewriting the template's JSON text and decoding it. They agree with `buildPrompt` only for a `Prompt.PlainName` name, one without `{`, `\` or `"`. For other names the source rewrites placeholder tokens inside the name (`Prompt.TokenInNameIsRewritten`), decodes escapes, or fails to parse where the model does not (`Prompt.TokenInNameIsKept`).
- Prompt.PromptMentionsObject: requires a plain object name, one without `{`, `\` or `"`. The source rewrites the template's JSON text, so a later replacement rewrites any token inside the name (`Prompt.TokenInNameIsRewritten`). `JSON.parse` then decodes escapes and stops at quotes. The model's slot fills do neither (`Prompt.TokenInNameIsKept`), so for other names the property is not promised of the source.
- Prompt.BaseIgnoresRatioAndDetail: requires a plain object name, for the same reason. A name holding `{ASPECT_RATIO}` or `{DETAIL_LEVEL}` makes the source's description depend on them.
- Prompt.SubstituteInIgnores: requires a plain object name, as above.
- Prompt.PromptIgnoresRatio: requires a plain object name, as above.
- The Gemini SDK (`generateContent`, `chats.create`, `chat.sendMessage`) is not called. Each reply is an input:
  - a function from request to `Reply` in `Gemini`;
  - a parameter of each handler in `App`.

  So `App.Session.Generate` takes what `createCoachChat`, `generateImage` and `generateObjectParts` gave instead of calling them, and `App.Session.ImageUploaded` takes what `analyzeImage` gave. `Gemini` proves the properties of those outcomes.
- `process.env.API_KEY` is an `Option<string>` parameter. The key check with `window.aistudio` and the connect button (App.tsx:59-98) are out: the constructor takes the resulting flag.
- `JSON.parse` is an oracle. For the templates it is a predicate on the substituted template. For parts and analysis it is a partial function on the reply text. The unchecked `as Part[]` and `as AnalysisResult` casts are not modelled.
- `JSON.stringify(error)` is the `serialized` field of a failure. Errors raised by the service module have "{}" there, because an `Error`'s message is not enumerable.
- `String.prototype.replace` special replacement patterns (`$&`, `$$`, `` $` ``, `$'`) are not modelled. The replace functions insert the value literally, which is the source's behaviour when the value holds no `$`.
- Prompt.SubstituteIsReplace: requires brace-free literal text. That is not proved for the long template constants, which are held as pieces and slots; the proofs of the prompt properties use that form. The lemma relates the description's text only, not the whole JSON document or its decoding.
- Gemini.PartsPromptIsReplace: requires brace-free literal text, which is not proved for the prompt constant.
- Templates.RenderReplaceAll: requires brace-free literals; this is discharged for no constant.
- Templates.RenderReplaceFirst: requires brace-free literals; this is discharged for no constant.
- `Promise.all` is joined sequentially: when both calls fail, the model reports the image's failure, whereas the source reports whichever call rejects first. The async suspension points are not modelled. Each handler is one atomic step, and the stale `params` closure of a handler is the state at its start.
- `Date.now()` readings are the `Clock` parameter and the send and reply times.
- `AnalysisResult.mainRegion` and `confidence` are `real` values. Floating-point rounding is not modelled, and nothing is proved about them.
- `viewMode`, `rightPanelTab`, zoom and pan (App.tsx:474-501), `selectedPartId`, `isCheckingKey`, scrolling, and all JSX rendering (App.tsx:218-749) are out: they only affect the view.
- `components/` (Viewer3D spiral layout, ImageUploader, Navbar, LoadingOverlay) is not part of this model.
- `console` logging is not modelled.
- App.Session.Generate: the invariant does not record that a stored image's url starts with "data:image/png;base64,". The url is an input of the handler here; `Gemini.ImageSuccess` proves the prefix for the image call.
