# cb-oss-template recipes, modelled in Dafny

This project models the logic inside the recipe demos of the cb-oss-template
Next.js starter:

- the multi-LLM orchestration endpoint: seed-prompt choice, mock or live mode, and response shaping;
- the `ThumbsFeedback` widget's state machine and the payload it sends;
- the two feedback ingestion routes. The demo route keeps an in-memory buffer. The example route
  sits behind a login and inserts through Supabase;
- the feedback review command-line tool: listing, short-id addressing and per-entity statistics;
- the changelog page, in both of its variants: ordering, paging and the show-more toggle;
- the two image demo routes: prompt choice, SVG placeholders and data-URL handling;
- the title that the demo layout derives from the path.

JavaScript's own semantics live in two small modules:

- `Js`: JSON values, truthiness, `??` and `||`;
- `JsString`: `split`, `trim`, `slice`, and `localeCompare` on ISO dates.

Two more modules cover behaviour the sources rely on:

- `ArraySort`: `Array.prototype.sort` as a stable insertion sort driven by the comparator;
- `PgPattern`: PostgreSQL's ILIKE pattern matching (section 9.7.1 of the PostgreSQL manual).

Each route handler takes its environment, request body and foreign services as parameters:

- the orchestrator, the prompt-template renderer, the image generator and refiner;
- the variation generator, `fetch`, `randomUUID` and the session lookup.

A foreign call that may throw returns an `Attempt` or `Outcome`. An exception that escapes a handler's
`try` block is the `Unhandled` response.

Classes stand where the source changes state in place:

- `ThumbsFeedback.Widget`: React state, `localStorage` and the requests sent;
- `DemoFeedback.Store`: the module-level `inMemoryFeedback` array and the database table;
- `ReviewFeedback.FeedbackTable`: the `cb_feedback` table the CLI reads and updates.

The statistics loop of the review tool is a method with loop invariants, proved against the
functions `Tally` and `KeysInOrder`.

Three behaviours of the orchestration route are worth stating plainly:

- in mock mode it returns a populated three-query plan built from the seed prompt;
- an API key set to the empty string selects mock mode, as a missing key does, because the check is `!key`;
- every live failure is answered with one generic 502, whatever its cause.

## Model

| member | source | states |
|---|---|---|
| Orchestrate.ModelName | src/app/api/demo/orchestrate/route.ts:13 | `OPENROUTER_MODEL` is used whenever it is set, even when it is empty; otherwise the model is the default haiku model |
| Orchestrate.MessagesOf | src/app/api/demo/orchestrate/route.ts:44 | an array `messages` is taken as it is; anything else is an empty history |
| Orchestrate.NonArrayMessagesAreEmpty | src/app/api/demo/orchestrate/route.ts:44 | a body whose `messages` is not an array yields no messages |
| Orchestrate.Reversed | src/app/api/demo/orchestrate/route.ts:48 | the reversed copy has the same length and holds element `i` at position `n-1-i` |
| Orchestrate.FindUserFinds | src/app/api/demo/orchestrate/route.ts:48 | `find` returns nothing iff no message has role `user`; otherwise it returns the first user message |
| Orchestrate.LastUserMessageIsLatest | src/app/api/demo/orchestrate/route.ts:48 | the message found is a user message with no user message after it; there is none iff the history has no user message |
| Orchestrate.SeedPrompt | src/app/api/demo/orchestrate/route.ts:50 | the seed is the last user message's content, or the default sentence when there is none |
| Orchestrate.SeedPromptIsLatestUserContent | src/app/api/demo/orchestrate/route.ts:47-50 | with no user message the seed is the default; otherwise it is the content of a user message that no later user message follows |
| Orchestrate.MockSourceUrlsDiffer | src/app/api/demo/orchestrate/route.ts:24-34 | the three mock source URLs are pairwise distinct |
| Orchestrate.BuildMockPackage | src/app/api/demo/orchestrate/route.ts:15-40 | three sources with pairwise distinct URLs; the first is titled `Sample source for: <topic>`; two follow-ups; a non-empty headline |
| Orchestrate.MockPlan | src/app/api/demo/orchestrate/route.ts:61-68 | the objective is `Find practical sources for: <seed>`; there are exactly three queries, each the seed plus its suffix |
| Orchestrate.MockQueriesExtendSeed | src/app/api/demo/orchestrate/route.ts:63-67 | every mock query starts with the seed, and the three queries are pairwise distinct |
| Orchestrate.LiveRequest | src/app/api/demo/orchestrate/route.ts:74-84 | the orchestrator gets both keys, the model name, site URL, app name, the context summary and the seed prompt |
| Orchestrate.MockMode | src/app/api/demo/orchestrate/route.ts:53-56 | a missing or empty key of either service selects mock mode; live mode has both keys, non-empty |
| Orchestrate.Post | src/app/api/demo/orchestrate/route.ts:42-97 | a body that is not JSON throws; otherwise the reply is mock iff a key is missing or empty, and a live call ends in a live reply or a failure |
| Orchestrate.MockReply | src/app/api/demo/orchestrate/route.ts:56-70 | in mock mode the reply is exactly: mode `mock`, the fixed message, the mock package and plan for the seed, and no results |
| Orchestrate.MockNeverCallsOrchestrator | src/app/api/demo/orchestrate/route.ts:53-71 | in mock mode the response does not depend on the orchestrator at all |
| Orchestrate.LiveSuccessPassesThrough | src/app/api/demo/orchestrate/route.ts:86-92 | a live success replies with mode `live`, message = the package intro, and the package, plan and results unchanged |
| Orchestrate.LiveFailureIs502 | src/app/api/demo/orchestrate/route.ts:93-96 | a live failure yields only status 502 with `Orchestration failed` |
| ThumbsFeedback.OrAbsent | src/components/recipes/thumbs-feedback/ThumbsFeedback.tsx:35-38 | `x \|\| undefined` is absent exactly when `x` is absent or empty, and is `x` otherwise |
| ThumbsFeedback.BuildPayload | src/components/recipes/thumbs-feedback/ThumbsFeedback.tsx:32-39 | the payload carries the entity and the rating; an empty context id, text or role is absent; an explicit role wins over the remembered one |
| ThumbsFeedback.PayloadHasNoEmptyOptionals | src/components/recipes/thumbs-feedback/ThumbsFeedback.tsx:32-39 | no optional field of a payload is ever the empty string |
| ThumbsFeedback.Next | src/components/recipes/thumbs-feedback/ThumbsFeedback.tsx:55-82 | an offered control leads to Submitted iff it is thumbs up, Enter, Send or Skip; it leads to the role picker iff it is thumbs down with roles and no remembered role |
| ThumbsFeedback.SubmittedIsTerminal | src/components/recipes/thumbs-feedback/ThumbsFeedback.tsx:84-90 | the submitted view offers no control, so nothing leaves Submitted |
| ThumbsFeedback.EveryStateBeforeSubmitOffersAControl | src/components/recipes/thumbs-feedback/ThumbsFeedback.tsx:92-167 | every state before Submitted renders at least one control |
| ThumbsFeedback.Widget.constructor | src/components/recipes/thumbs-feedback/ThumbsFeedback.tsx:20-28 | a new widget is idle with empty text and nothing sent; the stored role is loaded only when roles are offered |
| ThumbsFeedback.Widget.Send | src/components/recipes/thumbs-feedback/ThumbsFeedback.tsx:30-53 | one payload is built; `onSubmit` gets it if given; one POST goes to the endpoint unless the network is disabled; nothing else changes |
| ThumbsFeedback.Widget.HandleThumbUp | src/components/recipes/thumbs-feedback/ThumbsFeedback.tsx:55-58 | moves to Submitted and sends one payload with rating true and no text |
| ThumbsFeedback.Widget.HandleThumbDown | src/components/recipes/thumbs-feedback/ThumbsFeedback.tsx:60-66 | moves to the role picker iff roles are offered and no role is held, else to text input; sends nothing |
| ThumbsFeedback.Widget.HandleRoleSelect | src/components/recipes/thumbs-feedback/ThumbsFeedback.tsx:68-72 | stores the role under the storage key, holds it, and moves to text input |
| ThumbsFeedback.Widget.SetFeedbackText | src/components/recipes/thumbs-feedback/ThumbsFeedback.tsx:118 | only the typed text changes |
| ThumbsFeedback.Widget.HandleTextSubmit | src/components/recipes/thumbs-feedback/ThumbsFeedback.tsx:74-77 | moves to Submitted and sends one payload with rating false and the typed text |
| ThumbsFeedback.Widget.HandleTextSkip | src/components/recipes/thumbs-feedback/ThumbsFeedback.tsx:79-82 | moves to Submitted and sends one payload with rating false and no text |
| ThumbsFeedback.Widget.Press | src/components/recipes/thumbs-feedback/ThumbsFeedback.tsx:55-167 | any rendered control moves the widget as `Next` says and keeps it valid; thumbs up sends rating true with no text; Enter and Send send rating false with the typed text; Skip sends rating false with no text; a role choice stores and holds the role, and no other control touches the role or the storage; only typing changes the text; nothing is sent unless the widget reaches Submitted |
| FeedbackRequest.Destructure | src/app/api/demo/feedback/route.ts:20 | destructuring throws only on a null body and otherwise reads the six properties |
| FeedbackRequest.Acceptable | src/app/api/demo/feedback/route.ts:22-27 | an accepted body has a boolean rating and an entity type and id that are neither null nor undefined; an empty type or id is rejected |
| FeedbackRequest.AcceptableBodies | src/app/api/demo/feedback/route.ts:22-27 | a body passes validation iff it is an object with truthy `entityType` and `entityId` and a boolean `rating` |
| DemoFeedback.RowOf | src/app/api/demo/feedback/route.ts:54-62 | absent optional fields become null under `??`; an empty string is kept; the user id is the session's |
| DemoFeedback.Route | src/app/api/demo/feedback/route.ts:19-69 | a crash iff the body is not JSON or is null; a rejection iff it fails validation; the in-memory paths need no database or no user; the insert is tried only with a database and a signed-in user, on the row built from the body and that user, and succeeds iff it does not throw |
| DemoFeedback.ResponseOf | src/app/api/demo/feedback/route.ts:22-69 | 400 iff the body was rejected; every other reply is a success; `persisted` is true only on the insert path |
| DemoFeedback.PersistedOnlyAfterInsert | src/app/api/demo/feedback/route.ts:40-65 | `persisted: true` iff the body is valid, a database is set, a signed-in user exists and the insert did not throw |
| DemoFeedback.NeverReportsFailure | src/app/api/demo/feedback/route.ts:66-69 | every reply is the 400 or a success; the route never answers `success: false` |
| DemoFeedback.OnlyAcceptableBodiesAreKept | src/app/api/demo/feedback/route.ts:19-27 | only a valid body is buffered or inserted; a body that is not JSON, or is null, is answered as an unpersisted success |
| DemoFeedback.AcceptableBodyKeptInMemory | src/app/api/demo/feedback/route.ts:29-38 | a valid body is buffered when there is no database, and also when there is one but no user, in that case with the login note |
| DemoFeedback.Store.Post | src/app/api/demo/feedback/route.ts:15-70 | the buffer gains exactly this request's record on the two buffering paths; the table gains the row only on a successful insert; nothing else changes |
| ExampleFeedback.RowOf | recipes/thumbs-feedback/example/api/feedback/route.ts:50-58 | optional fields that are falsy, including the empty string, become null under `\|\|`; the user id is the session user's |
| ExampleFeedback.Post | recipes/thumbs-feedback/example/api/feedback/route.ts:16-76 | a failed session lookup is a 500 and no user is a 401 |
| ExampleFeedback.UnauthorizedBeforeBody | recipes/thumbs-feedback/example/api/feedback/route.ts:19-22 | without a user the answer is 401 whatever the body, key or database |
| ExampleFeedback.BadRequestExactlyWhenInvalid | recipes/thumbs-feedback/example/api/feedback/route.ts:38-43 | 400 iff a user is signed in and the parsed body fails validation |
| ExampleFeedback.SuccessOnlyWhenSaved | recipes/thumbs-feedback/example/api/feedback/route.ts:60-68 | `{success: true}` iff there is a user, a valid body and a service key, and the insert reported no error |
| ExampleFeedback.FailuresAre500Otherwise | recipes/thumbs-feedback/example/api/feedback/route.ts:9-14 | every failure is 400, 401 or 500, and every 500 says `Failed to save feedback` |
| ExampleFeedback.EmptyStringBecomesNull | recipes/thumbs-feedback/example/api/feedback/route.ts:53 | an empty context id is inserted as null here, but kept as `""` by the demo route |
| PgPattern.PrefixPatternMatchesPrefixes | src/components/recipes/feedback-review/review-feedback.ts:92 | `ilike(id, prefix%)` with a prefix free of special characters matches exactly the ids that start with it, ignoring case |
| ReviewFeedback.UnaddressedRows | src/components/recipes/feedback-review/review-feedback.ts:57 | exactly the rows whose `addressed_at` is null are kept |
| ReviewFeedback.NewestFirstConsistent | src/components/recipes/feedback-review/review-feedback.ts:58 | ordering by `created_at` descending is a consistent comparator |
| ReviewFeedback.ListedRows | src/components/recipes/feedback-review/review-feedback.ts:54-59 | at most `listLimit` unaddressed rows, newest first, forming a prefix of all unaddressed rows sorted newest first |
| ReviewFeedback.ListedRowsAreTheNewest | src/components/recipes/feedback-review/review-feedback.ts:58-59 | no row left out of the list is newer than a listed one |
| ReviewFeedback.RatingMark | src/components/recipes/feedback-review/review-feedback.ts:76 | the mark is thumbs up iff the rating is true |
| ReviewFeedback.EntityLabel | src/components/recipes/feedback-review/review-feedback.ts:73-75 | the joined name when a join is configured and present, the entity id otherwise |
| ReviewFeedback.ShippedConfigShowsEntityId | src/components/recipes/feedback-review/review-feedback.ts:16-24 | the shipped configuration has no join, so lines show the entity id |
| ReviewFeedback.RolePart | src/components/recipes/feedback-review/review-feedback.ts:78 | the role part is empty iff the row has no role; otherwise it is the role in square brackets after a space |
| ReviewFeedback.TextPart | src/components/recipes/feedback-review/review-feedback.ts:77 | the text part is empty iff the row has no text; otherwise it is a space, an em dash, a space and the text in double quotes |
| ReviewFeedback.ListLine | src/components/recipes/feedback-review/review-feedback.ts:80-82 | a line is its head, then the role and text parts, then the date in parentheses |
| ReviewFeedback.ListLineShowsRoleThenText | src/components/recipes/feedback-review/review-feedback.ts:77-82 | right after the entity label the line shows the role part, then the text part |
| ReviewFeedback.ListLineShowsIdAndRating | src/components/recipes/feedback-review/review-feedback.ts:81 | the line shows the id's first eight characters, followed by thumbs up iff the rating is true |
| ReviewFeedback.ListLines | src/components/recipes/feedback-review/review-feedback.ts:72-83 | one line per listed row, in order |
| ReviewFeedback.MatchingIds | src/components/recipes/feedback-review/review-feedback.ts:89-93 | the ids of unaddressed rows that match `prefix%` |
| ReviewFeedback.Resolve | src/components/recipes/feedback-review/review-feedback.ts:86-113 | a 36-character id is used as it is; a shorter prefix gives no match iff nothing matches, ambiguous (with the count) iff several match, and the single match otherwise |
| ReviewFeedback.ShortIdResolvesToTheMatchingRow | src/components/recipes/feedback-review/review-feedback.ts:88-112 | when exactly one unaddressed row starts with the short id (ignoring case), it resolves to that row's full id |
| ReviewFeedback.ShortIdWithoutMatchResolvesToNothing | src/components/recipes/feedback-review/review-feedback.ts:100-103 | when no unaddressed row starts with the short id, nothing is resolved |
| ReviewFeedback.MarkAddressed | src/components/recipes/feedback-review/review-feedback.ts:115-118 | only the rows with that id get `addressed_at` set, and to the current time |
| ReviewFeedback.AddressingStampsOnlyTheResolvedRow | src/components/recipes/feedback-review/review-feedback.ts:115-118 | other rows are unchanged; the addressed row leaves the unaddressed set; no other field of it changes |
| ReviewFeedback.AddressedRowsAreIgnored | src/components/recipes/feedback-review/review-feedback.ts:93 | an addressed row changes neither the unaddressed rows, nor the matches, nor the resolution |
| ReviewFeedback.FeedbackTable.AddressFeedback | src/components/recipes/feedback-review/review-feedback.ts:86-126 | the table is updated iff the prefix resolves, and then exactly as `MarkAddressed` says |
| ReviewFeedback.TallyDomain | src/components/recipes/feedback-review/review-feedback.ts:144-154 | the map's keys are exactly the `entity_type:entity_id` keys of the rows, in first-seen order |
| ReviewFeedback.TallyCounts | src/components/recipes/feedback-review/review-feedback.ts:147-153 | each key maps to the number of its thumbs-up rows and of its thumbs-down rows |
| ReviewFeedback.KeysAreDistinct | src/components/recipes/feedback-review/review-feedback.ts:144 | no entity key appears twice |
| ReviewFeedback.Entries | src/components/recipes/feedback-review/review-feedback.ts:156 | one entry per key, in insertion order, carrying that key's up and down counts |
| ReviewFeedback.StatsCountEveryRowOnce | src/components/recipes/feedback-review/review-feedback.ts:144-154 | summed over all entities, up plus down equals the number of rows |
| ReviewFeedback.CountByEntity | src/components/recipes/feedback-review/review-feedback.ts:144-154 | the loop builds exactly the tally map and its key order |
| ReviewFeedback.MostDownFirstConsistent | src/components/recipes/feedback-review/review-feedback.ts:157 | ordering by `down` descending is a consistent comparator |
| ReviewFeedback.FeedbackTable.ShowStats | src/components/recipes/feedback-review/review-feedback.ts:128-158 | the output is a permutation of the unaddressed rows' entries, ordered by `down` non-increasing |
| ArraySort.SortWithSorted | src/components/recipes/feedback-review/review-feedback.ts:156-158 | sorting with a consistent comparator yields an ordered sequence |
| Changelog.Comparator | src/components/recipes/changelog/ChangesPage.tsx:10-14 | zero iff the dates are equal; `asc` compares the dates, `desc` is its exact negation |
| Changelog.ComparatorConsistent | src/components/recipes/changelog/ChangesPage.tsx:10-14 | both date comparators are consistent |
| Changelog.SortUpdates | src/components/recipes/changelog/ChangesPage.tsx:9-15 | a permutation of the input; with `desc` `publishedAt` is non-increasing, with `asc` it is non-decreasing |
| Changelog.SortUpdatesKeepsOrderedList | recipes/changelog/src/ChangesPage.tsx:8-14 | an already ordered list is returned unchanged, since the sort is stable |
| Changelog.KindLabel | src/components/recipes/changelog/ChangesPage.tsx:17-21 | `Internal`, `Tool` and `Practice` label exactly their own kinds |
| Changelog.KindStyles | src/components/recipes/changelog/ChangesPage.tsx:23-27 | emerald, sky and amber badge classes mark exactly the internal, tool and practice kinds |
| Changelog.KindLabelAndStylesAgree | src/components/recipes/changelog/ChangesPage.tsx:17-27 | labels and styles each separate the three kinds, so they split the kinds the same way |
| Changelog.Visible | src/components/recipes/changelog/ChangesPage.tsx:33 | a prefix of the sorted list, with `min(pageSize, n)` entries unless all are shown |
| Changelog.ToggleExactlyWhenEntriesHidden | src/components/recipes/changelog/ChangesPage.tsx:117 | the toggle appears iff collapsing hides some entry |
| Changelog.ToggleShowAll | src/components/recipes/changelog/ChangesPage.tsx:118 | the toggle flips `showAll` and keeps the order |
| Changelog.SelectOrder | src/components/recipes/changelog/ChangesPage.tsx:46-54 | choosing an order keeps `showAll` |
| Changelog.ToggleTwiceRestores | src/components/recipes/changelog/ChangesPage.tsx:118 | toggling twice restores the view |
| Changelog.Render | src/components/recipes/changelog/ChangesPage.tsx:29-33 | the page shows a prefix of the sorted updates of the expected length, and a toggle iff there are more updates than the page size |
| Changelog.AppUpdatesNewestFirst | src/components/recipes/changelog/changes.ts:21-115 | the shipped updates are declared newest first |
| Changelog.AppUpdatesSortedAsDeclared | src/components/recipes/changelog/changes.ts:21-115 | sorting the shipped updates `desc` leaves their declared order |
| Changelog.AppFirstPage | src/components/recipes/changelog/ChangesPage.tsx:30-33 | the first view shows the first four shipped updates and offers `See more updates` |
| Changelog.AppExpandedPage | src/components/recipes/changelog/ChangesPage.tsx:117-120 | after one toggle all five updates show and the toggle reads `Show fewer updates` |
| Changelog.RecipePageEmpty | recipes/changelog/src/changes.ts:21-40 | with the empty shipped list nothing is visible and no toggle is shown, in any view |
| ImageCommon.SafeText | src/app/api/demo/images/refine/route.ts:15 | at most `limit` characters, no `<` or `>`, and every other character as often as in the truncated text |
| ImageCommon.SafeTextKeepsPlainText | src/app/api/demo/images/generate/route.ts:5 | a short text without angle brackets is kept as it is |
| JsString.RemoveAllAppend | src/app/api/demo/images/refine/route.ts:15 | removal works piece by piece, so the kept characters stay in their order |
| ImageCommon.SafeTextAddsNoBrackets | src/app/api/demo/images/generate/route.ts:5-6 | the sanitised text adds no angle bracket to the template around it |
| ImageGenerate.SvgDataUrl | src/app/api/demo/images/generate/route.ts:4-7 | an SVG data URL whose payload is the UTF-8 text of the card |
| ImageGenerate.PromptCannotAddMarkup | src/app/api/demo/images/generate/route.ts:4-7 | whatever the prompt, the placeholder data URL's SVG has the same angle brackets |
| ImageGenerate.FinalPrompt | src/app/api/demo/images/generate/route.ts:13-16 | a truthy `prompt` is used; the template is rendered only when the prompt is falsy and both `source_text` and `prompt_template` are truthy |
| ImageGenerate.TruthyPromptWins | src/app/api/demo/images/generate/route.ts:13-14 | with a truthy prompt the renderer is never consulted |
| ImageGenerate.Post | src/app/api/demo/images/generate/route.ts:10-37 | no final prompt gives 400; without a key the reply is the mock SVG; otherwise a PNG data URL or a 500 |
| ImageRefine.BufferFromBase64 | src/app/api/demo/images/refine/route.ts:6-12 | input that is not a data URL is decoded whole; for a data URL the decoded text holds no comma |
| ImageRefine.DataUrlPayloadIsDecoded | src/app/api/demo/images/refine/route.ts:7-9 | for a data URL, what is decoded is the text between the first comma and the next comma or the end |
| ImageRefine.DataUrlWithoutCommaIsEmpty | src/app/api/demo/images/refine/route.ts:9 | a data URL without a comma decodes the empty string |
| ImageRefine.SvgDataUrl | src/app/api/demo/images/refine/route.ts:14-17 | an SVG data URL whose payload is the UTF-8 text of the card |
| ImageRefine.VariationCannotAddMarkup | src/app/api/demo/images/refine/route.ts:14-17 | whatever the variation, the placeholder data URL's SVG has the same angle brackets |
| ImageRefine.TrimmedPrompt | src/app/api/demo/images/refine/route.ts:22 | a string prompt is trimmed; anything else becomes empty |
| ImageRefine.PromptMissingIffBlank | src/app/api/demo/images/refine/route.ts:22-26 | the prompt is missing iff it is not a string or is white space only |
| ImageRefine.MockVariations | src/app/api/demo/images/refine/route.ts:33-37 | three variations: the prompt, the prompt with `, with softer lighting`, and the prompt with `, with more texture detail` |
| ImageRefine.MockImages | src/app/api/demo/images/refine/route.ts:38-45 | three images; image `i` shows variation `i` in accent `i` and carries it as its prompt |
| ImageRefine.Base64WinsOverUrl | src/app/api/demo/images/refine/route.ts:51-52 | with a non-empty base64 string the URL is never fetched |
| ImageRefine.SourceImage | src/app/api/demo/images/refine/route.ts:51-63 | a truthy base64 input is decoded, and throws when it is not a string; otherwise the image is the fetched bytes, and there is one iff the fetch answered ok and its bytes were read |
| ImageRefine.LiveImages | src/app/api/demo/images/refine/route.ts:70-74 | one image per variation, in order: the i-th id, the refined PNG as a data URL, and the variation as its prompt |
| ImageRefine.RefineLive | src/app/api/demo/images/refine/route.ts:48-80 | when the source is read and every variation refined, the live images; after a fetch answered with an error status, a 502 naming that status and body text; any other failure, a 500 |
| ImageRefine.Post | src/app/api/demo/images/refine/route.ts:20-81 | the prompt check comes before the image check, both 400; mock without a key; with a prompt, an image and a key: the live images on success, the 502 with the fetch's status and text after a rejected fetch, the 500 otherwise; a live reply and a 502 happen only in those cases |
| DemoLayout.Segment | src/app/demo/layout.tsx:19 | the segment never contains a slash, and is empty when the path has fewer than three components |
| DemoLayout.Title | src/app/demo/layout.tsx:19-20 | the title is never empty and is what the path's third component shows: the index title when it is empty, its label when known, itself otherwise |
| DemoLayout.TitleOfDemoPath | src/app/demo/layout.tsx:19-20 | `/demo/<slug>` is titled by the slug's label, the slug itself when unknown, or `Recipe Demos` when empty |
| DemoLayout.TitleOfDeeperPath | src/app/demo/layout.tsx:19-20 | deeper paths use only that component, so `/demo/tts/x` shows `STT + TTS` |
| DemoLayout.IndexTitle | src/app/demo/layout.tsx:20 | `/demo` is titled `Recipe Demos` |
| DemoLayout.IndexWithSlashTitle | src/app/demo/layout.tsx:20 | `/demo/` is titled `Recipe Demos` |
| DemoLayout.RecipeAgreesWithLabel | src/app/demo/layout.tsx:6-15 | every recipe card's slug is in the label table, with the card's title as its label |
| DemoLayout.EveryRecipeLinkShowsItsTitle | src/app/demo/page.tsx:67 | following a card's `/demo/<slug>` link shows that card's title in the header |

## Left out

- Network and process I/O are left out: the database, Supabase, `fetch` bodies and console output. Each
  handler receives their results as parameters. Query errors of the review tool, its command dispatch and
  its printed headers, empty-data messages and padded stats columns are not modelled.
- Concurrency is not modelled: `Promise.all` in the refine route is one all-or-nothing step. React effect
  timing is also left out: the stored role is read at mount. So is the `useCallback` dependency list.
- The prompt and placeholder display props of the widget are not modelled, and neither are the card
  descriptions on the demo index page. They are display text only.
- Base64 encoding and decoding are symbolic (`Utf8`, `FromBase64`, `Bytes`). SVG text is a sequence of code
  points, so `slice` is not modelled on UTF-16 code units.
- `localeCompare` is lexicographic order, which is right for the ISO dates the sources compare. ILIKE
  folds case for ASCII letters only.
- The order of entities with equal `down` counts, and of rows with equal `created_at`, follows the stable
  sort of the fetched order. The order the database returns rows in is not modelled.
- Orchestrate.Post: `sanitizeMessages`, `buildContextSummary` and the orchestrator are parameters. The
  first two are assumed not to throw, and the planner, search and summariser that sit behind them are
  not part of this model.
- ImageRefine.Post: reading the text of a failed fetch (`imageResponse.text()`) is assumed not to throw; a
  throw there would be answered with the 500. Reading the bytes of a fetch that was ok may throw, and is
  answered with the 500.
- ThumbsFeedback.Widget.Send: an `onSubmit` callback that throws is not modelled. It is called outside
  any `try`, so the POST would then be skipped, while the model always records the request.
- ReviewFeedback.NewestFirst: `created_at` values are compared as strings, which matches the database's
  timestamp order only for timestamps written in one fixed-width ISO format.
- DemoLayout.Title: keys inherited from `Object.prototype` (such as `constructor`) are not in the
  table, so the model shows them verbatim as unknown segments. The page itself would look them up on the
  prototype.
- The `multi-llm` orchestrator internals, the UI-only demo components, the speech recipes and the canvas
  routes are outside the modelled core.
