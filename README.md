# Tarot prediction service — a verified model of its core

The service reads a tarot prediction from a language model and returns it
with three images. Two front ends use it: a Telegram bot (`main.go`) and a
web app served by three near-duplicate HTTP servers:

- `pkg/server/handler.go`, the current one;
- `cmd/server/server.go`, a standalone one;
- `server.go`, the oldest. It shares the root package with `main.go`, and
  the two clash (see below), so each is modelled on its own.

It draws images from the Kandinsky text-to-image service. A job is submitted
there, then polled until it finishes. This project models the deterministic
logic between those network calls and proves what it promises.

The model has one module per source file:

- `PredictionSplit` (`main.go`) cuts a prediction into the three messages
  the bot sends. Escaped newlines are normalised first. The text is split
  on the `***` marker, else into paragraphs, else the paragraphs are
  regrouped into three contiguous groups. Any slot still empty gets a fixed
  placeholder. It always gives three non-empty trimmed parts.
- `ImagePrompt` (`main.go`) derives an image prompt. It uses the scene of a
  tarot card named in the text, case-insensitively. Otherwise it uses the
  first matching keyword theme, else a default.
- `MainPolling` (`main.go`) is the bot's status polling. It makes ten
  attempts with a backoff starting at 2 s and growing by 1.5. Transport
  errors are tolerated.
- `Kandinsky` (`pkg/common/kandinsky.go`) covers the library's checks
  before creating a task and its wait for the image. The wait makes thirty
  checks with a fixed 10 s sleep. Every error is fatal, and CENSORED is not
  terminal.
- `Handler` (`pkg/server/handler.go`) covers:
  - the CORS origin gate, a subset of the CORS protocol of section 3.2 of
    the WHATWG Fetch Standard;
  - the method dispatch;
  - the reading of the model's reply into a text plus three image prompts.
- `CmdServer` (`cmd/server/server.go`) covers the wildcard-CORS dispatch,
  and the reply reading with its last-three-paragraphs and fixed-prompt
  fallbacks.
- `RootServer` (`server.go`) covers the dispatch, the prompt built from the
  client's profile, and the first-choice answer.

Shared modules:

- `GoStrings`: the Go `strings` functions used, with their laws.
- `HttpModel`: replies and `http.Error`.
- `PromptLines`: the line routing of both `GetPrediction` variants.
- `FanOut`: the POST branch that both prediction handlers share (body,
  prediction, image fan-out and the all-or-nothing reply after the join).
- `Types`: the records of `pkg/common/types.go`.
- `Basics`: Result and Option.

Several inputs become parameters:

- Remote calls become function parameters (oracles): the chat completion,
  task submission, each status poll, image generation per index and base64
  decoding.
- Environment variables become parameters.
- Go's map iteration order in `generateImagePrompt` is a parameter, any
  order of the card table.
- The order in which the three image goroutines finish is a parameter,
  any permutation of 0, 1 and 2.
- Sleeps are returned as a recorded sequence or count of delays.

Where the code and its description disagree, the model follows the code.

- `pkg/common/types.go` declares a `UserState` with only `Age` and
  `Gender`. The handlers read `Name`, `BirthDate`, `Question`, `Mode`,
  `PartnerName` and `PartnerBirth`. `HttpModel.Profile` carries the fields
  the handlers read.
- `checkGenerationStatus` grows its backoff as `float64` times 1.5. The
  model uses `b * 3 / 2` in integer nanoseconds. `MainPolling.BackoffExact`
  proves that the product is exact for all ten steps, so neither rounding
  nor truncation ever applies.
- `main.go` and `server.go` are both `package main` in the repository
  root, and both declare `UserState` (main.go:34, server.go:20),
  `OPENROUTER_API_KEY` (main.go:28, server.go:44) and `getPrediction`
  (main.go:138, server.go:158), the last with different signatures. Go
  rejects a name declared twice in one package, so the root package does
  not build from these files as given. The model takes each of `main.go`
  (`PredictionSplit`, `ImagePrompt`, `MainPolling`) and `server.go`
  (`RootServer`) on its own, as if it were the only file of its package,
  and the findings below about either file hold under that reading.
- When a handler panics, `net/http` recovers the panic, logs it and closes
  the connection without a reply. `RootServer.HandlerPanic` stands for
  that outcome.

## Model

| member | source | states |
|---|---|---|
| GoStrings.Index | main.go:546 | the first index where the text occurs, or -1, and no earlier occurrence (strings.Index, behind strings.Contains) |
| GoStrings.JoinSplit | pkg/server/handler.go:293-322 | joining the pieces of a split with the same separator gives back the original text |
| GoStrings.SplitCutJoin | cmd/server/server.go:240-243 | cutting the pieces of a split at any point and joining both sides around one separator gives back the text |
| GoStrings.JoinTrimmed | main.go:382 | joining non-empty trimmed texts gives a non-empty trimmed text |
| GoStrings.TrimLeft | main.go:342 | the result is a suffix, everything removed is white space, and it starts with a non-space |
| GoStrings.TrimRight | main.go:342 | the result is a prefix, everything removed is white space, and it ends with a non-space |
| GoStrings.TrimSpace | main.go:342 | the result is trimmed; it is empty exactly when the input is all white space; a trimmed input is unchanged |
| GoStrings.TrimSpaceIsSlice | main.go:342 | the result is the slice of the input between a white-space prefix and a white-space suffix, so with the row above it is the input with its leading and trailing white space removed |
| GoStrings.Utf8Length | server.go:161 | Go's byte length of a string: between one and four bytes per code point, and one per code point exactly when every code point is ASCII |
| GoStrings.ToLower | main.go:546 | same length, and each character is lower-cased on its own |
| HttpModel.Error | pkg/server/handler.go:121 | http.Error: the given status, the message plus a newline as plain text, a text content type, nosniff, and every other header kept |
| PredictionSplit.KeepNonBlank | main.go:339-346 | at most as many pieces as given, each non-empty and trimmed |
| PredictionSplit.KeepTrimmedNonBlank | main.go:340-346 | the filtering loop computes exactly the trimmed non-blank pieces, in order |
| PredictionSplit.PlaceholdersAreTrimmed | main.go:367-369 | each of the three placeholders is non-empty and trimmed |
| PredictionSplit.RegroupTrimmed | main.go:362-400 | regrouping non-blank trimmed paragraphs fills all three slots with non-empty trimmed text |
| PredictionSplit.SegmentsAreThreeTrimmed | main.go:333-401 | for every input the split gives exactly three segments, each non-empty and unchanged by TrimSpace |
| PredictionSplit.GroupSizes | main.go:372-384 | with n >= 3 paragraphs the slots are the joins of three contiguous runs that make up the paragraphs: n/3 >= 1, n/3, and the rest, which holds at least n/3 and at most n/3 + 2 |
| PredictionSplit.RegroupUsesNoPlaceholder | main.go:371-397 | with three or more non-blank paragraphs no placeholder is used |
| PredictionSplit.GroupsJoinBack | main.go:377-384 | joining the three groups with a blank line gives back all paragraphs in order |
| PredictionSplit.RegroupKeepsParagraphs | main.go:371-397 | after regrouping n >= 3 non-blank paragraphs, joining the three slots gives back all paragraphs in order |
| PredictionSplit.FewParagraphsTakeLeadingSlots | main.go:366-397 | with one or two paragraphs they take the leading slots and each later slot gets the placeholder for its own index |
| PredictionSplit.NormalizedHasNoEscapes | main.go:334 | after replacing every escaped `\n` no escaped `\n` is left |
| PredictionSplit.NormalizeRemovesEscapes | main.go:333-334 | the normalised text contains no escaped newline |
| PredictionSplit.SlotsAreGroups | main.go:376-384 | the slots the cutting loop writes before it stops are exactly the three groups |
| PredictionSplit.CutIntoGroups | main.go:364-384 | the cutting loop leaves the three-slot buffer holding the groups |
| PredictionSplit.FillPlaceholders | main.go:386-397 | each empty slot of the buffer gets its own placeholder, and the other slots are kept |
| PredictionSplit.RegroupIntoThree | main.go:362-400 | the regrouping fallback returns the three regrouped slots |
| PredictionSplit.SplitPrediction | main.go:333-401 | the bot's split equals the three segments, each non-empty and trimmed |
| ImagePrompt.PromptFromCases | main.go:545-562 | from any position of the visiting order: the first card hit gives its scene plus the atmosphere; without a hit the keywords decide |
| ImagePrompt.CardSceneWhenNamed | main.go:545-562 | if some card is named, the prompt is the scene of a named card plus the atmosphere, whatever the order; otherwise the keyword prompt |
| ImagePrompt.UniqueCardIgnoresOrder | main.go:545-549 | when at most one card is named, every visiting order gives the same prompt |
| ImagePrompt.KeywordPromptHasNoAtmosphere | main.go:551-562 | no keyword or default prompt ends with the card atmosphere |
| ImagePrompt.AtmosphereIffCardNamed | main.go:545-562 | the prompt ends with the atmosphere exactly when some card is named in the text |
| ImagePrompt.ToLowerIdempotent | main.go:546 | lower-casing twice equals lower-casing once |
| ImagePrompt.PromptIgnoresCase | main.go:546 | the prompt for the lower-cased text equals the prompt for the text |
| ImagePrompt.SearchTable | main.go:545-562 | the search loop over the table computes the prompt for the given order |
| ImagePrompt.GenerateImagePrompt | main.go:463-563 | generateImagePrompt over the 78-card table computes the prompt for the given order |
| MainPolling.PollsBounded | main.go:290-292 | there is at least one status request and at most ten |
| MainPolling.FirstEndingOutcomeDecides | main.go:305-327 | the first ending outcome decides the result, after exactly that many polls: a decode error or FAILED or CENSORED fails, DONE returns its images |
| MainPolling.ExhaustedIffNoneEnds | main.go:292-329 | the max-attempts error comes exactly when no poll ends the wait, and then all ten polls were made |
| MainPolling.BackoffClosedForm | main.go:289-294 | the k-th backoff is 1953125 * 2^(10-k) * 3^k nanoseconds |
| MainPolling.BackoffExact | main.go:294 | the integer backoff times 2^k equals 2 s times 3^k: growing by 1.5 is exact for ten steps |
| MainPolling.BackoffSchedule | main.go:289-294 | the ten sleeps are 2, 3, 4.5, 6.75, 10.125, 15.1875, 22.78125, 34.171875, 51.2578125 and 76.88671875 s |
| MainPolling.CheckGenerationStatus | main.go:288-330 | the polling loop gives the result of the first ending outcome and sleeps the backoff before each poll it makes |
| MainPolling.EmptyDoneIndexesPastEnd | main.go:204 | a DONE answer with no image makes generateKandinskyImage index past the end |
| MainPolling.CorrectedImageAgreesWithCode | main.go:191-211 | the corrected generation agrees with the code wherever the code returns, fails with a message exactly where the code indexes past the end, and returns only the decoding of the first image |
| Kandinsky.TaskRequest | pkg/common/kandinsky.go:71-77 | a task asks for one image for the prompt |
| Kandinsky.CreateGenerationTask | pkg/common/kandinsky.go:61-139 | no request without key, secret and URL; succeeds exactly when the reply decodes with an empty error description, giving its uuid; otherwise an API error carrying the description |
| Kandinsky.CreationIgnoresHttpStatus | pkg/common/kandinsky.go:127-138 | the HTTP status of the reply does not change the outcome |
| Kandinsky.Settle | pkg/common/kandinsky.go:36-49 | a terminal check succeeds only for DONE with an image that decodes, giving the decoding of the first image; DONE without images fails; FAILED carries the service's description |
| Kandinsky.PollsAndSleeps | pkg/common/kandinsky.go:30-52 | at most thirty checks; one ten-second sleep after every check except a terminal one |
| Kandinsky.FirstTerminalDecides | pkg/common/kandinsky.go:30-52 | the first terminal check decides the result, after exactly that many checks and one sleep fewer |
| Kandinsky.TimeoutIffNoTerminal | pkg/common/kandinsky.go:30-56 | the timeout error comes exactly when none of the thirty checks is terminal, after thirty checks and thirty sleeps |
| Kandinsky.AlwaysCensoredTimesOut | pkg/common/kandinsky.go:36-56 | CENSORED is not terminal: a job censored on every check times out after thirty checks |
| Kandinsky.SuccessIsFirstImageOfDone | pkg/common/kandinsky.go:36-46 | a returned image is the decoding of the first image of some DONE answer |
| Kandinsky.MissingConfigChecksNothing | pkg/common/kandinsky.go:62-68 | without the full configuration the generation fails with no status check |
| Kandinsky.GenerateKandinskyImage | pkg/common/kandinsky.go:18-59 | the loop computes the result of the wait, the number of checks and the total time slept |
| PromptLines.PromptOf | pkg/server/handler.go:296-299 | the prompt of a prompt line is trimmed |
| PromptLines.RoutingPartitionsLines | pkg/server/handler.go:295-303 | every line becomes either a prompt or a text line, and no text line is a prompt line |
| PromptLines.PromptsAreTrimmed | pkg/server/handler.go:296-299 | every extracted prompt is trimmed |
| PromptLines.PromptsKeepOrder | pkg/server/handler.go:295-303 | the prompts of two runs of lines are the prompts of the first run, then those of the second |
| PromptLines.TextLinesKeepOrder | pkg/server/handler.go:295-303 | the text lines of two runs of lines are those of the first run, then those of the second |
| PromptLines.NoPromptLinesNoPrompts | pkg/server/handler.go:295-303 | without prompt lines no prompt is extracted |
| PromptLines.NoPromptsAllText | pkg/server/handler.go:300-302 | when no prompt is extracted every line is kept as text, untrimmed |
| PromptLines.TextOfReplyWithoutPrompts | pkg/server/handler.go:293-322 | a reply without prompt lines is its own text |
| PromptLines.RouteLines | pkg/server/handler.go:290-303 | the routing loop computes the prompts and the text lines of the reply |
| PromptLines.PaddedShape | pkg/server/handler.go:305-314 | padding gives exactly three prompts: the leading ones kept, then the filler |
| PromptLines.PadPrompts | pkg/server/handler.go:305-314 | the padding and truncating loops give the padded three prompts |
| FanOut.CollectThree | pkg/server/handler.go:213-232 | the shared list after the join is what the three goroutines append, in the order they finish |
| FanOut.ScheduleIsPermutation | pkg/server/handler.go:217-232 | a finishing order holds 0, 1 and 2, each once |
| FanOut.CollectIgnoresSchedule | pkg/server/handler.go:225 | whatever the finishing order, the list holds the same items |
| FanOut.FailuresIgnoreSchedule | pkg/server/handler.go:213-232 | whatever the finishing order, the error list holds exactly one message per failed image |
| FanOut.NoFailuresIffAllGenerated | pkg/server/handler.go:222-234 | the error list is empty exactly when all three images were generated |
| FanOut.FailuresSnoc | pkg/server/handler.go:225 | one more finished goroutine appends its own message, if any, at the end |
| FanOut.Slots | pkg/server/handler.go:215-228 | there are three image slots |
| FanOut.JoinIsAllOrNothing | pkg/server/handler.go:213-248 | the join succeeds exactly when all images were generated, and then image i comes from prompt i; otherwise one message per failure |
| FanOut.FilledSnoc | pkg/server/handler.go:222-228 | a finished goroutine fills only its own slot with its image; a failed one changes no slot |
| FanOut.FilledBySchedule | pkg/server/handler.go:213-232 | once all three have finished, in any order, the slots hold image i in slot i and nothing for a failure |
| FanOut.GenerateImages | pkg/server/handler.go:213-232 | the fan-out fills slot i from prompt i and appends each failure in finishing order |
| FanOut.PostReply | pkg/server/handler.go:185-248 | the reply to a POST, shared with cmd/server/server.go:113-185, keeps every header except the content headers |
| FanOut.AfterJoin | pkg/server/handler.go:234-248 | the reply after the join keeps every header except the content headers |
| FanOut.ReplyIsAllOrNothing | pkg/server/handler.go:234-248 | 200 exactly when every image was generated, with the text, the same prompts and image i from prompt i; otherwise 500 with "Error generating images: " and the failures joined by "; " |
| FanOut.RespondWithImages | pkg/server/handler.go:213-248 | running the fan-out and answering gives the all-or-nothing reply |
| Handler.AddHeaders | pkg/server/handler.go:79-140 | the wrapped handler runs exactly for an allowed origin and a method other than OPTIONS, with CORS and security headers; OPTIONS gets 200 if allowed, else a bare 403; another method from another origin gets 403 "CORS Origin Not Allowed" |
| Handler.GateSetsCorsHeaders | pkg/server/handler.go:85-123 | the gate sets Access-Control-Allow-Origin exactly for an allowed origin, echoing it, with credentials allowed |
| Handler.CredentialedRepliesNameTheOrigin | pkg/server/handler.go:85-138 | every reply names the allowed origin exactly when it is allowed, never "*", whenever it allows credentials |
| Handler.PredictionFor | pkg/server/handler.go:265-325 | a successful prediction has exactly three image prompts |
| Handler.MissingKeyAsksNothing | pkg/server/handler.go:274-277 | without an API key the prediction fails before the model is asked |
| Handler.PredictionPrompts | pkg/server/handler.go:290-314 | the prompts are the first three prompt lines, in order, then the default for the client's name |
| Handler.PredictionTextWithoutPrompts | pkg/server/handler.go:293-322 | a reply without prompt lines becomes the text unchanged |
| Handler.GetPrediction | pkg/server/handler.go:265-325 | GetPrediction computes the prediction of the reply |
| Handler.NonPostIgnoresRequest | pkg/server/handler.go:156-176 | OPTIONS and HEAD get 200, any other method but POST gets 405, without reading the body or the key |
| Handler.BadBodyAsksNothing | pkg/server/handler.go:185-198 | an unreadable or undecodable body gets 400 before the model is asked |
| Handler.HandlerKeepsCorsHeaders | pkg/server/handler.go:143-262 | the handler leaves the gate's Allow-Origin and Allow-Credentials headers as they were |
| Handler.HandlePrediction | pkg/server/handler.go:143-262 | the handler computes the dispatch reply |
| CmdServer.LastThreeParagraphs | cmd/server/server.go:240-243 | the paragraph fallback gives three prompts |
| CmdServer.Candidates | cmd/server/server.go:223-253 | every branch gives at least three prompts |
| CmdServer.Extracted | cmd/server/server.go:220-264 | the prediction always has exactly three prompts |
| CmdServer.PaddingNeverRuns | cmd/server/server.go:238-264 | the padding loop never adds a prompt: the result is the first three candidates whatever the filler |
| CmdServer.PromptLinesFirst | cmd/server/server.go:223-235 | with three or more prompt lines the prompts are the first three and the text is the other lines |
| CmdServer.ParagraphFallback | cmd/server/server.go:238-243 | with fewer prompt lines and four or more paragraphs, the prompts are the last three raw paragraphs and the text is the ones before |
| CmdServer.ParagraphFallbackTakesLastThree | cmd/server/server.go:237-243 | in that case the prompt lines found first are dropped |
| CmdServer.LastThreeParagraphsText | cmd/server/server.go:241-243 | the fallback text is the leading paragraphs joined by a blank line and the prompts are the last three |
| CmdServer.ParagraphFallbackJoinsBack | cmd/server/server.go:240-243 | in the paragraph fallback the text and the prompts join back to the whole reply |
| CmdServer.FixedFallback | cmd/server/server.go:244-251 | otherwise the three fixed prompts are used and the text is the non-prompt lines |
| CmdServer.PredictionFor | cmd/server/server.go:194-273 | a successful prediction has exactly three image prompts |
| CmdServer.MissingKeyAsksNothing | cmd/server/server.go:203-206 | without an API key the prediction fails before the model is asked |
| CmdServer.GetPrediction | cmd/server/server.go:194-273 | getPrediction computes the prediction of the reply |
| CmdServer.HandlerKeepsWildcardCors | cmd/server/server.go:84-192 | every reply keeps the wildcard CORS headers and adds only content headers |
| CmdServer.RepliesCarryWildcardCors | cmd/server/server.go:84-127 | every reply carries each wildcard CORS header with its value |
| CmdServer.NonPostIgnoresRequest | cmd/server/server.go:90-108 | OPTIONS and HEAD get 200, any other method but POST gets 405, without reading the body or the key |
| CmdServer.BadBodyAsksNothing | cmd/server/server.go:113-127 | an unreadable or undecodable body gets 400 before the model is asked |
| CmdServer.HandlePrediction | cmd/server/server.go:78-192 | the handler computes the dispatch reply |
| RootServer.PromptEmbedsProfile | server.go:169-178 | the prompt contains the name, birth date and question, and the mode at two places |
| RootServer.PartnerSentenceIffBothGiven | server.go:180-182 | the prompt extends the base prompt, with a partner sentence exactly when both partner fields are given, and then it contains both |
| RootServer.PredictionOf | server.go:209-230 | the answer is the first choice unchanged exactly when there is one; no choice and a failed call are errors |
| RootServer.ShortAcceptedKeyPanics | server.go:161 | getPrediction panics for a key `startServer` accepts exactly when the key is one to three bytes long: "abc" panics, the two Cyrillic letters "юл" (four bytes) do not |
| RootServer.ShortKeyPanicsOnDecodedPosts | server.go:66-161 | the handler as written panics exactly on a POST whose body reads and decodes, with a key shorter than four bytes; every other request gets the corrected handler's reply |
| RootServer.KeyPreview | server.go:161 | the logged preview is a prefix of the key, four characters long or the whole shorter key |
| RootServer.CorrectedPredictionAgrees | server.go:158-231 | the corrected getPrediction agrees with the code wherever the code does not panic; the code panics exactly for keys shorter than four bytes |
| RootServer.GetPrediction | server.go:158-231 | getPrediction computes the safe key preview and the answer |
| RootServer.DispatchOnMethod | server.go:66-119 | OPTIONS, HEAD and GET get 200 (GET with the status object), other methods but POST get 405, and a bad POST body gets 400, all without asking the model |
| RootServer.PostRepliesWithFirstChoice | server.go:132-147 | a POST gets 200 with the first choice as the prediction exactly when there is one, else 500 in plain text |
| RootServer.HandleWebRequest | server.go:47-156 | the handler computes the dispatch reply |

## Left out

- Network I/O is out: HTTP requests, multipart forms, `pkg/common/openai.go` and the OpenAI client. Their outcomes are parameters.
- JSON encoding and decoding are out. A request body is already read and decoded, or has failed. Encoding a reply cannot fail in the model, so the "Error encoding response" branches are not modelled.
- Base64 decoding (section 4 of RFC 4648) is a decoder parameter.
- Real time is out. Sleeps are recorded as delays or counted.
- Goroutines and `sync.WaitGroup` are out. The fan-out is modelled after the join, with the goroutines run one after another in a finishing order that is a parameter.
- FanOut.GenerateImages: each append to the shared error list is atomic in the model. The source appends without a lock, a data race that can also lose a message.
- The Telegram bot is out: its commands, keyboards and the `c.Send` sequence. Only the split that decides the three messages is modelled.
- `isValidDate` is out: it is a single call to Go's date parser.
- `createGenerationTask` of `main.go` is an abstract result. Only the library's version in `pkg/common/kandinsky.go` is modelled in detail.
- GoStrings.ToLower lower-cases Latin and basic Cyrillic capitals only, not all of Unicode.
- GoStrings.TrimSpace and the other functions work on code points, not on UTF-8 bytes. Only the key's length in `server.go` is counted in bytes, by GoStrings.Utf8Length.
- RootServer.KeyPreview keeps the key's first four characters, where Go keeps its first four bytes and may cut a character in two. The preview only reaches the log.
- The static file routes are out: `NewMux`, `SetupAndRunServer`, `Handler`, the static-only `addHeaders` of `cmd/server/server.go`, and `cors.go`. The server lifecycle and timeouts are out too.
- Environment variables are parameters.
- Logging is out.
- ImagePrompt.CardSceneWhenNamed: when several cards are named it promises the scene of some named card, not which one. Go's map order decides that at run time.

## Findings

| source | as written | input that shows it | evidently intended | confidence | as-written member | corrected member |
|---|---|---|---|---|---|---|
| main.go:204 | `generateKandinskyImage` decodes `images[0]` without checking that DONE returned an image | a first poll answering DONE with an empty image list | fail with "изображение не сгенерировано", as the library version does at pkg/common/kandinsky.go:37-39 | not executed | MainPolling.EmptyDoneIndexesPastEnd | MainPolling.CorrectedImageAgreesWithCode |
| server.go:161 | `getPrediction` logs `OPENROUTER_API_KEY[:4]`, while `startServer` rejects only an empty key | the key "abc": `startServer` accepts it (server.go:235), and then every POST whose body reads and decodes panics | log at most the first four characters | not executed | RootServer.ShortAcceptedKeyPanics | RootServer.CorrectedPredictionAgrees |
