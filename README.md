# Chat-handling core of the Egy Africa website, in Dafny

The site is an Arabic-language marketing site with a chat assistant. Before a
message reaches a language model, several layers decide what to do with it:

- a rule-based intent detector (ambiguity and repetition guards, a table of
  substring triggers, entity tagging);
- a router that chooses between the scripted Rasa assistant and the
  retrieval-augmented LangChain path;
- a cascade of canned replies (greeting, price, offensive, humor, unclear,
  thanks, goodbye) in front of the model call.

Around the chat sit:

- a per-address fixed-window rate limiter and an `/admin` cookie gate;
- a sentence chunker that prepares training text for embedding;
- a streaming route that picks the system prompt and token budget and then
  re-assembles the model's server-sent events;
- Rasa actions: tenant validation, error-text mapping and a per-tenant index
  cache;
- the admin session check and login;
- client creation;
- the page-metadata builder;
- the list reducers of the notification panel and of the FAQ content page.

Module by module:

| module | models |
|---|---|
| `Text`, `Common`, `Chat` | shared string and history helpers: JavaScript `trim`, Python `strip`, ASCII `toLowerCase`, `includes`, `split(/\s+/)`, `join`, `slice(-n)`, random picks as an explicit `choice` |
| `Guards` | the ambiguity guard, the word-set Jaccard similarity and the repetition guard, shared by the detector and the router |
| `IntentDetector` | `SimpleIntentDetector.detectIntent`, `extractEntities` and `getResponseForIntent` |
| `ChatRouter` | the `ChatRouter` class: configuration, `optimizeContext`, `calculateTokens` and `routeMessage` |
| `ChatApi` | the reply cascade of `processUserMessage` |
| `Middleware` | `middleware.ts`: the `rateLimit` map, as a class whose `Handle` method updates it, and the `/admin` gate |
| `ChatbotTrain` | `chunkTextForEmbedding`, as a loop |
| `StreamRoute` | the request body built by the streaming route and its server-sent-event loop |
| `RasaActions` | `validate_tenant`, `call_llm_timeout` and `ActionLangchainRAG.run` with its `_INDEX_CACHE` |
| `Auth` | `isAdminRequest`, the login route and the hex encoding of the session id |
| `AdminClients` | the `POST` handler of the admin clients route, over a table keyed by e-mail |
| `Seo` | `generateMetadata` |
| `Notifications` | `NotificationSystem`'s reducers and counters |
| `ContentAdmin` | the content page's handlers, filter and tag parsing |

Several things are inputs instead of being computed:

- The random reply pick.
- The clock.
- The client address and cookies.
- The model's answer.
- `JSON.parse` of an event, which becomes a `parse` function parameter.
- Whether a FAISS index can be created, and what a search returns.
- The stored tenant of a sender.
- The random bytes of a session id.
- The environment variables that the model reads. `OPENROUTER_MODEL` and the admin credentials are parameters; `DEFAULT_TENANT` and the timeout keep their defaults.

## Model

| member | source | states |
|---|---|---|
| Common.Last | src/lib/chat-router.ts:35 | `slice(-n)`: the result is always a suffix of `xs`, with `n` elements, or all of them when there are fewer, when `n` is positive |
| Common.LastOfAppend | src/lib/chat-api.ts:163 | once the later part alone holds `n` elements, the elements before it never reach `slice(-n)` |
| Common.Pick | src/lib/chat-api.ts:120 | a random pick from a non-empty pool is a member of the pool |
| Text.Trim | src/lib/simple-intent-detector.ts:64 | definition (no contract of its own): JavaScript `trim`, removing leading and trailing whitespace; TrimEnds, TrimIdempotent and TrimNoop state what it keeps and removes |
| Text.PyStrip | rasa/actions/actions.py:108 | definition (no contract of its own): Python `strip`, trimming with Python's whitespace set; StripTrim relates it to `Trim` |
| Text.Normalize | src/lib/simple-intent-detector.ts:64 | definition (no contract of its own): `trim().toLowerCase()`, the normal form every guard and trigger test reads |
| Text.Contains | src/lib/simple-intent-detector.ts:92 | definition (no contract of its own): `includes`, an occurrence of the pattern at some index; JoinContainsParts, TooLongNotContained and the trigger lemmas use it |
| Text.TrimEnds | src/lib/simple-intent-detector.ts:126 | a string trims to `""` exactly when it is all whitespace; otherwise the trimmed string starts and ends with non-whitespace |
| Text.TrimIdempotent | src/lib/simple-intent-detector.ts:126 | trimming twice is trimming once |
| Text.StripTrim | src/lib/chatbot-train.ts:91 | trimming never changes the non-whitespace characters or their order |
| Text.TrimNoop | src/lib/chatbot-train.ts:95 | a string with non-whitespace ends is its own trimmed form |
| Text.TrimAfterSpace | src/lib/chatbot-train.ts:103 | a space put before an already trimmed string is trimmed away again |
| Text.Lower | src/lib/simple-intent-detector.ts:126 | lower-casing keeps the length |
| Text.Words | src/lib/simple-intent-detector.ts:158-159 | `split(/\s+/)` always yields at least one word, possibly `""` |
| Text.JoinSnoc | src/lib/chat-api.ts:143 | joining one more part appends the separator and that part |
| Text.Trims | src/lib/chatbot-train.ts:91 | mapping `trim` keeps the length and trims each element in place |
| Text.ConcatAppend | src/app/api/openrouter/chat/stream/route.ts:119 | concatenating two lists of chunks is concatenating their concatenations |
| Chat.UserContents | src/lib/chat-api.ts:163 | the user contents are at most as many as the history entries |
| Chat.UserContentsMembers | src/lib/simple-intent-detector.ts:146 | a content is kept exactly when some user entry of the history carries it |
| Chat.UserContentsAppend | src/lib/chat-api.ts:163 | filtering distributes over appending histories |
| Chat.NonUserTurnIgnored | src/lib/chat-api.ts:163 | appending an assistant or system turn leaves the user contents unchanged |
| Chat.MapNormalize | src/lib/simple-intent-detector.ts:146-148 | same length; element `i` is the normal form of element `i` |
| Chat.MapLower | src/lib/chat-api.ts:163 | same length; element `i` is the lower-cased element `i` |
| Guards.IsAmbiguous | src/lib/simple-intent-detector.ts:125-138 | definition (no contract of its own): at most two characters, one character repeated, symbols only, or a noise word; ShortMessageIsAmbiguous and GreetingPassesGuards state cases of it |
| Guards.IsRepeated | src/lib/simple-intent-detector.ts:140-155 | definition (no contract of its own): non-empty history and a recent user turn the message equals or resembles above the threshold; RepeatedCases states its two edge cases |
| Guards.WordSet | src/lib/simple-intent-detector.ts:158-159 | the word set of a message is never empty: its first word is in it |
| Guards.Similarity | src/lib/simple-intent-detector.ts:157-165 | the similarity lies in [0, 1] and is 1 for equal word sets |
| Guards.SimilarityDenominator | src/lib/simple-intent-detector.ts:162-164 | the union of two word sets is never empty, so the division is always defined |
| Guards.SimilaritySymmetric | src/lib/simple-intent-detector.ts:157-165 | similarity is symmetric |
| Guards.SubsetCard | src/lib/simple-intent-detector.ts:161-164 | a subset is no larger than its superset, so intersection size never exceeds union size |
| Guards.RecentUserTurns | src/lib/simple-intent-detector.ts:145-148 | at most the last three user turns are compared |
| Guards.RepeatedCases | src/lib/simple-intent-detector.ts:140-152 | with empty history a message is never repeated; a message equal to one of the last three normalised user turns always is |
| IntentDetector.EntitiesOf | src/lib/simple-intent-detector.ts:170-206 | reference definition of entity tagging (first matching service tag, urgency, leftmost location); ExtractEntities is proved equal to it and ServiceIsFirstMatch, UrgencyIsHigh and LocationOccurs state its meaning |
| IntentDetector.BestMatch | src/lib/simple-intent-detector.ts:87-106 | reference definition of the table scan (the first entry of highest confidence that has a contained trigger); BestMatchIsMaximal and BestIsUnique state its meaning |
| IntentDetector.Detect | src/lib/simple-intent-detector.ts:63-120 | reference definition of `detectIntent` (ambiguity guard, repetition guard, best table match, general fallback); DetectIntent is proved equal to it and the guard and table lemmas state each outcome |
| IntentDetector.ExtractEntities | src/lib/simple-intent-detector.ts:170-203 | the loop with `break` computes the entity record `EntitiesOf` of the message |
| IntentDetector.ServiceIsFirstMatch | src/lib/simple-intent-detector.ts:174-188 | no service tag exactly when no service pattern occurs; otherwise the tag is the first in declaration order whose pattern occurs, and no earlier one matched |
| IntentDetector.UrgencyIsHigh | src/lib/simple-intent-detector.ts:191-193 | the urgency tag is present exactly when an urgency word occurs, and is then always `high` |
| IntentDetector.LocationOccurs | src/lib/simple-intent-detector.ts:196-200 | a location tag is one of the location words and occurs in the message |
| IntentDetector.AlternativeOccurs | src/lib/simple-intent-detector.ts:197 | an alternative picked at a position is one of the alternatives and occurs there |
| IntentDetector.BotOnlyIsMessenger | src/lib/simple-intent-detector.ts:175-176 | a message mentioning only `بوت` among the service words is tagged `messenger_bot`, not `whatsapp_bot` |
| IntentDetector.ResponseForIntent | src/lib/simple-intent-detector.ts:208-245 | an unknown intent gets the fixed apology; a known one gets a reply from its own pool |
| IntentDetector.BestUpTo | src/lib/simple-intent-detector.ts:87-104 | the entry picked after scanning `n` entries is one of them |
| IntentDetector.ConfidencesPositive | src/lib/simple-intent-detector.ts:12-58 | every table confidence is positive, so the first matching entry always beats the initial 0 |
| IntentDetector.BestUpToCorrect | src/lib/simple-intent-detector.ts:87-104 | no pick exactly when no scanned entry matches; otherwise the pick matches, has the highest confidence among the matches, and every earlier match is strictly lower |
| IntentDetector.BestMatchIsMaximal | src/lib/simple-intent-detector.ts:87-104 | over the whole table: no match exactly when no trigger is contained; otherwise the pick has maximal confidence and ties go to the earlier entry |
| IntentDetector.BestIsUnique | src/lib/simple-intent-detector.ts:87-104 | at most one entry satisfies the best-match condition |
| IntentDetector.ContainsAnyPrefix | src/lib/simple-intent-detector.ts:89-90 | a message contains one of the first `j+1` patterns exactly when it contains one of the first `j` or the `j`-th |
| IntentDetector.ScanEntry | src/lib/simple-intent-detector.ts:88-103 | the inner loop over one entry's patterns replaces the best result exactly when a pattern is contained and the confidence is strictly higher |
| IntentDetector.DetectIntent | src/lib/simple-intent-detector.ts:63-120 | the guarded nested scan computes `Detect`, the reference result of detection |
| IntentDetector.ShortMessageIsAmbiguous | src/lib/simple-intent-detector.ts:64-74 | a normal form of at most two characters gives `ambiguous`, 0.7, LangChain, no entities, no response |
| IntentDetector.RepetitionGuard | src/lib/simple-intent-detector.ts:67-84 | ambiguity wins over repetition; a non-ambiguous repeated message gives `repeated`, 0.8, not LangChain; empty history is never `repeated` |
| IntentDetector.TableMatchIsBest | src/lib/simple-intent-detector.ts:87-118 | when the guards pass and a trigger is contained, the result is the best table entry with its confidence and entities, never routed to LangChain, with a response |
| IntentDetector.NoTriggerIsGeneral | src/lib/simple-intent-detector.ts:107-115 | with no trigger contained the result is `general_question`, 0.6, LangChain, no entities |
| IntentDetector.GreetingPassesGuards | src/lib/simple-intent-detector.ts:125-135 | "السلام عليكم" is its own normal form and is not ambiguous |
| IntentDetector.GreetingIsNoBooking | src/lib/simple-intent-detector.ts:29 | no booking trigger occurs in "السلام عليكم" |
| IntentDetector.GreetingIsNoUrgency | src/lib/simple-intent-detector.ts:44 | no urgent-support trigger occurs in "السلام عليكم" |
| IntentDetector.GreetingMatchesTwice | src/lib/simple-intent-detector.ts:14-19 | "السلام عليكم" matches `greet` and, through `سلام`, `goodbye` |
| IntentDetector.GreetingBestMatch | src/lib/simple-intent-detector.ts:87-104 | of the two 0.9 matches, the earlier entry `greet` is picked |
| IntentDetector.GreetingBeatsGoodbyeOnTie | src/lib/simple-intent-detector.ts:14-21 | "السلام عليكم" with no history is detected as `greet` |
| ChatRouter.Tokens | src/lib/chat-router.ts:56-64 | definition (no contract of its own): the sum of `ceil(length/4)` over the messages; TokensBound bounds it |
| ChatRouter.OptimizeContext | src/lib/chat-router.ts:30-54 | definition (no contract of its own): the last three messages truncated to 200 characters plus an ellipsis, cut to two when over budget; OptimizeContextShape and DefaultBudgetKeepsThree state its shape |
| ChatRouter.IsCritical | src/lib/chat-router.ts:150-165 | definition (no contract of its own): a critical trigger group matches the normal form; BookingStaysWithRasa uses it |
| ChatRouter.IsComplex | src/lib/chat-router.ts:185-205 | definition (no contract of its own): over 100 trimmed characters or a question word in the unlowered text; ComplexIsCaseSensitive and LowerHowIsComplex state cases of it |
| ChatRouter.IsGeneral | src/lib/chat-router.ts:207-223 | definition (no contract of its own): a general-question trigger group matches the normal form |
| ChatRouter.Route | src/lib/chat-router.ts:66-129 | reference definition of `routeMessage` (ambiguous, critical, repeated, complex, general, default, in that order); LangChainExactly, RouteConfidence and RouteSeesLastThree state its outcomes |
| ChatRouter.Merge | src/lib/chat-router.ts:19-24 | each field of the merged configuration is the supplied field when given, else the old one |
| ChatRouter.MergeLaws | src/lib/chat-router.ts:238-240 | merging nothing is the identity, merging the same update twice is merging it once, and a full update replaces everything |
| ChatRouter.Router.constructor | src/lib/chat-router.ts:18-25 | the configuration is the defaults 0.7 / true / true overridden by the supplied fields |
| ChatRouter.Router.UpdateConfig | src/lib/chat-router.ts:238-240 | the fields supplied replace the current ones; every field not supplied is kept |
| ChatRouter.Router.GetConfig | src/lib/chat-router.ts:245-247 | returns the configuration without changing the router |
| ChatRouter.Truncate | src/lib/chat-router.ts:40-42 | a content of at most 200 characters is kept; a longer one becomes its first 200 characters plus `...`; never more than 203 |
| ChatRouter.TruncateAll | src/lib/chat-router.ts:38-43 | same length; each message keeps its role and has its content truncated |
| ChatRouter.CeilQuarter | src/lib/chat-router.ts:59 | the result is the least `r` with `4r >= n`, i.e. `ceil(n/4)` |
| ChatRouter.TokensBound | src/lib/chat-router.ts:56-61 | when each content has at most `n` characters the estimate is at most `ceil(n/4)` per message |
| ChatRouter.OptimizeContextShape | src/lib/chat-router.ts:30-51 | the shortened context is the truncation of a suffix of at most three messages, in order; every content has at most 203 characters |
| ChatRouter.TruncateAllSuffix | src/lib/chat-router.ts:38-49 | truncating then taking a suffix is taking the suffix then truncating |
| ChatRouter.DefaultBudgetKeepsThree | src/lib/chat-router.ts:32-50 | at the default budget of 1000 the drop to two messages never happens, since three messages estimate to at most 153 tokens |
| ChatRouter.OptimizeContextLastThree | src/lib/chat-router.ts:35 | only the last three messages of the history affect the shortened context |
| ChatRouter.LangChainExactly | src/lib/chat-router.ts:76-125 | a message goes to LangChain exactly when it is complex or general and none of the ambiguous, critical and repeated guards fired |
| ChatRouter.RouteConfidence | src/lib/chat-router.ts:76-125 | every decision carries one of the confidences 0.9, 0.95, 0.8, 0.6, 0.7 |
| ChatRouter.LangChainConfidence | src/lib/chat-router.ts:102-118 | a LangChain decision has confidence at most 0.7 |
| ChatRouter.BookingStaysWithRasa | src/lib/chat-router.ts:85-162 | a message mentioning `حجز` always stays with Rasa, and as a critical intent unless it is ambiguous |
| ChatRouter.ShortMessageToRasa | src/lib/chat-router.ts:76-135 | a message of at most two characters once trimmed is ambiguous and goes to Rasa with 0.9 |
| ChatRouter.LongMessageToLangChain | src/lib/chat-router.ts:102-189 | over 100 characters once trimmed, a message passing the three Rasa guards is a complex question for LangChain |
| ChatRouter.RouteSeesLastThree | src/lib/chat-router.ts:73-180 | the decision depends only on the last three history entries |
| ChatRouter.ComplexIsCaseSensitive | src/lib/chat-router.ts:185-202 | the complexity test is not lower-cased: "how much" is complex, "How much" is not |
| ChatRouter.LowerHowIsComplex | src/lib/chat-router.ts:193 | "how much" contains the trigger `how` |
| ChatRouter.UpperHowIsNotComplex | src/lib/chat-router.ts:185-202 | "How much" contains no complexity trigger and is short, so it is not complex |
| ChatRouter.AbsentFromHowMuch | src/lib/chat-router.ts:192-199 | each complexity trigger except `how` has a character that "How much" lacks |
| ChatApi.PriceReply | src/lib/chat-api.ts:139-143 | definition (no contract of its own): the price head, the steps joined by new bullets and the booking line; PriceReplyAsksSteps and PriceReplyBooksAtBook state what it contains |
| ChatApi.IsShort | src/lib/chat-api.ts:182 | definition (no contract of its own): at most two characters or one character three or more times; RepeatedCharIsShort and ShortMessageIsClarified state cases of it |
| ChatApi.Classify | src/lib/chat-api.ts:129-215 | definition (no contract of its own): the first trigger group of the cascade with a contained trigger; CascadePriority states every branch as an if-and-only-if |
| ChatApi.ProcessUserMessage | src/lib/chat-api.ts:114-219 | reference definition of `processUserMessage` with the random pick as `choice` and the model answer as `llmReply`; CascadePriority, OnlyModelAnswersAreKept and the escalation lemmas state its outcomes |
| ChatApi.RecentUserTurns6 | src/lib/chat-api.ts:163 | at most the last six user turns are counted |
| ChatApi.CountMatching | src/lib/chat-api.ts:164-165 | the number of matching turns is at most the number of turns |
| ChatApi.CountMatchingPositive | src/lib/chat-api.ts:164-175 | a count of at least one means that some counted turn has a trigger, and conversely |
| ChatApi.CascadePriority | src/lib/chat-api.ts:119-215 | every branch (greeting, price, offensive, humor, short or unclear, thanks, goodbye, the model) is taken exactly when its own test holds of the normalised message and no earlier branch's test does |
| ChatApi.OnlyModelAnswersAreKept | src/lib/chat-api.ts:130-215 | `shouldAddToHistory` holds exactly on the model path, where the reply is the model's answer unchanged |
| ChatApi.JoinContainsParts | src/lib/chat-api.ts:143 | every part of a join is contained in it |
| ChatApi.PriceReplyAsksSteps | src/lib/chat-api.ts:136-143 | the price reply contains each of the four cost questions |
| ChatApi.PriceReplyBooksAtBook | src/lib/chat-api.ts:142 | with the empty `calendlyUrl` the booking target is `/book`, and the price reply contains it (the empty `calendlyUrl` is set in src/lib/constants.ts, line 24) |
| ChatApi.OffensiveEscalation | src/lib/chat-api.ts:163-172 | an offensive message gets the fixed reply when one of the last six user turns was offensive, and a witty redirect from its pool otherwise |
| ChatApi.HumorEscalation | src/lib/chat-api.ts:164-179 | a humorous message gets the fixed menu reply when one of the last six user turns had humor, and a humor reply otherwise |
| ChatApi.NonUserTurnsDoNotEscalate | src/lib/chat-api.ts:163 | appending an assistant or system turn changes no reply |
| ChatApi.OnlySixTurnsCount | src/lib/chat-api.ts:163 | once six user turns follow them, older turns change no reply |
| ChatApi.TooLongNotContained | src/lib/chat-api.ts:129 | a trigger longer than the message is never contained in it |
| ChatApi.ShortMessageIsClarified | src/lib/chat-api.ts:182-192 | a normal form of at most two characters without `كس` gets a clarifying question and is not kept |
| ChatApi.RepeatedCharIsShort | src/lib/chat-api.ts:182-190 | one character repeated three or more times falls to the clarify branch once the earlier triggers are absent |
| Middleware.RateStep | middleware.ts:18-27 | reference definition of the rate-limit step; RateLimiter.Handle is proved against it and NewWindow, InsideWindow and AtMostLimitPerWindow state its meaning |
| Middleware.Step | middleware.ts:13-35 | reference definition of `middleware` on the record map; OnlyApiTouchesRecords, OtherClientsUnchanged and AdminGate state its outcomes |
| Middleware.RateLimiter.constructor | middleware.ts:15 | the limiter starts with no records |
| Middleware.RateLimiter.Handle | middleware.ts:13-35 | the new map and the response are those of `Step` on the old map; every stored count stays between 1 and 100 |
| Middleware.OnlyApiTouchesRecords | middleware.ts:13 | outside `/api/` the map is unchanged and no request is refused |
| Middleware.OtherClientsUnchanged | middleware.ts:18-27 | the records of other addresses are not added, removed or changed |
| Middleware.NewWindow | middleware.ts:18-21 | an unseen address, or one whose window ended before `now`, gets count 1 and reset time `now + 60000` |
| Middleware.WindowEndIsInside | middleware.ts:20-27 | at `now == resetTime` the window is still open: the count goes up, or the request is refused at 100 |
| Middleware.InsideWindow | middleware.ts:22-27 | inside the window at count 100 the request is refused and the map unchanged; below it the count rises by exactly 1 and nothing else changes |
| Middleware.StepKeepsValid | middleware.ts:15-27 | a step keeps every stored count between 1 and 100 |
| Middleware.AdminGate | middleware.ts:31-35 | an `/admin` path without a non-empty cookie redirects to the login page; any non-empty cookie passes |
| Middleware.WindowAdmitsAtMostRemaining | middleware.ts:20-27 | while requests stay within the window, at most `100 - count` more are admitted |
| Middleware.AtMostLimitPerWindow | middleware.ts:15-27 | from a window's first request at `t0`, at most 100 requests are admitted up to `t0 + 60000` |
| ChatbotTrain.Step | src/lib/chatbot-train.ts:93-104 | definition (no contract of its own): one turn of the loop (flush, cut at the size or append with a space); StepWellFormed and StepContent state what it keeps |
| ChatbotTrain.Fold | src/lib/chatbot-train.ts:90-105 | definition (no contract of its own): the loop over all sentences; FoldWellFormed, FoldContent, FoldExtends and FoldAllFit state its meaning |
| ChatbotTrain.Finish | src/lib/chatbot-train.ts:107-109 | definition (no contract of its own): the final push of a non-blank chunk |
| ChatbotTrain.Chunks | src/lib/chatbot-train.ts:84-111 | reference definition of `chunkTextForEmbedding`; ChunkTextForEmbedding is proved equal to it and ChunksNonEmpty, ChunksPreserveContent and AllFitIsOneChunk state its meaning |
| ChatbotTrain.SplitSentences | src/lib/chatbot-train.ts:86 | the split always has at least one piece, even for text without a terminator |
| ChatbotTrain.NonBlank | src/lib/chatbot-train.ts:86 | every kept piece trims to a non-empty string |
| ChatbotTrain.ChunkTextForEmbedding | src/lib/chatbot-train.ts:84-112 | the loop over sentences returns `Chunks`, the chunks of the reference fold |
| ChatbotTrain.TrimmedSentence | src/lib/chatbot-train.ts:91 | a sentence trims to a non-empty string with non-whitespace ends |
| ChatbotTrain.NoSentenceNoChunk | src/lib/chatbot-train.ts:86-111 | text with no non-blank piece yields no chunk |
| ChatbotTrain.StepWellFormed | src/lib/chatbot-train.ts:93-104 | one turn keeps every emitted chunk non-empty and the chunk being built trimmed |
| ChatbotTrain.FoldWellFormed | src/lib/chatbot-train.ts:90-105 | the whole loop keeps those two facts |
| ChatbotTrain.ChunksNonEmpty | src/lib/chatbot-train.ts:94-109 | with a positive size every emitted chunk is non-empty |
| ChatbotTrain.StepContent | src/lib/chatbot-train.ts:93-104 | one turn keeps the non-whitespace content of the emitted chunks plus the chunk being built, extended by the sentence |
| ChatbotTrain.FoldContent | src/lib/chatbot-train.ts:90-105 | after the loop, the non-whitespace content of the chunks plus the chunk being built is that of the sentences |
| ChatbotTrain.ChunksPreserveContent | src/lib/chatbot-train.ts:90-109 | ignoring whitespace, the concatenated chunks are the concatenated sentences: nothing is lost, duplicated or reordered |
| ChatbotTrain.FoldExtends | src/lib/chatbot-train.ts:90-105 | the chunks emitted after a prefix of the sentences are a prefix of those emitted at the end |
| ChatbotTrain.OversizeFirstSentenceIsSplit | src/lib/chatbot-train.ts:97-101 | an oversize first sentence is split: its first `maxChunkSize` characters are the first chunk |
| ChatbotTrain.FoldAllFit | src/lib/chatbot-train.ts:93-103 | when the loop's own test `current.length + sentence.length <= maxChunkSize` passes at every step, nothing is emitted and the chunk being built is the trimmed sentences joined by single spaces |
| ChatbotTrain.AllFitIsOneChunk | src/lib/chatbot-train.ts:93-109 | when the loop's per-step size test passes for every sentence, the trimmed sentences joined by single spaces form the only chunk, of at most `maxChunkSize + 1` characters |
| ChatbotTrain.JoinTrimmed | src/lib/chatbot-train.ts:103-108 | trimmed sentences joined by single spaces are already trimmed |
| ChatbotTrain.TwoSentences | src/lib/chatbot-train.ts:86 | `first. second` splits into its two non-blank sentences |
| ChatbotTrain.TwoSentenceChunks | src/lib/chatbot-train.ts:86-108 | for `first. second` with a first sentence that fits: a second that does not fit beside it becomes a chunk of its own, kept whole however long; one that fits is merged after a single space, so the chunk can be one longer than the size |
| ChatbotTrain.MergedChunkExceedsSize | src/lib/chatbot-train.ts:93-103 | "aa. b" with size 3 gives the single chunk "aa b", of length 4: a merged chunk can exceed the size by the joining space |
| ChatbotTrain.OversizeSentenceKeptWhole | src/lib/chatbot-train.ts:94-96 | "a. bbbbb" with size 3 gives "a" and "bbbbb": an oversize sentence after a non-empty chunk is kept whole |
| StreamRoute.ChooseKind | src/app/api/openrouter/chat/stream/route.ts:21-50 | definition (no contract of its own): the if/else table of prompt kinds; FirstQuestionBudget and LaterQuestionBudget state each branch with its budget |
| StreamRoute.KindOf | src/app/api/openrouter/chat/stream/route.ts:17-25 | definition (no contract of its own): the table applied to the length of the conversation and its last message |
| StreamRoute.ComputedPrompt | src/app/api/openrouter/chat/stream/route.ts:27-54 | definition (no contract of its own): the chosen prompt plus the reminder when more than one message is sent; ReminderWithHistory states when the reminder is added |
| StreamRoute.BuildUpstream | src/app/api/openrouter/chat/stream/route.ts:65-78 | reference definition of the upstream request body; Defaults, HistoryIsLastFive and SystemOverridesPromptOnly state its fields |
| StreamRoute.Start | src/app/api/openrouter/chat/stream/route.ts:7-18 | definition (no contract of its own): a missing key answers the not-configured error, an absent `messages` the 500 of the catch, anything else goes upstream |
| StreamRoute.StartOutcomes | src/app/api/openrouter/chat/stream/route.ts:11-18 | each of the three outcomes holds exactly when its condition does, and a request that goes upstream carries `BuildUpstream` of the parsed body |
| StreamRoute.EventText | src/app/api/openrouter/chat/stream/route.ts:122-132 | definition (no contract of its own): the text one complete event adds (delta, else message; nothing for non-data lines, `[DONE]` or unparseable JSON) |
| StreamRoute.Assembled | src/app/api/openrouter/chat/stream/route.ts:114-133 | reference definition of the assistant text of a whole stream; AssembleAssistant is proved equal to it and TrailingEventIgnored and AssembledStep state its meaning |
| StreamRoute.HistoryIsLastFive | src/app/api/openrouter/chat/stream/route.ts:17-74 | the history sent upstream is the last five messages, in order |
| StreamRoute.FirstQuestionBudget | src/app/api/openrouter/chat/stream/route.ts:19-35 | with at most two messages the budget is 80 after a greeting and 100 otherwise, whatever the other flags say |
| StreamRoute.LaterQuestionBudget | src/app/api/openrouter/chat/stream/route.ts:36-50 | later questions: unclear opening 60, then price 100, then casual 80, else 120 |
| StreamRoute.BudgetRange | src/app/api/openrouter/chat/stream/route.ts:27-50 | the budget is always one of 60, 80, 100, 120 |
| StreamRoute.SystemOverridesPromptOnly | src/app/api/openrouter/chat/stream/route.ts:68-78 | a caller's `system` string replaces the system prompt but not the budget the table chose |
| StreamRoute.ReminderWithHistory | src/app/api/openrouter/chat/stream/route.ts:52-54 | the context reminder is appended exactly when more than one message is sent |
| StreamRoute.SecondMessageIsFirstWithReminder | src/app/api/openrouter/chat/stream/route.ts:19-52 | two messages are still a first question and already get the reminder |
| StreamRoute.Defaults | src/app/api/openrouter/chat/stream/route.ts:65-67 | temperature 0.7 without a numeric one; an empty or missing model falls back to `OPENROUTER_MODEL` when that is set and non-empty, and to the built-in default when it is missing or empty too |
| StreamRoute.Frames | src/app/api/openrouter/chat/stream/route.ts:120 | `split('\n\n')` always gives at least one piece, the last of which stays buffered |
| StreamRoute.FramesJoin | src/app/api/openrouter/chat/stream/route.ts:120 | joining the pieces with blank lines gives the buffer back |
| StreamRoute.FramesNoBlank | src/app/api/openrouter/chat/stream/route.ts:120 | a buffer without a blank line is one piece |
| StreamRoute.FramesAppend | src/app/api/openrouter/chat/stream/route.ts:119-121 | appending a chunk re-splits only the pending piece; the complete pieces so far stay as they were |
| StreamRoute.FramesCons | src/app/api/openrouter/chat/stream/route.ts:120 | a piece followed by a blank line is cut there |
| StreamRoute.EventsTextAppend | src/app/api/openrouter/chat/stream/route.ts:122-132 | the text of two runs of events is the concatenation of their texts |
| StreamRoute.SerializedFrames | src/app/api/openrouter/chat/stream/route.ts:120-121 | a stream of events each closed by a blank line splits into exactly those events and an empty pending piece |
| StreamRoute.CompleteEventsText | src/app/api/openrouter/chat/stream/route.ts:122-132 | a stream of complete events yields the in-order concatenation of their delta or message text; `[DONE]`, non-`data:` and unparsable parts add nothing |
| StreamRoute.TrailingEventIgnored | src/app/api/openrouter/chat/stream/route.ts:116-121 | an event not closed by a blank line before the stream ends adds nothing |
| StreamRoute.AssembledStep | src/app/api/openrouter/chat/stream/route.ts:119-132 | one more chunk adds the text of the events it completes |
| StreamRoute.ConsumeEvents | src/app/api/openrouter/chat/stream/route.ts:122-132 | the loop over complete events appends exactly their text |
| StreamRoute.AssembleAssistant | src/app/api/openrouter/chat/stream/route.ts:114-133 | the assembled text is that of the concatenated stream, so it does not depend on how the stream is cut into chunks |
| RasaActions.ValidateTenant | rasa/actions/actions.py:58-62 | definition (no contract of its own): non-empty, at most 50 characters, alphanumeric once `-` and `_` are removed; ValidTenantChars and SeparatorsOnlyInvalid state its meaning |
| RasaActions.CallLlmTimeout | rasa/actions/actions.py:81-93 | definition (no contract of its own): the answer, or the text standing in for a timeout, a rate limit, a slow call or another error; ErrorMapping states each case |
| RasaActions.EffectiveTenant | rasa/actions/actions.py:104-106 | definition (no contract of its own): the sender's tenant when it is valid, the default otherwise; DefaultTenantValid and CacheKeysValid use it |
| RasaActions.RagStep | rasa/actions/actions.py:101-148 | reference definition of one run of the action; RagAction.Run is proved equal to it and BlankQuery, CachedIndexReused, NewTenantIndex, CacheOnlyGrows and OneMessage state its meaning |
| RasaActions.DropSeparators | rasa/actions/actions.py:61 | removing `_` and `-` never makes the name longer |
| RasaActions.DropSeparatorsChars | rasa/actions/actions.py:61 | the surviving characters are exactly the non-separators |
| RasaActions.ValidTenantChars | rasa/actions/actions.py:58-62 | a tenant is valid exactly when it has 1 to 50 characters, each a separator or alphanumeric, and at least one alphanumeric |
| RasaActions.SeparatorsOnlyInvalid | rasa/actions/actions.py:61-62 | a name of separators only, such as `___`, is invalid |
| RasaActions.DefaultTenantValid | rasa/actions/actions.py:105-106 | the default tenant `default` is itself valid |
| RasaActions.ErrorMapping | rasa/actions/actions.py:81-93 | a timeout gives its own message; another exception's lower-cased text decides, rate limit before timeout before the generic message |
| RasaActions.RagAction.constructor | rasa/actions/actions.py:65 | the index cache starts empty |
| RasaActions.RagAction.Run | rasa/actions/actions.py:101-148 | the new cache and the messages sent are those of `RagStep` on the old cache |
| RasaActions.CacheKeysValid | rasa/actions/actions.py:104-120 | every key the action adds is a valid tenant name |
| RasaActions.BlankQuery | rasa/actions/actions.py:108-111 | a missing or blank question gets only the prompt to ask one, and the cache is untouched |
| RasaActions.CachedIndexReused | rasa/actions/actions.py:114-115 | a cached index is reused and the cache is unchanged |
| RasaActions.NewTenantIndex | rasa/actions/actions.py:115-124 | a new tenant's index is stored only when creation succeeds; otherwise only the unavailable message is sent |
| RasaActions.CacheOnlyGrows | rasa/actions/actions.py:114-120 | no entry is replaced or removed, and at most the effective tenant's entry is added |
| RasaActions.OneMessage | rasa/actions/actions.py:101-148 | exactly one message is sent on every path |
| Auth.IsAdminRequest | src/lib/auth.ts:3-11 | definition (no contract of its own): an `admin_session` cookie longer than 20 characters; AdminThreshold states the threshold both ways |
| Auth.Login | src/app/api/auth/login/route.ts:14-37 | definition (no contract of its own): not configured, a fresh hex session for the matching pair, or 401; LoginNeedsBoth and SessionIdIsAdmin state its outcomes |
| Auth.AdminThreshold | src/lib/auth.ts:3-11 | a missing cookie, or one of at most 20 characters, is not admin; a longer one is |
| Auth.HexDigit | src/app/api/auth/login/route.ts:21 | a nibble becomes a lower-case hex digit |
| Auth.HexEncode | src/app/api/auth/login/route.ts:21 | hex encoding gives two hex digits per byte |
| Auth.HexDecode | src/app/api/auth/login/route.ts:21 | a decoded string has half as many bytes as characters |
| Auth.DigitRoundTrip | src/app/api/auth/login/route.ts:21 | every hex digit decodes to its nibble |
| Auth.HexRoundTrip | src/app/api/auth/login/route.ts:21 | decoding the hex form gives the bytes back |
| Auth.SessionIdIsAdmin | src/app/api/auth/login/route.ts:19-32 | the session id a login sets, 32 random bytes in hex, has 64 characters and always passes the admin check (the admin check is `isAdminRequest`, src/lib/auth.ts line 7) |
| Auth.LoginNeedsBoth | src/app/api/auth/login/route.ts:14-37 | login succeeds exactly when both credentials are configured and non-empty and both match |
| Auth.PageGateWeakerThanSession | middleware.ts:31-35 | every admin session passes the page gate, but so does the one-character cookie `x`, which the API check rejects (the API check is `isAdminRequest`, src/lib/auth.ts line 7) |
| AdminClients.PostClient | src/app/api/admin/clients/route.ts:15-60 | reference definition of `POST`; TenantTable.Post is proved equal to it and AdminFirst, ValidationOrder, DuplicateEmail and CreatedAddsOne state its outcomes |
| AdminClients.TenantTable.constructor | src/app/api/admin/clients/route.ts:36 | the tenant table starts empty |
| AdminClients.TenantTable.Post | src/app/api/admin/clients/route.ts:15-60 | the new table and response are those of `PostClient` on the old table |
| AdminClients.LowerIdempotent | src/app/api/admin/clients/route.ts:36-46 | lower-casing twice is lower-casing once |
| AdminClients.AdminFirst | src/app/api/admin/clients/route.ts:16-18 | a non-admin request gets 401 whatever its body, and nothing is stored |
| AdminClients.ValidationOrder | src/app/api/admin/clients/route.ts:21-33 | name, then e-mail, then password: each failure returns 400 with its own message and stores nothing |
| AdminClients.DuplicateEmail | src/app/api/admin/clients/route.ts:36-39 | an e-mail already present in any letter case gets 409 and the table is unchanged |
| AdminClients.CreatedAddsOne | src/app/api/admin/clients/route.ts:43-55 | success returns 201 and adds exactly one record (name, lower-cased e-mail), keeping every other record |
| AdminClients.PostKeepsKeyed | src/app/api/admin/clients/route.ts:36-46 | every request keeps each record stored under its own lower-cased e-mail |
| AdminClients.SecondSignupConflicts | src/app/api/admin/clients/route.ts:36-46 | after a client is created, the same e-mail in another letter case is refused with 409 |
| Seo.GenerateMetadata | src/lib/seo.ts:81-102 | definition (no contract of its own): the default metadata with title, description and URL overridden when given; TitleEverywhere, DescriptionEverywhere, PathSetsOpenGraphUrl and DefaultsPreserved state its fields |
| Seo.TitleEverywhere | src/lib/seo.ts:88-98 | a non-empty title, suffixed, becomes the page, Open Graph and Twitter title; an empty or missing one keeps all three defaults |
| Seo.DescriptionEverywhere | src/lib/seo.ts:89-99 | a non-empty description is used in all three places; otherwise each default stays |
| Seo.PathSetsOpenGraphUrl | src/lib/seo.ts:94-100 | a non-empty path sets the Open Graph address to the site address plus the path; otherwise the default address stays |
| Seo.DefaultsPreserved | src/lib/seo.ts:87-97 | every other field, top-level or nested, is the default |
| Seo.NoArgumentsIsDefault | src/lib/seo.ts:81-102 | with no arguments the result is exactly the default metadata |
| Notifications.UnreadCount | src/components/NotificationSystem.tsx:130 | definition (no contract of its own): the number of unread notifications; CountsBounded bounds it |
| Notifications.CriticalCount | src/components/NotificationSystem.tsx:131 | definition (no contract of its own): the number of critical notifications; CountsBounded bounds it |
| Notifications.ToggleCategory | src/components/NotificationSystem.tsx:255-266 | definition (no contract of its own): checking appends the category, unchecking removes every occurrence; ToggleCategoryEffect states both |
| Notifications.MarkAsRead | src/components/NotificationSystem.tsx:76-82 | the length is kept (which items change is stated by `MarkAsReadPointwise`) |
| Notifications.MarkAllAsRead | src/components/NotificationSystem.tsx:84-88 | the length is kept (the items are described by `MarkAllPointwise`) |
| Notifications.Delete | src/components/NotificationSystem.tsx:90-92 | the list never grows (which items stay is stated by `DeleteMembers`) |
| Notifications.Filtered | src/components/NotificationSystem.tsx:124-128 | a filter never grows the list (which items stay is stated by `FilteredMembers`) |
| Notifications.Without | src/components/NotificationSystem.tsx:264 | removing a category never grows the list (which entries stay is stated by `WithoutMembers`) |
| Notifications.MarkAsReadPointwise | src/components/NotificationSystem.tsx:76-82 | only the items with that id become read; every other field, the length and the order stay |
| Notifications.AbsentIdNoop | src/components/NotificationSystem.tsx:76-82 | marking an id no item has changes nothing |
| Notifications.DeletePointwise | src/components/NotificationSystem.tsx:90-92 | deleting an id no item has changes nothing |
| Notifications.MarkAllPointwise | src/components/NotificationSystem.tsx:84-88 | after marking all, every item is read and nothing else changed |
| Notifications.MarkAllIdempotent | src/components/NotificationSystem.tsx:84-130 | marking all twice is marking all once, and leaves no unread item |
| Notifications.NoneShown | src/components/NotificationSystem.tsx:124-128 | a list of which the filter shows no item filters to nothing |
| Notifications.FilteredMembers | src/components/NotificationSystem.tsx:124-128 | `unread` keeps exactly the unread items, `critical` exactly the critical ones, `all` everything |
| Notifications.FilteredAppend | src/components/NotificationSystem.tsx:124-128 | filtering distributes over appending, so the order is kept |
| Notifications.AllIsIdentity | src/components/NotificationSystem.tsx:127 | the `all` filter is the identity |
| Notifications.DeleteMembers | src/components/NotificationSystem.tsx:90-92 | deleting keeps exactly the items with another id |
| Notifications.DeleteAppend | src/components/NotificationSystem.tsx:90-92 | deleting distributes over appending, so the rest stays in order |
| Notifications.CountsBounded | src/components/NotificationSystem.tsx:130-131 | the unread and critical counts are at most the number of items |
| Notifications.MarkReadCountsLikeDelete | src/components/NotificationSystem.tsx:76-130 | after marking one id read, the unread count is that of the list without that id |
| Notifications.WithoutMembers | src/components/NotificationSystem.tsx:264 | removing a category keeps exactly the other categories |
| Notifications.ToggleCategoryEffect | src/components/NotificationSystem.tsx:255-266 | unchecking removes every occurrence of the category and keeps the others; checking appends it; the other settings stay |
| ContentAdmin.ParseTags | src/app/admin/content/page.tsx:105 | definition (no contract of its own): the comma-split, trimmed tags; TagsRoundTrip and EmptyTagsField state its meaning |
| ContentAdmin.HandleSave | src/app/admin/content/page.tsx:94-122 | definition (no contract of its own): `handleSave`; SaveAppendsOne states its whole effect |
| ContentAdmin.HandleEdit | src/app/admin/content/page.tsx:124-134 | definition (no contract of its own): the item loaded into the form; EditThenUpdateKeepsItem states what a later update keeps |
| ContentAdmin.HandleUpdate | src/app/admin/content/page.tsx:136-164 | definition (no contract of its own): `handleUpdate`; UpdateReplacesOnlyEdited and UpdateWithoutEditingNoop state its effect |
| ContentAdmin.HandleDelete | src/app/admin/content/page.tsx:166-170 | definition (no contract of its own): removal by id after confirmation; DeleteNeedsConfirmation states both answers |
| ContentAdmin.SplitComma | src/app/admin/content/page.tsx:105 | `split(',')` always gives at least one piece, so an empty field is one empty piece |
| ContentAdmin.SplitNoComma | src/app/admin/content/page.tsx:105 | a field without a comma is one piece |
| ContentAdmin.SplitAtComma | src/app/admin/content/page.tsx:105 | the text up to the first comma is the first piece |
| ContentAdmin.SplitShown | src/app/admin/content/page.tsx:130-144 | splitting a list joined with `, ` gives the first tag, then each further tag behind its space |
| ContentAdmin.TagsRoundTrip | src/app/admin/content/page.tsx:105-144 | for a non-empty list of trimmed tags without commas, parsing the shown form gives the tags back |
| ContentAdmin.EmptyTagsField | src/app/admin/content/page.tsx:105 | an empty tags field gives one empty tag |
| ContentAdmin.ReplaceById | src/app/admin/content/page.tsx:149-151 | the length is kept (which items change is stated by `ReplacePointwise`) |
| ContentAdmin.RemoveById | src/app/admin/content/page.tsx:168 | the list never grows (which items stay is stated by `RemoveMembers`) |
| ContentAdmin.FilteredContent | src/app/admin/content/page.tsx:172-177 | the filter never grows the list (which items stay is stated by `FilterMembers`) |
| ContentAdmin.SaveAppendsOne | src/app/admin/content/page.tsx:94-122 | a form missing a title, content or category changes nothing; otherwise the old items are kept in order, the one item appended at the end has the given id, the form's title, content, category, parsed tags and status and both timestamps `now`, the form is reset, the add panel closed and the item being edited unchanged |
| ContentAdmin.ReplacePointwise | src/app/admin/content/page.tsx:149-151 | items with the edited id become the updated item; every other item stays in place |
| ContentAdmin.UpdateReplacesOnlyEdited | src/app/admin/content/page.tsx:136-164 | an update replaces only the edited id, keeps its `id` and `createdAt`, and runs no required-field check |
| ContentAdmin.UpdateWithoutEditingNoop | src/app/admin/content/page.tsx:137 | without an item being edited, updating changes nothing |
| ContentAdmin.EditThenUpdateKeepsItem | src/app/admin/content/page.tsx:124-151 | editing an item with clean tags and saving the unchanged form changes only its `updatedAt` |
| ContentAdmin.RemoveMembers | src/app/admin/content/page.tsx:168 | removing keeps exactly the items with another id |
| ContentAdmin.RemoveAppend | src/app/admin/content/page.tsx:168 | removing distributes over appending, so the rest stays in order |
| ContentAdmin.DeleteNeedsConfirmation | src/app/admin/content/page.tsx:166-170 | an unconfirmed delete changes nothing |
| ContentAdmin.FilterMembers | src/app/admin/content/page.tsx:172-177 | the filter keeps exactly the items in the selected category (or any, for `all`) whose title or content contains the query, ignoring case |
| ContentAdmin.EmptyQueryKeepsCategory | src/app/admin/content/page.tsx:172-177 | an empty search keeps every item of the selected category |

## Left out

- Lengths, `substring` and indices count Unicode scalar values (`seq<char>`), not UTF-16 code units. The two differ only outside the Basic Multilingual Plane, e.g. for emoji, which the triggers do not contain.
- `toLowerCase` is modelled as ASCII lower-casing. Arabic has no case, but non-ASCII Latin letters are left unchanged.
- Python's `str.isalnum` is approximated by ASCII letters and digits plus the Arabic letters U+0620–U+064A and the Arabic-Indic digits U+0660–U+0669.
- The regular expressions become explicit character predicates and substring tests: the Arabic block U+0600–U+06FF, `\w` as ASCII word characters, and `\s` as the whitespace of `trim`.
- `sendMessageToOpenRouter`, the upstream HTTP call and its retry with the fallback model, Redis, FAISS and the embeddings are not modelled. Their outcomes are parameters.
- `JSON.parse` of an event is a `parse` parameter.
- The `catch` around `processUserMessage` is not modelled; no modelled step can throw.
- Several Rasa error paths are not modelled:
  - the handler around `similarity_search` (the search is a parameter whose failure gives the fallback context);
  - the handler around building the answer;
  - the outer handler of the RAG action.
- `DEFAULT_TENANT` and `LLM_TIMEOUT` keep their defaults; their environment overrides are not modelled.
- `asyncio.wait_for` timing is not modelled. How the call ended is an input.
- The streaming route's byte-level reading, `tee()`, `TextDecoder` and message persistence (route.ts lines 135-145) are not modelled. The framer works on strings.
- A `messages` that is present but not an array in the streaming route is not modelled. An absent one makes `messages.length` throw, and the route answers 500 from its catch; `StreamRoute.Start` models that outcome.
- A temperature that is `NaN` is a number in JavaScript and passes through as it is. The model has no `NaN`.
- ChatRouter.Merge: an explicit `undefined` field in a partial configuration would overwrite the old value in JavaScript; the model treats it as absent.
- Keys inherited from `Object.prototype` in the reply tables are not modelled; an unknown intent gets the apology.
- The `matcher` export of the middleware and the console logging are not modelled.
- `SecurityLogger` calls are not modelled.
- ChatbotTrain.ChunkTextForEmbedding: `maxChunkSize` is a natural number. A negative or fractional size is not modelled.
- Ids and timestamps from `Date.now()`/`new Date()` are inputs.
- The `alert` and `confirm` dialogs are not modelled. Confirmation is a boolean input.
- A failure of `prisma.tenant.create` is not modelled. A body that is not JSON gives the 400 `Invalid request`.
- The rest of the repository is not part of this model: UI rendering, the ORM-backed routes, the other LLM routes, webhook HMAC verification and static schemas.

## Notes on the code as written

- Ties in the intent table go to the earlier entry, because the comparison is a strict `>`. So "السلام عليكم" is `greet`, although it also matches `goodbye` through `سلام`.
- `routeMessage` never reads the router's configuration. The configuration only affects `getConfig`.
- With the default budget of 1000 tokens, the `slice(-2)` branch of `optimizeContext` cannot be taken.
- Chunk length is not bounded by `maxChunkSize`:
  - a merged chunk can be one character longer, because of the joining space;
  - an oversize sentence after a non-empty chunk is kept whole.

  With `maxChunkSize` 0 the first chunk is empty.
- The streaming route keeps the budget chosen by its table even when the caller supplies `system`.
- The title suffix of `generateMetadata` names a different brand (`إيجي إفريقيا للمقاولات`) from the default title template.
- The `/admin` page gate accepts any non-empty cookie. The API routes' `isAdminRequest` demands more than 20 characters.
- The complexity test of the router is the only router test that is not lower-cased.
- There is no conversation-memory store in this code, and none is modelled.
