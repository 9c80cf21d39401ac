# Campaign analytics core, modelled in Dafny

This project models the logic of a marketing-campaign dashboard in Dafny and proves properties of it. It covers five parts:

- **Metrics** (`client/src/lib/analysis.ts`): summary statistics over data points, pairwise trend classification over points sorted by timestamp, and per-category totals.
- **In-memory store** (`server/storage.ts`): `MemStorage` with its two id-keyed maps and auto-increment counters.
- **CSV row extraction** (`client/src/lib/data-ingestion.ts`, lines 21-43): line and comma splitting, the header-width filter, the fixed column mapping, and one ingest call per row.
- **Strategy wizard** (`client/src/components/strategy/StrategyWizardSimple.tsx`): five steps, a progress value per step, submit guards, Back buttons, a duplicate-free interest list, an indexed channel list, and the chat messages of conversation mode.
- **Lifecycle-objective conversation** (`client/src/components/strategy/StrategyConversationInterface.tsx`): five lifecycle stages asked in a fixed order, one objective stored per stage, a summary, and a handoff to ingestion on "yes".

Files and modules:

- `wrappers.dfy` (`Wrappers`) holds `Option`.
- `seqs.dfy` (`Seqs`) holds `NoDuplicates`, shared by the metrics and the wizard.
- `schema.dfy` (`Schema`) holds the `DataPoint` and `User` record shapes.
- `text.dfy` (`Text`) models the JavaScript string built-ins the code relies on: `split`, `trim`, `includes`, and the ASCII part of `toLowerCase`/`toUpperCase`.
- `analysis.dfy`, `storage.dfy`, `ingestion.dfy`, `wizard.dfy` and `conversation.dfy` hold one module per source file.

How each part is modelled:

- The pure metrics are functions; each is characterised by lemmas.
- `identifyTrends` and `aggregateByCategory` keep their loops as methods. Each method is proved against specification functions (`SortByTimestamp`, `TrendAt`, `Categories`, `CategorySum`). The trend loop is the method `PairwiseTrends`, which `IdentifyTrends` calls on the sorted copy.
- `MemStorage` and the two React components are classes. Their state variables are fields, their handlers are methods, and a `Valid()` invariant is preserved by every method.
- `parseInt` and `new Date` are function-valued parameters of the ingestion model. `ingestDataPoint` is one too.

Two places where the model settles something the code leaves open:

- **`identifyTrends` with a zero predecessor.** The code divides by a zero predecessor value. JavaScript then produces Infinity or NaN, and NaN falls into the "stable" branch. The model does not invent a value for that case. `IdentifyTrends` requires every predecessor in timestamp order to be non-zero.
- **Sorting by timestamp.** `Array.prototype.sort` is stable, so points with equal timestamps keep their input order. `SortByTimestamp` is an insertion sort that is proved to be the one stable sort by timestamp.

## Model

| member | source | states |
|---|---|---|
| Text.Trim | client/src/components/strategy/StrategyWizardSimple.tsx:316 | the trimmed text neither starts nor ends with white space, and it is empty exactly when the input is white space only |
| Text.TrimIsSlice | client/src/components/strategy/StrategyWizardSimple.tsx:316 | trimming removes characters only at the two ends: the result is a contiguous slice of the input, and what lies before and after that slice is white space only |
| Text.TrimmedIff | client/src/components/strategy/StrategyWizardSimple.tsx:316-319 | a text is its own trim exactly when neither of its ends is white space |
| Text.TrimIdempotent | client/src/components/strategy/StrategyWizardSimple.tsx:316-319 | trimming an already trimmed text changes nothing, so a stored interest is its own trim |
| Text.Split | client/src/lib/data-ingestion.ts:21-22 | splitting on a one-character separator gives one more piece than there are separators, so never an empty list |
| Text.SplitPiecesFree | client/src/lib/data-ingestion.ts:27 | no piece of a split contains the separator |
| Text.JoinSplit | client/src/lib/data-ingestion.ts:21-22 | joining the pieces back with the separator gives the original text: splitting loses nothing |
| Text.SplitJoin | client/src/lib/data-ingestion.ts:21-22 | splitting undoes joining, for pieces that do not contain the separator |
| Text.SplitAround | client/src/lib/data-ingestion.ts:21 | the split of `a + sep + b` is the split of `a` followed by the split of `b` |
| Text.SplitNoSeparator | client/src/lib/data-ingestion.ts:22 | a text without the separator splits into itself alone |
| Text.ToLower | client/src/components/strategy/StrategyConversationInterface.tsx:63 | lower-casing keeps the length and maps each character through the ASCII lower-case map |
| Text.Capitalize | client/src/components/strategy/StrategyConversationInterface.tsx:140 | the first character is upper-cased and the rest is unchanged |
| Text.Includes | client/src/components/strategy/StrategyConversationInterface.tsx:63 | true exactly when the substring occurs at some position of the text |
| Analysis.Values | client/src/lib/analysis.ts:4 | the values are the points' `value` fields, one per point, in order |
| Analysis.MinOf | client/src/lib/analysis.ts:14 | the minimum is one of the values and no value is below it |
| Analysis.MaxOf | client/src/lib/analysis.ts:15 | the maximum is one of the values and no value is above it |
| Analysis.SortAscending | client/src/lib/analysis.ts:8 | the sorted copy is ascending and a permutation of the values |
| Analysis.InsertAscendingOrdered | client/src/lib/analysis.ts:8 | inserting into an ascending list keeps it ascending |
| Analysis.SortKeepsCounts | client/src/lib/analysis.ts:8 | sorting keeps, for every bound, the number of values below it and at or below it |
| Analysis.AscendingRank | client/src/lib/analysis.ts:9 | in an ascending list the element at index `k` has at most `k` values below it and more than `k` at or below it |
| Analysis.MedianUnique | client/src/lib/analysis.ts:8-9 | at most one value has at most `n/2` values below it and more than `n/2` at or below it, so the median is determined by the values alone |
| Analysis.MedianOfSorted | client/src/lib/analysis.ts:8-9 | the element at index `floor(n/2)` of the sorted copy is an input value with that rank (the upper middle for even `n`) |
| Analysis.Mean | client/src/lib/analysis.ts:6 | the mean times the count equals the sum |
| Analysis.CalculateBasicStats | client/src/lib/analysis.ts:3-18 | for non-empty input: the total is the sum of the values and the mean is total over count; min and max are values that bound every value; the median is a value between them with the rank of index `floor(n/2)` of the sorted copy |
| Analysis.SortByTimestamp | client/src/lib/analysis.ts:21-23 | the sorted copy has as many points as the input |
| Analysis.InsertByTimestampOrdered | client/src/lib/analysis.ts:21-23 | inserting into a list ordered by timestamp keeps it ordered |
| Analysis.SortByTimestampOrdered | client/src/lib/analysis.ts:21-23 | the sorted copy is in non-decreasing timestamp order |
| Analysis.SortByTimestampStable | client/src/lib/analysis.ts:21-23 | for every timestamp, the points carrying it appear in the sorted copy in their input order |
| Analysis.AtTimeNonEmpty | client/src/lib/analysis.ts:21-23 | some point carries a timestamp exactly when filtering by it is non-empty |
| Analysis.StableSortUnique | client/src/lib/analysis.ts:21-23 | two timestamp-ordered lists with the same points per timestamp, in the same order, are equal |
| Analysis.SortByTimestampIsTheStableSort | client/src/lib/analysis.ts:21-23 | the sorted copy is a stable sort of the input by timestamp, and any stable sort by timestamp equals it |
| Analysis.PercentChange | client/src/lib/analysis.ts:31 | for a non-zero predecessor, the change times the predecessor is 100 times the difference |
| Analysis.Classify | client/src/lib/analysis.ts:33-35 | "increasing" iff the change exceeds 5, "decreasing" iff it is below -5, "stable" iff it lies in [-5, 5]; the three cases are disjoint and exhaustive |
| Analysis.TrendAt | client/src/lib/analysis.ts:29-42 | the record for a pair of consecutive points carries the later point's timestamp, a change that times the earlier value is 100 times the difference, and "increasing" exactly above 5, "decreasing" exactly below -5 |
| Analysis.PairwiseTrends | client/src/lib/analysis.ts:25-44 | the loop over the sorted points yields `max(0, n-1)` records, record `i` being the record of points `i` and `i+1` |
| Analysis.IdentifyTrends | client/src/lib/analysis.ts:20-45 | there are `max(0, n-1)` records; record `i` is the record of sorted points `i` and `i+1` (timestamp of the later one, percent change, classification); the timestamps are non-decreasing |
| Analysis.CategoriesDistinct | client/src/lib/analysis.ts:48-53 | the keys of the category map are distinct |
| Analysis.CategoriesComplete | client/src/lib/analysis.ts:48-53 | a category is a key exactly when some point carries it |
| Analysis.CategoriesPrefix | client/src/lib/analysis.ts:50-53 | keys keep first-appearance order: the keys of a prefix of the data are a prefix of the keys |
| Analysis.CategorySumAbsent | client/src/lib/analysis.ts:51 | a category no point carries sums to 0, the default the map lookup falls back to |
| Analysis.CategorySumsAddUp | client/src/lib/analysis.ts:47-58 | the per-category sums add up to the sum of all values |
| Analysis.TotalOfEntries | client/src/lib/analysis.ts:55-58 | entries that carry each category's sum add up to the sum over those categories |
| Analysis.AggregateByCategory | client/src/lib/analysis.ts:47-59 | one entry per distinct category, in first-appearance order, each carrying that category's sum; the entry values add up to the overall total |
| Storage.MemStorage.constructor | server/storage.ts:15-19 | a fresh store has both maps empty and both counters at 1 |
| Storage.MemStorage.GetUser | server/storage.ts:25-27 | returns the user stored under the id, or none exactly when the id is not a key |
| Storage.MemStorage.GetUserByUsername | server/storage.ts:29-33 | returns none exactly when no user has the username, and otherwise the earliest-inserted user that has it |
| Storage.MemStorage.CreateUser | server/storage.ts:35-40 | the new user gets the old counter as id, a key not used before; the counter grows by one; the map gains that one entry and nothing else changes |
| Storage.MemStorage.GetDataPoints | server/storage.ts:42-44 | returns every stored point once, in insertion order, which is ascending id order, and changes nothing |
| Storage.MemStorage.CreateDataPoint | server/storage.ts:46-51 | the new point is the input plus the old counter as id, a key not used before; the counter grows by one; the map gains that entry and every earlier entry is unchanged |
| Storage.KeyOrderCount | server/storage.ts:9-12 | the insertion-order key list is as long as the map has keys |
| Storage.DuplicateUsernames | server/storage.ts:29-40 | in a fresh store, two users created under the same name are both stored, under ids 1 and 2 in that order, the counter stands at 3, and lookup by name returns the first |
| Ingestion.Field | client/src/lib/data-ingestion.ts:30-33 | a field index within the line gives that raw field; past the end it gives nothing (`undefined`) |
| Ingestion.RowsOfConcat | client/src/lib/data-ingestion.ts:26-37 | rows keep file order: the rows of two runs of lines are the rows of the first followed by those of the second |
| Ingestion.LineKeptIff | client/src/lib/data-ingestion.ts:27-35 | a line yields one row, with the fixed column mapping, exactly when its field count equals the header's, and no row otherwise |
| Ingestion.RowsOfBound | client/src/lib/data-ingestion.ts:26-37 | no line yields more than one row |
| Ingestion.ParsedRowsBound | client/src/lib/data-ingestion.ts:21-37 | there are at most as many rows as lines after the header |
| Ingestion.HeaderOnlyGivesWidth | client/src/lib/data-ingestion.ts:21-26 | the header line never becomes a row; only its field count matters |
| Ingestion.ExtractRows | client/src/lib/data-ingestion.ts:21-37 | the parsing loop builds exactly the rows of the lines after the header whose width matches |
| Ingestion.UploadCsvData | client/src/lib/data-ingestion.ts:21-43 | the rows sent are the parsed rows; the call log holds exactly one call per row, in row order, each with its position, and the i-th result is the response to the i-th call, so equal rows may get different responses |
| Wizard.ProgressFor | client/src/components/strategy/StrategyWizardSimple.tsx:133-151 | progress is 20 times the step's position counted from one: 20, 40, 60, 80, 100 |
| Wizard.PreviousStep | client/src/components/strategy/StrategyWizardSimple.tsx:613 | the step a Back button returns to is exactly one position earlier |
| Wizard.Without | client/src/components/strategy/StrategyWizardSimple.tsx:326-331 | the removed interest is gone and every other interest is kept |
| Wizard.WithoutConcat | client/src/components/strategy/StrategyWizardSimple.tsx:326-331 | removal preserves the order of the remaining interests |
| Wizard.WithoutDistinct | client/src/components/strategy/StrategyWizardSimple.tsx:326-331 | from a duplicate-free list, removal takes out one element if present and none otherwise, and leaves no duplicates |
| Wizard.AppendKeepsWellFormed | client/src/components/strategy/StrategyWizardSimple.tsx:315-323 | appending a non-empty, trimmed interest that is not yet listed keeps every interest non-empty, trimmed and listed once |
| Wizard.WithoutKeepsWellFormed | client/src/components/strategy/StrategyWizardSimple.tsx:326-331 | removing an interest keeps every remaining interest non-empty, trimmed and listed once |
| Wizard.HighPriorityNames | client/src/components/strategy/StrategyWizardSimple.tsx:341 | every listed name belongs to a high-priority channel, every high-priority channel's name is listed, and there are no more names than channels |
| Wizard.HighPriorityNamesConcat | client/src/components/strategy/StrategyWizardSimple.tsx:341 | the names keep channel order: the names of two runs of channels are those of the first followed by those of the second |
| Wizard.HighPriorityNamesSingle | client/src/components/strategy/StrategyWizardSimple.tsx:341 | one channel contributes its name exactly when it is high priority; with the previous row this fixes the list, order and count included |
| Wizard.JoinNamesConcat | client/src/components/strategy/StrategyWizardSimple.tsx:341 | joining two non-empty lists of names puts exactly one ", " between their joined texts |
| Wizard.JoinNamesSnoc | client/src/components/strategy/StrategyWizardSimple.tsx:341 | no names join to the empty text, one name joins to itself, and each further name adds ", " and that name at the end |
| Wizard.AssistantReply | client/src/components/strategy/StrategyWizardSimple.tsx:396-410 | the canned reply is selected by keyword in the lower-cased text: "budget" first, then "timeline", then "segment" or "audience", otherwise the default |
| Wizard.StrategyWizard.constructor | client/src/components/strategy/StrategyWizardSimple.tsx:84-111 | the wizard starts on the objectives step at 20% with empty forms, the three default channels, form mode and no messages |
| Wizard.StrategyWizard.EditObjectives | client/src/components/strategy/StrategyWizardSimple.tsx:455-499 | the objectives form takes the typed values and nothing else changes |
| Wizard.StrategyWizard.EditAudience | client/src/components/strategy/StrategyWizardSimple.tsx:519-604 | the audience fields other than the interests take the chosen values |
| Wizard.StrategyWizard.EditInterestInput | client/src/components/strategy/StrategyWizardSimple.tsx:574 | only the interest input changes |
| Wizard.StrategyWizard.EditMessageInput | client/src/components/strategy/StrategyWizardSimple.tsx:986 | only the chat input changes |
| Wizard.StrategyWizard.SubmitObjectives | client/src/components/strategy/StrategyWizardSimple.tsx:238-267 | moves to the audience step iff name, description and KPI are all non-empty, and otherwise keeps the step; appends exactly the user and assistant messages when in conversation mode, and none otherwise |
| Wizard.StrategyWizard.SubmitAudience | client/src/components/strategy/StrategyWizardSimple.tsx:270-299 | moves to the channels step iff segment, age range and location are all non-empty, and otherwise keeps the step; appends two messages only in conversation mode |
| Wizard.StrategyWizard.SubmitChannels | client/src/components/strategy/StrategyWizardSimple.tsx:334-350 | moves to the recommendations step without a guard; in conversation mode the user message names the high-priority channels joined by ", " |
| Wizard.StrategyWizard.GoToSummary | client/src/components/strategy/StrategyWizardSimple.tsx:353-369 | moves to the summary step (100%) without a guard; appends two messages only in conversation mode |
| Wizard.StrategyWizard.Back | client/src/components/strategy/StrategyWizardSimple.tsx:613 | moves exactly one step back, and the progress falls by 20 (the same for the Back buttons at lines 679, 783 and 926) |
| Wizard.StrategyWizard.UpdateChannelPriority | client/src/components/strategy/StrategyWizardSimple.tsx:302-306 | only the priority of the channel at the index changes; the length and the other channels are unchanged |
| Wizard.StrategyWizard.UpdateChannelBudget | client/src/components/strategy/StrategyWizardSimple.tsx:308-312 | only the budget of the channel at the index changes; the length and the other channels are unchanged |
| Wizard.StrategyWizard.AddInterest | client/src/components/strategy/StrategyWizardSimple.tsx:315-323 | appends the trimmed input and clears the input iff that text is non-empty and not yet listed, and otherwise changes nothing; interests stay trimmed, non-empty and duplicate-free |
| Wizard.StrategyWizard.RemoveInterest | client/src/components/strategy/StrategyWizardSimple.tsx:326-331 | the interests become the old list without that interest, in order, one shorter if it was listed |
| Wizard.StrategyWizard.SendMessage | client/src/components/strategy/StrategyWizardSimple.tsx:388-394 | white-space-only input is ignored; otherwise the untrimmed text is appended as a user message and the input cleared |
| Wizard.StrategyWizard.ReceiveReply | client/src/components/strategy/StrategyWizardSimple.tsx:396-410 | the timer appends the assistant's keyword reply to the sent text |
| Wizard.StrategyWizard.ToggleConversationMode | client/src/components/strategy/StrategyWizardSimple.tsx:414-424 | the mode flips; switching to chat with an empty history seeds exactly the greeting, and otherwise the messages are unchanged |
| Conversation.Stages | client/src/components/strategy/StrategyConversationInterface.tsx:37-43 | the five stages in their fixed order, each at its own position |
| Conversation.NextStage | client/src/components/strategy/StrategyConversationInterface.tsx:78-83 | the stage after a stage other than churn is exactly one position later |
| Conversation.Set | client/src/components/strategy/StrategyConversationInterface.tsx:73-74 | storing an objective replaces that stage's objective and no other |
| Conversation.AllDefined | client/src/components/strategy/StrategyConversationInterface.tsx:51-54 | true exactly when all five objectives are non-empty |
| Conversation.SummaryOf | client/src/components/strategy/StrategyConversationInterface.tsx:137 | every partial summary starts with the fixed header |
| Conversation.SummaryOfSnoc | client/src/components/strategy/StrategyConversationInterface.tsx:139-142 | each further stage adds its own line at the end |
| Conversation.SummaryOfPrefix | client/src/components/strategy/StrategyConversationInterface.tsx:139-142 | the summary of the first stages is a prefix of the summary of all of them |
| Conversation.CapitalizedKey | client/src/components/strategy/StrategyConversationInterface.tsx:140 | capitalising each stage key gives its title ("Prospecting" to "Churn"), the title each summary line shows |
| Conversation.SummaryWrittenOut | client/src/components/strategy/StrategyConversationInterface.tsx:136-145 | the summary is the header followed by one `**<Stage> Stage:** <objective>` line per stage, in the fixed order |
| Conversation.SummarizeObjectives | client/src/components/strategy/StrategyConversationInterface.tsx:136-145 | the loop, formatting each key with its first letter upper-cased, builds exactly that summary |
| Conversation.DispatchFor | client/src/components/strategy/StrategyConversationInterface.tsx:57-68 | an objective is recorded iff the last message is the user's and some objective is missing; the handoff happens iff the last message is the user's, all objectives are defined, the step is strategy and the lower-cased text contains "yes" |
| Conversation.AfterHandoverNothingDispatches | client/src/components/strategy/StrategyConversationInterface.tsx:61-64 | once the ingestion step is active, no message triggers anything |
| Conversation.StoreKeepsStageInvariant | client/src/components/strategy/StrategyConversationInterface.tsx:72-84 | storing a non-empty answer for the current stage keeps earlier stages defined and later stages empty, before and after advancing |
| Conversation.AgentMessagesKeepUsersNonBlank | client/src/components/strategy/StrategyConversationInterface.tsx:86-113 | agent messages never add a blank user message |
| Conversation.StrategyConversation.constructor | client/src/components/strategy/StrategyConversationInterface.tsx:11-29 | the conversation starts in the strategy step with the welcome message, no objectives, on the prospecting stage |
| Conversation.StrategyConversation.EditInput | client/src/components/strategy/StrategyConversationInterface.tsx:333 | only the input changes |
| Conversation.StrategyConversation.HandleSendMessage | client/src/components/strategy/StrategyConversationInterface.tsx:147-161 | white-space-only input is ignored; otherwise one user message with the untrimmed text is appended and the input cleared |
| Conversation.StrategyConversation.HandleStrategyAgentResponse | client/src/components/strategy/StrategyConversationInterface.tsx:70-115 | the last user message becomes the current stage's objective and the other stages are unchanged; before churn, one agent question about the next stage is appended and the stage advances by one; at churn, three agent messages are appended, the middle one the summary, and the stage stays |
| Conversation.StrategyConversation.HandleStrategyComplete | client/src/components/strategy/StrategyConversationInterface.tsx:117-134 | appends the handover message and the ingestion agent's greeting (sender `ingestion`), then opens the ingestion step and shows the upload panel |
| Conversation.StrategyConversation.AgentDispatch | client/src/components/strategy/StrategyConversationInterface.tsx:57-68 | does what the dispatch rule selects, and nothing once the ingestion step is open: on no action nothing changes; on record, the last user text becomes the current stage's objective, and before churn the stage advances with one question appended, while at churn the stage stays and the three closing messages are appended; on hand-off, the handover messages are appended, the ingestion step opens, and the objectives and stage are kept |

## Left out

- **Rendering.** JSX, styling, toasts, scrolling, icons and charts are presentation only.
- **Timers and async.** `setTimeout`, `setInterval` and `Promise` scheduling are not modelled.
  - The one-second delay of the conversation's agent dispatch is not modelled. The dispatch is the synchronous method `AgentDispatch`.
  - The wizard's delayed chat reply is the separate method `ReceiveReply`, taking the text that was sent.
  - The wizard's recommendation-generation progress and its constant mock recommendations (`StrategyWizardSimple.tsx:159-235`) are not modelled.
  - `handleExport` and `handleSave` only show toasts.
- **React semantics.** Setter batching and stale closures are not modelled. Every handler reads and writes the current state at once.
  - The effects that set `progress` and `allObjectivesDefined` are applied by the same method that changes their inputs.
  - The wizard's conversation-mode branches of the form submits are modelled as written, although the forms are only rendered in form mode.
- **Message timestamps** (`new Date()` in each conversation message) are not modelled.
- **File upload.** `handleFileUpload` in the conversation component, `FileReader`, `apiRequest`/`fetch` and the `try`/`catch` error paths of `uploadCSVData` are I/O. Only the parse and the sequence of rows sent are modelled.
- **Foreign parsing.** `parseInt` and `new Date` are uninterpreted parameters. `ingestDataPoint` is a parameter too: a function of the call's position and the row, standing for the server's response with its fresh id.
- **`sessionStore`** (`server/storage.ts:20-22`) is a third-party session library. It is not part of this model.
- **Routes and schema.** `server/routes.ts` and the Drizzle/Zod declarations are not part of this model. Only the `DataPoint` and `User` field shapes are used. The database's unique constraint on usernames is not enforced by `MemStorage` either.
- **JavaScript numbers.**
  - Values, sums and counters are unbounded integers. Double precision and counter limits are not modelled.
  - `mean` and `change` are exact reals.
  - NaN and Infinity (empty input to the statistics, a zero predecessor in the trends) are excluded by preconditions.
- **Timestamps** are integers compared directly. The `new Date(...).getTime()` conversion in the trend sort is not modelled.
- **Text.ToLower, Text.Capitalize:** only ASCII letters change case. Full Unicode case mapping is not modelled. `ToLower` is applied to the text the user types, so for non-ASCII letters its result differs from JavaScript's. The keyword tests built on it still agree with JavaScript: the only non-ASCII characters that lower-case to ASCII letters are U+0130 (to "i" followed by U+0307) and U+212A (to "k"), and neither can complete "yes", "budget", "timeline", "segment" or "audience". `Capitalize` is applied only to the five ASCII stage keys.
- **Channel aliasing.** `updateChannelPriority`/`updateChannelBudget` mutate the shared channel object inside the copied array. The model treats channels as values, which matches the rendered state after the setter runs.
- **Analysis.SortByTimestamp:** its own contract gives only the length. Ordering, stability and uniqueness are proved in the lemmas listed above.
