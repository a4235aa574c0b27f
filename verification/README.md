# A verified model of RaySpec's adapters and migration commands

The project models, in Dafny 4.11, the parts of RaySpec whose correctness depends on the order and the
shape of what they meet rather than on any one line, and proves what they promise for every input, every
run and every interruption:

- **Tool-parameter schemas** (`Json`, `SchemaSemantics`, `SchemaStrip`, `ZodProjection`, `ZodTuples`): the Pi adapter's
  `format` strip and the Anthropic and Codex projection into Zod, judged by one acceptance semantics of
  JSON Schema draft 2020-12 over raw JSON, with `format` ignored (the authoritative validator) or enforced.
- **Transcripts** (`Transcript`, `TranscriptClosing`, `AnthropicTranscript`, `TranscriptInvariant`, `Quarantine`,
  `TranscriptContent`, `JsonlTranscript`, `JsonlContent`, `DerivationAgreement`, `PiTranscript`, `PiContent`,
  `OpenAiContent`, `CodexContent`): transcripts re-derived from untrusted content blocks with their quarantine, what
  exactly each adapter's transcript contains, and two derivations of the same session compared.
- **Storage and replay** (`ConversationStore`, `StoreContent`, `Replay`, `JsonbOrder`, `JsonText`, `OpenAiReplay`,
  `CodexReplay`, `TurnReplay`, `AnthropicReplay`): rows written and read back with the `system` role downgraded, the order a
  `jsonb` column gives to properties and what `JSON.stringify` makes of it, and the replays that rebuild a run from
  its journal and those rows.
- **Usage** (`Runs`, `UsageCoalescing`): frames of one model call merged into one ledger entry.
- **Speech segments** (`DeepgramFields`, `DeepgramParagraphs`, `DeepgramSentences`, `DeepgramPieces`): words cut into
  segments by paragraph, by sentence and by pause. Times and confidences are reals.
- **The kill ladder** (`KillLadder`): the Codex launcher as a timed automaton.
- **Migration** (`ImportState`, `ImportInvocations`, `ImportSafety`, `ExportSource`, `ExportRun`, `BundlePlans`,
  `BundleDeploy`): import over any number of invocations with a kill between any two effects, export over
  every failure, and bundle deploy over every arrival of signals.
- **`rayspec pack`** (`PackInventory`, `PackOutput`): the archive compared with what was resolved, and moved
  into place.

Loops of the source are methods with loops, proved equal to a specification function or against a property
stated outright; objects that handlers update are classes. The lemmas then state what the source promises
about those functions.

`@rayspec/server` is entered only through contracts. They are: `restoreImport` changes the databases only
in the order dump, claim by deployment id, fence, hold, may fail behind each, and reports `targetChanged` when
it leaves something restored (`ImportInvocations.Possible`); `discardImportTarget` works only on an empty
database or one that records the import's deployment id (`MayDiscard`); `consumeCutoverToken` accepts only an
unused token of a fence this import holds ready, and `renewCutoverToken` only such a fence with an earlier
token (`MayConsume`, `MayRenew`); `takeExportScratch` lets one invocation run at a time; `quiesce` takes or keeps
the fence and its barrier in the steps of `ExportSource.Source.Quiesce`, keeps others out by its lease, and returns
its failures; others may change the fence at any other time, but epochs only grow, none is fenced twice, and a held
barrier stays while the fence does (`ExportSource.Later`); `exportSnapshot` checks the fence of the epoch it is
given before and after (`ExportSource.Source.ExportSnapshot`); `preparePlan` digests the plan digest input of what
it prepared (`BundleDeploy.PreparedDigest`).

## Where the code does less than it says

Each of these is a lemma, with the exact condition beside it.

- A `$ref` into a data position keeps the `format` there, so the strip is not exact
  (`SchemaStrip.DataReferenceCounterexample`, `SchemaStrip.DataReferenceExactIff`); it is exact when what each
  reference leads to is stripped as a schema is.
- A node with both `prefixItems` and an `items` object makes the Zod projection stricter than draft 2020-12
  (`ZodTuples.TupleCounterexample`); a tuple's projection is never stricter exactly when the item type accepts
  what every prefix schema accepts that an instance can reach (`ZodTuples.TupleNeverStricterIff`).
- An id shared by a sanctioned and an unsanctioned call takes a legitimate result out of the transcript
  (`Quarantine.SharedIdDropsResult`).
- The JSONL reader loses or reorders tool parts of messages that hold both calls and results
  (`DerivationAgreement.MixedMessageDisagrees`), and one line it cannot work through makes it give up the whole
  file (`DerivationAgreement.DerivationsAgree`). It is also never reached: the streamed transcript always
  has two turns (`AnthropicReplay.StreamIsAlwaysPreferred`).
- An OpenAI run with a structured output replays to another final text unless the output lists its properties in
  the order a `jsonb` column gives back (`OpenAiReplay.RunReplaysIff`, `OpenAiReplay.SummaryFirstIsReordered`).
- An Anthropic or Pi run with more turns than its turn limit loses its answer on replay
  (`TurnReplay.StepsRecoveredIff`), and a call refused before the tool handler ran, which the run did not count,
  adds a step to it (`AnthropicReplay.RefusedCallAddsAStep`, `PiTranscript.RefusedCallAddsAStep`); a Pi result with
  the empty string for a tool name, and a Codex dispatch that threw, make a replay differ.
- A blank sentence that starts before the piece it is added to loses time (`DeepgramSentences.BlankInsideIff`).
- The launcher's bound of first stop + grace + min(grace, 200) holds when a SIGKILL takes no time; otherwise the
  kill latency is added, and that bound is reached (`KillLadder.SettlingBound`, `KillLadder.BoundIsReached`).
- An import that dies between committing the application dump and claiming the database can be neither
  discarded nor repeated (`ImportSafety.FailedImportRecoversIff`, `ImportSafety.KilledBehindTheDump`); one that dies
  between creating the deployment and the first mark is stuck as well (`ImportSafety.KilledBeforeTheMark`); a cutover
  killed after the release keeps the record CUTOVER for ever (`ImportSafety.KilledCutoverNeverCompletes`).
- When the write of EXPORTED fails, the receipt holds EXPORTED and then BLOCKED although the bundle was
  written (`ExportRun.BlockedBehindExported`); when `quiesce` fails behind the fence it took and the fence cannot be
  read back, the receipt says that nothing at the source was changed (`ExportRun.NothingChangedOfAFencedSource`); and
  the epoch announced before is another's when somebody else moved the fence since the precheck (`ExportRun.AnnouncedIff`).
- A static-profile bundle serves although a signal arrived during the boot, and "the deploy changed nothing" is
  also answered after the version was staged (`BundleDeploy.ServesDespiteSignal`, `BundleDeploy.NothingAppliedButStaged`).
- A temporary file that cannot be removed stays behind `rayspec pack` without a word (`PackOutput.FileSystem.WriteOutput`).

## Model

| member | source | states |
|---|---|---|
| SchemaStrip.StripPlaceByPlace | packages/adapters/pi/src/index.ts:208-247 | for every path: the stripped schema has nothing behind a `format` keyword at a schema position, and elsewhere the stripped form of what stood there, data unchanged |
| SchemaStrip.StrippedIsFormatFree | packages/adapters/pi/src/index.ts:227-247 | no `format` keyword is left at any schema position, at any depth |
| SchemaStrip.UnchangedIffFormatFree | packages/adapters/pi/src/index.ts:148-171 | a schema is left alone exactly when it carries no `format` keyword at a schema position |
| SchemaStrip.StripIdempotent | packages/adapters/pi/src/index.ts:227-247 | stripping twice is stripping once |
| SchemaStrip.NamesKept | packages/adapters/pi/src/index.ts:208-216 | a node loses only `format`; every map of schemas keeps its names, a property called `format` included |
| SchemaStrip.StripExact | packages/adapters/pi/src/index.ts:173-263 | the format-enforcing validator accepts of the stripped schema exactly what the format-ignoring one accepts of the original, under every applicator, wherever references lead to something stripped as a schema is |
| SchemaStrip.LandingRefsOk | packages/adapters/pi/src/index.ts:173-263 | references that all land on schemas meet that condition, recursive ones too, however far they are followed |
| SchemaStrip.DataReference | packages/adapters/pi/src/index.ts:227-247 | what a reference into a data position resolves to is not stripped |
| SchemaStrip.DataReferenceExactIff | packages/adapters/pi/src/index.ts:227-247 | for a node that refers to a schema-shaped value in a data position whose only `format` is its own, stripping is exact for an instance exactly when the value refuses it anyway or the format admits it |
| SchemaStrip.DataReferenceCounterexample | packages/adapters/pi/src/index.ts:227-247 | a schema and value on which exactness fails because a `$ref` lands in a data position |
| ZodProjection.NeverStricter | packages/adapters/anthropic/src/index.ts:1092-1165 | whatever the neutral schema accepts the projected Zod type accepts, at any depth, whatever other keywords stand beside, as long as item types accept what the prefixes beside them accept |
| ZodProjection.PrefixFreeIsCovered | packages/adapters/anthropic/src/index.ts:1092-1165 | a schema without `prefixItems` beside an `items` schema meets that condition |
| ZodProjection.TypedExact | packages/adapters/codex/src/index.ts:947-1014 | on the typed fragment the projection accepts exactly what the schema accepts |
| ZodProjection.ParsedOutputIsValid | packages/adapters/codex/src/index.ts:947-1014 | what Zod hands on after dropping unknown keys still validates, a boolean `additionalProperties` allowed |
| ZodProjection.ClosedIsHandedOn | packages/adapters/codex/src/index.ts:947-1014 | under a typed schema that closes every object, Zod hands on unchanged whatever validates, at any depth |
| ZodProjection.ShapeNeverStricter | packages/adapters/anthropic/src/index.ts:1178-1215 | the raw shape given to the SDK accepts every argument object the tool's schema accepts; the two rows below say what the shape is |
| ZodProjection.ShapeNames | packages/adapters/anthropic/src/index.ts:1178-1215 | the single `args` field is handed out exactly when the schema declares no property; otherwise the shape has a field for each declared property and no other |
| ZodProjection.ShapeExact | packages/adapters/anthropic/src/index.ts:1193-1196 | for typed parameters with a declared property the shape lets through exactly the argument objects the tool's schema accepts |
| ZodTuples.TupleNeverStricterIff | packages/adapters/anthropic/src/index.ts:1092-1165 | for any number of `prefixItems` beside `items`: never stricter exactly when the item projection accepts what each prefix schema accepts that an instance can reach, and what `items` accepts if one can be longer |
| ZodTuples.TupleCounterexample | packages/adapters/anthropic/src/index.ts:1092-1165 | a tuple the schema accepts and the projection refuses |
| AnthropicTranscript.ObserveBlock | packages/adapters/anthropic/src/index.ts:1345-1390 | one observed block changes the turns, the quarantined ids and the text flag as the specification step does |
| AnthropicTranscript.ObserveMessage | packages/adapters/anthropic/src/index.ts:1344-1391 | the loop over a message's blocks extends the derivation by those blocks |
| AnthropicTranscript.DeriveConversationFromObserved | packages/adapters/anthropic/src/index.ts:1324-1397 | the loop over messages and blocks computes the specified transcript, whose contents `TranscriptContent.TranscriptIsTheStream` states |
| TranscriptContent.TranscriptIsTheStream | packages/adapters/anthropic/src/index.ts:1345-1396 | for every stream: behind the two trusted turns stand, one a turn and in order, exactly the kept blocks: an assistant's text and reasoning as given, a sanctioned call with its input or null, a result that no unsanctioned call's id and, under an allowlist, a sanctioned one's preceded, with its normalized content and the name of the first such call; last the final text, exactly when no assistant text came and it is not empty |
| TranscriptInvariant.TranscriptIsTrusted | packages/adapters/anthropic/src/index.ts:1330-1396 | for every stream: indices are positions, turns 0 and 1 are the trusted ones and no other is system or user, every call is sanctioned, every result follows the first call with its id and carries its name |
| TranscriptInvariant.StepKeepsTrust | packages/adapters/anthropic/src/index.ts:1345-1390 | every block keeps that invariant |
| Quarantine.NonInterference | packages/adapters/anthropic/src/index.ts:1304-1322 | deleting every unsanctioned call and every result without an earlier sanctioned call leaves the transcript unchanged exactly when no result's id was used before by both kinds of call |
| Quarantine.QuarantinedContentIsInvisible | packages/adapters/anthropic/src/index.ts:1319-1322 | without shared ids, streams that differ only in what is deleted give one transcript |
| Quarantine.DeriveRemembers | packages/adapters/anthropic/src/index.ts:1352-1390 | the quarantined ids and the ids with a recorded call are exactly those of the unsanctioned and the sanctioned calls seen |
| Quarantine.SharedIdDropsResult | packages/adapters/anthropic/src/index.ts:1376-1379 | a shared id drops a sanctioned call's result |
| JsonlTranscript.ReDeriveJsonl | packages/adapters/anthropic/src/index.ts:1483-1555 | the loop over lines, their blocks and the user-line split computes the specified turns, none when a line cannot be worked through |
| JsonlTranscript.ReadBlocks | packages/adapters/anthropic/src/index.ts:1508-1541 | a line's parts and quarantine, results correlated with earlier lines only |
| JsonlTranscript.SplitResults | packages/adapters/anthropic/src/index.ts:1542-1551 | the results of a line and everything else, each in order |
| JsonlContent.LineIsRead | packages/adapters/anthropic/src/index.ts:1500-1551 | whatever lines came before: a user's or assistant's line adds its kept blocks, each with its own content and in order, in one turn of its sender, on a user's line the results in a tool turn behind the rest; any other line adds nothing |
| DerivationAgreement.DerivationsAgree | packages/adapters/anthropic/src/index.ts:1345-1391 | the two derivations give the same tool calls and results in the same order exactly when no message holds a result whose only call is its own and no user message a kept result before a call; with a broken line exactly when the session, that line's readable blocks included, has no tool part to lose |
| DerivationAgreement.UnmixedDerivationsAgree | packages/adapters/anthropic/src/index.ts:1500-1551 | they agree whenever no line is broken and no message holds both a call and a result |
| DerivationAgreement.MixedMessageDisagrees | packages/adapters/anthropic/src/index.ts:1531-1540 | a message with a call and its result makes them differ |
| ConversationStore.RehydrateConversation | packages/kernel/platform/src/rehydrate.ts:49-85 | grouping rows into turns through the index map, then validating, computes the specified turns |
| ConversationStore.Validate | packages/kernel/core/src/neutral.ts:196-217 | bad parts, empty turns and negative indices are dropped, nothing else |
| ConversationStore.PlaceRow | packages/kernel/platform/src/rehydrate.ts:64-80 | a row joins its turn's candidate through the index map, which keeps saying where every candidate stands |
| ConversationStore.FlattenConversationToRows | packages/kernel/platform/src/run-core.ts:1143-1164 | one row per part, in order and numbered through, holding that part |
| ConversationStore.RehydratedIsSafe | packages/kernel/platform/src/rehydrate.ts:4-21 | whatever is stored, what is read back has no system turn, no empty turn and no malformed part |
| StoreContent.RehydratedAreTheRows | packages/kernel/platform/src/rehydrate.ts:49-109 | whatever rows are stored: exactly the non-negative turns with a readable row are read back, in the order they were opened, each in the role of its opening row (`system` and unknown ones as user) with the readable parts of its rows in order; an old row without a turn is its own, its text the part |
| ConversationStore.StoreRoundTrip | packages/kernel/platform/src/rehydrate.ts:49-108 | writing and reading back gives the transcript with `system` turned into `user`, exactly when every tool part has an id and a name |
| Replay.ReplayTranscriptIsTrusted | packages/adapters/openai/src/index.ts:786-822 | whatever rows are stored, a replayed transcript has one system turn, the trusted one, in front, and positions for indices |
| Replay.ReattachUndoesDowngrade | packages/adapters/codex/src/index.ts:1283-1299 | reattaching the trusted turn undoes the downgrade, for all three forms of the head test |
| StoreContent.ReattachKeepsTheRest | packages/adapters/openai/src/index.ts:800-822 | whatever was read back: behind the trusted system turn stand all its turns, renumbered, but a head that stands for that turn by the adapter's test |
| Replay.TranscriptReplays | packages/adapters/openai/src/index.ts:800-822 | a transcript comes back from store and reattachment exactly when all its tool parts are storable |
| OpenAiReplay.DeriveConversation | packages/adapters/openai/src/index.ts:700-784 | the loop over history items computes the specified transcript |
| OpenAiContent.TranscriptIsTheHistory | packages/adapters/openai/src/index.ts:700-784 | for every history: behind the instructions stand exactly the non-empty texts and reasoning, and the calls and results with an id and a name, in order, each with its own text, arguments or output; then the final text exactly when no assistant text came, and the structured output exactly when there is a schema and an output |
| OpenAiReplay.JournalResponses | packages/adapters/openai/src/index.ts:398-456 | one step per response, or one for a run without any, numbered in order; the last alone is final and carries the output as the column gives it back |
| OpenAiReplay.Walk | packages/adapters/openai/src/index.ts:549-560 | the loop ends at the first gap, with the last step before it |
| OpenAiReplay.ReplayFromJournal | packages/adapters/openai/src/index.ts:541-606 | the walk to the first gap rebuilds the result from the last step found and the stored rows |
| OpenAiReplay.ReplayInvertsRun | packages/adapters/openai/src/index.ts:404-606 | for every successful run, replay gives its output, transcript and step count, and as final text what is serialised of the stored output |
| OpenAiReplay.RunReplaysIff | packages/adapters/openai/src/index.ts:456-561 | the final text comes back too exactly when the output is absent or every object in it lists its properties in the order they are read back in, however numbers are written |
| OpenAiReplay.SummaryFirstIsReordered | packages/adapters/openai/src/index.ts:456-561 | an output that lists `summary` before `id` replays to another final text |
| JsonbOrder.JsonbKeepsValue | packages/kernel/db/src/schema.ts:346-359 | a `jsonb` column keeps the value and gives it back in its own order of properties |
| JsonbOrder.JsonbKeepsOrderIff | packages/kernel/db/src/schema.ts:346-359 | it gives back the document as it was exactly when that is in this order already, at every depth |
| JsonText.StringifyKeepsOrder | packages/adapters/openai/src/index.ts:456-459 | documents of one value are serialised to the same text exactly when all their properties stand in the same order |
| CodexReplay.Bridge.Handle | packages/adapters/codex/src/index.ts:641-676 | a call is counted before its dispatch and leaves its parts only when the dispatch returns |
| CodexReplay.DeriveConversation | packages/adapters/codex/src/index.ts:1237-1275 | the loops over reasoning and tool pairs compute the specified transcript |
| CodexContent.TranscriptIsTheRun | packages/adapters/codex/src/index.ts:641-676 | for every run: behind the trusted opening stand the non-empty reasoning texts, then for each request whose dispatch returned, and no other, its call with the arguments and its result, then a non-empty final text, and the structured output when there is a schema and an answer |
| CodexReplay.ReplayInvertsRun | packages/adapters/codex/src/index.ts:828-868 | replay gives the run's result exactly when every dispatch returned and every call had an id and a name |
| TurnReplay.JournalTurns | packages/adapters/anthropic/src/index.ts:679-724 | a step for each turn and no other, the answer and the turn count on the last |
| TurnReplay.Probe | packages/adapters/anthropic/src/index.ts:875-889 | the probe ends at the first gap, the recorded turn count or the turn limit |
| TurnReplay.ReplayFromJournal | packages/adapters/anthropic/src/index.ts:868-925 | the bounded probe rebuilds the result from the last step it reaches |
| TurnReplay.StepsRecoveredIff | packages/adapters/anthropic/src/index.ts:875-889 | the steps, and with them a non-empty answer, are recovered exactly when there are no more than the larger of 1 and the turn limit |
| TurnReplay.ReplayInvertsRun | packages/adapters/pi/src/index.ts:770-821 | however many calls the tool handler saw: replay gives the run's result exactly when the transcript is storable and, within the turn bound, each call of the transcript and no other was counted, or, beyond it, there was no answer to lose and the steps happen to add up |
| TurnReplay.ReplayCountsRecordedCalls | packages/adapters/anthropic/src/index.ts:868-925 | within the bound a replay counts the calls of the transcript, refused ones too |
| AnthropicReplay.ConversationStorable | packages/adapters/anthropic/src/index.ts:1324-1397 | every derived Anthropic transcript survives the store |
| AnthropicReplay.RunReplaysIff | packages/adapters/anthropic/src/index.ts:679-894 | an Anthropic run replays to its own result exactly under that condition: within the bound, when each call of the transcript and no other was counted |
| AnthropicReplay.RefusedCallAddsAStep | packages/adapters/anthropic/src/index.ts:1063-1070 | a call refused before the tool handler ran makes the replay report a step more |
| AnthropicReplay.StreamIsAlwaysPreferred | packages/adapters/anthropic/src/index.ts:661-676 | the streamed transcript always has more than one turn, so no fallback is used |
| PiTranscript.DeriveBlocks | packages/adapters/pi/src/index.ts:968-986 | the loop over an assistant message's blocks computes the specified turns |
| PiTranscript.DeriveConversation | packages/adapters/pi/src/index.ts:952-1007 | the loop over messages, and the closing text, compute the specified transcript |
| PiContent.TranscriptIsTheSession | packages/adapters/pi/src/index.ts:952-1007 | for every session: behind the trusted opening stand exactly the assistants' text, thinking and call blocks and the results that carry something, in order, each with its own content, a nameless result under the name of the first call with its id or `tool`; last the last assistant's text exactly when no text block came and it is not empty |
| PiContent.LastTextIsLast | packages/adapters/pi/src/index.ts:1000-1004 | that text is the last assistant message's plain text, or its text blocks joined |
| PiContent.JoinedInOrder | packages/adapters/pi/src/index.ts:907-916 | the joined text holds each text block's text where it stands, and nothing else |
| PiTranscript.RunReplaysIff | packages/adapters/pi/src/index.ts:660-821 | a Pi run replays to its own result exactly under that condition, its transcript being storable exactly when no result names its tool with the empty string |
| PiTranscript.RefusedCallAddsAStep | packages/adapters/pi/src/index.ts:430-449 | a call refused before the tool handler ran makes the replay report a step more |
| UsageCoalescing.CoalesceUsage | packages/adapters/anthropic/src/index.ts:509-602 | the in-place loop leaves the usage of the last frame of each run |
| UsageCoalescing.RecordFrame | packages/adapters/anthropic/src/index.ts:571-602 | a frame with usage keeps the ledger that of the runs seen so far |
| UsageCoalescing.RecordUsage | packages/adapters/anthropic/src/index.ts:573-602 | a frame rewrites the tail entry when it belongs to the same call and adds an entry otherwise |
| UsageCoalescing.LedgerIsLastUsageOfEachRun | packages/adapters/anthropic/src/index.ts:571-602 | there is one grouping into maximal runs of one call, and the ledger is the last usage of each |
| UsageCoalescing.CallsAreReports | packages/adapters/anthropic/src/index.ts:1263-1277 | the calls so grouped are the frames that reported usage, in order, each with its id and its own counts, an absent one as 0, input and output added up, the cache counts as reported |
| UsageCoalescing.RepeatedFrameAddsNoStep | packages/adapters/anthropic/src/index.ts:573-600 | a frame with the id of the one behind it, or, both without an id, with its usage, never adds an entry, wherever it stands |
| UsageCoalescing.DistinctCallsStaySeparate | packages/adapters/anthropic/src/index.ts:579-600 | frames with different ids, one with and one without, or two without and with different usage, are never merged |
| DeepgramFields.MeanWithinBounds | packages/adapters/deepgram/src/deepgram-response.ts:111-117 | a mean lies between the least and the greatest confidence of its run's words, and exists exactly when a word carries a number |
| DeepgramFields.PresentAreNumbers | packages/adapters/deepgram/src/deepgram-response.ts:111-117 | the confidences a mean is over are those of the words that carry a number, in order |
| DeepgramParagraphs.SegmentsFromParagraphs | packages/adapters/deepgram/src/deepgram-response.ts:124-144 | one segment per paragraph, with the paragraph's own start and end, its sentences' texts in order with one space between neighbours, and the mean confidence of exactly its run: the longest stretch of words that starts before its end, the last taking the rest |
| DeepgramParagraphs.TakeWords | packages/adapters/deepgram/src/deepgram-response.ts:135-138 | the inner loop takes the longest stretch of words that starts before the paragraph ends, or all |
| DeepgramParagraphs.ParagraphCutUnique | packages/adapters/deepgram/src/deepgram-response.ts:119-123 | only one cut of the words has those properties |
| DeepgramParagraphs.ParagraphsConserveConfidence | packages/adapters/deepgram/src/deepgram-response.ts:111-144 | the runs concatenate to the words, and means times counts add up to all present confidences |
| DeepgramParagraphs.SegmentsFromWords | packages/adapters/deepgram/src/deepgram-response.ts:227-260 | one segment per run without a pause over one second inside and with one at every boundary: from its first word's start to its last word's end, the punctuated words or else the words in order with one space between, and the run's mean confidence |
| DeepgramParagraphs.PauseCutUnique | packages/adapters/deepgram/src/deepgram-response.ts:223-240 | any partition with those properties is the one computed; confidence is conserved |
| DeepgramSentences.SegmentsFromSentences | packages/adapters/deepgram/src/deepgram-response.ts:170-220 | each piece gets the mean over exactly the words whose first containing piece it is, or all uncontained ones for the first |
| DeepgramSentences.PushSentencePieces | packages/adapters/deepgram/src/deepgram-response.ts:184-209 | the loop that rewrites the previous piece and carries the leading start computes the specified pieces |
| DeepgramSentences.EveryParagraphHasAPiece | packages/adapters/deepgram/src/deepgram-response.ts:179-182 | no paragraph is left without a piece |
| DeepgramSentences.PieceTextsAreKeptTexts | packages/adapters/deepgram/src/deepgram-response.ts:187-208 | one piece per sentence with text, in order, with that text |
| DeepgramSentences.LastPiece | packages/adapters/deepgram/src/deepgram-response.ts:190-207 | a piece runs from its own start, or the earliest blank start before the first, to the latest end of the blanks behind it |
| DeepgramPieces.PiecesAreExact | packages/adapters/deepgram/src/deepgram-response.ts:184-209 | whatever the sentences: one piece for each with text, in order, with its text, from its own or the paragraph's start (the first from the least usable start before it) to the greatest of its own or the paragraph's end and the usable ends of the blank ones up to the next with text |
| DeepgramPieces.AllPiecesAreExact | packages/adapters/deepgram/src/deepgram-response.ts:174-209 | the pieces are those of the paragraphs in order, a paragraph without text having one with its own bounds and its sentences' texts joined |
| DeepgramSentences.SkippedTimeIsCovered | packages/adapters/deepgram/src/deepgram-response.ts:155-169 | with sentences in order every sentence's time, blank ones included, is inside a piece of its paragraph |
| DeepgramSentences.OutOfOrderLosesTime | packages/adapters/deepgram/src/deepgram-response.ts:190-196 | out of order it need not be |
| DeepgramSentences.BlankInsideIff | packages/adapters/deepgram/src/deepgram-response.ts:190-207 | in any order: a blank sentence behind a piece is inside it exactly when it starts no earlier, one in front of the first exactly when it ends no later |
| DeepgramSentences.EachWordInOneRun | packages/adapters/deepgram/src/deepgram-response.ts:210-215 | the runs together hold the words, each as often as it was given |
| DeepgramSentences.SentencesConserveConfidence | packages/adapters/deepgram/src/deepgram-response.ts:211-220 | each word counts for one piece: means times counts add up to all present confidences |
| DeepgramSentences.ConfidenceIsOfListedWords | packages/adapters/deepgram/src/deepgram-response.ts:165-169 | a segment's confidence is over exactly the words the normalizer lists under it |
| KillLadder.Launcher.Stop | packages/adapters/codex/src/kill-ladder.ts:67-72 | the stop handler moves the launcher as the automaton's step does, which relays the signal (`KillLadder.StopsAreRelayed`) |
| KillLadder.Launcher.OnChildExit | packages/adapters/codex/src/kill-ladder.ts:78-87 | so does the exit handler |
| KillLadder.Launcher.OnForced | packages/adapters/codex/src/kill-ladder.ts:71 | so does the forced timer |
| KillLadder.Launcher.OnLeave | packages/adapters/codex/src/kill-ladder.ts:86 | so does the leave timer |
| KillLadder.Launcher.SignalGroup | packages/adapters/codex/src/kill-ladder.ts:60-63 | a signal to the whole group |
| KillLadder.Launcher.ProcessExit | packages/adapters/codex/src/kill-ladder.ts:75-76 | leaving kills the group of a binary that exited |
| KillLadder.StepKeepsInv | packages/adapters/codex/src/kill-ladder.ts:60-87 | every event keeps the automaton's invariant |
| KillLadder.SettlingBound | packages/adapters/codex/src/kill-ladder.ts:64-87 | however many signals arrive, a launcher that is still there is within first stop + grace + kill latency + min(grace, 200), or child exit + grace |
| KillLadder.LadderSafety | packages/adapters/codex/src/kill-ladder.ts:60-87 | no running binary is killed before the grace is over, the forced timer is armed once at most and never pending after exit, and the group is killed after the exit before the launcher leaves |
| KillLadder.StopsAreRelayed | packages/adapters/codex/src/kill-ladder.ts:66-87 | over every run: what is sent besides SIGKILL is exactly the stops that arrived before the exit, in order and at their times; the group is killed at the exit after a stop and at every stop after the exit |
| KillLadder.TimersAreExact | packages/adapters/codex/src/kill-ladder.ts:64-87 | the forced kill comes a grace after the first stop, the launcher leaves a grace after the exit, or min(grace, 200) when it was stopped before |
| KillLadder.NeverStuck | packages/adapters/codex/src/kill-ladder.ts:64-87 | the bounds are not vacuous: time can always pass or an urgent event happen |
| KillLadder.BoundIsReached | packages/adapters/codex/src/kill-ladder.ts:64-87 | a run reaches the bound exactly |
| ImportInvocations.Host.Do | packages/app/cli/src/import.ts:606-617 | one effect on the target, or the kill before it |
| ImportInvocations.Host.DoWhen | packages/app/cli/src/import.ts:640-669 | an effect of some outcomes only |
| ImportInvocations.Host.Mark | packages/app/cli/src/import.ts:606-616 | the record written in a phase, or the kill before it |
| ImportInvocations.Host.RemoveDeploymentState | packages/app/server/src/deployment-state.ts:415-422 | the state files removed one by one, stopped anywhere by a kill |
| ImportInvocations.Host.RestoreImport | packages/app/cli/src/import.ts:640-669 | the restore's effects, by its contract, stopped anywhere by a kill |
| ImportInvocations.Host.Restore | packages/app/server/src/import-target.ts:836-1220 | the steps of a restore in order, up to the one behind which it fails |
| ImportInvocations.Host.FailRestore | packages/app/server/src/import-target.ts:1220-1275 | what a failed restore does: emptied again, or fenced and marked failed as far as that can be done |
| ImportInvocations.Host.FinishImport | packages/app/cli/src/import.ts:670-803 | what follows the restore, stopped anywhere by a kill |
| ImportInvocations.Host.RunImport | packages/app/cli/src/import.ts:457-617 | the import does the specified effects, as far as it survives; a dry run or one whose checks fail does none (`ImportInvocations.Host.Run`) |
| ImportInvocations.Host.RunDiscard | packages/app/cli/src/import.ts:927-984 | so does `--discard-failed` |
| ImportInvocations.Host.RunCutover | packages/app/cli/src/import.ts:1063-1118 | so does `--cutover-token` |
| ImportInvocations.Host.RunRenew | packages/app/cli/src/import.ts:1040-1062 | so does `--renew-cutover-token` |
| ImportInvocations.Host.Run | packages/app/cli/src/import.ts:366-595 | an invocation leaves the target with the first effects of its verb applied, an interrupted import having been marked failed first; a dry run, failed checks, a refused token, a binding that does not hold and an unreadable discard leave the target as it was but for that mark |
| ImportSafety.GuardedKeepsInv | packages/app/cli/src/import.ts:597-803 | every guarded effect keeps the target's invariant |
| ImportSafety.EffectsGuarded | packages/app/cli/src/import.ts:366-1118 | every effect of every invocation meets its guard in its turn |
| ImportSafety.EveryEffectIsGuarded | packages/app/cli/src/import.ts:366-1118 | over every run with kills: a restore starts only on a clean target, only a failed import is discarded, a fence is released only under a recorded cutover with its used token, and none of it on a released target |
| ImportSafety.RunsKeepInv | packages/app/cli/src/import.ts:366-1118 | the invariant holds after every run |
| ImportSafety.ImportOutcome | packages/app/cli/src/import.ts:597-803 | the exact target behind an import that is not killed: its deployment, ready behind a held fence with an unused token when restore, boot secrets and token succeeded; else blocked with the database as the failing step, the clearing or the fencing left it, and the failure marked if it could be; without a trace but the stored plans removed when the restore changed nothing |
| ImportSafety.CutoverOutcome | packages/app/cli/src/import.ts:1063-1118 | a cutover that is not killed ends COMPLETE exactly when the release was acknowledged and CUTOVER otherwise, the fence open exactly when it was released and else holding the used token |
| ImportSafety.RenewOutcome | packages/app/cli/src/import.ts:1040-1062 | a renewal that is not killed puts a new unused token in the place of the old one and the record back to ready |
| ImportSafety.FailedDiscardOutcome | packages/app/cli/src/import.ts:959-966 | a discard that fails keeps the record, with the databases emptied or as they were, and can be repeated |
| ImportSafety.CompleteIsNeverLeft | packages/app/cli/src/import.ts:1008-1018 | nothing changes a completed target |
| ImportSafety.ReleasedStays | packages/app/cli/src/import.ts:457-474 | nothing changes a target whose fence was released |
| ImportSafety.KilledCutoverNeverCompletes | packages/app/cli/src/import.ts:1091-1109 | a cutover killed after the release stays CUTOVER under every later invocation |
| ImportSafety.UnrecordedDeploymentIsStuck | packages/app/cli/src/import.ts:597-617 | a deployment without a record is refused by every verb |
| ImportSafety.KilledBeforeTheMark | packages/app/cli/src/import.ts:597-617 | an import killed between creating the deployment and its first mark leaves such a target, which nothing changes again |
| ImportSafety.FailedImportRecoversIff | packages/app/cli/src/import.ts:936-979 | a failed import is discarded to a clean target exactly when its database is empty or claimed |
| ImportSafety.KilledBehindTheDump | packages/app/server/src/import-target.ts:918-950 | an import killed right behind the dump: under every later run of invocations the target keeps the unclaimed database |
| ImportSafety.KilledDiscardRecovers | packages/app/cli/src/import.ts:959-966 | a discard of a failed or interrupted import, killed anywhere, can be run again, or left a target to import into |
| ImportSafety.InterruptedCutoverRecovers | packages/app/cli/src/import.ts:1040-1109 | a cutover killed before the release is completed by a renewed token |
| ImportSafety.ImportThenCutoverCompletes | packages/app/cli/src/import.ts:597-1118 | an undisturbed import and cutover end COMPLETE and released |
| ExportRun.RunPrecheck | packages/app/cli/src/export.ts:645-783 | the precheck and confirmation pass exactly when nothing stands against the export on its one reading of the fence, having recorded PRECHECK at most |
| ExportRun.RunQuiesce | packages/app/cli/src/export.ts:785-824 | quiesce is called exactly when the precheck was clean, a barrier possible and the downtime confirmed, having announced the epoch its first reading predicts; the fence is known as far as it was answered or read back |
| ExportRun.RunFreeze | packages/app/cli/src/export.ts:825-860 | the source is frozen exactly when quiesce drained it and its barrier holds, with the transitions under quiesce's epoch |
| ExportRun.RunCapture | packages/app/cli/src/export.ts:861-925 | the snapshot is taken under the epoch quiesce answered with, and the bundle written exactly when both its checks find that fence, whatever others did to it |
| ExportRun.RunExport | packages/app/cli/src/export.ts:474-962 | with others free to move the fence between any two steps: receipts follow the five states or stop at BLOCKED; EXPORTED is recorded exactly when the whole export succeeded, and then one fence was held with its barrier from quiesce to the snapshot's last check; BLOCKED ends every started refusal, behind EXPORTED exactly when its write fails; a source with a failed precheck, no possible barrier, no operator's yes or a signal before is left to others alone; what is announced is the first reading; a refusal is true of the source |
| ExportRun.RefusalHolds | packages/app/cli/src/export.ts:494-543 | a refusal names the fence as it is at the end, when that is read or nobody disturbed the export, and the epoch of a fence to resume; it says that nothing changed of a source quiesce did change exactly when that failed behind the fence and no fence could be read back |
| ExportRun.OneFenceIsHeld | packages/app/server/src/snapshot-capture.ts:411-592 | when the snapshot's two checks pass, every state the fence went through since quiesce is fenced at that epoch with its barrier held |
| ExportRun.AnnouncedIff | packages/app/cli/src/export.ts:788-796 | the epoch QUIESCING announces is the one taken exactly when nobody took or released a fence since the first reading, or took just the next one |
| ExportRun.BlockedBehindExported | packages/app/cli/src/export.ts:911-950 | a run whose receipt holds EXPORTED and then BLOCKED, the bundle written and the source fenced |
| ExportRun.NothingChangedOfAFencedSource | packages/app/cli/src/export.ts:495-528 | a run that ends with a fenced source and a receipt saying that nothing was changed |
| ExportRun.ReleasedMeanwhile | packages/app/server/src/snapshot-capture.ts:586-592 | a fence released while the snapshot is read: nothing is written and the source stays open |
| ExportRun.OneFence | packages/app/cli/src/export.ts:785-925 | FROZEN, EXPORTING, the snapshot and EXPORTED stand under the one epoch of the fence quiesce left, and each says to resume with it |
| ExportSource.Source.Quiesce | packages/app/server/src/fence-operations.ts:443-606 | the fence taken or found, at the epoch predicted, and a barrier kept or taken behind a drain, as far as quiesce gets; data only when it got to the end |
| ExportSource.Source.Others | packages/app/server/src/fence-operations.ts:443-746 | what others do to the fence, change by change, each only as it can happen |
| ExportSource.Source.ExportSnapshot | packages/app/server/src/snapshot-capture.ts:402-610 | a snapshot is taken exactly when the fence of the given epoch holds with its barrier before and the fence still after |
| BundlePlans.DryRun | packages/app/cli/src/deploy-bundle.ts:1046-1075 | what a dry-run stores under its digest is accepted later and gives back the planned bundle, time and sorted revisions; it stores exactly when the digest is reproduced, and touches no other record |
| BundlePlans.SortIgnoresOrder | packages/kernel/bundle-contract/src/runtime-control.ts:379-380 | the sorted revisions of a plan depend on which bindings there are and not on the order they were supplied in |
| BundlePlans.SortedSameIff | packages/kernel/bundle-contract/src/runtime-control.ts:379-395 | two lists of bindings sort to the same exactly when they hold the same bindings |
| BundleDeploy.RunDeployBundle | packages/app/cli/src/deploy-bundle.ts:393-895 | the apply runs exactly under an accepted plan; a dry run, a blocked plan, one that wants a review it has not had, an unknown digest and a failing preparation touch nothing; "nothing was applied" is answered exactly when a signal is seen at a safe point; serving, stopping and serving despite a signal, each with its exact condition; stored plans change only when one is shown |
| BundleDeploy.ServesDespiteSignal | packages/app/cli/src/deploy-bundle.ts:436-442 | a run that serves a static-profile bundle although a signal arrived during its boot |
| BundleDeploy.NothingAppliedButStaged | packages/app/cli/src/deploy-bundle.ts:443-453 | a run that answers that the deploy changed nothing with the version staged |
| BundleDeploy.ReviewedPlanIsApplied | packages/app/cli/src/deploy-bundle.ts:688-800 | of a dry-run and a deploy under the digest it showed: that plan is applied, and nothing else, exactly when the bundle is the same, the plan has not expired, the bindings, in any order, and the environment are as they were or the plan was deployed before, and nothing else stands in the way |
| BundleDeploy.OnlyTheReviewedPlanIsApplied | packages/app/cli/src/deploy-bundle.ts:348-364 | with an injective digest, whatever became of the stored records: what is applied under the digest is the reviewed bundle at the reviewed time, and unless deployed before, with the reviewed bindings and environment |
| PackInventory.BuildMap | packages/app/cli/src/pack.ts:416 | the map holds the last entry of each path, its keys in order of first appearance |
| PackInventory.DeleteFound | packages/app/cli/src/pack.ts:417-423 | the loop stops at the first file that differs, or leaves the entries nobody asked for |
| PackInventory.FirstLeftOver | packages/app/cli/src/pack.ts:424-426 | the first key left in the map |
| PackInventory.ChangedFile | packages/app/cli/src/pack.ts:412-427 | the first file that was not written as resolved, else the first path written that nobody asked for |
| PackInventory.NothingChangedIff | packages/app/cli/src/pack.ts:407-411 | nothing is reported exactly when the archive carries the closure's files, each once, and nothing else |
| PackOutput.FileSystem.Place | packages/app/cli/src/pack.ts:429-449 | the archive replaces the output only if it may, and success is that it did |
| PackOutput.FileSystem.WriteAndPlace | packages/app/cli/src/pack.ts:374-398 | the archive is written under the temporary name, checked and moved, or what each failure leaves |
| PackOutput.FileSystem.WriteOutput | packages/app/cli/src/pack.ts:353-405 | a temporary file is left exactly when one stands there at the end and cannot be removed, nothing else but the output changes, and the write succeeds exactly when the archive was checked and moved; what is occupied, not written, not as checked or interrupted leaves the output alone, and success is the archive at the output; interrupted and throwing writes each with their exact condition |
| PackOutput.NeverOverwrites | packages/app/cli/src/pack.ts:429-446 | without `--force` no file that is or appears at the output is replaced |

## Left out

- SchemaStrip.StripExact: asks that what each local `$ref` leads to is stripped as a schema is; a reference that breaks this spoils exactness only where its verdict decides, so the converse is stated for references into data alone, and for a whole document by a counterexample.
- ZodProjection.NeverStricter: asks that item types accept what the prefixes beside them accept; the condition is exact for tuple nodes, while below other keywords a prefix may be unreachable for reasons of theirs.
- JsonbOrder.JsonbKeepsValue: numbers are kept as they are and strings hold no code point that `jsonb` refuses.
- TranscriptInvariant.TranscriptIsTrusted: stated with an allowlist, as production runs pass one; without one nothing is quarantined.
- AnthropicReplay.RunReplaysIff: how often the tool handler ran is a parameter; which calls the SDK refuses before it is not modelled.
- ImportSafety.EveryEffectIsGuarded: import invocations alone change the target; an operator's own `resume`, `quiesce` or deploy between them is not modelled.
- ExportRun.RunExport: a quiesce that throws instead of returning its failure is not modelled; nor is the receipt an interrupted export leaves to the next one.
- BundleDeploy.RunDeployBundle: the supervised application process and what `serveDeployment` does after the hook are not modelled.
- `unevaluatedItems` and `unevaluatedProperties`: they hold of everything in the semantics, so nothing is claimed about them; ajv's `nullable` is excluded.
- Properties named like members of `Object.prototype`: maps hold own properties only.
- References are followed to a bound (`fuel`); every claim holds for every bound.
- Parsing of JSON text, digests, timestamps and the normalization of tool output are parameters; rounding is not modelled.
- SDK calls, sessions, HTTP, child environments, key and configuration files, `.env` merging and the Windows case without process groups are not modelled.
- Help text, usage parsing, summaries and progress lines: they would only add easy members.
