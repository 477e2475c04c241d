# The Cursor provider, modelled and proved

The plugin lets callers of three chat protocols use a Cursor subscription. One request becomes one
*turn*: the caller's conversation and tools are translated into messages Cursor understands, the
turn is run over a framed byte stream, and what Cursor sends is translated back, as a stream of
frames or as one response. This project models that translation in both directions and proves what
it keeps.

## How it is laid out

| files | part of the plugin |
|---|---|
| `Prelude`, `GoText`, `Json`, `Errors` | what Go's libraries supply: integers that wrap, strings as bytes, `TrimSpace`, JSON values, errors |
| `Connect`, `Wire`, `UsageScanner`, `Usage` | Connect's message framing, Protocol Buffers fields, the token counts scanned out of them and their accumulation |
| `ToolCallId`, `Tools`, `ToolFacts`, `ToolRoundTrip` | identifiers and names of tools, on the way out and back, and which tools a request declares |
| `Session`, `SessionFacts`, `Endings`, `Turn` | the read loop: the producer of a turn's events, its replies to Cursor, and how a turn ends |
| `Stream`, `Client`, `Refinement`, `ResponsesFacts` | the consumer: streaming, collecting, strict clients of the streams, and the agreement of the two forms |
| `Pipeline`, `Delivery` | producer and consumer composed, from bytes to every field the caller holds |
| `History`, `HistoryObjects`, `HistoryFacts`, `HistoryMeaning`, `TurnInput` | the conversation a caller sends, as records for Cursor, and what they tell |
| `CursorError`, `Retry` | errors from Cursor, and when an attempt is repeated |
| `Catalog`, `Models`, `Resolution` | the catalogue of models, their families, and the model a request means |

Where the source runs a loop or edits objects, there is a method or a class that does the same, proved
equal to a function; the properties are then proved of the function. `Client` is written from the
point of view of a protocol's client and does not look at the producer: it rejects any frame that is
out of order, so that "accepted" says something about the stream by itself.

## What the proofs turned up

Each of these is what the code does, stated with its exact condition.

- A turn without a terminal event is collected as a success but streamed as `cursor_stream_incomplete`
  or `cursor_stream_empty` (`Refinement.StreamMatchesCollected`). A turn lacks one exactly when no frame
  ends the loop and the body ends cleanly or the context is done (`Pipeline.TurnIsProper`); an empty
  body is enough (`Pipeline.EmptyBodyHasNoEnding`). The finish reasons of the two forms
  agree because the producer emits a call only right before `tool_calls`; on other traces they can differ.
- A body cut right after the header of a frame reads as a clean end, not as a truncation
  (`Connect.CleanEndExactly`).
- Counts are read up to 2^63-1 each, so the OpenAI total can wrap, and Claude's input count is
  cut off at 0 when the caches exceed the input (`Usage.TotalsAddUp`, `Usage.ClaudeInputsSplit`).
- Without explicit hints, whether an error is retried can depend on the order of its details: when
  two of them carry different provider statuses (`CursorError.RetryIgnoresOrderExactly`,
  `CursorError.OrderCanDecide`).
- A last item typed as a tool call or output that also has the role `user` is taken for the prompt, and
  its call or output is dropped (`TurnInput.PromptIsConserved`, `TurnInput.CallTakenForPrompt`).
- The input of a custom tool loses the white space around it on the way back
  (`ToolRoundTrip.ArgumentsComeBack`).
- In normalized mode a listed family is refused when a model with an effort suffix happens to bear the
  family's name (`Resolution.ListedModelsResolve`, `Resolution.ListedNameCanBeRefused`). The error for
  a variant missing from the catalogue is unreachable (`Resolution.ResolutionExactly`).
- The configured model prefix is never trimmed, while requested names are: with a prefix that starts
  with white space, and is more than white space, names are listed that cannot be asked for
  (`Resolution.WantedExactly`, `Resolution.PrefixCanHideModels`).

## Hypotheses

JSON printing and parsing, gzip, SHA-256, UUIDs, the Protocol Buffers decoder of whole messages,
`path.Match` and the test for plain text are functions the proofs know nothing about. A result
that needs more says so in its `requires`: that the parser inverts the printer on one call's
arguments, or that a root message's hash collides with no other. Strings are byte sequences; letters
are folded as ASCII.

## Model

| member | source | states |
|---|---|---|
| `Pipeline.WholeTurnIsDelivered` | internal/provider/executor.go:76-331 | For any bytes of a response body: if the turn they make ends well, preparing and pumping its stream succeeds, a strict client of any of the three formats accepts every frame and ends up with exactly the non-streaming payload, whose text, thinking, calls and usage are those of the messages in the frames of the body, up to the frame that ends the turn |
| `Pipeline.TurnIsProper` | internal/provider/session.go:142-180 | Every run of the read loop gives a proper trace that tells what the messages in the body tell; it has a terminal event if and only if some frame ends the loop, or the body breaks off with an error other than EOF while the context is alive |
| `Pipeline.EmptyBodyHasNoEnding` | internal/provider/session.go:143-149 | A body that does so: the empty one gives no events, is collected as an empty success, and its stream is reported empty |
| `Pipeline.TurnAnswersRequests` | internal/provider/session.go:84-180 | From the root messages on, the replies are exactly those owed to the requests in the body, in order; only the last can be missing, when the request pipe broke, and that ends the turn with the error |
| `Refinement.StreamMatchesCollected` | internal/provider/executor.go:153-331 | Streaming against collecting on any trace whose terminal event, if any, is last: every frame is accepted; a success agrees in text, thinking, calls and usage, and in the finish reason if and only if `EndingsAgree`; a failure gives both the same error; without a terminal event collecting succeeds as a stop while the stream is reported empty or incomplete |
| `Refinement.StreamingRefinesCollecting` | internal/provider/executor.go:153-331 | On the traces the producer emits the two forms agree in everything, the finish reason included |
| `Refinement.RunIsTracked` | internal/provider/executor.go:352-469 | From any state of client, stream and collected turn that agree, pumping the rest of a turn keeps them in agreement |
| `Refinement.CollectedIsWhatWasSaid` | internal/provider/executor.go:262-282 | The collected turn is the text, thinking, calls and usage of the trace, independent of how they interleave |
| `Refinement.CallsOfProper` | internal/provider/session.go:254-262 | A proper successful trace ends in `tool_calls` if and only if it has a call |
| `Refinement.PayloadMatches` | internal/provider/executor.go:284-331 | The non-streaming payload says what a finished stream is expected to say; the finish reasons are equal if and only if `EndingsAgree` |
| `Refinement.CommitIsBenign` | internal/provider/executor.go:153-190 | Waiting for a committing event never refuses a successful turn, and fails otherwise with the error of the turn or as empty |
| `ResponsesFacts.ResponsesStreamIsWellFormed` | internal/provider/executor.go:392-449 | Over any trace at all the Responses frames are numbered 0, 1, 2 and so on, the k-th item added has index k, no item is filled or finished before it is added, and a good ending completes: each item is finished once, the output lists them by index, each text is all its deltas |
| `ResponsesFacts.AcceptedIsWellFormed` | internal/provider/executor.go:392-449 | What the strict Responses client accepts has these properties, whoever produced it |
| `ResponsesFacts.ServeStops` | internal/provider/executor.go:209-245 | Events behind the first terminal event change nothing |
| `Stream.PrepareEventStream` | internal/provider/executor.go:153-178 | The channel is split at the commit point: the pending events are those up to it, the rest stays in the channel; an error or an empty channel before it is returned |
| `Stream.PreparedStream.Pump` | internal/provider/executor.go:200-245 | With an emitter that fails at any point, the frames sent are the prefix of the specified frames it took, and the error is the matching one |
| `Stream.PreparedStream.Consume` | internal/provider/executor.go:207-225 | One event hands over its frames and leaves the specified rest to be sent |
| `Stream.ExecuteStream` | internal/provider/executor.go:76-85 | Preparing and pumping together send what the specification `Serve` says, cut where the emitter fails |
| `Stream.StreamState.Frames` | internal/provider/executor.go:352-367 | One event takes the stream state to the specified next state and gives the specified frames |
| `Stream.StreamState.OpenAiChatFrames` | internal/provider/executor.go:369-390 | The same for the Chat format |
| `Stream.StreamState.OpenAiResponseFrames` | internal/provider/executor.go:392-442 | The same for the Responses format, with each frame numbered as it is built |
| `Stream.StreamState.MessagesFrames` | internal/provider/executor.go:451-469 | The same for the Claude format |
| `Stream.StreamState.FinalFrames` | internal/provider/executor.go:428-439 | A good ending finishes the message and lists every item |
| `Stream.CollectTurn` | internal/provider/executor.go:262-282 | The loop collects the specified turn, or returns the first error |
| `SessionFacts.ProducerTrace` | internal/provider/session.go:142-180 | For every byte sequence: at most one terminal event and nothing after it; each call right before the ending `tool_calls`, which follows nothing else; an ending if and only if a frame ends the loop, or the body breaks off uncleanly with the context alive |
| `SessionFacts.RunReads` | internal/provider/session.go:142-180 | The messages handled are exactly those in the frames of the body, one by one, up to the first frame that ends the loop |
| `SessionFacts.ReadsToTheFirstEnd` | internal/provider/session.go:142-180 | Reading stops right after the first frame that cannot be unpacked, ends the stream, calls a tool, ends the turn or is owed a reply a broken pipe does not take, and after the last frame if there is none |
| `SessionFacts.RunIsFaithful` | internal/provider/session.go:210-284 | Text, thinking, counts and calls of the trace are those of the messages in the body, in order, none lost or invented |
| `SessionFacts.EveryRequestIsAnswered` | internal/provider/session.go:210-244 | Over any run each blob get, blob set, context and discovery request in the body has exactly one reply with its ID, in order, a get answered with the latest value set or else the root message; a broken pipe stops the run at the first reply that could not be sent |
| `SessionFacts.RootsAreReadable` | internal/provider/session.go:84-90 | A root message whose hash collides with no other is what a get of its ID returns before any set |
| `Session.Conversation.ReadLoop` | internal/provider/session.go:142-180 | The loop over frames changes blobs, replies and events as the specification `Run` does |
| `Session.Conversation.HandleServerMessage` | internal/provider/session.go:210-284 | One message has the specified effect and outcome |
| `Session.Conversation.HandleExecMessage` | internal/provider/session.go:223-264 | One request to run something is answered, or becomes a call followed by the ending |
| `Session.Conversation.HandleInteraction` | internal/provider/session.go:265-282 | One update becomes the specified events; empty deltas give none |
| `Session.Conversation.constructor` | internal/provider/session.go:84-90 | Root messages are stored under the hexadecimal form of their hash, later ones over earlier ones |
| `Session.DecodeInvertsEncode` | internal/provider/session.go:286-317 | Every JSON value can reach a tool as an argument unchanged, given the decoded value message |
| `Session.HexIsInjective` | internal/provider/session.go:213-218 | Blob keys are equal if and only if the IDs are |
| `Connect.FramesRoundTrip` | internal/provider/session.go:102-114 | Frames with payloads up to 64 MiB written one after the other are read back in order, and then the tail of the body |
| `Connect.FrameRoundTrip` | internal/provider/session.go:185-199 | A frame between any two byte strings is read back whole if and only if its payload is at most 64 MiB |
| `Connect.TruncationKeepsAPrefix` | internal/provider/session.go:185-199 | Cutting any body anywhere loses frames off the end only |
| `Connect.CleanEndExactly` | internal/provider/session.go:186-197 | Reading reports a clean EOF if and only if nothing is left, or just a header whose payload is missing |
| `Connect.ReadConnectFrame` | internal/provider/session.go:185-199 | The reader returns the frame at its position and stands behind it, or returns the error |
| `Connect.FrameBuffer` | internal/provider/session.go:107-109 | The buffer filled in place is the enveloped message |
| `Connect.PutUint32` | internal/provider/session.go:108 | Four bytes big-endian, the rest of the buffer as it was |
| `Connect.Uint32InvertsBigEndian` | internal/provider/session.go:190 | Reading a length gives the length written |
| `UsageScanner.WireRoundTrip` | internal/provider/usage.go:57-107 | For every list of well-formed fields, nested groups included: the scan of their encoding succeeds if and only if all are readable, each count is the last one sent under its number or 0, and usage is reported if and only if a known field occurs |
| `UsageScanner.ScanConcat` | internal/provider/usage.go:64-106 | Scanning two messages joined is scanning the second from the result of the first, errors included |
| `UsageScanner.ScannedCountsInRange` | internal/provider/usage.go:88-95 | Any bytes that scan give five counts between 0 and 2^63-1 |
| `UsageScanner.UsageFromTurnEnded` | internal/provider/usage.go:57-107 | The loop ends for all bytes with the specified counts, or with an error and no usage at all |
| `Wire.VarintRoundTrip` | internal/provider/usage.go:88 | Reading a varint inverts writing it, wherever it stands ("Base 128 Varints" of the Protocol Buffers Encoding guide) |
| `Wire.VarintsFit64Bits` | internal/provider/usage.go:88 | No varint that can be read exceeds 64 bits, for its tenth byte is at most 1 |
| `Wire.ConsumeEncodedField` | internal/provider/usage.go:65-69 | An encoded field is read as its tag followed by its value ("Message Structure") |
| `Wire.ConsumeEncodedGroup` | internal/provider/usage.go:100-104 | An encoded group is skipped as a whole, nested to the depth limit ("Groups") |
| `Wire.FieldIgnoresRest` | internal/provider/usage.go:100-104 | What follows a field value does not change how it is skipped |
| `Wire.FieldShifts` | internal/provider/usage.go:100-104 | Nor does what stands before it |
| `Usage.AccumulatedUsage` | internal/provider/usage.go:20-26 | Over any trace the usage is the last one reported, or else the int64 sum of all deltas |
| `Usage.TotalsAddUp` | internal/provider/usage.go:28-46 | Each count has its own field, the output cut off at 0; the OpenAI total is input plus output if and only if their sum fits int64 |
| `Usage.ClaudeInputsSplit` | internal/provider/usage.go:48-55 | Cache reads, cache writes, output and reasoning have their own fields; Claude's three input counts add up to the input if and only if cache reads and writes are part of it |
| `ToolCallId.RestoreInvertsNormalize` | internal/provider/tool_call_id.go:19-41 | Restoring a normalised identifier gives back every non-blank byte string |
| `ToolCallId.NormalizedIsSafe` | internal/provider/tool_call_id.go:19-27 | Normalised identifiers are non-empty and use the safe alphabet only |
| `ToolCallId.NormalizeIsInjective` | internal/provider/tool_call_id.go:19-27 | Two non-blank identifiers have the same normal form if and only if they are equal |
| `ToolCallId.PlainIdentifiersAreUntouched` | internal/provider/tool_call_id.go:23-25 | An identifier is passed on unchanged if and only if it is safe and of neither reserved shape; any other is encoded behind the prefix |
| `ToolCallId.Decode64InvertsEncode64` | internal/provider/tool_call_id.go:26-33 | Unpadded base64url decoding inverts encoding (sections 5 and 3.2 of RFC 4648) |
| `Tools.ParsedCatalog` | internal/provider/tools.go:24-98 | Over any nesting: success if and only if every namespace is named and no two forwarded tools share a wire name; then the tools are those found in traversal order, the identity map has exactly their names as keys, and each key is spelt by its identity; with all namespaces named the error is `duplicate_tool` if and only if two names collide |
| `Tools.RegisterOutcome` | internal/provider/tools.go:59-91 | The same for any list of findings, with the reason registration stops |
| `Tools.FoundNamesMatch` | internal/provider/tools.go:35-58 | At any depth a tool's wire name is spelt by its namespace and name |
| `Tools.Catalog.Visit` | internal/provider/tools.go:27-93 | The recursive closure leaves the registry as the specification does, or returns its error |
| `Tools.ParseTools` | internal/provider/tools.go:24-98 | The catalogue parsed is the specified one |
| `ToolRoundTrip.CallComesBack` | internal/provider/translate.go:141-152 | An MCP call sent out as a Responses item and sent back becomes one assistant record with the original identifier, under the wire name it was matched by, and later results are named so |
| `ToolRoundTrip.ArgumentsComeBack` | internal/provider/translate.go:144-147 | Function arguments come back equal if the JSON library parses what it prints; custom input comes back equal if and only if it had no white space around it |
| `ToolRoundTrip.CallHasIdentity` | internal/provider/session.go:245-262 | A call carries the name, namespace and kind of the identity that spells the matched wire name |
| `ToolRoundTrip.CatalogueIsSpelled` | internal/provider/tools.go:58-90 | The catalogue of any request meets the hypothesis of the round trip |
| `ToolRoundTrip.ReturnedType` | internal/provider/tools.go:109-123 | The item sent out is read back as a call of its kind |
| `HistoryFacts.MergeCombinesRuns` | internal/provider/translate.go:205-222 | However a history is cut into maximal runs of joinable roles, merging gives one message a run: alone it stays as it is, ID included; else its parts are joined and it has no ID; user messages are never joined |
| `HistoryFacts.RunsExist` | internal/provider/translate.go:205-222 | Every history can be cut so |
| `HistoryFacts.MergeKeepsTagged` | internal/provider/translate.go:205-222 | Merging keeps the sequence of parts, each with the role it is said in |
| `HistoryFacts.MergeSettles` | internal/provider/translate.go:205-222 | No two assistant or tool messages are left adjacent; merging changes nothing if and only if there are none; it is idempotent |
| `HistoryFacts.MergeInStages` | internal/provider/translate.go:205-222 | Merging a merged beginning with the rest is merging all |
| `HistoryFacts.EveryCallIsKept` | internal/provider/translate.go:122-200 | The call parts of the normalised history are exactly the calls of the items, in order, with their restored IDs, names and arguments |
| `HistoryFacts.OutputsAreNamedAfterTheLatestCall` | internal/provider/translate.go:153-158 | A Responses tool output keeps its place and is named after the latest earlier call with the same restored ID |
| `HistoryFacts.NamesAreLatest` | internal/provider/translate.go:126-187 | The map of call names gives for every ID what looking back for the latest call gives |
| `HistoryFacts.WrapKeepsParts` | internal/provider/tools.go:135-155 | Unwrapping a wrapped call gives the original name and arguments; texts are untouched; results keep ID and text; both bear the wrapper's name, and a wrapped call the caller's namespace |
| `HistoryFacts.WrapKeepsShape` | internal/provider/tools.go:135-155 | Wrapping changes no role, ID, order or number of parts |
| `HistoryObjects.AppendMessage` | internal/provider/translate.go:207-219 | A message is appended, or its very part objects join the previous message, which loses its ID; only that message is modified |
| `HistoryObjects.MergeHistoryMessages` | internal/provider/translate.go:205-222 | On message objects edited in place the result is the merge of what they were |
| `HistoryObjects.SeenMerge` | internal/provider/translate.go:205-222 | Merging objects looks like merging what they look like |
| `HistoryObjects.NormalizeHistoryMessages` | internal/provider/translate.go:122-200 | The messages built look like the normalised history, and every part object is new and reached exactly once |
| `HistoryObjects.BuildMessages` | internal/provider/translate.go:125-198 | The loop with its map of call names builds the specified records from new objects |
| `HistoryObjects.WrapContent` | internal/provider/tools.go:138-152 | The parts of one message are wrapped in place, once each |
| `HistoryObjects.CursorToolHistory` | internal/provider/tools.go:135-155 | With no part reached twice, every call and result is wrapped exactly once and no message changes otherwise |
| `HistoryObjects.CursorHistory` | internal/provider/translate.go:107 | Normalising and wrapping together give each call wrapped once |
| `TurnInput.SplitPrompt` | internal/provider/translate.go:76-106 | The backward loop gives the specified prompt and history |
| `TurnInput.SplitExactly` | internal/provider/translate.go:76-106 | A request is refused if and only if what the user or an agent said last is encrypted; else the last item is the prompt if and only if it is said by either and has text; else everything is history |
| `TurnInput.LastSaidExactly` | internal/provider/translate.go:78-101 | The scan finds the last item the user or an agent said |
| `TurnInput.Prepare` | internal/provider/translate.go:54-120 | A whole request: tool errors first, then the prompt, then the wrapped history printed record by record, refused if one record is too large |
| `TurnInput.PromptIsConserved` | internal/provider/translate.go:83-107 | History and prompt together say what all items would have said, if and only if the prompt item is not also typed as a call or output |
| `TurnInput.CallTakenForPrompt` | internal/provider/translate.go:96-103 | A concrete item whose call is lost that way |
| `CursorError.CursorStatusError` | internal/provider/errors.go:48-115 | The fold over the details gives the specified code, status and retryability |
| `CursorError.QuotaCooldownExactly` | internal/provider/errors.go:86-98 | The status is 429 if and only if the provider answered 429, when an upstream failure is wrapped; and otherwise if and only if a resource is exhausted or Cursor itself answered 429 |
| `CursorError.HintedRetryIgnoresOrder` | internal/provider/errors.go:63-69 | With hints, an error is retryable if and only if none forbids it, whatever the order |
| `CursorError.RetryIgnoresOrderExactly` | internal/provider/errors.go:70-110 | Without hints the verdict survives every reordering if and only if the provider statuses agree |
| `CursorError.OrderCanDecide` | internal/provider/errors.go:73-110 | Two details whose order decides |
| `Retry.RetryTransient` | internal/provider/executor.go:111-136 | The loop makes the specified attempts and waits |
| `Retry.EveryRetryWasEarned` | internal/provider/executor.go:116-135 | Each further attempt follows a failure worth a retry (a retryable 408, 500, 502, 503 or 504, or a broken connection) with the context alive; giving up early has a reason; at most count+1 attempts |
| `Retry.WaitsAreBounded` | internal/provider/executor.go:124-134 | Planned waiting is at most delay * (2^count - 2^i) from attempt i on |
| `Retry.RetryBudget` | internal/provider/config.go:95-100 | Within the validated limits at most 4 attempts and 35 seconds |
| `Retry.QuotaIsNeverRetried` | internal/provider/executor.go:138-151 | A 429 is never retried, whatever the hints |
| `Retry.RetriedExactly` | internal/provider/executor.go:138-151 | A Cursor error is retried if and only if its status is 408, 500, 502, 503 or 504 and no hint forbids it |
| `Catalog.ParameterizedModels` | internal/provider/model_catalog.go:63-101 | The loop with the index map gives the list chosen by the simple specification |
| `Catalog.EachIdOnce` | internal/provider/model_catalog.go:88-98 | Each ID occurs once, letter case aside, none is missing, and the k-th has the k-th first appearance |
| `Catalog.FirstsExactly` | internal/provider/model_catalog.go:88-97 | Places are the entries whose ID no earlier entry has, in order |
| `Catalog.PickExactly` | internal/provider/model_catalog.go:89-95 | A place is taken by the last default variant after the first, or else the first |
| `Catalog.EntriesExactly` | internal/provider/model_catalog.go:66-80 | Entries come from the non-max variants of named, shown models fit for agents, and from all of them, each with its slug or name, its display name and its selection; a model without variants is one itself |
| `Models.SplitEffort` | internal/provider/models.go:205-219 | The loop from the last part gives the specified split |
| `Models.DecompositionIsFound` | internal/provider/models.go:205-219 | Whenever an ID is parts, a level, then only qualifiers, that is the split returned |
| `Models.SplitNeedsDecomposition` | internal/provider/models.go:205-219 | An effort is found only where there is such a decomposition |
| `Models.DecompositionIsUnique` | internal/provider/models.go:205-219 | There is at most one |
| `Models.JoinInvertsSplit` | internal/provider/models.go:206 | Joining on dashes inverts splitting |
| `Models.SplitInvertsJoin` | internal/provider/models.go:212 | Splitting inverts joining for parts without dashes |
| `Models.FilterModels` | internal/provider/models.go:77-100 | The filter keeps the specified models in order |
| `Models.MatchesAny` | internal/provider/models.go:102-115 | A match if and only if a non-empty pattern matches or is equal |
| `Models.Filtered` | internal/provider/models.go:86-98 | Kept are exactly the permitted models |
| `Models.NormalizedFamilies` | internal/provider/models.go:167-203 | The two loops over a map give a family for each base, with the variants and default of the simple specification |
| `Resolution.VariantsExactly` | internal/provider/models.go:177-185 | A family has an effort as variant if and only if a model has that base and effort, and the variant is such a model's ID |
| `Resolution.LatestVariantWins` | internal/provider/models.go:185 | It is the latest such model's |
| `Resolution.DefaultIsAVariant` | internal/provider/models.go:187-201 | The default of a family with variants is one of them, the preferred one if present, or else the first by preference |
| `Resolution.ResolveModel` | internal/provider/models.go:221-256 | The two scanning loops give the specified outcome |
| `Resolution.ResolutionExactly` | internal/provider/models.go:221-256 | When every request succeeds, with which model, and when it fails with which error; the error for a missing variant cannot occur |
| `Resolution.ListedModelsResolve` | internal/provider/models.go:221-256 | A listed name asked for as listed resolves, bare or with an effort its base has, if and only if it is not, in normalized mode, the name of a model with an effort suffix; if white space around prefix and name keeps it from being recognised, if and only if the name it is taken for resolves |
| `Resolution.WantedExactly` | internal/provider/models.go:227 | A listed name comes back from trimming and cutting the prefix if and only if it is recognised: nothing is trimmed off, or just a prefix of white space |
| `Resolution.PrefixCanHideModels` | internal/provider/models.go:227-241 | A concrete prefix with leading white space under which the only model cannot be asked for |
| `Resolution.ListedModelIsItself` | internal/provider/models.go:229-238 | With distinct IDs a listed model's own name means that model if it is recognised, and is taken for another name otherwise |
| `Resolution.ListedFamilyMember` | internal/provider/models.go:239-254 | With distinct IDs a recognised base and an effort mean the model that has both |
| `Resolution.OnlyPermittedModelsResolve` | internal/provider/models.go:62-70 | No request reaches a model the filter removed |
| `Resolution.CatalogueIsDistinct` | internal/provider/model_catalog.go:63-101 | The filtered catalogue has distinct IDs, as those results ask |
| `Resolution.ListedNameCanBeRefused` | internal/provider/models.go:231-235 | A concrete catalogue with a listed family that normalized mode refuses |
| `Resolution.AdvertisedLevels` | internal/provider/models.go:146-154 | The efforts listed are exactly the family's, weakest first |
| `Resolution.ModelInfos` | internal/provider/models.go:117-141 | The list has the models under their own IDs, then the families in ascending order of their names, each behind the prefix and with its efforts |
| `Resolution.SortedKeys` | internal/provider/models.go:129-133 | The keys of the map in ascending byte order, each once |
| `Resolution.FamilyInfo` | internal/provider/models.go:143-165 | A family is listed with its efforts, or without any if it has none |
| `Resolution.InfosAreListed` | internal/provider/models.go:117-141 | The names listed are exactly those the resolution results speak of |
| `Endings.TurnEndsWellExactly` | internal/provider/session.go:142-180 | Whatever the body: the turn ends well if and only if the frame that ends the loop is a readable end of stream that says nothing but white space or `{}`, an end of the turn whose counts scan, or a request for a declared tool, with a string input if it is a custom one; every other frame that ends the loop gives the error stated for it, and a body that breaks off gives its own |
| `Endings.RunEnding` | internal/provider/session.go:142-180 | The last event of a run from any state is the one stated for the frame that ends the loop |
| `Endings.CallableExactly` | internal/provider/session.go:245-253 | A request becomes a call if and only if its tool is declared under either name and a custom tool has a string as input; otherwise the refusal says which of the two it was |
| `Delivery.AnswerIsDelivered` | internal/provider/executor.go:262-469 | For any body whose turn ends well, in each of the three formats, the client of the stream and the reader of the plain response hold the same answer, and every field of it is stated over the messages in the body: text, thinking, the call with identifier, name, namespace, kind and arguments in their own fields, the finish reason, and each count in its own field |
| `Delivery.AskedExactly` | internal/provider/session.go:245-262 | A turn has one call if its last message asks for a tool that can be called, and none otherwise; the call has the normal form of the request's identifier, the declared name, namespace and kind, and the decoded arguments |
| `Delivery.ExpectedCalls` | internal/provider/executor.go:486-493 | Each call stands in the fields of its format: the identifier as identifier, the name as name, the arguments printed, or as raw input for a custom tool |
| `Delivery.ExpectedUsage` | internal/provider/usage.go:28-55 | Each count stands in its own field of each format |
| `Delivery.ReportedTotals` | internal/provider/usage.go:20-107 | If the end of the turn carries known fields, the usage of the turn is the last count sent under each of the numbers 1 to 5 |
| `Delivery.DeltaTotals` | internal/provider/usage.go:20-26 | Without a report the output is the int64 sum of all deltas and every other count is 0 |
| `Delivery.ResponsesAreStamped` | internal/provider/executor.go:284-475 | Over any trace every frame and payload that names the response names this one, its time and its model, and every item of the message bears the message's identifier |
| `Delivery.ResponseContents` | internal/provider/executor.go:299-311 | What the plain response of the Responses format holds: a message if something was said or thought, then every call in its place |
| `Delivery.MessageContents` | internal/provider/executor.go:312-327 | What that of the Claude format holds: a block of thoughts and one of text, each if there are any, then every call in its place |
| `Stream.CommitExactly` | internal/provider/executor.go:153-190 | Which event commits a stream: the first text, call or good ending, and the first thought where thoughts are sent; a bad ending before it gives its error, and nothing at all `cursor_stream_empty` |
| `Stream.EmissionEnds` | internal/provider/executor.go:209-245 | Pumping ends with the error, if any, of the first terminal event |
| `Stream.EmissionIsCutShort` | internal/provider/executor.go:226-245 | Without a terminal event pumping ends with `cursor_stream_incomplete` |
| `Session.EncodeInvertsDecode` | internal/provider/session.go:286-317 | Nothing of a decoded argument is lost or added: encoding it again gives the value message, unset values made null |
| `Connect.EnvelopeLayout` | internal/provider/session.go:106-109 | A frame is its flag byte, its length as a big-endian 32-bit number, and its payload |
| `Wire.ExampleMessage` | internal/provider/usage.go:65-88 | The guide's own example message, byte by byte |
| `ToolCallId.ForeignIdentifiersAreUntouched` | internal/provider/tool_call_id.go:29-41 | Restoring leaves alone what bears no prefix or nothing decodable behind it, and is no repeated pair of the legacy form |
| `ToolCallId.LegacyIdentifiersAreRepaired` | internal/provider/tool_call_id.go:36-40 | The legacy form of a repeated pair gets its line break back |
| `ToolCallId.SextetsAreTheBits` | internal/provider/tool_call_id.go:26 | The encoded sextets are the bits of the bytes, the most significant first (section 4 of RFC 4648) |
| `ToolFacts.CatalogueExactly` | internal/provider/tools.go:24-98 | Over the JSON of the request: the tools registered are exactly the entries reached through nested namespaces with type empty, `function` or `custom` and a name, in order, each under its wire name with its description and its declared schema or the stated default; custom if and only if typed so and without a schema; refused if and only if a namespace has no name or two tools collide |
| `ToolFacts.TraversalMatches` | internal/provider/tools.go:27-93 | The traversal of any items in any namespace finds just these declarations |
| `HistoryMeaning.HistoryIsTheConversation` | internal/provider/translate.go:122-222 | Over the JSON of the items of both formats: the history is every text, call and result each item tells, in order and in the role it is said in, and nothing else; system texts are told by the user and acknowledged, results have their restored identifier, their own name or else the latest call's, and their text |
| `HistoryMeaning.ContentAgrees` | internal/provider/translate.go:321-343 | The text of a content list is its texts joined by line breaks, in order |
| `HistoryMeaning.SpeechAgrees` | internal/provider/translate.go:229-256 | The text of an agent's message, and whether it is locked: what calls itself encrypted counts if it is plain |
| `HistoryMeaning.MessageIdsStand` | internal/provider/translate.go:122-222 | In the history a message has an identifier if and only if it is a single tool result, and then it is the identifier of its call |
| `HistoryMeaning.RequestIsTold` | internal/provider/translate.go:54-107 | What Cursor is given for any request not refused: the whole conversation and the text that asks it to go on, or all but the last item and, as prompt, what the last item tells |
| `HistoryMeaning.PromptExactly` | internal/provider/translate.go:76-106 | Over the JSON: refused if and only if the message said last is encrypted; else the last item is the prompt if and only if the user or an agent says it and it is more than white space |
| `TurnInput.ItemsExactly` | internal/provider/translate.go:55-71 | The items of a request are its system text as a message of the system's, then its messages, or in the Responses format its input list or its input text as a message of the user's |
| `GoText.TrimKeepsTheRest` | internal/provider/translate.go:345-348 | Trimming takes white space off both ends and keeps all between |
| `CursorError.StatusExactly` | internal/provider/errors.go:84-102 | The status in every case: the last one a failed provider gave if it is 429 or a server error, 502 if a provider failed otherwise; without such a failure 429 for an exhausted resource, or else Cursor's own, 502 if it has none |
| `CursorError.CodeExactly` | internal/provider/errors.go:84-113 | The code in every case: that of the last failed provider, or else Cursor's own, or else `cursor_upstream_error` |
| `CursorError.VerdictExactly` | internal/provider/errors.go:63-110 | A retry makes sense if and only if no hint forbids it and, without any hint, the status is 408, 500, 502, 503 or 504 |
| `CursorError.StatusIsRead` | internal/provider/errors.go:118-130 | A provider status is read from its decimal digits, quoted or bare, and kept if and only if it is between 400 and 599 |
| `CursorError.NoStatusOtherwise` | internal/provider/errors.go:118-130 | A text that is no number with at most one sign gives none |
| `Retry.WaitsExactly` | internal/provider/executor.go:111-136 | Within the validated limits there is one wait between any two attempts, the first as configured and each twice the one before; one more only if it was cut short, and then the error is the context's |
| `Catalog.EntriesInOrder` | internal/provider/model_catalog.go:65-100 | The entries come in the order of the catalogue |
| `Models.FilteredExactly` | internal/provider/models.go:77-115 | A model is kept if and only if it matches some allowed pattern, if any is named, and no denied one |
| `Models.FilteredInOrder` | internal/provider/models.go:79-99 | The models kept keep their order |

## Left out

- JSON text, server-sent event text and HTTP: frames and payloads are datatypes; printing and parsing are parameters.
- HTTP clients, TLS, timers, cancellation of a request in flight, the C interface, plugin registration, management routes and the quota page: plumbing.
- Goroutines and blocking: the event channel is the sequence of events still to come. A consumer that stops early leaves the producer waiting; nothing is claimed about that.
- The concurrency of `send`: one goroutine sends after the first message, so the mutex is not modelled.
- Whole-message Protocol Buffers decoding: `Session.ServerMessage` is what the loop looks at; a payload that cannot be decoded is skipped, as in the source.
- `CursorError.CursorStatusError`: does not model the message text, reset dates and `RetryAfter`; only code, status and retryability feed the retry loop.
- `Session.DecodeInvertsEncode`: works on decoded value messages; the source marshals each inner value again and decodes the bytes, and the Protocol Buffers library that does so is not part of this model.
- Numbers that JSON cannot print (NaN, infinities) in arguments: numbers are reals.
- Nil receivers and a nil emitter in `Pump`: their errors would be easy members.
- The start and stop of Claude's content blocks: the source sends text deltas without a start, so only folded content, one opening frame and one final stop are claimed.
- Claude's and the Chat format's own way back for namespaced tools: the Claude path reads no `tool_use` blocks and Chat carries the bare name only, so the identity round trip is the Responses format's.
- `History.RecordsOf`: one item's records are a function of expressions; the inner loop over `tool_calls` is a recursion there, not a method.
- `Models.NormalizedFamilies`: does not model display names; families are values in a map, where the source shares pointers to them within one call; no other code sees them before it returns.
- `Resolution.FamilyInfo`: does not model display names, descriptions, creation times and the capability lists that are the same for every model: presentation.
- The model cache, sorting of the discovered list and login: fetching happens outside the lock; the resolution results hold for a list in any order.
- The size limit on requests, the token estimate, and the choice of format by name: single comparisons or tables.
- `TurnInput.Prepare`: a history record that cannot be printed is not modelled; decoded JSON can always be printed.
- Quota percentages and token claims: small, mostly floating point or library work.
- Full Unicode case folding: `strings.EqualFold` and `strings.ToLower` are modelled on ASCII letters.
