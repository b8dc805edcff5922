# Verified models of goose

Dafny models of the parts of goose where a small slip does the most damage, with proofs of what they
promise. `dafny verify dfyconfig.toml` checks everything.

- **Model slots** (`ModelSlots.dfy`, `SlotInvariant.dfy`, `SlotProgress.dfy`, `SlotRuns.dfy`,
  `SlotOutcomes.dfy`, `InferenceRuntime.dfy`): streaming tasks that load, share and unload local models under per-slot locks,
  notifications and one cold-load lock, while evictions run alongside. `ModelSlots` gives one atomic section
  of a task as a function on states; invariants, absence of deadlock, termination and what becomes of every
  task are proved of every interleaving; `InferenceRuntime` is the object updated in place that takes exactly these steps. As in tokio,
  a `notified` future counts for `notify_waiters` once it exists.
  Loading and generating are steps that return; sending to the channel returns because the receiver drains
  it or is dropped.
- **Think filter** (`ThinkLexer.dfy`, `LongerText.dfy`, `ThinkStreams.dfy`, `ThinkSegments.dfy`,
  `ThinkDocuments.dfy`): the incremental
  lexer that separates thinking from content, its class with buffer, depth and flag, and its behaviour on
  whole streams and on documents of a grammar. A character stands for one byte.
- **Tool arguments** (`JsonScan.dfy`, `JsonSyntax.dfy`, `JsonDecoding.dfy`, `ToolArguments.dfy`,
  `WrappedArguments.dfy`): truncation detection, minimal
  repair and escaping, proved against concrete syntax trees of JSON (RFC 8259) that can print every text of
  every value.
- **Structured summaries** (`Markers.dfy`, `LeadingObject.dfy`, `Structured.dfy`, `CandidateOrder.dfy`): which objects of a model's
  reply may be taken for its answer.
- **Conversations** (`Messages.dfy`, `CleanPasses.dfy`, `ToolPairing.dfy`, `ToolCallingPass.dfy`,
  `RunMerging.dfy`, `SignedThinking.dfy`, `SignedCopies.dfy`, `Normalizer.dfy`, `RepairConserves.dfy`,
  `Visibility.dfy`): the nine repair passes, their
  normal form, and the wrapper that repairs only what the agent sees. The tool calls of a conversation are
  seen through one trace of requests and responses per id.
- **Repairing again** (`RunStructure.dfy`, `DedupedContent.dfy`, `RepairedShape.dfy`, `RepairAgain.dfy`,
  `RepairTwice.dfy`): which conversations one repair settles, told run by run from the conversation before
  merging, and families of conversations that it does not settle.
- **Streaming accumulators** (`Coalescing.dfy`, `StreamedBlocks.dfy`): pushing deltas onto a conversation and collecting them into
  one message.
- **Downloads** (`Resume.dfy`, `Shards.dfy`, `Lifecycle.dfy`): resuming after interruptions against a truthful
  server (RFC 9110, sections 14.2, 15.3.7 and 15.5.17), accounting over several files, and the life of an
  entry in the shared map. Server, disk and cancellation are a `World` that may answer differently at every
  moment.
- **Middle-out removal** (`MiddleOut.dfy`): which tool responses a summary leaves out.

`Sequences.dfy`, `FiniteSets.dfy`, `Whitespace.dfy` and `Wrappers.dfy` hold shared vocabulary.

Behaviour worth knowing, with the exact conditions; the models follow the code:

- One repair of a conversation need not be enough (`RepairTwice.RepairIsNotIdempotent`);
  `RepairAgain.RepairSettlesIff` says for which conversations it is.
- Dropping a leading assistant message can leave answers without requests
  (`RepairTwice.AnsweredLeadIsDropped`); `RepairAgain.FixedPairedIffLeadRun` says when.
- A second run of the tool-calling pass can still find something when ids are reused
  (`RepairTwice.ReaskedIsFoundAgain`); `ToolPairing.SecondRunCleanIff` says when.
- Removing all tool responses leaves the last one if their number is odd (`MiddleOut.AllRemovedIffEven`).
  The message that gives up a summary says otherwise.
- A start whose directories cannot be created leaves an entry that blocks its model id
  (`Lifecycle.OrphanExists`, `Lifecycle.OrphanedForever`) as far as the operations modelled here go.
- A think filter can show where a stream was cut, at a few prefixes that its hold-back patterns do not cover
  (`ThinkStreams.CutBehindBracketShows`); `ThinkStreams.CutIsUnobservableIffClean` says at which, and
  `ThinkStreams.PlainCutsIndependence` gives a condition on the text alone.

## Model

| member | source | states |
|---|---|---|
| SlotInvariant.StepKeepsInv | crates/goose-local-inference/src/lib.rs:726-891 | Every atomic step of every streaming or evicting task keeps the invariant: lock ownership matches where tasks are, a slot is Loading exactly while its loader runs, at most one model is in memory |
| SlotRuns.OneModelInMemory | crates/goose-local-inference/src/lib.rs:726-833 | In every state of every interleaving at most one slot is Loading, its loader holds the cold-load lock, loaded slots plus loads past the unload loop number at most one, and the inner Loading branch is never entered |
| SlotRuns.ModelInUseStays | crates/goose-local-inference/src/lib.rs:835-881 | While a task generates, its model is the only one loaded and the task holds the lock of its slot, so no eviction and no other load can take it away |
| SlotRuns.NoLostWakeup | crates/goose-local-inference/src/lib.rs:731-735 | A task whose notification has not come yet waits on a slot whose loader is alive and will notify it |
| SlotRuns.BlockedTasksHoldNoSlot | crates/goose-local-inference/src/lib.rs:739-752 | A task that cannot step holds no slot lock, so nobody waits for the cold-load lock while holding one |
| SlotProgress.NoDeadlock | crates/goose-local-inference/src/lib.rs:726-891 | As long as some task is unfinished, some task can step |
| SlotProgress.StepDecreases | crates/goose-local-inference/src/lib.rs:726-891 | Every step of every task decreases a natural number: retries after wake-ups, loads and evictions cannot go on for ever |
| SlotRuns.RunsFinish | crates/goose-local-inference/src/lib.rs:726-891 | Every run is bounded, and a run that cannot be continued has finished every task, with no lock taken and no slot left Loading; no fairness is assumed |
| SlotOutcomes.EverybodyGenerates | crates/goose-local-inference/src/lib.rs:723-891 | If all streaming tasks use one model, nobody evicts it, loads succeed and receivers stay, then in every run that cannot be continued every streaming task has generated |
| SlotOutcomes.ErrorMeansNotLoaded | crates/goose-local-inference/src/lib.rs:851-859 | A task complains about a missing model only while it holds the lock of a slot in which there is none |
| SlotOutcomes.EveryTaskAnswers | crates/goose-local-inference/src/lib.rs:723-891 | In every run, a finished streaming task has generated or reported an error, unless its receiver was gone when it announced the load |
| SlotOutcomes.FailedLoadIsReported | crates/goose-local-inference/src/lib.rs:778-806 | A load that fails is reported by the task that tried it, which never generates |
| SlotOutcomes.ReportedLoadFailed | crates/goose-local-inference/src/lib.rs:778-806 | Nothing but a failed load is reported as one |
| SlotOutcomes.LoadedIsNotReloaded | crates/goose-local-inference/src/lib.rs:729-731 | A task that finds its model loaded neither loads it again nor takes the cold-load lock, for the rest of the run |
| SlotOutcomes.SlotsChangeRightly | crates/goose-local-inference/src/lib.rs:726-833 | In every run, a slot changes only from empty to loading and on to loaded or back by a task for its own model, and from loaded to empty by a task that loads another model or an eviction of this one |
| SlotOutcomes.EvictionReachesAll | crates/goose-local-inference/src/lib.rs:215-237 | An eviction takes the lock of every slot of its model that is there when it starts, and leaves each without a model |
| SlotOutcomes.EvictionEmpties | crates/goose-local-inference/src/lib.rs:215-237 | When it has finished, each of them was without a model at some moment since it started |
| InferenceRuntime.Runtime.GetOrCreateModelSlot | crates/goose-local-inference/src/lib.rs:148-153 | Adds an empty slot for the key unless there is one |
| InferenceRuntime.Runtime.OtherModelSlots | crates/goose-local-inference/src/lib.rs:160-166 | Lists exactly the slots of the other keys |
| InferenceRuntime.Runtime.NotifyWaiters | crates/goose-local-inference/src/lib.rs:826-828 | Wakes every task waiting on the slot and no other |
| InferenceRuntime.Runtime.StepTask | crates/goose-local-inference/src/lib.rs:726-891 | One atomic section, written as updates in place, does what the step relation says, does nothing when blocked, and keeps the invariant |
| InferenceRuntime.Runtime.RunToEnd | crates/goose-local-inference/src/lib.rs:723-892 | Under any scheduler that picks some task that can step, the runtime goes through a run of the protocol within the bound, so that all that is said of runs holds of it, and ends with all tasks finished and everything quiet |
| InferenceRuntime.Runtime.RunEvict | crates/goose-local-inference/src/lib.rs:215-237 | An eviction lists the matching slots once, empties those that are loaded and wakes their waiters, and a section reports an eviction exactly if it emptied a loaded slot |
| ThinkLexer.ParseThinkTag | crates/goose-provider-types/src/thinking.rs:188-268 | The scanner with index and quote variables computes the tag and its end that the recursive definition gives |
| ThinkLexer.ContainsUnquotedGt | crates/goose-provider-types/src/thinking.rs:288-303 | Finds an unquoted closing bracket |
| ThinkLexer.NextBufferEvent | crates/goose-provider-types/src/thinking.rs:164-186 | Finds the first complete tag or held-back tail |
| ThinkLexer.ThinkFilter.ProcessBuffer | crates/goose-provider-types/src/thinking.rs:76-156 | The loop over buffer, depth and flag emits exactly what draining the buffer defines, keeps the flag equal to depth > 0 and the buffer within 8192 bytes |
| ThinkLexer.ThinkFilter.Push | crates/goose-provider-types/src/thinking.rs:58-61 | A push drains what was held back together with the chunk |
| ThinkLexer.ThinkFilter.Finish | crates/goose-provider-types/src/thinking.rs:63-74 | Finishing flushes what is held back to where the depth says |
| ThinkSegments.SplitThinkBlocks | crates/goose-provider-types/src/thinking.rs:9-16 | Splitting a text at once is filtering it as one chunk |
| ThinkSegments.FilterStream | crates/goose-provider-types/src/thinking.rs:49-74 | Pushing chunks and finishing is the fold of draining |
| ThinkSegments.StreamLosesNothing | crates/goose-provider-types/src/thinking.rs:58-156 | For every stream and every cutting, the input is the in-order concatenation of what is shown, what is kept as thinking and what is dropped; only single complete think tags are dropped |
| ThinkDocuments.DocumentSplits | crates/goose-provider-types/src/thinking.rs:9-156 | For every document of plain text, self-closing think tags and nested think blocks, the content is the text outside the blocks, in order, and the thinking is the text inside them; tags that are too long, or close nothing, count as text |
| ThinkDocuments.UnclosedSplits | crates/goose-provider-types/src/thinking.rs:9-156 | If the last block is never closed, all that follows its opening tag is thinking |
| ThinkDocuments.StreamedDocumentSplits | crates/goose-provider-types/src/thinking.rs:49-156 | The same for a document in chunks, if no cut leaves a prefix that the hold-back patterns miss |
| ThinkDocuments.MarkupIsTag | crates/goose-provider-types/src/thinking.rs:188-268 | Every tag as it may be written, with attributes, quoted values and white space, is recognised whole and for what it is |
| ThinkDocuments.NoTagPasses | crates/goose-provider-types/src/thinking.rs:164-268 | A bracket in front of any other name, or of a name that runs on, is neither a tag nor held back, whatever follows |
| ThinkDocuments.PlainComesOut | crates/goose-provider-types/src/thinking.rs:76-156 | Text without think tags comes out at once, as content outside a block and as thinking inside one |
| ThinkStreams.ChunkIndependence | crates/goose-provider-types/src/thinking.rs:49-156 | Cutting a text at clean cuts gives the same content and thinking as the one-shot split, for texts of any length in which no tag outgrows the buffer |
| ThinkStreams.PlainCutsIndependence | crates/goose-provider-types/src/thinking.rs:49-156 | The same under a condition on the text alone: at every cut, no end of the text so far is a lone bracket, a closing bracket and slash, or one of the other prefixes that the hold-back patterns miss |
| ThinkStreams.CutIsUnobservableIffClean | crates/goose-provider-types/src/thinking.rs:76-186 | The exact condition: a cut is never observable, by any continuation, if and only if what was consumed leaves nothing that the hold-back patterns fail to cover |
| ThinkStreams.LeakIsVisible | crates/goose-provider-types/src/thinking.rs:270-286 | If a cut is not clean, some continuation of at most six bytes shows it |
| ThinkStreams.CutBehindBracketShows | crates/goose-provider-types/src/thinking.rs:270-286 | A cut right behind the bracket of a think tag is such a cut |
| JsonScan.RepairTruncatedJson | crates/goose-provider-types/src/json.rs:29-75 | The loop with flags and a closer stack computes the repaired text of the scan |
| JsonScan.LooksTruncated | crates/goose-provider-types/src/json.rs:129-167 | The loop decides whether anything is unclosed or mismatched, trailing white space aside |
| JsonScan.JsonEscapeControlCharsInString | crates/goose-provider-types/src/json.rs:91-121 | The loop escapes raw control characters inside strings and nothing else |
| JsonScan.RepairIdempotent | crates/goose-provider-types/src/json.rs:29-75 | A repaired text has nothing open, and repairing it again changes nothing |
| JsonScan.RepairBalances | crates/goose-provider-types/src/json.rs:29-75 | Repair balances a text exactly if it has no mismatched closer |
| JsonScan.RepairIsMinimal | crates/goose-provider-types/src/json.rs:29-75 | No shorter suffix balances the text than the one repair appends |
| JsonScan.EscapeKeepsTruncated | crates/goose-provider-types/src/json.rs:91-167 | Escaping never changes whether a text looks truncated |
| JsonScan.RepairEscapeCommute | crates/goose-provider-types/src/json.rs:14-24 | Repairing and escaping commute on every string |
| JsonDecoding.EscapeKeepsMeaning | crates/goose-provider-types/src/json.rs:91-121 | Escaping changes nothing about the string that a text between quotes stands for |
| JsonDecoding.RawDecodes | crates/goose-provider-types/src/json.rs:91-121 | The escaped form of a raw string without backslashes stands for that string |
| JsonDecoding.NoControlLeft | crates/goose-provider-types/src/json.rs:91-121 | No raw control character is left |
| JsonSyntax.CompleteIsNotTruncated | crates/goose-provider-types/src/json.rs:129-167 | No text of any JSON value, with any white space around it, looks truncated or is changed by repair |
| JsonSyntax.PrefixIsTruncated | crates/goose-provider-types/src/json.rs:129-167 | Every proper non-empty prefix of every text of an object or array looks truncated |
| ToolArguments.TruncatedArgumentsRejected | crates/goose-provider-types/src/json.rs:270-297 | Tool arguments cut anywhere inside an object or array are rejected, given a parser that accepts only balanced text |
| ToolArguments.CompleteArgumentsRepaired | crates/goose-provider-types/src/json.rs:9-27 | Complete arguments the parser rejects are offered to it once more, escaped |
| WrappedArguments.NothingIsEmptyObject | crates/goose-provider-types/src/json.rs:270-273 | No arguments are the empty object |
| WrappedArguments.FenceStripped | crates/goose-provider-types/src/json.rs:216-226 | An object or array in a Markdown fence, with or without a language, is what the fence is stripped to |
| WrappedArguments.TagsStripped | crates/goose-provider-types/src/json.rs:228-244 | An object or array between tags, with or without attributes, is what they are stripped to |
| WrappedArguments.OtherTagsStay | crates/goose-provider-types/src/json.rs:228-237 | A tag with any other character in its name wraps nothing |
| WrappedArguments.WrappedArgumentsParsed | crates/goose-provider-types/src/json.rs:270-297 | What a wrapper is stripped to is parsed as it is, or else escaped |
| WrappedArguments.CutInFenceRejected | crates/goose-provider-types/src/json.rs:216-297 | Arguments cut anywhere inside an object or array behind an opened fence are rejected |
| WrappedArguments.CutInTagRejected | crates/goose-provider-types/src/json.rs:228-297 | So they are behind an opened tag |
| LeadingObject.FindBraceEnd | crates/goose-context-management/src/structured.rs:261-284 | The brace counter finds the end of the shortest closed prefix; its depth never goes below zero |
| LeadingObject.FindLeadingObject | crates/goose-context-management/src/structured.rs:255-287 | Finds the object at the start of a text, white space aside |
| LeadingObject.LeadingObjectFound | crates/goose-context-management/src/structured.rs:255-287 | In front of anything, the text of any JSON object is found whole |
| Markers.PartHasAllIffSameCount | crates/goose-context-management/src/structured.rs:231-236 | A part of a text counts as many markers as the whole exactly if it contains every one of them |
| Structured.JsonCandidates | crates/goose-context-management/src/structured.rs:216-241 | The loop over the cuts collects the candidates, last cut first, and drops repeats |
| Structured.CandidatesAreSafe | crates/goose-context-management/src/structured.rs:216-241 | Every candidate other than a leading object of the whole reply lies behind some terminator, if there is any, and contains every later one |
| Structured.DocumentIsCandidate | crates/goose-context-management/src/structured.rs:216-252 | Any prefix, a terminator, a fence and any JSON object, even one that quotes fences or terminators, followed by terminator-free text, yield the object as a candidate |
| CandidateOrder.UnfencedDocumentIsCandidate | crates/goose-context-management/src/structured.rs:216-252 | A JSON object that follows the terminator without a fence is a candidate, too |
| CandidateOrder.FencedWithoutTerminator | crates/goose-context-management/src/structured.rs:216-252 | In a reply without any terminator an object in a fence is a candidate wherever the fence stands |
| CandidateOrder.OpeningDocumentIsCandidate | crates/goose-context-management/src/structured.rs:239-239 | So is an object that the whole reply starts with, whatever follows |
| CandidateOrder.CandidatesDescend | crates/goose-context-management/src/structured.rs:225-252 | The candidates are tried from the last to the first: each starts in front of the one before it |
| CleanPasses.JoinTextsKeepsText | crates/goose-provider-types/src/conversation.rs:296-319 | Joining texts keeps what every audience reads, in order, and every other block |
| CleanPasses.JoinedIsApart | crates/goose-provider-types/src/conversation.rs:296-319 | After joining no two neighbouring texts have the same audience |
| CleanPasses.JoinTextsGentle | crates/goose-provider-types/src/conversation.rs:321-334 | The pass reports exactly the messages with neighbouring texts to join, changes no other, and leaves tool calls, roles and metadata alone |
| CleanPasses.TrimEndCuts | crates/goose-provider-types/src/conversation.rs:336-360 | Trimming cuts white space off the end and nothing else |
| CleanPasses.TrimGentle | crates/goose-provider-types/src/conversation.rs:336-360 | The pass reports exactly the assistant texts that end in white space and changes nothing else |
| CleanPasses.DropEmptyGentle | crates/goose-provider-types/src/conversation.rs:362-380 | Removing an empty message is reported and removes no tool call |
| CleanPasses.FillKeepsResults | crates/goose-provider-types/src/conversation.rs:384-424 | Every tool result says something afterwards, and what it said before is still there |
| CleanPasses.FillGentle | crates/goose-provider-types/src/conversation.rs:399-424 | The pass reports exactly the messages with an empty tool result and changes no other |
| ToolCallingPass.RemoveAll | crates/goose-provider-types/src/conversation.rs:495-497 | Removing noted indices back to front leaves exactly the other blocks |
| ToolCallingPass.SiftMessage | crates/goose-provider-types/src/conversation.rs:430-497 | The loop over one message removes misplaced blocks and answers nobody asked for |
| ToolCallingPass.FixToolCallingByRemoval | crates/goose-provider-types/src/conversation.rs:426-519 | The two sweeps with a set of pending requests compute the tool-calling pass |
| ToolPairing.FixedTraceOf | crates/goose-provider-types/src/conversation.rs:426-519 | What the pass does to each id depends on that id alone: unasked answers go, and every request of an id that ends unanswered |
| ToolPairing.ToolCallingCleanIff | crates/goose-provider-types/src/conversation.rs:426-519 | The pass reports nothing exactly if blocks stand in messages of the right role, the events of every id have the form (request+ response)*, and no message is empty; then it changes nothing |
| ToolPairing.PairedAfterFix | crates/goose-provider-types/src/conversation.rs:426-519 | With distinct request ids every id is afterwards asked for once and answered once, or not mentioned |
| ToolPairing.RequestBeforeResponse | crates/goose-provider-types/src/conversation.rs:426-519 | A paired request stands in a strictly earlier message than its answer |
| ToolPairing.SecondRunClean | crates/goose-provider-types/src/conversation.rs:426-519 | With distinct request ids a second run reports nothing and changes nothing |
| ToolPairing.SecondRunCleanIff | crates/goose-provider-types/src/conversation.rs:501-517 | For any conversation a second run reports nothing exactly if no id is asked for again after its answer and then left open |
| RunMerging.MergeConsecutive | crates/goose-provider-types/src/conversation.rs:533-557 | The loop merges a message into the last one exactly when they join |
| RunStructure.MergedAreRuns | crates/goose-provider-types/src/conversation.rs:533-557 | Message p after merging is exactly the p-th maximal run of one role and visibility, with the blocks of the whole run in order and the other fields of its first message |
| RunMerging.MergedHasNoJoins | crates/goose-provider-types/src/conversation.rs:533-557 | Afterwards no two neighbours could be merged any more |
| RunMerging.MergeIdempotent | crates/goose-provider-types/src/conversation.rs:523-531 | Both forms of merging are idempotent |
| RunMerging.MergeKeepsContents | crates/goose-provider-types/src/conversation.rs:533-557 | Merging keeps every block, in order |
| RunMerging.MergeConfluent | crates/goose-provider-types/src/conversation.rs:523-531 | Merging within visibility and then for the request equals merging for the request |
| RunMerging.RequestAlternates | crates/goose-provider-types/src/conversation.rs:526-531 | In the request form neighbours have different effective roles |
| RepairConserves.RequestTurnsApart | crates/goose-provider-types/src/conversation.rs:526-531 | The same told by kinds of blocks: neighbours have different roles, or exactly one of them answers tools |
| RunMerging.AssistantTurnCount | crates/goose-agent/src/operation.rs:44-58 | The backward count equals the number of assistant messages in the request form |
| SignedThinking.DedupeSignedThinkingInOrder | crates/goose-provider-types/src/conversation.rs:589-622 | The loop with the list of seen blocks computes the pass |
| SignedThinking.DedupeInKeeps | crates/goose-provider-types/src/conversation.rs:603-614 | Blocks that are not signed all stay; of signed ones the first copy stays |
| SignedThinking.DedupeAllKeeps | crates/goose-provider-types/src/conversation.rs:589-622 | The signed blocks of the assistant messages afterwards are distinct and are the same ones as before |
| SignedThinking.DedupeCleanIff | crates/goose-provider-types/src/conversation.rs:589-622 | The pass reports nothing exactly if no signed block repeats; then it changes nothing |
| SignedCopies.SignedKeptOnce | crates/goose-provider-types/src/conversation.rs:561-622 | Of a thinking block with a signature the assistant messages keep exactly one copy, if they have any |
| SignedCopies.RedactedKeptOnce | crates/goose-provider-types/src/conversation.rs:561-622 | So they do of redacted thinking |
| SignedCopies.OthersKept | crates/goose-provider-types/src/conversation.rs:561-622 | All copies of every other block stay, thinking without a signature among them, and user messages keep everything |
| RepairConserves.FirstCopyStays | crates/goose-provider-types/src/conversation.rs:603-614 | Of several copies of signed thinking the first one stays, where it is |
| Normalizer.LeadTrailCleanIff | crates/goose-provider-types/src/conversation.rs:663-681 | Nothing is removed at the ends, and nothing reported, exactly if the conversation starts and ends with the user or is empty |
| Normalizer.LeadTrailTrace | crates/goose-provider-types/src/conversation.rs:663-681 | In a paired conversation the ends pass takes away exactly the requests of a first message that asks, and leaves their answers; the trace of every other id is untouched |
| Normalizer.FixMessagesInOrder | crates/goose-provider-types/src/conversation.rs:273-294 | The nine passes with their loops, in order, with their complaints |
| Normalizer.FixIssuesIff | crates/goose-provider-types/src/conversation.rs:273-294 | Repair reports nothing exactly if the conversation is in a declarative normal form of nine conditions; then it changes nothing |
| Normalizer.NewConversation | crates/goose-provider-types/src/conversation.rs:24-29 | A conversation is accepted, unchanged, exactly if it is in normal form; otherwise it is handed back with the complaints |
| RepairConserves.AcceptedIff | crates/goose-provider-types/src/conversation.rs:273-294 | Repair reports nothing exactly if the user is at both ends, blocks stand where their kind may, results and messages have something in them, assistant texts are trimmed and joined, calls are answered in order, turns are merged and no signed thinking is repeated, each told by kinds of blocks alone |
| RepairConserves.RepairedIsGood | crates/goose-provider-types/src/conversation.rs:273-294 | Every repaired conversation has blocks only where their kind may stand, no empty results, no white space behind assistant texts, merged turns, and no signed thinking twice, whatever came in |
| RepairConserves.ConsolidateKeepsNeutral | crates/goose-provider-types/src/conversation.rs:273-294 | Up to the seventh pass no copy of an image, notification, error, confirmation request, unsigned thought or non-empty user text is lost |
| RepairConserves.RepairKeepsUserBlocks | crates/goose-provider-types/src/conversation.rs:273-294 | Nothing that the user said or showed is lost by the whole repair |
| SignedCopies.NoSignedReplay | crates/goose-provider-types/src/conversation.rs:273-294 | In every repaired conversation each thinking block with a signature, and each redacted one, occurs at most once |
| Normalizer.FixedFits | crates/goose-provider-types/src/conversation.rs:273-294 | Repair never lengthens a conversation that is not empty and never empties one, whoever sees its messages |
| Normalizer.FixedStaysVisible | crates/goose-provider-types/src/conversation.rs:273-294 | What the agent sees stays visible to it |
| Normalizer.FixedAlternates | crates/goose-provider-types/src/conversation.rs:273-294 | With one visibility and turn context, the result starts and ends with the user, alternates between effective roles and repeats no signed block |
| Normalizer.FixedPairedIff | crates/goose-provider-types/src/conversation.rs:273-294 | With distinct request ids the result pairs every call exactly if the message dropped at the front, if any, makes no call |
| Normalizer.FixedPaired | crates/goose-provider-types/src/conversation.rs:273-294 | In particular it does if the first message that survives the first five passes is the user's |
| RepairAgain.FixedPairedIffLeadRun | crates/goose-provider-types/src/conversation.rs:273-294 | The same, told from the conversation before merging: exactly if its first run, when it is an assistant run, makes no call |
| RepairAgain.SecondRepairIff | crates/goose-provider-types/src/conversation.rs:273-294 | A second repair finds nothing exactly if what the ends pass leaves is nothing, or has no neighbouring texts, no empty message, no call asked for out of order, and the user at both ends; the other five conditions of the normal form always hold by then |
| RepairAgain.RepairSettlesIff | crates/goose-provider-types/src/conversation.rs:273-294 | For every conversation, one repair is enough exactly if, after the tool-calling pass and before merging, no remaining run has texts that meet across a seam or a removed repetition, or nothing but repetitions and empty texts, no id is asked for again after its answer and left open, the dropped first run asks for nothing answered later, and neither end has a second assistant run; or if nothing remains at all |
| RepairAgain.TidySettlesIff | crates/goose-provider-types/src/conversation.rs:273-294 | For a conversation whose texts are tidy and whose calls are in order the condition is one on the conversation itself |
| RepairTwice.RepairIsNotIdempotent | crates/goose-provider-types/src/conversation.rs:273-294 | A second repair is really needed for a whole family of conversations: merging put two texts side by side |
| RepairTwice.LeadingCallIsDropped | crates/goose-provider-types/src/conversation.rs:663-672 | Repair breaks every tidy and paired conversation whose first message makes a call |
| RepairTwice.AnsweredLeadIsDropped | crates/goose-provider-types/src/conversation.rs:663-672 | There are such conversations: a call, its answer, and a question |
| RepairTwice.ReaskedIsFoundAgain | crates/goose-provider-types/src/conversation.rs:501-517 | There are conversations whose second tool-calling run finds something: a call, its answer, and the same id again |
| RepairedShape.ConsolidatedShape | crates/goose-provider-types/src/conversation.rs:273-294 | After the first seven passes no assistant text ends in white space, no tool result is empty, blocks stand in messages of the right role, no neighbours could be merged and no signed block repeats, whatever came in |
| DedupedContent.ApartIff | crates/goose-provider-types/src/conversation.rs:603-614 | Removing repetitions leaves two texts for the same audience side by side exactly if they already were, or only repetitions stood between them |
| DedupedContent.EmptyIff | crates/goose-provider-types/src/conversation.rs:603-614 | Removing repetitions leaves an empty message exactly if it held nothing but empty texts and repetitions |
| Visibility.BuildShadowMap | crates/goose-provider-types/src/conversation.rs:245-258 | The visible messages and the places of all messages |
| Visibility.FixCommutesWithProjection | crates/goose-provider-types/src/conversation.rs:235-271 | If the agent sees anything, projecting the repaired conversation is repairing the projection, and the messages it does not see are unchanged and in order |
| Visibility.FixKeepsPlaces | crates/goose-provider-types/src/conversation.rs:263-269 | Hidden messages stay in place and the k-th repaired message goes where the k-th visible one was |
| Visibility.NothingVisible | crates/goose-provider-types/src/conversation.rs:235-271 | If the agent sees nothing, nothing changes although a placeholder is reported |
| Coalescing.Conversation.Push | crates/goose-provider-types/src/conversation.rs:50-120 | Pushing a message: notes about inference, deltas of the same message, and new messages |
| Coalescing.Conversation.ExtendWith | crates/goose-provider-types/src/conversation.rs:138-145 | Pushing several messages is the fold of pushing one |
| Coalescing.NoteTarget | crates/goose-provider-types/src/conversation.rs:55-62 | A note goes to the last message it fits |
| Coalescing.CollectStream | crates/goose-provider-types/src/base.rs:381-456 | Collects a stream: the joined message and last usage, the first error, or the stated fallbacks |
| Coalescing.CoalescersAgree | crates/goose-provider-types/src/conversation.rs:74-117 | Single-block messages of one id become one message when pushed, whose content is what collecting them gives |
| Coalescing.CoalescersAgreeIff | crates/goose-provider-types/src/base.rs:397-444 | For deltas of any length the two agree exactly if the delta is a single block or there is no text to join |
| Coalescing.PushConserves | crates/goose-provider-types/src/conversation.rs:50-120 | Pushing any message onto any conversation adds what it says at the end, every character of text with its audience, of thinking, and every other block, in one order, and nothing else |
| Coalescing.StreamConserves | crates/goose-provider-types/src/conversation.rs:50-120 | So does pushing any stream |
| Coalescing.CollectConserves | crates/goose-provider-types/src/base.rs:397-444 | Collecting one more delta, of any length, adds exactly what it says, in order |
| Coalescing.CollectedConserves | crates/goose-provider-types/src/base.rs:397-444 | The message collected from a stream says exactly what the messages of the stream say, in order; there is none exactly if the stream has no messages |
| Coalescing.PushKeepsSigned | crates/goose-provider-types/src/conversation.rs:50-120 | Whatever is pushed onto a conversation, each of its signed blocks stays in place and changes at most by growing by a one-block delta with its own signature |
| Coalescing.SignedGrowsByItsOwn | crates/goose-provider-types/src/conversation.rs:93-112 | The same for the blocks of one message that is joined by a delta |
| Coalescing.SignedStays | crates/goose-provider-types/src/conversation.rs:93-112 | Through any sequence of pushes onto a conversation a signed block keeps its place and signature, and what it said stays at its front |
| Coalescing.SignedUntouched | crates/goose-provider-types/src/conversation.rs:93-112 | Pushes without deltas of its signature leave it exactly as it is |
| Coalescing.CollectKeepsSigned | crates/goose-provider-types/src/base.rs:397-444 | Collecting keeps the signed blocks collected so far in the same way |
| Coalescing.CollectedSignedStays | crates/goose-provider-types/src/base.rs:397-444 | Whatever the rest of a stream brings, a signed block collected so far keeps its place, its signature and what it said, and stays exactly as it is without deltas of its signature |
| StreamedBlocks.SignatureArrives | crates/goose-provider-types/src/conversation.rs:93-112 | Every signature that arrives on a thinking delta stands on a thinking block of the conversation in the end |
| StreamedBlocks.CollectedSignatureArrives | crates/goose-provider-types/src/base.rs:397-444 | So it does on the message collected from a stream |
| StreamedBlocks.ThinkingIsClosed | crates/goose-provider-types/src/conversation.rs:74-117 | Thinking deltas of one message, unsigned up to the last, become one block with all of the thinking and the signature |
| StreamedBlocks.CollectedThinkingIsClosed | crates/goose-provider-types/src/base.rs:397-444 | Collecting closes it in the same way |
| StreamedBlocks.TextIsOneBlock | crates/goose-provider-types/src/conversation.rs:74-117 | Text deltas of one message for one audience become one block |
| StreamedBlocks.CollectedTextIsOneBlock | crates/goose-provider-types/src/base.rs:397-444 | So they do when collected |
| StreamedBlocks.BlocksStandApart | crates/goose-provider-types/src/conversation.rs:83-117 | A delta of another kind, for another audience, or with another signature than a signed block, stands behind it |
| StreamedBlocks.NoteLands | crates/goose-provider-types/src/conversation.rs:50-69 | A note changes what one message says about its inference and nothing else: the last one of its role that the user sees and, for a limit, that has its id |
| StreamedBlocks.NoteWithoutMessage | crates/goose-provider-types/src/conversation.rs:70-74 | A note about no message is dropped, unless it says that the limit was reached: that becomes a message only the user sees |
| StreamedBlocks.MessagesJoinById | crates/goose-provider-types/src/conversation.rs:76-120 | A message joins the last one exactly if it has its id; otherwise it stands behind it as it is |
| StreamedBlocks.CollectedIsFirst | crates/goose-provider-types/src/base.rs:390-456 | What is collected is the first message of the stream with more content |
| StreamedBlocks.LastUsageCounts | crates/goose-provider-types/src/base.rs:390-456 | The usage that counts is the last one of the stream |
| Resume.Downloader.OpenAt | crates/goose-download-manager/src/lib.rs:559-568 | Opening the partial file cuts it to the bytes that count, so leftovers of a failed removal go |
| Resume.Downloader.Receive | crates/goose-download-manager/src/lib.rs:573-631 | The chunk loop looks for a cancellation before each chunk, appends what arrives, so that file and cumulative bytes grow alike, and notices a flush that fails |
| Resume.Downloader.MayRetry | crates/goose-download-manager/src/lib.rs:480-494 | A retry is granted only while there are retries left and no look during the wait finds a cancellation; otherwise the download fails with the cause given, or as aborted |
| Resume.Downloader.Round | crates/goose-download-manager/src/lib.rs:468-654 | One round of the request loop: what holds at the loop head holds again, that the partial file grew from the one found or starts afresh and has as many bytes as are counted among it, and each further round uses up retries or makes progress |
| Resume.Downloader.Exchange | crates/goose-download-manager/src/lib.rs:474-652 | Asking, taking the reply and waiting: each request asks from where the partial file ends, and as long as no range is refused the partial file only grows |
| Resume.Downloader.Fetch | crates/goose-download-manager/src/lib.rs:468-654 | Each request asks for the bytes behind those in the partial file as it is then; at most 22 requests are sent, each right after a look that found no cancellation; giving up is always for a stated cause |
| Resume.HeldIsPrefix | crates/goose-download-manager/src/lib.rs:468-479 | If the partial file found was a beginning of the content, then at every request for a rest the partial file is exactly the bytes of the content before it |
| Resume.Downloader.DownloadOneFile | crates/goose-download-manager/src/lib.rs:425-658 | The first request asks for everything behind the partial file found, for everything if that is longer than HEAD says, and there is none if it is complete; as long as no range is refused, requests ask from further and further on, each from exactly where the partial file ends, which keeps what was found. Success puts the content, or the content spliced onto the partial file found, at the destination, and the cumulative count changes by exactly the change on disk; failure leaves a partial file that grew from the old one or from nothing |
| Resume.Downloader.Handle | crates/goose-download-manager/src/lib.rs:479-652 | One reply completes the file, is retried for a transient cause, restarts the file once, or ends the download for a stated cause |
| Resume.NoRequestAfterCancel | crates/goose-download-manager/src/lib.rs:468-472 | Once a cancellation stays, no request is sent later than right after it |
| Resume.SpliceIsRightIffPrefix | crates/goose-download-manager/src/lib.rs:439-455 | Resuming gives the right file exactly if the partial file was a beginning of it |
| Resume.HarmlessIsRight | crates/goose-download-manager/src/lib.rs:439-455 | A partial file that is a beginning of the content, or longer than it, never spoils the result |
| Shards.Prescan | crates/goose-download-manager/src/lib.rs:380-395 | The count starts as the bytes on disk over all files |
| Shards.DownloadNext | crates/goose-download-manager/src/lib.rs:397-419 | One file more: the count and the files, and which bytes are asked for, follow from what was found of it on disk |
| Shards.DownloadFilesSequentially | crates/goose-download-manager/src/lib.rs:346-419 | For any list of files requests and causes are bounded and stated; if no destination is another one or its partial path, the requests for each file resume what was found of it at the start, none for a file that is there, success leaves every file finished and the count equal to the bytes on disk, failure finishes the files before the failing one and does not touch those behind it, and a cancellation found at the first look changes nothing |
| Shards.InterruptedIsSound | crates/goose-download-manager/src/lib.rs:397-419 | Whatever interrupts a download, what it leaves can be resumed: no wrong file and no misleading partial file appears |
| Shards.RunTask | crates/goose-download-manager/src/lib.rs:269-307 | For any list of files, failure has a stated cause and leaves no partial file if files can be removed; if no destination is another one or its partial path, the task keeps the disk sound and delivers every file exactly on success |
| Lifecycle.DownloadManager.ReserveDownload | crates/goose-download-manager/src/lib.rs:126-142 | Inserts an entry unless one is downloading or being cancelled |
| Lifecycle.DownloadManager.BeginDownload | crates/goose-download-manager/src/lib.rs:220-252 | The guarded start, with the same guard |
| Lifecycle.DownloadManager.CancelDownload | crates/goose-download-manager/src/lib.rs:152-164 | Marks an entry cancelled, whatever its status |
| Lifecycle.DownloadManager.ExitTask | crates/goose-download-manager/src/lib.rs:278-305 | Records the end: success overrides a cancellation, failure does not |
| Lifecycle.DownloadManager.ClearCompleted | crates/goose-download-manager/src/lib.rs:660-671 | Removes an entry that is over and whose task has exited, and no other |
| Lifecycle.StepKeepsInv | crates/goose-download-manager/src/lib.rs:220-307 | Every start, reservation, cancellation, clearing, progress report and exit keeps: a live task owns its unfinished entry and shares it with no other live task |
| Lifecycle.OneTaskPerModel | crates/goose-download-manager/src/lib.rs:220-252 | In every interleaving there is at most one live task per model id |
| Lifecycle.EntryKeptWhileLive | crates/goose-download-manager/src/lib.rs:126-164 | Over any part of a run, the entry of a live task is neither removed nor replaced, no end is recorded, and a cancellation stays |
| Lifecycle.SecondStartRefused | crates/goose-download-manager/src/lib.rs:226-237 | While a task lives, starting or reserving its model again changes nothing |
| Lifecycle.CancelMarks | crates/goose-download-manager/src/lib.rs:152-164 | A cancellation marks its entry, if there is one, and changes nothing else |
| Lifecycle.StartBegins | crates/goose-download-manager/src/lib.rs:226-252 | A start makes a task and a fresh entry, unless a download of the model runs or is still being cancelled |
| Lifecycle.ClearRemoves | crates/goose-download-manager/src/lib.rs:660-671 | Clearing removes an entry exactly if it is not downloading any more and its task has exited |
| Lifecycle.ReportCounts | crates/goose-download-manager/src/lib.rs:611-622 | A report changes the two counts of its own entry and nothing else |
| Lifecycle.CancelledDownloadEnds | crates/goose-download-manager/src/lib.rs:152-307 | A running download that is cancelled stays cancelled through every run until it exits, ends as cancelled if it fails and as completed if it succeeds, and can then be cleared |
| Lifecycle.ExitStatus | crates/goose-download-manager/src/lib.rs:276-307 | The status after the exit, and that the entry can then be cleared or replaced |
| Lifecycle.GoneNeverActs | crates/goose-download-manager/src/lib.rs:276-307 | In every run, a task that has exited never acts again |
| Lifecycle.OrphanedForever | crates/goose-download-manager/src/lib.rs:255-261 | An unfinished entry without a task can never again be started, cleared or finished |
| Lifecycle.OrphanExists | crates/goose-download-manager/src/lib.rs:255-261 | Two steps from the empty map make one: a start, and directories that cannot be created |
| Lifecycle.OrphanedExactlyBy | crates/goose-download-manager/src/lib.rs:255-261 | Exactly three kinds of step create such an entry, a start whose directories cannot be created among them |
| MiddleOut.CollectFromMiddle | crates/goose-context-management/src/summarize.rs:54-69 | The counted loop collects a contiguous window of tool positions around the middle |
| MiddleOut.FilterToolResponses | crates/goose-context-management/src/summarize.rs:37-77 | Keeps every message outside that window |
| MiddleOut.WindowSize | crates/goose-context-management/src/summarize.rs:54-69 | The window has the size asked for, but one less if an odd number is to be removed altogether |
| MiddleOut.AttemptsNested | crates/goose-context-management/src/summarize.rs:14-14 | Each attempt of a summary removes all that the attempt before removed |
| MiddleOut.FilteredParts | crates/goose-context-management/src/summarize.rs:71-77 | The tool responses that remain are those before and behind the window; all other messages remain, in order |
| MiddleOut.RemovedFromTheMiddle | crates/goose-context-management/src/summarize.rs:37-77 | What is removed is one stretch of the tool responses in the middle, as many in front of it as behind, give or take two: the given part of them, rounded down, but one at least unless there is only one |
| MiddleOut.AttemptsSpanAll | crates/goose-context-management/src/summarize.rs:14-14 | The first attempt removes nothing; the last one asks for everything |
| MiddleOut.AllRemovedIffEven | crates/goose-context-management/src/summarize.rs:54-69 | Removing 100 percent removes every tool response exactly if their number is even; otherwise the last one stays |

## Left out

- ThinkLexer.ParseThinkTag: tag names and white space are matched over ASCII; the two partial-tag patterns are written out as predicates, without Unicode white space or Unicode case folding.
- ThinkLexer.NextBufferEvent: the hold-back patterns are modelled over ASCII, a character standing for one byte; Unicode white space, and the Kelvin sign, which folds to `k`, are not recognised by the model.
- ThinkLexer.ThinkFilter.ProcessBuffer: shrinking the buffer's capacity has no observable effect and is not modelled.
- ToolArguments.TruncatedArgumentsRejected: the strict parser and the unwrapping of double-encoded objects are parameters.
- InferenceRuntime.Runtime.RunEvict: the flag is given for each atomic section; collecting it over the loop is not modelled, and neither are `is_model_loaded` and `loaded_model_ids`.
- InferenceRuntime.Runtime.RunLoad: what is loaded, logged and sent is not modelled, only that loading may succeed or fail and that the receiver may be gone.
- Resume.Downloader.DownloadOneFile: total size, speed, remaining time and percentage are progress display and not modelled; reading the size of an existing file does not fail; bearer tokens are not modelled.
- Resume.Downloader.Get: a truthful server answers a request for a file with success only as 200 or 206; other success codes are excluded.
- Shards.DownloadFilesSequentially: if a destination repeats, or is the partial path of another one, nothing is claimed about file contents or the count; the sizes asked for beforehand only feed the progress display.
- Shards.RunTask: the same holds of its claims about delivered files.
- Lifecycle.OrphanedForever: `set_progress` and `update_progress` write an entry without any guard and can undo anything stated here; the local-inference crate uses them to mark downloads as failed.
- Lifecycle.EntryKeptWhileLive: a poisoned lock, and the callback after completion, are not modelled.
- CleanPasses.TrimGentle: annotations of a text other than its audience, and creation times of messages, are not modelled; metadata that no pass reads is one opaque field.
- CleanPasses.FillKeepsResults: the text extracted from a resource is given with the resource, not decoded.
- Coalescing.CollectStream: usage is opaque.
- MiddleOut.FilterToolResponses: rendering the history and calling the model are not modelled; the retry loop only walks the percentages.
- The recovery of tool calls from text, retries of providers, registry updates, model recommendation and cache breakpoints are not modelled.
- HTTP, the file system, the tokio runtime, clocks, serialization and templates are outside the models.
