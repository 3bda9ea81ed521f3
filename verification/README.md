# agent-wire: verified models

agent-wire drives coding agents of many vendors through one session interface. Its
hard parts are small: mutex protocols that several goroutines enter, streaming folds
over vendor events, and a line-level TOML editor. This project models those parts in
Dafny and proves what they promise. `dafny verify dfyconfig.toml` checks all of it.

## How the models are built

- **Protocols** (`Outbox`, `JsonRpc`, `AcpTurn`, `Pump`, `ModelCache`, `ModelRenewal`,
  `Lifecycle`, `LifecycleProgress`). A
  class has the fields that the mutex guards, and one method per critical section.
  Each method is proved equal to a section function. A machine takes the same section
  functions, and the other atomic actions, as steps of any number of callers. A step
  that is not enabled changes nothing, so every sequence of steps is a run, and the
  theorems quantify over all sequences.
- **Streams** (`Framing`, `SplitArgs`, `ModelStream`, `OpenAiStream`,
  `AnthropicStream`, `CodexUsage`, `TextDeltas`, `ClaudeTools`). Loops and objects are
  imperative, proved against a state-passing function, which is then related to an
  independent description of the result.
- **The native session** (`NativeSession`, `NativeDialogue`). The context, the hooks, the compactor, the
  model, the tools and the store answer by a script that is a function of the round,
  so a theorem holds for every environment.
- **The TOML editor** (`TomlText`, `Toml`, `TomlFold`, `TomlEdit`, `TomlRemove`,
  `TomlKeys`). The meaning of a file is the map that `tomlValues` reads: the last value
  of each key. To say what an edit does with repeated keys, the model speaks of the
  *history* of a key: all its values in the order of the file. A file is *well-formed*
  when it has no `[[...]]` line, no empty table name, and no dot in a bare key.

## What the proofs found

- **A repeated key keeps its last value.** `setTOMLRaw` replaces the first line of a
  key, `tomlValues` reads the last. Setting is an update of the map exactly when the key
  had at most one value, or its last value is the new one already
  (`TomlKeys.SetIsUpdateIff`). `MergeKeys` inherits this (`TomlKeys.MergeIsOverlayIff`).
- **A key in a later copy of its table is not removed.** `removeTOMLKey` does not fold
  the table as `setTOMLRaw` does (`TomlKeys.RemoveIsDeleteIff`, `LaterCopyIsMissed`). So
  `DropKeys` is the map minus the keys exactly when all values of each key stand in the
  first copy of its table, and the key is listed at least as often as it has values
  (`TomlKeys.DropIsMinusIff`).
- **Concurrent flushes clear `flushing` early.** The flag is exact, with at most one
  flush under way, at every moment of a run if and only if the flushes are serialized
  (`Outbox.OneExactFlushIffSerialized`). The flag alone is exact throughout if and only if
  no `Flush` starts empty, and none ends, while another one carries a batch
  (`Outbox.FlagIsAlwaysExactIff`, `ConcurrentFlushClearsFlushing`).
- **A failed prompt leaves an ACP session busy.** `EncodePrompt` takes the latch before
  it reads the attachments, and `Session.Prompt` writes the frame after that. The latch
  says that a prompt is out exactly when the content loads and the write succeeds;
  otherwise no answer to a written request gives it back (`AcpTurn.LatchIsExactIffWritten`,
  `FailedPromptSticks`).
- **The exit event need not be the last.** `internal/wire/event.go:34` says that it
  always is; an emit that waits for the lock meanwhile comes behind it. The last event
  sent stays the last if and only if the channel is closed or every emit that began is
  through (`Lifecycle.LastEventStaysLastIffNothingToSend`, `ExitNeedNotBeLast`).
- **A lone backslash at the end is lost** unless a word is open there
  (`SplitArgs.FinalBackslashIff`, for every command).
- **An invalidation does not reach a flight.** A result that is probed before
  `InvalidateModels` and stored after it answers later callers. Their answers are newer
  than the invalidation if and only if no flight of the harness has a probe under way or
  its result in hand at that moment (`ModelRenewal.NewAfterInvalidateIff`).
- **A summary can cut a call from its answer.** `SummaryCompactor` keeps the pairs of
  calls and tool messages exactly when the first message it keeps is no tool message
  (`NativeSession.SummaryIsPairedIff`). A prompt after a cancelled turn keeps the pairs
  exactly when the cancel left no call open (`NativeSession.PromptIsPairedIff`).
- **A refused append is never made up for.** `appendLocked` drops the error. The log is
  the conversation behind every store call if and only if each append that was made was
  stored and each replacement that changed the list was taken
  (`NativeSession.LogFollowsMemoryIff`). Without a compactor, one append that is refused,
  anywhere in a turn, and they differ for good (`NativeSession.NoCompactorInSyncIff`).
- **Codex usage.** The comment at `codex.go:940` says that a repeated notification adds
  nothing. Within a turn that is so exactly when it carries a total, or is not heard, or
  names no call that used something (`CodexUsage.RepeatAddsNothingIff`). A turn that opens
  with the last report of the turn before bills that call twice, unless the report names
  its own turn and is not heard, or the call used nothing
  (`CodexUsage.RepeatAcrossTurnsIff`).
- **A late Codex ack leaves the session busy.** `TurnActive` says whether a turn runs
  exactly when no ack of `turn/start` came before the turn started or behind its end; after
  such an ack it stays true until some turn completes (`CodexUsage.ActiveIsExactIff`,
  `LooseAckKeepsActive`).
- **A shrunk OpenCode part goes out again and again.** The comment at `opencode.go:697`
  says once. A repeated snapshot sends nothing exactly when it is empty or no shorter than
  the longest before it (`TextDeltas.RepeatSaysNothingIff`, `ShrunkTextComesAgain`).
- **A failed Anthropic stream has no finish part** (`AnthropicStream.OneEnding`), where the
  comment at `native/types.go:151` asks every model for exactly one; the OpenAI stream
  has it (`OpenAiStream.OneFinish`).
- **The result of a turn does not end every Claude tool.** A start that is left alone is
  cancelled by the result if and only if it has an id and a name, or its id was open
  before (`ClaudeTools.TurnEndsStartIff`, `ResultEndsStartIff`).

## Model

| member | source | states |
|---|---|---|
| Outbox.Outbox.Hold | internal/wire/send.go:92-101 | a prompt is queued exactly when a turn runs or a flush carries a batch; else it is left to the caller and nothing changes |
| Outbox.Outbox.Send | internal/wire/send.go:69-101 | which of steered, failed, prompted and held a prompt becomes, for every answer of the session, and that it is queued exactly when it goes nowhere else |
| Outbox.Outbox.Pending | internal/wire/send.go:104-108 | true exactly when prompts wait |
| Outbox.Outbox.Take | internal/wire/send.go:113-117 | the flush takes the whole queue and sets the flag exactly for a batch that is not empty |
| Outbox.Outbox.EndFlush | internal/wire/send.go:122-124 | the end of a flush clears the flag and leaves the queue |
| Outbox.Outbox.Flush | internal/wire/send.go:112-129 | alone, a flush asks for the joined batch and gives back exactly that batch if the prompt fails |
| Outbox.Outbox.Drop | internal/wire/send.go:132-138 | drop returns exactly the queue, empties it and leaves the flag |
| Outbox.JoinHeld | internal/wire/send.go:141-150 | the loop builds the followup: texts joined by blank lines, attachments concatenated |
| Outbox.JoinedKeepsOrder | internal/wire/send.go:141-150 | joining two halves with a blank line and joining the whole agree, and one prompt joins to its own text and attachments, so text and attachments keep acceptance order |
| Outbox.AlwaysConserved | internal/wire/send.go:92-138 | in every run the batches followed by the queue are the accepted prompts in order, and tickets and held sends correspond one to one |
| Outbox.ExactlyOnePlace | internal/wire/send.go:92-138 | each accepted prompt is in the queue or in one batch, never both, never twice, and it is the same prompt |
| Outbox.FateIsFinal | internal/wire/send.go:112-138 | later steps never change a batch, and settle its fate once; nothing accepted is forgotten |
| Outbox.DropHandsBackTheQueue | internal/wire/send.go:132-138 | in every run a drop leaves no ticket in the queue, and all that were there lie in one batch that is handed back |
| Outbox.FlushCarriesTheQueue | internal/wire/send.go:112-129 | in every run a flush takes all tickets of the queue as one batch, and whatever runs meanwhile, it is handed back if the prompt fails and sent if not |
| Outbox.FlushingIsExact | internal/wire/send.go:112-125 | with serialized flushes the flag is true exactly while a flush carries a batch, and at most one does |
| Outbox.NoOvertakingWhileFlushing | internal/wire/send.go:92-101 | while a serialized flush carries a batch, hold queues behind it whatever the session says |
| Outbox.FlagIsAlwaysExactIff | internal/wire/send.go:112-125 | over any run the flag is exact at every moment if and only if no flush starts empty, and none ends, while another one carries a batch |
| Outbox.OneExactFlushIffSerialized | internal/wire/send.go:112-125 | over any run the flag is exact and at most one flush carries a batch, at every moment, if and only if each flush starts while none does |
| Outbox.ConcurrentFlushClearsFlushing | internal/wire/send.go:112-125 | a run of two concurrent flushes in which a later prompt overtakes the batch |
| JsonRpc.Client.NextId | internal/jsonrpc/jsonrpc.go:205-210 | each id is the next number and nothing else changes |
| JsonRpc.Client.Expect | internal/jsonrpc/jsonrpc.go:379-389 | a waiter is registered under the key of the id, unless the transport is dead |
| JsonRpc.Client.Forget | internal/jsonrpc/jsonrpc.go:392-396 | exactly the waiter of the id is dropped |
| JsonRpc.Client.Handle | internal/jsonrpc/jsonrpc.go:400-426 | a frame is a response exactly when it has an id and no method, and exactly a response takes the waiter of its key, whatever other calls wait |
| JsonRpc.Client.Fail | internal/jsonrpc/jsonrpc.go:227-243 | the first failure takes all waiters to close; a later one changes nothing |
| JsonRpc.DecimalInjective | internal/jsonrpc/jsonrpc.go:77-80 | two numbers have different digits |
| JsonRpc.KeyOpensOwnNumberOnly | internal/jsonrpc/jsonrpc.go:143-153 | only the number that was sent has its waiter key, not the same digits as a string |
| JsonRpc.NumberKeysDiffer | internal/jsonrpc/jsonrpc.go:143-153 | two numeric ids have one key if and only if they are equal |
| JsonRpc.ChannelsUsedOnce | internal/jsonrpc/jsonrpc.go:227-243 | in every run of calls, handlers and failures each channel is filled once or closed once or neither, and no send blocks or panics |
| JsonRpc.RepliesMatch | internal/jsonrpc/jsonrpc.go:298-342 | a call returns a reply with its own id and no reply serves two calls; the next id is fresh |
| JsonRpc.ResponseReachesItsCall | internal/jsonrpc/jsonrpc.go:400-426 | in every run where a call waits under its number, a frame with that number and no method, delivered and received, is what the call ends with |
| JsonRpc.OnlyResponsesMatter | internal/jsonrpc/jsonrpc.go:400-426 | a frame changes something if and only if it decodes, has no method, and has an id that a call waits under |
| JsonRpc.OutcomesAreTrue | internal/jsonrpc/jsonrpc.go:298-342 | in every run what a call gets as its reply is a response with its number, never a request of the peer, and a call that is told of a dead transport finds its error |
| JsonRpc.EveryWayOutForgets | internal/jsonrpc/jsonrpc.go:296-342 | a call that waits can always give up or fail to write, and however it ends it returns what it had and leaves no waiter |
| JsonRpc.NoWaiterLeaks | internal/jsonrpc/jsonrpc.go:296-304 | the map holds keys of calls that still run and of no others |
| JsonRpc.DeadForever | internal/jsonrpc/jsonrpc.go:227-243 | after a failure its error stays and no waiter is ever registered |
| JsonRpc.FailReleasesEveryCall | internal/jsonrpc/jsonrpc.go:240-242 | when the failure is through, every call that waits finds its channel filled or closed |
| AcpTurn.AcpProtocol.TurnActive | acp.go:1013-1019 | true exactly while the latch is taken |
| AcpTurn.AcpProtocol.EncodePrompt | acp.go:1023-1045 | refuses while a prompt is out, else takes the latch under a fresh id, even where the content then fails |
| AcpTurn.AcpProtocol.ParseResponse | acp.go:1269-1280 | gives the latch back exactly for the id that took it |
| AcpTurn.TurnsAlternate | acp.go:1023-1031 | in every run, whatever the peer answers, prompts that take the latch and turn ends strictly alternate and the latch and sawResult say which came last |
| AcpTurn.OnlyThePromptResponseEnds | acp.go:1269-1280 | a response ends the turn if and only if it carries the number of the prompt |
| AcpTurn.LatchIsExactIffWritten | internal/wire/wire.go:405-431 | once the frame of a prompt has been given to the writer, whatever ran since it was encoded, the latch says that a prompt is out if and only if its content loaded and the write succeeded |
| AcpTurn.FailedPromptSticks | acp.go:1023-1041 | after content that fails or a frame that is not written, every prompt is refused as long as the peer answers only what was written |
| Pump.EventQueue.Deliver | opencode.go:137-152 | events are appended and a token is due, unless there are none or the queue is closed |
| Pump.EventQueue.Swap | opencode.go:159-162 | the pump takes the whole queue |
| Pump.EventQueue.CloseQueue | opencode.go:193-198 | flush takes the whole queue and closes it |
| Pump.AlwaysInv | opencode.go:137-206 | in every interleaving order is kept, no wake-up is lost, and nothing is sent on the closed channel |
| Pump.DeliveredInOrder | opencode.go:137-206 | received and waiting events are a prefix of the accepted ones, and before the stop the batch and the queue are the rest |
| Pump.EndedIsFinal | opencode.go:155-175 | after the pump ended nothing more reaches the consumer |
| Pump.CleanEndDeliversAll | opencode.go:193-206 | a pump that closed its queue and dropped nothing delivered everything, and nothing else is accepted |
| Pump.WorkIsBounded | opencode.go:137-206 | between two new events only a bounded number of steps can happen, before the stop and after |
| Pump.EveryEventArrives | opencode.go:137-190 | when nothing can move any more, the consumer has received every accepted event |
| Pump.StopEndsThePump | opencode.go:168-206 | after the stop, when nothing can move any more, the channel is closed and read to its end |
| Pump.DropsOnlyOnStop | opencode.go:178-206 | events are lost only when the stop meets a send that waits, or flush meets a full channel, and then it is the batch in hand |
| Pump.FlushDelivers | opencode.go:193-206 | where the channel has room for the queue, flush delivers all of it |
| ModelCache.Runtime.Lookup | models.go:126-175 | an entry answers exactly while it is younger than the TTL, and a failure than 30 seconds as well |
| ModelCache.Runtime.Enter | internal/flight/flight.go:21-34 | a caller joins the flight of its key or leads a new one |
| ModelCache.Runtime.Leave | internal/flight/flight.go:39-41 | exactly the flight of the key is removed |
| ModelCache.Runtime.InvalidateModels | models.go:197-207 | exactly the entries of the harness are dropped |
| ModelCache.Runtime.Refresh | models.go:176-190 | the leader looks again, and probes and stores exactly when no entry is that young |
| ModelCache.Runtime.Models | models.go:133-195 | alone, a call probes exactly when the cache is off or has no entry that young, and answers what the probe or the cache says |
| ModelCache.ProbesNeverOverlap | internal/flight/flight.go:21-43 | however many callers run, two probes of one key never overlap |
| ModelCache.LeaderDeletesItsOwn | internal/flight/flight.go:39-41 | the delete that ends a flight removes the leader's own entry and no other |
| ModelCache.FreshEntriesAreNotProbed | models.go:126-190 | after a store, unless invalidated, no probe of the key starts while the entry is fresh; failures are fresh for the shorter time |
| ModelCache.CacheAnswersIffYoung | models.go:126-182 | in every run a caller is answered by the cache if and only if its key has an entry younger than the TTL, and than 30 seconds for a failure; otherwise the leader starts a probe |
| ModelCache.CachedAnswersAreYoung | models.go:126-131 | in every run the age of what the cache answers with is at least 0 and below the TTL, and below 30 seconds for a failure |
| ModelCache.ProbeIsStoredAndAnswered | models.go:183-188 | what a probe returns is stored under the time of its return, published, and answered, and the flight is removed |
| ModelCache.AnswersAreProbed | models.go:172-195 | every answer is what some probe of the caller's key returned |
| ModelCache.JoinersShareTheResult | internal/flight/flight.go:26-30 | a caller that joined gets the outcome of its leader |
| ModelRenewal.NewAfterInvalidateIff | models.go:176-207 | whoever asks behind an invalidation gets the result of a probe started since, in every continuation, if and only if no flight of the harness has a probe under way or its result in hand at that moment |
| Lifecycle.Hooks.OnClose | internal/wire/wire.go:334-341 | a hook is registered behind the others |
| Lifecycle.Hooks.RunOnClose | internal/wire/wire.go:343-351 | alone, it takes the hooks, so that none is left, and runs them in order |
| Lifecycle.ChannelsCloseOnce | internal/wire/wire.go:526-585 | over all interleavings nothing is sent on the closed event channel, and the three channels close at most once each |
| Lifecycle.DeliveredInOrder | internal/wire/wire.go:384-402 | the consumer gets the events in the order of the lock, minus drops that a close excuses |
| Lifecycle.NothingDroppedWhileOpen | internal/wire/wire.go:384-402 | before any close no event is dropped |
| Lifecycle.HooksRunOnce | internal/wire/wire.go:334-351 | each hook is registered, or with one closer, or has run once |
| Lifecycle.LastEventStaysLastIffNothingToSend | internal/wire/wire.go:384-402 | as long as no emit begins, the last event that was sent stays the last, whatever comes, if and only if the channel is closed or every emit that began is through |
| Lifecycle.ExitNeedNotBeLast | internal/wire/wire.go:384-402 | a run in which another event follows the exit event |
| LifecycleProgress.EmitSends | internal/wire/wire.go:386-402 | while the channel is open and has room, an emit that gets the lock sends its event behind all others |
| LifecycleProgress.LateEmitIsDropped | internal/wire/wire.go:386-390 | after the end an emit drops its event and frees the lock |
| LifecycleProgress.CloseUnblocksEmit | internal/wire/wire.go:391-401 | after Close an emit may drop any event but the exit, which it goes on waiting with |
| LifecycleProgress.ExitStillSent | internal/wire/wire.go:394-401 | the exit event that waits after Close goes out as soon as there is room |
| LifecycleProgress.NobodyIsStuck | internal/wire/wire.go:384-585 | when nothing can move any more every emit is through, every close has returned, the consumer has read all, the channels are closed, and no hook is in anyone's hands |
| LifecycleProgress.CloserRunsEveryHook | internal/wire/wire.go:343-351 | when a closer has returned, every hook that was registered as it took them has run, whatever went on between |
| Framing.ReadFrame | internal/wire/wire.go:650-686 | for every way the reader cuts the stream, a frame is exactly the next line, judged as a whole against the cap, and only that line is taken |
| Framing.Scan | internal/wire/wire.go:613-647 | scanning reports what splitting on newlines and judging each line reports |
| Framing.LinesAreTheCutting | internal/wire/wire.go:650-686 | there is exactly one way to cut a stream into lines |
| Framing.LinesCut | internal/wire/wire.go:650-686 | the lines are such a cutting, and join to the stream |
| Framing.ScanJudgesLineByLine | internal/wire/wire.go:613-647 | a line over the cap is one report and changes nothing before or after it |
| Framing.ScanPassesOn | internal/wire/wire.go:613-647 | however a stream is cut up, exactly the lines within the cap that are not white space alone are passed on, in order and whole, each longer one is reported once, and nothing else is said |
| Framing.BlankIff | internal/wire/wire.go:630-632 | a line is skipped exactly when it consists of white space characters of UTF-8 |
| Framing.BrokenStreamKeepsWholeLines | internal/wire/wire.go:613-647 | a read error at the end leaves the reports of the complete lines as they are |
| SplitArgs.Split | args.go:13-69 | the loop computes the words of the automaton |
| SplitArgs.SplitsWhatWasWritten | args.go:5-69 | any list of words is given back, written with any mixture of plain characters, escapes, and quotes, in which a backslash escapes five characters and is kept before all others |
| SplitArgs.DoubleQuotesRoundTrip | args.go:40-53 | every list of words survives double quotes with escapes, empty words included |
| SplitArgs.SingleQuotesRoundTrip | args.go:35-39 | words without a single quote survive single quotes as they are |
| SplitArgs.OpenQuoteKeepsTheRest | args.go:35-53 | a quote that is never closed keeps the rest as one word |
| SplitArgs.FinalBackslashNeedsAWord | args.go:57-64 | a final backslash is kept if and only if it stands in a word |
| SplitArgs.FinalBackslashIff | args.go:13-66 | behind any command, inside quotes and outside, one more backslash that the one before does not escape is kept if and only if a word is open |
| TomlText.SplitJoin | home.go:443-444 | lines survive joining and splitting |
| TomlText.TrimFinds | home.go:400-413 | trimming finds what stands between white space |
| Toml.TomlValues | home.go:394-417 | the map read from a file gives each key the last value of its history, and no other key |
| Toml.MeaningIsUnique | home.go:394-417 | a file has one such map |
| Toml.HeaderLines | home.go:419-424 | a name in brackets, with spaces wherever they may stand, is a header with that name |
| Toml.EntryLines | home.go:400-415 | a key and a value around an equals sign, with spaces wherever they may stand, are an entry |
| Toml.SilentLines | home.go:396-409 | blank lines, comments and lines without an equals sign say nothing |
| TomlFold.SplitDotted | home.go:426-433 | a table and a key without a dot are found again in their dotted form |
| TomlFold.FoldTable | home.go:531-560 | at most one header of the table is left, other headers and all lines with text stay, and in a well-formed file every key keeps its whole history; the place of insertion is in range |
| TomlEdit.ParseLines | home.go:435-464 | the bodies are the ranges between a first header and the next opening line, for every table, and a table without a body has no header |
| TomlEdit.WrittenLine | home.go:474 | the line that is written reads back as its key and raw value |
| TomlEdit.SetRaw | home.go:466-493 | the first value of the key is replaced, or the only one made right behind text; every other key, header and line with text stays; one copy of the table is left; the file stays well-formed |
| TomlRemove.RemoveKey | home.go:495-509 | the first value is taken away if the first copy of the table gives one, and the first copy loses just that; all else stays and the file stays well-formed |
| TomlRemove.RemoveTable | home.go:511-528 | exactly the keys that start with the table and a dot lose all values, its own header and those of its sub-tables go, and all else stays |
| TomlKeys.SetIsUpdateIff | home.go:468-493 | setting is an update of the map if and only if the key had at most one value or ends with the new one |
| TomlKeys.RemoveIsDeleteIff | home.go:495-509 | removing is a delete from the map if and only if the key had no value, or one value and that in the first copy |
| TomlKeys.OnlyCopy | home.go:495-509 | in a table that is not repeated the first copy gives every value |
| TomlKeys.SetThenRemove | home.go:466-509 | setting and then removing a key takes away its first value and nothing else |
| TomlKeys.RemoveTableIsRestriction | home.go:511-528 | removing a table restricts the map to the keys that do not start with the table and a dot |
| TomlKeys.FoldIsIdentity | home.go:531-560 | folding leaves the map as it is |
| TomlKeys.RepeatedKeyKeepsItsLastValue | home.go:479-485 | a file of two lines where setting does not update |
| TomlKeys.LaterCopyIsMissed | home.go:495-509 | a file of three lines where removing does not delete |
| TomlKeys.UserValues | home.go:280-284 | what is read from a user file can be written into any file |
| TomlKeys.MergeKeys | home.go:259-287 | each key of the user file that `keys` names, or that there is no such list for, and that `skip` does not name, has the user's value first; every other key keeps its history |
| TomlKeys.MergeIsOverlayIff | home.go:259-287 | the merged file means the own map overlaid with the user map, as far as `keys` and `skip` let it through, if and only if each of those keys had at most one value or ends with the user's |
| TomlKeys.DropKeys | home.go:308-313 | each key loses, from the front, as many values as it is listed, but no more than the first copy of its table gives; every other history stays |
| TomlKeys.DropIsMinusIff | home.go:292-313 | the file means the map minus the keys if and only if for each of them all values stand in the first copy of its table and it is listed as often as it has values |
| ModelStream.Consumer.Yield | native/types.go:109-114 | a consumer takes a part and says whether it wants more |
| ModelStream.StreamCall | native/session.go:239-288 | the outcome of a model call: text and calls in order, or the first failure, or no finish, or a refusal; and exactly which events stream out |
| ModelStream.EachPartCounts | native/session.go:253-276 | what each kind of part adds to text, calls, events, usage and finish |
| ModelStream.StreamedTextIsTheText | native/session.go:256-263 | the text deltas that stream out join to the text that is kept |
| OpenAiStream.CallTable.Shard | native/provider/openai/stream.go:303-315 | the accumulator of an index, the same object each time, and a new last one on first use |
| OpenAiStream.CallTable.Add | native/provider/openai/stream.go:38-45 | a shard is merged into the entry of its index and no other |
| OpenAiStream.TableIsRight | native/provider/openai/stream.go:38-45 | however shards interleave, there is one entry per distinct index, in first-arrival order, with the last id and name that are not empty and all arguments joined |
| OpenAiStream.OneRightTable | native/provider/openai/stream.go:295-318 | only one table is right in that sense |
| OpenAiStream.InterleavingDoesNotMatter | native/provider/openai/stream.go:38-45 | two streams that agree on the shards of each index have the same calls |
| OpenAiStream.EverythingIsSeen | native/provider/openai/stream.go:32-66 | the nested loops handle every shard and every piece of text, in order |
| OpenAiStream.ArgumentsStreamOut | native/provider/openai/stream.go:40-53 | each piece of arguments goes out once, in order, under the last id that its call has had |
| OpenAiStream.Stream | native/provider/openai/stream.go:20-91 | a consumer gets deltas, finished calls, the finish and the failure in this order, cut off exactly where it breaks |
| OpenAiStream.OneFinish | native/provider/openai/stream.go:76-89 | there is exactly one finish part, behind all calls, and only a failure follows it |
| OpenAiStream.FinishTellsTheReason | native/provider/openai/stream.go:55-78 | the finish carries the last reason that is not empty, as it came and in the terms of the session, and the last usage that is present, or an error where the transport failed |
| OpenAiStream.StreamCallGetsTheCalls | native/session.go:253-287 | the session gets the calls in first-arrival order and the whole text, unless the transport failed or the content filter struck |
| AnthropicStream.BlocksAreTheirOwn | native/provider/anthropic/anthropic.go:134-177 | the open block of an index is what the events of that index alone leave open |
| AnthropicStream.LoopYieldsTheParts | native/provider/anthropic/anthropic.go:119-196 | so each part depends on the events of its own block only |
| AnthropicStream.InterleavingDoesNotMatter | native/provider/anthropic/anthropic.go:134-177 | two streams that agree on the events of each index complete the same calls, in the same order for each index |
| AnthropicStream.Stream | native/provider/anthropic/anthropic.go:105-201 | a consumer gets the parts and then the finish or the failure, cut off exactly where it breaks |
| AnthropicStream.StartToStopIsOneCall | native/provider/anthropic/anthropic.go:134-177 | a start, its pieces and its stop make one call with the pieces joined, or an empty object, whatever stands between |
| AnthropicStream.OneEnding | native/provider/anthropic/anthropic.go:192-201 | the stream ends with exactly one finish or exactly one failure |
| AnthropicStream.UsageIsTheLatest | native/provider/anthropic/anthropic.go:123-189 | each counter of the usage is its last value that is not zero since the message started |
| AnthropicStream.FinishTellsTheStop | native/provider/anthropic/anthropic.go:174-227 | the finish carries the last stop reason as it came and says which of the five it means |
| AnthropicStream.EventsSendOn | native/provider/anthropic/anthropic.go:131-150 | texts, thoughts and starts are sent on as they come, and other events are not |
| AnthropicStream.PieceSendsOn | native/provider/anthropic/anthropic.go:151-159 | a piece of input is sent on under the id of the block that is open for its index |
| AnthropicStream.StraysAreDropped | native/provider/anthropic/anthropic.go:151-165 | pieces and stops without an open block are passed over |
| AnthropicStream.StreamCallGetsTheCalls | native/session.go:253-287 | the session gets the completed calls in the order of their stops and the whole text, unless the transport failed or the model refused |
| NativeSession.MemoryStore.Load | native/store.go:197-205 | the log of a session, or not found |
| NativeSession.MemoryStore.Append | native/store.go:207-212 | the log grows by the messages and no other log changes |
| NativeSession.MemoryStore.Replace | native/store.go:214-219 | the log is the new list and no other log changes |
| NativeSession.Session.Open | native/driver.go:236-246 | opening loads the log; not found is an empty list, and any other failure of the load fails the opening |
| NativeSession.SaidIff | native/session.go:149-176 | the user message is built if and only if every attachment is an image with data that is given or can be read; it has one image per attachment in order, then the text, and is never empty |
| NativeSession.Session.UserMessage | native/session.go:149-176 | the loop builds that message or stops at the first attachment that fails |
| NativeSession.Session.AppendMessage | native/session.go:443-449 | a message goes to memory, and to the log if the store takes it |
| NativeSession.Session.MaybeCompact | native/session.go:385-406 | past 60 percent of the budget, and only then, the list is folded in memory first and then in the store |
| NativeSession.LengthsAdd | native/session.go:408-427 | texts, inputs of calls and contents of tool messages count towards the budget, and files do not |
| NativeSession.Session.RunCalls | native/session.go:227-232 | until the context ends each call adds one tool message with its id, its name and what the tool said, and a started and an ended event |
| NativeSession.ToolsSay | native/session.go:302-335 | exactly the calls before the end of the context are answered, each by a tool message with the content and the error flag of its tool, and by two events |
| NativeSession.Session.OneRound | native/session.go:196-233 | one round of the loop, with every way out of it |
| NativeSession.Session.RunTurn | native/session.go:195-235 | the loop is the round, at most the configured number of times |
| NativeSession.Session.Prompt | native/session.go:102-145 | attachments that do not load, and then a turn that runs, refuse the prompt and change nothing; else it is the turn between its user message and its one result, and the first error is kept |
| NativeSession.LogFollowsMemoryIff | native/session.go:385-449 | over any number of prompts and with any compactor, the log was the list in memory behind every store call if and only if each append that was made was stored and each replacement was taken or changed nothing |
| NativeSession.LogIsMemoryIff | native/session.go:385-449 | at the end only the calls behind the last replacement that was taken count: unless another list was refused since, log and memory agree if and only if each append since was stored |
| NativeSession.NoCompactorInSyncIff | native/session.go:443-449 | without a compactor log and memory agree if and only if every append of the session was stored |
| NativeSession.MissedAppendStaysMissed | native/session.go:443-449 | a log that is behind, for whatever message, stays behind over any number of prompts without a compactor |
| NativeSession.ToolsAnswer | native/session.go:227-232 | the loop over the calls answers each once, in order, if and only if the context does not end |
| NativeSession.EveryCallIsAnswered | native/session.go:218-232 | over any number of prompts that end by themselves each call has exactly one tool message, directly behind its assistant message, in call order |
| NativeSession.PromptIsPairedIff | native/session.go:107-117 | a new prompt keeps the pairs if and only if no call was left open, and otherwise they stay broken |
| NativeSession.SummaryIsPairedIff | native/compact.go:27-56 | a summary keeps the pairs if and only if the first message it keeps is no tool message |
| NativeSession.ModelCallsAreBounded | native/session.go:195-235 | a turn makes at most the configured number of model calls, and all of them where it says that they ran out |
| NativeSession.PromptIsBounded | native/session.go:102-145 | the same for a whole prompt |
| NativeSession.RoundsExtend | native/session.go:195-235 | without a compactor a turn only adds messages |
| NativeSession.OneResultPerPrompt | native/session.go:120-139 | each prompt ends with one result and idle behind it |
| NativeDialogue.RoundSays | native/session.go:196-233 | a round that gets an answer adds the assistant message with its text and calls and the tool messages, after a compaction or without, and this is how the turn goes on |
| NativeDialogue.TurnSays | native/session.go:195-235 | a turn adds the answers and tool messages of its rounds up to one, behind the list or its last fold; all but the last round went on, and the ending is what happened there |
| NativeDialogue.PromptSays | native/session.go:102-145 | a prompt adds its user message and these rounds, and running, the events of the rounds, the result for its ending, and idle |
| NativeSession.UsageIsConserved | native/session.go:451-461 | over any number of prompts the usage of the session is what its events reported, and there is one result per prompt |
| NativeDialogue.ReportedIsTheSum | native/session.go:451-461 | the reported usage is the sum of the usage events, counter by counter |
| CodexUsage.Protocol.TurnStarted | codex.go:602-610 | a turn starts with no usage and no base |
| CodexUsage.Protocol.Acked | codex.go:492-495 | the ack of a prompt marks the turn as live and changes nothing else |
| CodexUsage.Protocol.NoteTurnUsage | codex.go:941-963 | a report of the open turn fixes the base once and sets the usage from the total, or adds its call where there is no total |
| CodexUsage.Protocol.TurnCompleted | codex.go:735-748 | the result carries the usage of the turn, and the turn is closed |
| CodexUsage.TurnUsageIsTheSum | codex.go:937-963 | where each report adds its call to the total or repeats the one before, the usage is the sum of the distinct calls, never negative, and the growth of the total |
| CodexUsage.UsageIsGrowthIff | codex.go:949-956 | where totals grow, the usage is the growth since the start if and only if the first report, with a call of its own or without, starts from there |
| CodexUsage.UsageOfAnyReports | codex.go:941-963 | for any reports the usage is the last total heard, less what the thread had before the first, and the calls named since |
| CodexUsage.WithoutTotals | codex.go:957-962 | without totals the usage grows by every call that is named and heard |
| CodexUsage.RepeatAddsNothingIff | codex.go:937-963 | a report that comes twice in a row, at any place in a turn, adds nothing the second time if and only if it is not heard, or has a total, or names no call that used something |
| CodexUsage.RepeatAcrossTurnsIff | codex.go:937-963 | two turns, the second of which opens with the last report of the first, bill the growth of the total if and only if the second does not hear that report or its call used nothing |
| CodexUsage.UsagesTelescope | codex.go:735-748 | over any thread the usages of the turns add up to the growth of the total, whatever comes between turns |
| CodexUsage.ActiveIsExactIff | codex.go:492-495 | over any run of acks, starts and ends TurnActive says whether a turn runs if and only if no ack came before its start or behind its end |
| CodexUsage.LooseAckKeepsActive | codex.go:492-495 | after such an ack the session is busy until some turn completes |
| TextDeltas.Session2.TextDelta | opencode2.go:386-392 | a delta goes out and is counted for its block |
| TextDeltas.Session2.TextEnded | opencode2.go:509-527 | the rest, the whole, or nothing goes out, and the block counts as delivered |
| TextDeltas.RunTurn | opencode2.go:386-394 | over a turn the map and the events are those of each block alone |
| TextDeltas.BlocksAreIndependent | opencode2.go:505-535 | however blocks interleave, a block depends on its own events only |
| TextDeltas.EndedTextIsExactIff | opencode2.go:505-527 | a block has sent exactly its text if and only if the deltas are a prefix of it |
| TextDeltas.RepeatedEndSaysNothing | opencode2.go:505-527 | repeated ended events send nothing |
| TextDeltas.Session1.ParseTextPart | opencode.go:685-704 | the suffix or the whole of a snapshot goes out, and the longest length is kept |
| TextDeltas.SentIsLatestIff | opencode.go:685-704 | what went out is the latest snapshot at every moment if and only if each extends the one before |
| TextDeltas.ShrunkTextComesAgain | opencode.go:691-699 | a part that shrank goes out whole with every snapshot shorter than its longest |
| TextDeltas.RepeatSaysNothingIff | opencode.go:691-699 | a snapshot that comes twice in a row sends nothing the second time if and only if it is empty or no shorter than the longest before it |
| ClaudeTools.SortedOnce | claude.go:672 | the sorted list of a set of ids is unique |
| ClaudeTools.OrderIsLexical | claude.go:672 | the order of ids is that of the first place where they differ |
| ClaudeTools.Protocol.ToolStarted | claude.go:538-556 | a tool is tracked exactly when it has an id and a name, and its start always goes out |
| ClaudeTools.Protocol.ParseUser | claude.go:558-584 | each tool result ends its id under the name it started with |
| ClaudeTools.Protocol.CancelOpenTools | claude.go:660-679 | the table is emptied with one cancelled event per id, sorted |
| ClaudeTools.Protocol.Handle | claude.go:538-679 | what each frame does to the table and the events |
| ClaudeTools.FramesSay | claude.go:538-584 | in every run a message of the assistant gives one start per tool use, and one of the user one end per tool result, completed or failed as it says, under the name that its id has open |
| ClaudeTools.ExitIsErrorIff | claude.go:862-884 | in every run an exit ends with an error if and only if no result came before it |
| ClaudeTools.TableIsTheOpenTools | claude.go:538-679 | after any frames the table holds exactly the named tools that started and did not end, under their last names, and none after a result or an exit |
| ClaudeTools.EveryStartEnds | claude.go:630-679 | every named start is followed by an ending event no later than the next result or exit, and before the event that tells of it |
| ClaudeTools.ResultCancelsTheOpen | claude.go:630-679 | a result cancels each open tool exactly once, in order, right before itself |
| ClaudeTools.TurnEndsStartIff | claude.go:538-556 | a result right behind a start cancels its id if and only if it has an id and a name, or the id was open |
| ClaudeTools.ResultEndsStartIff | claude.go:538-679 | the same in any run for a start whose id is left alone until the result of its turn |

## Left out

- Outbox.Outbox.Send: takes the answers of Active, Steer and Prompt as parameters, so the vendor's side of a prompt is not modelled.
- JsonRpc.RepliesMatch: Call is a sequence of steps of the machine, in which contexts, timers and failed writes are free choices; Notify, Request, Reply and the text of a frame are left out.
- Pump.EveryEventArrives: pump, send and flush are steps of the machine, since they wait on channels; the hooks and the server that finish releases are left out.
- ModelCache.ProbesNeverOverlap: Do waits on a wait group, so the callers are phases of the machine; their critical sections are the methods of the class.
- Lifecycle.DeliveredInOrder: emit is a step of the machine only, because it keeps the lock while it waits; the At, SessionID and Turn fields it fills in and recordErr are not modelled.
- AcpTurn.AcpProtocol.ParseResponse: its two critical sections are one step, because only the read loop calls it; stop reasons and usage are not modelled.
- ModelCache.Runtime.Models: the key is given (looking up the binary and its version is not modelled), time is in whole seconds, and a probe that panics, which would leave its flight in place, is not modelled. The login cache of detect.go:462-488 has the same shape and is not repeated.
- Framing.Scan: the buffer is a sequence, and its capacity and growth are not modelled.
- TomlKeys.MergeKeys: the keys come in any order, not in sorted order; the histories are the same for each order, while the text may differ in where blocks are appended. The JSON branches, SetKeys and SetHomeMCP are left out, and so are the `order` field of tomlLines, which nothing reads, and files that are not well-formed, for which the edits promise nothing.
- TomlEdit.SetRaw: keys that start with `#` or `[` and values with line breaks are excluded, since the line they make reads as a comment, a header or two lines.
- TomlText.SplitJoin: strings are sequences of characters, without encoding.
- OpenAiStream.Stream: requests, HTTP and chunk decoding are left out; a chunk without valid usage has none. An empty input and an absent input are the same.
- AnthropicStream.Stream: building the request, which can fail before the stream starts, is left out.
- NativeSession.Session.Prompt: events go to a list instead of a channel; approvals, the lookup of the tool and its call are one answer; the media type of an attachment is given (imageMIME, session.go:179-191, is left out). Interrupt is the answer of the context, and a second prompt during a turn is a call while `running` is set. Close is left out.
- NativeSession.LogIsMemoryIff: where another list was refused since, log and memory differ at that moment, and whether later messages happen to make them equal again depends on the lists themselves; LogFollowsMemoryIff covers these runs.
- NativeSession.MemoryStore.Append: the file store is left out.
- TextDeltas.RunTurn: parts of user messages, reasoning and tools are left out; texts are sequences, so lengths are not bytes of an encoding.
- ClaudeTools.Protocol.Handle: text, usage, permissions and the fields of the result are left out; only what touches the tool table is modelled.
- internal/proc, opencode_server.go, tui, skills, the built-in file tools and the vendor probes: operating system, network and screen code.
- The remaining drivers: they share the protocols above.
