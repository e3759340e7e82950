# Verified models of the connector, release and runtime cores

This project models, in Dafny, the parts of the repository whose correctness depends on
interleaving, crashes or byte-level detail, and proves what they are for. `dafny verify
dfyconfig.toml` checks all of it.

## What is modelled

- **The connector claim protocol** (`ClaimProtocol`, `ClaimSafety`, `ClaimFiles`). Any number of
  processes race for one state path with exclusive creates and hard-linked guards. `ClaimProtocol`
  is a state machine in which every file-system call is one step and a process may die between any
  two; `ClaimSafety` has what it guarantees over whole runs. `ClaimFiles` has the functions
  themselves as methods on a directory; each of their calls is one step of that machine.
- **The connector turn pipeline** (`ThreadQueue`, `Bindings`, `BindingRecords`, `RuntimeTurn`,
  `TurnHistory`, `TurnStream`, `TurnRecovery`, `TurnDispatch`, `TurnListing`). The promise queue of
  each thread, the store that moves DM conversations between threads, the stream between hub events
  and the text consumer, the recovery from an unusable session, and the choice between queue and
  bypass, which puts queue, store and active turns together.
- **The release-tarball parser** (`Tar`, `TarPaths`, `TarHeaders`, `TarRoundTrip`, `TarDamage`), with
  a printer written from the section "ustar Interchange Format" of the pax utility in IEEE Std
  1003.1-2017.
- **Smaller cores**: the argv printer and its tokenizer (`McpCommand`, `CommandLines`), mode changes and their
  notice (`ModeChange`), history compaction (`Compaction`), the auto-approve table
  (`ToolPolicies`), the HTML escaper (`HtmlEscape`), the abort listeners (`AbortListeners`) and the
  done-event filter (`SessionEvents`). `Prelude` and `JsText` hold shared types and JavaScript's
  white space.

Where the source changes things step by step, a class or a loop does the same here and is proved
to compute a specification function or one event of a state machine; the lemmas are about those.

## Assumptions

- Claim protocol: a create with its write is one step; claim ids are unique; both SHA-256 digests
  are injective; `isRunning` is exact and a dead instance stays dead, while `getStartToken` may
  fail; equal start tokens of one process id mean the same instance; removing an existing file
  succeeds; only the protocol and the live owner change the state file.
- Bindings: a thread id determines its channel and whether it is a DM. Key enumeration order is
  arbitrary. The serialised thread is a record.
- Turns: hub answers, clocks and what other code does during an await are parameters, so the
  results hold for all of them. Session ids are not blank and carry no surrounding white space.
- Stream: hub events come from the socket's message listener, and no such event comes between
  promise callbacks that follow each other; an error of the event stream may come at any time.
- Modes, listeners and policies are changed only by the functions modelled.

## What the proofs found

- A stale connector state cannot be recovered while its recorded process id is in use again, even
  by the contender itself, because the stale check compares ids without start tokens; a dead guard
  owner's id blocks in the same way when its start token was not learnt (`ClaimFiles.Recovery`,
  `ClaimFiles.CrashRecovery`, `ClaimFiles.ReusedPidBlocks`, `ClaimFiles.ReusedGuardPidBlocks`). A
  state file holding the JSON value `null` is refused for good: reading its `pid` throws an error
  that is not a `SyntaxError` (`ClaimFiles.StateDirectory.IsStale`).
- After an error the caller of the text stream waits until the request ends, which has no time
  limit (`RuntimeTurn.CallerWaitsForRequest`, `RuntimeTurn.FailureWaitsForRequest`).
- A DM ends up with two conversations when a message of another thread of it is loaded between the
  load and the persist of a turn (`Bindings.InterleavedLoadSplitsDM`). Such loads happen: a message
  that comes while a turn is active is handled outside the turn queue, to steer that turn.
- The comment on `forgetThreadSession` says that a newer session is never cleared by an older
  failure; `TurnRecovery.NewerLostExactly` says when it is. The retry can go to the session that has
  just failed (`TurnRecovery.SecondSessionExactly`), and after a steer the mapping may be another
  session than the one that served the message (`TurnRecovery.MappingAfterSteer`).
- Two runs of one conversation can overlap, and only when the message of one found an active turn on
  arrival and none in its handler (`TurnDispatch.SharedSessionRuns`, `TurnDispatch.TwoRunsOverlap`).
  When the typing indicator fails, the turn stays listed as active; a message that is handled in the
  queue and then fails to steer an active turn waits for itself, and its queue stops for good
  (`TurnDispatch.WaitsForItselfExactly`, `TurnDispatch.StuckForever`). Nothing else stops a queue
  for good as long as every other await of a message can end (`TurnDispatch.StopsExactly`).
- The repository's tokenizer drops empty arguments that the printer wrote as `""`
  (`McpCommand.ParsesBack`), and an escaped space at the very end of a line loses its space and keeps
  its backslash (`CommandLines.EscapedSpaceAtEnd`).
- A load that names no participant rewrites a record that has one every time
  (`BindingRecords.LoadTwice`).
- A mode change that fails after replacing another mode leaves the notice wrong at once
  (`ModeChange.AbandonedExactly`, `ModeChange.AbandonedChangeMisleads`), the first switch away from
  yolo mode is never announced (`ModeChange.NoticeIsNetChange`), and every change queued behind a
  failed one is dropped (`ModeChange.FailureCascades`).
- A mark made in the grace period of an earlier abort is ended by that abort's timer
  (`AbortListeners.MarkHoldsExactly`).

## Model

| member | source | states |
|---|---|---|
| ClaimSafety.ExclusiveClaim | apps/cli/src/connectors/common.ts:341-385 | After any run of any number of contenders with crashes, a live process whose claim succeeded and that has not removed the file finds its own payload there, and no second live process is in that position. |
| ClaimSafety.ClaimLasts | apps/cli/src/connectors/common.ts:341-385 | From any reachable state on, whatever others do, a claim ends only with the death of its process or with its own removal of the file; until then the file holds its payload. |
| ClaimSafety.RespectedFileStays | apps/cli/src/connectors/common.ts:364-375 | A file that names a running process of no claim, or a dead claimant whose process id runs again, or holds the value null, and that no contender was replacing already, stays as it is in every interleaving for as long as that process runs. |
| ClaimSafety.GuardSafety | apps/cli/src/connectors/common.ts:412-529 | Once any guard of a generation has been removed the state file is never that generation again. Until then its guards on disk are exactly one chain, all owners but the last are dead, and at most one live process is past the guard. |
| ClaimProtocol.OneGuardHolder | apps/cli/src/connectors/common.ts:458-512 | Two live contenders that both hold a guard of a generation that lost none are the same contender, however long the chain of successor guards. |
| ClaimProtocol.RemoveInv | apps/cli/src/connectors/common.ts:514-517 | When a live guard holder is about to remove the state file, the file still is the generation it checked, and removing it keeps the invariant. |
| ClaimProtocol.EventInv | apps/cli/src/connectors/common.ts:341-529 | Every step of every contender, every boot, crash and owner rewrite keeps the invariant of files, guard chains and contenders. |
| ClaimSafety.RunRetires | apps/cli/src/connectors/common.ts:523-527 | The history of generations that lost a guard is exactly what the events of the run removed. |
| ClaimFiles.StateDirectory.TryClaim | apps/cli/src/connectors/common.ts:341-385 | Run alone, a claim wins exactly if there is no state file, or one that names no running process, is not the value null, and whose guards can all be passed; it leaves no candidate file and none of the guards it walked; a losing claim changes nothing. What it does is a run of the concurrent model. |
| ClaimFiles.StateDirectory.TryReplaceStale | apps/cli/src/connectors/common.ts:420-529 | Wins exactly if the walk finds a free guard path and the file is still the observed generation; the state file, candidate files and guards afterwards are given exactly. |
| ClaimFiles.StateDirectory.AcquireGuard | apps/cli/src/connectors/common.ts:458-512 | The loop ends at the first free guard path of the walk, or gives up at the first guard that cannot be passed; it adds exactly its own guard. |
| ClaimFiles.StateDirectory.TryPass | apps/cli/src/connectors/common.ts:478-511 | A guard lets the contender past exactly if its owner is not running or runs as a recognisably different instance; the next path appends that owner. |
| ClaimFiles.StateDirectory.ReplaceState | apps/cli/src/connectors/common.ts:514-518 | The critical section succeeds exactly if the file is the observed generation, and then leaves the own payload. |
| ClaimFiles.StateDirectory.ReplaceGuarded | apps/cli/src/connectors/common.ts:460-528 | Walk, critical section and clean-up together: the guards walked are gone exactly if a guard was acquired. |
| ClaimFiles.StateDirectory.CleanUp | apps/cli/src/connectors/common.ts:521-528 | Removes the candidate file, and the walked guards only if one was acquired. |
| ClaimFiles.StateDirectory.RemoveGuards | apps/cli/src/connectors/common.ts:523-527 | Removes exactly the listed guard paths, first to last. |
| ClaimFiles.StateDirectory.TryCreateState | apps/cli/src/connectors/common.ts:387-410 | Creates the file exactly if there is none; otherwise nothing changes. |
| ClaimFiles.StateDirectory.IsStale | apps/cli/src/connectors/common.ts:364-375 | A payload that names a running process is refused, with or without a claim id; one that names none is stale; the JSON value null is refused. |
| ClaimFiles.StateDirectory.TryWriteCandidate | apps/cli/src/connectors/common.ts:442-456 | The candidate carries claim id, process id and the start token the probe saw; an existing candidate ends the attempt. |
| ClaimFiles.StateDirectory.TryLink | apps/cli/src/connectors/common.ts:461-476 | Linking succeeds exactly on a free path and then the guard carries the candidate's payload. |
| ClaimFiles.AloneIsRun | apps/cli/src/connectors/common.ts:341-529 | The file-system calls one contender makes undisturbed are a run of the concurrent protocol. |
| ClaimFiles.AheadShrinks | apps/cli/src/connectors/common.ts:506-511 | Walking past a guard leaves fewer guards of that generation ahead: why the loop ends. |
| ClaimFiles.WalkChain | apps/cli/src/connectors/common.ts:461-512 | In a generation that lost no guard, the walk ends behind its chain of guards exactly if every owner from here on can be passed, and then on the first path behind the chain. |
| ClaimFiles.DeadOwnerPassable | apps/cli/src/connectors/common.ts:489-501 | In a reachable state a dead owner's guard can be passed exactly if its process id does not run again, or runs again with start tokens known on both sides. |
| ClaimFiles.Recovery | apps/cli/src/connectors/common.ts:341-529 | In every reachable state with a state file, whoever owns it, a contender alone wins exactly if the stale check accepts the file and every guard of it can be passed. |
| ClaimFiles.RecoveryByPayload | apps/cli/src/connectors/common.ts:341-529 | In every reachable state a contender alone wins exactly if there is no file, or its payload names no running process and is not the value null, and every guard of it has an owner whose process id does not run or runs with a start token known to differ. |
| ClaimFiles.CrashRecovery | apps/cli/src/connectors/common.ts:412-529 | When the owner of the file and all its guard owners are dead, recovery fails exactly if the recorded process id runs again or that of a guard owner does and is not recognised as another instance. |
| ClaimFiles.NoGuardLeft | apps/cli/src/connectors/common.ts:514-528 | A contender that gets through alone leaves no guard of the generation it replaced. |
| ClaimFiles.ReusedGuardPidBlocks | apps/cli/src/connectors/common.ts:489-500 | A reachable state in which nobody owns the file and the guard owner is dead, yet no contender can take over, because the guard owner's process id runs again. |
| ClaimFiles.ReusedPidBlocks | apps/cli/src/connectors/common.ts:366-370 | A reachable state in which a process that was given the dead owner's process id can never take over, not even when it is the contender itself. |
| Tar.ParseTarballEntries | apps/cli/script/verify-release.ts:82-117 | The loop over the blocks computes the specification parser on every input, with the same error for every bad input. |
| Tar.ReadHeader | apps/cli/script/verify-release.ts:92-101 | The header checks in source order: checksum, path, size; first failing one wins. |
| Tar.ComputeChecksum | apps/cli/script/verify-release.ts:93-95 | The loop sums the header with the checksum field read as eight spaces. |
| TarRoundTrip.RoundTrip | apps/cli/script/verify-release.ts:82-117 | Printing any non-empty list of distinct safe printable paths with data as ustar blocks, with any widths, blanks and terminators of size and checksum that the format allows, and parsing the image gives exactly that map. |
| TarRoundTrip.Accepted | apps/cli/script/verify-release.ts:82-117 | The parser accepts an image exactly if it lists entries up to a zero block, with some file and no file path twice; every entry then lies inside the image, apart from the others, under a safe path, and the result maps each path to its slice. |
| TarRoundTrip.PrintedHeader | apps/cli/script/verify-release.ts:92-101 | A printed header decodes to its path (prefix and name joined), its size and a regular-file type. |
| TarRoundTrip.OctalRoundTrip | apps/cli/script/verify-release.ts:75-79 | The value of a number printed in a fixed number of octal digits is that number. |
| TarRoundTrip.ReadNumber | apps/cli/script/verify-release.ts:75-79 | Octal digits with any number of spaces before and after them, then a NUL or the end of the field, are read back as their number; spaces alone are zero. |
| TarRoundTrip.SplitIsComplete | apps/cli/script/verify-release.ts:97-99 | The printer finds a name/prefix split whenever one exists. |
| TarRoundTrip.ParseItems | apps/cli/script/verify-release.ts:86-113 | From any block boundary on, parsing printed entries extends the files found so far by exactly those entries. |
| TarRoundTrip.ListedInside | apps/cli/script/verify-release.ts:86-113 | Listed entries have safe paths, lie inside the image and do not overlap. |
| TarRoundTrip.ListedParses | apps/cli/script/verify-release.ts:86-116 | An image that lists is accepted with exactly its collected files, unless a file path comes twice or there is none. |
| TarRoundTrip.ParsedLists | apps/cli/script/verify-release.ts:86-113 | An accepted image lists entries block by block. |
| TarRoundTrip.CollectedDistinct | apps/cli/script/verify-release.ts:106-108 | Collecting succeeds exactly if no file path comes twice. |
| TarRoundTrip.Collected | apps/cli/script/verify-release.ts:106-116 | Every collected path maps to its slice of the image, and nothing else is collected. |
| TarPaths.SafePathExactly | apps/cli/script/verify-release.ts:45-67 | A path is taken exactly if it begins with `package/`, holds no NUL, backslash or character reserved on Windows, has no two slashes in a row or at its end, no dot or space before a slash or the end, and no device name between a slash and a dot, a slash or the end. |
| TarPaths.PartsExactly | apps/cli/script/verify-release.ts:46 | The parts are what stands between two slashes, or between one and an end of the path. |
| TarPaths.DeviceExactly | apps/cli/script/verify-release.ts:61 | A part is refused as a device name exactly if one of the 22 names, in any case, stands before its end or a dot. |
| TarHeaders.NumberExactly | apps/cli/script/verify-release.ts:69-80 | A field is read as a number exactly if, before its first NUL, it holds octal digits between any white space of the language in UTF-8; otherwise the image is refused. |
| TarHeaders.HeaderExactly | apps/cli/script/verify-release.ts:92-101 | A header is read as path, size and kind exactly if its bytes say so, its checksum included; a wrong checksum and an unclean path each give their own error exactly when they are the first fault. |
| TarDamage.HeaderDamage | apps/cli/script/verify-release.ts:92-96 | Changing one byte of any header of an accepted image, outside its checksum field, makes the parser refuse the image for its checksum. |
| TarDamage.DataDamage | apps/cli/script/verify-release.ts:106-110 | Changing one byte of a file in an accepted image changes that byte of that file in the result, and nothing else. |
| RuntimeTurn.NoLostWakeUp | apps/cli/src/connectors/runtime-turn.ts:157-358 | In every reachable state a consumer that sleeps sees an empty queue and has a notifier set; it has received a prefix of the pushed items; it has left its loop exactly if its last item was an error or the end, and its caller is told exactly when, besides, the request has ended; until the request completes the chunks pushed concatenate to the streamed text. |
| RuntimeTurn.Drains | apps/cli/src/connectors/runtime-turn.ts:334-357 | Whatever was pushed up to the first error or end reaches the consumer in push order by its own steps, which then leave the loop; its caller can be told exactly if the request has ended. |
| RuntimeTurn.CallerWaitsForRequest | apps/cli/src/connectors/runtime-turn.ts:354-357 | A consumer that has left its loop stays there, with its error, until the end of the request lets its caller go on. |
| RuntimeTurn.FailureWaitsForRequest | apps/cli/src/connectors/runtime-turn.ts:258-357 | A run in which a failed event has been received while the request is still out: in no continuation is the caller told before the request ends. |
| RuntimeTurn.EventInv | apps/cli/src/connectors/runtime-turn.ts:157-358 | Every step of stream, request and consumer keeps the invariant of queue, notifier and text. |
| RuntimeTurn.DeltaExtends | apps/cli/src/connectors/runtime-turn.ts:108-133 | The delta is exactly what the streamed text grows by, in every case. |
| RuntimeTurn.DeliveredText | apps/cli/src/connectors/runtime-turn.ts:307-332 | A turn that completed and ended delivered the final text if that extends what had been streamed, and otherwise what had been streamed. |
| RuntimeTurn.StreamedGrows | apps/cli/src/connectors/runtime-turn.ts:271-275 | When every accumulated text is a prefix of one text, in any order and with repeats, the streamed text only grows along it, and changes exactly if a longer one arrives. |
| RuntimeTurn.CompletionStays | apps/cli/src/connectors/runtime-turn.ts:271-332 | Once the request has completed nothing more is streamed, and the final text stays. |
| RuntimeTurn.DeliversFinalText | apps/cli/src/connectors/runtime-turn.ts:271-332 | If every accumulated text is a prefix of the final text, in any order and with repeats, a successful turn delivers exactly the final text; for any events it does so exactly if what was streamed is a prefix of it. |
| TurnHistory.DecidedOnce | apps/cli/src/connectors/runtime-turn.ts:258-332 | Once a callback has returned, or the request answers after a failed event, neither callback is called again in any continuation; a turn that failed before its answer never completes and its failure is not reported twice. |
| TurnHistory.RespondExactly | apps/cli/src/connectors/runtime-turn.ts:293-327 | The answer comes once; it leads to `onCompleted` with its text, to `onFailed` with its message, or, after a failed event or for a queued prompt, to neither. |
| TurnHistory.CompletedExactly | apps/cli/src/connectors/runtime-turn.ts:307-327 | `onCompleted` gets the text of the result; if it throws, `onFailed` is next exactly if no event has failed. |
| TurnHistory.ErrorsExactly | apps/cli/src/connectors/runtime-turn.ts:258-328 | The errors pushed are those of the failed events, of the event stream and of the rejections reported to `onFailed`, each once and in that order of events, and no others. |
| TurnHistory.PushedGrows | apps/cli/src/connectors/runtime-turn.ts:163-167 | Items are only added behind those pushed before. |
| TurnHistory.ListensExactly | apps/cli/src/connectors/runtime-turn.ts:329-357 | Hub events can come exactly while the consumer has taken neither error nor end and the request is not settled. |
| TurnHistory.AppendsTexts | apps/cli/src/connectors/runtime-turn.ts:108-133 | While the accumulated texts do not continue what was streamed, exactly the delta texts are appended. |
| TurnHistory.StreamsTexts | apps/cli/src/connectors/runtime-turn.ts:108-133 | Without accumulated texts the streamed text is the delta texts in order. |
| TurnStream.Stream.Push | apps/cli/src/connectors/runtime-turn.ts:163-167 | Appends the item and wakes the consumer by clearing the notifier. |
| TurnStream.Stream.OnTextEvent | apps/cli/src/connectors/runtime-turn.ts:271-275 | Does to the variables what the model's text event does, and keeps the invariant. |
| TurnStream.Stream.OnFailedEvent | apps/cli/src/connectors/runtime-turn.ts:258-267 | The same for a failed event. |
| TurnStream.Stream.OnStreamError | apps/cli/src/connectors/runtime-turn.ts:277-289 | The same for an error of the event stream, at any time. |
| TurnStream.Stream.OnResponse | apps/cli/src/connectors/runtime-turn.ts:295-306 | The same for the settled request: queued, with a result, or rejected. |
| TurnStream.Stream.OnCompletedCalled | apps/cli/src/connectors/runtime-turn.ts:307-318 | The same for the remainder that is pushed after completion. |
| TurnStream.Stream.OnFailedCalled | apps/cli/src/connectors/runtime-turn.ts:320-328 | The same for the rest of the catch handler. |
| TurnStream.Stream.OnFinally | apps/cli/src/connectors/runtime-turn.ts:329-332 | The same for the finally handler, which pushes the end. |
| TurnStream.Stream.PullItem | apps/cli/src/connectors/runtime-turn.ts:334-353 | The same for one pass of the generator's loop, including going to sleep and waking to an empty queue. |
| TurnStream.Stream.OnRequestEnded | apps/cli/src/connectors/runtime-turn.ts:354-357 | The same for the end of the generator's finally block. |
| ThreadQueue.OneAtATimeInOrder | apps/cli/src/connectors/chat-runtime.ts:26-42 | In every interleaving a turn that has started finds every earlier turn of its thread settled, however it ended; the map has an entry for a thread exactly while one of its turns is unsettled. |
| ThreadQueue.Progress | apps/cli/src/connectors/chat-runtime.ts:31-39 | The queue itself holds nothing up, and failed work does not either: while a thread has an entry its first unsettled turn can start, settle once its work has ended, or end its work if that work can; when it cannot is what TurnDispatch.StopsExactly says. |
| ThreadQueue.ThreadsAreIndependent | apps/cli/src/connectors/chat-runtime.ts:31-40 | What can happen in one thread still can after any event of another, and two steps of turns of different threads lead to the same state in either order. |
| ThreadQueue.EventInv | apps/cli/src/connectors/chat-runtime.ts:26-42 | Every enqueue and every step of a turn keeps chain and map consistent. |
| ThreadQueue.ThreadQueues.EnqueueThreadTurn | apps/cli/src/connectors/chat-runtime.ts:26-42 | Appends a turn that waits for the promise found in the map and becomes the entry. |
| ThreadQueue.ThreadQueues.OnFinally | apps/cli/src/connectors/chat-runtime.ts:35-39 | Removes the entry exactly if it still is this turn. |
| Bindings.SharedBindingSharesQueue | apps/cli/src/connectors/thread-bindings.ts:156-199 | In every reachable store, two threads that resolve to the same conversation have the same turn-queue key, whatever orders the look-ups enumerate the keys in. |
| Bindings.FindFound | apps/cli/src/connectors/thread-bindings.ts:176-199 | A look-up finds a conversation exactly if there is one to find, and never a mute record. |
| Bindings.FindExactly | apps/cli/src/connectors/thread-bindings.ts:176-199 | With one conversation per DM the look-up has one possible answer, independent of key order. |
| Bindings.LoadRekeys | apps/cli/src/connectors/thread-bindings.ts:201-250 | In every store, loading moves the conversation under the thread's own id, keeps its session id and state, and leaves every other entry alone. |
| Bindings.LoadKeepsOne | apps/cli/src/connectors/thread-bindings.ts:201-250 | Loading keeps one conversation per DM. |
| Bindings.PersistKeepsOne | apps/cli/src/connectors/thread-bindings.ts:263-287 | Persisting keeps one conversation per DM exactly if the DM's stored conversation is this thread's. |
| Bindings.SerialisedTurnKeepsOne | apps/cli/src/connectors/thread-bindings.ts:201-287 | A load followed by the persist of the same thread keeps one conversation per DM. |
| Bindings.SerialRunsKeepOne | apps/cli/src/connectors/thread-bindings.ts:201-287 | Every run in which a thread of a DM persists, as often as it likes and with more loads of its own between, only while it is the last of that DM to be loaded keeps one conversation per DM; other threads, mutes and clears interleave freely. |
| Bindings.SerialStoresKeepOne | apps/cli/src/connectors/thread-bindings.ts:201-287 | So every store built that way from nothing has one conversation per DM. |
| Bindings.LoadedIsMine | apps/cli/src/connectors/thread-bindings.ts:201-250 | After a thread of a DM was loaded, no other thread holds the DM's conversation. |
| Bindings.InterleavedLoadSplitsDM | apps/cli/src/connectors/thread-bindings.ts:201-287 | When a message of another thread of the DM is loaded between a turn's load and its persist, the DM always ends up with two conversations. |
| Bindings.TwoConversations | apps/cli/src/connectors/thread-bindings.ts:201-287 | A run from the empty store that ends with two conversations for one DM. |
| Bindings.SessionCarriesOver | apps/cli/src/connectors/thread-bindings.ts:422-476 | The session persisted by one thread is what the next load gives, to that thread and to any other thread of the same DM without a conversation of its own. |
| Bindings.MergedSession | apps/cli/src/connectors/thread-bindings.ts:429-432 | The session of the merged state is that of the thread's own state, trimmed, if it names one; else the binding's; else none. |
| Bindings.MergedFields | apps/cli/src/connectors/thread-bindings.ts:433-459 | Each switch is the first present of own state, binding state and base; each text the first that is not empty. |
| BindingRecords.LoadRefreshes | apps/cli/src/connectors/thread-bindings.ts:218-249 | The record that a load finds comes to stand for this thread and, if one is named, this participant; it is rewritten exactly if it did not yet. |
| BindingRecords.LoadTwice | apps/cli/src/connectors/thread-bindings.ts:218-249 | A second load by the same thread changes nothing, unless it names no participant and the record has one: then every load rewrites it. |
| BindingRecords.LoadAfterPersist | apps/cli/src/connectors/thread-bindings.ts:263-287 | A thread that loads what it persisted finds every field of it and nothing to refresh. |
| BindingRecords.ThreadMutedExactly | apps/cli/src/connectors/thread-bindings.ts:289-303 | Muting a thread mutes it, unmuting ends that, and the mute of no other thread changes. |
| BindingRecords.ParticipantMutedExactly | apps/cli/src/connectors/thread-bindings.ts:305-331 | The same for a participant of a thread; without a participant nothing changes. |
| BindingRecords.ClearedForAll | apps/cli/src/connectors/thread-bindings.ts:546-569 | After clearing, every thread finds the record it found before, with everything but the session, and its merged state has no session. |
| Bindings.MutesTakeNoPart | apps/cli/src/connectors/thread-bindings.ts:356-382 | A thread mute changes no look-up exactly if its control key is not taken by a conversation. |
| Bindings.ParticipantMutesTakeNoPart | apps/cli/src/connectors/thread-bindings.ts:384-420 | The same for a participant mute. |
| Bindings.BindingFile.FindBinding | apps/cli/src/connectors/thread-bindings.ts:176-199 | The loop over the entries computes the look-up. |
| Bindings.BindingFile.ReadBindingForThread | apps/cli/src/connectors/thread-bindings.ts:201-250 | The store afterwards is the re-keyed one and the result is its entry for the thread. |
| Bindings.BindingFile.PersistThreadBinding | apps/cli/src/connectors/thread-bindings.ts:263-287 | Afterwards every look-up and load by the thread gives its own conversation with the session and state persisted, whatever the key order, and no other entry has changed. |
| Bindings.BindingFile.SetMuted | apps/cli/src/connectors/thread-bindings.ts:356-382 | Adds or removes exactly the thread's control entry. |
| TurnRecovery.AtMostTwoSends | apps/cli/src/connectors/connector-host.ts:1016-1201 | One message causes at most two sends; the second comes only after an unusable session and is never a steer; the message succeeds exactly if its last send was accepted. |
| TurnRecovery.SecondSessionExactly | apps/cli/src/connectors/connector-host.ts:1128-1190 | The second send goes to the failed session exactly if that session comes back: the condition names the awaits at which other code must have stored it again, in the thread's state or in the binding, or the hub must have issued it. |
| TurnRecovery.FailedSteerRecovers | apps/cli/src/connectors/connector-host.ts:1044-1079 | After a steer on an unusable session there is a second send exactly if a session is picked at named awaits after the failed one was forgotten, and the typing indicator works when its run starts; the message succeeds exactly if that send is accepted. |
| TurnRecovery.FailedRunRecovers | apps/cli/src/connectors/connector-host.ts:1148-1201 | A message that steers no turn is sent, and sent again after an unusable session, in all but the same two cases; it succeeds exactly if its last send is accepted. |
| TurnRecovery.SteersExactly | apps/cli/src/connectors/connector-host.ts:1016-1043 | A message steers exactly if, once its state is loaded, a turn with a session is listed under its key, or none is and one of its thread and session is listed; it steers that session. |
| TurnRecovery.FailedSteerTakesOff | apps/cli/src/connectors/connector-host.ts:1049-1057 | The turn a failed steer was aimed at is taken off the list, unless another one stands there by then. |
| TurnRecovery.RunListed | apps/cli/src/connectors/connector-host.ts:1222-1306 | A run lists itself while it lasts and takes off only itself; if the typing indicator fails it stays listed. |
| TurnRecovery.FailedSteerEndsWell | apps/cli/src/connectors/connector-host.ts:1044-1079 | An environment in which a failed steer is made up for by a run on a new session. |
| TurnRecovery.ComesBackHow | apps/cli/src/connectors/session-runtime.ts:180-252 | A session that comes back was stored or issued again meanwhile, or stood in the binding behind another session in the thread's state. |
| TurnRecovery.FailedSessionServesAgain | apps/cli/src/connectors/connector-host.ts:1165-1191 | An environment in which both sends go to the same session and the second is accepted: it is stored again during the clearing write. |
| TurnRecovery.MappingAfterRun | apps/cli/src/connectors/connector-host.ts:1193-1201 | After a message served by a run the mapping is the session that served it, exactly unless other code stored another one in the thread's state at the last await. |
| TurnRecovery.MappingAfterSteer | apps/cli/src/connectors/connector-host.ts:1026-1079 | A steer stores nothing: the mapping after it is what other code has left there. |
| TurnRecovery.SteerLeavesMapping | apps/cli/src/connectors/connector-host.ts:1016-1043 | A successful steer of a session that is not the mapping. |
| TurnRecovery.NewerLostExactly | apps/cli/src/connectors/session-runtime.ts:312-347 | The mapping is cleared only if it was loaded as the failed session; then a newer session that is the mapping when the write takes effect is lost, exactly unless it is stored again before the call returns. |
| TurnRecovery.NewerSessionLost | apps/cli/src/connectors/session-runtime.ts:329-346 | An environment in which a newer session is lost. |
| TurnRecovery.ResolveExactly | apps/cli/src/connectors/session-runtime.ts:180-252 | The session is the loaded one exactly if the hub can reuse it, and otherwise the one the hub issues, at named awaits. |
| TurnRecovery.ResolvedMapping | apps/cli/src/connectors/session-runtime.ts:189-309 | On return the mapping is that session unless other code has stored another since the write, be it during the hook that follows. |
| TurnRecovery.FirstActive | apps/cli/src/connectors/connector-host.ts:1020-1024 | An active turn of the session and thread is found exactly if there is one. |
| TurnRecovery.MappingIsMerged | apps/cli/src/connectors/thread-bindings.ts:463-476 | The mapping of the recovery model is the session of the merged thread state, when the two places name their sessions. |
| TurnRecovery.ConnectorHost.HandleUserTurn | apps/cli/src/connectors/connector-host.ts:1003-1087 | The code does to the two stored places, the active turns and the sends what the specification function does, which the lemmas above are about. |
| TurnRecovery.ConnectorHost.RunWithRecovery | apps/cli/src/connectors/connector-host.ts:1093-1202 | The same for the retry loop. |
| TurnRecovery.ConnectorHost.RunTurn | apps/cli/src/connectors/connector-host.ts:1208-1306 | The same for one run; if the typing indicator fails nothing is sent and the turn stays listed. |
| TurnRecovery.ConnectorHost.ForgetThreadSession | apps/cli/src/connectors/session-runtime.ts:320-347 | The same for clearing a failed session. |
| TurnRecovery.ConnectorHost.GetOrCreateSessionId | apps/cli/src/connectors/session-runtime.ts:163-310 | The same for finding or starting a session, with the hook at the end. |
| TurnRecovery.ConnectorHost.LoadThreadState | apps/cli/src/connectors/thread-bindings.ts:463-476 | The thread's state is read before the binding, and wins. |
| TurnRecovery.ConnectorHost.PersistMergedThreadState | apps/cli/src/connectors/thread-bindings.ts:534-544 | The thread's state is written within an await, the binding after it. |
| TurnDispatch.OutsideExactly | apps/cli/src/connectors/adapters/gchat.ts:714-718 | A run is started outside the queue exactly if its message found an active turn on arrival and none any more in its handler; otherwise its own queue turn is running. |
| TurnDispatch.QueuedAlone | apps/cli/src/connectors/chat-runtime.ts:26-42 | Two messages of one key are never both handled in the queue. |
| TurnDispatch.SharedSessionRuns | apps/cli/src/connectors/thread-bindings.ts:156-174 | Store, queue and dispatch together: runs of threads that share a stored conversation overlap only if one of them was started outside the queue in that way. |
| TurnDispatch.TwoRunsOverlap | apps/cli/src/connectors/connector-host.ts:1016-1087 | A reachable state with two runs of one key at the same time, one beside the queue and one in it. |
| TurnDispatch.WaitsForItselfExactly | apps/cli/src/connectors/connector-host.ts:1058-1071 | Of the messages that wait in the queue, exactly the recoveries of messages handled in the queue wait behind a turn of their own. |
| TurnDispatch.StuckForever | apps/cli/src/connectors/connector-host.ts:1064-1071 | A message that waits for itself never moves again, and no later turn of its key ever starts, in any continuation. |
| TurnDispatch.StopsExactly | apps/cli/src/connectors/connector-host.ts:1016-1201 | Nothing else stops a key: after any run, some continuation settles the first unsettled turn of a key exactly if the message it belongs to does not wait for itself. |
| TurnDispatch.MovesExactly | apps/cli/src/connectors/connector-host.ts:1016-1201 | After any run, the message of the first unsettled turn of a key can take a step exactly if it does not wait for itself. |
| TurnDispatch.EventHeld | apps/cli/src/connectors/connector-host.ts:1016-1306 | Every unsettled queue turn is the next step or the present place of the message it belongs to, whatever happens. |
| TurnDispatch.MessageWaitsForItself | apps/cli/src/connectors/connector-host.ts:1229-1230 | A run that gets there: the typing indicator of a first turn fails, and a second message already queued steers the turn that stayed listed. |
| TurnDispatch.EventInv | apps/cli/src/connectors/connector-host.ts:1016-1306 | Every arrival and every step of a message keeps messages, queue turns and their owners consistent. |
| TurnDispatch.OverForGood | apps/cli/src/connectors/chat-runtime.ts:26-42 | A message that has left its last turn is over: no event of it comes again. |
| TurnListing.DeadTurnStaysOff | apps/cli/src/connectors/connector-host.ts:1049-1057 | The run that a steer found unusable is never listed again, whatever happens next, and no later message of its key steers it. |
| TurnListing.ListedRuns | apps/cli/src/connectors/connector-host.ts:1222-1306 | If the typing indicator never fails, every listed run has a message in it. |
| McpCommand.QuoteCommandArg | apps/cli/src/commands/mcp.ts:35-40 | An argument is printed as it is exactly if it is non-empty and has no white space, quote or backslash; otherwise between double quotes. Either way the result has no white space at its ends. FeedQuoted says how what is inside is read. |
| McpCommand.FeedQuoted | apps/cli/src/commands/mcp.ts:35-40 | A tokenizer between tokens reads a printed argument as exactly that argument, whatever characters it has. |
| McpCommand.ReadsBack | apps/cli/src/commands/mcp.ts:48-56 | A tokenizer that keeps empty quoted tokens recovers every argument list from its line. |
| McpCommand.RenderInjective | apps/cli/src/commands/mcp.ts:48-56 | Two argument lists never print as the same line. |
| McpCommand.ParseStdioCommand | apps/cli/src/wizards/mcp/index.ts:69-112 | The loop of the repository's own tokenizer computes its specification. |
| McpCommand.ParsesBack | apps/cli/src/wizards/mcp/index.ts:69-112 | The repository's tokenizer gives back the list without its empty arguments: the same list exactly if none is empty. |
| McpCommand.PrefilledLineKeepsCommand | apps/cli/src/wizards/mcp/index.ts:114-132 | Accepting the pre-filled line configures the command asked for exactly if no argument is empty. |
| CommandLines.ReadsEverything | apps/cli/src/wizards/mcp/index.ts:69-112 | Every text can be read in the notation of bare, escaped and quoted pieces with white space between words, and the tokenizer gives exactly its words, empty ones left out; an unclosed quote runs to the end and a last backslash stands for itself. |
| CommandLines.ReadsLine | apps/cli/src/wizards/mcp/index.ts:69-112 | However a line is read in the notation, with either quotes, escapes anywhere and any white space, the tokenizer gives its words. |
| CommandLines.EscapedSpaceAtEnd | apps/cli/src/wizards/mcp/index.ts:74-84 | An escaped space at the very end is trimmed away before the tokenizer sees it, and its backslash stays. |
| ModeChange.OneAtATime | apps/cli/src/runtime/run-interactive.ts:320-344 | At most one change is in progress, and every change requested before it has settled. |
| ModeChange.StartedInOrder | apps/cli/src/runtime/run-interactive.ts:325-334 | Changes start in request order, each at most once, and the mode in force is that of the last one started. |
| ModeChange.FulfilledMeansApplied | apps/cli/src/runtime/run-interactive.ts:321-343 | A caller whose promise is fulfilled had its own target applied. |
| ModeChange.CallersInOrder | apps/cli/src/runtime/run-interactive.ts:321-323 | Callers share a change only for the same mode, never get an earlier change than an earlier caller, and no change waits for one of its own mode: repeats of the pending target are coalesced. |
| ModeChange.EveryChangeRequested | apps/cli/src/runtime/run-interactive.ts:320-344 | Every change was asked for by some caller, with that mode. |
| ModeChange.AllApplied | apps/cli/src/runtime/run-interactive.ts:320-344 | If no change fails, all are applied, in request order, and the mode at rest is the last one requested. |
| ModeChange.ModeAtRest | apps/cli/src/runtime/run-interactive.ts:335-343 | The mode at rest is the last one requested as soon as the last change succeeded, whatever happened to others. |
| ModeChange.FailureCascades | apps/cli/src/runtime/run-interactive.ts:326-328 | No change queued behind a failed one starts, however long the queue. |
| ModeChange.Progress | apps/cli/src/runtime/run-interactive.ts:325-340 | While a change is pending the first unsettled one can take its next step: nothing is stuck. |
| ModeChange.SubmissionPasses | apps/cli/src/runtime/run-interactive.ts:346-354 | When a submitted message gets past its wait, its mode is in force, or a change requested later has started. |
| ModeChange.RequestedExactly | apps/cli/src/runtime/run-interactive.ts:319-354 | Exactly a request, or a submission that is about to go on in a mode not in force, adds a caller: of the pending change if it has that target, or of a new one behind it. No other event adds a caller or a change. |
| ModeChange.InForcePasses | apps/cli/src/runtime/run-interactive.ts:346-354 | With nothing pending, submissions in the mode in force pass at once and change nothing else. |
| ModeChange.SubmitExactly | apps/cli/src/runtime/run-interactive.ts:346-354 | A submission waits for the pending change if there is one; otherwise it passes or requests its mode. |
| ModeChange.WakeExactly | apps/cli/src/runtime/run-interactive.ts:346-354 | A submission wakes up exactly when the change it waits for has settled, is rejected with it, and waits for at most one more. |
| ModeChange.NoticeIsNetChange | sdk/packages/shared/src/prompt/format.ts:53-80 | As long as no change failed after replacing another mode, at rest the pending notice is the switch from the mode the model was last told to the mode in force (none if equal) exactly if the model was told an interactive mode or nothing has changed; from yolo it starts at the first mode applied. |
| ModeChange.AbandonedExactly | apps/cli/src/runtime/run-interactive.ts:329-334 | The first change that fails in applyMode breaks that at once, exactly if it had replaced another mode. |
| ModeChange.AbandonedChangeMisleads | apps/cli/src/runtime/run-interactive.ts:329-334 | A run in which a failed switch makes the next message announce a switch that did not happen. |
| ModeChange.EventInv | apps/cli/src/runtime/run-interactive.ts:313-354 | Every request, submission and step of a change keeps the invariant. |
| ModeChange.ModeChanges.ApplyModeChange | apps/cli/src/runtime/run-interactive.ts:320-344 | Gives the caller the pending change of the same target, or a new one behind the pending one. |
| ModeChange.ModeChanges.OnReady | apps/cli/src/runtime/run-interactive.ts:329-331 | Stores the target mode exactly when ensureReady succeeded. |
| ModeChange.ModeChanges.OnApplied | apps/cli/src/runtime/run-interactive.ts:331-334 | Records the switch exactly if it succeeded from an interactive mode. |
| ModeChange.ModeChanges.OnFinally | apps/cli/src/runtime/run-interactive.ts:335-340 | Clears promise and target exactly if they still are this change's. |
| ModeChange.ModeChanges.WaitForSubmittedMode | apps/cli/src/runtime/run-interactive.ts:346-354 | Waits for what is pending, and otherwise requests its own mode unless it is in force. |
| Compaction.Build | sdk/examples/plugins/custom-compaction.ts:190-220 | The history is rewritten exactly if it reaches 90,000 tokens and the messages after the one that follows the first user message reach 24,000; otherwise it is returned as it is. |
| Compaction.ThreeMessages | sdk/examples/plugins/custom-compaction.ts:190-220 | A user message with two replies is rewritten exactly if their estimates reach 90,000 in all and the last one alone 24,000. |
| Compaction.FindRecentStartIndex | sdk/examples/plugins/custom-compaction.ts:87-100 | The loop finds the start of the shortest suffix that reaches 24,000 tokens; the fallback is taken exactly when the whole history stays below that. |
| Compaction.FindFirstUserIndex | sdk/examples/plugins/custom-compaction.ts:83-85 | Finds the first user message, and none exactly if there is none. |
| Compaction.CompactedOnce | sdk/examples/plugins/custom-compaction.ts:199-219 | Messages up to the first user message, one summary of a non-empty middle, shortest recent suffix: this determines the rewrite. |
| Compaction.TokensKept | sdk/examples/plugins/custom-compaction.ts:199-219 | A rewrite is never longer; its estimate is the old one without the middle plus the summary; what follows the summary is the recent suffix unchanged. |
| Compaction.RecentStartsLater | sdk/examples/plugins/custom-compaction.ts:200-206 | A suffix reaches the preserved amount exactly if it contains the shortest one. |
| Compaction.SecondPassOnlyResummarizes | sdk/examples/plugins/custom-compaction.ts:190-220 | Rewriting a rewritten history replaces nothing but the summary, however large that is. |
| Compaction.EstimateTokens | sdk/packages/shared/src/llms/tokens.ts:8-12 | The estimate is a third of the characters, rounded up, and one for no characters. |
| ToolPolicies.ApplyInteractiveAutoApproveOverride | apps/cli/src/runtime/tool-policies.ts:50-95 | After the in-place rewrite the "*" entry overlaid by the tool's entry is the resolver's answer from the old baseline for every tool name, whatever the target held before, even if target and baseline are one object; the table is given entry by entry. |
| ToolPolicies.RewriteAgrees | apps/cli/src/runtime/tool-policies.ts:30-48 | The rewritten table and the resolver function agree on every name. |
| ToolPolicies.ApprovedExactly | apps/cli/src/runtime/tool-policies.ts:30-48 | With the switch off a tool is auto-approved exactly if it is a safe one whose own entry does not forbid it; the switch never changes whether a tool is enabled. |
| ToolPolicies.NextPolicies | apps/cli/src/runtime/tool-policies.ts:55-88 | The next table has the baseline's names, "*" and, with the switch off, the safe names. |
| ToolPolicies.ApprovalController.SetInteractiveAutoApprove | apps/cli/src/runtime/interactive/approvals.ts:20-37 | However often the switch was thrown before, the runtime agrees with the resolver for the position now set, and the private baseline is unchanged. |
| HtmlEscape.FivePassesAreOne | apps/cli/src/session/export.ts:926-933 | The five replace passes equal one character-by-character mapping. |
| HtmlEscape.EscapedIsInert | apps/cli/src/session/export.ts:926-933 | Escaped text contains no `<`, `>`, double quote or single quote. |
| HtmlEscape.UnescapesBack | apps/cli/src/session/export.ts:926-933 | An unescape function recovers every text, so escaping loses nothing. |
| AbortListeners.OriginalOrSuppressed | apps/cli/src/runtime/active-runtime.ts:38-76 | After any marks, clears and timer firings the listeners are the original list when no abort is in progress and the one newest suppressor when one is; only the original list is ever saved. |
| AbortListeners.MarkHoldsExactly | apps/cli/src/runtime/active-runtime.ts:38-76 | A mark holds until the next clear exactly if it is not made in the grace period of an earlier abort. |
| AbortListeners.GraceMarkEnds | apps/cli/src/runtime/active-runtime.ts:38-76 | A run in which the second of two marks is ended with no clear after it. |
| AbortListeners.StaysUntilClear | apps/cli/src/runtime/active-runtime.ts:38-59 | Without a pending timer nothing but a clear can end an abort. |
| AbortListeners.FireNeedsClear | apps/cli/src/runtime/active-runtime.ts:57-77 | Every firing of the timer has a clear of its own after the firing before it. |
| AbortListeners.ActiveRuntime.MarkAbortInProgress | apps/cli/src/runtime/active-runtime.ts:38-59 | Saves the listeners and installs one suppressor, unless an abort is in progress. |
| AbortListeners.ActiveRuntime.ClearAbortInProgress | apps/cli/src/runtime/active-runtime.ts:61-65 | Leaves one pending timer. |
| AbortListeners.ActiveRuntime.OnGraceTimer | apps/cli/src/runtime/active-runtime.ts:65-75 | Puts the saved listeners back in order, each once, and ends the abort. |
| SessionEvents.KeptIncrease | apps/cli/src/runtime/session-events.ts:93-109 | Between two iteration starts the scores of the forwarded done events strictly increase. |
| SessionEvents.AtMostNine | apps/cli/src/runtime/session-events.ts:69-109 | At any moment at most nine done events of the current iteration have been forwarded. |
| SessionEvents.NineReached | apps/cli/src/runtime/session-events.ts:69-109 | Nine are reached: done events of rising scores are all forwarded. |
| SessionEvents.LastForwardedIsBest | apps/cli/src/runtime/session-events.ts:93-109 | The done event forwarded last has the best score received in its iteration. |
| SessionEvents.KeepIfBetter | apps/cli/src/runtime/session-events.ts:97-108 | Comparing with the one remembered done event decides the same as comparing with all earlier ones of the iteration. |
| SessionEvents.OthersUnchanged | apps/cli/src/runtime/session-events.ts:93-109 | All other events are forwarded unchanged and in order. |
| SessionEvents.ArrivedExactly | apps/cli/src/runtime/session-events.ts:110-149 | What arrives at the filter are exactly the events of the lead, the usage events of teammates, and chunks of agent output before any structured event, each once and in order. |
| SessionEvents.MoreCompleteScoresHigher | apps/cli/src/runtime/session-events.ts:69-84 | A done event that has everything another one has scores at least as high, and the same exactly if it has nothing more. |
| SessionEvents.Subscription.EmitAgentEvent | apps/cli/src/runtime/session-events.ts:93-109 | What the callback has been given is the kept subsequence of what arrived, with one more event. |
| SessionEvents.Subscription.OnSessionEvent | apps/cli/src/runtime/session-events.ts:110-149 | After any series of session events the callback has been given exactly the kept ones among those that arrive: lead events, teammate usage, and chunks before the first structured event. |

## Left out

- The moment between open and write in which a new file is empty, and failures of file removal.
- `removeStaleState` and `stopManagedProcess` in `base.ts`, which delete state files from outside the protocol.
- Tar names are byte strings: UTF-8 decoding, which maps distinct invalid sequences to U+FFFD, is not modelled; the printer writes regular files only.
- Stored binding objects with keys of `Object.prototype`, and JSON that is not a store of bindings.
- TurnRecovery.ConnectorHost.HandleUserTurn: does not model the error raised when no turn queue was passed in, failures of writing the stored state, nor failures of preparing the prompt or of the empty-reply resolver, all of which end the message.
- In the recovery other code may write the two stored places at any await; the loads and persists of `Bindings` are not replayed there, so only the session id is followed.
- A consumer that abandons the text stream before it ends, tool-status, approval and media events of the stream.
- `clearSession`, `isReusableConnectorSession` and the status strings behind it: whether a session is reusable is an answer of the environment.
- Chat commands, authorization hooks, schedules, logging and telemetry of the connector host.
- Options of `mcp install` other than the command line: names, URLs, headers, environment variables.
- The queue `pendingModeChange` of the interactive runtime, and mode switches made by the model itself.
- The text of the compaction summary and message serialisation: both are parameters; the hook example repeats the same algorithm.
- Policy fields that are present with the value `undefined`, and tool names that are keys of `Object.prototype`.
- Everything of `export.ts` but the escaper.
- Exceptions thrown by the event callback, and agent events whose JSON has no type.
- Process spawning, hub, network, provider and registry calls, terminal UI, palette arithmetic, release checks other than the tar parser: they add no state machine of their own or are operating-system plumbing.
