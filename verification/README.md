# Rustrace verification

A Dafny model of the deterministic cores of Rustrace, with proofs of what each of them promises. Rustrace records coursework as a journal of events, replays it, and derives bounded review facts from it; the model covers the recording session and its reader, the replay diff, the review advisories and indicators, the language-server client, the execution of owned processes, the bounded display, and the console and framing grammars.

`dafny verify dfyconfig.toml` checks everything, with the options the configuration names.

## How it is organised

| file | what it models |
|---|---|
| `ReplayDiff.dfy` | the line diff of two texts: table, walk and limits |
| `Editing.dfy` | text edits, undo history and the validation every transaction passes |
| `Recording.dfy` | the one-file recording session: preflight, persistence, failure, finish |
| `MilestoneReader.dfy` | the reader that recomputes a stored session's budgets and state |
| `ReviewFlags.dfy` | sliding-window advisories over an attempt |
| `DocumentUri.dfy`, `LanguageProtocol.dfy` | the document mirror, requests, deadlines, outbox and diagnostics of the language-server client |
| `LanguageLifecycle.dfy` | resolvers, transports, retries and the cleanup latch around it |
| `CommandProcess.dfy` | capture, live output, input and outcome of an owned child process |
| `Display.dfy` | bounded display of untrusted text |
| `CommandDiagnostics.dfy`, `ProcessIndicators.dfy`, `IndicatorLinks.dfy`, `IndicatorCounts.dfy` | diagnostics of a command's evidence, the counters and the process rule they feed, the events the counters link, and what the counters add up to |
| `ConsoleGrammar.dfy`, `Framing.dfy` | the literal console grammar and the frames of the language-server base protocol (section "Base Protocol" of LSP 3.17) |
| `Common.dfy`, `Utf8.dfy`, `CargoActions.dfy`, `OutputCapture.dfy` | shared values |

Where the source is an object whose methods update its fields, the model is a class with those fields. Each method is proved equal to a function from the old state (a snapshot of the fields) to the new one, and the invariants and theorems are lemmas about those functions, over single steps and whole runs. A function that a method is proved equal to is itself pinned by a lemma that does not mention it: what it answers, and exactly when, in terms of the inputs or the whole stream. Ghost fields only record history: messages queued, bytes received, events seen.

Everything outside the code is a parameter, so that the theorems hold for every behaviour of it: what identity checks, writers, transports, the operating system and clocks answer; encoded sizes, JSON parsing, grapheme segmentation and single-word grammars are functions about which nothing is assumed except what is named (a codec's `decode` inverts its `encode`; a recognised style sequence is not empty; where styles are placed, clusters are not empty and their lengths add up to that of the text). Hashes have a fixed width and do not occur in sizes.

Counters are unbounded naturals where the limits of the source keep them far below their machine width; where the source saturates, truncates or checks for overflow, so does the model.

## What turned out not to hold

- **Recording and verification do not always agree.** Undoing the removal of more than 256 KiB is recorded as one transaction of several ranges, because the inverse is cut into insertions of at most 256 KiB, while the reader accepts only transactions of one range (src/milestone_a.rs:1975-1985). `MilestoneReader.AgreementFails` shows it on every platform that can record three actions: a session that selects, clears and restores a text of 262,145 letters starts, runs and finishes and is then refused. `MilestoneReader.SessionVerifies` proves that this is the only way: the preflight refuses a finished session exactly when such an undo was recorded, and otherwise returns exactly the writer's bytes. A caller can see the condition before the call: it is the length of the range at the top of the undo history.
- **A refused completion request may still be answered.** A request is entered as pending before it is queued, so when only queueing refuses it the caller is told it was not made, and later is handed a response to it. `LanguageProtocol.RefusedButIssued` states exactly when: the request is otherwise in order, and the outbox is full or the message does not fit. `LanguageProtocol.RefusalReached` leads a new incarnation there: for every number of messages from the channel's four on, the transport takes that many and is full from then on, while a server that answers only what it was sent keeps asking. `LanguageProtocol.RefusedAnswered` proves that the response comes, whatever happens in between, once a poll at or after the deadline succeeds.

## Model

| member | source | states |
|---|---|---|
| ReplayDiff.CompareFiles | src/replay_tui/diff.rs:75-164 | for all inputs exactly one answer: binary when both texts are small enough and one is not UTF-8; too large when a text, its lines, the table or the script passes a limit; otherwise the first minimal script with its counts, showing both texts |
| ReplayDiff.CompareLines | src/replay_tui/diff.rs:84-164 | the table and the walk return a script exactly when the table and the script keep their limits, and otherwise a notice; the script is the first of all minimal ones and shows both sides line by line |
| ReplayDiff.FillTable | src/replay_tui/diff.rs:100-113 | every cell of the flat table is the length of a longest common subsequence of two suffixes; all indices are in range and the 16-bit addition never saturates |
| ReplayDiff.Walk | src/replay_tui/diff.rs:115-164 | the walk over the table produces the script with exact counts, or stops exactly when the output limits are passed |
| ReplayDiff.SplitLines | src/replay_tui/diff.rs:173-186 | the logical lines and their unterminated mark stand for the raw lines of the text |
| ReplayDiff.RawLinesConcat | src/replay_tui/diff.rs:173-186 | the raw lines concatenate to the text |
| ReplayDiff.RawLinesExact | src/replay_tui/diff.rs:173-186 | the raw lines are the only cut of the text after each of its line feeds |
| ReplayDiff.LcsLongest | src/replay_tui/diff.rs:100-113 | no common subsequence of two sequences is longer than the length the table computes |
| ReplayDiff.ScriptTransforms | src/replay_tui/diff.rs:115-164 | context and deletions are the left lines, context and insertions the right lines, in order |
| ReplayDiff.ScriptContext | src/replay_tui/diff.rs:115-164 | the number of context lines is the length of a longest common subsequence |
| ReplayDiff.ScriptMinimal | src/replay_tui/diff.rs:115-164 | no edit script between the same lines has fewer insertions and deletions |
| ReplayDiff.ScriptFirst | src/replay_tui/diff.rs:115-164 | of all minimal scripts the walk yields the first, where context comes before deletions and deletions before insertions |
| ReplayDiff.ComparisonFaithful | src/replay_tui/diff.rs:84-164 | a shown script holds both texts byte for byte, and shows every line with its kind and the marks of missing line ends |
| ReplayDiff.ComparisonMinimal | src/replay_tui/diff.rs:84-164 | the reported counts are those of the shown script, and they are least among all edit scripts of the two texts |
| ReplayDiff.ComparisonContext | src/replay_tui/diff.rs:84-164 | no common subsequence of the lines of the two texts is longer than the shown context |
| ReplayDiff.ComparisonAnswers | src/replay_tui/diff.rs:75-164 | when a comparison is binary, too large or a script, as conditions on the two texts: their sizes, their encoding, their lines, the table, and the lines and bytes of the first minimal script |
| Utf8.ValidExactly | src/replay_tui/diff.rs:84-86 | the byte sequences taken as text are exactly the encodings of sequences of Unicode scalars |
| Editing.TransactionAfterLength | src/milestone_a.rs:1417-1446 | the length a transaction leaves, or which of the two ways it is refused |
| Editing.AfterLengthExact | src/milestone_a.rs:1417-1446 | the length computed from the ranges is the length of the edited text |
| Editing.AppliedPieces | crates/editor/src/buffer.rs:2029-2058 | replacing the ranges from the last to the first gives the text read from the front: what lies between the ranges, with the insertions in their place |
| Editing.InverseRestores | crates/editor/src/buffer.rs:2219-2285 | applying the inverse of an edit, in however many chunks, to the edited text gives the text back |
| Editing.InverseIsSingle | crates/editor/src/buffer.rs:2256-2279 | the inverse is a single range exactly when the removed text fits one insertion |
| Editing.UndoAfterEdit | crates/editor/src/buffer.rs:1061-1083 | after a plain edit undo is admitted, and restores the text, the selection and the undo history |
| Editing.RedoAfterUndo | crates/editor/src/buffer.rs:1061-1083 | after that redo is admitted, and restores what the edit left, its selection and both histories |
| Recording.PerformedSteps | src/milestone_a.rs:343-443 | any action on a healthy session changes nothing, adds one acknowledged record and stays healthy, or ends recording with a journal that replays |
| Recording.BudgetRefusalIsPure | src/milestone_a.rs:769-851 | a budget refusal of an edit or selection leaves the whole session as it was: it can only come before the editor is mutated |
| Recording.PoisonedIsFinal | src/milestone_a.rs:924-961 | after the first failure no action changes anything |
| Recording.PoisonedRunIsFinal | src/milestone_a.rs:924-961 | over whole runs: once a run has failed no further calls change the session, and it never finishes or gains a record |
| Recording.RunConsistent | src/milestone_a.rs:343-961 | in every reachable state the journal replays; while nothing failed it replays to the editor's text, version and selection, the counters are the recomputed totals, and the two terminal records fit all limits |
| Recording.PerformedRecords | src/milestone_a.rs:603-691 | a recorded action appends exactly the selection or transaction it asked for and moves every counter with it |
| Recording.PerformedExactly | src/milestone_a.rs:343-443 | what every action does on a healthy session in every environment: refused by the editor, by exactly the first limit that fails (256 records, the source's megabyte, the state's 64 and the events' 32 mebibytes, each with the terminal records reserved), by the environment, or recorded; in particular it is recorded whenever it leaves room and the environment cooperates |
| Recording.AcknowledgeReserved | src/milestone_a.rs:769-851 | room for a record and two terminal records leaves room for two terminal records |
| Recording.StartHealthy | src/milestone_a.rs:155-307 | a session that starts is healthy, whatever its starter text |
| Recording.StartedExactly | src/milestone_a.rs:155-307 | a session starts exactly when the environment cooperates, the starter text is small enough and its genesis record can be encoded and afforded; otherwise the first of these decides the error |
| Recording.FinishOutcome | src/milestone_a.rs:445-601 | finishing a healthy session succeeds exactly when the environment cooperates, never stops on a budget, and leaves two terminal records, the final snapshot, exact byte totals and the text in the source file |
| Recording.PoisonedNeverFinishes | src/milestone_a.rs:453-456 | a failed session never finishes, and trying to adds nothing to its journal or source |
| Recording.OneFileSession.Start | src/milestone_a.rs:155-307 | the steps of a start in order; whatever the environment does, a session that starts holds the starter text in its editor and its source and satisfies the session invariant |
| Recording.OneFileSession.PersistJob | src/milestone_a.rs:732-767 | a record is counted only when acknowledged; anything else closes the writer and keeps the first failure |
| Recording.OneFileSession.PersistEvent | src/milestone_a.rs:693-730 | an event is charged before it is submitted and its charge is kept only when it was acknowledged |
| Recording.OneFileSession.PersistAppliedEdit | src/milestone_a.rs:628-667 | exactly one captured transaction is persisted and its state charged |
| Recording.OneFileSession.ApplyEditorEdit | src/milestone_a.rs:603-626 | preflight, commit, persistence and failure of an edit, in this order |
| Recording.OneFileSession.MoveCursor | src/milestone_a.rs:343-367 | a selection is recorded only when it changed and only after its preflight |
| Recording.OneFileSession.PreflightRecordedState | src/milestone_a.rs:769-817 | the refusals before a mutation, in the order they are tested; `PerformedExactly` says which inequality makes each of them happen |
| Recording.OneFileSession.PreflightFinalization | src/milestone_a.rs:861-922 | the refusals before finalization, in the order they are tested |
| Recording.OneFileSession.TryFinish | src/milestone_a.rs:453-601 | the whole of finishing, step by step |
| MilestoneReader.PreflightMilestoneStream | src/milestone_a.rs:1930-2071 | the loop over stored records returns the projected total, or the first refusal |
| MilestoneReader.AcceptedExactly | src/milestone_a.rs:1930-2071 | any stored stream is accepted exactly when its start is in order and every record is supported where it stands: edits of one range that go on from the version counted and the selection last set, inside the length added up so far, checkpoints of that length, version and selection, and the terminal records in their places; the bytes returned are the charges of all its states |
| MilestoneReader.RefusedExactly | src/milestone_a.rs:1930-2071 | the first record that is not supported, or whose state passes the limit, decides the refusal, and which one it is |
| MilestoneReader.ReadAllEvents | src/milestone_a.rs:2245-2288 | the paged loop returns all events and their total charge, or the first refusal |
| MilestoneReader.EventsReadExactly | src/milestone_a.rs:2245-2288 | events are read back exactly when there are that many, at most 256, each under its sequence, all encodable and together within the limit |
| MilestoneReader.ReaderAgrees | src/milestone_a.rs:1930-2071 | the preflight of a finished journal returns the charges of its replayed states when every transaction is one range, and refuses it otherwise |
| MilestoneReader.WriterReaderAgree | src/milestone_a.rs:1930-2288 | for every session that finishes, reading back charges exactly the writer's event bytes, and the preflight returns exactly its state bytes or refuses, depending only on the transactions being one range |
| MilestoneReader.RecordsSeveral | src/milestone_a.rs:1975-1985 | a recorded action adds a transaction of several ranges exactly when it undoes the removal of more than one insertion can hold |
| MilestoneReader.SessionVerifies | src/milestone_a.rs:1601-1700 | over whole sessions: verification recomputes exactly the writer's budgets, and refuses what recording admitted exactly when a large removal's undo was recorded |
| MilestoneReader.AgreementFails | src/milestone_a.rs:1975-1985 | on every platform with a small layout on which selecting, clearing and restoring a text of 262,145 letters can be encoded and afforded, that session starts, runs and finishes, and the preflight refuses it |
| ReviewFlags.RecordableFits | crates/model/src/rprov.rs:40-50 | at most a million events of at most 1,024 edits of at most 256 KiB each keep every total below 64 bits, so that no counter saturates |
| ReviewFlags.RunMeans | src/review_flags.rs:241-436 | after every stream whose totals fit 64 bits the three queues and all counters have their meaning over the whole stream |
| ReviewFlags.TypedAfterPastesExact | src/review_flags.rs:311-358 | the number of blocked pastes typed through is exactly the number with a burst of at least 200 characters typed after them, ending at a Keyboard event inside their window; the one remembered is the earliest, with its peak |
| ReviewFlags.EarlierQualifies | src/review_flags.rs:304-310 | among open pastes the qualifying ones are a prefix, oldest first |
| ReviewFlags.PeakIsGreatest | src/review_flags.rs:340-358 | the peak is the greatest burst after the paste inside its window |
| ReviewFlags.AdvisoriesExact | src/review_flags.rs:360-436 | the advisories raised are exactly those of the stream: large insertions, and each rising edge of the sustained rate linked to the first Keyboard event of its window |
| ReviewFlags.QueueExact | src/review_flags.rs:294-330 | the queue is exactly the blocked pastes that were neither typed through nor timed out, in stream order |
| ReviewFlags.WindowIsDifference | src/review_flags.rs:326-332 | a burst after a paste is a difference of running totals |
| ReviewFlags.FinishExact | src/review_flags.rs:438-464 | the last advisory links the earliest qualifying paste and reports its peak and the exact counts |
| ReviewFlags.ConcludedExact | src/review_flags.rs:438-466 | for every recordable stream the advisories handed over are, as a whole sequence, those raised, then the summary of the blocked pastes exactly when there were any, then that of the ones typed through exactly when there were any |
| ReviewFlags.SaturationHidesTyping | src/review_flags.rs:318-332 | why the recorded limits matter: beyond them, with 2^64 - 1 characters in one transaction, the saturated total would hide a qualifying paste |
| ReviewFlags.AdvisoryAccumulator.ObserveTypingAfterRejectedPastes | src/review_flags.rs:311-358 | the queue loops compute the specified step |
| ReviewFlags.AdvisoryAccumulator.ObserveSustainedRate | src/review_flags.rs:394-436 | the coalescing, pruned queue computes the specified step |
| ReviewFlags.AdvisoryAccumulator.ObserveEvent | src/review_flags.rs:270-292 | one event changes the accumulator as specified |
| ReviewFlags.AdvisoryAccumulator.Conclude | src/review_flags.rs:438-466 | after any recordable stream it hands over exactly the sequence of `ConcludedExact`: the advisories defined on the stream and the two summaries with their links and counts |
| DocumentUri.Encode | src/language_service.rs:1382-1398 | the loop encodes every byte as specified |
| DocumentUri.DecodeEncode | src/language_service.rs:1382-1398 | reading an encoded path gives the path back |
| DocumentUri.UriInjective | src/language_service.rs:1375-1380 | different paths have different URIs |
| DocumentUri.EncodedLength | src/language_service.rs:1382-1398 | exactly the bytes that are not unreserved are escaped, and a path without such bytes is kept |
| DocumentUri.EncodedPlain | src/language_service.rs:1382-1398 | an encoded path holds only unreserved characters and the signs of escapes |
| LanguageProtocol.ReconciledMirrors | src/language_service.rs:996-1068 | wherever reconciling stops, what was queued opens no open document, changes or closes no closed one, raises every version, and leaves the server with exactly the mirrored documents; success mirrors exactly the desired list |
| LanguageProtocol.ReconciledExactly | src/language_service.rs:996-1068 | while the outbox has room for a message about every document, reconciling succeeds exactly when what must go can be closed, and what is wanted is known as it is, or can be opened, or changed to a newer version |
| LanguageProtocol.PolledMirrors | src/language_service.rs:781-803 | every poll keeps the mirror, whatever arrives and wherever it stops |
| LanguageProtocol.FlushedOrdered | src/language_service.rs:805-820 | for any pattern of full answers, the messages sent followed by the outbox are the queue order |
| LanguageProtocol.FlushedExactly | src/language_service.rs:805-820 | flushing sends exactly the messages taken before the first full or broken answer; a full one keeps the rest, a broken one loses one message and fails |
| LanguageProtocol.PolledOrdered | src/language_service.rs:781-820 | what was sent is a beginning of what was queued, and while polls succeed the outbox is the rest |
| LanguageProtocol.AnsweredCorrelates | src/language_service.rs:912-918 | answering moves a pending request to the responses with its own request, and the eviction never fires |
| LanguageProtocol.PolledCorrelates | src/language_service.rs:781-918 | every poll keeps each issued request either pending or answered once; a successful one leaves none that has run out |
| LanguageProtocol.AnsweredByDeadline | src/language_service.rs:1151-1165 | once a poll at or after its deadline succeeds, a request has been answered |
| LanguageProtocol.PolledWaitsExactly | src/language_service.rs:781-803 | after a poll that succeeds a pending request still waits exactly when no message of the batch answers it and its deadline has not come |
| LanguageProtocol.PolledHandsOver | src/language_service.rs:860-918 | a poll that succeeds hands over the first response of its batch to each waiting completion request, with its items when it came in time and did not fail |
| LanguageProtocol.PolledReplies | src/language_service.rs:956-994 | a poll that succeeds queues exactly one reply to each request of the server, in their order |
| LanguageProtocol.RefusedButIssued | src/language_service.rs:728-779 | a completion request is refused and yet pending, with its own request and deadline, exactly when everything but queueing admits it; any other refusal changes nothing |
| LanguageProtocol.AskedExactly | src/language_service.rs:728-779 | a completion request is accepted exactly for a document the server knows as it is, while there is room, and is then pending for three seconds and queued last |
| LanguageProtocol.ReloadExactly | src/language_service.rs:728-759 | a reload is asked for exactly when the server is ready and none is pending |
| LanguageProtocol.InitializedExactly | src/language_service.rs:860-902 | the answer to the initialization makes the client ready and say so exactly when it is no failure, acceptable, and the notification can be queued |
| LanguageProtocol.RefusalReached | src/language_service.rs:805-820 | such a refusal is reached, for every number of messages from the capacity of the channel on: that many are sent before the transport stays full, the server answers only what it was sent, and the outbox is exactly full when the first completion is requested |
| LanguageProtocol.RefusedAnswered | src/language_service.rs:1151-1165 | after such a refusal and any further acts, once a poll at or after the deadline succeeds the caller has a response carrying that very request |
| LanguageProtocol.PolledCurrent | src/language_service.rs:920-947 | the diagnostics a poll hands over are one set per document, for the path and version the server was last told |
| LanguageProtocol.PublishedExactly | src/language_service.rs:920-947 | a publication for a mirrored path and version replaces what was published for that document and nothing else |
| LanguageProtocol.LastPublicationKept | src/language_service.rs:920-947 | of the publications in a batch the last readable one for a mirrored document at its version is handed over: none is crowded out |
| LanguageProtocol.RunSound | src/language_service.rs:781-1165 | for all acts and any behaviour of server and transport: mirror, order and correlation hold together at every point of an incarnation |
| LanguageProtocol.BeginSound | src/language_service.rs:685-726 | a new incarnation starts with all of them |
| LanguageProtocol.SentServed | src/language_service.rs:805-820 | what the server has received so far obeys document synchronization too |
| LanguageProtocol.Protocol.ReconcileDocuments | src/language_service.rs:996-1068 | the loops close, open and change as specified |
| LanguageProtocol.Protocol.SendRequest | src/language_service.rs:728-759 | the identifier is taken and the request pending before it is queued |
| LanguageProtocol.Protocol.Flush | src/language_service.rs:805-820 | the loop sends from the front until the transport is full or broken |
| LanguageProtocol.Protocol.HandleMessage | src/language_service.rs:822-910 | one message changes the state as specified |
| LanguageProtocol.Protocol.HandlePublishDiagnostics | src/language_service.rs:920-947 | published diagnostics are kept only for a mirrored URI and version |
| LanguageProtocol.Protocol.CheckDeadlines | src/language_service.rs:1151-1165 | expired completions are answered empty, in order; any other expired request fails the poll |
| LanguageProtocol.Protocol.PollOnce | src/language_service.rs:781-803 | the five stages of a poll, in order |
| LanguageLifecycle.OperatedSafe | src/language_service.rs:1488-1797 | every operation keeps the service safe: the latch excludes anything running, and retries bound the back-offs |
| LanguageLifecycle.UncertaintyStopsStarts | src/language_service.rs:1626-1713 | once cleanup is uncertain it stays so, and no operation starts a resolver or a transport |
| LanguageLifecycle.NothingStartsAfterUncertainty | src/language_service.rs:1488-1797 | the same over every run |
| LanguageLifecycle.BackoffsBounded | src/language_service.rs:1761-1777 | in every run at most five back-offs between resets, of 250, 500, 1000, 2000 and 4000 ms |
| LanguageLifecycle.BacksOffExactly | src/language_service.rs:1761-1777 | a back-off is entered only by a retry within the limit, and otherwise just goes on |
| LanguageLifecycle.BackoffWaits | src/language_service.rs:1488-1588 | while a back-off lasts no poll changes anything; the first one that may write at or after its end resolves anew |
| LanguageLifecycle.StartsExactly | src/language_service.rs:1626-1672 | a resolver or a transport is started exactly by a resolution whose thread starts or a launch that succeeds |
| LanguageLifecycle.RetriesExactly | src/language_service.rs:1761-1777 | a retry within the limit backs off until 250 ms, doubled for each retry since the last reset, after the clock then read; one past the limit gives up |
| LanguageLifecycle.LatchesExactly | src/language_service.rs:1700-1797 | cleanup becomes uncertain exactly when something that ended is not known to be gone |
| LanguageLifecycle.LanguageService.PollState | src/language_service.rs:1488-1588 | one poll changes the state as specified |
| LanguageLifecycle.LanguageService.AuthorizeResolution | src/language_service.rs:1626-1672 | launching, backing off, giving up or latching, as specified |
| LanguageLifecycle.LanguageService.ReloadService | src/language_service.rs:1674-1695 | a reload is refused by the latch, sent, or becomes a restart |
| LanguageLifecycle.LanguageService.CancelAndStop | src/language_service.rs:1786-1797 | whatever was running is ended, and an unconfirmed end sets the latch |
| CommandProcess.PushKeepsTail | src/command_process.rs:135-149 | dropping from the front and appending leaves the last bytes of everything pushed |
| CommandProcess.LiveOutput.Push | src/command_process.rs:135-149 | the buffer is the tail of everything pushed and the position counts all of it |
| CommandProcess.LiveOutput.PositionedSnapshot | src/command_process.rs:151-160 | start and length of a snapshot add up to everything pushed, of which it is exactly the end |
| CommandProcess.DrainedConserves | src/command_process.rs:621-656 | a turn keeps the capture a prefix of the stream, whole unless marked, and moves bytes one for one from the budget to it |
| CommandProcess.DrainedExactly | src/command_process.rs:621-656 | a turn takes its reads until one ends it, and at most eight; it keeps everything they offer up to the budget, and the last read decides how the stream is left |
| CommandProcess.Pipe.DrainWithLive | src/command_process.rs:621-656 | the bounded loop drains as specified, and the live output sees exactly the kept bytes in drain order |
| CommandProcess.RanBounded | src/command_process.rs:621-656 | in every run the kept stdout bytes, the kept stderr bytes and the remaining budget add up to the limit |
| CommandProcess.OutcomeSound | src/command_process.rs:923-1050 | whatever the operating system does, a normal exit is reported only with both captures complete and whole; cleanup is pending exactly when unconfirmed, and then the outcome is a cleanup failure |
| CommandProcess.OutcomeExact | src/command_process.rs:923-1050 | the result comes at exactly the first turn after which the execution is over, and says exactly what the answers say: the code of the first status reaped when no turn gives a reason, and otherwise the lasting reason (cancellation, output limit, failed read, deadline, in that order, or a cleanup failure) with the signal of that status |
| CommandProcess.NotLaunchedExact | src/command_process.rs:815-860 | when a command is not launched at all, and what is reported then |
| CommandProcess.ExecutedSound | src/command_process.rs:815-1050 | the same of every execution from its bounds on, that the captures together never pass the limit, and that the live output saw as many bytes as they hold |
| CommandProcess.LoopBounded | src/command_process.rs:944-1010 | the turn that sees the deadline starts cleanup, and two seconds of cleanup end the loop |
| CommandProcess.Execution.Loop | src/command_process.rs:923-1011 | the loop takes turns as specified |
| CommandProcess.Execute | src/command_process.rs:815-1050 | the result of the specification, refusals before launch included; afterwards the live output is the tail of exactly the kept bytes of both streams in drain order |
| CommandProcess.ExecutedFed | src/command_process.rs:706-770 | over a whole execution, whatever the child and the operating system do, what its standard input took is a beginning of the initial bytes and then the lines submitted before anything else, and all of what was received once the input closed without breaking |
| CommandProcess.FedFeeding | src/command_process.rs:706-770 | what the input pipe took is a beginning of what was submitted, the pending bytes are the rest, nothing is lost unless the pipe breaks, and the buffer stays within its bound |
| CommandProcess.FedExactly | src/command_process.rs:706-770 | a turn takes the first submissions, at most sixteen and while any line is sure to fit, writes as much as the pipe takes, and closes exactly when the input ended and all is written, or the pipe broke |
| CommandProcess.SubmittedInput.PollOnce | src/command_process.rs:706-770 | receiving, writing and closing as specified |
| Display.Parse | src/display.rs:174-293 | decoding, laying out and marking within the clamped limits give the display of the specification, counters included |
| Display.TruncatedExactly | src/display.rs:174-279 | a display is truncated exactly when something does not fit: the input its limit, its text or style runs theirs, or the bytes, spans or lines of the whole layout theirs |
| Display.DisplayBounded | src/display.rs:174-293 | bytes, spans, lines and input are within the limits, and the counters are exact: bytes are span bytes and line breaks |
| Display.WholeShown | src/display.rs:180-279 | what is not truncated shows the rendering of the text of all bytes |
| Display.WholeColored | src/display.rs:180-279 | and shows it in its styles: each symbol has the style in force where its cluster starts, that of the last style sequence before it |
| Display.DisplayJoined | src/display.rs:258-275 | in every display neighbouring spans differ in style, so that spans are as few as the styles allow |
| Display.TextKept | src/display.rs:203-217 | well-formed text is taken as it is |
| Display.TextValid | src/display.rs:203-217 | whatever the bytes, their text is well-formed |
| Display.EscapeExactly | src/display.rs:204-215 | a byte that belongs to no scalar is shown as a backslash, an x and the two hexadecimal digits of its value |
| Display.TruncatedShown | src/display.rs:180-293 | what is truncated shows a beginning of the rendering of a beginning of the text; wherever decoding or laying out stopped early, the next step would have passed a limit |
| Display.TruncatedColored | src/display.rs:180-352 | what is truncated shows a beginning of the rendering in the styles in force, and then the marker in the default style, or in the last span's when no other span may be added |
| Display.AppendTruncation | src/display.rs:295-352 | the loop deletes from the end just until the marker fits and adds it, with exact counters; it ends, never underflows and never empties the lines |
| Display.TruncationMeans | src/display.rs:295-352 | the lines then show a beginning of what they showed, followed by the marker, and all of it when the marker fitted anyway |
| Display.CutsLeast | src/display.rs:325-345 | a span is cut at a cluster start, and at the last one that leaves the marker its bytes |
| Display.KeptLongest | src/display.rs:295-352 | while fewer spans than the limit are in use, what is kept before the marker is the longest beginning that ends at a cluster start and leaves the marker its bytes |
| Display.KeptBeginning | src/display.rs:295-352 | what is kept is itself such a beginning |
| Display.LayOut | src/display.rs:220-279 | the loop lays clusters out until the next one would pass a limit |
| Display.LaidExact | src/display.rs:220-279 | laying out reaches the end exactly when the whole layout fits; otherwise what was laid out fits and one more cluster would not |
| Display.DecodeBounded | src/display.rs:180-218 | the loop decodes until the next value or style run would pass a limit |
| Display.DecodedExact | src/display.rs:180-218 | decoding reaches the end exactly when the whole text and its style runs fit; otherwise one more step would pass a limit |
| CommandDiagnostics.CollectStream | src/diagnostics.rs:489-525 | the loop over chunks returns the stream and the issues raised by then, in order |
| CommandDiagnostics.CollectedWhole | src/diagnostics.rs:489-525 | no issue is raised exactly when the chunks are contiguous, readable and fit, and then the stream is all of them |
| CommandDiagnostics.ByteLinesExact | src/diagnostics.rs:527-532 | the lines of a stream are the only ones without line feeds from which putting back their ends, LF or CRLF and perhaps none at the last, gives its bytes |
| CommandDiagnostics.ByteLinesCount | src/diagnostics.rs:527-532 | there are as many lines as line feeds, and one more when the bytes do not end in one |
| CommandDiagnostics.DeriveCommandDiagnostics | src/diagnostics.rs:246-477 | the loops over chunks and lines derive the specified outcome, issues, counts and output; `OutcomeMeans`, `IssuesExactly` and `EveryLineAccounted` say what these are, and `ByteLinesExact` what the lines are |
| CommandDiagnostics.ReadMeans | src/diagnostics.rs:251-427 | no issue is raised exactly when the evidence is whole, the build said how it ended, every output line is an accepted record or comes from the program after its build, and every error line is text; errors and the end of the build are those the records report |
| CommandDiagnostics.IssuesDistinct | src/diagnostics.rs:223-229 | each kind of issue is reported at most once, and a failed execution always |
| CommandDiagnostics.IssuesExactly | src/diagnostics.rs:251-441 | the issues reported are exactly those that come up, of the identity, the captures, the chunks, the lines from the lines before them, the end of the build and the exit |
| CommandDiagnostics.DecidedExactly | src/diagnostics.rs:429-455 | an outcome is decided exactly of a command that exited and of whose evidence no issue comes up |
| CommandDiagnostics.RaisedInOrder | src/diagnostics.rs:223-229 | each kept once, in the order in which it first came up |
| CommandDiagnostics.OutcomeMeans | src/diagnostics.rs:429-455 | each outcome exactly: compiler errors of understood evidence with a nonzero exit, a failed build and a reported error; success of understood evidence with a zero exit, a successful build and no error; nonzero exit and failed execution likewise |
| CommandDiagnostics.EveryLineAccounted | src/diagnostics.rs:286-427 | the output is exactly the first 128 of the output lines that are not accepted records followed by the error lines, in order, each cut to 4,096 bytes; the others are counted, and every accepted record was counted as structured; the lines are those of `ByteLinesExact` |
| ProcessIndicators.EditCountersConserve | src/process_indicators.rs:740-859 | for every stream J is the sum over origins, A and B are at most I, and I is at most the keyboard origin |
| ProcessIndicators.FeedbackCountersConserve | src/process_indicators.rs:960-1018 | for every stream F is at most O and the compiler-error commands, and O is below the complete commands when there are any |
| ProcessIndicators.CommandCountersConserve | src/process_indicators.rs:861-958 | for every stream and action complete commands split by exit code, complete, unknown and running ones are at most those started, and compiler errors are at most the nonzero exits |
| ProcessIndicators.ErrorsExitNonzero | src/process_indicators.rs:934-958 | across the two modules: a command counted with compiler errors exited with a nonzero code |
| ProcessIndicators.FinishedConserves | src/process_indicators.rs:270-297 | finishing counts a command still running as unknown and conserves the facts |
| ProcessIndicators.RatioExact | src/process_indicators.rs:1296-1306 | the integer tests of the rule compare the ratios exactly |
| ProcessIndicators.SuggestedExactly | src/process_indicators.rs:355-437 | a review is suggested exactly of the values the rule describes by its samples and ratios |
| ProcessIndicators.RuleExact | src/process_indicators.rs:270-437 | for every stream a review is suggested exactly when nothing was unavailable and those samples and ratios hold; no ratio but that of removals passes one, supported feedback takes three complete commands, and the rule never stops at a missing forward insertion |
| ProcessIndicators.ReasonExactly | src/process_indicators.rs:388-437 | an attempt is turned away for exactly the first demand its samples and ratios do not meet |
| ProcessIndicators.AttemptIndicatorAccumulator.Finish | src/process_indicators.rs:270-297 | finishing counts the command that still runs and applies the rule |
| IndicatorLinks.ListsExact | src/process_indicators.rs:740-859 | for every stream each list of links holds exactly those of the first 256 events of its kind, in order, and links an edit once |
| IndicatorLinks.PairsExact | src/process_indicators.rs:861-1068 | for every stream and action the command links are exactly the first 256 starts that count, each with the event that finished that very command, if one did |
| IndicatorLinks.FinishedOnce | src/process_indicators.rs:908-1068 | no command is finished by two events |
| IndicatorLinks.CommandLinksExact | src/process_indicators.rs:908-933 | the command links of an attempt are the first 256 of the starts and finishes of its finished commands, in order |
| IndicatorLinks.ListsCounted | src/process_indicators.rs:1181-1203 | across the two modules: each list has as many links as its counter says, up to 256 |
| IndicatorLinks.PairsCounted | src/process_indicators.rs:861-892 | across the two modules: an action has as many command links as counted starts, up to 256 |
| IndicatorCounts.CountsExact | src/process_indicators.rs:211-1068 | for every stream that is counted, each counter of the rule, of each action and of the facts is exactly the sum of what the single events count for: scalars put in, taken out, appended at the end of the text and typed before the first check or test, per group of origins; complete checks and tests, their errors, the opportunities for feedback and the rebuilds after errors; starts, exits and unknown ends |
| IndicatorCounts.CountedExactly | src/process_indicators.rs:1233-1242 | a stream is counted exactly when every one of these sums, and the scalars of every edit, fit 64 bits |
| IndicatorCounts.UnavailableExactly | src/process_indicators.rs:740-1074 | the rule is unavailable exactly after an event that spoils it (an edit without a known place, a file deleted or renamed, commands that overlap or do not match, a check or test without known evidence), or while a check or a test still runs |
| IndicatorCounts.RemovedExactly | src/process_indicators.rs:781-799 | an edit takes out as many scalars as its range covers, and its place is unknown exactly when its range is not made of whole scalars of the text |
| IndicatorCounts.ScalarsCounted | src/process_indicators.rs:1167-1179 | the count of a text is the number of its Unicode scalars |
| IndicatorCounts.KnownExactly | src/process_indicators.rs:1108-1125 | across the two modules: a command's evidence is known exactly when it exited with both streams captured completely and, if its diagnostics are structured, no issue comes up in them |
| IndicatorCounts.RunningExactly | src/process_indicators.rs:861-933 | a command runs exactly when nothing ran at its start and no finish came since |
| IndicatorLinks.MergedListsExact | src/process_indicators.rs:300-353 | over any number of merged attempts the lists hold exactly the first 256 links of all of them, in order |
| IndicatorLinks.MergedPairsExact | src/process_indicators.rs:318-352 | the same of the command links of each action |
| IndicatorLinks.MergeLinks | src/process_indicators.rs:300-353 | every list is extended up to its bound, and then the commands action by action |
| IndicatorLinks.LinkRecorder.Observe | src/process_indicators.rs:211-268 | one event changes the links as specified |
| ProcessIndicators.MergeFactual | src/process_indicators.rs:300-353 | edit facts, rejections and commands are merged in this order, and the first overflow ends the merge |
| ProcessIndicators.MergedSums | src/process_indicators.rs:300-353 | merging overflows exactly when some sum of two counters passes 64 bits; otherwise every counter is the sum |
| ProcessIndicators.MergedConserves | src/process_indicators.rs:318-352 | merging attempts conserves the facts of every action |
| ProcessIndicators.AttemptIndicatorAccumulator.Observe | src/process_indicators.rs:211-268 | one event changes the counters as specified, and fails exactly when one would overflow |
| ProcessIndicators.AttemptIndicatorAccumulator.FinishCommand | src/process_indicators.rs:908-1019 | a finish derives the diagnostics, counts the command and the feedback it closes |
| ProcessIndicators.AttemptIndicatorAccumulator.ObserveTransaction | src/process_indicators.rs:740-822 | an edit changes the counters as specified |
| ConsoleGrammar.ParseConsoleCommand | src/cargo_policy.rs:139-246 | the parser returns the command of the specification, or refuses the line |
| ConsoleGrammar.TakeArguments | src/cargo_policy.rs:184-200 | the arguments taken are exactly the tokens of the pre-scanned range, and parsing goes on at its end |
| ConsoleGrammar.RunArgumentsExact | src/cargo_policy.rs:107-123 | the pre-scanned range covers exactly the positions after the `--` that follows the options, up to the first redirection |
| ConsoleGrammar.SplitJoin | src/cargo_policy.rs:143-143 | words joined by single spaces split into the same words |
| ConsoleGrammar.RoundTrip | src/cargo_policy.rs:139-246 | rendering an accepted command canonically and parsing it again gives the same command, whatever the spacing and the order of redirections were |
| ConsoleGrammar.ParsedExactly | src/cargo_policy.rs:139-246 | a line is accepted as a command exactly when it is within its bounds, its words are the command's tokens with the redirections in either order, and the command can be prepared, without shell characters, refused arguments or a redirection to its own input |
| ConsoleGrammar.SplitExactly | src/cargo_policy.rs:143-143 | the words of a text are the only ones that give it when they are laid out with gaps of spaces |
| ConsoleGrammar.ParsedPrepares | src/cargo_policy.rs:352-378 | whatever the parser accepts passes the validity test of preparation in the workspace |
| Framing.WriteFrame | src/rust_analyzer_spike.rs:51-65 | the frame of a message, unless it is too long |
| Framing.Reader.ReadFrame | src/rust_analyzer_spike.rs:67-126 | reading byte by byte and line by line returns the specified frame and leaves the specified rest, whatever reads are interrupted and whether the input ends or fails |
| Framing.FrameRoundTrip | src/rust_analyzer_spike.rs:51-126 | reading a written frame gives the message back and leaves what follows unread |
| Framing.ReadExactly | src/rust_analyzer_spike.rs:67-126 | reading gives a message exactly when the input starts with a header of fields, of which exactly one gives a content length that is small enough, and that many bytes that decode to it; exactly what follows is left |
| Framing.OtherwiseExactly | src/rust_analyzer_spike.rs:67-126 | a clean end is exactly an input without bytes, and a failure exactly an input that failed before its header or the content it tells was complete |
| Framing.StreamRoundTrip | src/rust_analyzer_spike.rs:51-126 | frames written one after another read back as the same messages in order, and then a clean end, or the failure of the input |

## Left out

- Files, inodes, SQLite, process spawning, signals, threads and clocks: their results are parameters of the steps; partially written files are modelled only as a record or a replacement that landed without being acknowledged.
- Error texts, display strings and the reasons given for unavailability: only which kind of error occurs is modelled.
- Recording.RunConsistent: a writer that acknowledges a wrong sequence is modelled like one that does not acknowledge, with the record landed under its own sequence.
- Recording.StartHealthy: the size of the fixed structures of a retained state is a parameter, bounded by one mebibyte, because it is a property of the compiled layout.
- Recording.FinishOutcome: the identity checks after the writer's shutdown and the journal's closing are one answer of the environment.
- Editing.UndoAfterEdit: every plain edit is one range, as all the session's previews build; transactions of several plain ranges, such as comment toggling, are not applied by the session.
- MilestoneReader.SessionVerifies: hash chains, receipts and the replay engine's own comparison of final bytes are not part of the verification modelled here.
- ReviewFlags.TypedAfterPastesExact: the times of a recorded attempt are taken not to decrease; what the queues do with times that go back is left out.
- ReviewFlags.AdvisoriesExact: the unofficial-client and modified-tests advisories, which look at no event stream, are left out.
- LanguageProtocol.RunSound: shutting down empties the document mirror before it notifies, so the mirror is stated for incarnations that are not shutting down.
- LanguageProtocol.ReconciledMirrors: the list of open documents is taken to have distinct paths; with two documents under one path the server would be told of the same URI twice.
- LanguageProtocol.PolledCurrent: the shapes of diagnostics, completions and capabilities are accepted or refused as a whole.
- LanguageLifecycle.OperatedSafe: shutting down differs from stopping only in waiting for a graceful exit and is not a separate operation.
- CommandProcess.OutcomeSound: a redirected standard output is one that is not captured; the handoff of cleanup after a panic is not modelled.
- Display.Parse: style sequences, grapheme clusters and their symbols are parameters; the colour grammar, labels and formatted previews are left out.
- CommandDiagnostics.DeriveCommandDiagnostics: JSON records are classified by a parameter that says what was parsed and which issues the parser raised about it; their fields are left out.
- IndicatorLinks.ListsExact: the links are fields of an object of their own beside the counters; when a counter overflows the source gives up both.
- ConsoleGrammar.RoundTrip: the grammars of test filters, dependency specifications, package names and workspace paths are parameters.
- Framing.Reader.ReadFrame: only ASCII blanks are trimmed around a length, and the kinds of malformed frames are one.
- The scan, console, terminal, doctor, preference and toolchain code: reports and thin glue over the cores above.
