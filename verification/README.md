# Chimera core manager: a verified model

Chimera supervises proxy cores (Mihomo, Clash Premium, clash-rs, Meow and its own
client): a control plane runs one command at a time against a core, a configuration
layer decides whether a change can be patched into the running process, a monitor
decides when a core is ready, and status and logs are published to clients and to
disk. This project models those parts in Dafny and proves what they keep over every
run.

Two forms are used. Code that races with other tasks is a step system: a `State`, a
`Step` for each atomic action, `Enabled`, `Apply`, and theorems over every sequence of
enabled steps. Code that one task runs over its own data is a class or a method with
loops, proved equal to a function; the theorems are about that function.

| file | what it models |
|---|---|
| `Registry.dfy` | the operation registry: idempotency, eviction, admission with rollback |
| `ControlPlane.dfy` | submitters, `shutdown()` callers and the executor around the registry and its queue |
| `StatusBridge.dfy` | two watch channels, the bridge task, the broadcast ring and its lagging connections |
| `EchoGuard.dfy` | the sequence guard over the published core type |
| `Document.dfy` | canonical documents, their diff, and overlaying it |
| `Mihomo.dfy` | change classification, the patch document, deep merge, read-back |
| `Bootstrap.dfy` | zeroed inbounds, the controller rewrite, restoration |
| `LogText.dfy` | UTF-8 text under byte budgets, ANSI stripping |
| `Logfmt.dfy` | the quoted `key=value` scanner |
| `LogParsing.dfy` | multi-line record assembly over two streams |
| `PremiumClock.dfy` | dates inferred from times of day |
| `LogSink.dfy` | the rolling log writer |
| `LogDirectory.dfy`, `LogFileNames.dfy` | the log directory: listing, pruning, and the names of its files |
| `InstanceMonitor.dfy` | the readiness monitor of one instance |
| `Wrappers.dfy`, `Sequences.dfy` | what all of them share |

Seven claims one might expect of this code are false of it. Each is settled by a
lemma that shows the failing run or input, and by one that says exactly when the
code does meet the claim:

| claim | fails | holds exactly when |
|---|---|---|
| a queued Shutdown is reported done only if the one that ran succeeded | `FailureIsCoveredFromTheStart` | `FailedShutdownIsCoveredIff` |
| the published echo does not depend on the order of arrival | `ConflictingOrders` | `OrderMattersOnlyAfterRollback` |
| a settled, drained client is current however early it connected | `StaleStart`, `UnsafeStartDisagrees` | `StartAgreesIffSafe` |
| the raw text of a frame is a prefix of its record | `CutRootTakesAContinuation` | `RawIsPrefixIff` |
| inferred dates are right | `DriftOverMidnightIsMissed` | `DatesAreTrueIff` |
| no more log files remain than the limit | `ShortNameIsListed`, `OddNameStays` | `RetentionIffCanonical` |
| nothing moves into Running once a stop was requested | `StopCanBeOvertaken` | `RequestedStopIsFinalIff` |

`dafny verify dfyconfig.toml` checks the whole project.

## Model

| member | source | states |
|---|---|---|
| OperationRegistry.EvictOldestTerminal | crates/chimera-core-manager/src/control/executor.rs:108-123 | Eviction keeps every live entry, removes only terminal entries older than every terminal entry it keeps, and stops only below capacity or with live entries alone |
| OperationRegistry.VictimIsOldestTerminal | crates/chimera-core-manager/src/control/executor.rs:113-122 | The first terminal position holds the terminal entry with the lowest sequence |
| OperationRegistry.AdmitCases | crates/chimera-core-manager/src/control/executor.rs:87-158 | A known id leaves the table alone and answers its sequence; a sent one is appended under a fresh sequence; a refused one leaves exactly the evicted table with one sequence spent and the error of the queue's answer |
| OperationRegistry.InsertKeepsOrder | crates/chimera-core-manager/src/control/executor.rs:129-157 | Insertion keeps the listing in sequence order, and rolling it back restores everything but the sequence |
| OperationRegistry.Registry.AdmitOperation | crates/chimera-core-manager/src/control/executor.rs:87-158 | The locked fields and the answer after admission are those of the specification function, for any queue answer |
| OperationRegistry.Registry.EvictTerminal | crates/chimera-core-manager/src/control/executor.rs:112-123 | The eviction loop leaves exactly the evicted table |
| OperationRegistry.Registry.FindTerminal | crates/chimera-core-manager/src/control/executor.rs:113-118 | The scan finds the first terminal position, or none |
| OperationRegistry.Registry.Set | crates/chimera-core-manager/src/control/executor.rs:160-171 | Setting a state changes one entry's state and ignores an evicted id |
| ControlPlane.LiveOperationsAreTracked | crates/chimera-core-manager/src/control/executor.rs:79-310 | In every reachable state the non-terminal entries are exactly the operation in hand and the queued ones, each once; after the exit every entry is terminal |
| ControlPlane.RegistryIsBounded | crates/chimera-core-manager/src/control/mod.rs:597-604 | In every reachable state the table has at most `live_registry_capacity` entries |
| ControlPlane.FullRegistryRefuses | crates/chimera-core-manager/src/control/executor.rs:108-157 | With no terminal entry to evict no permit is outstanding, the enqueue fails and the insertion leaves no trace but its sequence |
| ControlPlane.CommandsStartInSequence | crates/chimera-core-manager/src/control/executor.rs:212-270 | Commands start in strictly increasing sequence, so a registration starts at most once; a queued entry has not started, and the running one is the last that did |
| ControlPlane.ResubmissionIsIdempotent | crates/chimera-core-manager/src/control/executor.rs:93-107 | Across any run an entry that lives keeps digest, sequence and terminal state; the same digest answers its sequence, another one conflicts |
| ControlPlane.ShutdownIsLast | crates/chimera-core-manager/src/control/executor.rs:212-290 | The latch never lifts, only a Shutdown executes once it was seen, at most one does, and nothing starts after it or after a panic |
| ControlPlane.DrainWorkShrinks | crates/chimera-core-manager/src/control/executor.rs:293-310 | Every drain step and every use of an outstanding permit shrinks the work left; no caller makes it grow |
| ControlPlane.DrainReachesExit | crates/chimera-core-manager/src/control/executor.rs:278-310 | Until the exit some draining step is possible |
| ControlPlane.DrainTerminates | crates/chimera-core-manager/src/control/executor.rs:293-310 | From any draining state a run of drain steps and outstanding permits alone reaches the exit |
| ControlPlane.DrainedShutdownMeansOneRan | crates/chimera-core-manager/src/control/executor.rs:271-290 | A queued Shutdown is reported done exactly when the executor left cleanly, and then some Shutdown started |
| ControlPlane.FailedShutdownIsCoveredIff | crates/chimera-core-manager/src/control/executor.rs:271-310 | Once a Shutdown recorded as failed has ended the loop, some continuation reports another one done if and only if one is queued or in hand, a permit is outstanding, or the queue is still open to a caller with a slot free |
| ControlPlane.ClosedQueueCoversIff | crates/chimera-core-manager/src/control/executor.rs:278-310 | Once the queue is closed, exactly a Shutdown queued or in hand or an outstanding permit leads to such a report |
| ControlPlane.FailureIsCoveredFromTheStart | crates/chimera-core-manager/src/control/executor.rs:271-290 | A run from the start in which the first of two Shutdowns fails and the second is reported done |
| ControlPlane.DrainedShutdownMayCoverAFailure | crates/chimera-core-manager/src/control/executor.rs:271-290 | The steps that take a failing Shutdown with another right behind it to that report |
| ControlPlane.TwoShutdownsReachable | crates/chimera-core-manager/src/control/mod.rs:402-437 | Such a moment is reachable by two submits |
| StatusBridge.DrainedClientIsCurrent | chimera_service/src/server/manager_bridge.rs:720-779 | With both channels seen and a connection drained, the last status frame its client got projects the current status and echo, over every interleaving, coalescing, lag and resubscription in which the bridge started safely |
| StatusBridge.ClientBecomesCurrent | chimera_service/src/server/routing/ws.rs:64-121 | From any state of such a run, steps of the bridge and of one connection alone settle the bridge, drain the connection and leave its client current |
| StatusBridge.StartAgreesIffSafe | chimera_service/src/server/manager_bridge.rs:720-726 | Every continuation of the bridge's start that settles leaves every drained client current if and only if, at the start, each snapshot read so far was of the status the bridge starts from, or the echo had moved unseen |
| StatusBridge.StaleStart | chimera_service/src/server/routing/ws.rs:44-63 | An unsafe start is reachable by one early connection that reads its snapshot and one status change |
| StatusBridge.LegacyStreamIsCurrent | chimera_service/src/server/manager_bridge.rs:733-760 | Over every run, however the bridge started: no legacy frame repeats the one before it or the wire state the bridge began with; and whenever the started bridge is in no status turn and has seen the status, the last told state is its wire state, or a stop that Stopping and Switching do not resurrect |
| StatusBridge.BridgeWorkShrinks | chimera_service/src/server/manager_bridge.rs:727-778 | Every bridge action shrinks its work and no connection adds to it |
| StatusBridge.BridgeSettles | chimera_service/src/server/manager_bridge.rs:727-778 | The work is gone exactly when everything is seen, and until then the bridge has a step |
| StatusBridge.ReceiveKeepsConnection | chimera_service/src/server/routing/ws.rs:64-121 | One receive, a lag included, keeps what a connection shows tied to what is left in its ring |
| EchoGuard.NewestCommitWins | chimera_service/src/server/manager_bridge.rs:601-654 | Whatever type was published before, if the highest-sequence watcher committed, its core type is the echo, in every order of arrival |
| EchoGuard.OrderMattersOnlyAfterRollback | chimera_service/src/server/manager_bridge.rs:620-633 | Whatever type was published before, every order publishes the same echo if and only if the newest committed or every commit is of the type already published |
| EchoGuard.AppliedIsNewest | chimera_service/src/server/manager_bridge.rs:620-625 | The guard remembers the highest sequence among the watchers that reached a commit point |
| EchoGuard.EchoIsACommit | chimera_service/src/server/manager_bridge.rs:626-654 | What is published is some committed type that arrived, or still what was published before |
| EchoGuard.NewestSoFarNotifies | chimera_service/src/server/manager_bridge.rs:620-654 | Subscribers are notified once for each watcher newer than all before it, committed or rolled back, and for no other |
| EchoGuard.WarningsDoNotDecide | chimera_service/src/server/manager_bridge.rs:906-915 | Any nesting of durability warnings leaves the commit decision unchanged |
| EchoGuard.EchoCommits | chimera_service/src/server/manager_bridge.rs:906-915 | The unwrap loop decides as the outcome behind all wrappers does |
| EchoGuard.EchoPublisher.WatchReconcile | chimera_service/src/server/manager_bridge.rs:601-635 | A watcher changes the guarded fields and notifies as the observation function says |
| EchoGuard.EchoPublisher.PublishRequestedCore | chimera_service/src/server/manager_bridge.rs:648-654 | A type is committed or the current one republished, and subscribers are notified either way |
| Document.ChangesAreSoundAndComplete | crates/chimera-core-manager/src/config/diff.rs:16-68 | Each entry names the desired value where the current one differs, paths are prefix-free, there are none exactly for equal documents, and without deletions overlaying them gives the desired document |
| Document.EntryIsTrue | crates/chimera-core-manager/src/config/diff.rs:27-68 | An entry's value is the desired value at its path and not the current one |
| Document.DifferenceHasEntry | crates/chimera-core-manager/src/config/diff.rs:27-68 | Any difference is reported by some entry |
| Document.EntriesArePrefixFree | crates/chimera-core-manager/src/config/diff.rs:27-68 | No entry's path is a prefix of another's |
| Document.OverlayReaches | crates/chimera-core-manager/src/config/diff.rs:16-68 | Writing the entries over the current value gives the desired one |
| Document.DiffRecorder.DiffValue | crates/chimera-core-manager/src/config/diff.rs:27-68 | The walk with one shared path restores the path and appends exactly the diff under it |
| Document.ComputeDiff | crates/chimera-core-manager/src/config/diff.rs:16-25 | The walk over two documents gives their diff |
| Document.LeafRecorder.CollectLeaves | crates/chimera-core-manager/src/config/diff.rs:70-88 | Leaf collection restores the path and appends exactly the leaves under it |
| Mihomo.PatchPreservesMeaning | crates/chimera-core-manager/src/config/mihomo.rs:265-328 | When every change is patchable the patch document is built without a missing root or a malformed value, and merging it into the current document gives exactly the desired one |
| Mihomo.MergeFiltered | crates/chimera-core-manager/src/config/mihomo.rs:354-368 | Merging only the supported fields restores a nested mapping whose other fields did not move |
| Mihomo.MergeRestores | crates/chimera-core-manager/src/config/mihomo.rs:877-888 | Where nothing is deleted, merging a desired value onto the current one gives the desired value |
| Mihomo.RootMoved | crates/chimera-core-manager/src/config/mihomo.rs:311-328 | A key roots an entry exactly when the documents differ there |
| Mihomo.BuildPatchVerdict | crates/chimera-core-manager/src/config/mihomo.rs:311-352 | The verdict of a patchable change: a switch exactly when an enable is missing or decoding refuses, otherwise the patch of the moved roots |
| Mihomo.VerificationIsExact | crates/chimera-core-manager/src/config/mihomo.rs:178-185 | For every decoder and every running document: a document is accepted only if the decoded patch has nothing left to change in it, and after the decoded patch was merged in it is accepted if and only if no empty mapping met one that was not |
| Mihomo.ClassificationNeverFails | crates/chimera-core-manager/src/config/mihomo.rs:217-368 | Classification never ends in an error on canonical documents |
| Mihomo.MihomoDeniesByDefault | crates/chimera-core-manager/src/config/mihomo.rs:217-296 | Any verdict short of a switch means equal process specifications, equal `dns.listen`, and equal roots outside the two allow lists, controller fields included; a no-op, equal effective documents |
| Mihomo.OtherKindsDenyByDefault | crates/chimera-core-manager/src/config/mihomo.rs:217-251 | Other kinds only get a no-op or a switch, and a no-op exactly when nothing moved |
| Mihomo.VerificationAcceptsTheMergedDocument | crates/chimera-core-manager/src/config/mihomo.rs:178-185 | With a decoder that adds no leaf, the merged document, which is the desired one, satisfies every expected leaf |
| Mihomo.VerificationRejectsTheUnpatchedDocument | crates/chimera-core-manager/src/config/mihomo.rs:178-185 | With a decoder that drops no leaf, the document as it was before the patch fails the verification |
| Mihomo.FilterNested | crates/chimera-core-manager/src/config/mihomo.rs:354-368 | The filter loop keeps exactly the allowed fields and refuses a non-mapping |
| Mihomo.AssemblePatch | crates/chimera-core-manager/src/config/mihomo.rs:311-352 | The loop over the roots, the enable checks and the decoding give the specified verdict |
| Bootstrap.BootstrapIsLossless | crates/chimera-core-manager/src/config/mihomo.rs:135-198 | Classifying a zeroed document against the original is a no-op or reaches a patch that merges back to the original; only decoding can refuse |
| Bootstrap.PreparedBootstrapIsLossless | crates/chimera-core-manager/src/config/mod.rs:100-183 | The same, verdict by verdict, between the two documents prepared for one epoch |
| Bootstrap.ZeroingCommutesWithChannel | crates/chimera-core-manager/src/config/mod.rs:136-183 | Zeroing and the controller rewrite can be done in either order |
| Bootstrap.EditableDocument.Zero | crates/chimera-core-manager/src/config/mihomo.rs:135-160 | Zeroing in place gives the zeroed document |
| Bootstrap.EditableDocument.RewriteManagedController | crates/chimera-core-manager/src/config/clash.rs:63-85 | The rewrite in place drops the other channels and sets the managed endpoint |
| LogText.BoundaryIsNear | crates/chimera-core-manager/src/log.rs:101-109 | In text, some character boundary is at most three bytes below any index |
| LogText.CutIsWellFormed | crates/chimera-core-manager/src/log.rs:92-99 | Cutting text at a boundary leaves text on both sides |
| LogText.CharBoundaryAtOrBelow | crates/chimera-core-manager/src/log.rs:103-109 | The loop finds the last boundary at or below the cap, within three bytes of it |
| LogText.TruncationIsTight | crates/chimera-core-manager/src/log.rs:92-99 | A cut text is a prefix, is text, fits the cap and wastes at most three bytes; the flag says whether it changed |
| LogText.AppendStaysBounded | crates/chimera-core-manager/src/log.rs:67-90 | A bounded append stays text within the budget; unflagged, the whole line follows a separator; flagged, the text gained nothing or part of the line and is within four bytes of the budget |
| LogText.TruncateText | crates/chimera-core-manager/src/log.rs:92-99 | Truncation of a text is the bounded text of the specification |
| LogText.AppendBounded | crates/chimera-core-manager/src/log.rs:73-90 | The bounded append is the one of the specification |
| LogText.StrippedIsWellFormed | crates/chimera-core-manager/src/log.rs:339-365 | Stripping leaves text, so the conversion back never fails |
| LogText.SequenceIsDropped | crates/chimera-core-manager/src/log.rs:346-363 | A complete control sequence goes and the text before and after it stays |
| LogText.StrippingIsIdempotent | crates/chimera-core-manager/src/log.rs:337-365 | Stripping again changes nothing, and no escape byte is left |
| LogText.StripAnsi | crates/chimera-core-manager/src/log.rs:339-365 | The stripped line has no escape byte and is text when the line was |
| Logfmt.PrintThenScan | crates/chimera-core-manager/src/log.rs:410-480 | Scanning printed fields gives back exactly the fields, for every value and every key without `=` or space |
| Logfmt.FieldsAreWellFormed | crates/chimera-core-manager/src/log.rs:431-475 | Every scanned key and value of a text is text: no slice splits a character and the UTF-8 check never fails |
| Logfmt.QuotedIsWellFormed | crates/chimera-core-manager/src/log.rs:434-469 | Unescaping, unknown escapes included, never splits a character |
| Logfmt.ScanLogfmt | crates/chimera-core-manager/src/log.rs:410-480 | The scan by index gives the specified fields or refusal |
| Logfmt.ReadQuoted | crates/chimera-core-manager/src/log.rs:434-461 | The quoted-value loop gives the unescaped bytes and the index after the closing quote, or says there is none |
| LogParsing.LinesAreConserved | crates/chimera-core-manager/src/log.rs:161-263 | However pushes and finishes are interleaved, on each stream the lines of the released records and then of the pending one are exactly the stripped lines pushed, in order |
| LogParsing.RecordsAreGrouped | crates/chimera-core-manager/src/log.rs:161-263 | The records of a stream are exactly those its lines and the finishes divide it into, whatever is interleaved on the other stream: a root opens one, a held one takes every line up to the next root or finish, any other line stands alone |
| LogParsing.FinishReleasesTheRest | crates/chimera-core-manager/src/log.rs:220-231 | After a last `finish` the released records of a stream carry all of its lines and no other stream's |
| LogParsing.FinishIsOldestFirst | crates/chimera-core-manager/src/log.rs:220-231 | Each `finish` of a run releases held records in the order they were opened, and only records of error level or above are ever held |
| LogParsing.FramesAreCappedAndHonest | crates/chimera-core-manager/src/log.rs:46-134 | Every frame released by any interleaving of pushes and finishes is within all caps, and is unmarked exactly when its raw text, message and details carry the whole record |
| LogParsing.FramesAreText | crates/chimera-core-manager/src/log.rs:73-134 | Every frame released from text is text |
| LogParsing.AppendKeepsSound | crates/chimera-core-manager/src/log.rs:46-65 | Appending a continuation keeps a record's frame within its caps and its mark exact |
| LogParsing.RawIsPrefixIff | crates/chimera-core-manager/src/log.rs:46-99 | Over every interleaving on text, a released frame's raw text is a prefix of its record if and only if its first line was not cut short of the cap, before a character that did not fit, and then continued |
| LogParsing.CutRootTakesAContinuation | crates/chimera-core-manager/src/log.rs:46-99 | A run of one held error line whose last character straddles the cap and one empty line, after which the raw text is no prefix |
| LogParsing.BoundFrame | crates/chimera-core-manager/src/log.rs:111-134 | Bounding cuts each text and the field list to its cap and marks the frame exactly when that changed something |
| LogParsing.BoundFields | crates/chimera-core-manager/src/log.rs:129-132 | The loop over fields cuts each of them and says whether any changed |
| LogParsing.Pending.Append | crates/chimera-core-manager/src/log.rs:46-65 | Appending in place follows the specified budgets and continuation count |
| LogParsing.LogParser.PushAt | crates/chimera-core-manager/src/log.rs:161-218 | After a push the fields are those of the run of all calls so far, and the frames returned are the ones that run newly releases |
| LogParsing.LogParser.Finish | crates/chimera-core-manager/src/log.rs:220-231 | `finish` is a call of the run like a push: it returns the frames that run newly releases, leaves nothing held, and the parser goes on |
| PremiumClock.DatesAreTrueIff | crates/chimera-core-manager/src/log.rs:640-661 | Every date of a run is right if and only if the first instant and each step stay within stated distances |
| PremiumClock.ForwardRunsAreDated | crates/chimera-core-manager/src/log.rs:637-661 | A clock that starts less than 12 hours before its observation and moves forward by less than 12 hours a line is dated right over a run of any length |
| PremiumClock.DriftOverMidnightIsMissed | crates/chimera-core-manager/src/log.rs:645-649 | A clock that drifts back over midnight is dated a day late |
| PremiumClock.PremiumClock.UnixMilliseconds | crates/chimera-core-manager/src/log.rs:640-668 | The clock object infers and remembers as specified, and keeps its state when the calendar ends |
| LogSink.RecordsAreConserved | crates/chimera-core-manager/src/log_sink.rs:249-352 | The files of a run, pruned or not, hold in order exactly the records given, whole; a file present holds all it ever held; no file that was there before is written to |
| LogSink.FilesAreBounded | crates/chimera-core-manager/src/log_sink.rs:276-326 | With a limit of at least one byte no file without its last record reaches it, and no file is closed before it does |
| LogSink.NewestFilesRemain | crates/chimera-core-manager/src/log_sink.rs:328-375 | Over canonical names, at rest at most max(1, `max_files`) listed files remain, the newest by number, the active one among them |
| LogSink.RetentionIffCanonical | crates/chimera-core-manager/src/log_sink.rs:355-426 | For each limit, with numbers left for as many files: every run keeps that bound if and only if every listed file found at the start has the name its number is written as |
| LogSink.OtherNamesSurvive | crates/chimera-core-manager/src/log_sink.rs:355-399 | A file listed under a number it is not written as, or not listed, is there after every run as it was |
| LogDirectory.KeptFits | crates/chimera-core-manager/src/log_sink.rs:355-375 | Pruning leaves at most what it was asked to, or the protected newest number alone |
| LogDirectory.CanonicalPrune | crates/chimera-core-manager/src/log_sink.rs:355-399 | Over canonical names, deleting by written name leaves exactly the kept numbers |
| LogDirectory.TargetsFound | crates/chimera-core-manager/src/log_sink.rs:401-426 | Sorting the listed numbers and skipping finds exactly the numbers of the lowest-numbered names, in whatever order they were listed and however often a number occurs |
| LogDirectory.ReadNumbers | crates/chimera-core-manager/src/log_sink.rs:401-413 | The listing yields the number of each listed file, once a file |
| LogDirectory.NextAfter | crates/chimera-core-manager/src/log_sink.rs:415-418 | The next number is one past the highest listed, or one |
| LogSink.Writer.constructor | crates/chimera-core-manager/src/log_sink.rs:249-264 | Opening prunes, then starts a file whose number was not in use |
| LogDirectory.Directory.PruneDir | crates/chimera-core-manager/src/log_sink.rs:355-375 | The directory afterwards is without the files whose names the targets' numbers are written as, and otherwise unchanged |
| LogSink.Writer.RotateFile | crates/chimera-core-manager/src/log_sink.rs:328-352 | Rotation prunes around the active file, opens the next number and prunes again |
| LogSink.Writer.Write | crates/chimera-core-manager/src/log_sink.rs:266-326 | A batch changes the directory, the byte count and the number as the specified batch does |
| LogFileNames.NameThenNumber | crates/chimera-core-manager/src/log_sink.rs:388-399 | A file's number is read back from its name, past six digits too |
| LogFileNames.CanonicalIff | crates/chimera-core-manager/src/log_sink.rs:388-399 | A listed file's name is the one its number is written as exactly when it has six digits, or more without a leading zero |
| LogFileNames.ShortNameIsListed | crates/chimera-core-manager/src/log_sink.rs:392-399 | `core-7.jsonl` is listed as 7 and is not the name 7 is written as |
| InstanceMonitor.RunningIsJustified | crates/chimera-core-manager/src/instance.rs:714-981 | Each move into Running rests on an acknowledged, healthy observation from the driver of the run then current, in time for the deadline then applying; no run is acknowledged twice; the pid shown is that of the last move |
| InstanceMonitor.StaleObservationsAreIgnored | crates/chimera-core-manager/src/instance.rs:882-884 | An observation that applies to the current run was sent by the driver now running |
| InstanceMonitor.InitialDeadlineIsFinal | crates/chimera-core-manager/src/instance.rs:803-825 | Once the initial deadline has fired on an unready instance no continuation makes it running |
| InstanceMonitor.CancellationIsFinal | crates/chimera-core-manager/src/instance.rs:717-723 | After a cancellation the loop has taken, or a respawn deadline that gave up, nothing moves into Running |
| InstanceMonitor.RequestedStopIsFinalIff | crates/chimera-core-manager/src/instance.rs:714-879 | Once a stop was requested no continuation moves into Running if and only if the loop is over, has cancelled probing, is parked, awaits a refusal, or is in a pass that has nothing left to come to: an event is taken first, the drain ahead finds no unasked run or one whose first asking report is refused, or past the deadline the next report is not one the supervisor accepts |
| InstanceMonitor.StopCanBeOvertaken | crates/chimera-core-manager/src/instance.rs:864-878 | A stop requested while the answer to a report is awaited: the accepted answer still moves into Running |
| InstanceMonitor.UnreadyRunsHaveADeadline | crates/chimera-core-manager/src/instance.rs:725-846 | While probing, a run that is not ready always has a deadline ahead: the initial one, or a respawn deadline at most the startup timeout away |
| InstanceMonitor.DrainHonoursTimelyObservations | crates/chimera-core-manager/src/instance.rs:970-980 | A deadline's drain makes a run ready exactly when the first queued observation that is its own, healthy and in time is acknowledged |
| InstanceMonitor.MonitorLoop.Reconcile | crates/chimera-core-manager/src/instance.rs:903-968 | One observation changes the monitor's fields as specified and reports readiness exactly when it was acknowledged |
| InstanceMonitor.MonitorLoop.DrainObservations | crates/chimera-core-manager/src/instance.rs:970-980 | The drain loop stops at the first observation that makes the instance ready |
| InstanceMonitor.MonitorLoop.InitialDeadlineFired | crates/chimera-core-manager/src/instance.rs:803-825 | The initial deadline drains and otherwise gives up |
| InstanceMonitor.MonitorLoop.RespawnDeadlineFired | crates/chimera-core-manager/src/instance.rs:826-846 | A respawn deadline drains and otherwise gives up |
| InstanceMonitor.MonitorLoop.ProbeCancelled | crates/chimera-core-manager/src/instance.rs:718-723 | A cancellation ends probing, the run and its deadline for good |
| InstanceMonitor.MonitorLoop.SupervisorReported | crates/chimera-core-manager/src/instance.rs:724-802 | Each supervisor event changes the fields as specified |

## Left out

- Process spawning, pid files, sockets, pipes, ACLs, service commands, the CLI and HTTP clients: input and output without logic of their own.
- `run` and `drain` of the executor, `status_bridge`, `handle_socket` and the `select!` of `monitor_loop` are step systems rather than loops, because other tasks act between their awaits.
- What a command does (`apply_locked`, `start_locked`, convergence): an operation's outcome is whatever the step that finishes it says.
- Typed decoding of a patch is a parameter, so what decoding drops, such as a null, is outside the merge theorem.
- Mihomo.VerificationAcceptsTheMergedDocument: assumes that the decoded patch serializes only to leaves of the patch document; the decoder is not modelled, and `VerificationIsExact` needs no such assumption.
- Mihomo.VerificationRejectsTheUnpatchedDocument: assumes that the decoded patch serializes to all leaves of the patch document, as above.
- Parsing a header of any core kind is a parameter of each push, apart from the logfmt scanner and the premium clock; the JSON text of a log record is a parameter too.
- The health tracker's verdict and the supervisor's answer come with each observation; health details, instance ids and the probe phase are not modelled.
- The registry's `u64` sequence is unbounded here; the service wraps after 2^64 uses.
- LogSink.RecordsAreConserved: assumes the file number stays below 2^64, where the service would overflow; input and output succeed: on a failed write the service drops the batch, and on a failed rotation it keeps the oversized file.
- EchoGuard.OrderMattersOnlyAfterRollback: covers what a v1 start published before the watchers arrived; one that publishes between two of them, past the guard, is not modelled.
- InstanceMonitor.RequestedStopIsFinalIff: a deadline's drain and the stopping of a driver are single steps, so a stop that arrives in the middle of a drain is one that arrives just before it.
- Reading one entry of the registry (`get`, `subscribe`) is a lookup.
- InstanceMonitor.RunningIsJustified: assumes the saturating run counter stays below its maximum (fewer than 2^64 - 1 starts); beyond it runs share a number (`SaturatedNumberIsAskedTwice`).
- The broadcast ring keeps its whole history here and readers reach only the newest 256 events; log events on the same socket are left out.
- Canonicalization of YAML is represented by the `Value` type, a map from string keys; iteration is in sorted key order, which the service need not use for leaves.
- PremiumClock.ForwardRunsAreDated: a printed leap second (`23:59:60`) and a change of offset are not modelled.
- Wire mapping of errors, revisions, health and controllers, and the v1 start path, are field-by-field copies.
