# printerd: scheduler, supervisor, plumbing and wire formats

printerd runs print jobs. Each printer has a queue of jobs; the engine starts the next pending job
when the printer becomes idle; a job is a chain of filter processes and a backend, whose output
the daemon pumps along and whose exits it reaps. This project models that core and proves what
its callers rely on.

| file | what it holds |
|---|---|
| `StateReasons.dfy`, `StateLine.dfy` | the reason lists of jobs and printers, and the `STATE:` lines that update them |
| `JobModel.dfy`, `JobImpl.dfy` | a job: what each callback and D-Bus method does to it, as functions on a value and as a class proved to compute them |
| `JobEffects.dfy` | what each operation leaves in a job, field by field |
| `PrinterModel.dfy`, `PrinterImpl.dfy` | a printer with its jobs as a step machine, and as objects whose methods are proved to take every step of it |
| `JobSafety.dfy`, `PrinterSafety.dfy` | what holds on every run, whatever callers do |
| `StopRuns.dfy` | in which state a canceled or aborted job ends, over any run |
| `DeviceExclusion.dfy`, `Scheduling.dfy`, `StateOrder.dfy` | what holds when Start is called on held jobs only |
| `DeviceGuard.dfy`, `StartGuard.dfy`, `OrderGuard.dfy` | exactly when device exclusion, work conservation and the order of states survive without that |
| `DeviceLoss.dfy`, `DeviceReturn.dfy` | what a lost flag costs, and whether the printer ever gets its device back |
| `TwoProcessing.dfy` | when two jobs of a printer are in state PROCESSING |
| `WithoutTheRules.dfy` | two runs in which exclusion and the order of states fail |
| `Runs.dfy` | putting runs together |
| `Cascades.dfy` | the chain of notifications after each step comes to rest |
| `DataPump.dfy` | the buffer between the last filter and the backend |
| `Descriptors.dfy`, `ProcessSetup.dfy`, `Pipeline.dfy` | pipes, and the move of a child's descriptors onto 0..4 |
| `PrinterRegistry.dfy` | ids and object paths of printers |
| `ChunkedReader.dfy` | the chunked transfer coding in ippd |
| `Bytes.dfy` | the type of a byte |

## How runs are modelled

A run alternates two kinds of step. An *outside* step is a D-Bus call, the exit of a child, or an
I/O callback; it happens when nothing is queued. Each property that it sets queues one
notification for each handler of that property, also when the value is the one it had:
g_object_set notifies for every readable property that is not marked otherwise. An *inside* step
takes one queued notification and runs its handler; the order is arbitrary, which covers every
nesting and every order of GLib's emissions. Whether a process can be spawned, what it exits with,
what is read and how much is written are inputs of the steps. `Rules` says what a family of runs assumes: `ANY_RUN` nothing,
`HELD_ONLY` that Start is called on pending-held jobs, `HELD_AND_QUIET` also that no message
channel fails.

A `Job` carries four fields that the C structure has not: `trace`, the states it went through,
without repeats; `stopAt`, where in the trace a cancel or abort was first accepted; `releases` and
`sendings`, counting successful Start calls and calls of start_sending. They are read by
specifications only.

Some things the code does that one might not expect; the model does them too:

- '+' on a reason that is already there drops it and everything after it (src/pd-common.c:226-242).
- Start looks at the document, not at the job's state (src/pd-job-impl.c:1899-1907). A job canceled
  while held can be started. `StartGuard.StartConservesIff` says exactly when that matters for
  scheduling and `OrderGuard.OrderStandsIff` when for the order of states. For the device it is not
  the Start that matters but what a later cancel or abort does to the reasons:
  `DeviceGuard.GuardStandsIffNothingDropped` is the exact condition for the guard (flag and reason),
  `DeviceLoss.ExclusionStandsIff` for exclusion itself, and `WithoutTheRules.TwoRunningBackends` a
  run that misses both.
- When any job of a busy printer ends, the printer is idle (src/pd-printer-impl.c:752-759), so two
  jobs can be in state PROCESSING, although the comment there says that only one can
  (`TwoProcessing.TwoAreProcessing` is a run, `TwoProcessing.TwoProcessingIff` the exact condition for
  one event). The device is guarded by `job-outgoing`, not by the state.
- A job that cannot be launched keeps "job-outgoing" (src/pd-job-impl.c:1580-1601), and with it the
  printer's flag, for good: no job of that printer is ever sent again, whether it is there already or
  created later (`DeviceReturn.OneFailedLaunch`). A printer at rest can get its device back if and only
  if the backend of the job that holds it is running (`DeviceReturn.DeviceReturnsIff`). A job that
  leaves PENDING while the flag is set, for whatever reason (src/pd-engine.c:371), becomes PROCESSING
  and is never sent afterwards (`DeviceGuard.SentNowOrNever`). So no lemma says that every job ends.
- A failing message channel sets CANCELED at once (src/pd-job-impl.c:815-824), and reaping may
  set another state after it; unless the job was CANCELED before, it can
  (`OrderGuard.OrderStandsIff`), and `WithoutTheRules.CompletedAfterCanceled` is an example.
- A process killed by a signal counts as exit status 0 (src/pd-job-impl.c:529); an accepted cancel
  stands all the same (`PrinterSafety.AcceptedStopStands`).
- A job being canceled can still end ABORTED: when a child fails after the kill, and, because '+' truncates,
  when an error of the data pump repeats a reason that was there before the stop
  (`StopRuns.StoppingUnlessDiverted` is the exact condition).
- The loop that moves clashing descriptors out of the way uses 5 + i for entry i, whatever is there
  (src/pd-job-impl.c:884-891), and takes -1 for a clash. `ProcessSetup.SetupWorksIffNotTrampled`
  gives the exact condition. It holds for every filter, whatever the daemon has open
  (`Pipeline.Plumbing.FilterNotTrampled`), and for the backend unless exactly one of descriptors 0 to
  4 is open and 5 is not, or none of 0 to 6 is (`Pipeline.Plumbing.BackendGetsIff`).
- A printer whose name is empty is registered under the empty id, which makes no object path, so it
  is not exported.
- The chunked reader accepts more than section 4.1 of RFC 7230: signs, a prefix 0x, underscores and
  white space around the size (a negative size reads as an empty chunk), any two bytes for the CRLF
  after the data, and the end of the stream for the LF of the last line. It leaves the trailer unread.

## Model

| member | source | states |
|---|---|---|
| StateReasons.AddOrRemove | src/pd-common.c:210-249 | the new vector has two cells more than the old one had entries and holds exactly the updated list, then NULLs only |
| StateReasons.AddIncludesIffAbsent | src/pd-common.c:225-245 | '+' extends the list by the reason if and only if it was absent; otherwise it leaves the entries before it |
| StateReasons.RemoveIsFilter | src/pd-common.c:225-245 | '-' removes every occurrence of the reason and nothing else |
| StateReasons.RemoveKeepsOrder | src/pd-common.c:225-245 | what '-' leaves is a subsequence: the old order is kept |
| StateReasons.UpdateKeepsDistinct | src/pd-common.c:210-249 | no operation introduces a duplicate, and the list grows by at most one |
| StateReasons.RemoveUndoesAdd | src/pd-common.c:210-249 | removing a reason that was absent before it was added restores the list |
| JobModel.UpdateOfTexts | src/pd-common.c:225-245 | updating the reasons of a job is updating the list of their strings |
| StateReasons.FirstReasonSurvives | src/pd-common.c:225-245 | updates for other reasons never drop the first reason |
| StateLine.ParseStderr | src/pd-job-impl.c:562-601 | a line emits the signals of its parse and no others |
| StateLine.EmitReasons | src/pd-job-impl.c:580-600 | the token loop ends on every text and emits one signal per token, in order |
| StateLine.SplitUndoesJoin | src/pd-job-impl.c:580-600 | nonempty separator-free reasons joined by any nonempty separators come back as exactly that list |
| StateLine.TokensOfAnyText | src/pd-job-impl.c:580-600 | on any text tokens contain no separator, and an empty one comes first exactly when the text starts with a separator |
| StateLine.LineRoundTrip | src/pd-job-impl.c:562-601 | the same for a whole line with prefix, blanks and sign |
| StateLine.PlusLineAppends | src/pd-printer-impl.c:501-519 | the text of a '+' line puts its reasons, none of which was there, at the end of the printer's list in their order |
| StateLine.PlusLineCuts | src/pd-printer-impl.c:501-519 | a '+' line with a reason that was there leaves the entries before it |
| StateLine.MinusLineFilters | src/pd-printer-impl.c:521-539 | the text of a '-' line leaves exactly the entries that it does not name, in their order |
| StateLine.OtherLinesAreIgnored | src/pd-job-impl.c:562-579 | a line without the prefix or without a sign changes nothing |
| StateLine.LineWithEverySeparator | src/pd-job-impl.c:562-601 | a line with all four separators adds its four reasons |
| StateLine.LinesKeepDistinct | src/pd-printer-impl.c:501-539 | no sequence of signals puts a duplicate into the printer's list |
| StateLine.MatchingLinesRestore | src/pd-printer-impl.c:501-539 | a '+' line and the matching '-' line restore the printer's list if and only if none of the reasons was in it |
| StateLine.MatchingLineTextsRestore | src/pd-job-impl.c:562-601 | the same for the text of the two lines |
| JobImplementation.JobImpl.AddStateReason | src/pd-job-impl.c:431-445 | the reasons become the updated list |
| JobImplementation.JobImpl.RemoveStateReason | src/pd-job-impl.c:447-461 | the reasons become the filtered list |
| JobImplementation.JobImpl.CheckJobTransforming | src/pd-job-impl.c:463-491 | "job-transforming" goes exactly when no filter runs, which the result says |
| JobImplementation.JobImpl.ProcessWatchCb | src/pd-job-impl.c:493-560 | reaping a process, judging its status and settling the state |
| JobImplementation.JobImpl.DoCancelWithReason | src/pd-job-impl.c:2055-2147 | cancel or abort in every state: at once, by killing what runs, or not at all |
| JobImplementation.JobImpl.KillAll | src/pd-job-impl.c:2115-2138 | the loop over the chain kills exactly the processes that were started and have not finished |
| JobImplementation.JobImpl.AddDocument | src/pd-job-impl.c:1747-1848 | the reply, and the document attached only to a job without one |
| JobImplementation.JobImpl.Start | src/pd-job-impl.c:1850-2053 | the reply and new value for every outcome of spooling; an unsupported document aborts a held job |
| JobImplementation.JobImpl.Cancel | src/pd-job-impl.c:2149-2243 | the reply and new value in every state |
| JobImplementation.JobImpl.MessageError | src/pd-job-impl.c:815-824 | a failed read cancels the job directly |
| JobImplementation.JobImpl.JobStateNotify | src/pd-job-impl.c:1652-1680 | in a terminal state two reasons go and the handler disconnects |
| JobImplementation.JobImpl.StartProcessing | src/pd-job-impl.c:1296-1553 | the chain is built, run and watched, or the job is aborted with as many filters started as were |
| JobImplementation.JobImpl.StartSending | src/pd-job-impl.c:1562-1650 | the job becomes outgoing and its backend runs, or it is aborted |
| JobImplementation.JobImpl.Send | src/pd-engine.c:357-393 | what starting a job with the device free does to the job |
| JobImplementation.JobImpl.DeliverEngineNote | src/pd-engine.c:402-458 | whether the engine starts the job, and whether it disconnects |
| JobImplementation.JobImpl.DeliverReasonsNote | src/pd-engine.c:468-519 | whether the engine takes the device back, by a search of the reason list |
| JobImplementation.Carries | src/pd-engine.c:487-491 | the search loop finds the reason if and only if it is in the list |
| JobEffects.StopKills | src/pd-job-impl.c:2094-2140 | a stop accepted while processing kills exactly the running processes, adds "processing-to-stop-point", sets the pending outcome and leaves the state and everything else |
| JobEffects.StopEndsAtOnce | src/pd-job-impl.c:2078-2092 | with no filter running and no backend the state is set at once |
| JobEffects.StopOnlyOnce | src/pd-job-impl.c:2094-2095 | a second stop changes neither outcome nor processes |
| JobEffects.StopUnstarted | src/pd-job-impl.c:2068-2078 | a pending or held job gets the state and the reason at once, and everyone is told |
| JobEffects.StopAfterEnd | src/pd-job-impl.c:2142-2145 | a job that is over gets the reason only |
| JobEffects.CancelLeaves | src/pd-job-impl.c:2149-2243 | what the owner's Cancel replies and leaves in every state |
| JobEffects.CancelKills | src/pd-job-impl.c:2201-2225 | on a running job it kills and waits |
| JobEffects.StartOfHeld | src/pd-job-impl.c:1899-2053 | Start on a held job: unsupported documents abort it with "job-aborted-by-system", a failed copy loses the document but leaves it held, without a spool file nothing changes, a PDF makes it pending without "job-incoming" |
| JobEffects.SendLeaves | src/pd-job-impl.c:1562-1650 | how many filters were started and watched, the backend, the state and the pending outcome, for every way launching can go |
| JobEffects.ExitMarks | src/pd-job-impl.c:493-534 | exactly the process that exited is marked finished, with its status |
| JobEffects.ExitSettles | src/pd-job-impl.c:528-556 | a status other than 0 makes the outcome ABORTED; the outcome is set if and only if it was the last process |
| JobEffects.ExitReasons | src/pd-job-impl.c:505-526 | "job-outgoing" goes with the backend and "job-transforming" with the last filter, and no other reason |
| JobEffects.MessageFailureLeaves | src/pd-job-impl.c:815-824 | CANCELED and its reason, and nothing else |
| JobEffects.StopTexts | src/pd-job-impl.c:2149-2243 | the strings that say why a held job was stopped |
| StopRuns.StoppingUnlessDiverted | src/pd-job-impl.c:2094-2140 | an event leaves a stopped job on its way to that end if and only if it is none of these: toward CANCELED, a child that fails, or an error of the data pump whose reason stands before "processing-to-stop-point" already; toward ABORTED, a message channel that fails when no child is left |
| StopRuns.StoppedRunEnds | src/pd-job-impl.c:528-556 | over any run without such an event the outcome stands, and the job is in it once no child is left |
| StopRuns.CanceledEndsCanceled | src/pd-job-impl.c:2149-2243 | a job canceled while it runs, whose children all exit with status 0, ends CANCELED |
| StopRuns.ErrorMakesStopping | src/pd-job-impl.c:660-669 | an error of the data pump kills what runs and makes ABORTED the outcome |
| StopRuns.StoppedCanEnd | src/pd-job-impl.c:528-556 | by reaping alone that end is reached |
| PrinterImplementation.PrinterImpl.GetNextJob | src/pd-printer-impl.c:568-600 | the loop finds the pending job with the lowest index, or none |
| PrinterImplementation.PrinterImpl.CreateJob | src/pd-printer-impl.c:804-897 | a held job is appended and watched |
| PrinterImplementation.PrinterImpl.StartJob | src/pd-engine.c:357-393 | the object goes through the step of the model, with the device free or taken |
| PrinterImplementation.PrinterImpl.DeliverEngineNote | src/pd-engine.c:402-458 | the same for the engine's state handler |
| PrinterImplementation.PrinterImpl.DeliverReasonsNote | src/pd-engine.c:468-519 | the same for the engine's reasons handler |
| PrinterImplementation.PrinterImpl.DeliverPrinterNote | src/pd-printer-impl.c:734-770 | the same for the printer's handler: a terminal job makes a busy printer idle |
| PrinterImplementation.PrinterImpl.DeliverPrinterStateNote | src/pd-engine.c:872-902 | the same for the engine's handler of the printer state: the next job starts |
| PrinterImplementation.PrinterImpl.JobEvent | src/pd-job-impl.c:2055-2243 | a D-Bus call, child exit or callback on one job takes the objects through that step, other jobs untouched; the assertion in Start holds because the state is reachable |
| PrinterImplementation.PrinterImpl.Take | src/pd-engine.c:357-519 | the objects take every step of the machine and go on showing a reachable printer |
| PrinterImplementation.PrinterImpl.OneBackendRuns | src/pd-engine.c:371-392 | of objects showing such a printer at most one job's backend runs |
| PrinterImplementation.PrinterImpl.JobStderr | src/pd-printer-impl.c:778-801 | the printer's list after a line is that of its signals one by one |
| PrinterSafety.ReachableSafe | src/pd-job-impl.c:493-560 | every job of every reachable printer satisfies the invariant of a job, on any run |
| PrinterSafety.CompletedIsHonest | src/pd-job-impl.c:528-556 | a COMPLETED job has a backend and filters that all started and exited with status 0, and no cancel or abort was accepted |
| PrinterSafety.AcceptedStopStands | src/pd-job-impl.c:2094-2140 | after an accepted cancel or abort every state is CANCELED or ABORTED, in any order of exits (section 3.3.3 of RFC 2911) |
| PrinterSafety.ReapingIsTerminal | src/pd-job-impl.c:536-556 | reaping sets a terminal state or none |
| PrinterSafety.OutcomeNeverReturns | src/pd-job-impl.c:528-534 | over any continuation a pending outcome that left COMPLETED does not return to it |
| PrinterSafety.DocumentIsOneShot | src/pd-job-impl.c:1899-1932 | an attached document has no spool file, and a job is released at most once and sent at most once |
| PrinterSafety.ReasonsStayDistinct | src/pd-job-impl.c:431-461 | the reasons of a printer and of its jobs are distinct in every reachable state |
| DeviceExclusion.ReachableGuarded | src/pd-engine.c:371-392 | flag, reason and handler agree in every reachable state, and "job-outgoing" is the first reason of its job |
| DeviceExclusion.OneRunningBackend | src/pd-engine.c:371-392 | at most one job of a printer has a running backend, in every reachable state |
| DeviceExclusion.FlagTellsCarrier | src/pd-engine.c:468-508 | when all is quiet the flag is true if and only if a job carries "job-outgoing"; that job is unique and watched |
| Scheduling.IdleMeansNothingPending | src/pd-engine.c:872-898 | when all is quiet an idle printer has no pending job |
| Scheduling.LowestPendingStarts | src/pd-printer-impl.c:577-594 | whichever handler takes a job out of PENDING, it is the pending job with the lowest index |
| StateOrder.StatesFollowTheDiagram | src/pd-job-impl.c:536-556 | every state follows the one before it as in section 4.3.7 of RFC 2911, and nothing follows a terminal one |
| StartGuard.StartConservesIff | src/pd-job-impl.c:1899-1907 | a successful Start ends, for every order of handlers, with nothing pending beside an idle printer if and only if the job was held or the printer is not idle |
| StartGuard.RestartStrands | src/pd-engine.c:402-458 | the jobs with a document that are not held are those canceled while held, and Start leaves such a job where no handler looks |
| StartGuard.RunHeard | src/pd-engine.c:444-452 | the engine stays connected to a job past PENDING only while it has yet to be told |
| WithoutTheRules.CanceledWithDocument | src/pd-job-impl.c:2149-2243 | such a job can be reached by AddDocument and Cancel |
| DeviceGuard.DoCancelKeepsOutgoingIff | src/pd-job-impl.c:2055-2147 | for every job, a cancel or abort keeps "job-outgoing" if and only if the reason it adds does not stand before it |
| DeviceGuard.CoverSurvivesIff | src/pd-common.c:226-242 | on a printer reached without such a drop, a running backend keeps flag and reason through an event and all that the event sets off if and only if the added reason does not stand before "job-outgoing" |
| DeviceGuard.GuardStandsIffNothingDropped | src/pd-engine.c:371-392 | along any run, every running backend has its reason and the flag whenever all is quiet, if and only if no event of the run drops the reason of a running backend |
| DeviceGuard.OneDriver | src/pd-engine.c:371-392 | along such a run at most one job of a printer has a running backend, whatever jobs are started |
| DeviceGuard.HeldOnlyIsCareful | src/pd-job-impl.c:1899-1907 | runs in which only held jobs are started are of that kind |
| DeviceLoss.ExclusionStandsIff | src/pd-common.c:226-242 | after a run without a drop and one more event, no two backends ever run, whatever follows without a drop, if and only if the event drops nothing |
| DeviceLoss.LooseMakesTwo | src/pd-engine.c:371-392 | from any printer with the flag cleared while a backend runs, two backends are reached without a further drop |
| DeviceReturn.LaunchBlocksIff | src/pd-job-impl.c:1562-1610 | a job that is sent keeps "job-outgoing" without a backend if and only if launching it failed, at whatever point |
| DeviceReturn.BlockedForGood | src/pd-engine.c:371-392 | over any continuation such a job keeps the reason, the printer the flag, and no job is sent, be it there or created later |
| DeviceReturn.OneFailedLaunch | src/pd-job-impl.c:1580-1601 | so after one failed launch no job of the printer is ever sent |
| DeviceReturn.AnyFailureBlocks | src/pd-job-impl.c:1562-1610 | such a printer is reached with every way of failing |
| DeviceReturn.DeviceReturnsIff | src/pd-engine.c:468-508 | a printer at rest whose device is held can get it back if and only if the holder's backend runs |
| TwoProcessing.TwoProcessingIff | src/pd-printer-impl.c:752-759 | with one job PROCESSING, an event about another can end with two if and only if a job is pending after it and the printer was idle or the event ends its job |
| TwoProcessing.TwoAreProcessing | src/pd-printer-impl.c:752-759 | a run by the rules to two jobs PROCESSING |
| DeviceGuard.SentNowOrNever | src/pd-engine.c:371-392 | a job taken out of PENDING is sent then if the device is free; if not it is never sent and stays PROCESSING or CANCELED |
| OrderGuard.OrderStandsIff | src/pd-job-impl.c:815-824 | after a run by the rules and one more event, the order of states stands for all that may follow by the rules if and only if the event is neither a channel failure of a job not yet CANCELED nor a successful Start on a job not held |
| OrderGuard.ReapAll | src/pd-job-impl.c:528-556 | a job CANCELED while a process of it is left can be brought, by reaping alone, from CANCELED to ABORTED |
| OrderGuard.RunAttended | src/pd-job-impl.c:1562-1650 | on any run a job whose channels are watched has a backend or is over, and one without a process left is over |
| WithoutTheRules.TwoRunningBackends | src/pd-job-impl.c:1899-1907 | a run, without a failing channel, to two running backends of one printer; every run that gets there drops the reason somewhere |
| WithoutTheRules.CompletedAfterCanceled | src/pd-job-impl.c:815-824 | a run with held-only Starts in which a job goes from CANCELED to COMPLETED |
| Cascades.HandleDecreases | src/pd-engine.c:872-902 | every handler call lowers the measure, and uses up one pending job exactly when it starts one |
| Cascades.CascadeIsBounded | src/pd-engine.c:357-393 | for any order of handlers and any outcome of launching, a cascade is no longer than its measure and starts no more jobs than were pending |
| Cascades.CascadeComesToRest | src/pd-job-impl.c:1582-1601 | from every state the cascade can be carried on until nothing is queued |
| DataPump.JobData.OnReadable | src/pd-job-impl.c:621-692 | the reading half of the callback |
| DataPump.JobData.OnWritable | src/pd-job-impl.c:693-761 | the writing half of the callback |
| DataPump.JobData.StopSendingData | src/pd-job-impl.c:2100-2113 | the backend's input and its watch go; the reading watch stays |
| DataPump.FailureLeaves | src/pd-job-impl.c:660-732 | a failed read is not repeated, a failed write loses nothing of the buffer, and the input goes exactly when the failure stops the job |
| DataPump.NothingAfterStop | src/pd-job-impl.c:2100-2113 | once the backend's input is gone nothing reaches it, over any run |
| DataPump.NextKeeps | src/pd-job-impl.c:603-766 | every callback keeps the discipline and the copied stream |
| DataPump.PumpCopiesTheStream | src/pd-job-impl.c:621-761 | delivered bytes and the unsent part of the buffer are what was read; when the input is ended by the pump, everything was delivered in order and once |
| DataPump.PumpIsDisciplined | src/pd-job-impl.c:633-692 | indices within 1024; never two watches; reading only with an empty buffer; writing with an empty buffer only after end of file |
| DataPump.ProgressLowersWork | src/pd-job-impl.c:702-761 | a callback that moves something on lowers the work left |
| DataPump.SteadyRunsAreShort | src/pd-job-impl.c:603-766 | such callbacks number at most the work at the start |
| DataPump.CleanRunsStayAwake | src/pd-job-impl.c:603-766 | without a failure or stop a watch is armed until the input has been ended |
| DataPump.CleanRunsDeliver | src/pd-job-impl.c:1635-1644 | a clean run that has come to rest has delivered the whole output |
| Pipeline.ProcessFds.SetupChild | src/pd-job-impl.c:872-907 | the three loops compute `ProcessSetup.Setup` |
| ProcessSetup.SetupMoves | src/pd-job-impl.c:872-907 | five distinct open descriptors, in any arrangement, end up on 0..4, and the whole rest of the table is determined |
| ProcessSetup.TrampledFileIsLost | src/pd-job-impl.c:884-891 | an entry on the spare descriptor of a clashing one loses its file |
| ProcessSetup.SetupWorksIffNotTrampled | src/pd-job-impl.c:872-907 | every slot gets its file if and only if no entry is on the spare descriptor of a clashing one |
| Pipeline.Plumbing.CreatePipeFor | src/pd-job-impl.c:851-870 | one end for the child and the other for the daemon |
| Pipeline.Plumbing.JoinFilters | src/pd-job-impl.c:1458-1478 | the loop over neighbours fills stdout and stdin of every pair |
| Pipeline.Plumbing.Connect | src/pd-job-impl.c:1398-1490 | after all pipes and channels every process of a chain of any length has the five descriptors of its place |
| Pipeline.Plumbing.RunProcess | src/pd-job-impl.c:1252-1260 | the daemon closes the child's in, out and err, each of them open when it is closed |
| Pipeline.Plumbing.StartProcessing | src/pd-job-impl.c:1398-1512 | every filter is spawned from the table of its turn, and every close succeeds |
| Pipeline.Plumbing.StartSending | src/pd-job-impl.c:1566-1607 | so is the backend; the daemon's table afterwards |
| Pipeline.Plumbing.FilterReady | src/pd-job-impl.c:1398-1490 | all five descriptors of every filter are set, open in its table, distinct, and none is a daemon's end |
| Pipeline.Plumbing.BackendReady | src/pd-job-impl.c:1398-1441 | the same for the backend |
| Pipeline.Plumbing.FilterNotTrampled | src/pd-job-impl.c:884-891 | whatever the daemon has open, the move works for every filter of every chain |
| Pipeline.Plumbing.BackendTrampledIff | src/pd-job-impl.c:884-891 | for the backend an entry is in the way if and only if exactly one of 0 to 4 is open in the daemon and 5 is not, or none of 0 to 6 is |
| Pipeline.Plumbing.BackendGetsIff | src/pd-job-impl.c:872-907 | so the backend gets its five files if and only if the daemon's table is none of those |
| Pipeline.Plumbing.IsNumber | src/pd-job-impl.c:1398-1490 | the descriptor opened as number i is the free number with i free numbers below it, and no other |
| Pipeline.Plumbing.FilterGets | src/pd-job-impl.c:1459-1490 | on its 0 to 4 the first filter has the document, every other the pipe its predecessor writes; all have their own message pipe and their ends of the channels |
| Pipeline.Plumbing.BackendGets | src/pd-job-impl.c:1398-1441 | the files on the backend's 0 to 4 |
| Pipeline.Plumbing.DaemonHoldsBackendEnds | src/pd-job-impl.c:1398-1414 | the daemon holds the other ends of the backend's pipes |
| Pipeline.Plumbing.DaemonHoldsMessageEnds | src/pd-job-impl.c:1444-1456 | and the reading end of every filter's messages |
| Pipeline.Plumbing.DaemonHoldsOutputEnd | src/pd-job-impl.c:1486-1490 | and the reading end of the last filter's output, and of no other |
| Pipeline.Plumbing.WhatIsLeft | src/pd-job-impl.c:1252-1260 | the daemon is left with what it had, unchanged, and exactly n + 4 new descriptors, its pipe ends |
| Pipeline.FdsDiffer | src/pd-job-impl.c:1398-1490 | no two of the descriptors opened are the same |
| PrinterRegistry.Printer.GetId | src/pd-printer-impl.c:290-308 | the id is made from the name once, with an underscore for every character that is no letter, digit or underscore, and kept |
| PrinterRegistry.Canon | src/pd-printer-impl.c:296-304 | character by character: letters, digits and underscores stay, any other becomes an underscore; so the id is the name if and only if the name has only those |
| PrinterRegistry.AllowedAreListed | src/pd-printer-impl.c:298-304 | the characters kept are the 63 listed |
| PrinterRegistry.ChosenIdIs | src/pd-engine.c:636-657 | the id chosen is the name's own, or if that is taken the one with the smallest free suffix in 2..999 |
| PrinterRegistry.ChosenIdFor | src/pd-engine.c:640-657 | an id chosen is the name with underscores, alone or followed by an underscore and a number from 2 to 999 |
| PrinterRegistry.NoneIffAllTaken | src/pd-engine.c:640-654 | none is found if and only if all 999 are taken |
| PrinterRegistry.RoomForAnother | src/pd-engine.c:640-654 | with fewer than 999 printers there is always one |
| PrinterRegistry.Engine.FindSuffix | src/pd-engine.c:640-651 | the loop finds the first free suffix |
| PrinterRegistry.Engine.AddPrinter | src/pd-engine.c:587-685 | an add never replaces an entry, and with fewer than 999 printers it succeeds; the new printer is registered and exported under an id made from its name; registry and exports agree before and after |
| PrinterRegistry.Engine.RemovePrinter | src/pd-engine.c:699-731 | a remove takes exactly the printer with that path out of both |
| PrinterRegistry.Engine.GetPrinterByPath | src/pd-engine.c:744-762 | the result is the registered printer whose id follows the last '/' of the path, and null only if no registered id does |
| PrinterRegistry.Engine.FoundByOwnPath | src/pd-engine.c:744-762 | a registered printer is found under its object path, and under a path if and only if that ends in its id |
| ChunkedReader.IPPServer.ReadSpecified | ippd/ippd.py:124-133 | exactly the bytes asked for, or an error with what there was and how much is missing, however reads are split |
| ChunkedReader.IPPServer.ReadChunkSize | ippd/ippd.py:135-141 | the line's size, and the stream behind the line |
| ChunkedReader.IPPServer.ReadChunk | ippd/ippd.py:143-149 | the data and two bytes are read |
| ChunkedReader.IPPServer.ReadAllChunks | ippd/ippd.py:151-162 | however the socket splits reads, the outcome and what is left are a function of the bytes |
| ChunkedReader.AcceptsExactlyFramings | ippd/ippd.py:151-162 | a stream decodes to a body and a rest if and only if it is made of frames carrying the body, a zero-size line, and the rest |
| ChunkedReader.DecodeUndoesEncode | ippd/ippd.py:151-162 | decoding inverts the coding of section 4.1 of RFC 7230 for any chunks, spellings and extensions, and stops after the zero-size line |
| ChunkedReader.HexParses | ippd/ippd.py:141-141 | a hexadecimal size parses to its value, with or without the line's end |
| ChunkedReader.SpellValue | ippd/ippd.py:141-141 | every size has a spelling in either case |
| ChunkedReader.DigitParses | ippd/ippd.py:141-141 | the sixteen digits of either case have the values of their places |
| ChunkedReader.OnlyDigitsParse | ippd/ippd.py:141-141 | a single byte is a number if and only if it is one of those |
| ChunkedReader.SpellingParses | ippd/ippd.py:135-141 | a size line written in either case gives the size back |
| ChunkedReader.DecoratedParses | ippd/ippd.py:141-141 | white space, a sign and a prefix 0x around the digits are accepted and give the signed value |
| ChunkedReader.UnderscoreIsSkipped | ippd/ippd.py:141-141 | an underscore between digits does not change the value |
| ChunkedReader.TenBytes | ippd/ippd.py:151-162 | a chunk with size A and an extension gives its ten bytes |
| ChunkedReader.BadSizeFails | ippd/ippd.py:151-162 | after any chunks a size that is no number is an error, the stream left after its line |
| ChunkedReader.CutChunkFails | ippd/ippd.py:124-149 | a stream ending inside a chunk is an error with what there is and how much is missing |
| ChunkedReader.TruncationIsNoticed | ippd/ippd.py:151-162 | without leading zeros a body that breaks off is never taken for a shorter one |
| ChunkedReader.TruncationNoticedIffPlain | ippd/ippd.py:135-162 | that is so if and only if no chunk size has a leading zero |

## Left out

- Authorisation, user lookup, D-Bus, GObject and GVariant: whether the caller owns the job and whether one valid descriptor came with the call are inputs.
- Removing a printer while it has jobs: the step machine has one printer that stays.
- Threads and locks: a handler or callback is one step.
- What a filter or backend does, PPD files, environment and arguments: launching succeeds or fails at a given place (`Launch`).
- The error paths of start_processing once the job is aborted: what they free and close is not modelled, nor that the paths through `fail_setup` free a process still on the chain.
- The descriptors while a chain that was started earlier waits for its backend: `Pipeline.Plumbing.StartSending` is the path where start_sending itself starts the chain.
- Descriptor arrays embedded in a C structure are sequences held in a field, so aliasing between them is not modelled.
- The state of a process (`JobImplementation.JobProcess`) and its descriptors (`Pipeline.ProcessFds`) are two views of one C structure. Nothing ties an outcome of launching to the descriptor call that fails.
- What g_spawn does to the child before process_setup: it replaces the child's stdin, so a daemon with descriptor 0 closed, whose document becomes 0, loses it there. The descriptor lemmas start from a copy of the daemon's table.
- The property setters are generated from the D-Bus interface and are not part of this model: a version of them that does not notify when a job is set the state it already has (a second CANCELED, or the same end twice) is not covered.
- The job and its data pump are two models: that a stop ends the backend's input is a callback of the pump (`StopSending`), and that a failing read or write aborts the job is an event of the job (`DataError`).
- GLib's channel buffers: the pump counts bytes that the channel accepted.
- ProcessSetup.SetupWorksIffNotTrampled: asks that no other descriptor of the child refers to one of the five files, which is what pipes opened by the daemon give.
- Pipeline.Plumbing.BackendGetsIff: asks that none of the files the daemon has open is one of the pipes it is about to create; the model numbers pipes and does not carry that as an invariant.
- PrinterRegistry.Engine.RemovePrinter: looks at paths of printers only; a path of another exported object, for which the code goes on with a null printer, is not part of the model.
- PrinterRegistry.Engine.AddPrinter: does not model memory: when all suffixes are taken the C code frees the id text twice.
- Job ids, devices, attributes, defaults and the conversion of states to text: single assignments or single loops.
- The IPP operations of ippd, and requests that are not chunked.
