/** One printer with its jobs: the scheduler of src/pd-engine.c and src/pd-printer-impl.c as a
    step machine. External steps (D-Bus calls, child exits, I/O callbacks) happen when no
    notification is queued; the queued notifications are handled in any order. */
module PrinterModel {
  import opened StateReasons
  import opened JobModel
  import StateLine

  datatype PrinterState = PrinterIdle | PrinterProcessing | PrinterStopped

  /** `notes` counts the notifications queued for pd_engine_printer_state_notify. */
  datatype Printer = Printer(
    state: PrinterState,
    jobOutgoing: bool,
    jobs: seq<Job>,
    notes: nat,
    reasons: seq<string>)

  const NEW_PRINTER := Printer(PrinterIdle, false, [], 0, [])

  function WithJob(p: Printer, i: nat, j: Job): Printer
    requires i < |p.jobs|
  {
    p.(jobs := p.jobs[i := j])
  }

  function SetPrinterState(p: Printer, s: PrinterState): Printer {
    p.(state := s, notes := p.notes + 1)
  }

  /** pd_engine_start_job */
  function StartJob(p: Printer, i: nat, l: Launch): Printer
    requires i < |p.jobs|
  {
    var busy := SetPrinterState(p, PrinterProcessing);
    if p.jobOutgoing then WithJob(busy, i, SetState(p.jobs[i], Processing))
    else WithJob(busy.(jobOutgoing := true), i, Send(p.jobs[i], l))
  }

  /** pd_printer_impl_get_next_job: the pending job with the lowest index. */
  function NextJob(jobs: seq<Job>): (i: Option<nat>)
    ensures i.None? ==> forall k :: 0 <= k < |jobs| ==> jobs[k].state != Pending
    ensures i.Some? ==> i.value < |jobs| && jobs[i.value].state == Pending
    ensures i.Some? ==> forall k :: 0 <= k < i.value ==> jobs[k].state != Pending
  {
    NextFrom(jobs, 0)
  }

  function NextFrom(jobs: seq<Job>, from: nat): (i: Option<nat>)
    requires from <= |jobs|
    ensures i.None? ==> forall k :: from <= k < |jobs| ==> jobs[k].state != Pending
    ensures i.Some? ==> from <= i.value < |jobs| && jobs[i.value].state == Pending
    ensures i.Some? ==> forall k :: from <= k < i.value ==> jobs[k].state != Pending
    decreases |jobs| - from
  {
    if from == |jobs| then None
    else if jobs[from].state == Pending then Some(from)
    else NextFrom(jobs, from + 1)
  }

  // The notification handlers

  datatype Note =
    | SelfNote(i: nat)
    | EngineNote(i: nat, l: Launch)
    | PrinterNote(i: nat)
    | ReasonsNote(i: nat)
    | PrinterStateNote(l: Launch)

  predicate Queued(p: Printer, n: Note) {
    match n
    case SelfNote(i) => i < |p.jobs| && 0 < p.jobs[i].selfNotes
    case EngineNote(i, l) => i < |p.jobs| && 0 < p.jobs[i].engineNotes && l.Possible()
    case PrinterNote(i) => i < |p.jobs| && 0 < p.jobs[i].printerNotes
    case ReasonsNote(i) => i < |p.jobs| && 0 < p.jobs[i].reasonNotes
    case PrinterStateNote(l) => 0 < p.notes && l.Possible()
  }

  ghost predicate JobQuiet(j: Job) {
    j.selfNotes == 0 && j.engineNotes == 0 && j.printerNotes == 0 && j.reasonNotes == 0
  }

  ghost predicate Quiescent(p: Printer) {
    p.notes == 0 && forall i :: 0 <= i < |p.jobs| ==> JobQuiet(p.jobs[i])
  }

  /** pd_job_impl_job_state_notify */
  function OnSelfNote(p: Printer, i: nat): Printer
    requires i < |p.jobs| && 0 < p.jobs[i].selfNotes
  {
    WithJob(p, i, AfterSelfNote(p.jobs[i]))
  }

  /** pd_engine_job_state_notify */
  function OnEngineNote(p: Printer, i: nat, l: Launch): Printer
    requires i < |p.jobs| && 0 < p.jobs[i].engineNotes
  {
    var q := WithJob(p, i, AfterEngineNote(p.jobs[i], p.state == PrinterIdle));
    if Startable(p.jobs[i]) && p.state == PrinterIdle then StartJob(q, i, l) else q
  }

  /** pd_printer_impl_job_state_notify */
  function OnPrinterNote(p: Printer, i: nat): Printer
    requires i < |p.jobs| && 0 < p.jobs[i].printerNotes
  {
    var q := WithJob(p, i, TakePrinterNote(p.jobs[i]));
    if p.jobs[i].state.Terminal() && p.state == PrinterProcessing then SetPrinterState(q, PrinterIdle) else q
  }

  /** pd_engine_job_state_reasons_notify */
  function OnReasonsNote(p: Printer, i: nat): Printer
    requires i < |p.jobs| && 0 < p.jobs[i].reasonNotes
  {
    WithJob(p, i, AfterReasonsNote(p.jobs[i])).(jobOutgoing := p.jobOutgoing && !LetsGo(p.jobs[i]))
  }

  /** pd_engine_printer_state_notify */
  function OnPrinterStateNote(p: Printer, l: Launch): Printer
    requires 0 < p.notes
  {
    var q := p.(notes := p.notes - 1);
    if p.state == PrinterIdle && NextJob(p.jobs).Some? then StartJob(q, NextJob(p.jobs).value, l) else q
  }

  function Handle(p: Printer, n: Note): Printer
    requires Queued(p, n)
  {
    match n
    case SelfNote(i) => OnSelfNote(p, i)
    case EngineNote(i, l) => OnEngineNote(p, i, l)
    case PrinterNote(i) => OnPrinterNote(p, i)
    case ReasonsNote(i) => OnReasonsNote(p, i)
    case PrinterStateNote(l) => OnPrinterStateNote(p, l)
  }

  // External steps

  /** What reaches the daemon from outside. `DataError` is a failure in the data pump with the
      reason it reports, `DataEnd` its "End of input" branch, `MessageError` a failed read of a
      message channel and `MessageLine` a line read from a process's stderr. */
  datatype Event =
    | CreateJob
    | AddDocumentCall(i: nat, owner: bool, usable: bool)
    | StartCall(i: nat, owner: bool, spooling: Spooling)
    | CancelCall(i: nat, owner: bool)
    | ChildExit(i: nat, w: ProcessId, status: int)
    | DataError(i: nat, reason: Reason)
    | DataEnd(i: nat)
    | MessageError(i: nat)
    | MessageLine(i: nat, line: string)

  /** A process whose channels are watched. */
  predicate Listening(j: Job) {
    j.backend.watched || exists k :: 0 <= k < |j.filters| && j.filters[k].watched
  }

  predicate Possible(p: Printer, e: Event) {
    match e
    case CreateJob => true
    case AddDocumentCall(i, _, _) => i < |p.jobs|
    case StartCall(i, _, _) => i < |p.jobs|
    case CancelCall(i, _) => i < |p.jobs|
    case ChildExit(i, w, _) => i < |p.jobs| && CanExit(p.jobs[i], w)
    case DataError(i, r) => i < |p.jobs| && p.jobs[i].backend.started && (r == AbortedBySystem || r == CanceledBySystem)
    case DataEnd(i) => i < |p.jobs| && p.jobs[i].backend.started
    case MessageError(i) => i < |p.jobs| && Listening(p.jobs[i])
    case MessageLine(i, _) => i < |p.jobs| && Listening(p.jobs[i])
  }

  /** The job an event is about, afterwards. */
  function JobAfter(j: Job, e: Event): Job
    requires e.ChildExit? ==> Has(j, e.w)
  {
    match e
    case AddDocumentCall(_, owner, usable) => AddDocument(j, owner, usable).1
    case StartCall(_, owner, spooling) => Start(j, owner, spooling).1
    case CancelCall(_, owner) => Cancel(j, owner).1
    case ChildExit(_, w, status) => Exit(j, w, status)
    case DataError(_, reason) => DoCancel(j, Aborted, reason)
    case DataEnd(_) => CheckTransforming(j)
    case MessageError(_) => MessageFailure(j)
    case _ => j
  }

  function Happen(p: Printer, e: Event): Printer
    requires Possible(p, e)
  {
    match e
    case CreateJob => p.(jobs := p.jobs + [NEW_JOB])
    case MessageLine(_, line) => p.(reasons := StateLine.HandledAll(p.reasons, StateLine.Parse(line)))
    case _ => WithJob(p, e.i, JobAfter(p.jobs[e.i], e))
  }

  // Runs

  datatype Step = Outside(e: Event) | Inside(n: Note)

  predicate CanStep(p: Printer, s: Step) {
    match s
    case Outside(e) => Possible(p, e)
    case Inside(n) => Queued(p, n)
  }

  function Next(p: Printer, s: Step): Printer
    requires CanStep(p, s)
  {
    match s
    case Outside(e) => Happen(p, e)
    case Inside(n) => Handle(p, n)
  }

  /** What a family of runs assumes of its environment.
      - `heldOnly`: Start calls that find a document are made on pending-held jobs.
      - `quiet`: no message channel ever fails. */
  datatype Rules = Rules(heldOnly: bool, quiet: bool)

  const ANY_RUN := Rules(false, false)
  const HELD_ONLY := Rules(true, false)
  const HELD_AND_QUIET := Rules(true, true)

  predicate Obeys(rules: Rules, p: Printer, e: Event)
    requires Possible(p, e)
  {
    && (rules.heldOnly && e.StartCall? && e.owner && p.jobs[e.i].document ==> p.jobs[e.i].state == PendingHeld)
    && (rules.quiet ==> !e.MessageError?)
  }

  ghost predicate Allowed(rules: Rules, p: Printer, s: Step) {
    && CanStep(p, s)
    && (s.Outside? ==> Quiescent(p) && Obeys(rules, p, s.e))
  }

  /** `steps` lead from `p` to `q`. */
  ghost predicate Run(rules: Rules, p: Printer, steps: seq<Step>, q: Printer)
    decreases |steps|
  {
    if steps == [] then p == q
    else Allowed(rules, p, steps[0]) && Run(rules, Next(p, steps[0]), steps[1..], q)
  }

  ghost predicate Reachable(rules: Rules, p: Printer) {
    exists steps :: Run(rules, NEW_PRINTER, steps, p)
  }

  /** A run in which notifications are handled and nothing else happens. */
  ghost predicate Cascade(p: Printer, steps: seq<Step>, q: Printer) {
    Run(ANY_RUN, p, steps, q) && forall k :: 0 <= k < |steps| ==> steps[k].Inside?
  }
}
