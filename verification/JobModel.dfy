/** One print job as a value: what each callback and D-Bus method of src/pd-job-impl.c does to
    the fields of a job. The classes in JobImpl.dfy are proved to compute these functions. */
module JobModel {
  import opened StateReasons

  /** `Unset` is the zero the C structure starts from; `pendingState` holds it until the job is
      sent. `ProcessingStopped` is declared by the D-Bus interface and never entered. */
  datatype JobState =
    | Unset
    | Pending
    | PendingHeld
    | Processing
    | ProcessingStopped
    | Canceled
    | Aborted
    | Completed
  {
    predicate Terminal() {
      Canceled? || Aborted? || Completed?
    }

    predicate Stopped() {
      Canceled? || Aborted?
    }
  }

  /** The strings the daemon puts into a job's state reasons. */
  datatype Reason =
    | Incoming
    | Outgoing
    | Transforming
    | ToStopPoint
    | CanceledByUser
    | CanceledBySystem
    | AbortedBySystem
  {
    function Text(): string {
      match this
      case Incoming => "job-incoming"
      case Outgoing => "job-outgoing"
      case Transforming => "job-transforming"
      case ToStopPoint => "processing-to-stop-point"
      case CanceledByUser => "job-canceled-by-user"
      case CanceledBySystem => "job-canceled-by-system"
      case AbortedBySystem => "job-aborted-by-system"
    }
  }

  /** One supervised process. `watched` says that a child watch was installed, `status` is the
      WEXITSTATUS reported by that watch (0 for a process killed by a signal). */
  datatype Process = Process(started: bool, finished: bool, watched: bool, killed: bool, status: int) {
    predicate Running() {
      started && !finished
    }
  }

  const NEVER_RUN := Process(false, false, false, false, 0)
  const SPAWNED := Process(true, false, false, false, 0)
  const WATCHED := Process(true, false, true, false, 0)

  /** The fields of PdJobImpl that the protocol depends on.
      - `document`: a document descriptor is attached; `spooled`: the spool file has a name.
      - `selfWatch`, `engineWatch`, `outgoingWatch`: the signal handlers
        pd_job_impl_job_state_notify, pd_engine_job_state_notify and
        pd_engine_job_state_reasons_notify are connected. The printer's handler always is.
      - the four `...Notes`: property notifications queued for each handler.
      - history, not present in the source: `trace` lists the states it went through, `stopAt` is the
        length of `trace` when a cancel or abort was first accepted while processing,
        `releases` counts the Start calls that made the job pending and `sendings` the calls
        of start_sending. */
  datatype Job = Job(
    state: JobState,
    reasons: seq<Reason>,
    pendingState: JobState,
    document: bool,
    spooled: bool,
    filters: seq<Process>,
    backend: Process,
    selfWatch: bool,
    engineWatch: bool,
    outgoingWatch: bool,
    selfNotes: nat,
    engineNotes: nat,
    printerNotes: nat,
    reasonNotes: nat,
    trace: seq<JobState>,
    stopAt: Option<nat>,
    releases: nat,
    sendings: nat)

  /** A job as pd_printer_impl_complete_create_job leaves it. */
  const NEW_JOB := Job(PendingHeld, [Incoming], Unset, false, false, [], NEVER_RUN,
                       true, true, false, 0, 0, 0, 0, [PendingHeld], None, 0, 0)

  // Property setters: each one queues a notification for every handler of that property.

  function SetState(j: Job, s: JobState): Job {
    j.(state := s,
       selfNotes := j.selfNotes + 1,
       engineNotes := j.engineNotes + 1,
       printerNotes := j.printerNotes + 1,
       trace := Traced(j, s))
  }

  /** Setting the state a job already has is no change of state, though it notifies all the same. */
  function Traced(j: Job, s: JobState): seq<JobState> {
    if s == j.state then j.trace else j.trace + [s]
  }

  function AddReason(j: Job, r: Reason): Job {
    j.(reasons := Add(j.reasons, r), reasonNotes := j.reasonNotes + 1)
  }

  function RemoveReason(j: Job, r: Reason): Job {
    j.(reasons := Remove(j.reasons, r), reasonNotes := j.reasonNotes + 1)
  }

  // A handler takes its notification off the queue

  function TakeSelfNote(j: Job): Job
    requires 0 < j.selfNotes
  {
    j.(selfNotes := j.selfNotes - 1)
  }

  function TakeEngineNote(j: Job): Job
    requires 0 < j.engineNotes
  {
    j.(engineNotes := j.engineNotes - 1)
  }

  function TakePrinterNote(j: Job): Job
    requires 0 < j.printerNotes
  {
    j.(printerNotes := j.printerNotes - 1)
  }

  function TakeReasonsNote(j: Job): Job
    requires 0 < j.reasonNotes
  {
    j.(reasonNotes := j.reasonNotes - 1)
  }

  /** The engine's reasons handler: it lets go of a job that is no longer outgoing. */
  predicate LetsGo(j: Job) {
    j.outgoingWatch && Outgoing !in j.reasons
  }

  function AfterReasonsNote(j: Job): Job
    requires 0 < j.reasonNotes
  {
    if LetsGo(j) then TakeReasonsNote(j).(outgoingWatch := false) else TakeReasonsNote(j)
  }

  /** The engine's state handler: whether it starts the job, and whether it disconnects. */
  predicate Startable(j: Job) {
    j.engineWatch && j.state == Pending
  }

  function AfterEngineNote(j: Job, idle: bool): Job
    requires 0 < j.engineNotes
  {
    if j.engineWatch && j.state != PendingHeld && (j.state == Pending ==> idle)
    then TakeEngineNote(j).(engineWatch := false)
    else TakeEngineNote(j)
  }

  /** pd_job_impl_job_state_notify, if still connected. */
  function AfterSelfNote(j: Job): Job
    requires 0 < j.selfNotes
  {
    if j.selfWatch then SelfNotified(TakeSelfNote(j)) else TakeSelfNote(j)
  }

  // Supervising the processes

  predicate AnyRunning(ps: seq<Process>) {
    exists k :: 0 <= k < |ps| && ps[k].Running()
  }

  function Killed(p: Process): Process {
    if p.Running() then p.(killed := true) else p
  }

  function KilledAll(ps: seq<Process>): (ks: seq<Process>)
    ensures |ks| == |ps|
    ensures forall k :: 0 <= k < |ps| ==> ks[k] == Killed(ps[k])
  {
    seq(|ps|, k requires 0 <= k < |ps| => Killed(ps[k]))
  }

  function CheckTransforming(j: Job): Job {
    if AnyRunning(j.filters) then j else RemoveReason(j, Transforming)
  }

  function Accept(j: Job): Job {
    if j.stopAt.None? then j.(stopAt := Some(|j.trace|)) else j
  }

  /** pd_job_impl_do_cancel_with_reason */
  function DoCancel(j: Job, s: JobState, reason: Reason): Job {
    var a := AddReason(j, reason);
    if j.state == Pending || j.state == PendingHeld then SetState(a, s)
    else if j.state == Processing || j.state == ProcessingStopped then Stop(a, s)
    else a
  }

  function Stop(j: Job, s: JobState): Job {
    var c := CheckTransforming(j);
    if !AnyRunning(j.filters) && !j.backend.started then
      StopNow(c, s)
    else if ToStopPoint in c.reasons then
      c
    else
      StopRunning(c, s)
  }

  function StopNow(c: Job, s: JobState): Job {
    SetState(Accept(c), s)
  }

  function StopRunning(c: Job, s: JobState): Job {
    AddReason(Kill(c, s), ToStopPoint)
  }

  function Kill(j: Job, s: JobState): Job {
    KillProcesses(Pend(j, s))
  }

  function Pend(j: Job, s: JobState): Job {
    Accept(j).(pendingState := s)
  }

  function KillProcesses(j: Job): Job {
    j.(filters := KilledAll(j.filters), backend := Killed(j.backend))
  }

  datatype ProcessId = Filter(index: nat) | Backend

  predicate Has(j: Job, w: ProcessId) {
    w.Filter? ==> w.index < |j.filters|
  }

  function Get(j: Job, w: ProcessId): Process
    requires Has(j, w)
  {
    if w.Backend? then j.backend else j.filters[w.index]
  }

  function Put(j: Job, w: ProcessId, p: Process): Job
    requires Has(j, w)
  {
    if w.Backend? then j.(backend := p) else j.(filters := j.filters[w.index := p])
  }

  predicate CanExit(j: Job, w: ProcessId) {
    Has(j, w) && Get(j, w).watched && !Get(j, w).finished
  }

  /** pd_job_impl_process_watch_cb */
  function Exit(j: Job, w: ProcessId, status: int): Job
    requires Has(j, w)
  {
    Settle(Judge(Reap(j, w, status), status))
  }

  function Reap(j: Job, w: ProcessId, status: int): Job
    requires Has(j, w)
  {
    var f := Put(j, w, Get(j, w).(finished := true, status := status));
    if w.Backend? then RemoveReason(f, Outgoing) else CheckTransforming(f)
  }

  function Judge(j: Job, status: int): Job {
    if status != 0 then j.(pendingState := Aborted) else j
  }

  function Settle(j: Job): Job {
    if j.backend.started && j.backend.finished && !AnyRunning(j.filters)
    then SetState(j, j.pendingState)
    else j
  }

  // Starting

  /** How launching a chain of `n` filters and the backend goes. */
  datatype Launch =
    | NoSetup
    | SetupFails(n: nat)
    | FilterFails(n: nat, k: nat)
    | BackendFails(n: nat)
    | Launched(n: nat)
  {
    predicate Possible() {
      match this
      case NoSetup => true
      case FilterFails(n, k) => k < n
      case _ => 0 < n
    }
  }

  function Chain(n: nat, k: nat, p: Process): (ps: seq<Process>)
    ensures |ps| == n
    ensures forall i :: 0 <= i < n ==> ps[i] == if i < k then p else NEVER_RUN
  {
    seq(n, i => if i < k then p else NEVER_RUN)
  }

  /** pd_job_impl_start_processing */
  function StartProcessing(j: Job, l: Launch): Job {
    if j.filters != [] then j
    else if l.NoSetup? then SetState(j, Aborted)
    else if l.SetupFails? then SetState(j.(filters := Chain(l.n, 0, SPAWNED)), Aborted)
    else if l.FilterFails? then SetState(Transform(j, Chain(l.n, l.k, SPAWNED)), Aborted)
    else Transform(j, Chain(l.n, l.n, WATCHED))
  }

  function Transform(j: Job, filters: seq<Process>): Job {
    AddReason(j.(pendingState := Processing, filters := filters), Transforming)
  }

  /** pd_job_impl_start_sending */
  function StartSending(j: Job, l: Launch): Job {
    RunChain(MarkOutgoing(j), l)
  }

  function MarkOutgoing(j: Job): Job {
    AddReason(j, Outgoing).(sendings := j.sendings + 1)
  }

  function RunChain(a: Job, l: Launch): Job {
    var b := if a.filters == [] then StartProcessing(a, l) else a;
    if a.filters == [] && b.state == Aborted then b
    else if l.BackendFails? then SetState(b.(pendingState := Completed), Aborted)
    else b.(pendingState := Completed, backend := b.backend.(started := true, watched := true))
  }

  /** What pd_engine_start_job does to a job that may use the device. */
  function Send(j: Job, l: Launch): Job {
    StartSending(SetState(j, Processing).(outgoingWatch := true), l)
  }

  // D-Bus methods of the job

  datatype Reply =
    | Ok
    | NotOwner
    | NoMoreDocuments
    | BadCall
    | NoDocument
    | SpoolError
    | UnsupportedDocument
    | AlreadyCanceled
    | CannotCancel

  /** pd_job_impl_add_document; `usable` says that exactly one valid descriptor was passed. */
  function AddDocument(j: Job, owner: bool, usable: bool): (Reply, Job) {
    if !owner then (NotOwner, j)
    else if j.document || j.spooled then (NoMoreDocuments, j)
    else if !usable then (BadCall, j)
    else (Ok, j.(document := true))
  }

  /** What spooling the document and looking at its type comes to. */
  datatype Spooling = NoSpoolFile | CopyFails | WrongType | Pdf

  /** pd_job_impl_start. The job state is not consulted. */
  function Start(j: Job, owner: bool, spooling: Spooling): (Reply, Job) {
    if !owner then (NotOwner, j)
    else if !j.document then (NoDocument, j)
    else if spooling.NoSpoolFile? then (SpoolError, j)
    else
      var k := j.(spooled := true, document := false);
      if spooling.CopyFails? then (SpoolError, k)
      else if spooling.WrongType? then (UnsupportedDocument, DoCancel(k, Aborted, AbortedBySystem))
      else (Ok, SetState(RemoveReason(k, Incoming), Pending).(releases := k.releases + 1))
  }

  /** pd_job_impl_cancel */
  function Cancel(j: Job, owner: bool): (Reply, Job) {
    if !owner then (NotOwner, j)
    else if j.state == Pending || j.state == PendingHeld then (Ok, DoCancel(j, Canceled, CanceledByUser))
    else if j.state == Processing || j.state == ProcessingStopped then CancelProcessing(j)
    else (CannotCancel, j)
  }

  function CancelProcessing(j: Job): (Reply, Job) {
    var c := CheckTransforming(j);
    if !AnyRunning(j.filters) && !j.backend.started then (Ok, DoCancel(c, Canceled, CanceledByUser))
    else if ToStopPoint in c.reasons then (AlreadyCanceled, c)
    else (Ok, DoCancel(c, Canceled, CanceledByUser))
  }

  /** The error branch of pd_job_impl_message_io_cb. */
  function MessageFailure(j: Job): Job {
    SetState(AddReason(j, CanceledBySystem), Canceled)
  }

  /** pd_job_impl_job_state_notify */
  function SelfNotified(j: Job): Job {
    if j.state.Terminal()
    then RemoveReason(RemoveReason(j, Incoming), ToStopPoint).(selfWatch := false)
    else j
  }

  // Reasons as the strings they are

  function Texts(rs: seq<Reason>): (ts: seq<string>)
    ensures |ts| == |rs| && forall k :: 0 <= k < |rs| ==> ts[k] == rs[k].Text()
  {
    seq(|rs|, k requires 0 <= k < |rs| => rs[k].Text())
  }

  lemma TextsDiffer(a: Reason, b: Reason)
    ensures a.Text() == b.Text() <==> a == b
  {
  }

  lemma TextIn(rs: seq<Reason>, r: Reason)
    ensures r.Text() in Texts(rs) <==> r in rs
  {
    forall k | 0 <= k < |rs| ensures rs[k].Text() == r.Text() <==> rs[k] == r {
      TextsDiffer(rs[k], r);
    }
  }

  lemma {:induction false} TextsBefore(rs: seq<Reason>, r: Reason)
    ensures Before(Texts(rs), r.Text()) == Texts(Before(rs, r))
  {
    if rs != [] {
      TextsDiffer(rs[0], r);
      TextsBefore(rs[1..], r);
      assert Texts(rs)[1..] == Texts(rs[1..]);
    }
  }

  lemma TextsPrepend(r: Reason, rs: seq<Reason>)
    ensures Texts([r] + rs) == [r.Text()] + Texts(rs)
  {
  }

  lemma {:induction false} TextsWithout(rs: seq<Reason>, r: Reason)
    ensures Without(Texts(rs), r.Text()) == Texts(Without(rs, r))
  {
    if rs != [] {
      TextsDiffer(rs[0], r);
      TextsWithout(rs[1..], r);
      assert Texts(rs)[1..] == Texts(rs[1..]);
      TextsPrepend(rs[0], Without(rs[1..], r));
    }
  }

  /** Updating the reasons is updating the list of strings. */
  lemma UpdateOfTexts(rs: seq<Reason>, op: char, r: Reason)
    ensures Texts(Updated(rs, op, r)) == Updated(Texts(rs), op, r.Text())
  {
    TextIn(rs, r);
    TextsBefore(rs, r);
    TextsWithout(rs, r);
  }
}
