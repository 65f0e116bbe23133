/** Exactly when the device is guarded. A running backend is covered while its job carries
    "job-outgoing" and the printer's flag is set. What can uncover it is the truncating '+': a
    cancel or abort adds a reason, and if that reason already stands before "job-outgoing" the
    add drops it. No rule is imposed on Start here. */
module DeviceGuard {
  import opened StateReasons
  import opened JobModel
  import opened JobSafety
  import opened PrinterModel
  import opened PrinterSafety
  import opened DeviceExclusion
  import Cascades
  import Runs

  /** The reason that an event adds to a job with a running backend, if any. */
  function AddedReason(j: Job, e: Event): Option<Reason> {
    if e.CancelCall? && e.owner && j.state == Processing && ToStopPoint !in j.reasons then Some(CanceledByUser)
    else if e.DataError? then Some(e.reason)
    else if e.MessageError? then Some(CanceledBySystem)
    else None
  }

  /** The reason stands before "job-outgoing" already. */
  predicate DropsFrom(j: Job, e: Event) {
    var r := AddedReason(j, e);
    r.Some? && r.value in Before(j.reasons, Outgoing)
  }

  /** ... of a job that drives the device. */
  predicate Drops(p: Printer, e: Event)
    requires Possible(p, e)
  {
    !e.CreateJob? && !e.MessageLine? && p.jobs[e.i].backend.Running() && DropsFrom(p.jobs[e.i], e)
  }

  // What one cancel or abort does

  lemma CheckKeepsOrder(j: Job, r: Reason)
    requires r != Transforming
    ensures Outgoing in CheckTransforming(j).reasons <==> Outgoing in j.reasons
    ensures r in Before(CheckTransforming(j).reasons, Outgoing) <==> r in Before(j.reasons, Outgoing)
    ensures r in CheckTransforming(j).reasons <==> r in j.reasons
  {
    RemoveIsFilter(j.reasons, Transforming);
    BeforeWithout(j.reasons, Outgoing, r, Transforming);
  }

  lemma CheckKeepsOutgoing(j: Job)
    ensures Outgoing in CheckTransforming(j).reasons <==> Outgoing in j.reasons
  {
    RemoveIsFilter(j.reasons, Transforming);
  }

  /** Nothing that stops a job is in the way: the stop point is only added when it is absent. */
  ghost predicate SameDevice(j: Job, k: Job) {
    && (Outgoing in k.reasons <==> Outgoing in j.reasons)
    && k.backend.Running() == j.backend.Running()
  }

  lemma StopRunningKeeps(c: Job, s: JobState)
    requires ToStopPoint !in c.reasons
    ensures SameDevice(c, StopRunning(c, s))
  {
    assert Kill(c, s).reasons == c.reasons;
  }

  lemma StopCaseKeeps(c: Job, s: JobState, d: Job)
    requires d == StopNow(c, s) || d == c || (d == StopRunning(c, s) && ToStopPoint !in c.reasons)
    ensures SameDevice(c, d)
  {
    if d == StopRunning(c, s) && ToStopPoint !in c.reasons {
      StopRunningKeeps(c, s);
    }
  }

  lemma StopKeeps(j: Job, s: JobState)
    ensures SameDevice(j, Stop(j, s))
  {
    CheckKeepsOutgoing(j);
    StopCases(j, s);
    StopCaseKeeps(CheckTransforming(j), s, Stop(j, s));
  }

  /** Cancelling or aborting keeps "job-outgoing" exactly when the reason given for it does not
      stand before it. */
  lemma DoCancelKeepsOutgoingIff(j: Job, s: JobState, r: Reason)
    requires Outgoing in j.reasons && r != Outgoing
    ensures Outgoing in DoCancel(j, s, r).reasons <==> r !in Before(j.reasons, Outgoing)
  {
    AddKeepsIff(j.reasons, r, Outgoing);
    StopKeeps(AddReason(j, r), s);
    DoCancelCases(j, s, r);
  }

  lemma DoCancelKeepsBackend(j: Job, s: JobState, r: Reason)
    ensures DoCancel(j, s, r).backend.Running() == j.backend.Running()
  {
    StopKeeps(AddReason(j, r), s);
    DoCancelCases(j, s, r);
  }

  // One job

  /** What holds of one job in every run that never drops the reason. */
  ghost predicate Carrying(j: Job) {
    && (j.sendings == 0 ==> !j.outgoingWatch && Outgoing !in j.reasons && Transforming !in j.reasons)
    && (j.outgoingWatch && Outgoing !in j.reasons ==> 0 < j.reasonNotes)
    && (Outgoing in j.reasons ==> j.outgoingWatch)
    && (j.backend.Running() ==> Outgoing in j.reasons)
  }

  /** Nothing is sent and "job-outgoing" at most goes, with a notification. */
  ghost predicate Modest(j: Job, k: Job) {
    && k.sendings == j.sendings && k.outgoingWatch == j.outgoingWatch && j.reasonNotes <= k.reasonNotes
    && (Outgoing in k.reasons ==> Outgoing in j.reasons)
    && (Transforming in k.reasons ==> Transforming in j.reasons)
    && (Outgoing in j.reasons && Outgoing !in k.reasons ==> 0 < k.reasonNotes)
    && (k.backend.Running() ==> j.backend.Running())
  }

  lemma StaysCarrying(j: Job, k: Job)
    requires Carrying(j) && Modest(j, k)
    requires k.backend.Running() && Outgoing in j.reasons ==> Outgoing in k.reasons
    ensures Carrying(k)
  {
  }

  lemma AddModest(j: Job, r: Reason)
    requires r != Outgoing && r != Transforming
    ensures Modest(j, AddReason(j, r))
  {
    var b := Before(j.reasons, r);
    assert forall x :: x in b ==> x in j.reasons;
  }

  lemma RemoveModest(j: Job, r: Reason)
    ensures Modest(j, RemoveReason(j, r))
  {
    RemoveIsFilter(j.reasons, r);
  }

  lemma StopModest(j: Job, s: JobState)
    ensures Modest(j, Stop(j, s))
  {
    RemoveModest(j, Transforming);
    var c := CheckTransforming(j);
    assert Modest(j, c) && Modest(c, StopNow(c, s));
    StopRunningModest(c, s);
    StopCases(j, s);
  }

  lemma StopRunningModest(c: Job, s: JobState)
    ensures Modest(c, StopRunning(c, s))
  {
    var k := Kill(c, s);
    assert Modest(c, k);
    AddModest(k, ToStopPoint);
  }

  lemma DoCancelModest(j: Job, s: JobState, r: Reason)
    requires r != Outgoing && r != Transforming
    ensures Modest(j, DoCancel(j, s, r))
  {
    var a := AddReason(j, r);
    AddModest(j, r);
    StopModest(a, s);
    assert Modest(a, SetState(a, s));
    DoCancelCases(j, s, r);
  }

  lemma CancelModest(j: Job, owner: bool)
    ensures Modest(j, Cancel(j, owner).1)
  {
    RemoveModest(j, Transforming);
    var c := CheckTransforming(j);
    DoCancelModest(j, Canceled, CanceledByUser);
    DoCancelModest(c, Canceled, CanceledByUser);
  }

  lemma StartModest(j: Job, owner: bool, spooling: Spooling)
    ensures Modest(j, Start(j, owner, spooling).1)
  {
    var k := j.(spooled := true, document := false);
    RemoveModest(k, Incoming);
    DoCancelModest(k, Aborted, AbortedBySystem);
  }

  lemma ReapModest(j: Job, w: ProcessId, status: int)
    requires Has(j, w)
    ensures Modest(j, Reap(j, w, status)) && (w.Backend? ==> !Reap(j, w, status).backend.Running())
  {
    var f := Put(j, w, Get(j, w).(finished := true, status := status));
    RemoveModest(f, if w.Backend? then Outgoing else Transforming);
  }

  lemma ExitModest(j: Job, w: ProcessId, status: int)
    requires Has(j, w)
    ensures Modest(j, Exit(j, w, status))
    ensures w.Backend? ==> !Exit(j, w, status).backend.Running()
    ensures w.Filter? ==> SameDevice(j, Exit(j, w, status))
  {
    ReapModest(j, w, status);
    if w.Filter? {
      CheckKeepsOutgoing(Put(j, w, Get(j, w).(finished := true, status := status)));
    }
    SettleChangesStateOnly(Reap(j, w, status), status);
  }

  lemma SettleChangesStateOnly(r: Job, status: int)
    ensures var k := Settle(Judge(r, status));
            && k.reasons == r.reasons && k.backend == r.backend && k.sendings == r.sendings
            && k.outgoingWatch == r.outgoingWatch && k.reasonNotes == r.reasonNotes
  {
  }

  ghost predicate RealReason(e: Event) {
    e.DataError? ==> e.reason == AbortedBySystem || e.reason == CanceledBySystem
  }

  lemma JobAfterModest(j: Job, e: Event)
    requires !e.CreateJob? && RealReason(e) && (e.ChildExit? ==> Has(j, e.w))
    ensures Modest(j, JobAfter(j, e))
  {
    match e
    case StartCall(_, owner, spooling) => StartModest(j, owner, spooling);
    case CancelCall(_, owner) => CancelModest(j, owner);
    case ChildExit(_, w, status) => ExitModest(j, w, status);
    case DataError(_, reason) => DoCancelModest(j, Aborted, reason);
    case DataEnd(_) => RemoveModest(j, Transforming);
    case MessageError(_) => AddModest(j, CanceledBySystem);
    case _ =>
  }

  // A job that drives the device

  lemma CancelRunning(j: Job, owner: bool)
    requires JobSafe(j) && j.backend.Running() && Outgoing in j.reasons
    ensures Cancel(j, owner).1.backend.Running()
    ensures Outgoing in Cancel(j, owner).1.reasons <==>
              !(owner && j.state == Processing && ToStopPoint !in j.reasons && CanceledByUser in Before(j.reasons, Outgoing))
  {
    if owner && j.state == Processing {
      CheckKeepsOrder(j, CanceledByUser);
      CheckKeepsOrder(j, ToStopPoint);
      var c := CheckTransforming(j);
      DoCancelKeepsOutgoingIff(c, Canceled, CanceledByUser);
      DoCancelKeepsBackend(c, Canceled, CanceledByUser);
      assert Cancel(j, owner) == CancelProcessing(j);
    }
  }

  lemma StartRunning(j: Job, owner: bool, spooling: Spooling)
    requires JobSafe(j) && j.backend.Running()
    ensures Start(j, owner, spooling).1 == j
  {
    assert j.sendings != 0 && !j.document;
  }

  /** Every event leaves the backend running, but for its exit, and keeps the reason unless it
      drops it. */
  lemma RunningAfter(j: Job, e: Event)
    requires JobSafe(j) && j.backend.Running() && Outgoing in j.reasons
    requires !e.CreateJob? && RealReason(e) && (e.ChildExit? ==> Has(j, e.w) && e.w.Filter?)
    ensures JobAfter(j, e).backend.Running()
    ensures Outgoing in JobAfter(j, e).reasons <==> !DropsFrom(j, e)
  {
    match e
    case StartCall(_, owner, spooling) => StartRunning(j, owner, spooling);
    case CancelCall(_, owner) => CancelRunning(j, owner);
    case ChildExit(_, w, status) => ExitModest(j, w, status);
    case DataError(_, reason) =>
      DoCancelKeepsOutgoingIff(j, Aborted, reason);
      DoCancelKeepsBackend(j, Aborted, reason);
    case DataEnd(_) => CheckKeepsOutgoing(j);
    case MessageError(_) => AddKeepsIff(j.reasons, CanceledBySystem, Outgoing);
    case _ =>
  }

  lemma JobAfterCarrying(p: Printer, e: Event)
    requires Possible(p, e) && !e.CreateJob? && !e.MessageLine?
    requires JobSafe(p.jobs[e.i]) && Carrying(p.jobs[e.i]) && !Drops(p, e)
    ensures Carrying(JobAfter(p.jobs[e.i], e))
    ensures JobAfter(p.jobs[e.i], e).outgoingWatch == p.jobs[e.i].outgoingWatch
  {
    var j := p.jobs[e.i];
    JobAfterModest(j, e);
    if e.ChildExit? && e.w.Backend? {
      ExitModest(j, e.w, e.status);
    } else if j.backend.Running() {
      RunningAfter(j, e);
    }
    StaysCarrying(j, JobAfter(j, e));
  }

  // The printer

  ghost predicate Watching(p: Printer) {
    && Safe(p)
    && (forall i :: 0 <= i < |p.jobs| ==> Carrying(p.jobs[i]))
    && OneWatch(p.jobs)
    && (p.jobOutgoing <==> SomeWatch(p.jobs))
  }

  lemma OtherStaysWatching(p: Printer, q: Printer, i: nat)
    requires Watching(p) && Safe(q) && i < |p.jobs| == |q.jobs|
    requires q.jobs == p.jobs[i := q.jobs[i]] && q.jobOutgoing == p.jobOutgoing
    requires Carrying(q.jobs[i]) && q.jobs[i].outgoingWatch == p.jobs[i].outgoingWatch
    ensures Watching(q)
  {
    forall k | 0 <= k < |p.jobs| ensures q.jobs[k].outgoingWatch == p.jobs[k].outgoingWatch {
    }
    if SomeWatch(p.jobs) {
      var k :| 0 <= k < |p.jobs| && p.jobs[k].outgoingWatch;
      assert q.jobs[k].outgoingWatch;
    }
  }

  lemma CreateJobWatching(p: Printer)
    requires Watching(p)
    ensures Watching(Happen(p, Event.CreateJob))
  {
    HappenSafe(p, Event.CreateJob);
    assert Carrying(NEW_JOB);
    NewJobIsUnwatched(p.jobs);
  }

  lemma HappenWatching(p: Printer, e: Event)
    requires Watching(p) && Possible(p, e) && !Drops(p, e)
    ensures Watching(Happen(p, e))
  {
    HappenSafe(p, e);
    if e.CreateJob? {
      CreateJobWatching(p);
    } else if !e.MessageLine? {
      JobAfterCarrying(p, e);
      OtherStaysWatching(p, Happen(p, e), e.i);
    }
  }

  lemma MarkCarries(j: Job)
    requires JobSafe(j) && Carrying(j) && j.state == Pending
    ensures var a := MarkOutgoing(SetState(j, Processing).(outgoingWatch := true));
            && Carrying(a) && a.outgoingWatch && 0 < a.sendings && Outgoing in a.reasons && Transforming !in a.reasons
            && a.filters == [] && a.state == Processing
  {
  }

  lemma TransformCarries(a: Job, fs: seq<Process>)
    requires Carrying(a) && a.outgoingWatch && 0 < a.sendings && Outgoing in a.reasons && Transforming !in a.reasons
    ensures Outgoing in Transform(a, fs).reasons && Transform(a, fs).outgoingWatch && 0 < Transform(a, fs).sendings
  {
  }

  lemma StartProcessingCarries(a: Job, l: Launch)
    requires Carrying(a) && a.outgoingWatch && 0 < a.sendings && Outgoing in a.reasons && Transforming !in a.reasons
    ensures var b := StartProcessing(a, l); Outgoing in b.reasons && b.outgoingWatch && 0 < b.sendings
  {
    match l
    case FilterFails(n, k) => TransformCarries(a, Chain(n, k, SPAWNED));
    case BackendFails(n) => TransformCarries(a, Chain(n, n, WATCHED));
    case Launched(n) => TransformCarries(a, Chain(n, n, WATCHED));
    case _ =>
  }

  lemma SendCarries(j: Job, l: Launch)
    requires JobSafe(j) && Carrying(j) && j.state == Pending
    ensures Carrying(Send(j, l)) && Send(j, l).outgoingWatch
  {
    MarkCarries(j);
    StartProcessingCarries(MarkOutgoing(SetState(j, Processing).(outgoingWatch := true)), l);
  }

  lemma StartJobWatching(p: Printer, i: nat, l: Launch)
    requires Watching(p) && i < |p.jobs| && p.jobs[i].state == Pending && l.Possible()
    ensures Watching(StartJob(p, i, l))
  {
    StartJobSafe(p, i, l);
    var q := StartJob(p, i, l);
    if p.jobOutgoing {
      OtherStaysWatching(p, q, i);
    } else {
      SendCarries(p.jobs[i], l);
      assert q.jobs[i].outgoingWatch;
      assert forall k :: 0 <= k < |p.jobs| && k != i ==> !q.jobs[k].outgoingWatch;
    }
  }

  lemma OnEngineNoteWatching(p: Printer, i: nat, l: Launch)
    requires Watching(p) && Queued(p, EngineNote(i, l))
    ensures Watching(OnEngineNote(p, i, l))
  {
    OnEngineNoteSafe(p, i, l);
    var k := AfterEngineNote(p.jobs[i], p.state == PrinterIdle);
    ConsumedSafe(p.jobs[i], k);
    var q := WithJob(p, i, k);
    OtherStaysWatching(p, q, i);
    if Startable(p.jobs[i]) && p.state == PrinterIdle {
      StartJobWatching(q, i, l);
    }
  }

  lemma OnSelfNoteWatching(p: Printer, i: nat)
    requires Watching(p) && Queued(p, SelfNote(i))
    ensures Watching(OnSelfNote(p, i))
  {
    OnSelfNoteSafe(p, i);
    var j := TakeSelfNote(p.jobs[i]);
    RemoveIsFilter(j.reasons, Incoming);
    RemoveIsFilter(Remove(j.reasons, Incoming), ToStopPoint);
    OtherStaysWatching(p, OnSelfNote(p, i), i);
  }

  lemma OnReasonsNoteWatching(p: Printer, i: nat)
    requires Watching(p) && Queued(p, ReasonsNote(i))
    ensures Watching(OnReasonsNote(p, i))
  {
    OnReasonsNoteSafe(p, i);
    var q := OnReasonsNote(p, i);
    if LetsGo(p.jobs[i]) {
      assert forall m :: 0 <= m < |p.jobs| && m != i ==> q.jobs[m] == p.jobs[m] && !p.jobs[m].outgoingWatch;
    } else {
      OtherStaysWatching(p, q, i);
    }
  }

  lemma HandleWatching(p: Printer, n: Note)
    requires Watching(p) && Queued(p, n)
    ensures Watching(Handle(p, n))
  {
    HandleSafe(p, n);
    match n
    case SelfNote(i) => OnSelfNoteWatching(p, i);
    case EngineNote(i, l) => OnEngineNoteWatching(p, i, l);
    case PrinterNote(i) => OtherStaysWatching(p, OnPrinterNote(p, i), i);
    case ReasonsNote(i) => OnReasonsNoteWatching(p, i);
    case PrinterStateNote(l) =>
      if p.state == PrinterIdle && NextJob(p.jobs).Some? {
        StartJobWatching(p.(notes := p.notes - 1), NextJob(p.jobs).value, l);
      }
  }

  // A backend that has lost its cover

  ghost predicate Uncovered(p: Printer, i: nat) {
    && i < |p.jobs| && JobSafe(p.jobs[i])
    && p.jobs[i].backend.Running() && Outgoing !in p.jobs[i].reasons
  }

  lemma SelfNotedLacks(j: Job)
    requires 0 < j.selfNotes && Outgoing !in j.reasons
    ensures Outgoing !in AfterSelfNote(j).reasons && AfterSelfNote(j).backend == j.backend
  {
    RemoveIsFilter(j.reasons, Incoming);
    RemoveIsFilter(Remove(j.reasons, Incoming), ToStopPoint);
  }

  /** No handler covers it again: the job is past PENDING and is not sent a second time. */
  lemma HandleLeavesUncovered(p: Printer, n: Note, i: nat)
    requires Safe(p) && Uncovered(p, i) && Queued(p, n)
    ensures Uncovered(Handle(p, n), i)
  {
    HandleSafe(p, n);
    assert p.jobs[i].state != Pending;
    HandleSpares(p, n, i);
    if n.SelfNote? && n.i == i {
      SelfNotedLacks(p.jobs[i]);
    }
  }

  lemma DropUncovers(p: Printer, e: Event)
    requires Watching(p) && Possible(p, e) && Drops(p, e)
    ensures Uncovered(Happen(p, e), e.i)
  {
    HappenSafe(p, e);
    RunningAfter(p.jobs[e.i], e);
  }

  // Whole runs

  /** Every running backend has its reason and the printer's flag. */
  ghost predicate Covered(p: Printer) {
    forall i :: 0 <= i < |p.jobs| && p.jobs[i].backend.Running() ==> p.jobOutgoing && Outgoing in p.jobs[i].reasons
  }

  /** It is so whenever everything is quiet along the run. */
  ghost predicate CoveredAtRest(p: Printer, steps: seq<Step>)
    decreases |steps|
  {
    && (Quiescent(p) ==> Covered(p))
    && (steps != [] ==> CanStep(p, steps[0]) && CoveredAtRest(Next(p, steps[0]), steps[1..]))
  }

  /** No event along the run drops the reason of a running backend. */
  ghost predicate NeverDrops(p: Printer, steps: seq<Step>)
    decreases |steps|
  {
    steps != [] ==>
      && CanStep(p, steps[0]) && (steps[0].Outside? ==> !Drops(p, steps[0].e))
      && NeverDrops(Next(p, steps[0]), steps[1..])
  }

  lemma WatchingIsCovered(p: Printer)
    requires Watching(p)
    ensures Covered(p)
  {
    forall i | 0 <= i < |p.jobs| && p.jobs[i].backend.Running()
      ensures p.jobOutgoing && Outgoing in p.jobs[i].reasons
    {
      assert Carrying(p.jobs[i]);
    }
  }

  lemma NextWatching(p: Printer, s: Step)
    requires Watching(p) && CanStep(p, s) && (s.Outside? ==> !Drops(p, s.e))
    ensures Watching(Next(p, s))
  {
    match s
    case Outside(e) => HappenWatching(p, e);
    case Inside(n) => HandleWatching(p, n);
  }

  lemma {:induction false} RunWatching(p: Printer, steps: seq<Step>, q: Printer)
    requires Watching(p) && Run(ANY_RUN, p, steps, q) && NeverDrops(p, steps)
    ensures Watching(q) && CoveredAtRest(p, steps)
    decreases |steps|
  {
    WatchingIsCovered(p);
    if steps != [] {
      NextWatching(p, steps[0]);
      RunWatching(Next(p, steps[0]), steps[1..], q);
    }
  }

  lemma {:induction false} UncoveredAtRest(p: Printer, i: nat, steps: seq<Step>, q: Printer)
    requires Safe(p) && Uncovered(p, i) && Run(ANY_RUN, p, steps, q) && Quiescent(q)
    ensures !CoveredAtRest(p, steps)
    decreases |steps|
  {
    if !Quiescent(p) {
      assert steps != [] && steps[0].Inside?;
      HandleSafe(p, steps[0].n);
      HandleLeavesUncovered(p, steps[0].n, i);
      UncoveredAtRest(Next(p, steps[0]), i, steps[1..], q);
    }
  }

  lemma {:induction false} CoveredNeverDrops(p: Printer, steps: seq<Step>, q: Printer)
    requires Watching(p) && Run(ANY_RUN, p, steps, q) && Quiescent(q) && CoveredAtRest(p, steps)
    ensures NeverDrops(p, steps)
    decreases |steps|
  {
    if steps != [] {
      if steps[0].Outside? && Drops(p, steps[0].e) {
        DropUncovers(p, steps[0].e);
        HappenSafe(p, steps[0].e);
        UncoveredAtRest(Next(p, steps[0]), steps[0].e.i, steps[1..], q);
      } else {
        NextWatching(p, steps[0]);
        CoveredNeverDrops(Next(p, steps[0]), steps[1..], q);
      }
    }
  }

  lemma NewIsWatching()
    ensures Watching(NEW_PRINTER)
  {
  }

  /** The guard of the device stands along a run exactly when no cancel, abort or failing message
      channel of that run adds, to a job with a running backend, a reason that stands before
      "job-outgoing" already. */
  lemma GuardStandsIffNothingDropped(steps: seq<Step>, q: Printer)
    requires Run(ANY_RUN, NEW_PRINTER, steps, q) && Quiescent(q)
    ensures CoveredAtRest(NEW_PRINTER, steps) <==> NeverDrops(NEW_PRINTER, steps)
  {
    NewIsWatching();
    if NeverDrops(NEW_PRINTER, steps) {
      RunWatching(NEW_PRINTER, steps, q);
    }
    if CoveredAtRest(NEW_PRINTER, steps) {
      CoveredNeverDrops(NEW_PRINTER, steps, q);
    }
  }

  ghost predicate Careful(p: Printer) {
    exists steps :: Run(ANY_RUN, NEW_PRINTER, steps, p) && NeverDrops(NEW_PRINTER, steps)
  }

  lemma CarefulIsWatching(p: Printer)
    requires Careful(p)
    ensures Watching(p)
  {
    var steps :| Run(ANY_RUN, NEW_PRINTER, steps, p) && NeverDrops(NEW_PRINTER, steps);
    NewIsWatching();
    RunWatching(NEW_PRINTER, steps, p);
  }

  /** Device exclusion needs no more: along such a run no two jobs have a running backend. */
  lemma OneDriver(p: Printer, i: nat, k: nat)
    requires Careful(p) && i < |p.jobs| && k < |p.jobs|
    requires p.jobs[i].backend.Running() && p.jobs[k].backend.Running()
    ensures i == k
  {
    CarefulIsWatching(p);
    assert Carrying(p.jobs[i]) && Carrying(p.jobs[k]);
  }

  // One event

  lemma HandleLeavesRunning(p: Printer, n: Note, i: nat)
    requires Safe(p) && Queued(p, n) && i < |p.jobs| && p.jobs[i].backend.Running()
    ensures |Handle(p, n).jobs| == |p.jobs| && Handle(p, n).jobs[i].backend.Running()
  {
    assert JobSafe(p.jobs[i]) && p.jobs[i].state != Pending;
    HandleSpares(p, n, i);
  }

  lemma {:induction false} CascadeLeavesRunning(p: Printer, steps: seq<Step>, q: Printer, i: nat)
    requires Watching(p) && Cascade(p, steps, q) && i < |p.jobs| && p.jobs[i].backend.Running()
    ensures Watching(q) && i < |q.jobs| && q.jobs[i].backend.Running()
    decreases |steps|
  {
    if steps != [] {
      assert steps[0].Inside?;
      Cascades.CascadeTail(p, steps, q);
      HandleWatching(p, steps[0].n);
      HandleLeavesRunning(p, steps[0].n, i);
      CascadeLeavesRunning(Next(p, steps[0]), steps[1..], q, i);
    }
  }

  lemma {:induction false} CascadeLeavesUncovered(p: Printer, steps: seq<Step>, q: Printer, i: nat)
    requires Safe(p) && Cascade(p, steps, q) && Uncovered(p, i)
    ensures Uncovered(q, i)
    decreases |steps|
  {
    if steps != [] {
      assert steps[0].Inside?;
      Cascades.CascadeTail(p, steps, q);
      HandleSafe(p, steps[0].n);
      HandleLeavesUncovered(p, steps[0].n, i);
      CascadeLeavesUncovered(Next(p, steps[0]), steps[1..], q, i);
    }
  }

  /** A job with a running backend keeps flag and reason through an event and everything the
      event sets off, in any order, exactly when the reason the event adds does not stand before
      "job-outgoing". Whoever makes the call can look. */
  lemma CoverSurvivesIff(p: Printer, e: Event, steps: seq<Step>, q: Printer)
    requires Careful(p) && Possible(p, e) && !e.CreateJob? && !e.MessageLine?
    requires p.jobs[e.i].backend.Running() && !(e.ChildExit? && e.w.Backend?)
    requires Cascade(Happen(p, e), steps, q)
    ensures e.i < |q.jobs| && q.jobs[e.i].backend.Running()
    ensures q.jobOutgoing && Outgoing in q.jobs[e.i].reasons <==> !DropsFrom(p.jobs[e.i], e)
  {
    CarefulIsWatching(p);
    assert Carrying(p.jobs[e.i]);
    if DropsFrom(p.jobs[e.i], e) {
      DropUncovers(p, e);
      HappenSafe(p, e);
      CascadeLeavesUncovered(Happen(p, e), steps, q, e.i);
    } else {
      HappenWatching(p, e);
      RunningAfter(p.jobs[e.i], e);
      CascadeLeavesRunning(Happen(p, e), steps, q, e.i);
      WatchingIsCovered(q);
    }
  }

  // Starting held jobs only is enough

  lemma FirstHasNothingBefore(rs: seq<Reason>)
    requires rs != [] && rs[0] == Outgoing
    ensures Before(rs, Outgoing) == []
  {
  }

  lemma {:induction false} HeldOnlyNeverDrops(p: Printer, steps: seq<Step>, q: Printer)
    requires Guarded(p) && Run(HELD_ONLY, p, steps, q)
    ensures NeverDrops(p, steps)
    decreases |steps|
  {
    if steps != [] {
      match steps[0] {
        case Inside(n) => HandleGuarded(p, n);
        case Outside(e) =>
          HappenGuarded(p, e);
          GuardedNeverDrops(p, e);
      }
      HeldOnlyNeverDrops(Next(p, steps[0]), steps[1..], q);
    }
  }

  lemma GuardedNeverDrops(p: Printer, e: Event)
    requires Guarded(p) && Possible(p, e)
    ensures !Drops(p, e)
  {
    if !e.CreateJob? && !e.MessageLine? && p.jobs[e.i].backend.Running() {
      assert JobHeld(p.jobs[e.i]);
      FirstHasNothingBefore(p.jobs[e.i].reasons);
    }
  }

  lemma HeldOnlyIsCareful(p: Printer)
    requires Reachable(HELD_ONLY, p)
    ensures Careful(p)
  {
    var steps :| Run(HELD_ONLY, NEW_PRINTER, steps, p);
    HeldOnlyNeverDrops(NEW_PRINTER, steps, p);
    Runs.AnyRunToo(HELD_ONLY, NEW_PRINTER, steps, p);
  }

  // A job that starts while the device is taken

  /** Started, not sent, and with nothing that could ever send it. */
  ghost predicate Forgotten(j: Job) {
    JobSafe(j) && j.releases == 1 && j.sendings == 0 && (j.state == Processing || j.state == Canceled)
  }

  ghost predicate Fate(j: Job, taken: bool) {
    if taken then Forgotten(j) else JobSafe(j) && j.sendings == 1
  }

  lemma ForgottenCancel(j: Job, owner: bool)
    requires Forgotten(j)
    ensures Cancel(j, owner).1.releases == 1
    ensures Cancel(j, owner).1.state == Processing || Cancel(j, owner).1.state == Canceled
  {
    assert j.filters == [] && j.backend == NEVER_RUN;
  }

  lemma JobAfterFate(p: Printer, e: Event, taken: bool)
    requires Safe(p) && Possible(p, e) && !e.CreateJob? && !e.MessageLine? && Fate(p.jobs[e.i], taken)
    ensures Fate(JobAfter(p.jobs[e.i], e), taken)
  {
    var j := p.jobs[e.i];
    JobAfterSafe(p, e);
    JobAfterModest(j, e);
    if taken {
      assert j.filters == [] && j.backend == NEVER_RUN && !j.document;
      if e.CancelCall? {
        ForgottenCancel(j, e.owner);
      }
    }
  }

  lemma HandleFate(p: Printer, n: Note, i: nat, taken: bool)
    requires Safe(p) && Queued(p, n) && i < |p.jobs| && Fate(p.jobs[i], taken)
    ensures i < |Handle(p, n).jobs| && Fate(Handle(p, n).jobs[i], taken)
  {
    HandleSafe(p, n);
    HandleSpares(p, n, i);
  }

  lemma {:induction false} RunFate(rules: Rules, p: Printer, steps: seq<Step>, q: Printer, i: nat, taken: bool)
    requires Safe(p) && Run(rules, p, steps, q) && i < |p.jobs| && Fate(p.jobs[i], taken)
    ensures i < |q.jobs| && Fate(q.jobs[i], taken)
    decreases |steps|
  {
    if steps != [] {
      NextSafe(p, steps[0]);
      match steps[0] {
        case Inside(n) => HandleFate(p, n, i, taken);
        case Outside(e) =>
          if !e.CreateJob? && !e.MessageLine? && e.i == i {
            JobAfterFate(p, e, taken);
          }
      }
      RunFate(rules, Next(p, steps[0]), steps[1..], q, i, taken);
    }
  }

  lemma StartProcessingSendings(a: Job, l: Launch)
    ensures StartProcessing(a, l).sendings == a.sendings
  {
  }

  lemma RunChainSendings(a: Job, l: Launch)
    ensures RunChain(a, l).sendings == a.sendings
  {
    StartProcessingSendings(a, l);
  }

  lemma SendSendsOnce(j: Job, l: Launch)
    ensures Send(j, l).sendings == j.sendings + 1
  {
    var a := MarkOutgoing(SetState(j, Processing).(outgoingWatch := true));
    RunChainSendings(a, l);
    assert Send(j, l) == RunChain(a, l);
  }

  lemma StartFate(p: Printer, n: Note, i: nat)
    requires Queued(p, n) && i < |p.jobs| == |Handle(p, n).jobs|
    requires JobSafe(p.jobs[i]) && JobSafe(Handle(p, n).jobs[i])
    requires p.jobs[i].state == Pending && Handle(p, n).jobs[i].state != Pending
    ensures Fate(Handle(p, n).jobs[i], p.jobOutgoing)
  {
    match n
    case EngineNote(k, l) => EngineStartFate(p, i, l);
    case PrinterStateNote(l) => StartJobFate(p.(notes := p.notes - 1), i, l);
    case _ =>
  }

  lemma EngineStartFate(p: Printer, i: nat, l: Launch)
    requires Queued(p, EngineNote(i, l)) && JobSafe(p.jobs[i]) && JobSafe(OnEngineNote(p, i, l).jobs[i])
    requires p.jobs[i].state == Pending && OnEngineNote(p, i, l).jobs[i].state != Pending
    ensures Fate(OnEngineNote(p, i, l).jobs[i], p.jobOutgoing)
  {
    StartJobFate(WithJob(p, i, AfterEngineNote(p.jobs[i], true)), i, l);
  }

  lemma StartJobFate(p: Printer, i: nat, l: Launch)
    requires i < |p.jobs| && p.jobs[i].state == Pending && p.jobs[i].sendings == 0 && p.jobs[i].releases == 1
    requires JobSafe(StartJob(p, i, l).jobs[i])
    ensures Fate(StartJob(p, i, l).jobs[i], p.jobOutgoing)
  {
    SendSendsOnce(p.jobs[i], l);
  }

  /** Now or never: when a handler takes a job out of PENDING the job is sent if the device is
      free; if not it is never sent, on any run, and never gets further than PROCESSING or
      CANCELED. */
  lemma SentNowOrNever(p: Printer, n: Note, i: nat, rules: Rules, steps: seq<Step>, q: Printer)
    requires Reachable(ANY_RUN, p) && Queued(p, n) && i < |p.jobs|
    requires p.jobs[i].state == Pending && Handle(p, n).jobs[i].state != Pending
    requires Run(rules, Handle(p, n), steps, q)
    ensures i < |q.jobs| && q.jobs[i].sendings == (if p.jobOutgoing then 0 else 1)
    ensures p.jobOutgoing ==> q.jobs[i].state == Processing || q.jobs[i].state == Canceled
  {
    ReachableSafe(ANY_RUN, p);
    HandleSafe(p, n);
    StartFate(p, n, i);
    RunFate(rules, Handle(p, n), steps, q, i, p.jobOutgoing);
  }
}
