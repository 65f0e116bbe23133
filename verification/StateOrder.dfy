/** The job-state diagram of section 4.3.7 of RFC 2911 over whole runs: runs in which Start is
    called on pending-held jobs and no message channel fails. */
module StateOrder {
  import opened JobModel
  import opened JobSafety
  import opened PrinterModel
  import opened DeviceExclusion

  predicate Follows(a: JobState, b: JobState) {
    match a
    case PendingHeld => b == Pending || b == Canceled || b == Aborted
    case Pending => b == Processing || b == Canceled
    case Processing => b == Canceled || b == Aborted || b == Completed
    case _ => false
  }

  ghost predicate TraceOrdered(t: seq<JobState>) {
    && t != [] && t[0] == PendingHeld
    && (forall k :: 0 <= k < |t| - 1 ==> Follows(t[k], t[k + 1]))
  }

  /** While a job with a backend has a process left, its state is still PROCESSING. */
  ghost predicate Live(j: Job) {
    j.backend.started && (!j.backend.finished || AnyRunning(j.filters)) ==> j.state == Processing
  }

  ghost predicate JobOrdered(j: Job) {
    JobHeld(j) && TraceOrdered(j.trace) && Live(j)
  }

  lemma SetStateOrdered(j: Job, s: JobState)
    requires TraceOrdered(j.trace) && j.trace[|j.trace| - 1] == j.state && Follows(j.state, s)
    ensures TraceOrdered(SetState(j, s).trace)
  {
  }

  /** No process starts and the trace stays the same. */
  ghost predicate Calmer(j: Job, k: Job) {
    && k.trace == j.trace && k.state == j.state
    && k.backend.started == j.backend.started
    && (k.backend.finished == j.backend.finished)
    && (AnyRunning(k.filters) == AnyRunning(j.filters))
  }

  lemma DoCancelOrdered(j: Job, s: JobState, reason: Reason)
    requires JobSafe(j) && TraceOrdered(j.trace) && Live(j)
    requires s == Canceled || (s == Aborted && j.state != Pending)
    ensures TraceOrdered(DoCancel(j, s, reason).trace) && Live(DoCancel(j, s, reason))
  {
    var a := AddReason(j, reason);
    assert Calmer(j, a);
    if j.state == Pending || j.state == PendingHeld {
      SetStateOrdered(a, s);
      assert DoCancel(j, s, reason) == SetState(a, s);
    } else if j.state == Processing {
      StopOrdered(a, s);
      assert DoCancel(j, s, reason) == Stop(a, s);
    } else {
      assert DoCancel(j, s, reason) == a;
    }
  }

  lemma StopOrdered(j: Job, s: JobState)
    requires TraceOrdered(j.trace) && j.trace[|j.trace| - 1] == j.state && Live(j)
    requires j.state == Processing && s.Stopped()
    ensures TraceOrdered(Stop(j, s).trace) && Live(Stop(j, s))
  {
    var c := CheckTransforming(j);
    assert Calmer(j, c);
    if !AnyRunning(j.filters) && !j.backend.started {
      StopNowOrdered(c, s);
      assert Stop(j, s) == StopNow(c, s);
    } else if ToStopPoint in c.reasons {
      assert Stop(j, s) == c;
    } else {
      KillKeepsState(c, s);
      assert Stop(j, s) == StopRunning(c, s);
    }
  }

  lemma StopNowOrdered(c: Job, s: JobState)
    requires TraceOrdered(c.trace) && c.trace[|c.trace| - 1] == c.state == Processing && s.Stopped() && !c.backend.started
    ensures TraceOrdered(StopNow(c, s).trace) && Live(StopNow(c, s))
  {
    SetStateOrdered(Accept(c), s);
  }

  lemma KillKeepsState(c: Job, s: JobState)
    ensures StopRunning(c, s).state == c.state && StopRunning(c, s).trace == c.trace
  {
  }

  lemma ExitOrdered(j: Job, w: ProcessId, status: int)
    requires JobOrdered(j) && CanExit(j, w)
    ensures JobOrdered(Exit(j, w, status))
  {
    ExitHeld(j, w, status);
    ReapKeepsTrace(j, w, status);
    var f := Judge(Reap(j, w, status), status);
    if j.backend.started {
      ExitWhileProcessing(j, w);
      SettleFollows(j, w, status);
      SettleOrdered(f);
    } else {
      UnsentSettles(f);
    }
  }

  lemma ReapKeepsTrace(j: Job, w: ProcessId, status: int)
    requires Has(j, w)
    ensures var f := Judge(Reap(j, w, status), status);
            f.trace == j.trace && f.state == j.state && f.backend.started == j.backend.started
  {
    var k := Put(j, w, Get(j, w).(finished := true, status := status));
    assert k.trace == j.trace && k.state == j.state && k.backend.started == j.backend.started;
    ReasonKeepsTrace(k, Reap(j, w, status));
  }

  lemma ReasonKeepsTrace(k: Job, r: Job)
    requires r == RemoveReason(k, Outgoing) || r == CheckTransforming(k)
    ensures r.trace == k.trace && r.state == k.state && r.backend == k.backend
  {
  }

  lemma UnsentSettles(f: Job)
    requires TraceOrdered(f.trace) && !f.backend.started
    ensures TraceOrdered(Settle(f).trace) && Live(Settle(f))
  {
  }

  lemma ExitWhileProcessing(j: Job, w: ProcessId)
    requires JobOrdered(j) && CanExit(j, w) && j.backend.started
    ensures j.state == Processing
  {
    if w.Filter? {
      assert j.filters[w.index].Running();
    }
  }

  lemma SettleOrdered(f: Job)
    requires TraceOrdered(f.trace) && f.trace[|f.trace| - 1] == f.state == Processing
    requires Follows(Processing, f.pendingState)
    ensures TraceOrdered(Settle(f).trace) && Live(Settle(f))
  {
    SetStateOrdered(f, f.pendingState);
  }

  lemma SettleFollows(j: Job, w: ProcessId, status: int)
    requires JobSafe(j) && CanExit(j, w) && j.backend.started && j.state == Processing
    ensures Follows(Processing, Judge(Reap(j, w, status), status).pendingState)
  {
    assert Reap(j, w, status).pendingState == j.pendingState;
  }

  lemma StartOrdered(j: Job, owner: bool, spooling: Spooling)
    requires JobOrdered(j) && (owner && j.document ==> j.state == PendingHeld)
    ensures JobOrdered(Start(j, owner, spooling).1)
  {
    StartHeld(j, owner, spooling);
    if owner && j.document && !spooling.NoSpoolFile? {
      var k := j.(spooled := true, document := false);
      StartSafe(j, owner, CopyFails);
      if spooling.WrongType? {
        DoCancelOrdered(k, Aborted, AbortedBySystem);
      } else {
        SetStateOrdered(RemoveReason(k, Incoming), Pending);
      }
    }
  }

  lemma CancelOrdered(j: Job, owner: bool)
    requires JobOrdered(j)
    ensures JobOrdered(Cancel(j, owner).1)
  {
    CancelHeld(j, owner);
    var c := CheckTransforming(j);
    assert Calmer(j, c);
    CheckSafe(j);
    DoCancelOrdered(j, Canceled, CanceledByUser);
    DoCancelOrdered(c, Canceled, CanceledByUser);
  }

  lemma SendingOrdered(j: Job, l: Launch)
    requires JobOrdered(j) && j.state == Pending && l.Possible()
    ensures JobOrdered(SetState(j, Processing))
    ensures JobOrdered(StartSending(SetState(j, Processing).(outgoingWatch := true), l))
  {
    SendingHeld(j, l);
    SetStateOrdered(j, Processing);
    var a := AddReason(SetState(j, Processing).(outgoingWatch := true), Outgoing).(sendings := j.sendings + 1);
    RunChainOrdered(a, l);
  }

  lemma RunChainOrdered(a: Job, l: Launch)
    requires TraceOrdered(a.trace) && a.trace[|a.trace| - 1] == a.state == Processing
    requires a.filters == [] && !a.backend.started
    ensures TraceOrdered(RunChain(a, l).trace) && Live(RunChain(a, l))
  {
    StartProcessingOrdered(a, l);
    SetStateOrdered(a, Aborted);
  }

  lemma StartProcessingOrdered(a: Job, l: Launch)
    requires TraceOrdered(a.trace) && a.trace[|a.trace| - 1] == a.state == Processing
    ensures var b := StartProcessing(a, l);
            && TraceOrdered(b.trace) && b.backend == a.backend
            && ((b.state == Aborted && b.trace == a.trace + [Aborted]) || (b.state == Processing && b.trace == a.trace))
  {
    SetStateOrdered(a, Aborted);
  }

  // The printer

  ghost predicate AllOrdered(p: Printer) {
    Guarded(p) && forall i :: 0 <= i < |p.jobs| ==> JobOrdered(p.jobs[i])
  }

  lemma JobAfterOrdered(p: Printer, e: Event)
    requires AllOrdered(p) && Possible(p, e) && !e.CreateJob? && Obeys(HELD_AND_QUIET, p, e)
    ensures JobOrdered(JobAfter(p.jobs[e.i], e))
  {
    var j := p.jobs[e.i];
    JobAfterHeld(p, e);
    match e
    case StartCall(_, owner, spooling) => StartOrdered(j, owner, spooling);
    case CancelCall(_, owner) => CancelOrdered(j, owner);
    case ChildExit(_, w, status) => ExitOrdered(j, w, status);
    case DataError(_, reason) => DoCancelOrdered(j, Aborted, reason);
    case DataEnd(_) => assert Calmer(j, CheckTransforming(j));
    case _ =>
  }

  lemma HappenOrdered(p: Printer, e: Event)
    requires AllOrdered(p) && Possible(p, e) && Obeys(HELD_AND_QUIET, p, e)
    ensures AllOrdered(Happen(p, e))
  {
    HappenGuarded(p, e);
    if e.CreateJob? {
      NewJobOrdered(p);
    } else if !e.MessageLine? {
      JobAfterOrdered(p, e);
      OneJobOrdered(p, Happen(p, e), e.i);
    }
  }

  lemma NewJobOrdered(p: Printer)
    requires AllOrdered(p) && Guarded(Happen(p, Event.CreateJob))
    ensures AllOrdered(Happen(p, Event.CreateJob))
  {
    assert JobOrdered(NEW_JOB);
  }

  lemma OneJobOrdered(p: Printer, q: Printer, i: nat)
    requires AllOrdered(p) && Guarded(q) && i < |p.jobs| == |q.jobs|
    requires q.jobs == p.jobs[i := q.jobs[i]] && JobOrdered(q.jobs[i])
    ensures AllOrdered(q)
  {
  }

  lemma StartJobOrdered(p: Printer, i: nat, l: Launch)
    requires AllOrdered(p) && i < |p.jobs| && p.jobs[i].state == Pending && l.Possible()
    ensures AllOrdered(StartJob(p, i, l))
  {
    StartJobGuarded(p, i, l);
    SendingOrdered(p.jobs[i], l);
  }

  lemma OnEngineNoteOrdered(p: Printer, i: nat, l: Launch)
    requires AllOrdered(p) && Queued(p, EngineNote(i, l))
    ensures AllOrdered(OnEngineNote(p, i, l))
  {
    OnEngineNoteGuarded(p, i, l);
    assert JobOrdered(p.jobs[i]);
    var j := TakeEngineNote(p.jobs[i]);
    if j.engineWatch && j.state == Pending && p.state == PrinterIdle {
      var k := j.(engineWatch := false);
      ConsumedHeld(p.jobs[i], k);
      SameWatch(p, WithJob(p, i, k), i);
      assert JobOrdered(k);
      StartJobOrdered(WithJob(p, i, k), i, l);
    }
  }

  /** The other handlers do not touch a job's state or processes. */
  lemma UntouchedOrdered(p: Printer, q: Printer, i: nat)
    requires AllOrdered(p) && Guarded(q) && i < |p.jobs| && |q.jobs| == |p.jobs|
    requires forall k :: 0 <= k < |p.jobs| && k != i ==> q.jobs[k] == p.jobs[k]
    requires Calmer(p.jobs[i], q.jobs[i])
    ensures AllOrdered(q)
  {
    assert JobOrdered(p.jobs[i]);
  }

  lemma OnSelfNoteOrdered(p: Printer, i: nat)
    requires AllOrdered(p) && Queued(p, SelfNote(i)) && Guarded(OnSelfNote(p, i))
    ensures AllOrdered(OnSelfNote(p, i))
  {
    assert Calmer(p.jobs[i], AfterSelfNote(p.jobs[i]));
    UntouchedOrdered(p, OnSelfNote(p, i), i);
  }

  lemma HandleOrdered(p: Printer, n: Note)
    requires AllOrdered(p) && Queued(p, n)
    ensures AllOrdered(Handle(p, n))
  {
    HandleGuarded(p, n);
    match n
    case SelfNote(i) => OnSelfNoteOrdered(p, i);
    case EngineNote(i, l) => OnEngineNoteOrdered(p, i, l);
    case PrinterNote(i) => OnPrinterNoteOrdered(p, i);
    case ReasonsNote(i) => OnReasonsNoteOrdered(p, i);
    case PrinterStateNote(l) => OnPrinterStateNoteOrdered(p, l);
  }

  lemma OnPrinterNoteOrdered(p: Printer, i: nat)
    requires AllOrdered(p) && Queued(p, PrinterNote(i)) && Guarded(OnPrinterNote(p, i))
    ensures AllOrdered(OnPrinterNote(p, i))
  {
    UntouchedOrdered(p, OnPrinterNote(p, i), i);
  }

  lemma OnReasonsNoteOrdered(p: Printer, i: nat)
    requires AllOrdered(p) && Queued(p, ReasonsNote(i)) && Guarded(OnReasonsNote(p, i))
    ensures AllOrdered(OnReasonsNote(p, i))
  {
    UntouchedOrdered(p, OnReasonsNote(p, i), i);
  }

  lemma OnPrinterStateNoteOrdered(p: Printer, l: Launch)
    requires AllOrdered(p) && Queued(p, PrinterStateNote(l))
    ensures AllOrdered(OnPrinterStateNote(p, l))
  {
    if p.state == PrinterIdle && NextJob(p.jobs).Some? {
      StartJobOrdered(p.(notes := p.notes - 1), NextJob(p.jobs).value, l);
    }
  }

  lemma {:induction false} RunOrdered(p: Printer, steps: seq<Step>, q: Printer)
    requires AllOrdered(p) && Run(HELD_AND_QUIET, p, steps, q)
    ensures AllOrdered(q)
    decreases |steps|
  {
    if steps != [] {
      match steps[0] {
        case Outside(e) => HappenOrdered(p, e);
        case Inside(n) => HandleOrdered(p, n);
      }
      RunOrdered(Next(p, steps[0]), steps[1..], q);
    }
  }

  /** Every state a job is ever given follows the one before it in the diagram, so nothing
      follows a terminal state. */
  lemma StatesFollowTheDiagram(p: Printer, i: nat, k: nat)
    requires Reachable(HELD_AND_QUIET, p) && i < |p.jobs| && k < |p.jobs[i].trace|
    ensures k + 1 < |p.jobs[i].trace| ==> Follows(p.jobs[i].trace[k], p.jobs[i].trace[k + 1])
    ensures p.jobs[i].trace[k].Terminal() ==> k == |p.jobs[i].trace| - 1 && p.jobs[i].state == p.jobs[i].trace[k]
  {
    var steps :| Run(HELD_AND_QUIET, NEW_PRINTER, steps, p);
    RunOrdered(NEW_PRINTER, steps, p);
    assert JobOrdered(p.jobs[i]);
  }
}
