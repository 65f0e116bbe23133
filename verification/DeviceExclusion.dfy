/** At most one job of a printer drives the device. The guard is spread over the printer's
    `jobOutgoing` flag, the reason "job-outgoing" of a job and the signal handler that watches
    that job's reasons; it holds because "job-outgoing" is always the first reason, so that the
    truncating add never drops it. Runs in which Start is called on pending-held jobs only. */
module DeviceExclusion {
  import opened StateReasons
  import opened JobModel
  import opened JobSafety
  import opened PrinterModel
  import opened PrinterSafety

  /** The reasons of a job that has not been started yet. */
  ghost predicate Unstarted(j: Job) {
    && (j.state == PendingHeld ==> j.reasons == [Incoming] && j.engineWatch)
    && (j.state == Pending ==> j.reasons == [])
  }

  ghost predicate Flagged(j: Job) {
    && (j.sendings == 0 ==> !j.outgoingWatch && Outgoing !in j.reasons)
    && (j.outgoingWatch && Outgoing !in j.reasons ==> 0 < j.reasonNotes)
    && (Outgoing in j.reasons ==> j.outgoingWatch && j.reasons[0] == Outgoing)
    && (j.backend.Running() ==> Outgoing in j.reasons)
  }

  ghost predicate JobHeld(j: Job) {
    JobSafe(j) && Unstarted(j) && Flagged(j)
  }

  // One job

  lemma UpdateElsewhere(rs: seq<Reason>, op: char, r: Reason)
    requires r != Outgoing
    requires Outgoing in rs ==> rs[0] == Outgoing
    ensures Outgoing in Updated(rs, op, r) <==> Outgoing in rs
    ensures Outgoing in rs ==> Updated(rs, op, r)[0] == Outgoing
  {
    if Outgoing in rs {
      FirstReasonSurvives(rs, op, r);
    } else {
      RemoveIsFilter(rs, r);
    }
  }

  lemma ReasonFlagged(j: Job, op: char, r: Reason)
    requires Flagged(j) && r != Outgoing
    ensures Flagged(j.(reasons := Updated(j.reasons, op, r), reasonNotes := j.reasonNotes + 1))
  {
    UpdateElsewhere(j.reasons, op, r);
  }

  lemma CheckFlagged(j: Job)
    requires Flagged(j)
    ensures Flagged(CheckTransforming(j))
  {
    ReasonFlagged(j, '-', Transforming);
  }

  /** Everything but the reasons, the watch and whether the backend runs is irrelevant. */
  lemma FlaggedFrame(j: Job, k: Job)
    requires Flagged(j)
    requires k.sendings == j.sendings && k.outgoingWatch == j.outgoingWatch
    requires k.reasons == j.reasons && k.reasonNotes == j.reasonNotes
    requires k.backend.Running() ==> j.backend.Running()
    ensures Flagged(k)
  {
  }

  lemma DoCancelFlagged(j: Job, s: JobState, reason: Reason)
    requires Flagged(j) && reason != Outgoing
    ensures Flagged(DoCancel(j, s, reason))
  {
    ReasonFlagged(j, '+', reason);
    DoCancelCases(j, s, reason);
    CaseFlagged(AddReason(j, reason), s, DoCancel(j, s, reason));
  }

  lemma CaseFlagged(a: Job, s: JobState, d: Job)
    requires Flagged(a) && (d == SetState(a, s) || d == Stop(a, s) || d == a)
    ensures Flagged(d)
  {
    StopFlagged(a, s);
    FlaggedFrame(a, SetState(a, s));
  }

  lemma CancelCases(j: Job, owner: bool)
    ensures var c, k := CheckTransforming(j), Cancel(j, owner).1;
            k == j || k == c || k == DoCancel(j, Canceled, CanceledByUser) || k == DoCancel(c, Canceled, CanceledByUser)
  {
  }

  lemma DoCancelCases(j: Job, s: JobState, reason: Reason)
    ensures var a := AddReason(j, reason);
            DoCancel(j, s, reason) == SetState(a, s) || DoCancel(j, s, reason) == Stop(a, s) || DoCancel(j, s, reason) == a
  {
  }

  lemma StopCases(j: Job, s: JobState)
    ensures var c := CheckTransforming(j);
            || Stop(j, s) == StopNow(c, s)
            || Stop(j, s) == c
            || (Stop(j, s) == StopRunning(c, s) && ToStopPoint !in c.reasons)
  {
  }

  lemma StopFlagged(j: Job, s: JobState)
    requires Flagged(j)
    ensures Flagged(Stop(j, s))
  {
    CheckFlagged(j);
    var c := CheckTransforming(j);
    FlaggedFrame(c, StopNow(c, s));
    StopRunningFlagged(c, s);
    StopCases(j, s);
  }

  lemma StopRunningFlagged(c: Job, s: JobState)
    requires Flagged(c)
    ensures Flagged(StopRunning(c, s))
  {
    FlaggedFrame(c, Kill(c, s));
    ReasonFlagged(Kill(c, s), '+', ToStopPoint);
  }

  /** Accepting a stop moves the job past PENDING, or leaves it alone. */
  lemma DoCancelUnstarted(j: Job, s: JobState, reason: Reason)
    requires s.Stopped()
    ensures DoCancel(j, s, reason).state != Pending && DoCancel(j, s, reason).state != PendingHeld
    ensures DoCancel(j, s, reason).outgoingWatch == j.outgoingWatch
  {
    var a := AddReason(j, reason);
    if j.state == Processing || j.state == ProcessingStopped {
      StopState(a, s);
      assert DoCancel(j, s, reason) == Stop(a, s);
    }
  }

  lemma StopState(j: Job, s: JobState)
    ensures Stop(j, s).state == j.state || Stop(j, s).state == s
    ensures Stop(j, s).outgoingWatch == j.outgoingWatch
  {
    var c := CheckTransforming(j);
    assert StopRunning(c, s).state == c.state && StopRunning(c, s).outgoingWatch == c.outgoingWatch;
    assert StopNow(c, s).state == s && StopNow(c, s).outgoingWatch == c.outgoingWatch;
  }

  lemma ReapFlagged(j: Job, w: ProcessId, status: int)
    requires Flagged(j) && JobSafe(j) && CanExit(j, w)
    ensures Flagged(Reap(j, w, status))
  {
    var f := Put(j, w, Get(j, w).(finished := true, status := status));
    if w.Backend? {
      RemoveIsFilter(j.reasons, Outgoing);
    } else {
      assert Flagged(f);
      CheckFlagged(f);
    }
  }

  lemma ExitHeld(j: Job, w: ProcessId, status: int)
    requires JobHeld(j) && CanExit(j, w)
    ensures JobHeld(Exit(j, w, status))
  {
    ExitSafe(j, w, status);
    ReapFlagged(j, w, status);
    SettleFlagged(Reap(j, w, status), status);
    ExitLeavesStarted(j, w, status);
  }

  lemma ExitLeavesStarted(j: Job, w: ProcessId, status: int)
    requires JobSafe(j) && CanExit(j, w)
    ensures Exit(j, w, status).state != Pending && Exit(j, w, status).state != PendingHeld
  {
    ExitSafe(j, w, status);
    HasStarted(j, w);
    StaysStarted(j, Exit(j, w, status));
  }

  lemma HasStarted(j: Job, w: ProcessId)
    requires JobSafe(j) && CanExit(j, w)
    ensures j.state != Pending && j.state != PendingHeld
  {
  }

  lemma StaysStarted(j: Job, k: Job)
    requires JobSafe(j) && JobSafe(k) && j.state != Pending && j.state != PendingHeld
    requires k.trace == j.trace || k.state.Terminal()
    ensures k.state != Pending && k.state != PendingHeld
  {
  }

  lemma SettleFlagged(f: Job, status: int)
    requires Flagged(f)
    ensures Flagged(Settle(Judge(f, status)))
  {
    FlaggedFrame(f, Judge(f, status));
  }

  lemma StartHeld(j: Job, owner: bool, spooling: Spooling)
    requires JobHeld(j) && (owner && j.document ==> j.state == PendingHeld)
    ensures JobHeld(Start(j, owner, spooling).1)
  {
    StartSafe(j, owner, spooling);
    if owner && j.document && !spooling.NoSpoolFile? {
      var k := j.(spooled := true, document := false);
      if spooling.WrongType? {
        DoCancelFlagged(k, Aborted, AbortedBySystem);
        DoCancelUnstarted(k, Aborted, AbortedBySystem);
      } else {
        ReasonFlagged(k, '-', Incoming);
      }
    }
  }

  lemma CancelHeld(j: Job, owner: bool)
    requires JobHeld(j)
    ensures JobHeld(Cancel(j, owner).1)
  {
    CancelSafe(j, owner);
    CheckFlagged(j);
    var c := CheckTransforming(j);
    DoCancelFlagged(j, Canceled, CanceledByUser);
    DoCancelFlagged(c, Canceled, CanceledByUser);
    DoCancelUnstarted(j, Canceled, CanceledByUser);
    DoCancelUnstarted(c, Canceled, CanceledByUser);
  }

  /** Sending a pending job makes "job-outgoing" its first reason. */
  lemma SendingHeld(j: Job, l: Launch)
    requires JobHeld(j) && j.state == Pending && l.Possible()
    ensures JobHeld(SetState(j, Processing))
    ensures JobHeld(StartSending(SetState(j, Processing).(outgoingWatch := true), l))
    ensures StartSending(SetState(j, Processing).(outgoingWatch := true), l).outgoingWatch
  {
    SendingSafe(j, true, l);
    MarkedFlagged(j);
    RunChainFlagged(MarkOutgoing(SetState(j, Processing).(outgoingWatch := true)), l);
  }

  lemma MarkedFlagged(j: Job)
    requires JobHeld(j) && j.state == Pending
    ensures Flagged(SetState(j, Processing))
    ensures var a := MarkOutgoing(SetState(j, Processing).(outgoingWatch := true));
            Flagged(a) && a.reasons == [Outgoing] && a.filters == [] && a.state == Processing
  {
  }

  lemma RunChainFlagged(a: Job, l: Launch)
    requires Flagged(a) && a.reasons == [Outgoing] && a.filters == [] && a.state == Processing
    ensures Flagged(RunChain(a, l)) && Unstarted(RunChain(a, l)) && RunChain(a, l).outgoingWatch
  {
    assert Add([Outgoing], Transforming) == [Outgoing, Transforming];
  }

  // The printer and its jobs

  ghost predicate OneWatch(jobs: seq<Job>) {
    forall i, k :: 0 <= i < |jobs| && 0 <= k < |jobs| && jobs[i].outgoingWatch && jobs[k].outgoingWatch ==> i == k
  }

  ghost predicate SomeWatch(jobs: seq<Job>) {
    exists i :: 0 <= i < |jobs| && jobs[i].outgoingWatch
  }

  ghost predicate Guarded(p: Printer) {
    && Safe(p)
    && (forall i :: 0 <= i < |p.jobs| ==> JobHeld(p.jobs[i]))
    && OneWatch(p.jobs)
    && (p.jobOutgoing <==> SomeWatch(p.jobs))
  }

  /** Replacing a job by one with the same watch leaves the guard as it was. */
  lemma SameWatch(p: Printer, q: Printer, i: nat)
    requires Guarded(p) && i < |p.jobs|
    requires |q.jobs| == |p.jobs| && q.jobs == p.jobs[i := q.jobs[i]] && q.jobOutgoing == p.jobOutgoing && q.reasons == p.reasons
    requires JobHeld(q.jobs[i]) && q.jobs[i].outgoingWatch == p.jobs[i].outgoingWatch
    ensures Guarded(q)
  {
    forall k | 0 <= k < |p.jobs| ensures q.jobs[k].outgoingWatch == p.jobs[k].outgoingWatch {
    }
    if SomeWatch(p.jobs) {
      var k :| 0 <= k < |p.jobs| && p.jobs[k].outgoingWatch;
      assert q.jobs[k].outgoingWatch;
    }
  }

  lemma JobAfterHeld(p: Printer, e: Event)
    requires Guarded(p) && Possible(p, e) && !e.CreateJob? && Obeys(HELD_ONLY, p, e)
    ensures JobHeld(JobAfter(p.jobs[e.i], e))
    ensures JobAfter(p.jobs[e.i], e).outgoingWatch == p.jobs[e.i].outgoingWatch
  {
    var j := p.jobs[e.i];
    JobAfterSafe(p, e);
    WatchUntouched(j, e);
    match e
    case StartCall(_, owner, spooling) => StartHeld(j, owner, spooling);
    case CancelCall(_, owner) => CancelHeld(j, owner);
    case ChildExit(_, w, status) => ExitHeld(j, w, status);
    case DataError(_, reason) =>
      DoCancelFlagged(j, Aborted, reason);
      DoCancelUnstarted(j, Aborted, reason);
    case DataEnd(_) => CheckFlagged(j);
    case MessageError(_) => ReasonFlagged(j, '+', CanceledBySystem);
    case _ =>
  }

  lemma StartKeepsWatch(j: Job, owner: bool, spooling: Spooling)
    ensures Start(j, owner, spooling).1.outgoingWatch == j.outgoingWatch
  {
    DoCancelUnstarted(j.(spooled := true, document := false), Aborted, AbortedBySystem);
  }

  lemma CancelKeepsWatch(j: Job, owner: bool)
    ensures Cancel(j, owner).1.outgoingWatch == j.outgoingWatch
  {
    DoCancelUnstarted(j, Canceled, CanceledByUser);
    DoCancelUnstarted(CheckTransforming(j), Canceled, CanceledByUser);
  }

  lemma WatchUntouched(j: Job, e: Event)
    requires !e.CreateJob? && (e.ChildExit? ==> Has(j, e.w))
    ensures JobAfter(j, e).outgoingWatch == j.outgoingWatch
  {
    match e
    case StartCall(_, owner, spooling) => StartKeepsWatch(j, owner, spooling);
    case CancelCall(_, owner) => CancelKeepsWatch(j, owner);
    case ChildExit(_, w, status) => ReapKeepsOutcome(j, w, status);
    case DataError(_, reason) => DoCancelUnstarted(j, Aborted, reason);
    case _ =>
  }

  lemma CreateJobGuarded(p: Printer)
    requires Guarded(p)
    ensures Guarded(Happen(p, Event.CreateJob))
  {
    HappenSafe(p, Event.CreateJob);
    assert JobHeld(NEW_JOB);
    NewJobIsUnwatched(p.jobs);
  }

  lemma NewJobIsUnwatched(jobs: seq<Job>)
    requires OneWatch(jobs)
    ensures OneWatch(jobs + [NEW_JOB]) && (SomeWatch(jobs + [NEW_JOB]) <==> SomeWatch(jobs))
  {
    if SomeWatch(jobs) {
      var k :| 0 <= k < |jobs| && jobs[k].outgoingWatch;
      assert (jobs + [NEW_JOB])[k].outgoingWatch;
    }
  }

  lemma HappenGuarded(p: Printer, e: Event)
    requires Guarded(p) && Possible(p, e) && Obeys(HELD_ONLY, p, e)
    ensures Guarded(Happen(p, e))
  {
    if e.CreateJob? {
      CreateJobGuarded(p);
    } else if e.MessageLine? {
      HappenSafe(p, e);
    } else {
      JobEventGuarded(p, e);
    }
  }

  lemma JobEventGuarded(p: Printer, e: Event)
    requires Guarded(p) && Possible(p, e) && Obeys(HELD_ONLY, p, e) && !e.CreateJob? && !e.MessageLine?
    ensures Guarded(Happen(p, e))
  {
    JobAfterHeld(p, e);
    SameWatch(p, Happen(p, e), e.i);
  }

  lemma StartJobGuarded(p: Printer, i: nat, l: Launch)
    requires Guarded(p) && i < |p.jobs| && p.jobs[i].state == Pending && l.Possible()
    ensures Guarded(StartJob(p, i, l))
  {
    SendingHeld(p.jobs[i], l);
    var q := StartJob(p, i, l);
    assert JobHeld(p.jobs[i]);
    if p.jobOutgoing {
      SameWatch(p, q, i);
    } else {
      StartJobSafe(p, i, l);
      assert q.jobs[i].outgoingWatch;
      assert forall k :: 0 <= k < |p.jobs| && k != i ==> !q.jobs[k].outgoingWatch;
    }
  }

  /** Taking a notification off a queue, or disconnecting the engine's state handler. */
  lemma ConsumedHeld(j: Job, k: Job)
    requires JobHeld(j) && k.reasonNotes == j.reasonNotes && k.outgoingWatch == j.outgoingWatch
    requires k == j.(selfNotes := k.selfNotes, engineNotes := k.engineNotes, printerNotes := k.printerNotes,
                     engineWatch := k.engineWatch)
    requires j.state == PendingHeld ==> k.engineWatch
    ensures JobHeld(k)
  {
    ConsumedSafe(j, k);
    FlaggedFrame(j, k);
  }

  lemma OnSelfNoteGuarded(p: Printer, i: nat)
    requires Guarded(p) && Queued(p, SelfNote(i))
    ensures Guarded(OnSelfNote(p, i))
  {
    var j := TakeSelfNote(p.jobs[i]);
    ConsumedHeld(p.jobs[i], j);
    SelfNotifiedSafe(j);
    ReasonFlagged(j, '-', Incoming);
    ReasonFlagged(RemoveReason(j, Incoming), '-', ToStopPoint);
    var r := RemoveReason(RemoveReason(j, Incoming), ToStopPoint);
    FlaggedFrame(r, r.(selfWatch := false));
    SameWatch(p, OnSelfNote(p, i), i);
  }

  lemma OnEngineNoteGuarded(p: Printer, i: nat, l: Launch)
    requires Guarded(p) && Queued(p, EngineNote(i, l))
    ensures Guarded(OnEngineNote(p, i, l))
  {
    var j := TakeEngineNote(p.jobs[i]);
    ConsumedHeld(p.jobs[i], j);
    SameWatch(p, WithJob(p, i, j), i);
    if j.engineWatch && j.state != PendingHeld {
      var k := j.(engineWatch := false);
      ConsumedHeld(j, k);
      SameWatch(p, WithJob(p, i, k), i);
      if j.state == Pending && p.state == PrinterIdle {
        StartJobGuarded(WithJob(p, i, k), i, l);
      }
    }
  }

  lemma LettingGoGuarded(p: Printer, i: nat)
    requires Guarded(p) && Queued(p, ReasonsNote(i)) && LetsGo(p.jobs[i])
    ensures Guarded(OnReasonsNote(p, i))
  {
    assert JobHeld(p.jobs[i]);
    var k := AfterReasonsNote(p.jobs[i]);
    ConsumedSafe(p.jobs[i], k);
    assert Flagged(k);
    var q := OnReasonsNote(p, i);
    assert forall m :: 0 <= m < |p.jobs| && m != i ==> q.jobs[m] == p.jobs[m] && !p.jobs[m].outgoingWatch;
  }

  lemma OnReasonsNoteGuarded(p: Printer, i: nat)
    requires Guarded(p) && Queued(p, ReasonsNote(i))
    ensures Guarded(OnReasonsNote(p, i))
  {
    var j := TakeReasonsNote(p.jobs[i]);
    assert JobHeld(p.jobs[i]);
    ConsumedSafe(p.jobs[i], j);
    if j.outgoingWatch && Outgoing !in j.reasons {
      LettingGoGuarded(p, i);
    } else {
      assert Flagged(j);
      SameWatch(p, OnReasonsNote(p, i), i);
    }
  }

  lemma HandleGuarded(p: Printer, n: Note)
    requires Guarded(p) && Queued(p, n)
    ensures Guarded(Handle(p, n))
  {
    match n
    case SelfNote(i) => OnSelfNoteGuarded(p, i);
    case EngineNote(i, l) => OnEngineNoteGuarded(p, i, l);
    case PrinterNote(i) =>
      ConsumedHeld(p.jobs[i], TakePrinterNote(p.jobs[i]));
      SameWatch(p, OnPrinterNote(p, i), i);
    case ReasonsNote(i) => OnReasonsNoteGuarded(p, i);
    case PrinterStateNote(l) =>
      if p.state == PrinterIdle && NextJob(p.jobs).Some? {
        StartJobGuarded(p.(notes := p.notes - 1), NextJob(p.jobs).value, l);
      }
  }

  lemma {:induction false} RunGuarded(rules: Rules, p: Printer, steps: seq<Step>, q: Printer)
    requires rules.heldOnly && Guarded(p) && Run(rules, p, steps, q)
    ensures Guarded(q)
    decreases |steps|
  {
    if steps != [] {
      match steps[0] {
        case Outside(e) => HappenGuarded(p, e);
        case Inside(n) => HandleGuarded(p, n);
      }
      RunGuarded(rules, Next(p, steps[0]), steps[1..], q);
    }
  }

  lemma ReachableGuarded(rules: Rules, p: Printer)
    requires rules.heldOnly && Reachable(rules, p)
    ensures Guarded(p)
  {
    var steps :| Run(rules, NEW_PRINTER, steps, p);
    RunGuarded(rules, NEW_PRINTER, steps, p);
  }

  /** Mutual exclusion on the device: in every reachable state, even between notifications, no
      two jobs of a printer have a running backend. */
  lemma OneRunningBackend(p: Printer, i: nat, k: nat)
    requires Reachable(HELD_ONLY, p) && i < |p.jobs| && k < |p.jobs|
    requires p.jobs[i].backend.Running() && p.jobs[k].backend.Running()
    ensures i == k
  {
    ReachableGuarded(HELD_ONLY, p);
    assert JobHeld(p.jobs[i]) && JobHeld(p.jobs[k]);
  }

  ghost predicate Carries(p: Printer, i: nat) {
    i < |p.jobs| && Outgoing in p.jobs[i].reasons
  }

  /** When everything is quiet, the printer's flag is true exactly when one job carries
      "job-outgoing"; that job is unique and its reasons are watched. */
  lemma FlagTellsCarrier(p: Printer)
    requires Reachable(HELD_ONLY, p) && Quiescent(p)
    ensures p.jobOutgoing <==> exists i: nat :: Carries(p, i)
    ensures forall i: nat, k: nat :: Carries(p, i) && Carries(p, k) ==> i == k
    ensures forall i: nat :: i < |p.jobs| ==> (Carries(p, i) <==> p.jobs[i].outgoingWatch)
    ensures forall i: nat :: Carries(p, i) ==> p.jobs[i].reasons[0] == Outgoing
  {
    ReachableGuarded(HELD_ONLY, p);
    forall i: nat | i < |p.jobs|
      ensures Carries(p, i) <==> p.jobs[i].outgoingWatch
      ensures Carries(p, i) ==> p.jobs[i].reasons[0] == Outgoing
    {
      assert JobHeld(p.jobs[i]) && JobQuiet(p.jobs[i]);
    }
    if p.jobOutgoing {
      var i :| 0 <= i < |p.jobs| && p.jobs[i].outgoingWatch;
      assert Carries(p, i);
    }
  }
}
