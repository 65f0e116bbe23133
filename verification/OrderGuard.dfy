/** Exactly which events break the order of a job's states (section 4.3.7 of RFC 2911). */
module OrderGuard {
  import opened JobModel
  import opened JobSafety
  import opened PrinterModel
  import opened PrinterSafety
  import opened DeviceExclusion
  import opened StateOrder
  import Cascades
  import Runs

  // Two more facts about a job, on any run

  /** A job whose channels are watched has a backend, or is over; when the last process is gone it
      is over; and a job that is processing has a backend as soon as it has filters. */
  ghost predicate Attended(j: Job) {
    && (Listening(j) && !j.backend.started ==> j.state.Terminal())
    && (j.backend.finished && !AnyRunning(j.filters) ==> j.state.Terminal())
    && (j.state == Processing && j.filters != [] ==> j.backend.started)
  }

  ghost predicate SameRoll(a: Process, b: Process) {
    a.started == b.started && a.finished == b.finished && a.watched == b.watched
  }

  /** The processes are where they were; the job is as it was or over. */
  ghost predicate Alike(j: Job, k: Job) {
    && |k.filters| == |j.filters|
    && (forall i :: 0 <= i < |j.filters| ==> SameRoll(j.filters[i], k.filters[i]))
    && SameRoll(j.backend, k.backend)
    && (k.state == j.state || k.state.Terminal())
  }

  lemma AlikeAttended(j: Job, k: Job)
    requires Attended(j) && Alike(j, k)
    ensures Attended(k)
  {
    if AnyRunning(j.filters) {
      var i :| 0 <= i < |j.filters| && j.filters[i].Running();
      assert k.filters[i].Running();
    }
  }

  lemma StopRunningAlike(c: Job, s: JobState)
    ensures Alike(c, StopRunning(c, s))
  {
    var k := KillProcesses(Pend(c, s));
    assert Alike(c, k);
    assert StopRunning(c, s).filters == k.filters && StopRunning(c, s).backend == k.backend;
  }

  lemma StopAlike(j: Job, s: JobState)
    requires s.Stopped()
    ensures Alike(j, Stop(j, s))
  {
    var c := CheckTransforming(j);
    assert Alike(j, c);
    StopRunningAlike(c, s);
    StopCases(j, s);
  }

  lemma DoCancelAlike(j: Job, s: JobState, r: Reason)
    requires s.Stopped()
    ensures Alike(j, DoCancel(j, s, r))
  {
    StopAlike(AddReason(j, r), s);
    DoCancelCases(j, s, r);
  }

  lemma CancelCaseAlike(j: Job, c: Job, k: Job)
    requires c == CheckTransforming(j)
    requires k == j || k == c || k == DoCancel(j, Canceled, CanceledByUser) || k == DoCancel(c, Canceled, CanceledByUser)
    ensures Alike(j, k)
  {
    assert Alike(j, c);
    DoCancelAlike(j, Canceled, CanceledByUser);
    DoCancelAlike(c, Canceled, CanceledByUser);
    AlikeTwice(j, c, DoCancel(c, Canceled, CanceledByUser));
  }

  lemma AlikeTwice(j: Job, k: Job, m: Job)
    requires Alike(j, k) && Alike(k, m)
    ensures Alike(j, m)
  {
  }

  lemma CancelAlike(j: Job, owner: bool)
    ensures Alike(j, Cancel(j, owner).1)
  {
    CancelCases(j, owner);
    CancelCaseAlike(j, CheckTransforming(j), Cancel(j, owner).1);
  }

  /** Only a job without processes is released. */
  lemma StartAttended(j: Job, owner: bool, spooling: Spooling)
    requires JobSafe(j) && Attended(j)
    ensures Attended(Start(j, owner, spooling).1)
  {
    var k := j.(spooled := true, document := false);
    DoCancelAlike(k, Aborted, AbortedBySystem);
    if owner && j.document && !spooling.NoSpoolFile? {
      assert j.filters == [] && j.backend == NEVER_RUN;
      AlikeAttended(k, DoCancel(k, Aborted, AbortedBySystem));
    }
  }

  lemma ReapAttended(j: Job, w: ProcessId, status: int)
    requires JobSafe(j) && Attended(j) && CanExit(j, w)
    ensures var r := Reap(j, w, status);
            && r.state == j.state && r.backend.started == j.backend.started
            && (Listening(r) ==> Listening(j)) && |r.filters| == |j.filters|
  {
    var f := Put(j, w, Get(j, w).(finished := true, status := status));
    if w.Filter? {
      assert forall i :: 0 <= i < |j.filters| ==> f.filters[i].watched == j.filters[i].watched;
    }
  }

  lemma ExitAttended(j: Job, w: ProcessId, status: int)
    requires JobSafe(j) && Attended(j) && CanExit(j, w)
    ensures Attended(Exit(j, w, status))
  {
    ReapAttended(j, w, status);
    ExitSafe(j, w, status);
    var f := Judge(Reap(j, w, status), status);
    assert f.state == j.state && f.backend.started == j.backend.started && (Listening(f) ==> Listening(j));
    assert |f.filters| == |j.filters|;
    SettleAttended(f);
  }

  lemma SettleAttended(f: Job)
    requires JobSafe(Settle(f)) && (Listening(f) && !f.backend.started ==> f.state.Terminal())
    requires f.backend.finished ==> f.backend.started
    requires f.state == Processing && f.filters != [] ==> f.backend.started
    ensures Attended(Settle(f))
  {
  }

  lemma JobAfterAttended(p: Printer, e: Event)
    requires Safe(p) && Possible(p, e) && !e.CreateJob? && Attended(p.jobs[e.i])
    ensures Attended(JobAfter(p.jobs[e.i], e))
  {
    var j := p.jobs[e.i];
    match e
    case StartCall(_, owner, spooling) => StartAttended(j, owner, spooling);
    case ChildExit(_, w, status) => ExitAttended(j, w, status);
    case CancelCall(_, owner) =>
      CancelAlike(j, owner);
      AlikeAttended(j, JobAfter(j, e));
    case DataError(_, reason) =>
      DoCancelAlike(j, Aborted, reason);
      AlikeAttended(j, JobAfter(j, e));
    case AddDocumentCall(_, _, _) => AlikeAttended(j, JobAfter(j, e));
    case DataEnd(_) => AlikeAttended(j, JobAfter(j, e));
    case MessageError(_) => AlikeAttended(j, JobAfter(j, e));
    case _ =>
  }

  lemma SendAttended(j: Job, l: Launch)
    requires JobSafe(j) && j.state == Pending && l.Possible()
    ensures Attended(Send(j, l)) && Attended(SetState(j, Processing))
  {
    assert j.filters == [] && j.backend == NEVER_RUN;
  }

  ghost predicate AllAttended(p: Printer) {
    Safe(p) && forall i :: 0 <= i < |p.jobs| ==> Attended(p.jobs[i])
  }

  lemma StartJobAttended(p: Printer, i: nat, l: Launch)
    requires AllAttended(p) && i < |p.jobs| && p.jobs[i].state == Pending && l.Possible()
    ensures AllAttended(StartJob(p, i, l))
  {
    StartJobSafe(p, i, l);
    SendAttended(p.jobs[i], l);
  }

  lemma OnEngineNoteAttended(p: Printer, i: nat, l: Launch)
    requires AllAttended(p) && Queued(p, EngineNote(i, l))
    ensures AllAttended(OnEngineNote(p, i, l))
  {
    OnEngineNoteSafe(p, i, l);
    var k := AfterEngineNote(p.jobs[i], p.state == PrinterIdle);
    ConsumedSafe(p.jobs[i], k);
    AlikeAttended(p.jobs[i], k);
    if Startable(p.jobs[i]) && p.state == PrinterIdle {
      StartJobAttended(WithJob(p, i, k), i, l);
    }
  }

  lemma OnSelfNoteAttended(p: Printer, i: nat)
    requires AllAttended(p) && Queued(p, SelfNote(i))
    ensures AllAttended(OnSelfNote(p, i))
  {
    OnSelfNoteSafe(p, i);
    AlikeAttended(p.jobs[i], AfterSelfNote(p.jobs[i]));
  }

  lemma HandleAttended(p: Printer, n: Note)
    requires AllAttended(p) && Queued(p, n)
    ensures AllAttended(Handle(p, n))
  {
    HandleSafe(p, n);
    match n
    case SelfNote(i) => OnSelfNoteAttended(p, i);
    case EngineNote(i, l) => OnEngineNoteAttended(p, i, l);
    case PrinterNote(i) => AlikeAttended(p.jobs[i], TakePrinterNote(p.jobs[i]));
    case ReasonsNote(i) => AlikeAttended(p.jobs[i], AfterReasonsNote(p.jobs[i]));
    case PrinterStateNote(l) => OnPrinterStateNoteAttended(p, l);
  }

  lemma OnPrinterStateNoteAttended(p: Printer, l: Launch)
    requires AllAttended(p) && Queued(p, PrinterStateNote(l))
    ensures AllAttended(OnPrinterStateNote(p, l))
  {
    if p.state == PrinterIdle && NextJob(p.jobs).Some? {
      StartJobAttended(p.(notes := p.notes - 1), NextJob(p.jobs).value, l);
    }
  }

  lemma NextAttended(p: Printer, s: Step)
    requires AllAttended(p) && CanStep(p, s)
    ensures AllAttended(Next(p, s))
  {
    NextSafe(p, s);
    match s
    case Inside(n) => HandleAttended(p, n);
    case Outside(e) =>
      if !e.CreateJob? && !e.MessageLine? {
        JobAfterAttended(p, e);
      }
  }

  lemma {:induction false} RunAttended(rules: Rules, p: Printer, steps: seq<Step>, q: Printer)
    requires AllAttended(p) && Run(rules, p, steps, q)
    ensures AllAttended(q)
    decreases |steps|
  {
    if steps != [] {
      NextAttended(p, steps[0]);
      RunAttended(rules, Next(p, steps[0]), steps[1..], q);
    }
  }

  // Reaping a job that is over

  /** The job is canceled, but some process of it is left. */
  ghost predicate Haunted(p: Printer, i: nat) {
    && Safe(p) && i < |p.jobs| && p.jobs[i].state == Canceled && p.jobs[i].backend.started
    && (p.jobs[i].backend.Running() || AnyRunning(p.jobs[i].filters))
  }

  ghost function RunningFilters(p: Printer, i: nat): set<nat> {
    if i < |p.jobs| then set k: nat | k < |p.jobs[i].filters| && p.jobs[i].filters[k].Running() else {}
  }

  ghost predicate BackendRuns(p: Printer, i: nat) {
    i < |p.jobs| && p.jobs[i].backend.Running()
  }

  ghost predicate SameGhost(p: Printer, q: Printer, i: nat) {
    && i < |p.jobs| && i < |q.jobs|
    && q.jobs[i].filters == p.jobs[i].filters && q.jobs[i].backend == p.jobs[i].backend
    && q.jobs[i].state == p.jobs[i].state && q.jobs[i].trace == p.jobs[i].trace
  }

  lemma HandleLeavesHaunted(p: Printer, n: Note, i: nat)
    requires Haunted(p, i) && Queued(p, n)
    ensures SameGhost(p, Handle(p, n), i)
  {
    HandleSpares(p, n, i);
  }

  lemma {:induction false} CascadeLeavesHaunted(p: Printer, steps: seq<Step>, q: Printer, i: nat)
    requires Haunted(p, i) && Cascade(p, steps, q)
    ensures Haunted(q, i) && SameGhost(p, q, i)
    decreases |steps|
  {
    if steps != [] {
      assert steps[0].Inside?;
      Cascades.CascadeTail(p, steps, q);
      HandleSafe(p, steps[0].n);
      HandleLeavesHaunted(p, steps[0].n, i);
      CascadeLeavesHaunted(Next(p, steps[0]), steps[1..], q, i);
    }
  }

  lemma SomeoneLeft(p: Printer, i: nat) returns (w: ProcessId)
    requires Haunted(p, i)
    ensures Possible(p, ChildExit(i, w, 1)) && Get(p.jobs[i], w).Running()
  {
    var j := p.jobs[i];
    assert JobSafe(j);
    if AnyRunning(j.filters) {
      var k: nat :| k < |j.filters| && j.filters[k].Running();
      w := Filter(k);
    } else {
      w := Backend;
    }
  }

  ghost predicate Broken(p: Printer) {
    exists i :: 0 <= i < |p.jobs| && !TraceOrdered(p.jobs[i].trace)
  }

  lemma NothingFollowsTerminal(p: Printer, i: nat, t: seq<JobState>, s: JobState)
    requires i < |p.jobs| && p.jobs[i].trace == t + [s] && t != [] && t[|t| - 1].Terminal()
    ensures Broken(p)
  {
    var u := p.jobs[i].trace;
    assert u[|t| - 1].Terminal() && !Follows(u[|t| - 1], u[|t| - 1 + 1]);
  }

  /** What the exit of a process that failed does to such a job: it is ABORTED after all, or there
      is less to reap. */
  lemma ExitOfHaunted(p: Printer, i: nat, w: ProcessId)
    requires Haunted(p, i) && Possible(p, ChildExit(i, w, 1)) && Get(p.jobs[i], w).Running()
    ensures var q := Happen(p, ChildExit(i, w, 1));
            || q.jobs[i].trace == p.jobs[i].trace + [Aborted]
            || (Haunted(q, i) && RunningFilters(q, i) <= RunningFilters(p, i)
                && (w.Filter? ==> RunningFilters(q, i) < RunningFilters(p, i)) && (w.Backend? ==> !BackendRuns(q, i)))
  {
    var e := ChildExit(i, w, 1);
    HappenSafe(p, e);
    var j := p.jobs[i];
    var f := Judge(Reap(j, w, 1), 1);
    ReapKeepsTrace(j, w, 1);
    assert f.filters == Put(j, w, Get(j, w).(finished := true, status := 1)).filters;
    var q := Happen(p, e);
    assert q.jobs[i] == Settle(f);
    if Settle(f) != f {
      assert q.jobs[i].trace == j.trace + [Aborted];
    } else {
      LessToReap(p, q, i, w, 1);
    }
  }

  lemma LessToReap(p: Printer, q: Printer, i: nat, w: ProcessId, status: int)
    requires i < |p.jobs| == |q.jobs| && Has(p.jobs[i], w) && Get(p.jobs[i], w).Running()
    requires q.jobs[i].filters == Put(p.jobs[i], w, Get(p.jobs[i], w).(finished := true, status := status)).filters
    requires q.jobs[i].backend == Put(p.jobs[i], w, Get(p.jobs[i], w).(finished := true, status := status)).backend
    ensures RunningFilters(q, i) <= RunningFilters(p, i)
    ensures w.Filter? ==> RunningFilters(q, i) < RunningFilters(p, i)
    ensures w.Backend? ==> !BackendRuns(q, i)
  {
    if w.Filter? {
      assert w.index in RunningFilters(p, i) && w.index !in RunningFilters(q, i);
    }
  }

  /** However it came about, such a job is set another state when the processes left to it fail. */
  lemma {:induction false} ReapAll(p: Printer, i: nat) returns (steps: seq<Step>, q: Printer)
    requires Haunted(p, i)
    ensures Run(HELD_AND_QUIET, p, steps, q) && Broken(q)
    decreases RunningFilters(p, i), BackendRuns(p, i)
  {
    var first, r := Cascades.CascadeComesToRest(p);
    CascadeLeavesHaunted(p, first, r, i);
    Runs.CascadeIsRun(HELD_AND_QUIET, p, first, r);
    assert RunningFilters(r, i) == RunningFilters(p, i) && BackendRuns(r, i) == BackendRuns(p, i);
    var w := SomeoneLeft(r, i);
    var s := Outside(ChildExit(i, w, 1));
    Runs.RunThen(HELD_AND_QUIET, p, first, r, s);
    ExitOfHaunted(r, i, w);
    var t := Next(r, s);
    if t.jobs[i].trace == r.jobs[i].trace + [Aborted] {
      assert JobSafe(r.jobs[i]);
      NothingFollowsTerminal(t, i, r.jobs[i].trace, Aborted);
      steps, q := first + [s], t;
    } else {
      var rest;
      rest, q := ReapAll(t, i);
      Runs.RunConcat(HELD_AND_QUIET, p, first + [s], t, rest, q);
      steps := first + [s] + rest;
    }
  }

  // The events that break the order

  /** A message channel that fails while the job is not CANCELED already, and a Start that succeeds
      on a job that is not held. */
  predicate Breaks(p: Printer, e: Event)
    requires Possible(p, e)
  {
    || (e.MessageError? && p.jobs[e.i].state != Canceled)
    || (e.StartCall? && e.owner && e.spooling.Pdf? && p.jobs[e.i].document && p.jobs[e.i].state != PendingHeld)
  }

  /** Whatever happens from here by the rules, every job's states follow the diagram. */
  ghost predicate OrderStands(p: Printer) {
    forall steps, q :: Run(HELD_AND_QUIET, p, steps, q) ==> !Broken(q)
  }

  /** A Start that comes to nothing, on a job that was canceled while held. */
  lemma FutileStartOrdered(j: Job, spooling: Spooling)
    requires JobOrdered(j) && j.document && j.state != PendingHeld && !spooling.Pdf?
    ensures JobOrdered(Start(j, true, spooling).1) && Start(j, true, spooling).1.outgoingWatch == j.outgoingWatch
  {
    var k := j.(spooled := true, document := false);
    assert j.state == Canceled;
    StartSafe(j, true, spooling);
    if spooling.WrongType? {
      ReasonFlagged(k, '+', AbortedBySystem);
      assert DoCancel(k, Aborted, AbortedBySystem) == AddReason(k, AbortedBySystem);
    }
  }

  /** A channel that fails when the job is CANCELED: nothing of it is left to reap. */
  lemma CanceledAgainOrdered(p: Printer, e: Event)
    requires AllOrdered(p) && Possible(p, e) && e.MessageError? && p.jobs[e.i].state == Canceled
    ensures AllOrdered(Happen(p, e))
  {
    HappenGuarded(p, e);
    assert JobOrdered(p.jobs[e.i]);
    assert Calmer(p.jobs[e.i], MessageFailure(p.jobs[e.i]));
    OneJobOrdered(p, Happen(p, e), e.i);
  }

  lemma HarmlessOrdered(p: Printer, e: Event)
    requires AllOrdered(p) && Possible(p, e) && !Breaks(p, e)
    ensures AllOrdered(Happen(p, e))
  {
    if Obeys(HELD_AND_QUIET, p, e) {
      HappenOrdered(p, e);
    } else if e.MessageError? {
      CanceledAgainOrdered(p, e);
    } else {
      assert e.StartCall? && e.owner && p.jobs[e.i].document && p.jobs[e.i].state != PendingHeld;
      FutileStartOrdered(p.jobs[e.i], e.spooling);
      SameWatch(p, Happen(p, e), e.i);
      OneJobOrdered(p, Happen(p, e), e.i);
    }
  }

  lemma OrderedStands(p: Printer)
    requires AllOrdered(p)
    ensures OrderStands(p)
  {
    forall steps, q | Run(HELD_AND_QUIET, p, steps, q) ensures !Broken(q) {
      RunOrdered(p, steps, q);
      assert forall i :: 0 <= i < |q.jobs| ==> JobOrdered(q.jobs[i]);
    }
  }

  lemma StartBreaks(p: Printer, e: Event)
    requires AllOrdered(p) && Possible(p, e) && Breaks(p, e) && e.StartCall?
    ensures Broken(Happen(p, e))
  {
    var j := p.jobs[e.i];
    assert JobOrdered(j) && j.state == Canceled;
    NothingFollowsTerminal(Happen(p, e), e.i, j.trace, Pending);
  }

  lemma FailureHaunts(p: Printer, e: Event)
    requires AllOrdered(p) && AllAttended(p) && Possible(p, e) && e.MessageError? && p.jobs[e.i].state != Canceled
    ensures Broken(Happen(p, e)) || Haunted(Happen(p, e), e.i)
  {
    var j := p.jobs[e.i];
    assert JobOrdered(j) && Attended(j);
    HappenSafe(p, e);
    if j.state.Terminal() {
      NothingFollowsTerminal(Happen(p, e), e.i, j.trace, Canceled);
    }
  }

  lemma BrokenDoesNotStand(p: Printer)
    requires Broken(p)
    ensures !OrderStands(p)
  {
    assert Run(HELD_AND_QUIET, p, [], p);
  }

  /** Let everything up to now have been by the rules. After one more event the order stands, for
      all that may follow by the rules, exactly when the event is neither the failure of a message
      channel of a job not CANCELED yet nor a successful Start on a job that is not held. */
  lemma OrderStandsIff(p: Printer, e: Event)
    requires Reachable(HELD_AND_QUIET, p) && Quiescent(p) && Possible(p, e)
    ensures OrderStands(Happen(p, e)) <==> !Breaks(p, e)
  {
    var steps :| Run(HELD_AND_QUIET, NEW_PRINTER, steps, p);
    RunOrdered(NEW_PRINTER, steps, p);
    RunAttended(HELD_AND_QUIET, NEW_PRINTER, steps, p);
    if !Breaks(p, e) {
      HarmlessOrdered(p, e);
      OrderedStands(Happen(p, e));
    } else if e.StartCall? {
      StartBreaks(p, e);
      BrokenDoesNotStand(Happen(p, e));
    } else {
      FailureHaunts(p, e);
      if Broken(Happen(p, e)) {
        BrokenDoesNotStand(Happen(p, e));
      } else {
        var rest, q := ReapAll(Happen(p, e), e.i);
      }
    }
  }
}
