/** What an accepted cancel or abort comes to: with the children that are left it decides the state
    in which the job ends. */
module StopRuns {
  import opened StateReasons
  import opened JobModel
  import opened JobSafety
  import opened JobEffects
  import opened PrinterModel
  import opened PrinterSafety
  import Cascades
  import OrderGuard
  import Runs

  /** A child that has not exited. */
  ghost predicate Left(j: Job) {
    (j.backend.started && !j.backend.finished)
    || exists k :: 0 <= k < |j.filters| && j.filters[k].started && !j.filters[k].finished
  }

  /** The job waits for its children and is then `s`. A failing message channel may have set it
      CANCELED before that. */
  ghost predicate Stopping(j: Job, s: JobState) {
    && JobSafe(j) && j.backend.started && s.Stopped() && j.pendingState == s
    && if Left(j) then (j.state == Processing && ToStopPoint in j.reasons) || j.state == Canceled
       else j.state == s
  }

  /** What turns such a job to another end. Toward CANCELED: a child that fails, and an error of the
      data pump whose reason stands before "processing-to-stop-point" already. Toward ABORTED: a
      message channel that fails when no child is left. */
  ghost predicate Diverts(j: Job, e: Event, s: JobState) {
    if s == Canceled then
      || (e.ChildExit? && e.status != 0)
      || (e.DataError? && j.state == Processing && e.reason in Before(j.reasons, ToStopPoint))
    else
      e.MessageError? && !Left(j)
  }

  lemma LeftIsRunning(j: Job)
    ensures Left(j) <==> j.backend.Running() || AnyRunning(j.filters)
  {
    if AnyRunning(j.filters) {
      var k :| 0 <= k < |j.filters| && j.filters[k].Running();
      assert j.filters[k].started && !j.filters[k].finished;
    }
    if Left(j) && !j.backend.Running() {
      var k :| 0 <= k < |j.filters| && j.filters[k].started && !j.filters[k].finished;
      assert j.filters[k].Running();
    }
  }

  lemma KillingLeaves(j: Job, k: Job)
    requires AllKilled(j, k)
    ensures Left(k) <==> Left(j)
  {
    if Left(j) && !j.backend.Running() {
      var m :| 0 <= m < |j.filters| && j.filters[m].started && !j.filters[m].finished;
      assert KilledIfRunning(j.filters[m], k.filters[m]);
      assert k.filters[m].started && !k.filters[m].finished;
    }
    if Left(k) && !k.backend.Running() {
      var m :| 0 <= m < |k.filters| && k.filters[m].started && !k.filters[m].finished;
      assert KilledIfRunning(j.filters[m], k.filters[m]);
      assert j.filters[m].started && !j.filters[m].finished;
    }
  }

  lemma ExitStopping(j: Job, w: ProcessId, status: int, s: JobState)
    requires Stopping(j, s) && CanExit(j, w) && JobSafe(Exit(j, w, status))
    ensures Stopping(Exit(j, w, status), s) <==> !(s == Canceled && status != 0)
  {
    var k := Exit(j, w, status);
    ExitMarks(j, w, status);
    ExitSettles(j, w, status);
    ExitReasons(j, w, status);
    LastLeft(j, w, k, status);
    LeftIsRunning(k);
    WasLeft(j, w);
  }

  lemma WasLeft(j: Job, w: ProcessId)
    requires JobSafe(j) && CanExit(j, w)
    ensures Left(j)
  {
    if w.Filter? {
      assert j.filters[w.index].started && !j.filters[w.index].finished;
    }
  }

  lemma CancelStopping(j: Job, owner: bool, s: JobState)
    requires Stopping(j, s) && JobSafe(Cancel(j, owner).1)
    ensures Stopping(Cancel(j, owner).1, s)
  {
    if owner {
      CancelLeaves(j);
    } else {
      CancelRefused(j);
    }
  }

  lemma DataErrorStopping(j: Job, r: Reason, s: JobState)
    requires Stopping(j, s) && JobSafe(DoCancel(j, Aborted, r)) && r != ToStopPoint
    ensures Stopping(DoCancel(j, Aborted, r), s) <==>
              !(s == Canceled && j.state == Processing && r in Before(j.reasons, ToStopPoint))
  {
    var k := DoCancel(j, Aborted, r);
    if j.state != Processing {
      StopAfterEnd(j, Aborted, r);
    } else {
      AddKeepsIff(j.reasons, r, ToStopPoint);
      if ToStopPoint in Add(j.reasons, r) {
        StopOnlyOnce(j, Aborted, r);
      } else {
        StopKills(j, Aborted, r);
        assert AllKilled(j, k);
        KillingLeaves(j, k);
      }
    }
  }

  lemma MessageErrorStopping(j: Job, s: JobState)
    requires Stopping(j, s) && JobSafe(MessageFailure(j))
    ensures Stopping(MessageFailure(j), s) <==> !(s == Aborted && !Left(j))
  {
    MessageFailureLeaves(j);
  }

  lemma QuietStopping(j: Job, owner: bool, usable: bool, spooling: Spooling, s: JobState)
    requires Stopping(j, s)
    ensures AddDocument(j, owner, usable).1 == j && Start(j, owner, spooling).1 == j
  {
    assert j.releases == 1 && j.spooled && !j.document;
    AddDocumentLeaves(j, owner, usable);
    StartRefused(j, owner, spooling);
  }

  lemma DataEndStopping(j: Job, s: JobState)
    requires Stopping(j, s) && JobSafe(CheckTransforming(j))
    ensures Stopping(CheckTransforming(j), s)
  {
    DataEndLeaves(j);
  }

  /** Exactly those events turn the job to another end. */
  lemma StoppingUnlessDiverted(p: Printer, e: Event, s: JobState)
    requires Safe(p) && Possible(p, e) && !e.CreateJob? && Stopping(p.jobs[e.i], s)
    ensures Stopping(JobAfter(p.jobs[e.i], e), s) <==> !Diverts(p.jobs[e.i], e, s)
  {
    var j := p.jobs[e.i];
    JobAfterSafe(p, e);
    match e
    case AddDocumentCall(_, owner, usable) => QuietStopping(j, owner, usable, Pdf, s);
    case StartCall(_, owner, spooling) => QuietStopping(j, owner, true, spooling, s);
    case CancelCall(_, owner) => CancelStopping(j, owner, s);
    case ChildExit(_, w, status) => ExitStopping(j, w, status, s);
    case DataError(_, reason) => DataErrorStopping(j, reason, s);
    case DataEnd(_) => DataEndStopping(j, s);
    case MessageError(_) => MessageErrorStopping(j, s);
    case _ =>
  }

  // The handlers

  lemma EngineNoteReasons(p: Printer, m: nat, l: Launch, i: nat)
    requires Queued(p, EngineNote(m, l)) && i < |p.jobs| && p.jobs[i].state != Pending
    ensures |OnEngineNote(p, m, l).jobs| == |p.jobs| && OnEngineNote(p, m, l).jobs[i].reasons == p.jobs[i].reasons
  {
    if Startable(p.jobs[m]) && p.state == PrinterIdle {
      StartJobSpares(WithJob(p, m, AfterEngineNote(p.jobs[m], true)), m, l, i);
    }
  }

  lemma PrinterStateNoteReasons(p: Printer, l: Launch, i: nat)
    requires Queued(p, PrinterStateNote(l)) && i < |p.jobs| && p.jobs[i].state != Pending
    ensures |OnPrinterStateNote(p, l).jobs| == |p.jobs| && OnPrinterStateNote(p, l).jobs[i].reasons == p.jobs[i].reasons
  {
    if p.state == PrinterIdle && NextJob(p.jobs).Some? {
      StartJobSpares(p.(notes := p.notes - 1), NextJob(p.jobs).value, l, i);
    }
  }

  /** No handler touches the reasons of a job that is processing. */
  lemma HandleReasons(p: Printer, n: Note, i: nat)
    requires Queued(p, n) && i < |p.jobs| && p.jobs[i].state == Processing
    ensures |Handle(p, n).jobs| == |p.jobs| && Handle(p, n).jobs[i].reasons == p.jobs[i].reasons
  {
    match n
    case EngineNote(m, l) => EngineNoteReasons(p, m, l, i);
    case PrinterStateNote(l) => PrinterStateNoteReasons(p, l, i);
    case SelfNote(m) =>
    case PrinterNote(m) =>
    case ReasonsNote(m) =>
  }

  lemma HandleStopping(p: Printer, n: Note, i: nat, s: JobState)
    requires Safe(p) && Queued(p, n) && i < |p.jobs| && Stopping(p.jobs[i], s)
    ensures |Handle(p, n).jobs| == |p.jobs| && Stopping(Handle(p, n).jobs[i], s)
  {
    HandleSafe(p, n);
    HandleSpares(p, n, i);
    if p.jobs[i].state == Processing {
      HandleReasons(p, n, i);
    }
  }

  // Runs

  ghost predicate Untouched(p: Printer, t: Step, i: nat, s: JobState)
    requires i < |p.jobs|
  {
    t.Outside? && !t.e.CreateJob? && t.e.i == i ==> !Diverts(p.jobs[i], t.e, s)
  }

  lemma NextStopping(p: Printer, t: Step, i: nat, s: JobState)
    requires Safe(p) && CanStep(p, t) && i < |p.jobs| && Stopping(p.jobs[i], s) && Untouched(p, t, i, s)
    ensures i < |Next(p, t).jobs| && Stopping(Next(p, t).jobs[i], s)
  {
    match t
    case Outside(e) =>
      if !e.CreateJob? && e.i == i {
        StoppingUnlessDiverted(p, e, s);
      }
    case Inside(n) => HandleStopping(p, n, i, s);
  }

  ghost predicate Undiverted(p: Printer, steps: seq<Step>, i: nat, s: JobState)
    decreases |steps|
  {
    steps == []
    || (CanStep(p, steps[0]) && i < |p.jobs| && Untouched(p, steps[0], i, s)
        && Undiverted(Next(p, steps[0]), steps[1..], i, s))
  }

  lemma {:induction false} RunStopping(rules: Rules, p: Printer, steps: seq<Step>, q: Printer, i: nat, s: JobState)
    requires Safe(p) && i < |p.jobs| && Stopping(p.jobs[i], s)
    requires Run(rules, p, steps, q) && Undiverted(p, steps, i, s)
    ensures i < |q.jobs| && Stopping(q.jobs[i], s)
    decreases |steps|
  {
    if steps != [] {
      NextSafe(p, steps[0]);
      NextStopping(p, steps[0], i, s);
      RunStopping(rules, Next(p, steps[0]), steps[1..], q, i, s);
    }
  }

  /** From the event that is accepted as a stop, over any run in which nothing diverts the job: while
      a child is left the outcome stands, and when none is left the job is in that state. */
  lemma StoppedRunEnds(p: Printer, i: nat, s: JobState, steps: seq<Step>, q: Printer)
    requires Reachable(ANY_RUN, p) && i < |p.jobs| && Stopping(p.jobs[i], s)
    requires Run(ANY_RUN, p, steps, q) && Undiverted(p, steps, i, s)
    ensures i < |q.jobs| && q.jobs[i].pendingState == s && (!Left(q.jobs[i]) ==> q.jobs[i].state == s)
  {
    ReachableSafe(ANY_RUN, p);
    RunStopping(ANY_RUN, p, steps, q, i, s);
  }

  lemma OccupiedIsLeft(p: Printer, i: nat)
    requires Reachable(ANY_RUN, p) && i < |p.jobs| && p.jobs[i].state == Processing && Occupied(p.jobs[i])
    ensures JobSafe(p.jobs[i]) && p.jobs[i].backend.started && Left(p.jobs[i])
  {
    var steps :| Run(ANY_RUN, NEW_PRINTER, steps, p);
    OrderGuard.RunAttended(ANY_RUN, NEW_PRINTER, steps, p);
    assert OrderGuard.Attended(p.jobs[i]);
    LeftIsRunning(p.jobs[i]);
  }

  /** The owner's Cancel, on a processing job with processes that is not being stopped. */
  lemma CancelMakesStopping(p: Printer, i: nat)
    requires Reachable(ANY_RUN, p) && i < |p.jobs| && p.jobs[i].state == Processing && Occupied(p.jobs[i])
    requires ToStopPoint !in p.jobs[i].reasons
    ensures Stopping(JobAfter(p.jobs[i], CancelCall(i, true)), Canceled)
    ensures AllKilled(p.jobs[i], JobAfter(p.jobs[i], CancelCall(i, true)))
  {
    OccupiedIsLeft(p, i);
    CancelKills(p.jobs[i]);
    CancelSafe(p.jobs[i], true);
    KillingLeaves(p.jobs[i], Cancel(p.jobs[i], true).1);
  }

  /** An error of the data pump, likewise. */
  lemma ErrorMakesStopping(p: Printer, i: nat, r: Reason)
    requires Reachable(ANY_RUN, p) && i < |p.jobs| && p.jobs[i].state == Processing && Possible(p, DataError(i, r))
    requires ToStopPoint !in p.jobs[i].reasons
    ensures Stopping(JobAfter(p.jobs[i], DataError(i, r)), Aborted)
    ensures AllKilled(p.jobs[i], JobAfter(p.jobs[i], DataError(i, r)))
  {
    var j := p.jobs[i];
    OccupiedIsLeft(p, i);
    StopKills(j, Aborted, r);
    DoCancelSafe(j, Aborted, r);
    KillingLeaves(j, DoCancel(j, Aborted, r));
  }

  /** Children that exit with status 0, and no error of the data pump. */
  predicate EndsWell(t: Step, i: nat) {
    t.Outside? ==>
      && (t.e.ChildExit? && t.e.i == i ==> t.e.status == 0)
      && !(t.e.DataError? && t.e.i == i)
  }

  lemma {:induction false} EndingWellIsUndiverted(p: Printer, steps: seq<Step>, q: Printer, i: nat)
    requires i < |p.jobs| && Run(ANY_RUN, p, steps, q)
    requires forall k :: 0 <= k < |steps| ==> EndsWell(steps[k], i)
    ensures Undiverted(p, steps, i, Canceled)
    decreases |steps|
  {
    if steps != [] {
      assert EndsWell(steps[0], i);
      MoreJobs(p, steps[0]);
      forall k | 0 <= k < |steps| - 1 ensures EndsWell(steps[1..][k], i) {
        assert EndsWell(steps[k + 1], i);
      }
      EndingWellIsUndiverted(Next(p, steps[0]), steps[1..], q, i);
    }
  }

  lemma MoreJobs(p: Printer, t: Step)
    requires CanStep(p, t)
    ensures |p.jobs| <= |Next(p, t).jobs|
  {
  }

  /** So a job canceled while it runs ends CANCELED when its children exit with status 0, whatever
      else is called and in whatever order they exit. */
  lemma CanceledEndsCanceled(p: Printer, i: nat, steps: seq<Step>, q: Printer)
    requires Reachable(ANY_RUN, p) && Quiescent(p) && i < |p.jobs|
    requires p.jobs[i].state == Processing && Occupied(p.jobs[i]) && ToStopPoint !in p.jobs[i].reasons
    requires Run(ANY_RUN, Happen(p, CancelCall(i, true)), steps, q)
    requires forall k :: 0 <= k < |steps| ==> EndsWell(steps[k], i)
    ensures i < |q.jobs| && q.jobs[i].pendingState == Canceled
    ensures !Left(q.jobs[i]) ==> q.jobs[i].state == Canceled
  {
    var c := Happen(p, CancelCall(i, true));
    CancelMakesStopping(p, i);
    ReachableSafe(ANY_RUN, p);
    HappenSafe(p, CancelCall(i, true));
    EndingWellIsUndiverted(c, steps, q, i);
    RunStopping(ANY_RUN, c, steps, q, i, Canceled);
  }

  // That end can be reached

  lemma {:induction false} CascadeStopping(p: Printer, steps: seq<Step>, q: Printer, i: nat, s: JobState)
    requires Safe(p) && i < |p.jobs| && Stopping(p.jobs[i], s) && Cascade(p, steps, q)
    ensures Safe(q) && i < |q.jobs| && Stopping(q.jobs[i], s)
    ensures q.jobs[i].filters == p.jobs[i].filters && q.jobs[i].backend == p.jobs[i].backend
    decreases |steps|
  {
    if steps != [] {
      assert steps[0].Inside?;
      Cascades.CascadeTail(p, steps, q);
      HandleSafe(p, steps[0].n);
      HandleSpares(p, steps[0].n, i);
      HandleStopping(p, steps[0].n, i, s);
      CascadeStopping(Next(p, steps[0]), steps[1..], q, i, s);
    }
  }

  lemma SomeoneLeft(j: Job) returns (w: ProcessId)
    requires JobSafe(j) && j.backend.started && Left(j)
    ensures CanExit(j, w) && Get(j, w).Running()
  {
    if j.backend.Running() {
      w := Backend;
    } else {
      var k: nat :| k < |j.filters| && j.filters[k].started && !j.filters[k].finished;
      w := Filter(k);
    }
  }

  lemma OneLess(p: Printer, i: nat, w: ProcessId, s: JobState)
    requires Safe(p) && i < |p.jobs| && Stopping(p.jobs[i], s) && CanExit(p.jobs[i], w) && Get(p.jobs[i], w).Running()
    ensures var q := Happen(p, ChildExit(i, w, 0));
            && Safe(q) && i < |q.jobs| && Stopping(q.jobs[i], s)
            && OrderGuard.RunningFilters(q, i) <= OrderGuard.RunningFilters(p, i)
            && (w.Filter? ==> OrderGuard.RunningFilters(q, i) < OrderGuard.RunningFilters(p, i))
            && (w.Backend? ==> !OrderGuard.BackendRuns(q, i))
  {
    var e := ChildExit(i, w, 0);
    HappenSafe(p, e);
    StoppingUnlessDiverted(p, e, s);
    ExitPuts(p.jobs[i], w, 0);
    OrderGuard.LessToReap(p, Happen(p, e), i, w, 0);
  }

  lemma ExitPuts(j: Job, w: ProcessId, status: int)
    requires Has(j, w)
    ensures SameProcesses(Put(j, w, Get(j, w).(finished := true, status := status)), Exit(j, w, status))
  {
    JudgedAndSettled(Reap(j, w, status), status);
  }

  /** Reaping the children that are left, with status 0, ends the job in that state. */
  lemma {:induction false} StoppedCanEnd(p: Printer, i: nat, s: JobState) returns (steps: seq<Step>, q: Printer)
    requires Safe(p) && i < |p.jobs| && Stopping(p.jobs[i], s)
    ensures Run(ANY_RUN, p, steps, q) && i < |q.jobs| && !Left(q.jobs[i]) && q.jobs[i].state == s
    decreases OrderGuard.RunningFilters(p, i), OrderGuard.BackendRuns(p, i)
  {
    var first, r := Cascades.CascadeComesToRest(p);
    CascadeStopping(p, first, r, i, s);
    Runs.CascadeIsRun(ANY_RUN, p, first, r);
    assert OrderGuard.RunningFilters(r, i) == OrderGuard.RunningFilters(p, i);
    if !Left(r.jobs[i]) {
      return first, r;
    }
    var w := SomeoneLeft(r.jobs[i]);
    var t := Outside(ChildExit(i, w, 0));
    Runs.RunThen(ANY_RUN, p, first, r, t);
    OneLess(r, i, w, s);
    var rest;
    rest, q := StoppedCanEnd(Next(r, t), i, s);
    Runs.RunConcat(ANY_RUN, p, first + [t], Next(r, t), rest, q);
    steps := first + [t] + rest;
  }
}
