/** When two jobs of one printer are in state PROCESSING. The printer's handler takes the end of any
    job for the end of the one it is processing. */
module TwoProcessing {
  import opened StateReasons
  import opened JobModel
  import opened JobSafety
  import opened PrinterModel
  import opened PrinterSafety
  import opened DeviceExclusion
  import opened WithoutTheRules
  import Cascades
  import DeviceLoss
  import Runs
  import Scheduling
  import StartGuard

  ghost predicate TwoInProcess(p: Printer) {
    exists i, k :: 0 <= i < k < |p.jobs| && p.jobs[i].state == Processing && p.jobs[k].state == Processing
  }

  /** Job `m` is the one that is PROCESSING. */
  ghost predicate OnlyOne(p: Printer, m: nat) {
    m < |p.jobs| && forall k :: 0 <= k < |p.jobs| ==> (p.jobs[k].state == Processing <==> k == m)
  }

  ghost predicate SomePending(p: Printer) {
    exists k :: 0 <= k < |p.jobs| && p.jobs[k].state == Pending
  }

  /** The event sets its job a terminal state. */
  ghost predicate EndsJob(p: Printer, e: Event)
    requires Possible(p, e) && !e.CreateJob? && !e.MessageLine?
  {
    var j, k := p.jobs[e.i], JobAfter(p.jobs[e.i], e);
    k.state.Terminal() && j.printerNotes < k.printerNotes
  }

  ghost predicate SameStates(p: Printer, q: Printer) {
    |q.jobs| == |p.jobs| && forall k :: 0 <= k < |p.jobs| ==> q.jobs[k].state == p.jobs[k].state
  }

  // Cascades in which no job changes its state

  /** The printer is busy and has not been told of an end. */
  ghost predicate Calm(p: Printer) {
    p.state != PrinterIdle && forall k :: 0 <= k < |p.jobs| && p.jobs[k].state.Terminal() ==> p.jobs[k].printerNotes == 0
  }

  lemma HandleCalm(p: Printer, n: Note)
    requires Calm(p) && Queued(p, n)
    ensures Calm(Handle(p, n)) && SameStates(p, Handle(p, n))
  {
  }

  lemma {:induction false} CascadeCalm(p: Printer, steps: seq<Step>, q: Printer)
    requires Calm(p) && Cascade(p, steps, q)
    ensures SameStates(p, q)
    decreases |steps|
  {
    if steps != [] {
      assert steps[0].Inside?;
      Cascades.CascadeTail(p, steps, q);
      HandleCalm(p, steps[0].n);
      CascadeCalm(Next(p, steps[0]), steps[1..], q);
    }
  }

  lemma HandleNoPending(p: Printer, n: Note)
    requires !SomePending(p) && Queued(p, n)
    ensures SameStates(p, Handle(p, n)) && !SomePending(Handle(p, n))
  {
    HandleKeepsCount(p, n);
    forall k | 0 <= k < |p.jobs| ensures Handle(p, n).jobs[k].state == p.jobs[k].state {
      assert p.jobs[k].state != Pending;
      HandleSpares(p, n, k);
    }
  }

  lemma HandleKeepsCount(p: Printer, n: Note)
    requires Queued(p, n)
    ensures |Handle(p, n).jobs| == |p.jobs|
  {
  }

  lemma {:induction false} CascadeNoPending(p: Printer, steps: seq<Step>, q: Printer)
    requires !SomePending(p) && Cascade(p, steps, q)
    ensures SameStates(p, q)
    decreases |steps|
  {
    if steps != [] {
      assert steps[0].Inside?;
      Cascades.CascadeTail(p, steps, q);
      HandleNoPending(p, steps[0].n);
      CascadeNoPending(Next(p, steps[0]), steps[1..], q);
    }
  }

  /** Some order of the handlers, and some outcome of launching, ends with two. */
  ghost predicate CanEndWithTwo(p: Printer) {
    exists steps, q :: Cascade(p, steps, q) && Quiescent(q) && TwoInProcess(q)
  }

  lemma FirstHandle(p: Printer, n: Note)
    requires Queued(p, n) && CanEndWithTwo(Handle(p, n))
    ensures CanEndWithTwo(p)
  {
    var steps, q :| Cascade(Handle(p, n), steps, q) && Quiescent(q) && TwoInProcess(q);
    var all := [Inside(n)] + steps;
    assert all[1..] == steps;
    assert Run(ANY_RUN, p, all, q);
    assert Cascade(p, all, q);
  }

  lemma CalmKeepsTwo(p: Printer)
    requires Calm(p) && TwoInProcess(p)
    ensures CanEndWithTwo(p)
  {
    var steps, q := Cascades.CascadeComesToRest(p);
    CascadeCalm(p, steps, q);
    assert TwoInProcess(q);
  }

  // What the event does

  /** One event notifies once, and only Start makes a job pending. */
  ghost predicate OneChange(j: Job, k: Job) {
    && k.printerNotes <= j.printerNotes + 1
    && (k.state == j.state || k.state.Terminal())
    && (k.state != j.state ==> k.printerNotes == j.printerNotes + 1)
  }

  lemma StopOneChange(j: Job, s: JobState)
    requires s.Stopped()
    ensures OneChange(j, Stop(j, s))
  {
    StopCases(j, s);
    var c := CheckTransforming(j);
    StopRunningOneChange(c, s);
    StopCaseOneChange(j, c, s, Stop(j, s));
  }

  lemma StopRunningOneChange(c: Job, s: JobState)
    ensures StopRunning(c, s).printerNotes == c.printerNotes && StopRunning(c, s).state == c.state
  {
    assert Kill(c, s).printerNotes == c.printerNotes && Kill(c, s).state == c.state;
  }

  lemma StopCaseOneChange(j: Job, c: Job, s: JobState, d: Job)
    requires s.Stopped() && c == CheckTransforming(j) && (d == StopNow(c, s) || d == c || d == StopRunning(c, s))
    ensures OneChange(j, d)
  {
    StopRunningOneChange(c, s);
  }

  lemma DoCancelOneChange(j: Job, s: JobState, r: Reason)
    requires s.Stopped()
    ensures OneChange(j, DoCancel(j, s, r))
  {
    StopOneChange(AddReason(j, r), s);
    DoCancelCases(j, s, r);
  }

  lemma CancelOneChange(j: Job, owner: bool)
    ensures OneChange(j, Cancel(j, owner).1)
  {
    DoCancelOneChange(j, Canceled, CanceledByUser);
    DoCancelOneChange(CheckTransforming(j), Canceled, CanceledByUser);
    CancelCases(j, owner);
  }

  lemma ExitOneChange(j: Job, w: ProcessId, status: int)
    requires JobSafe(j) && CanExit(j, w)
    ensures OneChange(j, Exit(j, w, status))
  {
    ExitSafe(j, w, status);
    var f := Judge(Reap(j, w, status), status);
    ReapQuietly(j, w, status);
    assert Exit(j, w, status) == Settle(f);
    assert JobSafe(Settle(f)) && Settle(f).trace[|Settle(f).trace| - 1] == Settle(f).state;
  }

  lemma ReapQuietly(j: Job, w: ProcessId, status: int)
    requires Has(j, w)
    ensures var f := Judge(Reap(j, w, status), status);
            f.printerNotes == j.printerNotes && f.state == j.state && f.trace == j.trace
  {
    var k := Put(j, w, Get(j, w).(finished := true, status := status));
    assert k.printerNotes == j.printerNotes && k.state == j.state && k.trace == j.trace;
    ReasonQuiet(k, Reap(j, w, status));
  }

  lemma ReasonQuiet(k: Job, r: Job)
    requires r == RemoveReason(k, Outgoing) || r == CheckTransforming(k)
    ensures r.printerNotes == k.printerNotes && r.state == k.state && r.trace == k.trace
  {
  }

  lemma JobAfterOneChange(p: Printer, e: Event)
    requires Safe(p) && Possible(p, e) && !e.CreateJob? && !e.MessageLine? && !e.StartCall?
    ensures OneChange(p.jobs[e.i], JobAfter(p.jobs[e.i], e))
  {
    var j := p.jobs[e.i];
    match e
    case CancelCall(_, owner) => CancelOneChange(j, owner);
    case ChildExit(_, w, status) => ExitOneChange(j, w, status);
    case DataError(_, reason) => DoCancelOneChange(j, Aborted, reason);
    case _ =>
  }

  lemma StartOneChange(j: Job, owner: bool, spooling: Spooling)
    ensures var k := Start(j, owner, spooling).1;
            OneChange(j, k) || (k.state == Pending && k.printerNotes == j.printerNotes + 1)
  {
    DoCancelOneChange(j.(spooled := true, document := false), Aborted, AbortedBySystem);
  }

  /** A job that an event is about does not become PROCESSING, and is notified of once. */
  lemma AfterEvent(p: Printer, e: Event)
    requires Safe(p) && Possible(p, e) && !e.CreateJob? && !e.MessageLine?
    ensures var j, k := p.jobs[e.i], JobAfter(p.jobs[e.i], e);
            k.printerNotes <= j.printerNotes + 1 && (k.state == Processing ==> j.state == Processing)
  {
    if e.StartCall? {
      StartOneChange(p.jobs[e.i], e.owner, e.spooling);
    } else {
      JobAfterOneChange(p, e);
    }
  }

  lemma OthersAfter(p: Printer, m: nat, e: Event)
    requires Safe(p) && OnlyOne(p, m) && Possible(p, e) && !e.CreateJob? && !e.MessageLine? && e.i != m
    ensures OnlyOne(Happen(p, e), m)
  {
    AfterEvent(p, e);
  }

  lemma OneIsNotTwo(p: Printer, m: nat, q: Printer)
    requires OnlyOne(p, m) && SameStates(p, q)
    ensures !TwoInProcess(q)
  {
  }

  // When it cannot end with two

  lemma StaysOne(p: Printer, m: nat)
    requires OnlyOne(p, m) && (!SomePending(p) || Calm(p))
    ensures !CanEndWithTwo(p)
  {
    forall steps, q | Cascade(p, steps, q) ensures !TwoInProcess(q) {
      if Calm(p) {
        CascadeCalm(p, steps, q);
      } else {
        CascadeNoPending(p, steps, q);
      }
      OneIsNotTwo(p, m, q);
    }
  }

  lemma BusyStaysCalm(p: Printer, e: Event)
    requires Quiescent(p) && p.state != PrinterIdle && Possible(p, e) && !e.CreateJob? && !e.MessageLine?
    requires !EndsJob(p, e)
    ensures Calm(Happen(p, e))
  {
    assert forall k :: 0 <= k < |p.jobs| ==> JobQuiet(p.jobs[k]);
  }

  // When it can

  lemma SendProcessing(j: Job)
    requires JobSafe(j) && j.state == Pending
    ensures Send(j, Launched(1)).state == Processing
  {
    assert j.filters == [] && j.backend == NEVER_RUN;
  }

  /** Starting a job beside the one that is PROCESSING. */
  lemma StartMakesTwo(p: Printer, m: nat, k: nat)
    requires m < |p.jobs| && p.jobs[m].state == Processing
    requires k < |p.jobs| && JobSafe(p.jobs[k]) && p.jobs[k].state == Pending
    requires forall i :: 0 <= i < |p.jobs| && p.jobs[i].state.Terminal() ==> p.jobs[i].printerNotes == 0
    ensures Calm(StartJob(p, k, Launched(1))) && TwoInProcess(StartJob(p, k, Launched(1)))
  {
    SendProcessing(p.jobs[k]);
    var q := StartJob(p, k, Launched(1));
    assert q.jobs[m].state == Processing && q.jobs[k].state == Processing && q.state == PrinterProcessing;
    if m < k {
      assert TwoInProcess(q);
    } else {
      assert q.jobs[k].state == Processing && q.jobs[m].state == Processing && k < m;
    }
  }

  lemma IdleCanEndWithTwo(p: Printer, m: nat, i: nat)
    requires m < |p.jobs| && p.jobs[m].state == Processing && p.state == PrinterIdle
    requires i < |p.jobs| && JobSafe(p.jobs[i]) && p.jobs[i].state == Pending
    requires p.jobs[i].engineWatch && 0 < p.jobs[i].engineNotes
    requires forall k :: 0 <= k < |p.jobs| && p.jobs[k].state.Terminal() ==> p.jobs[k].printerNotes == 0
    ensures CanEndWithTwo(p)
  {
    var j := AfterEngineNote(p.jobs[i], true);
    ConsumedSafe(p.jobs[i], j);
    var q := WithJob(p, i, j);
    StartMakesTwo(q, m, i);
    CalmKeepsTwo(StartJob(q, i, Launched(1)));
    FirstHandle(p, EngineNote(i, Launched(1)));
  }

  lemma IdledCanEndWithTwo(p: Printer, m: nat)
    requires Safe(p) && m < |p.jobs| && p.jobs[m].state == Processing && p.state == PrinterIdle
    requires 0 < p.notes && SomePending(p)
    requires forall k :: 0 <= k < |p.jobs| && p.jobs[k].state.Terminal() ==> p.jobs[k].printerNotes == 0
    ensures CanEndWithTwo(p)
  {
    var k := NextJob(p.jobs).value;
    assert JobSafe(p.jobs[k]);
    StartMakesTwo(p.(notes := p.notes - 1), m, k);
    CalmKeepsTwo(StartJob(p.(notes := p.notes - 1), k, Launched(1)));
    FirstHandle(p, PrinterStateNote(Launched(1)));
  }

  /** The printer hears of the end of job `i` and becomes idle. */
  lemma EndCanEndWithTwo(p: Printer, m: nat, i: nat)
    requires Safe(p) && m < |p.jobs| && p.jobs[m].state == Processing && p.state == PrinterProcessing
    requires i < |p.jobs| && p.jobs[i].state.Terminal() && p.jobs[i].printerNotes == 1 && SomePending(p)
    requires forall k :: 0 <= k < |p.jobs| && k != i ==> p.jobs[k].printerNotes == 0
    ensures CanEndWithTwo(p)
  {
    var q := OnPrinterNote(p, i);
    HandleSafe(p, PrinterNote(i));
    var k :| 0 <= k < |p.jobs| && p.jobs[k].state == Pending;
    assert q.jobs[k].state == Pending;
    IdledCanEndWithTwo(q, m);
    FirstHandle(p, PrinterNote(i));
  }

  lemma OnlyStartMakesPending(p: Printer, e: Event)
    requires Guarded(p) && Possible(p, e) && Obeys(HELD_ONLY, p, e) && !e.CreateJob? && !e.MessageLine?
    requires Quiescent(p) && !SomePending(p) && SomePending(Happen(p, e))
    ensures var k := Happen(p, e).jobs[e.i]; k.state == Pending && k.engineWatch && 0 < k.engineNotes
  {
    var k :| 0 <= k < |p.jobs| && Happen(p, e).jobs[k].state == Pending;
    assert k == e.i && JobHeld(p.jobs[e.i]);
    if e.StartCall? {
      Scheduling.StartReleases(p.jobs[e.i], e.owner, e.spooling);
    } else {
      Scheduling.PendingByStart(p.jobs[e.i], e);
    }
  }

  lemma IdleHasNonePending(p: Printer)
    requires Reachable(HELD_ONLY, p) && Quiescent(p) && p.state == PrinterIdle
    ensures !SomePending(p)
  {
    forall k | 0 <= k < |p.jobs| ensures p.jobs[k].state != Pending {
      Scheduling.IdleMeansNothingPending(p, k);
    }
  }

  lemma ReachableNotStopped(p: Printer)
    requires Reachable(HELD_ONLY, p)
    ensures p.state != PrinterStopped
  {
    var steps :| Run(HELD_ONLY, NEW_PRINTER, steps, p);
    DeviceLoss.RunNotStopped(HELD_ONLY, NEW_PRINTER, steps, p);
  }

  lemma StartCanEndWithTwo(p: Printer, m: nat, e: Event)
    requires Reachable(HELD_ONLY, p) && Quiescent(p) && Guarded(p) && OnlyOne(p, m) && p.state == PrinterIdle
    requires Possible(p, e) && Obeys(HELD_ONLY, p, e) && !e.CreateJob? && !e.MessageLine? && e.i != m
    requires SomePending(Happen(p, e))
    ensures CanEndWithTwo(Happen(p, e))
  {
    HappenSafe(p, e);
    IdleHasNonePending(p);
    OnlyStartMakesPending(p, e);
    var r := Happen(p, e);
    forall k | 0 <= k < |r.jobs| && r.jobs[k].state.Terminal() ensures r.jobs[k].printerNotes == 0 {
      assert k != e.i && JobQuiet(p.jobs[k]);
    }
    assert JobSafe(r.jobs[e.i]);
    IdleCanEndWithTwo(r, m, e.i);
  }

  lemma EndingCanEndWithTwo(p: Printer, m: nat, e: Event)
    requires Quiescent(p) && Safe(p) && OnlyOne(p, m) && p.state == PrinterProcessing
    requires Possible(p, e) && !e.CreateJob? && !e.MessageLine? && e.i != m
    requires SomePending(Happen(p, e)) && EndsJob(p, e)
    ensures CanEndWithTwo(Happen(p, e))
  {
    HappenSafe(p, e);
    AfterEvent(p, e);
    var r := Happen(p, e);
    forall k | 0 <= k < |r.jobs| && k != e.i ensures r.jobs[k].printerNotes == 0 {
      assert JobQuiet(p.jobs[k]);
    }
    assert JobQuiet(p.jobs[e.i]);
    EndCanEndWithTwo(r, m, e.i);
  }

  /** Let one job of a printer at rest be PROCESSING, and an event be about another. Some order of
      the handlers ends with two PROCESSING if and only if a job is pending after the event and
      either the printer was idle or the event ends its job. */
  lemma TwoProcessingIff(p: Printer, m: nat, e: Event)
    requires Reachable(HELD_ONLY, p) && Quiescent(p) && OnlyOne(p, m)
    requires Possible(p, e) && Obeys(HELD_ONLY, p, e) && !e.CreateJob? && !e.MessageLine? && e.i != m
    ensures CanEndWithTwo(Happen(p, e)) <==> SomePending(Happen(p, e)) && (p.state == PrinterIdle || EndsJob(p, e))
  {
    ReachableGuarded(HELD_ONLY, p);
    ReachableNotStopped(p);
    OthersAfter(p, m, e);
    if SomePending(Happen(p, e)) && (p.state == PrinterIdle || EndsJob(p, e)) {
      if p.state == PrinterIdle {
        StartCanEndWithTwo(p, m, e);
      } else {
        EndingCanEndWithTwo(p, m, e);
      }
    } else {
      if SomePending(Happen(p, e)) {
        BusyStaysCalm(p, e);
      }
      StaysOne(Happen(p, e), m);
    }
  }

  // A run to such a printer

  function Three(k: Job): Printer {
    Printer(PrinterProcessing, true, [RUNNING, READY, k], 0, [])
  }

  /** One job runs, a second has been started and waits, a third is held. */
  lemma OneRunsOneWaits(rules: Rules)
    ensures At(rules, Three(NEW_JOB))
  {
    OneRuns(rules);
    CreateWithDocument(rules, ONE_RUNNING);
    assert [RUNNING] + [HELD] == [RUNNING, HELD];
    var p := Printer(PrinterProcessing, true, [RUNNING, HELD], 0, []);
    Releases();
    EventSettles(rules, p, StartGuard.StartPdf(1));
    assert p.jobs[1 := READY] == [RUNNING, READY];
    var q := p.(jobs := [RUNNING, READY]);
    Create(rules, q);
    assert q.jobs + [NEW_JOB] == Three(NEW_JOB).jobs;
  }

  /** Cancelling the third starts the second, while the first runs. */
  lemma TwoAreProcessing() returns (p: Printer)
    ensures Reachable(HELD_AND_QUIET, p) && |p.jobs| == 3 && p.jobs[0].backend.Running()
    ensures p.jobs[0].state == Processing && p.jobs[1].state == Processing
  {
    OneRunsOneWaits(HELD_AND_QUIET);
    CancelsNew();
    var q := Three(NEW_JOB);
    var j := Cancel(NEW_JOB, true).1;
    EventOn(HELD_AND_QUIET, q, CancelCall(2, true));
    Ends(HELD_AND_QUIET, q, 2, j);
    var k := TakePrinterNote(AfterSelfNote(j));
    ThreeWith(k);
    p := SecondStarts(k);
  }

  lemma ThreeWith(k: Job)
    ensures WithJob(Three(NEW_JOB), 2, k) == Three(k)
  {
    assert Three(NEW_JOB).jobs[2 := k] == Three(k).jobs;
  }

  lemma SecondStarts(k: Job) returns (p: Printer)
    requires Reachable(HELD_AND_QUIET, Three(k).(state := PrinterIdle, notes := 1))
    ensures Reachable(HELD_AND_QUIET, p) && |p.jobs| == 3 && p.jobs[0].backend.Running()
    ensures p.jobs[0].state == Processing && p.jobs[1].state == Processing
  {
    var r := Three(k).(state := PrinterIdle, notes := 1);
    assert r.jobs[0].state != Pending && r.jobs[1].state == Pending;
    assert NextJob(r.jobs) == Some(1);
    Runs.ReachNext(HELD_AND_QUIET, r, Inside(PrinterStateNote(Launched(1))));
    p := Handle(r, PrinterStateNote(Launched(1)));
    assert p.jobs[0] == RUNNING && p.jobs[1] == SetState(READY, Processing);
  }
}
