/** Two runs that show what the rules of the other modules are for: one in which a job that was
    canceled while held is started (device exclusion fails), and one in which a message channel
    fails (the order of job states fails). */
module WithoutTheRules {
  import opened StateReasons
  import opened JobModel
  import opened PrinterModel
  import DeviceGuard
  import Runs
  import StartGuard

  /** Message channels do not fail, but Start may be called on any job. */
  const QUIET_ONLY := Rules(false, true)

  ghost predicate At(rules: Rules, p: Printer) {
    Reachable(rules, p) && Quiescent(p)
  }

  // Handling what changes nothing but the queues

  function Quieted(j: Job): Job {
    j.(selfNotes := 0, engineNotes := 0, printerNotes := 0, reasonNotes := 0)
  }

  ghost predicate Inert(p: Printer, j: Job) {
    && !(j.selfWatch && j.state.Terminal())
    && !(j.engineWatch && j.state != PendingHeld && (j.state == Pending ==> p.state == PrinterIdle))
    && !(j.state.Terminal() && p.state == PrinterProcessing)
    && !LetsGo(j)
  }

  function Notes(j: Job): nat {
    j.selfNotes + j.engineNotes + j.printerNotes + j.reasonNotes
  }

  lemma TakeOne(p: Printer, i: nat) returns (n: Note)
    requires i < |p.jobs| && Inert(p, p.jobs[i]) && 0 < Notes(p.jobs[i])
    ensures Queued(p, n) && Handle(p, n) == WithJob(p, i, Handle(p, n).jobs[i])
    ensures var k := Handle(p, n).jobs[i]; Notes(k) < Notes(p.jobs[i]) && Quieted(k) == Quieted(p.jobs[i])
  {
    var j := p.jobs[i];
    n := if 0 < j.selfNotes then SelfNote(i)
         else if 0 < j.engineNotes then EngineNote(i, NoSetup)
         else if 0 < j.printerNotes then PrinterNote(i)
         else ReasonsNote(i);
  }

  lemma {:induction false} Drain(rules: Rules, p: Printer, i: nat)
    requires Reachable(rules, p) && i < |p.jobs| && Inert(p, p.jobs[i])
    ensures Reachable(rules, WithJob(p, i, Quieted(p.jobs[i])))
    decreases if i < |p.jobs| then Notes(p.jobs[i]) else 0
  {
    var j := p.jobs[i];
    if Notes(j) == 0 {
      assert Quieted(j) == j && WithJob(p, i, j) == p;
    } else {
      var n := TakeOne(p, i);
      Runs.ReachNext(rules, p, Inside(n));
      var q := Handle(p, n);
      Drain(rules, q, i);
      assert WithJob(q, i, Quieted(j)) == WithJob(p, i, Quieted(j));
    }
  }

  lemma {:induction false} DrainPrinter(rules: Rules, p: Printer)
    requires Reachable(rules, p) && !(p.state == PrinterIdle && NextJob(p.jobs).Some?)
    ensures Reachable(rules, p.(notes := 0))
    decreases p.notes
  {
    if p.notes > 0 {
      Runs.ReachNext(rules, p, Inside(PrinterStateNote(NoSetup)));
      DrainPrinter(rules, p.(notes := p.notes - 1));
    } else {
      assert p.(notes := 0) == p;
    }
  }

  // Stages of a job that goes through without trouble

  const HELD: Job := NEW_JOB.(document := true)

  const RELEASED: Job := Job(Pending, [], Unset, false, true, [], NEVER_RUN,
                             true, true, false, 1, 1, 1, 1, [PendingHeld, Pending], None, 1, 0)

  const RUNNING: Job := Job(Processing, [Outgoing, Transforming], Completed, false, true, [WATCHED], WATCHED,
                            true, false, true, 0, 0, 0, 0, [PendingHeld, Pending, Processing], None, 1, 1)

  lemma Releases()
    ensures Start(HELD, true, Pdf).1 == RELEASED
  {
    assert Remove([Incoming], Incoming) == [];
    var k := RemoveReason(HELD.(spooled := true, document := false), Incoming);
    assert Traced(k, Pending) == [PendingHeld, Pending];
    assert Start(HELD, true, Pdf).1 == SetState(k, Pending).(releases := 1);
  }

  lemma Launches()
    ensures Quieted(Send(AfterEngineNote(RELEASED, true), Launched(1))) == RUNNING
  {
    assert Chain(1, 1, WATCHED) == [WATCHED];
  }

  lemma Create(rules: Rules, p: Printer)
    requires At(rules, p)
    ensures At(rules, p.(jobs := p.jobs + [NEW_JOB]))
  {
    Runs.ReachNext(rules, p, Outside(Event.CreateJob));
  }

  lemma CreateWithDocument(rules: Rules, p: Printer)
    requires At(rules, p)
    ensures At(rules, p.(jobs := p.jobs + [HELD]))
  {
    Create(rules, p);
    var q := p.(jobs := p.jobs + [NEW_JOB]);
    var s := Outside(AddDocumentCall(|p.jobs|, true, true));
    Runs.ReachNext(rules, q, s);
    assert Next(q, s).jobs == p.jobs + [HELD];
  }

  lemma LaunchNote(p: Printer, i: nat)
    requires p.state == PrinterIdle && !p.jobOutgoing && p.notes == 0 && i < |p.jobs| && p.jobs[i] == RELEASED
    ensures var j := Send(AfterEngineNote(RELEASED, true), Launched(1));
            OnEngineNote(p, i, Launched(1)) == Printer(PrinterProcessing, true, p.jobs[i := j], 1, p.reasons)
  {
  }

  /** A job on its way, on a printer that was told. */
  lemma Rest(rules: Rules, p: Printer, i: nat, j: Job)
    requires i < |p.jobs| && Quiescent(p) && p.state == PrinterProcessing && Inert(p, j)
    requires Reachable(rules, WithJob(p, i, j).(notes := 1))
    ensures At(rules, WithJob(p, i, Quieted(j)))
  {
    var q := WithJob(p, i, j).(notes := 1);
    Drain(rules, q, i);
    var r := WithJob(q, i, Quieted(j));
    DrainPrinter(rules, r);
    assert r.jobs == p.jobs[i := Quieted(j)];
    assert r.(notes := 0) == WithJob(p, i, Quieted(j));
  }

  /** A held job is started on an idle printer and its processes run. */
  lemma Launch(rules: Rules, p: Printer, i: nat)
    requires At(rules, p) && p.state == PrinterIdle && !p.jobOutgoing && i < |p.jobs| && p.jobs[i] == HELD
    ensures At(rules, p.(state := PrinterProcessing, jobOutgoing := true, jobs := p.jobs[i := RUNNING]))
  {
    Releases();
    Runs.ReachNext(rules, p, Outside(StartGuard.StartPdf(i)));
    var q := WithJob(p, i, RELEASED);
    Runs.ReachNext(rules, q, Inside(EngineNote(i, Launched(1))));
    LaunchNote(q, i);
    Launches();
    var j := Send(AfterEngineNote(RELEASED, true), Launched(1));
    var r := p.(state := PrinterProcessing, jobOutgoing := true);
    assert q.jobs[i := j] == p.jobs[i := j];
    assert Handle(q, EngineNote(i, Launched(1))) == WithJob(r, i, j).(notes := 1);
    Rest(rules, r, i, j);
  }

  /** An event after which the job only has to wait. */
  lemma EventSettles(rules: Rules, p: Printer, e: Event)
    requires At(rules, p) && Possible(p, e) && Obeys(rules, p, e) && !e.CreateJob? && !e.MessageLine?
    requires Inert(p, JobAfter(p.jobs[e.i], e))
    ensures At(rules, WithJob(p, e.i, Quieted(JobAfter(p.jobs[e.i], e))))
  {
    Runs.ReachNext(rules, p, Outside(e));
    var q := Happen(p, e);
    Drain(rules, q, e.i);
    assert q.jobs[e.i := Quieted(q.jobs[e.i])] == p.jobs[e.i := Quieted(q.jobs[e.i])];
  }

  lemma EventOn(rules: Rules, p: Printer, e: Event)
    requires At(rules, p) && Possible(p, e) && Obeys(rules, p, e) && !e.CreateJob? && !e.MessageLine?
    ensures Reachable(rules, WithJob(p, e.i, JobAfter(p.jobs[e.i], e)))
  {
    Runs.ReachNext(rules, p, Outside(e));
  }

  lemma SelfNoteOn(rules: Rules, p: Printer, i: nat, j: Job)
    requires i < |p.jobs| && 0 < j.selfNotes && Reachable(rules, WithJob(p, i, j))
    ensures Reachable(rules, WithJob(p, i, AfterSelfNote(j)))
  {
    Runs.ReachNext(rules, WithJob(p, i, j), Inside(SelfNote(i)));
    assert p.jobs[i := j][i := AfterSelfNote(j)] == p.jobs[i := AfterSelfNote(j)];
  }

  lemma ReasonsNoteOn(rules: Rules, p: Printer, i: nat, j: Job)
    requires i < |p.jobs| && 0 < j.reasonNotes && LetsGo(j) && Reachable(rules, WithJob(p, i, j))
    ensures Reachable(rules, WithJob(p, i, AfterReasonsNote(j)).(jobOutgoing := false))
  {
    Runs.ReachNext(rules, WithJob(p, i, j), Inside(ReasonsNote(i)));
    assert p.jobs[i := j][i := AfterReasonsNote(j)] == p.jobs[i := AfterReasonsNote(j)];
  }

  /** The engine hears that a job is past PENDING. */
  lemma EngineNoteOn(rules: Rules, p: Printer, i: nat, j: Job)
    requires i < |p.jobs| && 0 < j.engineNotes && j.state != Pending && Reachable(rules, WithJob(p, i, j))
    ensures Reachable(rules, WithJob(p, i, AfterEngineNote(j, p.state == PrinterIdle)))
  {
    Runs.ReachNext(rules, WithJob(p, i, j), Inside(EngineNote(i, NoSetup)));
    var k := AfterEngineNote(j, p.state == PrinterIdle);
    assert p.jobs[i := j][i := k] == p.jobs[i := k];
  }

  /** The printer has become idle and takes the next pending job. */
  lemma StateNoteOn(rules: Rules, p: Printer, i: nat)
    requires Reachable(rules, p) && p.state == PrinterIdle && !p.jobOutgoing && p.notes == 1
    requires NextJob(p.jobs) == Some(i)
    ensures Reachable(rules, Printer(PrinterProcessing, true, p.jobs[i := Send(p.jobs[i], Launched(1))], 1, p.reasons))
  {
    Runs.ReachNext(rules, p, Inside(PrinterStateNote(Launched(1))));
  }

  lemma DrainJob(rules: Rules, p: Printer, i: nat, j: Job)
    requires i < |p.jobs| && Reachable(rules, WithJob(p, i, j)) && Inert(p, j)
    ensures Reachable(rules, WithJob(p, i, Quieted(j)))
  {
    Drain(rules, WithJob(p, i, j), i);
    assert p.jobs[i := j][i := Quieted(j)] == p.jobs[i := Quieted(j)];
  }

  /** The handlers of a job that has just ended on a printer that was processing it. */
  lemma Ends(rules: Rules, p: Printer, i: nat, j: Job)
    requires i < |p.jobs| && Quiescent(p) && p.state == PrinterProcessing && Reachable(rules, WithJob(p, i, j))
    requires j.state.Terminal() && j.selfWatch && 0 < j.selfNotes && 0 < j.printerNotes
    ensures Reachable(rules, WithJob(p, i, TakePrinterNote(AfterSelfNote(j))).(state := PrinterIdle, notes := 1))
  {
    var q := WithJob(p, i, j);
    Runs.ReachNext(rules, q, Inside(SelfNote(i)));
    var r := WithJob(p, i, AfterSelfNote(j));
    assert Handle(q, SelfNote(i)) == r;
    Runs.ReachNext(rules, r, Inside(PrinterNote(i)));
    assert Handle(r, PrinterNote(i)) == WithJob(p, i, TakePrinterNote(AfterSelfNote(j))).(state := PrinterIdle, notes := 1);
  }

  // A message channel fails

  const ONE_RUNNING := Printer(PrinterProcessing, true, [RUNNING], 0, [])

  lemma OneRuns(rules: Rules)
    ensures At(rules, ONE_RUNNING)
  {
    assert Run(rules, NEW_PRINTER, [], NEW_PRINTER);
    CreateWithDocument(rules, NEW_PRINTER);
    var p := Printer(PrinterIdle, false, [HELD], 0, []);
    assert NEW_PRINTER.jobs + [HELD] == [HELD];
    Launch(rules, p, 0);
    assert [HELD][0 := RUNNING] == [RUNNING];
  }

  const CUT_OFF: Job := RUNNING.(state := Canceled, reasons := [Outgoing, Transforming, CanceledBySystem],
                                 selfWatch := false, trace := [PendingHeld, Pending, Processing, Canceled])

  lemma CutOff()
    ensures var j := MessageFailure(RUNNING);
            j.state == Canceled && j.selfWatch && j.selfNotes == 1 && j.printerNotes == 1
            && Quieted(TakePrinterNote(AfterSelfNote(j))) == CUT_OFF
  {
    var rs := [Outgoing, Transforming, CanceledBySystem];
    assert Add([Outgoing, Transforming], CanceledBySystem) == rs;
    WithoutAbsent(rs, Incoming);
    WithoutAbsent(rs, ToStopPoint);
  }

  const REAPED: Process := WATCHED.(finished := true)

  const HALF_REAPED: Job := CUT_OFF.(reasons := [Outgoing, CanceledBySystem], filters := [REAPED])

  lemma CutOffReaped()
    ensures Quieted(Exit(CUT_OFF, Filter(0), 0)) == HALF_REAPED && CanExit(CUT_OFF, Filter(0))
    ensures CanExit(HALF_REAPED, Backend)
    ensures Exit(HALF_REAPED, Backend, 0).trace == [PendingHeld, Pending, Processing, Canceled, Completed]
  {
    assert [WATCHED][0 := REAPED] == [REAPED];
  }

  function OnIdle(j: Job): Printer {
    Printer(PrinterIdle, true, [j], 0, [])
  }

  lemma CutOffReached()
    ensures At(HELD_ONLY, OnIdle(CUT_OFF))
  {
    OneRuns(HELD_ONLY);
    CutOff();
    Runs.ReachNext(HELD_ONLY, ONE_RUNNING, Outside(MessageError(0)));
    var j := MessageFailure(RUNNING);
    assert Happen(ONE_RUNNING, MessageError(0)) == WithJob(ONE_RUNNING, 0, j);
    Ends(HELD_ONLY, ONE_RUNNING, 0, j);
    CutOffSettles(TakePrinterNote(AfterSelfNote(j)));
  }

  lemma CutOffSettles(k: Job)
    requires Quieted(k) == CUT_OFF
    requires Reachable(HELD_ONLY, WithJob(ONE_RUNNING, 0, k).(state := PrinterIdle, notes := 1))
    ensures At(HELD_ONLY, OnIdle(CUT_OFF))
  {
    assert [RUNNING][0 := k] == [k];
    DrainPrinter(HELD_ONLY, OnIdle(k).(notes := 1));
    Drain(HELD_ONLY, OnIdle(k), 0);
    assert [k][0 := CUT_OFF] == [CUT_OFF];
  }

  /** Section 4.3.7 of RFC 2911 has no way out of CANCELED. When a message channel fails the job
      is canceled at once; reaping its processes then completes it. */
  lemma CompletedAfterCanceled() returns (p: Printer)
    ensures Reachable(HELD_ONLY, p) && |p.jobs| == 1
    ensures p.jobs[0].trace == [PendingHeld, Pending, Processing, Canceled, Completed]
  {
    CutOffReached();
    CutOffReaped();
    var r := OnIdle(CUT_OFF);
    EventSettles(HELD_ONLY, r, ChildExit(0, Filter(0), 0));
    assert [CUT_OFF][0 := HALF_REAPED] == [HALF_REAPED];
    var t := OnIdle(HALF_REAPED);
    Runs.ReachNext(HELD_ONLY, t, Outside(ChildExit(0, Backend, 0)));
    p := Happen(t, ChildExit(0, Backend, 0));
  }

  // A job that was canceled while held is started

  const CANCELED_HELD: Job := Job(Canceled, [CanceledByUser], Unset, true, false, [], NEVER_RUN,
                                  false, false, false, 0, 0, 0, 0, [PendingHeld, Canceled], None, 0, 0)

  lemma CancelsHeld()
    ensures var j := AfterEngineNote(AfterSelfNote(Cancel(HELD, true).1), true);
            0 < Cancel(HELD, true).1.selfNotes && 0 < AfterSelfNote(Cancel(HELD, true).1).engineNotes
            && AfterSelfNote(Cancel(HELD, true).1).state == Canceled && Quieted(j) == CANCELED_HELD
            && !j.selfWatch && !j.engineWatch && !j.outgoingWatch
  {
    assert Add([Incoming], CanceledByUser) == [Incoming, CanceledByUser];
    WithoutAbsent([CanceledByUser], Incoming);
    WithoutAbsent([CanceledByUser], ToStopPoint);
    assert Remove([Incoming, CanceledByUser], Incoming) == [CanceledByUser];
  }

  const ONE_HELD := Printer(PrinterIdle, false, [HELD], 0, [])
  const ONE_CANCELED := Printer(PrinterIdle, false, [CANCELED_HELD], 0, [])

  /** There is such a job: a document can be attached and the job canceled before Start. */
  lemma CanceledWithDocument(rules: Rules)
    ensures At(rules, ONE_CANCELED)
  {
    assert Run(rules, NEW_PRINTER, [], NEW_PRINTER);
    CreateWithDocument(rules, NEW_PRINTER);
    assert NEW_PRINTER.jobs + [HELD] == [HELD];
    CancelHeld(rules, ONE_HELD, 0);
    assert [HELD][0 := CANCELED_HELD] == [CANCELED_HELD];
  }

  lemma CancelHeld(rules: Rules, p: Printer, i: nat)
    requires At(rules, p) && p.state == PrinterIdle && i < |p.jobs| && p.jobs[i] == HELD
    ensures At(rules, WithJob(p, i, CANCELED_HELD))
  {
    CancelsHeld();
    var j := Cancel(HELD, true).1;
    EventOn(rules, p, CancelCall(i, true));
    SelfNoteOn(rules, p, i, j);
    EngineNoteOn(rules, p, i, AfterSelfNote(j));
    DrainJob(rules, p, i, AfterEngineNote(AfterSelfNote(j), true));
  }

  const RESTARTED: Job := Job(Pending, [CanceledByUser], Unset, false, true, [], NEVER_RUN,
                              false, false, false, 0, 0, 0, 0, [PendingHeld, Canceled, Pending], None, 1, 0)

  const HALF_DONE: Job := RUNNING.(reasons := [Outgoing], filters := [REAPED])

  lemma Restarts()
    ensures Quieted(Start(CANCELED_HELD, true, Pdf).1) == RESTARTED
    ensures var j := Start(CANCELED_HELD, true, Pdf).1; j.state == Pending && !j.selfWatch && !j.engineWatch && !j.outgoingWatch
  {
    WithoutAbsent([CanceledByUser], Incoming);
    var k := RemoveReason(CANCELED_HELD.(spooled := true, document := false), Incoming);
    assert Traced(k, Pending) == [PendingHeld, Canceled, Pending];
    assert Start(CANCELED_HELD, true, Pdf).1 == SetState(k, Pending).(releases := 1);
  }

  lemma FilterDone()
    ensures Quieted(Exit(RUNNING, Filter(0), 0)) == HALF_DONE && CanExit(RUNNING, Filter(0)) && CanExit(HALF_DONE, Backend)
  {
    assert [WATCHED][0 := REAPED] == [REAPED];
  }

  function Two(flag: bool, a: Job, b: Job): Printer {
    Printer(PrinterProcessing, flag, [a, b], 0, [])
  }

  /** A second job runs; meanwhile the canceled one is started and waits. */
  lemma RestartedWaits(rules: Rules)
    requires !rules.heldOnly
    ensures At(rules, Two(true, RESTARTED, HALF_DONE))
  {
    CanceledWithDocument(rules);
    CreateWithDocument(rules, ONE_CANCELED);
    assert [CANCELED_HELD] + [HELD] == [CANCELED_HELD, HELD];
    Launch(rules, Printer(PrinterIdle, false, [CANCELED_HELD, HELD], 0, []), 1);
    assert [CANCELED_HELD, HELD][1 := RUNNING] == [CANCELED_HELD, RUNNING];
    Restarts();
    EventSettles(rules, Two(true, CANCELED_HELD, RUNNING), StartGuard.StartPdf(0));
    assert [CANCELED_HELD, RUNNING][0 := RESTARTED] == [RESTARTED, RUNNING];
    FilterDone();
    EventSettles(rules, Two(true, RESTARTED, RUNNING), ChildExit(1, Filter(0), 0));
    assert [RESTARTED, RUNNING][1 := HALF_DONE] == [RESTARTED, HALF_DONE];
  }

  lemma BackendDone()
    ensures var j := Exit(HALF_DONE, Backend, 0);
            LetsGo(j) && j.state == Completed && j.selfWatch && !j.engineWatch
            && 0 < j.selfNotes && 0 < j.printerNotes && 0 < j.reasonNotes
  {
  }

  const FINISHED: Job := Quieted(TakePrinterNote(AfterSelfNote(Done())))

  /** The second job after its backend has exited and the engine has let go of it. */
  function Done(): (j: Job)
    ensures 0 < j.selfNotes && 0 < j.printerNotes
    ensures j.state == Completed && j.selfWatch && !j.outgoingWatch && !j.engineWatch
  {
    BackendDone();
    AfterReasonsNote(Exit(HALF_DONE, Backend, 0))
  }

  lemma DeviceIsGivenBack(rules: Rules)
    requires !rules.heldOnly
    ensures Reachable(rules, Two(false, RESTARTED, Done()))
  {
    RestartedWaits(rules);
    FilterDone();
    BackendDone();
    var p := Two(true, RESTARTED, HALF_DONE);
    EventOn(rules, p, ChildExit(1, Backend, 0));
    ReasonsNoteOn(rules, p, 1, Exit(HALF_DONE, Backend, 0));
    assert [RESTARTED, HALF_DONE][1 := Done()] == [RESTARTED, Done()];
  }

  function Idle(a: Job, b: Job): Printer {
    Printer(PrinterIdle, false, [a, b], 1, [])
  }

  /** The second job completes and gives the device back. */
  lemma DeviceIsFree(rules: Rules)
    requires !rules.heldOnly
    ensures Reachable(rules, Idle(RESTARTED, FINISHED))
  {
    DeviceIsGivenBack(rules);
    JobEnds(rules, Done());
  }

  lemma JobEnds(rules: Rules, j: Job)
    requires Reachable(rules, Two(false, RESTARTED, j)) && j.state == Completed && j.selfWatch && !j.engineWatch
    requires !j.outgoingWatch && 0 < j.selfNotes && 0 < j.printerNotes
    ensures Reachable(rules, Idle(RESTARTED, Quieted(TakePrinterNote(AfterSelfNote(j)))))
  {
    var base := Two(false, RESTARTED, RUNNING);
    assert [RESTARTED, RUNNING][1 := j] == [RESTARTED, j];
    Ends(rules, base, 1, j);
    var k := TakePrinterNote(AfterSelfNote(j));
    assert [RESTARTED, RUNNING][1 := k] == [RESTARTED, k];
    EndedRests(rules, k);
  }

  lemma EndedRests(rules: Rules, k: Job)
    requires Reachable(rules, Idle(RESTARTED, k)) && k.state == Completed && !k.selfWatch && !k.engineWatch && !k.outgoingWatch
    ensures Reachable(rules, Idle(RESTARTED, Quieted(k)))
  {
    Drain(rules, Idle(RESTARTED, k), 1);
    assert [RESTARTED, k][1 := Quieted(k)] == [RESTARTED, Quieted(k)];
  }

  const RERUNNING: Job := Job(Processing, [CanceledByUser, Outgoing, Transforming], Completed, false, true,
                              [WATCHED], WATCHED, false, false, true, 0, 0, 0, 0,
                              [PendingHeld, Canceled, Pending, Processing], None, 1, 1)

  lemma Relaunches()
    ensures Quieted(Send(RESTARTED, Launched(1))) == RERUNNING
  {
    assert Chain(1, 1, WATCHED) == [WATCHED];
    assert Add([CanceledByUser], Outgoing) == [CanceledByUser, Outgoing];
    assert Add([CanceledByUser, Outgoing], Transforming) == [CanceledByUser, Outgoing, Transforming];
  }

  lemma RestartedRuns(rules: Rules)
    requires !rules.heldOnly
    ensures At(rules, Two(true, RERUNNING, FINISHED))
  {
    DeviceIsFree(rules);
    assert FINISHED.state == Completed;
    NextRuns(rules, FINISHED);
  }

  lemma NextRuns(rules: Rules, f: Job)
    requires Reachable(rules, Idle(RESTARTED, f)) && JobQuiet(f)
    ensures At(rules, Two(true, RERUNNING, f))
  {
    assert NextJob([RESTARTED, f]) == Some(0);
    StateNoteOn(rules, Idle(RESTARTED, f), 0);
    Relaunches();
    var j := Send(RESTARTED, Launched(1));
    Rest(rules, Two(true, RESTARTED, f), 0, j);
    assert [RESTARTED, f][0 := RERUNNING] == [RERUNNING, f];
  }

  /** "job-canceled-by-user" is already the first reason: adding it drops "job-outgoing". An
      instance of DeviceGuard.DoCancelKeepsOutgoingIff. */
  lemma CancelDropsOutgoing()
    ensures var j := Cancel(RERUNNING, true).1;
            j.reasons == [ToStopPoint] && LetsGo(j) && 0 < j.reasonNotes && j.backend.Running()
            && j.state == Processing && !j.selfWatch && !j.engineWatch
  {
    assert RERUNNING.filters[0].Running();
    var a := AddReason(RERUNNING, CanceledByUser);
    assert a.reasons == [];
    assert a.filters[0].Running();
  }

  ghost function Doomed(): (j: Job)
    ensures j.backend.Running() && JobQuiet(j) && j.state == Processing && !j.outgoingWatch
  {
    CancelDropsOutgoing();
    Quieted(AfterReasonsNote(Cancel(RERUNNING, true).1))
  }

  /** The flag says that the device is free while a backend still runs. */
  lemma FlagIsLost(rules: Rules)
    requires !rules.heldOnly
    ensures At(rules, Two(false, Doomed(), FINISHED))
  {
    RestartedRuns(rules);
    assert FINISHED.state == Completed;
    CancelLosesFlag(rules, FINISHED);
  }

  lemma CancelLosesFlag(rules: Rules, f: Job)
    requires At(rules, Two(true, RERUNNING, f))
    ensures At(rules, Two(false, Doomed(), f))
  {
    CancelDropsOutgoing();
    var p := Two(true, RERUNNING, f);
    var j := Cancel(RERUNNING, true).1;
    EventOn(rules, p, CancelCall(0, true));
    ReasonsNoteOn(rules, p, 0, j);
    DrainJob(rules, p.(jobOutgoing := false), 0, AfterReasonsNote(j));
    assert [RERUNNING, f][0 := Doomed()] == [Doomed(), f];
  }

  const READY: Job := Quieted(RELEASED)

  function Four(d: Job, f: Job, last: Job): Printer {
    Printer(PrinterProcessing, false, [d, f, READY, last], 0, [])
  }

  /** Two more jobs, one of them released. */
  lemma NextOneWaits(rules: Rules, d: Job, f: Job)
    requires At(rules, Two(false, d, f))
    ensures At(rules, Four(d, f, NEW_JOB))
  {
    CreateWithDocument(rules, Two(false, d, f));
    var p := Printer(PrinterProcessing, false, [d, f, HELD], 0, []);
    assert [d, f] + [HELD] == p.jobs;
    Releases();
    EventSettles(rules, p, StartGuard.StartPdf(2));
    var q := p.(jobs := [d, f, READY]);
    assert p.jobs[2 := READY] == q.jobs;
    Create(rules, q);
    assert q.jobs + [NEW_JOB] == Four(d, f, NEW_JOB).jobs;
  }

  lemma CancelsNew()
    ensures var j := Cancel(NEW_JOB, true).1;
            j.state == Canceled && j.selfWatch && 0 < j.selfNotes && 0 < j.printerNotes && AfterSelfNote(j).state == Canceled
  {
  }

  /** A job that was never started is canceled: the printer, busy with another, becomes idle. */
  lemma PrinterIsIdled(rules: Rules, d: Job, f: Job) returns (k: Job)
    requires At(rules, Four(d, f, NEW_JOB))
    ensures Reachable(rules, Four(d, f, k).(state := PrinterIdle, notes := 1)) && k.state != Pending
  {
    CancelsNew();
    var q := Four(d, f, NEW_JOB);
    var j := Cancel(NEW_JOB, true).1;
    EventOn(rules, q, CancelCall(3, true));
    Ends(rules, q, 3, j);
    k := TakePrinterNote(AfterSelfNote(j));
    FourWith(d, f, k);
  }

  lemma FourWith(d: Job, f: Job, k: Job)
    ensures WithJob(Four(d, f, NEW_JOB), 3, k) == Four(d, f, k)
  {
    assert Four(d, f, NEW_JOB).jobs[3 := k] == Four(d, f, k).jobs;
  }

  /** Once the flag is lost another job gets the device, whatever still runs. */
  lemma AnotherRuns(rules: Rules, d: Job, f: Job) returns (p: Printer)
    requires At(rules, Two(false, d, f)) && d.state != Pending && f.state != Pending
    ensures Reachable(rules, p) && |p.jobs| == 4 && p.jobs[0] == d && p.jobs[2].backend.Running()
  {
    NextOneWaits(rules, d, f);
    var k := PrinterIsIdled(rules, d, f);
    var r := Four(d, f, k).(state := PrinterIdle, notes := 1);
    assert r.jobs[0] == d && r.jobs[1] == f && r.jobs[2].state == Pending;
    assert NextJob(r.jobs) == Some(2);
    StateNoteOn(rules, r, 2);
    ReadyRuns();
    p := Printer(PrinterProcessing, true, r.jobs[2 := Send(READY, Launched(1))], 1, []);
  }

  lemma ReadyRuns()
    ensures Send(READY, Launched(1)).backend.Running()
  {
  }

  /** Device exclusion needs a rule: two jobs of one printer have a running backend. Every run to
      this printer drops "job-outgoing" somewhere. */
  lemma TwoRunningBackends() returns (p: Printer)
    ensures Reachable(QUIET_ONLY, p) && |p.jobs| == 4 && !DeviceGuard.Careful(p)
    ensures p.jobs[0].backend.Running() && p.jobs[2].backend.Running()
  {
    FlagIsLost(QUIET_ONLY);
    assert FINISHED.state == Completed;
    p := AnotherRuns(QUIET_ONLY, Doomed(), FINISHED);
    if DeviceGuard.Careful(p) {
      DeviceGuard.OneDriver(p, 0, 2);
    }
  }
}
