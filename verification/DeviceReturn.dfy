/** Whether a printer gets its device back. A job that was sent but whose backend never started
    keeps "job-outgoing", and with it the printer's flag, for good. Runs in which Start is called on
    pending-held jobs. */
module DeviceReturn {
  import opened StateReasons
  import opened JobModel
  import opened JobSafety
  import opened PrinterModel
  import opened PrinterSafety
  import opened DeviceExclusion
  import opened DeviceGuard
  import opened OrderGuard
  import opened WithoutTheRules
  import Runs

  /** Launching it failed. */
  ghost predicate Blocking(j: Job) {
    j.sendings == 1 && !j.backend.started && Outgoing in j.reasons
  }

  // One job

  lemma SettleKeepsBackend(f: Job)
    ensures Settle(f).backend == f.backend
  {
  }

  lemma ExitKeepsStarted(j: Job, w: ProcessId, status: int)
    requires Has(j, w)
    ensures Exit(j, w, status).backend.started == j.backend.started
    ensures w.Filter? ==> Exit(j, w, status).backend == j.backend
  {
    var f := Put(j, w, Get(j, w).(finished := true, status := status));
    assert Reap(j, w, status).backend == f.backend;
    SettleKeepsBackend(Judge(Reap(j, w, status), status));
  }

  lemma StartKeepsBackend(j: Job, owner: bool, spooling: Spooling)
    ensures SameRoll(j.backend, Start(j, owner, spooling).1.backend)
  {
    var k := j.(spooled := true, document := false);
    DoCancelAlike(k, Aborted, AbortedBySystem);
  }

  /** Only the exit of the backend changes what has become of it. */
  lemma BackendAfter(j: Job, e: Event)
    requires !e.CreateJob? && (e.ChildExit? ==> Has(j, e.w))
    ensures JobAfter(j, e).backend.started == j.backend.started
    ensures !(e.ChildExit? && e.w.Backend?) ==> JobAfter(j, e).backend.finished == j.backend.finished
  {
    match e
    case StartCall(_, owner, spooling) => StartKeepsBackend(j, owner, spooling);
    case CancelCall(_, owner) => CancelAlike(j, owner);
    case ChildExit(_, w, status) => ExitKeepsStarted(j, w, status);
    case DataError(_, reason) => DoCancelAlike(j, Aborted, reason);
    case _ =>
  }

  lemma CancelKeepsFirst(j: Job, owner: bool)
    requires Outgoing in j.reasons && j.reasons[0] == Outgoing
    ensures Outgoing in Cancel(j, owner).1.reasons
  {
    FirstHasNothingBefore(j.reasons);
    CheckKeepsOrder(j, CanceledByUser);
    DoCancelKeepsOutgoingIff(j, Canceled, CanceledByUser);
    DoCancelKeepsOutgoingIff(CheckTransforming(j), Canceled, CanceledByUser);
    CancelCases(j, owner);
  }

  /** No event takes "job-outgoing" from a job whose backend never started. */
  lemma BlockingAfter(p: Printer, e: Event)
    requires Possible(p, e) && !e.CreateJob? && !e.MessageLine?
    requires JobHeld(p.jobs[e.i]) && Blocking(p.jobs[e.i])
    ensures Blocking(JobAfter(p.jobs[e.i], e))
  {
    var j := p.jobs[e.i];
    FirstHasNothingBefore(j.reasons);
    BackendAfter(j, e);
    JobAfterModest(j, e);
    match e
    case CancelCall(_, owner) => CancelKeepsFirst(j, owner);
    case ChildExit(_, w, status) => ExitModest(j, w, status);
    case DataEnd(_) => CheckKeepsOutgoing(j);
    case MessageError(_) => AddKeepsIff(j.reasons, CanceledBySystem, Outgoing);
    case StartCall(_, owner, spooling) => assert Start(j, owner, spooling).1 == j;
    case _ =>
  }

  // The printer

  lemma HandleKeepsOutgoing(p: Printer, n: Note, i: nat)
    requires Queued(p, n) && i < |p.jobs| == |Handle(p, n).jobs| && p.jobs[i].state != Pending
    ensures Outgoing in Handle(p, n).jobs[i].reasons <==> Outgoing in p.jobs[i].reasons
  {
    match n
    case SelfNote(k) =>
      RemoveIsFilter(p.jobs[k].reasons, Incoming);
      RemoveIsFilter(Remove(p.jobs[k].reasons, Incoming), ToStopPoint);
    case EngineNote(k, l) =>
      if Startable(p.jobs[k]) && p.state == PrinterIdle {
        StartJobSpares(WithJob(p, k, AfterEngineNote(p.jobs[k], true)), k, l, i);
      }
    case PrinterStateNote(l) =>
      if p.state == PrinterIdle && NextJob(p.jobs).Some? {
        StartJobSpares(p.(notes := p.notes - 1), NextJob(p.jobs).value, l, i);
      }
    case _ =>
  }

  lemma BlockingTakesFlag(p: Printer, i: nat)
    requires Guarded(p) && i < |p.jobs| && Blocking(p.jobs[i])
    ensures p.jobOutgoing && p.jobs[i].state != Pending
  {
    assert JobHeld(p.jobs[i]);
  }

  /** While the flag is set no handler sends a job. */
  lemma HandleSendsNone(p: Printer, n: Note, k: nat)
    requires Queued(p, n) && p.jobOutgoing && k < |p.jobs|
    ensures |Handle(p, n).jobs| == |p.jobs| && Handle(p, n).jobs[k].sendings == p.jobs[k].sendings
  {
  }

  /** How often job `k` was sent at `q`, given that nothing has been sent since `p`. */
  ghost predicate NothingSent(p: Printer, q: Printer) {
    && |p.jobs| <= |q.jobs|
    && forall k :: 0 <= k < |q.jobs| ==> q.jobs[k].sendings == if k < |p.jobs| then p.jobs[k].sendings else 0
  }

  lemma HandleBlocked(p: Printer, n: Note, i: nat)
    requires Guarded(p) && Queued(p, n) && i < |p.jobs| && Blocking(p.jobs[i])
    ensures i < |Handle(p, n).jobs| && Blocking(Handle(p, n).jobs[i]) && NothingSent(p, Handle(p, n))
  {
    BlockingTakesFlag(p, i);
    forall k | 0 <= k < |p.jobs|
      ensures |Handle(p, n).jobs| == |p.jobs| && Handle(p, n).jobs[k].sendings == p.jobs[k].sendings
    {
      HandleSendsNone(p, n, k);
    }
    HandleSpares(p, n, i);
    HandleKeepsOutgoing(p, n, i);
  }

  lemma HappenBlocked(p: Printer, e: Event, i: nat)
    requires Guarded(p) && Possible(p, e) && i < |p.jobs| && Blocking(p.jobs[i])
    ensures i < |Happen(p, e).jobs| && Blocking(Happen(p, e).jobs[i]) && NothingSent(p, Happen(p, e))
  {
    if !e.CreateJob? && !e.MessageLine? {
      JobAfterModest(p.jobs[e.i], e);
      if e.i == i {
        assert JobHeld(p.jobs[i]);
        BlockingAfter(p, e);
      }
    }
  }

  /** Over any continuation: the job keeps the reason, the printer the flag, and no job is sent, be
      it there already or created later. */
  lemma {:induction false} BlockedForGood(p: Printer, i: nat, steps: seq<Step>, q: Printer)
    requires Guarded(p) && i < |p.jobs| && Blocking(p.jobs[i]) && Run(HELD_ONLY, p, steps, q)
    ensures i < |q.jobs| && Blocking(q.jobs[i]) && q.jobOutgoing && NothingSent(p, q)
    decreases |steps|
  {
    BlockingTakesFlag(p, i);
    if steps != [] {
      match steps[0] {
        case Outside(e) => HappenGuarded(p, e); HappenBlocked(p, e, i);
        case Inside(n) => HandleGuarded(p, n); HandleBlocked(p, n, i);
      }
      BlockedForGood(Next(p, steps[0]), i, steps[1..], q);
    }
  }

  // Failing to launch

  /** A job that is sent blocks exactly when launching it fails, wherever it fails. */
  lemma LaunchBlocksIff(j: Job, l: Launch)
    requires JobHeld(j) && j.state == Pending && l.Possible()
    ensures Blocking(Send(j, l)) <==> !l.Launched?
  {
    SendingHeld(j, l);
    SendSendsOnce(j, l);
    assert j.filters == [] && j.backend == NEVER_RUN;
    assert j.sendings == 0 && Transforming !in j.reasons && j.reasons == [];
    SentReasons(j, l);
  }

  lemma SentReasons(j: Job, l: Launch)
    requires j.reasons == [] && j.filters == [] && j.backend == NEVER_RUN && l.Possible()
    ensures Outgoing in Send(j, l).reasons && (Send(j, l).backend.started <==> l.Launched?)
  {
    assert Add([Outgoing], Transforming) == [Outgoing, Transforming];
  }

  /** The handler that starts a job, and the outcome of launching it. */
  ghost predicate StartsWith(p: Printer, n: Note, i: nat, l: Launch) {
    && Queued(p, n) && i < |p.jobs| == |Handle(p, n).jobs|
    && p.jobs[i].state == Pending && Handle(p, n).jobs[i].state != Pending
    && (n == EngineNote(i, l) || n == PrinterStateNote(l))
  }

  lemma EngineSends(p: Printer, i: nat, l: Launch)
    requires Guarded(p) && StartsWith(p, EngineNote(i, l), i, l) && !p.jobOutgoing
    ensures Blocking(OnEngineNote(p, i, l).jobs[i]) <==> !l.Launched?
  {
    var k := AfterEngineNote(p.jobs[i], true);
    ConsumedHeld(p.jobs[i], k);
    LaunchBlocksIff(k, l);
  }

  lemma StarterSends(p: Printer, n: Note, i: nat, l: Launch)
    requires Guarded(p) && StartsWith(p, n, i, l) && !p.jobOutgoing
    ensures Blocking(Handle(p, n).jobs[i]) <==> !l.Launched?
  {
    assert JobHeld(p.jobs[i]);
    if n.EngineNote? {
      EngineSends(p, i, l);
    } else {
      LaunchBlocksIff(p.jobs[i], l);
    }
  }

  /** One failed launch is the end of the printer: whatever is created and started afterwards, no
      job is sent again. */
  lemma OneFailedLaunch(p: Printer, n: Note, i: nat, l: Launch, steps: seq<Step>, q: Printer)
    requires Reachable(HELD_ONLY, p) && !p.jobOutgoing && StartsWith(p, n, i, l) && !l.Launched?
    requires Run(HELD_ONLY, Handle(p, n), steps, q)
    ensures q.jobOutgoing && NothingSent(Handle(p, n), q)
  {
    ReachableGuarded(HELD_ONLY, p);
    HandleGuarded(p, n);
    StarterSends(p, n, i, l);
    BlockedForGood(Handle(p, n), i, steps, q);
  }

  lemma ReleasedIsReached(q: Printer)
    requires q == WithJob(ONE_HELD, 0, RELEASED)
    ensures Reachable(HELD_AND_QUIET, q)
  {
    assert Run(HELD_AND_QUIET, NEW_PRINTER, [], NEW_PRINTER);
    CreateWithDocument(HELD_AND_QUIET, NEW_PRINTER);
    assert NEW_PRINTER.jobs + [HELD] == [HELD];
    Releases();
    EventOn(HELD_AND_QUIET, ONE_HELD, StartCall(0, true, Pdf));
  }

  /** It does happen, with every way of failing. */
  lemma AnyFailureBlocks(l: Launch) returns (p: Printer)
    requires l.Possible() && !l.Launched?
    ensures Reachable(HELD_AND_QUIET, p) && |p.jobs| == 1 && Blocking(p.jobs[0])
  {
    var q := WithJob(ONE_HELD, 0, RELEASED);
    ReleasedIsReached(q);
    Runs.ReachNext(HELD_AND_QUIET, q, Inside(EngineNote(0, l)));
    p := Handle(q, EngineNote(0, l));
    ReleasedStarts(q, l);
    ReleasedBlocks(l);
  }

  lemma ReleasedStarts(q: Printer, l: Launch)
    requires q == WithJob(ONE_HELD, 0, RELEASED)
    ensures var p := OnEngineNote(q, 0, l);
            |p.jobs| == 1 && p.jobs[0] == Send(AfterEngineNote(RELEASED, true), l)
  {
  }

  lemma ReleasedBlocks(l: Launch)
    requires l.Possible() && !l.Launched?
    ensures Blocking(Send(AfterEngineNote(RELEASED, true), l))
  {
    var k := AfterEngineNote(RELEASED, true);
    SendSendsOnce(k, l);
    SentReasons(k, l);
  }

  // A backend that has finished

  /** ... has given up the reason. */
  ghost predicate Returned(j: Job) {
    j.backend.finished ==> Outgoing !in j.reasons
  }

  ghost predicate AllReturned(p: Printer) {
    Safe(p) && forall i :: 0 <= i < |p.jobs| ==> Returned(p.jobs[i])
  }

  lemma BackendExitReturns(j: Job, status: int)
    ensures Outgoing !in Exit(j, Backend, status).reasons
  {
    var f := Put(j, Backend, Get(j, Backend).(finished := true, status := status));
    RemoveIsFilter(f.reasons, Outgoing);
    SettleChangesStateOnly(Reap(j, Backend, status), status);
  }

  lemma JobAfterReturned(p: Printer, e: Event)
    requires Possible(p, e) && !e.CreateJob? && !e.MessageLine? && Returned(p.jobs[e.i])
    ensures Returned(JobAfter(p.jobs[e.i], e))
  {
    var j := p.jobs[e.i];
    BackendAfter(j, e);
    JobAfterModest(j, e);
    if e.ChildExit? && e.w.Backend? {
      BackendExitReturns(j, e.status);
    }
  }

  lemma OneHandleReturned(p: Printer, n: Note, i: nat)
    requires AllReturned(p) && Queued(p, n) && i < |p.jobs| == |Handle(p, n).jobs|
    ensures Returned(Handle(p, n).jobs[i])
  {
    if p.jobs[i].state != Pending {
      HandleSpares(p, n, i);
      HandleKeepsOutgoing(p, n, i);
    } else {
      assert JobSafe(p.jobs[i]) && p.jobs[i].backend == NEVER_RUN;
      StaysUnfinished(p, n, i);
    }
  }

  lemma StartProcessingUnfinished(a: Job, l: Launch)
    ensures StartProcessing(a, l).backend == a.backend
  {
  }

  lemma SendUnfinished(j: Job, l: Launch)
    ensures Send(j, l).backend.finished == j.backend.finished
  {
    var a := MarkOutgoing(SetState(j, Processing).(outgoingWatch := true));
    RunChainUnfinished(a, l);
    assert Send(j, l) == RunChain(a, l);
  }

  lemma RunChainUnfinished(a: Job, l: Launch)
    ensures RunChain(a, l).backend.finished == a.backend.finished
  {
    StartProcessingUnfinished(a, l);
  }

  lemma StartUnfinished(p: Printer, m: nat, l: Launch, i: nat)
    requires m < |p.jobs| && i < |p.jobs| == |StartJob(p, m, l).jobs|
    ensures StartJob(p, m, l).jobs[i].backend.finished == p.jobs[i].backend.finished
  {
    SendUnfinished(p.jobs[m], l);
  }

  /** No handler finishes a backend. */
  lemma StaysUnfinished(p: Printer, n: Note, i: nat)
    requires Queued(p, n) && i < |p.jobs| == |Handle(p, n).jobs| && !p.jobs[i].backend.finished
    ensures !Handle(p, n).jobs[i].backend.finished
  {
    match n
    case EngineNote(k, l) => StartUnfinished(WithJob(p, k, AfterEngineNote(p.jobs[k], p.state == PrinterIdle)), k, l, i);
    case PrinterStateNote(l) =>
      if p.state == PrinterIdle && NextJob(p.jobs).Some? {
        StartUnfinished(p.(notes := p.notes - 1), NextJob(p.jobs).value, l, i);
      }
    case _ =>
  }

  lemma {:induction false} RunReturned(rules: Rules, p: Printer, steps: seq<Step>, q: Printer)
    requires AllReturned(p) && Run(rules, p, steps, q)
    ensures AllReturned(q)
    decreases |steps|
  {
    if steps != [] {
      NextSafe(p, steps[0]);
      NextReturned(p, steps[0]);
      RunReturned(rules, Next(p, steps[0]), steps[1..], q);
    }
  }

  lemma HandleSameJobs(p: Printer, n: Note)
    requires Queued(p, n)
    ensures |Handle(p, n).jobs| == |p.jobs|
  {
  }

  lemma NextReturned(p: Printer, s: Step)
    requires AllReturned(p) && CanStep(p, s)
    ensures forall i :: 0 <= i < |Next(p, s).jobs| ==> Returned(Next(p, s).jobs[i])
  {
    match s
    case Outside(e) =>
      if !e.CreateJob? && !e.MessageLine? {
        JobAfterReturned(p, e);
      }
    case Inside(n) =>
      HandleSameJobs(p, n);
      forall i | 0 <= i < |p.jobs| ensures Returned(Handle(p, n).jobs[i]) {
        OneHandleReturned(p, n, i);
      }
  }

  // Getting the device back

  ghost predicate CanReturn(p: Printer) {
    exists steps, q :: Run(HELD_ONLY, p, steps, q) && !q.jobOutgoing
  }

  /** The exit of the backend, and the handler that hears of it. */
  lemma BackendExitFreesDevice(p: Printer, i: nat)
    requires Guarded(p) && Quiescent(p) && i < |p.jobs| && p.jobs[i].backend.Running()
    ensures CanReturn(p)
  {
    assert JobHeld(p.jobs[i]);
    var e := ChildExit(i, Backend, 0);
    HappenGuarded(p, e);
    BackendExitReturns(p.jobs[i], 0);
    JobAfterModest(p.jobs[i], e);
    var q := Happen(p, e);
    assert LetsGo(q.jobs[i]) && 0 < q.jobs[i].reasonNotes;
    var n := ReasonsNote(i);
    var steps := [Outside(e), Inside(n)];
    assert steps[1..] == [Inside(n)] && [Inside(n)][1..] == [];
    assert Run(HELD_ONLY, q, [Inside(n)], Handle(q, n));
    assert Run(HELD_ONLY, p, steps, Handle(q, n));
  }

  /** Let a job hold the device of a printer at rest. Some continuation frees the device if and only
      if that job's backend is running. */
  lemma DeviceReturnsIff(p: Printer, i: nat)
    requires Reachable(HELD_ONLY, p) && Quiescent(p) && Carries(p, i)
    ensures CanReturn(p) <==> p.jobs[i].backend.Running()
  {
    ReachableGuarded(HELD_ONLY, p);
    assert JobHeld(p.jobs[i]);
    if p.jobs[i].backend.Running() {
      BackendExitFreesDevice(p, i);
    } else {
      var steps :| Run(HELD_ONLY, NEW_PRINTER, steps, p);
      RunReturned(HELD_ONLY, NEW_PRINTER, steps, p);
      assert Returned(p.jobs[i]) && Blocking(p.jobs[i]);
      forall more, q | Run(HELD_ONLY, p, more, q) ensures q.jobOutgoing {
        BlockedForGood(p, i, more, q);
      }
    }
  }
}
