/** Start does not look at the job's state. What that costs: a job that was canceled while held,
    with a document attached, can be started again, and the engine no longer listens to it. */
module StartGuard {
  import opened JobModel
  import opened JobSafety
  import opened PrinterModel
  import opened PrinterSafety
  import opened DeviceExclusion
  import Cascades
  import Runs
  import Scheduling

  // The engine hears of every state

  /** While the engine is connected to a job that is past PENDING it has not yet been told. */
  ghost predicate Heard(j: Job) {
    j.engineWatch ==> j.state == PendingHeld || j.state == Pending || 0 < j.engineNotes
  }

  /** A change of state is queued for the engine. */
  ghost predicate Tells(j: Job, k: Job) {
    && k.engineWatch == j.engineWatch && j.engineNotes <= k.engineNotes
    && (k.state == j.state || j.engineNotes < k.engineNotes)
  }

  lemma StopTells(j: Job, s: JobState)
    ensures Tells(j, Stop(j, s))
  {
    StopCases(j, s);
    StopCaseTells(CheckTransforming(j), s, Stop(j, s));
  }

  lemma StopRunningTells(c: Job, s: JobState)
    ensures Tells(c, StopRunning(c, s))
  {
    assert Tells(c, Kill(c, s));
  }

  lemma StopCaseTells(c: Job, s: JobState, d: Job)
    requires d == StopNow(c, s) || d == c || d == StopRunning(c, s)
    ensures Tells(c, d)
  {
    StopRunningTells(c, s);
  }

  lemma DoCancelTells(j: Job, s: JobState, reason: Reason)
    ensures Tells(j, DoCancel(j, s, reason))
  {
    StopTells(AddReason(j, reason), s);
    DoCancelCases(j, s, reason);
  }

  lemma ExitTells(j: Job, w: ProcessId, status: int)
    requires Has(j, w)
    ensures Tells(j, Exit(j, w, status))
  {
    var r := Reap(j, w, status);
    assert Tells(j, r);
    assert Tells(r, Judge(r, status));
  }

  lemma StartTells(j: Job, owner: bool, spooling: Spooling)
    ensures Tells(j, Start(j, owner, spooling).1)
  {
    DoCancelTells(j.(spooled := true, document := false), Aborted, AbortedBySystem);
  }

  lemma CancelTells(j: Job, owner: bool)
    ensures Tells(j, Cancel(j, owner).1)
  {
    DoCancelTells(j, Canceled, CanceledByUser);
    DoCancelTells(CheckTransforming(j), Canceled, CanceledByUser);
    CancelCases(j, owner);
  }

  lemma JobAfterTells(j: Job, e: Event)
    requires !e.CreateJob? && (e.ChildExit? ==> Has(j, e.w))
    ensures Tells(j, JobAfter(j, e))
  {
    match e
    case StartCall(_, owner, spooling) => StartTells(j, owner, spooling);
    case CancelCall(_, owner) => CancelTells(j, owner);
    case ChildExit(_, w, status) => ExitTells(j, w, status);
    case DataError(_, reason) => DoCancelTells(j, Aborted, reason);
    case _ =>
  }

  lemma SendTells(j: Job, l: Launch)
    ensures 0 < SetState(j, Processing).engineNotes && 0 < Send(j, l).engineNotes
  {
  }

  ghost predicate AllHeard(p: Printer) {
    forall i :: 0 <= i < |p.jobs| ==> Heard(p.jobs[i])
  }

  lemma EngineNoteHeard(p: Printer, i: nat, l: Launch)
    requires AllHeard(p) && Queued(p, EngineNote(i, l))
    ensures AllHeard(OnEngineNote(p, i, l))
  {
    SendTells(AfterEngineNote(p.jobs[i], true), l);
  }

  lemma HandleHeard(p: Printer, n: Note)
    requires AllHeard(p) && Queued(p, n)
    ensures AllHeard(Handle(p, n))
  {
    match n
    case EngineNote(i, l) => EngineNoteHeard(p, i, l);
    case PrinterStateNote(l) =>
      if NextJob(p.jobs).Some? {
        SendTells(p.jobs[NextJob(p.jobs).value], l);
      }
    case _ =>
  }

  lemma NextHeard(p: Printer, s: Step)
    requires AllHeard(p) && CanStep(p, s)
    ensures AllHeard(Next(p, s))
  {
    match s
    case Inside(n) => HandleHeard(p, n);
    case Outside(e) =>
      if !e.CreateJob? && !e.MessageLine? {
        JobAfterTells(p.jobs[e.i], e);
      }
  }

  lemma {:induction false} RunHeard(rules: Rules, p: Printer, steps: seq<Step>, q: Printer)
    requires AllHeard(p) && Run(rules, p, steps, q)
    ensures AllHeard(q)
    decreases |steps|
  {
    if steps != [] {
      NextHeard(p, steps[0]);
      RunHeard(rules, Next(p, steps[0]), steps[1..], q);
    }
  }

  // A job nobody will start

  /** Job `i` is pending on an idle printer, and no handler is going to look at it. */
  ghost predicate Stranded(p: Printer, i: nat) {
    && i < |p.jobs| && p.jobs[i].state == Pending && !p.jobs[i].engineWatch
    && p.state == PrinterIdle && p.notes == 0
    && (forall k :: 0 <= k < |p.jobs| && k != i ==> JobQuiet(p.jobs[k]))
  }

  lemma HandleLeavesStranded(p: Printer, i: nat, n: Note)
    requires Stranded(p, i) && Queued(p, n)
    ensures Stranded(Handle(p, n), i)
  {
  }

  lemma {:induction false} StaysStranded(p: Printer, i: nat, steps: seq<Step>, q: Printer)
    requires Stranded(p, i) && Cascade(p, steps, q)
    ensures Stranded(q, i)
    decreases |steps|
  {
    if steps != [] {
      assert steps[0].Inside?;
      Cascades.CascadeTail(p, steps, q);
      HandleLeavesStranded(p, i, steps[0].n);
      StaysStranded(Next(p, steps[0]), i, steps[1..], q);
    }
  }

  ghost predicate NothingWaits(q: Printer) {
    q.state == PrinterIdle ==> forall k :: 0 <= k < |q.jobs| ==> q.jobs[k].state != Pending
  }

  /** However the notifications of `p` are handled, an idle printer ends with nothing pending. */
  ghost predicate EndsConserving(p: Printer) {
    forall steps, q :: Cascade(p, steps, q) && Quiescent(q) ==> NothingWaits(q)
  }

  function StartPdf(i: nat): Event {
    StartCall(i, true, Pdf)
  }

  lemma RestartStrands(p: Printer, i: nat)
    requires Reachable(HELD_ONLY, p) && Quiescent(p) && p.state == PrinterIdle
    requires i < |p.jobs| && p.jobs[i].document && p.jobs[i].state != PendingHeld
    ensures p.jobs[i].state == Canceled && Stranded(Happen(p, StartPdf(i)), i)
  {
    ReachableSafe(HELD_ONLY, p);
    assert JobSafe(p.jobs[i]) && JobQuiet(p.jobs[i]);
    var steps :| Run(HELD_ONLY, NEW_PRINTER, steps, p);
    RunHeard(HELD_ONLY, NEW_PRINTER, steps, p);
  }

  /** Job `i` waits, and the printer is not idle. */
  ghost predicate Waits(p: Printer, i: nat) {
    && i < |p.jobs| && p.jobs[i].state == Pending && p.state != PrinterIdle && p.notes == 0
    && (forall k :: 0 <= k < |p.jobs| && k != i ==> JobQuiet(p.jobs[k]))
  }

  lemma HandleLeavesWaiting(p: Printer, i: nat, n: Note)
    requires Waits(p, i) && Queued(p, n)
    ensures Waits(Handle(p, n), i)
  {
  }

  lemma {:induction false} StaysWaiting(p: Printer, i: nat, steps: seq<Step>, q: Printer)
    requires Waits(p, i) && Cascade(p, steps, q)
    ensures Waits(q, i)
    decreases |steps|
  {
    if steps != [] {
      assert steps[0].Inside?;
      Cascades.CascadeTail(p, steps, q);
      HandleLeavesWaiting(p, i, steps[0].n);
      StaysWaiting(Next(p, steps[0]), i, steps[1..], q);
    }
  }

  lemma BusyConserves(p: Printer, i: nat)
    requires Quiescent(p) && p.state != PrinterIdle && i < |p.jobs| && p.jobs[i].document
    ensures EndsConserving(Happen(p, StartPdf(i)))
  {
    var q := Happen(p, StartPdf(i));
    assert forall k :: 0 <= k < |p.jobs| ==> JobQuiet(p.jobs[k]);
    forall steps, r | Cascade(q, steps, r) && Quiescent(r) ensures NothingWaits(r) {
      StaysWaiting(q, i, steps, r);
    }
  }

  lemma HeldStartConserves(p: Printer, i: nat)
    requires Reachable(HELD_ONLY, p) && Quiescent(p) && i < |p.jobs| && p.jobs[i].state == PendingHeld
    ensures EndsConserving(Happen(p, StartPdf(i)))
  {
    var q := Happen(p, StartPdf(i));
    Runs.ReachNext(HELD_ONLY, p, Outside(StartPdf(i)));
    forall steps, r | Cascade(q, steps, r) && Quiescent(r) ensures NothingWaits(r) {
      Runs.ReachThroughCascade(HELD_ONLY, q, steps, r);
      HeldConserves(r);
    }
  }

  /** A successful Start ends, whatever the order of the handlers, with nothing pending beside an
      idle printer exactly when the job was held or the printer is not idle. The other jobs with a
      document are those canceled while held: on an idle printer such a job ends up pending. */
  lemma StartConservesIff(p: Printer, i: nat)
    requires Reachable(HELD_ONLY, p) && Quiescent(p)
    requires i < |p.jobs| && p.jobs[i].document
    ensures EndsConserving(Happen(p, StartPdf(i))) <==> p.jobs[i].state == PendingHeld || p.state != PrinterIdle
  {
    var q := Happen(p, StartPdf(i));
    if p.jobs[i].state == PendingHeld {
      HeldStartConserves(p, i);
    } else if p.state != PrinterIdle {
      BusyConserves(p, i);
    } else {
      RestartStrands(p, i);
      var steps, r := Cascades.CascadeComesToRest(q);
      StaysStranded(q, i, steps, r);
      assert !NothingWaits(r);
    }
  }

  lemma HeldConserves(r: Printer)
    requires Reachable(HELD_ONLY, r) && Quiescent(r)
    ensures NothingWaits(r)
  {
    if r.state == PrinterIdle {
      forall k | 0 <= k < |r.jobs| ensures r.jobs[k].state != Pending {
        Scheduling.IdleMeansNothingPending(r, k);
      }
    }
  }
}
