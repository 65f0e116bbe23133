/** Work conservation and first-in first-out order of the two paths by which the engine starts
    jobs, over runs in which Start is called on pending-held jobs. */
module Scheduling {
  import opened JobModel
  import opened JobSafety
  import opened PrinterModel
  import opened DeviceExclusion

  /** An idle printer with a pending job has a notification on its way that will start one. */
  ghost predicate Conserving(p: Printer) {
    forall i :: 0 <= i < |p.jobs| && p.jobs[i].state == Pending && p.state == PrinterIdle ==>
      0 < p.notes || (0 < p.jobs[i].engineNotes && p.jobs[i].engineWatch)
  }

  /** Job `i` has just become pending and the engine has not looked at it yet. */
  ghost predicate JustReleased(p: Printer, i: nat) {
    i < |p.jobs| && p.jobs[i].state == Pending && 0 < p.jobs[i].engineNotes
  }

  /** Nothing else is going on then, and an idle printer has no other pending job. */
  ghost predicate Alone(p: Printer, i: nat) {
    && p.notes == 0
    && (forall k :: 0 <= k < |p.jobs| && k != i ==> JobQuiet(p.jobs[k]))
    && (p.state == PrinterIdle ==> forall k :: 0 <= k < |p.jobs| && k != i ==> p.jobs[k].state != Pending)
  }

  ghost predicate Orderly(p: Printer) {
    && Conserving(p)
    && (forall i: nat :: JustReleased(p, i) ==> Alone(p, i))
  }

  lemma StartedLeavesPending(j: Job, l: Launch)
    ensures SetState(j, Processing).state == Processing
    ensures StartSending(SetState(j, Processing).(outgoingWatch := true), l).state != Pending
  {
  }

  lemma StartJobState(p: Printer, i: nat, l: Launch)
    requires i < |p.jobs|
    ensures var q := StartJob(p, i, l);
            && q.state == PrinterProcessing && |q.jobs| == |p.jobs|
            && q.jobs[i].state != Pending
            && (forall k :: 0 <= k < |p.jobs| && k != i ==> q.jobs[k] == p.jobs[k])
  {
    StartedLeavesPending(p.jobs[i], l);
  }

  /** Starting a job while no other was just released. */
  lemma StartJobOrderly(p: Printer, i: nat, l: Launch)
    requires i < |p.jobs|
    requires forall k: nat :: JustReleased(p, k) ==> k == i
    ensures Orderly(StartJob(p, i, l))
  {
    StartJobState(p, i, l);
    var q := StartJob(p, i, l);
    forall k: nat ensures !JustReleased(q, k) {
      assert JustReleased(q, k) ==> JustReleased(p, k);
    }
  }

  /** A step that leaves every job's state and the printer's state alone, and at most consumes
      notifications other than the engine's. */
  lemma PassiveOrderly(p: Printer, q: Printer, i: nat)
    requires Orderly(p) && i < |p.jobs| && |q.jobs| == |p.jobs|
    requires q.state == p.state && q.notes == p.notes
    requires forall k :: 0 <= k < |p.jobs| && k != i ==> q.jobs[k] == p.jobs[k]
    requires q.jobs[i].state == p.jobs[i].state
    requires q.jobs[i].engineNotes == p.jobs[i].engineNotes && q.jobs[i].engineWatch == p.jobs[i].engineWatch
    requires !JobQuiet(p.jobs[i])
    ensures Orderly(q)
  {
    forall k: nat | JustReleased(q, k) ensures Alone(q, k) {
      assert JustReleased(p, k);
    }
  }

  lemma OnEngineNoteOrderly(p: Printer, i: nat, l: Launch)
    requires Guarded(p) && Orderly(p) && Queued(p, EngineNote(i, l))
    ensures Orderly(OnEngineNote(p, i, l))
  {
    var j := TakeEngineNote(p.jobs[i]);
    var q := OnEngineNote(p, i, l);
    if j.state == Pending {
      assert JustReleased(p, i);
      if p.state == PrinterIdle {
        StartJobOrderly(WithJob(p, i, j.(engineWatch := false)), i, l);
      } else {
        forall k: nat | JustReleased(q, k) ensures Alone(q, k) {
          assert k == i;
        }
      }
    } else {
      forall k: nat ensures !JustReleased(q, k) {
        assert JustReleased(q, k) ==> JustReleased(p, k);
      }
    }
  }

  lemma OnPrinterNoteOrderly(p: Printer, i: nat)
    requires Orderly(p) && Queued(p, PrinterNote(i))
    ensures Orderly(OnPrinterNote(p, i))
  {
    var q := OnPrinterNote(p, i);
    forall k: nat | JustReleased(q, k) ensures Alone(q, k) {
      assert JustReleased(p, k);
    }
  }

  lemma OnPrinterStateNoteOrderly(p: Printer, l: Launch)
    requires Orderly(p) && Queued(p, PrinterStateNote(l))
    ensures Orderly(OnPrinterStateNote(p, l))
  {
    var q := p.(notes := p.notes - 1);
    forall k: nat ensures !JustReleased(q, k) {
      assert JustReleased(q, k) ==> JustReleased(p, k);
    }
    if p.state == PrinterIdle && NextJob(p.jobs).Some? {
      StartJobOrderly(q, NextJob(p.jobs).value, l);
    }
  }

  lemma HandleOrderly(p: Printer, n: Note)
    requires Guarded(p) && Orderly(p) && Queued(p, n)
    ensures Orderly(Handle(p, n))
  {
    match n
    case SelfNote(i) => PassiveOrderly(p, OnSelfNote(p, i), i);
    case EngineNote(i, l) => OnEngineNoteOrderly(p, i, l);
    case PrinterNote(i) => OnPrinterNoteOrderly(p, i);
    case ReasonsNote(i) => PassiveOrderly(p, OnReasonsNote(p, i), i);
    case PrinterStateNote(l) => OnPrinterStateNoteOrderly(p, l);
  }

  // External steps

  lemma DoCancelNotPending(j: Job, s: JobState, reason: Reason)
    requires s.Stopped()
    ensures DoCancel(j, s, reason).state != Pending
  {
    DoCancelUnstarted(j, s, reason);
  }

  /** Only Start makes a job pending, and only a held one. */
  lemma PendingByStart(j: Job, e: Event)
    requires JobHeld(j) && !e.CreateJob? && !e.StartCall? && (e.ChildExit? ==> CanExit(j, e.w))
    requires JobAfter(j, e).state == Pending
    ensures j.state == Pending && JobAfter(j, e).engineNotes == j.engineNotes
  {
    match e
    case CancelCall(_, owner) =>
      DoCancelNotPending(j, Canceled, CanceledByUser);
      DoCancelNotPending(CheckTransforming(j), Canceled, CanceledByUser);
    case ChildExit(_, w, status) => ExitSafe(j, w, status);
    case DataError(_, reason) => DoCancelNotPending(j, Aborted, reason);
    case _ =>
  }

  lemma StartReleases(j: Job, owner: bool, spooling: Spooling)
    requires JobHeld(j) && (owner && j.document ==> j.state == PendingHeld)
    requires Start(j, owner, spooling).1.state == Pending
    ensures j.state == Pending ==> Start(j, owner, spooling).1 == j
    ensures j.state != Pending ==>
              Start(j, owner, spooling).1.engineNotes == j.engineNotes + 1 && Start(j, owner, spooling).1.engineWatch
  {
    DoCancelNotPending(j.(spooled := true, document := false), Aborted, AbortedBySystem);
  }

  lemma HappenOrderly(p: Printer, e: Event)
    requires Guarded(p) && Orderly(p) && Quiescent(p) && Possible(p, e) && Obeys(HELD_ONLY, p, e)
    ensures Orderly(Happen(p, e))
  {
    var q := Happen(p, e);
    if !e.CreateJob? && !e.MessageLine? {
      var j, k := p.jobs[e.i], q.jobs[e.i];
      if k.state == Pending {
        if e.StartCall? {
          StartReleases(j, e.owner, e.spooling);
        } else {
          PendingByStart(j, e);
        }
      }
    }
    forall i: nat | JustReleased(q, i) ensures Alone(q, i) {
      assert !e.CreateJob? && e.i == i;
    }
  }

  lemma {:induction false} RunOrderly(rules: Rules, p: Printer, steps: seq<Step>, q: Printer)
    requires rules.heldOnly && Guarded(p) && Orderly(p) && Run(rules, p, steps, q)
    ensures Orderly(q)
    decreases |steps|
  {
    if steps != [] {
      match steps[0] {
        case Outside(e) => HappenOrderly(p, e); HappenGuarded(p, e);
        case Inside(n) => HandleOrderly(p, n); HandleGuarded(p, n);
      }
      RunOrderly(rules, Next(p, steps[0]), steps[1..], q);
    }
  }

  lemma ReachableOrderly(p: Printer)
    requires Reachable(HELD_ONLY, p)
    ensures Orderly(p)
  {
    var steps :| Run(HELD_ONLY, NEW_PRINTER, steps, p);
    RunOrderly(HELD_ONLY, NEW_PRINTER, steps, p);
  }

  /** Work conservation: once everything is quiet, an idle printer has no pending job. */
  lemma IdleMeansNothingPending(p: Printer, i: nat)
    requires Reachable(HELD_ONLY, p) && Quiescent(p) && p.state == PrinterIdle && i < |p.jobs|
    ensures p.jobs[i].state != Pending
  {
    ReachableOrderly(p);
    assert JobQuiet(p.jobs[i]);
  }

  /** First in, first out: whichever handler runs, a job that it takes out of PENDING is the
      pending job with the lowest index. */
  lemma LowestPendingStarts(p: Printer, n: Note, k: nat, m: nat)
    requires Reachable(HELD_ONLY, p) && Queued(p, n) && m < k < |p.jobs|
    requires p.jobs[k].state == Pending && Handle(p, n).jobs[k].state != Pending
    ensures p.jobs[m].state != Pending
  {
    ReachableOrderly(p);
    match n
    case EngineNote(i, l) => assert JustReleased(p, k);
    case PrinterStateNote(l) =>
      StartJobState(p.(notes := p.notes - 1), NextJob(p.jobs).value, l);
    case _ =>
  }
}
