/** Safety of every run: the per-job facts of JobSafety.dfy lifted to a printer and to runs of
    any length, with no assumption on when clients call what. */
module PrinterSafety {
  import opened StateReasons
  import opened JobModel
  import opened JobSafety
  import opened PrinterModel
  import StateLine

  ghost predicate Safe(p: Printer) {
    && (forall i :: 0 <= i < |p.jobs| ==> JobSafe(p.jobs[i]))
    && NoDuplicates(p.reasons)
  }

  lemma JobAfterSafe(p: Printer, e: Event)
    requires Safe(p) && Possible(p, e) && !e.CreateJob?
    ensures JobSafe(JobAfter(p.jobs[e.i], e))
  {
    var j := p.jobs[e.i];
    match e
    case AddDocumentCall(_, owner, usable) => AddDocumentSafe(j, owner, usable);
    case StartCall(_, owner, spooling) => StartSafe(j, owner, spooling);
    case CancelCall(_, owner) => CancelSafe(j, owner);
    case ChildExit(_, w, status) => ExitSafe(j, w, status);
    case DataError(_, reason) => DoCancelSafe(j, Aborted, reason);
    case DataEnd(_) => CheckSafe(j);
    case MessageError(_) => MessageFailureSafe(j);
    case _ =>
  }

  lemma HappenSafe(p: Printer, e: Event)
    requires Safe(p) && Possible(p, e)
    ensures Safe(Happen(p, e))
  {
    match e
    case CreateJob => NewJobSafe();
    case MessageLine(_, line) => StateLine.LinesKeepDistinct(p.reasons, StateLine.Parse(line));
    case _ => JobAfterSafe(p, e);
  }

  lemma StartJobSafe(p: Printer, i: nat, l: Launch)
    requires Safe(p) && i < |p.jobs| && p.jobs[i].state == Pending && l.Possible()
    ensures Safe(StartJob(p, i, l))
  {
    SendingSafe(p.jobs[i], true, l);
  }

  /** Counters and watches are not part of a job's safety. */
  lemma ConsumedSafe(j: Job, k: Job)
    requires JobSafe(j)
    requires k == j.(selfNotes := k.selfNotes, engineNotes := k.engineNotes, printerNotes := k.printerNotes,
                     reasonNotes := k.reasonNotes, engineWatch := k.engineWatch, outgoingWatch := k.outgoingWatch)
    ensures JobSafe(k)
  {
  }

  lemma OnSelfNoteSafe(p: Printer, i: nat)
    requires Safe(p) && Queued(p, SelfNote(i))
    ensures Safe(OnSelfNote(p, i))
  {
    var j := TakeSelfNote(p.jobs[i]);
    ConsumedSafe(p.jobs[i], j);
    SelfNotifiedSafe(j);
  }

  lemma OnEngineNoteSafe(p: Printer, i: nat, l: Launch)
    requires Safe(p) && Queued(p, EngineNote(i, l))
    ensures Safe(OnEngineNote(p, i, l))
  {
    var j := TakeEngineNote(p.jobs[i]);
    ConsumedSafe(p.jobs[i], j);
    ConsumedSafe(j, j.(engineWatch := false));
    if j.engineWatch && j.state == Pending && p.state == PrinterIdle {
      StartJobSafe(WithJob(p, i, j.(engineWatch := false)), i, l);
    }
  }

  lemma OnReasonsNoteSafe(p: Printer, i: nat)
    requires Safe(p) && Queued(p, ReasonsNote(i))
    ensures Safe(OnReasonsNote(p, i))
  {
    var j := TakeReasonsNote(p.jobs[i]);
    ConsumedSafe(p.jobs[i], j);
    ConsumedSafe(j, j.(outgoingWatch := false));
  }

  lemma HandleSafe(p: Printer, n: Note)
    requires Safe(p) && Queued(p, n)
    ensures Safe(Handle(p, n))
  {
    match n
    case SelfNote(i) => OnSelfNoteSafe(p, i);
    case EngineNote(i, l) => OnEngineNoteSafe(p, i, l);
    case PrinterNote(i) => ConsumedSafe(p.jobs[i], TakePrinterNote(p.jobs[i]));
    case ReasonsNote(i) => OnReasonsNoteSafe(p, i);
    case PrinterStateNote(l) =>
      if p.state == PrinterIdle && NextJob(p.jobs).Some? {
        StartJobSafe(p.(notes := p.notes - 1), NextJob(p.jobs).value, l);
      }
  }

  lemma NextSafe(p: Printer, s: Step)
    requires Safe(p) && CanStep(p, s)
    ensures Safe(Next(p, s))
  {
    match s
    case Outside(e) => HappenSafe(p, e);
    case Inside(n) => HandleSafe(p, n);
  }

  lemma {:induction false} RunSafe(rules: Rules, p: Printer, steps: seq<Step>, q: Printer)
    requires Safe(p) && Run(rules, p, steps, q)
    ensures Safe(q)
    decreases |steps|
  {
    if steps != [] {
      NextSafe(p, steps[0]);
      RunSafe(rules, Next(p, steps[0]), steps[1..], q);
    }
  }

  lemma ReachableSafe(rules: Rules, p: Printer)
    requires Reachable(rules, p)
    ensures Safe(p)
  {
    var steps :| Run(rules, NEW_PRINTER, steps, p);
    RunSafe(rules, NEW_PRINTER, steps, p);
  }

  // What this says about every reachable printer, in the terms of the protocol

  /** COMPLETED is honest: a backend and a non-empty chain all started and finished with exit
      status 0, and no cancel or abort had been accepted. */
  lemma CompletedIsHonest(p: Printer, i: nat)
    requires Reachable(ANY_RUN, p) && i < |p.jobs| && p.jobs[i].state == Completed
    ensures var j := p.jobs[i];
            && j.backend.started && j.backend.finished && j.backend.status == 0
            && j.filters != []
            && (forall k :: 0 <= k < |j.filters| ==>
                  j.filters[k].started && j.filters[k].finished && j.filters[k].status == 0)
            && j.stopAt.None?
  {
    ReachableSafe(ANY_RUN, p);
    var j := p.jobs[i];
    assert JobSafe(j);
    forall k | 0 <= k < |j.filters| ensures j.filters[k].started && j.filters[k].finished {
      assert j.filters[k].watched && !j.filters[k].Running();
    }
  }

  /** Once a cancel or abort was accepted while processing, every state set from then on is
      CANCELED or ABORTED, whatever order the children exit in. */
  lemma AcceptedStopStands(p: Printer, i: nat)
    requires Reachable(ANY_RUN, p) && i < |p.jobs| && p.jobs[i].stopAt.Some?
    ensures var j := p.jobs[i];
            forall k :: j.stopAt.value <= k < |j.trace| ==> j.trace[k] == Canceled || j.trace[k] == Aborted
    ensures p.jobs[i].backend.started ==> p.jobs[i].pendingState == Canceled || p.jobs[i].pendingState == Aborted
  {
    ReachableSafe(ANY_RUN, p);
    assert JobSafe(p.jobs[i]);
  }

  /** The assertion in Start cannot fail, and a job is released and sent at most once. */
  lemma DocumentIsOneShot(p: Printer, i: nat)
    requires Reachable(ANY_RUN, p) && i < |p.jobs|
    ensures p.jobs[i].document ==> !p.jobs[i].spooled
    ensures p.jobs[i].sendings <= p.jobs[i].releases <= 1
  {
    ReachableSafe(ANY_RUN, p);
    assert JobSafe(p.jobs[i]);
  }

  /** Reaping a child of a job with a backend sets a terminal state or none. */
  lemma ReapingIsTerminal(p: Printer, i: nat, w: ProcessId, status: int)
    requires Reachable(ANY_RUN, p) && Possible(p, ChildExit(i, w, status))
    ensures var j, k := p.jobs[i], Exit(p.jobs[i], w, status);
            k.trace == j.trace || (k.state.Terminal() && k.trace == j.trace + [k.state])
  {
    ReachableSafe(ANY_RUN, p);
    ExitSafe(p.jobs[i], w, status);
  }

  lemma ReasonsStayDistinct(p: Printer)
    requires Reachable(ANY_RUN, p)
    ensures NoDuplicates(p.reasons)
    ensures forall i :: 0 <= i < |p.jobs| ==> NoDuplicates(p.jobs[i].reasons)
  {
    ReachableSafe(ANY_RUN, p);
    forall i | 0 <= i < |p.jobs| ensures NoDuplicates(p.jobs[i].reasons) {
      assert JobSafe(p.jobs[i]);
    }
  }

  // The pending outcome

  lemma JobAfterKeepsLoss(p: Printer, e: Event)
    requires Possible(p, e) && !e.CreateJob? && OutcomeLost(p.jobs[e.i])
    ensures OutcomeLost(JobAfter(p.jobs[e.i], e))
  {
    var j := p.jobs[e.i];
    match e
    case AddDocumentCall(_, owner, usable) => CallsKeepLoss(j, owner, usable, Pdf);
    case StartCall(_, owner, spooling) => CallsKeepLoss(j, owner, true, spooling);
    case CancelCall(_, owner) => CallsKeepLoss(j, owner, true, Pdf);
    case ChildExit(_, w, status) => ExitKeepsLoss(j, w, status);
    case DataError(_, reason) => DoCancelKeepsLoss(j, Aborted, reason);
    case _ =>
  }

  /** Reasons, watches and notifications aside, the job is the same. */
  ghost predicate Spared(j: Job, k: Job) {
    && k.state == j.state && k.trace == j.trace && k.sendings == j.sendings && k.releases == j.releases
    && k.filters == j.filters && k.backend == j.backend && k.pendingState == j.pendingState
  }

  lemma StartJobSpares(p: Printer, m: nat, l: Launch, i: nat)
    requires m < |p.jobs| && i < |p.jobs| && i != m
    ensures |StartJob(p, m, l).jobs| == |p.jobs| && StartJob(p, m, l).jobs[i] == p.jobs[i]
  {
  }

  lemma EngineNoteSpares(p: Printer, m: nat, l: Launch, i: nat)
    requires Queued(p, EngineNote(m, l)) && i < |p.jobs| && p.jobs[i].state != Pending
    ensures |OnEngineNote(p, m, l).jobs| == |p.jobs| && Spared(p.jobs[i], OnEngineNote(p, m, l).jobs[i])
  {
    if Startable(p.jobs[m]) && p.state == PrinterIdle {
      StartJobSpares(WithJob(p, m, AfterEngineNote(p.jobs[m], true)), m, l, i);
    }
  }

  lemma PrinterStateNoteSpares(p: Printer, l: Launch, i: nat)
    requires Queued(p, PrinterStateNote(l)) && i < |p.jobs| && p.jobs[i].state != Pending
    ensures |OnPrinterStateNote(p, l).jobs| == |p.jobs| && Spared(p.jobs[i], OnPrinterStateNote(p, l).jobs[i])
  {
    if p.state == PrinterIdle && NextJob(p.jobs).Some? {
      StartJobSpares(p.(notes := p.notes - 1), NextJob(p.jobs).value, l, i);
    }
  }

  /** Handlers leave a job past PENDING where it is. */
  lemma HandleSpares(p: Printer, n: Note, i: nat)
    requires Queued(p, n) && i < |p.jobs| && p.jobs[i].state != Pending
    ensures |Handle(p, n).jobs| == |p.jobs| && Spared(p.jobs[i], Handle(p, n).jobs[i])
  {
    match n
    case EngineNote(m, l) => EngineNoteSpares(p, m, l, i);
    case PrinterStateNote(l) => PrinterStateNoteSpares(p, l, i);
    case SelfNote(m) => SelfNoteSpares(p.jobs[m]);
    case PrinterNote(m) => PrinterNoteSpares(p, m, i);
    case ReasonsNote(m) => ReasonsNoteSpares(p, m, i);
  }

  lemma PrinterNoteSpares(p: Printer, m: nat, i: nat)
    requires Queued(p, PrinterNote(m)) && i < |p.jobs|
    ensures |OnPrinterNote(p, m).jobs| == |p.jobs| && Spared(p.jobs[i], OnPrinterNote(p, m).jobs[i])
  {
  }

  lemma ReasonsNoteSpares(p: Printer, m: nat, i: nat)
    requires Queued(p, ReasonsNote(m)) && i < |p.jobs|
    ensures |OnReasonsNote(p, m).jobs| == |p.jobs| && Spared(p.jobs[i], OnReasonsNote(p, m).jobs[i])
  {
  }

  lemma SelfNoteSpares(j: Job)
    requires 0 < j.selfNotes
    ensures Spared(j, AfterSelfNote(j))
  {
  }

  lemma HandleKeepsLoss(p: Printer, n: Note, i: nat)
    requires Safe(p) && Queued(p, n) && i < |p.jobs| && OutcomeLost(p.jobs[i])
    ensures |Handle(p, n).jobs| == |p.jobs| && OutcomeLost(Handle(p, n).jobs[i])
  {
    assert JobSafe(p.jobs[i]);
    HandleSpares(p, n, i);
  }

  lemma NextKeepsLoss(p: Printer, s: Step, i: nat)
    requires Safe(p) && CanStep(p, s) && i < |p.jobs| && OutcomeLost(p.jobs[i])
    ensures |Next(p, s).jobs| >= |p.jobs| && OutcomeLost(Next(p, s).jobs[i])
  {
    match s
    case Outside(e) =>
      if !e.CreateJob? && e.i == i {
        JobAfterKeepsLoss(p, e);
      }
    case Inside(n) => HandleKeepsLoss(p, n, i);
  }

  /** Over any continuation, an outcome that has left COMPLETED never returns to it. */
  lemma {:induction false} OutcomeNeverReturns(rules: Rules, p: Printer, steps: seq<Step>, q: Printer, i: nat)
    requires Safe(p) && Run(rules, p, steps, q) && i < |p.jobs| && OutcomeLost(p.jobs[i])
    ensures i < |q.jobs| && OutcomeLost(q.jobs[i])
    decreases |steps|
  {
    if steps != [] {
      NextSafe(p, steps[0]);
      NextKeepsLoss(p, steps[0], i);
      OutcomeNeverReturns(rules, Next(p, steps[0]), steps[1..], q, i);
    }
  }
}
