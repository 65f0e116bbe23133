/** The printer object of src/pd-printer-impl.c with the engine's handlers (src/pd-engine.c) for
    its jobs. `Shows(p)` says that the objects have the value `p`; every method turns objects
    that show `p` into objects that show what the step machine makes of `p`. */
module PrinterImplementation {
  import opened StateReasons
  import opened JobModel
  import M = PrinterModel
  import opened PrinterModel
  import opened JobImplementation
  import DeviceGuard
  import PrinterSafety
  import Runs
  import StateLine

  class PrinterImpl {
    var state: PrinterState
    var jobOutgoing: bool
    var jobs: seq<JobImpl>
    var notes: nat
    var reasons: seq<string>

    /** The jobs are different objects with separate processes. */
    ghost predicate Valid()
      reads this, jobs
    {
      && (forall i :: 0 <= i < |jobs| ==> jobs[i].Valid())
      && (forall i, k :: 0 <= i < |jobs| && 0 <= k < |jobs| && i != k ==> Apart(jobs[i], jobs[k]))
    }

    static ghost predicate Apart(a: JobImpl, b: JobImpl)
      reads a, b
    {
      && a != b
      && a.backend != b.backend
      && a.backend !in b.filterchain
      && b.backend !in a.filterchain
      && (forall p :: p in a.filterchain ==> p !in b.filterchain)
    }

    ghost predicate Shows(p: Printer)
      reads *
    {
      && p.state == state && p.jobOutgoing == jobOutgoing && p.notes == notes && p.reasons == reasons
      && |p.jobs| == |jobs|
      && forall k :: 0 <= k < |jobs| ==> p.jobs[k] == jobs[k].Value()
    }

    constructor ()
      ensures Valid() && Shows(NEW_PRINTER)
    {
      state, jobOutgoing, jobs, notes, reasons := PrinterIdle, false, [], 0, [];
    }

    /** Assigning the printer's own fields. */
    method SetFields(s: PrinterState, n: nat, outgoing: bool, ghost p: Printer)
      requires Shows(p)
      modifies this`state, this`notes, this`jobOutgoing
      ensures Shows(p.(state := s, notes := n, jobOutgoing := outgoing))
    {
      state, notes, jobOutgoing := s, n, outgoing;
    }

    /** The part of complete_create_job and pd_engine_add_job that matters to scheduling. */
    method CreateJob(ghost p: Printer)
      requires Valid() && Shows(p)
      modifies this`jobs
      ensures Valid() && Shows(Happen(p, Event.CreateJob))
    {
      var job := new JobImpl();
      AppendJob(job, p);
    }

    method AppendJob(job: JobImpl, ghost p: Printer)
      requires Valid() && Shows(p) && job.Valid()
      requires forall k :: 0 <= k < |jobs| ==> Apart(job, jobs[k]) && Apart(jobs[k], job)
      modifies this`jobs
      ensures Valid() && Shows(p.(jobs := p.jobs + [job.Value()]))
    {
      jobs := jobs + [job];
    }

    /** pd_printer_impl_get_next_job */
    method GetNextJob(ghost p: Printer) returns (best: Option<nat>)
      requires Shows(p)
      ensures best == NextJob(p.jobs)
    {
      var index := 0;
      while index < |jobs|
        invariant 0 <= index <= |jobs|
        invariant NextJob(p.jobs) == NextFrom(p.jobs, index)
      {
        assert p.jobs[index].state == jobs[index].state;
        if jobs[index].state == Pending {
          return Some(index);
        }
        index := index + 1;
      }
      best := None;
    }

    /** A line from a process's stderr, through the two signals it may emit. */
    method JobStderr(line: string)
      modifies this`reasons
      ensures reasons == StateLine.HandledAll(old(reasons), StateLine.Parse(line))
    {
      var signals := StateLine.ParseStderr(line);
      var k := 0;
      while k < |signals|
        invariant 0 <= k <= |signals|
        invariant StateLine.HandledAll(reasons, signals[k..]) == StateLine.HandledAll(old(reasons), signals)
      {
        assert signals[k..][1..] == signals[k + 1..];
        match signals[k] {
          case AddPrinterStateReason(r) => UpdateStateReason('+', r);
          case RemovePrinterStateReason(r) => UpdateStateReason('-', r);
        }
        k := k + 1;
      }
    }

    /** pd_printer_impl_add_state_reason and pd_printer_impl_remove_state_reason */
    method UpdateStateReason(op: char, reason: string)
      modifies this`reasons
      ensures reasons == Updated(old(reasons), op, reason)
    {
      var strv := AddOrRemove(Some(reasons), op, reason);
      EntriesOfVector(strv[..], Updated(reasons, op, reason));
      reasons := Entries(strv[..]);
    }

    // The jobs' notifications

    /** notify::state reaches pd_job_impl_job_state_notify. */
    method DeliverSelfNote(i: nat, ghost p: Printer)
      requires Valid() && Shows(p) && i < |jobs| && 0 < jobs[i].selfNotes
      modifies jobs[i]
      ensures Valid() && Shows(OnSelfNote(p, i))
    {
      jobs[i].DeliverSelfNote();
    }

    /** notify::state reaches pd_printer_impl_job_state_notify. */
    method DeliverPrinterNote(i: nat, ghost p: Printer)
      requires Valid() && Shows(p) && i < |jobs| && 0 < jobs[i].printerNotes
      modifies jobs[i], this`state, this`notes, this`jobOutgoing
      ensures Valid() && Shows(OnPrinterNote(p, i))
    {
      var s := jobs[i].state;
      DropPrinterNote(i, p);
      if s == Canceled || s == Aborted || s == Completed {
        BecomeIdle(WithJob(p, i, TakePrinterNote(p.jobs[i])));
      }
    }

    method BecomeIdle(ghost p: Printer)
      requires Valid() && Shows(p)
      modifies this`state, this`notes, this`jobOutgoing
      ensures Valid() && Shows(if p.state == PrinterProcessing then SetPrinterState(p, PrinterIdle) else p)
    {
      if state == PrinterProcessing {
        SetFields(PrinterIdle, notes + 1, jobOutgoing, p);
      }
    }

    method DropPrinterNote(i: nat, ghost p: Printer)
      requires Valid() && Shows(p) && i < |jobs| && 0 < jobs[i].printerNotes
      modifies jobs[i]
      ensures Valid() && Shows(WithJob(p, i, TakePrinterNote(p.jobs[i])))
    {
      jobs[i].TakePrinterNote();
    }

    /** notify::state-reasons reaches pd_engine_job_state_reasons_notify. */
    method DeliverReasonsNote(i: nat, ghost p: Printer)
      requires Valid() && Shows(p) && i < |jobs| && 0 < jobs[i].reasonNotes
      modifies jobs[i], this`state, this`notes, this`jobOutgoing
      ensures Valid() && Shows(OnReasonsNote(p, i))
    {
      var free := DropReasonsNote(i, p);
      SetFields(state, notes, jobOutgoing && !free, WithJob(p, i, AfterReasonsNote(p.jobs[i])));
    }

    method DropReasonsNote(i: nat, ghost p: Printer) returns (free: bool)
      requires Valid() && Shows(p) && i < |jobs| && 0 < jobs[i].reasonNotes
      modifies jobs[i]
      ensures Valid() && Shows(WithJob(p, i, AfterReasonsNote(p.jobs[i])))
      ensures free == LetsGo(p.jobs[i])
    {
      free := jobs[i].DeliverReasonsNote();
    }

    method StartWaiting(i: nat, ghost p: Printer)
      requires Valid() && Shows(p) && i < |jobs|
      modifies jobs[i]
      ensures Valid() && Shows(WithJob(p, i, SetState(p.jobs[i], Processing)))
    {
      jobs[i].SetState(Processing);
    }

    method StartOutgoing(i: nat, l: Launch, ghost p: Printer)
      requires Valid() && Shows(p) && i < |jobs| && l.Possible()
      modifies jobs[i], jobs[i].backend
      ensures Valid() && Shows(WithJob(p, i, Send(p.jobs[i], l)))
    {
      SendOnly(i, jobs[i], l);
    }

    method SendOnly(ghost i: nat, job: JobImpl, l: Launch)
      requires Valid() && i < |jobs| && l.Possible() && job == jobs[i]
      modifies job, job.backend
      ensures Valid() && jobs[i].Value() == Send(old(jobs[i].Value()), l)
      ensures forall k :: 0 <= k < |jobs| && k != i ==> jobs[k].Value() == old(jobs[k].Value())
    {
      assert forall k :: 0 <= k < |jobs| && k != i ==> Apart(job, jobs[k]) && Apart(jobs[k], job);
      job.Send(l);
      forall k | 0 <= k < |jobs| && k != i
        ensures jobs[k].Valid() && Apart(job, jobs[k]) && Apart(jobs[k], job)
      {
      }
    }

    /** pd_engine_start_job */
    method StartJob(i: nat, l: Launch, ghost p: Printer)
      requires Valid() && Shows(p) && i < |jobs| && l.Possible()
      modifies this`state, this`notes, this`jobOutgoing, jobs[i], jobs[i].backend
      ensures Valid() && Shows(M.StartJob(p, i, l))
    {
      SetFields(PrinterProcessing, notes + 1, jobOutgoing, p);
      ghost var busy := SetPrinterState(p, PrinterProcessing);
      if jobOutgoing {
        StartWaiting(i, busy);
      } else {
        SetFields(state, notes, true, busy);
        StartOutgoing(i, l, busy.(jobOutgoing := true));
      }
    }

    /** notify::state reaches pd_engine_job_state_notify. */
    method DeliverEngineNote(i: nat, l: Launch, ghost p: Printer)
      requires Valid() && Shows(p) && i < |jobs| && 0 < jobs[i].engineNotes && l.Possible()
      modifies this`state, this`notes, this`jobOutgoing, jobs[i], jobs[i].backend
      ensures Valid() && Shows(OnEngineNote(p, i, l))
    {
      var start := DropEngineNote(i, p);
      if start {
        StartJob(i, l, WithJob(p, i, AfterEngineNote(p.jobs[i], true)));
      }
    }

    method DropEngineNote(i: nat, ghost p: Printer) returns (start: bool)
      requires Valid() && Shows(p) && i < |jobs| && 0 < jobs[i].engineNotes
      modifies jobs[i]
      ensures Valid() && Shows(WithJob(p, i, AfterEngineNote(p.jobs[i], p.state == PrinterIdle)))
      ensures jobs[i].backend == old(jobs[i].backend)
      ensures start == (Startable(p.jobs[i]) && p.state == PrinterIdle)
    {
      start := jobs[i].DeliverEngineNote(state == PrinterIdle);
    }

    /** notify::state reaches pd_engine_printer_state_notify. */
    method DeliverPrinterStateNote(l: Launch, ghost p: Printer)
      requires Valid() && Shows(p) && 0 < notes && l.Possible()
      modifies this`state, this`notes, this`jobOutgoing, jobs, set j | j in jobs :: j.backend
      ensures Valid() && Shows(OnPrinterStateNote(p, l))
    {
      SetFields(state, notes - 1, jobOutgoing, p);
      if state == PrinterIdle {
        StartNext(l, p.(notes := p.notes - 1));
      }
    }

    /** The assertion is the C code's. */
    method StartNext(l: Launch, ghost p: Printer)
      requires Valid() && Shows(p) && l.Possible()
      modifies this`state, this`notes, this`jobOutgoing, jobs, set j | j in jobs :: j.backend
      ensures Valid() && Shows(if NextJob(p.jobs).Some? then M.StartJob(p, NextJob(p.jobs).value, l) else p)
    {
      var best := GetNextJob(p);
      if best.Some? {
        assert p.jobs[best.value].state == jobs[best.value].state == Pending;
        StartJob(best.value, l, p);
      }
    }

    // What reaches a job from outside

    /** A D-Bus call, the exit of a child or an I/O callback, on one job. */
    static method Receive(job: JobImpl, e: Event)
      requires job.Valid() && !e.CreateJob? && !e.MessageLine?
      requires e.ChildExit? ==> CanExit(job.Value(), e.w)
      requires e.StartCall? ==> (job.document ==> !job.spooled)
      modifies job, job.backend, job.filterchain
      ensures job.Valid() && job.backend == old(job.backend) && job.filterchain == old(job.filterchain)
      ensures (e.ChildExit? ==> Has(old(job.Value()), e.w)) && job.Value() == JobAfter(old(job.Value()), e)
    {
      match e {
        case AddDocumentCall(_, owner, usable) => var _ := job.AddDocument(owner, usable);
        case StartCall(_, owner, spooling) => var _ := job.Start(owner, spooling);
        case CancelCall(_, owner) => var _ := job.Cancel(owner);
        case ChildExit(_, w, status) => ReceiveExit(job, w, status);
        case DataError(_, reason) => job.DoCancelWithReason(Aborted, reason);
        case DataEnd(_) => var _ := job.CheckJobTransforming();
        case MessageError(_) => job.MessageError();
        case _ =>
      }
    }

    static method ReceiveExit(job: JobImpl, w: ProcessId, status: int)
      requires job.Valid() && CanExit(job.Value(), w)
      modifies job, job.backend, job.filterchain
      ensures job.Valid() && job.backend == old(job.backend) && job.filterchain == old(job.filterchain)
      ensures Has(old(job.Value()), w) && job.Value() == Exit(old(job.Value()), w, status)
    {
      if w.Backend? {
        job.ProcessWatchCb(job.backend, w, status);
      } else {
        job.ProcessWatchCb(job.filterchain[w.index], w, status);
      }
    }

    /** The other jobs are not touched. */
    method ReceiveOnly(ghost i: nat, job: JobImpl, e: Event)
      requires Valid() && i < |jobs| && job == jobs[i] && !e.CreateJob? && !e.MessageLine?
      requires e.ChildExit? ==> CanExit(job.Value(), e.w)
      requires e.StartCall? ==> (job.document ==> !job.spooled)
      modifies job, job.backend, job.filterchain
      ensures Valid() && (e.ChildExit? ==> Has(old(job.Value()), e.w))
      ensures jobs[i].Value() == JobAfter(old(jobs[i].Value()), e)
      ensures forall k :: 0 <= k < |jobs| && k != i ==> jobs[k].Value() == old(jobs[k].Value())
    {
      assert forall k :: 0 <= k < |jobs| && k != i ==> Apart(job, jobs[k]) && Apart(jobs[k], job);
      Receive(job, e);
      forall k | 0 <= k < |jobs| && k != i
        ensures jobs[k].Valid() && Apart(job, jobs[k]) && Apart(jobs[k], job)
      {
      }
      forall k | 0 <= k < |jobs| && k != i ensures jobs[k].Value() == old(jobs[k].Value()) {
        assert forall m :: 0 <= m < |jobs[k].filterchain| ==>
                 jobs[k].filterchain[m] !in job.filterchain && jobs[k].filterchain[m] != job.backend;
        assert jobs[k].Filters() == old(jobs[k].Filters());
      }
    }

    /** What the assertion in pd_job_impl_start rests on. */
    lemma StartAsserts(p: Printer, i: nat)
      requires Shows(p) && Reachable(ANY_RUN, p) && i < |jobs|
      ensures jobs[i].document ==> !jobs[i].spooled
    {
      PrinterSafety.DocumentIsOneShot(p, i);
      assert p.jobs[i] == jobs[i].Value();
    }

    /** An outside step about job `i`. */
    method JobEvent(e: Event, ghost p: Printer)
      requires Valid() && Shows(p) && Reachable(ANY_RUN, p) && Possible(p, e) && !e.CreateJob? && !e.MessageLine?
      modifies jobs[e.i], jobs[e.i].backend, jobs[e.i].filterchain
      ensures Valid() && Shows(Happen(p, e))
    {
      StartAsserts(p, e.i);
      assert p.jobs[e.i] == jobs[e.i].Value();
      ReceiveOnly(e.i, jobs[e.i], e);
    }

    ghost function ChainProcesses(): (ps: set<JobProcess>)
      reads this, jobs
      ensures forall i, q :: 0 <= i < |jobs| && q in jobs[i].filterchain ==> q in ps
    {
      set j, q | j in jobs && q in j.filterchain :: q
    }

    method LineEvent(i: nat, line: string, ghost p: Printer)
      requires Valid() && Shows(p) && Possible(p, MessageLine(i, line))
      modifies this`reasons
      ensures Valid() && Shows(Happen(p, MessageLine(i, line)))
    {
      HearLine(line, p);
      assert Happen(p, MessageLine(i, line)) == p.(reasons := StateLine.HandledAll(p.reasons, StateLine.Parse(line)));
    }

    method HearLine(line: string, ghost p: Printer)
      requires Valid() && Shows(p)
      modifies this`reasons
      ensures Valid() && Shows(p.(reasons := StateLine.HandledAll(p.reasons, StateLine.Parse(line))))
    {
      JobStderr(line);
    }

    /** One outside step. */
    method TakeEvent(e: Event, ghost p: Printer)
      requires Valid() && Shows(p) && Reachable(ANY_RUN, p) && Possible(p, e)
      modifies this`jobs, this`reasons, jobs, set j | j in jobs :: j.backend
      modifies ChainProcesses()
      ensures Valid() && Shows(Happen(p, e))
    {
      if e.CreateJob? {
        CreateJob(p);
      } else if e.MessageLine? {
        LineEvent(e.i, e.line, p);
      } else {
        JobEvent(e, p);
      }
    }

    /** One handler. */
    method TakeNote(n: Note, ghost p: Printer)
      requires Valid() && Shows(p) && Queued(p, n)
      modifies this`state, this`notes, this`jobOutgoing, jobs, set j | j in jobs :: j.backend
      ensures Valid() && Shows(Handle(p, n))
    {
      match n {
        case SelfNote(i) => DeliverSelfNote(i, p);
        case EngineNote(i, l) => DeliverEngineNote(i, l, p);
        case PrinterNote(i) => DeliverPrinterNote(i, p);
        case ReasonsNote(i) => DeliverReasonsNote(i, p);
        case PrinterStateNote(l) => DeliverPrinterStateNote(l, p);
      }
    }

    /** The objects can take every step that the machine can, to what it steps to: objects that
        show a reachable printer go on showing one, and what is proved of those holds of them. */
    method Take(s: Step, ghost p: Printer)
      requires Valid() && Shows(p) && Reachable(ANY_RUN, p) && Allowed(ANY_RUN, p, s)
      modifies this, jobs, set j | j in jobs :: j.backend
      modifies ChainProcesses()
      ensures Valid() && Shows(M.Next(p, s)) && Reachable(ANY_RUN, M.Next(p, s))
    {
      Runs.ReachNext(ANY_RUN, p, s);
      match s {
        case Outside(e) => TakeEvent(e, p);
        case Inside(n) => TakeNote(n, p);
      }
    }

    /** Device exclusion, of the objects. */
    lemma OneBackendRuns(p: Printer, i: nat, k: nat)
      requires Shows(p) && (Reachable(HELD_ONLY, p) || DeviceGuard.Careful(p)) && i < |jobs| && k < |jobs|
      requires jobs[i].backend.started && !jobs[i].backend.finished
      requires jobs[k].backend.started && !jobs[k].backend.finished
      ensures i == k
    {
      assert p.jobs[i].backend == jobs[i].backend.Value() && p.jobs[k].backend == jobs[k].backend.Value();
      if Reachable(HELD_ONLY, p) {
        DeviceGuard.HeldOnlyIsCareful(p);
      }
      DeviceGuard.OneDriver(p, i, k);
    }
  }
}
