/** The objects of src/pd-job-impl.c. Every method is proved to do to the fields what the
    function of the same name in JobModel.dfy does to their value. */
module JobImplementation {
  import opened StateReasons
  import M = JobModel
  import opened JobModel

  /** struct _PdJobProcess, without its descriptors (see ProcessSetup.dfy and Pipeline.dfy). */
  class JobProcess {
    var started: bool
    var finished: bool
    var watched: bool
    var killed: bool
    var status: int

    constructor ()
      ensures Value() == NEVER_RUN
    {
      started, finished, watched, killed, status := false, false, false, false, 0;
    }

    function Value(): Process
      reads this
    {
      Process(started, finished, watched, killed, status)
    }
  }

  class JobImpl {
    var state: JobState
    var reasons: seq<Reason>
    var pendingState: JobState
    var document: bool
    var spooled: bool
    var filterchain: seq<JobProcess>
    var backend: JobProcess
    var selfWatch: bool
    var engineWatch: bool
    var outgoingWatch: bool
    var selfNotes: nat
    var engineNotes: nat
    var printerNotes: nat
    var reasonNotes: nat
    ghost var trace: seq<JobState>
    ghost var stopAt: Option<nat>
    ghost var releases: nat
    ghost var sendings: nat

    ghost predicate Valid()
      reads this
    {
      && (forall i, k :: 0 <= i < k < |filterchain| ==> filterchain[i] != filterchain[k])
      && backend !in filterchain
    }

    ghost function Footprint(): set<object>
      reads this
    {
      {this, backend} + set p | p in filterchain
    }

    ghost function Filters(): (ps: seq<Process>)
      reads this, filterchain
      ensures |ps| == |filterchain|
      ensures forall k :: 0 <= k < |ps| ==> ps[k] == filterchain[k].Value()
    {
      seq(|filterchain|, k requires 0 <= k < |filterchain| reads this, filterchain => filterchain[k].Value())
    }

    ghost function Value(): Job
      reads this, backend, filterchain
    {
      Job(state, reasons, pendingState, document, spooled, Filters(), backend.Value(),
          selfWatch, engineWatch, outgoingWatch, selfNotes, engineNotes, printerNotes, reasonNotes,
          trace, stopAt, releases, sendings)
    }

    /** pd_job_impl_init and pd_job_impl_constructed, with the engine watching. */
    constructor ()
      ensures Valid() && fresh(Footprint()) && Value() == NEW_JOB
    {
      state, reasons, pendingState := PendingHeld, [Incoming], Unset;
      document, spooled, filterchain := false, false, [];
      backend := new JobProcess();
      selfWatch, engineWatch, outgoingWatch := true, true, false;
      selfNotes, engineNotes, printerNotes, reasonNotes := 0, 0, 0, 0;
      trace, stopAt, releases, sendings := [PendingHeld], None, 0, 0;
    }

    method SetState(s: JobState)
      modifies this`state, this`selfNotes, this`engineNotes, this`printerNotes, this`trace
      ensures Value() == M.SetState(old(Value()), s)
    {
      Trace(s);
      NotifyState(s);
    }

    ghost method Trace(s: JobState)
      modifies this`trace
      ensures Value() == old(Value()).(trace := Traced(old(Value()), s))
    {
      trace := if s == state then trace else trace + [s];
      assert Filters() == old(Filters());
    }

    method NotifyState(s: JobState)
      modifies this`state, this`selfNotes, this`engineNotes, this`printerNotes
      ensures var j := old(Value());
              Value() == j.(state := s, selfNotes := j.selfNotes + 1, engineNotes := j.engineNotes + 1,
                            printerNotes := j.printerNotes + 1)
    {
      state := s;
      selfNotes, engineNotes, printerNotes := selfNotes + 1, engineNotes + 1, printerNotes + 1;
      assert Filters() == old(Filters());
    }

    method AddStateReason(r: Reason)
      modifies this`reasons, this`reasonNotes
      ensures Value() == AddReason(old(Value()), r)
    {
      var strv := AddOrRemove(Some(reasons), '+', r);
      EntriesOfVector(strv[..], Add(reasons, r));
      reasons := Entries(strv[..]);
      reasonNotes := reasonNotes + 1;
    }

    method RemoveStateReason(r: Reason)
      modifies this`reasons, this`reasonNotes
      ensures Value() == RemoveReason(old(Value()), r)
    {
      var strv := AddOrRemove(Some(reasons), '-', r);
      EntriesOfVector(strv[..], Remove(reasons, r));
      reasons := Entries(strv[..]);
      reasonNotes := reasonNotes + 1;
    }

    method TakeSelfNote()
      requires 0 < selfNotes
      modifies this`selfNotes
      ensures Value() == M.TakeSelfNote(old(Value()))
    {
      selfNotes := selfNotes - 1;
      assert Filters() == old(Filters());
    }

    method TakeEngineNote()
      requires 0 < engineNotes
      modifies this`engineNotes
      ensures Value() == M.TakeEngineNote(old(Value()))
    {
      engineNotes := engineNotes - 1;
      assert Filters() == old(Filters());
    }

    method TakePrinterNote()
      requires 0 < printerNotes
      modifies this`printerNotes
      ensures Value() == M.TakePrinterNote(old(Value()))
    {
      printerNotes := printerNotes - 1;
      assert Filters() == old(Filters());
    }

    method TakeReasonsNote()
      requires 0 < reasonNotes
      modifies this`reasonNotes
      ensures Value() == M.TakeReasonsNote(old(Value()))
    {
      reasonNotes := reasonNotes - 1;
      assert Filters() == old(Filters());
    }

    method WatchReasons(watch: bool)
      modifies this`outgoingWatch
      ensures Value() == old(Value()).(outgoingWatch := watch)
    {
      outgoingWatch := watch;
      assert Filters() == old(Filters());
    }

    method StopEngineWatch()
      modifies this`engineWatch
      ensures Value() == old(Value()).(engineWatch := false)
    {
      engineWatch := false;
      assert Filters() == old(Filters());
    }

    /** The filter-chain walk shared by check_job_transforming and process_watch_cb. */
    method FilterRunning() returns (running: bool)
      ensures running == AnyRunning(Filters())
    {
      var k := 0;
      while k < |filterchain|
        invariant 0 <= k <= |filterchain|
        invariant forall m :: 0 <= m < k ==> !Filters()[m].Running()
      {
        if filterchain[k].started && !filterchain[k].finished {
          assert Filters()[k].Running();
          return true;
        }
        k := k + 1;
      }
      running := false;
    }

    /** pd_job_impl_check_job_transforming */
    method CheckJobTransforming() returns (transforming: bool)
      modifies this`reasons, this`reasonNotes
      ensures transforming == AnyRunning(old(Filters()))
      ensures Value() == CheckTransforming(old(Value()))
    {
      transforming := FilterRunning();
      if !transforming {
        RemoveStateReason(Transforming);
      }
    }
  
    /** state_reason_is_set */
    predicate StateReasonIsSet(r: Reason)
      reads this
    {
      r in reasons
    }

    method Accepted()
      modifies this`stopAt
      ensures Value() == Accept(old(Value()))
    {
      if stopAt.None? {
        stopAt := Some(|trace|);
      }
    }

    /** The end of do_cancel_with_reason: SIGKILL for every running process. */
    method KillAll()
      requires Valid()
      modifies backend, filterchain
      ensures Value() == KillProcesses(old(Value()))
      ensures forall m :: 0 <= m < |filterchain| ==>
                filterchain[m].killed == old(filterchain[m].killed || (filterchain[m].started && !filterchain[m].finished))
      ensures backend.killed == old(backend.killed || (backend.started && !backend.finished))
    {
      var k := 0;
      while k < |filterchain|
        invariant 0 <= k <= |filterchain|
        invariant forall m :: 0 <= m < k ==> filterchain[m].Value() == Killed(old(Filters()[m]))
        invariant forall m :: k <= m < |filterchain| ==> filterchain[m].Value() == old(Filters()[m])
        invariant backend.Value() == old(backend.Value())
      {
        var jp := filterchain[k];
        if jp.started && !jp.finished {
          jp.killed := true;
        }
        k := k + 1;
      }
      assert Filters() == KilledAll(old(Filters()));
      assert forall m :: 0 <= m < |filterchain| ==> filterchain[m].Value() == Killed(old(filterchain[m].Value()));
      if backend.started && !backend.finished {
        backend.killed := true;
      }
      assert Filters() == KilledAll(old(Filters()));
    }

    /** pd_job_impl_do_cancel_with_reason */
    method DoCancelWithReason(jobState: JobState, reason: Reason)
      requires Valid()
      modifies this`state, this`selfNotes, this`engineNotes, this`printerNotes, this`trace
      modifies this`pendingState, this`stopAt, this`reasons, this`reasonNotes, backend, filterchain
      ensures Value() == DoCancel(old(Value()), jobState, reason)
    {
      AddStateReason(reason);
      if state == Pending || state == PendingHeld {
        SetState(jobState);
      } else if state == Processing || state == ProcessingStopped {
        StopProcessing(jobState);
      }
    }

    /** Its branch for a processing job. */
    method StopProcessing(jobState: JobState)
      requires Valid()
      modifies this`state, this`selfNotes, this`engineNotes, this`printerNotes, this`trace
      modifies this`pendingState, this`stopAt, this`reasons, this`reasonNotes, backend, filterchain
      ensures Value() == Stop(old(Value()), jobState)
    {
      var transforming := CheckJobTransforming();
      if !transforming && !backend.started {
        Accepted();
        SetState(jobState);
        return;
      }
      if !StateReasonIsSet(ToStopPoint) {
        StopRunning(jobState);
      }
    }

    method StopRunning(jobState: JobState)
      requires Valid()
      modifies this`pendingState, this`stopAt, this`reasons, this`reasonNotes, backend, filterchain
      ensures Value() == M.StopRunning(old(Value()), jobState)
    {
      ghost var c := Value();
      Accepted();
      pendingState := jobState;
      assert Value() == Pend(c, jobState);
      AddStateReason(ToStopPoint);
      KillAll();
      KillLast(c, jobState);
    }

    /** `w` says which of the job's processes `jp` is. */
    ghost predicate Is(jp: JobProcess, w: ProcessId)
      reads this
    {
      if w.Backend? then jp == backend else w.index < |filterchain| && jp == filterchain[w.index]
    }

    method MarkFinished(jp: JobProcess, ghost w: ProcessId, exitStatus: int)
      requires Valid() && Is(jp, w)
      modifies jp
      ensures Has(old(Value()), w)
      ensures Value() == Put(old(Value()), w, Get(old(Value()), w).(finished := true, status := exitStatus))
    {
      jp.finished, jp.status := true, exitStatus;
      if w.Backend? {
        assert Filters() == old(Filters());
      } else {
        assert Filters() == old(Filters())[w.index := jp.Value()];
      }
    }

    /** pd_job_impl_process_watch_cb */
    method ProcessWatchCb(jp: JobProcess, ghost w: ProcessId, exitStatus: int)
      requires Valid() && Is(jp, w)
      requires jp.watched && !jp.finished
      modifies this`state, this`selfNotes, this`engineNotes, this`printerNotes, this`trace
      modifies this`pendingState, this`reasons, this`reasonNotes, jp
      ensures Has(old(Value()), w) && Value() == Exit(old(Value()), w, exitStatus)
    {
      ReapProcess(jp, w, exitStatus);
      JudgeStatus(exitStatus);
      AdjustState();
    }

    method ReapProcess(jp: JobProcess, ghost w: ProcessId, exitStatus: int)
      requires Valid() && Is(jp, w)
      modifies this`reasons, this`reasonNotes, jp
      ensures Has(old(Value()), w) && Value() == Reap(old(Value()), w, exitStatus)
    {
      MarkFinished(jp, w, exitStatus);
      if jp != backend {
        var _ := CheckJobTransforming();
      } else {
        RemoveStateReason(Outgoing);
      }
    }

    method JudgeStatus(exitStatus: int)
      modifies this`pendingState
      ensures Value() == Judge(old(Value()), exitStatus)
    {
      if exitStatus != 0 {
        pendingState := Aborted;
        assert Filters() == old(Filters());
      }
    }

    /** Its last part: set the pending state once no process is left. */
    method AdjustState()
      modifies this`state, this`selfNotes, this`engineNotes, this`printerNotes, this`trace
      ensures Value() == Settle(old(Value()))
    {
      if backend.started && backend.finished {
        var running := FilterRunning();
        if !running {
          SetState(pendingState);
        }
      }
    }

    /** The job's part of pd_engine_start_job. */
    method Send(l: Launch)
      requires Valid() && l.Possible()
      modifies this`state, this`selfNotes, this`engineNotes, this`printerNotes, this`trace, this`outgoingWatch
      modifies this`pendingState, this`reasons, this`reasonNotes, this`filterchain, this`sendings, backend
      ensures Valid() && (forall p :: p in filterchain ==> p in old(filterchain) || fresh(p))
      ensures Value() == M.Send(old(Value()), l)
    {
      SetState(Processing);
      WatchReasons(true);
      StartSending(l);
    }

    /** pd_job_impl_add_document */
    method AddDocument(owner: bool, usable: bool) returns (reply: Reply)
      modifies this`document
      ensures (reply, Value()) == M.AddDocument(old(Value()), owner, usable)
    {
      if !owner {
        return NotOwner;
      }
      if document || spooled {
        return NoMoreDocuments;
      }
      if !usable {
        return BadCall;
      }
      document := true;
      reply := Ok;
      assert Filters() == old(Filters());
    }

    /** pd_job_impl_start. Its precondition is the assertion the C code makes. */
    method Start(owner: bool, spooling: Spooling) returns (reply: Reply)
      requires Valid()
      requires owner && document ==> !spooled
      modifies this`state, this`selfNotes, this`engineNotes, this`printerNotes, this`trace
      modifies this`pendingState, this`stopAt, this`reasons, this`reasonNotes, backend, filterchain
      modifies this`document, this`spooled, this`releases
      ensures (reply, Value()) == M.Start(old(Value()), owner, spooling)
      ensures owner && old(document) && spooling.WrongType? && old(state) == PendingHeld ==>
                reply == UnsupportedDocument && state == Aborted && !document && spooled
    {
      ghost var j := Value();
      if !owner {
        return NotOwner;
      }
      if !document {
        return NoDocument;
      }
      assert !spooled;
      if spooling.NoSpoolFile? {
        return SpoolError;
      }
      spooled := true;
      document := false;
      assert Filters() == old(Filters());
      assert Value() == j.(spooled := true, document := false);
      if spooling.CopyFails? {
        return SpoolError;
      }
      if spooling.WrongType? {
        DoCancelWithReason(Aborted, AbortedBySystem);
        return UnsupportedDocument;
      }
      Release();
      reply := Ok;
    }

    method Release()
      modifies this`state, this`selfNotes, this`engineNotes, this`printerNotes, this`trace
      modifies this`reasons, this`reasonNotes, this`releases
      ensures var k := old(Value());
              Value() == M.SetState(RemoveReason(k, Incoming), Pending).(releases := k.releases + 1)
    {
      RemoveStateReason(Incoming);
      SetState(Pending);
      releases := releases + 1;
    }

    /** pd_job_impl_cancel */
    method Cancel(owner: bool) returns (reply: Reply)
      requires Valid()
      modifies this`state, this`selfNotes, this`engineNotes, this`printerNotes, this`trace
      modifies this`pendingState, this`stopAt, this`reasons, this`reasonNotes, backend, filterchain
      ensures (reply, Value()) == M.Cancel(old(Value()), owner)
    {
      if !owner {
        return NotOwner;
      }
      if state == Pending || state == PendingHeld {
        DoCancelWithReason(Canceled, CanceledByUser);
        return Ok;
      }
      if state == Processing || state == ProcessingStopped {
        var transforming := CheckJobTransforming();
        if (transforming || backend.started) && StateReasonIsSet(ToStopPoint) {
          return AlreadyCanceled;
        }
        DoCancelWithReason(Canceled, CanceledByUser);
        return Ok;
      }
      reply := CannotCancel;
    }

    /** The error branch of pd_job_impl_message_io_cb. */
    method MessageError()
      modifies this`state, this`selfNotes, this`engineNotes, this`printerNotes, this`trace
      modifies this`reasons, this`reasonNotes
      ensures Value() == MessageFailure(old(Value()))
    {
      AddStateReason(CanceledBySystem);
      SetState(Canceled);
    }

    /** pd_job_impl_job_state_notify */
    method JobStateNotify()
      modifies this`reasons, this`reasonNotes, this`selfWatch
      ensures Value() == SelfNotified(old(Value()))
    {
      if state == Canceled || state == Aborted || state == Completed {
        RemoveStateReason(Incoming);
        RemoveStateReason(ToStopPoint);
        selfWatch := false;
      }
    }

    /** The processes start_processing appends to an empty chain. */
    method AppendProcesses(n: nat)
      requires Valid() && filterchain == []
      modifies this`filterchain
      ensures Valid() && fresh(set p | p in filterchain)
      ensures Value() == old(Value()).(filters := Chain(n, 0, SPAWNED))
    {
      for k := 0 to n
        invariant Valid() && |filterchain| == k
        invariant forall p :: p in filterchain ==> fresh(p) && p.Value() == NEVER_RUN
        invariant backend.Value() == old(backend.Value())
      {
        var jp := new JobProcess();
        filterchain := filterchain + [jp];
      }
      assert Filters() == Chain(n, 0, SPAWNED);
    }

    /** Run the first `k` processes of the chain. */
    method RunFilters(k: nat)
      requires Valid() && k <= |filterchain| && Filters() == Chain(|filterchain|, 0, SPAWNED)
      modifies filterchain
      ensures Value() == old(Value()).(filters := Chain(|filterchain|, k, SPAWNED))
    {
      for m := 0 to k
        invariant forall x :: 0 <= x < m ==> filterchain[x].Value() == SPAWNED
        invariant forall x :: m <= x < |filterchain| ==> filterchain[x].Value() == NEVER_RUN
        invariant backend.Value() == old(backend.Value())
      {
        assert Filters()[m] == NEVER_RUN;
        filterchain[m].started := true;
      }
      assert Filters() == Chain(|filterchain|, k, SPAWNED);
    }

    /** Watch for the filters exiting. */
    method WatchFilters()
      requires Valid() && Filters() == Chain(|filterchain|, |filterchain|, SPAWNED)
      modifies filterchain
      ensures Value() == old(Value()).(filters := Chain(|filterchain|, |filterchain|, WATCHED))
    {
      for m := 0 to |filterchain|
        invariant forall x :: 0 <= x < m ==> filterchain[x].Value() == WATCHED
        invariant forall x :: m <= x < |filterchain| ==> filterchain[x].Value() == SPAWNED
        invariant backend.Value() == old(backend.Value())
      {
        assert Filters()[m] == SPAWNED;
        filterchain[m].watched := true;
      }
      assert Filters() == Chain(|filterchain|, |filterchain|, WATCHED);
    }

    /** pd_job_impl_start_processing */
    method StartProcessing(l: Launch)
      requires Valid() && l.Possible()
      modifies this`state, this`selfNotes, this`engineNotes, this`printerNotes, this`trace
      modifies this`pendingState, this`reasons, this`reasonNotes, this`filterchain
      ensures Valid() && (forall p :: p in filterchain ==> p in old(filterchain) || fresh(p))
      ensures Value() == M.StartProcessing(old(Value()), l)
    {
      if filterchain != [] {
        return;
      }
      if l.NoSetup? {
        SetState(Aborted);
        return;
      }
      AppendProcesses(l.n);
      if l.SetupFails? {
        SetState(Aborted);
        return;
      }
      if l.FilterFails? {
        RunSomeFilters(l.n, l.k);
      } else {
        RunAllFilters(l.n);
      }
    }

    method MarkTransforming()
      modifies this`pendingState, this`reasons, this`reasonNotes
      ensures Value() == Transform(old(Value()), old(Filters()))
    {
      pendingState := Processing;
      assert Filters() == old(Filters());
      AddStateReason(Transforming);
    }

    /** A filter fails to start: those before it run unwatched. */
    method RunSomeFilters(n: nat, k: nat)
      requires Valid() && k <= n && Filters() == Chain(n, 0, SPAWNED)
      modifies this`state, this`selfNotes, this`engineNotes, this`printerNotes, this`trace
      modifies this`pendingState, this`reasons, this`reasonNotes, filterchain
      ensures Value() == M.SetState(Transform(old(Value()), Chain(n, k, SPAWNED)), Aborted)
    {
      RunSome(n, k);
      SetState(Aborted);
    }

    method RunSome(n: nat, k: nat)
      requires Valid() && k <= n && Filters() == Chain(n, 0, SPAWNED)
      modifies this`pendingState, this`reasons, this`reasonNotes, filterchain
      ensures Value() == Transform(old(Value()), Chain(n, k, SPAWNED))
    {
      MarkTransforming();
      RunFilters(k);
    }

    method RunAllFilters(n: nat)
      requires Valid() && Filters() == Chain(n, 0, SPAWNED)
      modifies this`pendingState, this`reasons, this`reasonNotes, filterchain
      ensures Value() == Transform(old(Value()), Chain(n, n, WATCHED))
    {
      MarkTransforming();
      RunFilters(n);
      WatchFilters();
    }

    /** pd_job_impl_start_sending */
    method StartSending(l: Launch)
      requires Valid() && l.Possible()
      modifies this`state, this`selfNotes, this`engineNotes, this`printerNotes, this`trace
      modifies this`pendingState, this`reasons, this`reasonNotes, this`filterchain, this`sendings, backend
      ensures Valid() && (forall p :: p in filterchain ==> p in old(filterchain) || fresh(p))
      ensures Value() == M.StartSending(old(Value()), l)
    {
      MarkOutgoing();
      RunAll(l);
    }

    method MarkOutgoing()
      modifies this`reasons, this`reasonNotes, this`sendings
      ensures Value() == M.MarkOutgoing(old(Value()))
    {
      AddStateReason(Outgoing);
      sendings := sendings + 1;
      assert Filters() == old(Filters());
    }

    method RunAll(l: Launch)
      requires Valid() && l.Possible()
      modifies this`state, this`selfNotes, this`engineNotes, this`printerNotes, this`trace
      modifies this`pendingState, this`reasons, this`reasonNotes, this`filterchain, backend
      ensures Valid() && (forall p :: p in filterchain ==> p in old(filterchain) || fresh(p))
      ensures Value() == RunChain(old(Value()), l)
    {
      if filterchain == [] {
        StartProcessing(l);
        if state == Aborted {
          return;
        }
      }
      RunBackend(l);
    }

    method RunBackend(l: Launch)
      requires Valid()
      modifies this`state, this`selfNotes, this`engineNotes, this`printerNotes, this`trace
      modifies this`pendingState, backend
      ensures Value() == (if l.BackendFails?
                          then M.SetState(old(Value()).(pendingState := Completed), Aborted)
                          else var j := old(Value());
                               j.(pendingState := Completed, backend := j.backend.(started := true, watched := true)))
    {
      pendingState := Completed;
      assert Filters() == old(Filters());
      if l.BackendFails? {
        SetState(Aborted);
      } else {
        backend.started, backend.watched := true, true;
        assert Filters() == old(Filters());
      }
    }

    /** notify::state reaches pd_job_impl_job_state_notify. */
    method DeliverSelfNote()
      requires 0 < selfNotes
      modifies this`selfNotes, this`reasons, this`reasonNotes, this`selfWatch
      ensures Value() == AfterSelfNote(old(Value()))
    {
      TakeSelfNote();
      if selfWatch {
        JobStateNotify();
      }
    }

    /** The job's part of pd_engine_job_state_notify. */
    method DeliverEngineNote(idle: bool) returns (start: bool)
      requires 0 < engineNotes
      modifies this`engineNotes, this`engineWatch
      ensures start == (Startable(old(Value())) && idle)
      ensures Value() == AfterEngineNote(old(Value()), idle)
    {
      TakeEngineNote();
      start := false;
      if engineWatch {
        if state == Pending {
          if idle {
            StopEngineWatch();
            start := true;
          }
        } else if state != PendingHeld {
          StopEngineWatch();
        }
      }
    }

    /** The job's part of pd_engine_job_state_reasons_notify. */
    method DeliverReasonsNote() returns (free: bool)
      requires 0 < reasonNotes
      modifies this`reasonNotes, this`outgoingWatch
      ensures free == LetsGo(old(Value()))
      ensures Value() == AfterReasonsNote(old(Value()))
    {
      TakeReasonsNote();
      free := false;
      if outgoingWatch {
        var outgoing := Carries(reasons, Outgoing);
        if !outgoing {
          WatchReasons(false);
          free := true;
        }
      }
    }
  }

  /** The search of the reasons handler for one reason. */
  method Carries(reasons: seq<Reason>, r: Reason) returns (found: bool)
    ensures found == (r in reasons)
  {
    var k := 0;
    while k < |reasons|
      invariant 0 <= k <= |reasons| && r !in reasons[..k]
    {
      if reasons[k] == r {
        return true;
      }
      k := k + 1;
    }
    assert reasons[..k] == reasons;
    found := false;
  }

  lemma KillLast(c: Job, s: JobState)
    ensures KillProcesses(AddReason(Pend(c, s), ToStopPoint)) == StopRunning(c, s)
  {
  }
}
