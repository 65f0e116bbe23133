/** What every step keeps about one job, whatever the callers do. */
module JobSafety {
  import opened StateReasons
  import opened JobModel

  /** The document is one-shot: once spooled, none is attached again, so the assertion in Start
      holds, the job is released at most once and sent at most once. */
  ghost predicate OneShot(j: Job) {
    && (j.document ==> !j.spooled)
    && (!j.spooled ==> j.releases == 0 && (j.state == PendingHeld || j.state == Canceled))
    && j.sendings <= j.releases <= 1
    && (j.state == PendingHeld ==> j.releases == 0)
    && (j.state == Pending ==> j.releases == 1 && j.sendings == 0)
    && (j.state == Processing || j.state == Completed ==> j.releases == 1)
    && j.state != Unset && j.state != ProcessingStopped
  }

  /** Before start_sending there is no process; a started backend has a fully watched chain. */
  ghost predicate Supervised(j: Job) {
    && (j.sendings == 0 ==> j.filters == [] && j.backend == NEVER_RUN && j.pendingState == Unset)
    && (j.backend.watched <==> j.backend.started)
    && (j.backend.started ==> j.filters != [] && forall k :: 0 <= k < |j.filters| ==> j.filters[k].watched)
    && (j.backend.finished ==> j.backend.watched)
    && (forall k :: 0 <= k < |j.filters| ==> j.filters[k].watched ==> j.filters[k].started)
    && (forall k :: 0 <= k < |j.filters| ==> j.filters[k].finished ==> j.filters[k].watched)
  }

  ghost predicate AllSucceeded(j: Job) {
    && (j.backend.finished ==> j.backend.status == 0)
    && (forall k :: 0 <= k < |j.filters| ==> j.filters[k].finished ==> j.filters[k].status == 0)
  }

  /** With a backend, the pending outcome is terminal; while it is COMPLETED nothing failed. */
  ghost predicate Honest(j: Job) {
    && (j.backend.started ==> j.pendingState.Terminal())
    && (j.backend.started && j.pendingState == Completed ==> AllSucceeded(j))
    && (j.state == Completed ==> j.pendingState == Completed && j.backend.finished && !AnyRunning(j.filters))
  }

  /** An accepted stop stands: no later state is anything but CANCELED or ABORTED. */
  ghost predicate StopStands(j: Job) {
    && j.trace != [] && j.trace[|j.trace| - 1] == j.state
    && (j.stopAt.Some? ==>
          && j.releases == 1
          && j.state != Pending
          && (j.backend.started ==> j.pendingState.Stopped())
          && j.stopAt.value <= |j.trace|
          && (forall k :: j.stopAt.value <= k < |j.trace| ==> j.trace[k].Stopped()))
  }

  ghost predicate JobSafe(j: Job) {
    OneShot(j) && Supervised(j) && Honest(j) && StopStands(j) && NoDuplicates(j.reasons)
  }

  lemma NewJobSafe()
    ensures JobSafe(NEW_JOB)
  {
  }

  lemma ReasonSafe(j: Job, op: char, r: Reason)
    requires JobSafe(j)
    ensures JobSafe(j.(reasons := Updated(j.reasons, op, r), reasonNotes := j.reasonNotes + 1))
  {
    UpdateKeepsDistinct(j.reasons, op, r);
  }

  /** Cancelling or aborting keeps a job safe, in every state. */
  lemma DoCancelSafe(j: Job, s: JobState, reason: Reason)
    requires JobSafe(j) && s.Stopped()
    requires s == Aborted ==> j.spooled
    ensures JobSafe(DoCancel(j, s, reason))
  {
    ReasonSafe(j, '+', reason);
    var a := AddReason(j, reason);
    if j.state == Processing {
      StopSafe(a, s);
    } else if j.state == Pending || j.state == PendingHeld {
      EndUnstartedSafe(a, s);
    }
  }

  lemma EndUnstartedSafe(a: Job, s: JobState)
    requires JobSafe(a) && (a.state == Pending || a.state == PendingHeld) && s.Stopped()
    requires s == Aborted ==> a.spooled
    ensures JobSafe(SetState(a, s))
  {
  }

  lemma CheckSafe(j: Job)
    requires JobSafe(j)
    ensures JobSafe(CheckTransforming(j))
  {
    ReasonSafe(j, '-', Transforming);
  }

  lemma StopSafe(j: Job, s: JobState)
    requires JobSafe(j) && s.Stopped() && j.state == Processing
    ensures JobSafe(Stop(j, s))
  {
    CheckSafe(j);
    var c := CheckTransforming(j);
    if !AnyRunning(j.filters) && !j.backend.started {
      StopNowSafe(c, s);
      assert Stop(j, s) == StopNow(c, s);
    } else if ToStopPoint in c.reasons {
      assert Stop(j, s) == c;
    } else {
      StopRunningSafe(c, s);
      assert Stop(j, s) == StopRunning(c, s);
    }
  }

  lemma StopNowSafe(j: Job, s: JobState)
    requires JobSafe(j) && s.Stopped() && j.state == Processing && !j.backend.started
    ensures JobSafe(StopNow(j, s))
  {
  }

  lemma StopRunningSafe(j: Job, s: JobState)
    requires JobSafe(j) && s.Stopped() && j.state == Processing
    requires AnyRunning(j.filters) || j.backend.started
    ensures JobSafe(StopRunning(j, s))
  {
    KillSafe(j, s);
    ReasonSafe(Kill(j, s), '+', ToStopPoint);
  }

  lemma KillSafe(j: Job, s: JobState)
    requires JobSafe(j) && s.Stopped() && j.state == Processing
    requires AnyRunning(j.filters) || j.backend.started
    ensures JobSafe(Kill(j, s))
  {
    var k := Kill(j, s);
    assert OneShot(k) && Supervised(k);
    assert Honest(k);
  }

  lemma JudgeSafe(j: Job, w: ProcessId, status: int)
    requires JobSafe(j) && CanExit(j, w)
    ensures JobSafe(Judge(j, status)) && CanExit(Judge(j, status), w)
  {
    if w.Filter? {
      assert j.filters[w.index].Running();
    }
  }

  lemma JudgeFirst(j: Job, w: ProcessId, status: int)
    requires Has(j, w)
    ensures Judge(Reap(j, w, status), status) == Reap(Judge(j, status), w, status)
  {
    if status != 0 {
      var p := Get(j, w).(finished := true, status := status);
      var f := Put(j, w, p);
      assert Get(Judge(j, status), w) == Get(j, w);
      assert Put(Judge(j, status), w, p) == f.(pendingState := Aborted);
      if w.Backend? {
        assert Reap(j, w, status) == RemoveReason(f, Outgoing);
      } else {
        assert Reap(j, w, status) == CheckTransforming(f);
      }
    }
  }

  lemma ReapFilterSafe(j: Job, i: nat, status: int)
    requires JobSafe(j) && CanExit(j, Filter(i))
    requires status == 0 || j.pendingState == Aborted
    ensures JobSafe(Reap(j, Filter(i), status))
    ensures Reap(j, Filter(i), status).trace == j.trace
  {
    assert j.filters[i].Running();
    var f := j.(filters := j.filters[i := j.filters[i].(finished := true, status := status)]);
    assert Supervised(f) && Honest(f);
    CheckSafe(f);
  }

  lemma ReapBackendSafe(j: Job, status: int)
    requires JobSafe(j) && CanExit(j, Backend)
    requires status == 0 || j.pendingState == Aborted
    ensures JobSafe(Reap(j, Backend, status))
    ensures Reap(j, Backend, status).trace == j.trace
  {
    var f := j.(backend := j.backend.(finished := true, status := status));
    assert Supervised(f) && Honest(f);
    ReasonSafe(f, '-', Outgoing);
  }

  lemma SettleSafe(j: Job)
    requires JobSafe(j)
    ensures JobSafe(Settle(j))
    ensures Settle(j).trace == j.trace || (Settle(j).state.Terminal() && Settle(j).trace == j.trace + [Settle(j).state])
  {
  }

  /** Reaping a child keeps a job safe; with a backend, a state it sets is terminal. */
  lemma ExitSafe(j: Job, w: ProcessId, status: int)
    requires JobSafe(j) && CanExit(j, w)
    ensures JobSafe(Exit(j, w, status))
    ensures var k := Exit(j, w, status);
            k.trace == j.trace || (k.state.Terminal() && k.trace == j.trace + [k.state])
  {
    JudgeSafe(j, w, status);
    JudgeFirst(j, w, status);
    if w.Filter? {
      ReapFilterSafe(Judge(j, status), w.index, status);
    } else {
      ReapBackendSafe(Judge(j, status), status);
    }
    SettleSafe(Reap(Judge(j, status), w, status));
  }

  lemma AddDocumentSafe(j: Job, owner: bool, usable: bool)
    requires JobSafe(j)
    ensures JobSafe(AddDocument(j, owner, usable).1)
  {
  }

  lemma StartSafe(j: Job, owner: bool, spooling: Spooling)
    requires JobSafe(j)
    ensures JobSafe(Start(j, owner, spooling).1)
  {
    if owner && j.document && !spooling.NoSpoolFile? {
      var k := j.(spooled := true, document := false);
      if spooling.WrongType? {
        DoCancelSafe(k, Aborted, AbortedBySystem);
      } else {
        ReasonSafe(k, '-', Incoming);
      }
    }
  }

  lemma CancelSafe(j: Job, owner: bool)
    requires JobSafe(j)
    ensures JobSafe(Cancel(j, owner).1)
  {
    CheckSafe(j);
    DoCancelSafe(j, Canceled, CanceledByUser);
    DoCancelSafe(CheckTransforming(j), Canceled, CanceledByUser);
  }

  lemma MessageFailureSafe(j: Job)
    requires JobSafe(j) && j.sendings == 1
    ensures JobSafe(MessageFailure(j))
  {
    ReasonSafe(j, '+', CanceledBySystem);
  }

  lemma SelfNotifiedSafe(j: Job)
    requires JobSafe(j)
    ensures JobSafe(SelfNotified(j))
  {
    ReasonSafe(j, '-', Incoming);
    ReasonSafe(RemoveReason(j, Incoming), '-', ToStopPoint);
  }

  /** Starting a pending job, sent or not, keeps it safe. */
  lemma SendingSafe(j: Job, watch: bool, l: Launch)
    requires JobSafe(j) && j.state == Pending && l.Possible()
    ensures JobSafe(SetState(j, Processing))
    ensures JobSafe(StartSending(SetState(j, Processing).(outgoingWatch := watch), l))
  {
    var p := SetState(j, Processing).(outgoingWatch := watch);
    assert JobSafe(p);
    ReasonSafe(p, '+', Outgoing);
    var a := AddReason(p, Outgoing).(sendings := p.sendings + 1);
    assert JobSafe(a);
    LaunchSafe(a, l);
  }

  lemma LaunchSafe(a: Job, l: Launch)
    requires JobSafe(a) && a.state == Processing && l.Possible()
    requires a.filters == [] && a.backend == NEVER_RUN && a.sendings == 1 && a.stopAt.None?
    ensures JobSafe(RunChain(a, l))
  {
  }

  // The pending outcome

  /** The job was sent and its pending outcome is no longer COMPLETED. */
  ghost predicate OutcomeLost(j: Job) {
    j.sendings == 1 && j.pendingState != Completed
  }

  lemma DoCancelKeepsLoss(j: Job, s: JobState, reason: Reason)
    requires OutcomeLost(j) && s.Stopped()
    ensures OutcomeLost(DoCancel(j, s, reason))
  {
    var a := AddReason(j, reason);
    if j.state == Processing || j.state == ProcessingStopped {
      StopKeepsLoss(a, s);
      assert DoCancel(j, s, reason) == Stop(a, s);
    }
  }

  lemma StopKeepsLoss(j: Job, s: JobState)
    requires OutcomeLost(j) && s.Stopped()
    ensures OutcomeLost(Stop(j, s))
  {
    var c := CheckTransforming(j);
    if !AnyRunning(j.filters) && !j.backend.started {
      assert Stop(j, s) == StopNow(c, s);
    } else if ToStopPoint !in c.reasons {
      StopRunningKeepsLoss(c, s);
      assert Stop(j, s) == StopRunning(c, s);
    }
  }

  lemma StopRunningKeepsLoss(c: Job, s: JobState)
    requires OutcomeLost(c) && s.Stopped()
    ensures OutcomeLost(StopRunning(c, s))
  {
  }

  lemma ExitKeepsLoss(j: Job, w: ProcessId, status: int)
    requires OutcomeLost(j) && Has(j, w)
    ensures OutcomeLost(Exit(j, w, status))
  {
    ReapKeepsOutcome(j, w, status);
    assert OutcomeLost(Judge(Reap(j, w, status), status));
  }

  lemma ReapKeepsOutcome(j: Job, w: ProcessId, status: int)
    requires Has(j, w)
    ensures Reap(j, w, status).sendings == j.sendings && Reap(j, w, status).pendingState == j.pendingState
    ensures Reap(j, w, status).trace == j.trace && Reap(j, w, status).state == j.state
    ensures Reap(j, w, status).outgoingWatch == j.outgoingWatch
  {
    assert Put(j, w, Get(j, w)).pendingState == j.pendingState;
  }

  lemma CallsKeepLoss(j: Job, owner: bool, usable: bool, spooling: Spooling)
    requires OutcomeLost(j)
    ensures OutcomeLost(AddDocument(j, owner, usable).1)
    ensures OutcomeLost(Start(j, owner, spooling).1)
    ensures OutcomeLost(Cancel(j, owner).1)
  {
    DoCancelKeepsLoss(j.(spooled := true, document := false), Aborted, AbortedBySystem);
    DoCancelKeepsLoss(j, Canceled, CanceledByUser);
    DoCancelKeepsLoss(CheckTransforming(j), Canceled, CanceledByUser);
  }
}
