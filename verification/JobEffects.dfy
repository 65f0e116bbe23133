/** What each operation leaves behind in a job, field by field. These statements do not refer to how
    the operations are put together. */
module JobEffects {
  import opened StateReasons
  import opened JobModel
  import opened JobSafety

  /** Everything but what is listed: state and its notifications, reasons and theirs, the pending
      outcome, `killed`, and the accepted stop. */
  ghost predicate SameOtherwise(j: Job, k: Job) {
    && k.document == j.document && k.spooled == j.spooled
    && k.selfWatch == j.selfWatch && k.engineWatch == j.engineWatch && k.outgoingWatch == j.outgoingWatch
    && k.releases == j.releases && k.sendings == j.sendings
  }

  ghost predicate SameProcesses(j: Job, k: Job) {
    k.filters == j.filters && k.backend == j.backend
  }

  /** The state has become `s`, and everyone is told. */
  ghost predicate StateSet(j: Job, k: Job, s: JobState) {
    && k.state == s && k.trace == (if s == j.state then j.trace else j.trace + [s])
    && k.selfNotes == j.selfNotes + 1 && k.engineNotes == j.engineNotes + 1 && k.printerNotes == j.printerNotes + 1
  }

  ghost predicate StateKept(j: Job, k: Job) {
    && k.state == j.state && k.trace == j.trace
    && k.selfNotes == j.selfNotes && k.engineNotes == j.engineNotes && k.printerNotes == j.printerNotes
  }

  /** SIGKILL was sent to the process if it was running, and nothing else happened to it. */
  ghost predicate KilledIfRunning(a: Process, b: Process) {
    && b.started == a.started && b.finished == a.finished && b.watched == a.watched && b.status == a.status
    && b.killed == (a.killed || (a.started && !a.finished))
  }

  /** The history has where a stop was first accepted. */
  ghost predicate StopNoted(j: Job, k: Job) {
    k.stopAt == if j.stopAt.None? then Some(|j.trace|) else j.stopAt
  }

  ghost predicate Occupied(j: Job) {
    j.backend.started || exists k :: 0 <= k < |j.filters| && j.filters[k].started && !j.filters[k].finished
  }

  // Cancel and abort

  lemma KillingKills(c: Job, s: JobState, k: Job)
    requires k == KillProcesses(Pend(c, s))
    ensures |k.filters| == |c.filters|
    ensures forall i :: 0 <= i < |c.filters| ==> KilledIfRunning(c.filters[i], k.filters[i])
    ensures KilledIfRunning(c.backend, k.backend)
    ensures k.pendingState == s && StateKept(c, k) && SameOtherwise(c, k) && k.reasons == c.reasons && StopNoted(c, k)
  {
  }

  ghost predicate AllKilled(j: Job, k: Job) {
    && |k.filters| == |j.filters|
    && (forall i :: 0 <= i < |j.filters| ==> KilledIfRunning(j.filters[i], k.filters[i]))
    && KilledIfRunning(j.backend, k.backend)
  }

  lemma StoppingStops(c: Job, s: JobState)
    requires ToStopPoint !in c.reasons
    ensures var k := StopRunning(c, s);
            && AllKilled(c, k) && k.reasons == c.reasons + [ToStopPoint] && k.pendingState == s
            && StateKept(c, k) && SameOtherwise(c, k) && StopNoted(c, k)
  {
    KillingKills(c, s, Kill(c, s));
  }

  /** A processing job that has processes and no stop yet: every running process is killed, and the
      outcome waits for them. */
  lemma StopKills(j: Job, s: JobState, r: Reason)
    requires j.state == Processing && Occupied(j) && s.Stopped() && r != ToStopPoint
    requires ToStopPoint !in Add(j.reasons, r)
    ensures var k := DoCancel(j, s, r);
            && |k.filters| == |j.filters|
            && (forall i :: 0 <= i < |j.filters| ==> KilledIfRunning(j.filters[i], k.filters[i]))
            && KilledIfRunning(j.backend, k.backend)
            && ToStopPoint in k.reasons && k.pendingState == s && StateKept(j, k) && SameOtherwise(j, k)
            && StopNoted(j, k)
  {
    var a := AddReason(j, r);
    RemoveIsFilter(a.reasons, Transforming);
    var c := CheckTransforming(a);
    StopTakesCase(j, s, r);
    StoppingStops(c, s);
    assert DoCancel(j, s, r) == StopRunning(c, s);
  }

  lemma StopTakesCase(j: Job, s: JobState, r: Reason)
    requires j.state == Processing && Occupied(j) && ToStopPoint !in Add(j.reasons, r)
    ensures var c := CheckTransforming(AddReason(j, r));
            && ToStopPoint !in c.reasons && DoCancel(j, s, r) == StopRunning(c, s)
            && c.filters == j.filters && c.backend == j.backend && StateKept(j, c) && SameOtherwise(j, c)
            && c.stopAt == j.stopAt
  {
    RemoveIsFilter(Add(j.reasons, r), Transforming);
    var a := AddReason(j, r);
    assert Occupied(j) <==> AnyRunning(a.filters) || a.backend.started;
    assert DoCancel(j, s, r) == Stop(a, s);
  }

  lemma StoppingNow(c: Job, s: JobState)
    ensures var k := StopNow(c, s); StateSet(c, k, s) && SameProcesses(c, k) && SameOtherwise(c, k) && StopNoted(c, k)
  {
  }

  /** One that has none ends at once. */
  lemma StopEndsAtOnce(j: Job, s: JobState, r: Reason)
    requires j.state == Processing && !Occupied(j) && s.Stopped()
    ensures var k := DoCancel(j, s, r);
            StateSet(j, k, s) && SameProcesses(j, k) && SameOtherwise(j, k) && StopNoted(j, k)
  {
    var a := AddReason(j, r);
    var c := CheckTransforming(a);
    StoppingNow(c, s);
    assert DoCancel(j, s, r) == StopNow(c, s);
  }

  /** A second stop changes neither the outcome nor the processes. */
  lemma StopOnlyOnce(j: Job, s: JobState, r: Reason)
    requires j.state == Processing && Occupied(j) && ToStopPoint in Add(j.reasons, r)
    ensures var k := DoCancel(j, s, r);
            k.pendingState == j.pendingState && SameProcesses(j, k) && StateKept(j, k) && SameOtherwise(j, k)
            && k.stopAt == j.stopAt && ToStopPoint in k.reasons
  {
    var a := AddReason(j, r);
    RemoveIsFilter(a.reasons, Transforming);
    assert DoCancel(j, s, r) == CheckTransforming(a);
  }

  /** A job that has not been started ends at once... */
  lemma StopUnstarted(j: Job, s: JobState, r: Reason)
    requires j.state == Pending || j.state == PendingHeld
    ensures var k := DoCancel(j, s, r);
            && k.reasons == Add(j.reasons, r) && SameProcesses(j, k) && SameOtherwise(j, k)
            && k.pendingState == j.pendingState && k.stopAt == j.stopAt
            && k.state == s && k.selfNotes == j.selfNotes + 1 && k.engineNotes == j.engineNotes + 1
            && k.printerNotes == j.printerNotes + 1
  {
    assert DoCancel(j, s, r) == SetState(AddReason(j, r), s);
  }

  /** ... and one that is over only gets the reason. */
  lemma StopAfterEnd(j: Job, s: JobState, r: Reason)
    requires j.state == Canceled || j.state == Aborted || j.state == Completed
    ensures var k := DoCancel(j, s, r);
            && k.reasons == Add(j.reasons, r) && SameProcesses(j, k) && SameOtherwise(j, k)
            && k.pendingState == j.pendingState && k.stopAt == j.stopAt && StateKept(j, k)
  {
    assert DoCancel(j, s, r) == AddReason(j, r);
  }

  // The D-Bus methods

  /** Start, on a held job, for everything spooling can come to. */
  lemma StartOfHeld(j: Job, spooling: Spooling)
    requires JobSafe(j) && j.state == PendingHeld && j.document
    ensures var (reply, k) := Start(j, true, spooling);
            match spooling
            case NoSpoolFile => reply == SpoolError && k == j
            case CopyFails => reply == SpoolError && k == j.(document := false, spooled := true)
            case WrongType =>
              && reply == UnsupportedDocument && k.state == Aborted && !k.document && k.spooled
              && (AbortedBySystem !in j.reasons ==> k.reasons == j.reasons + [AbortedBySystem])
              && k.printerNotes == j.printerNotes + 1 && k.releases == 0
            case Pdf =>
              && reply == Ok && k.state == Pending && !k.document && k.spooled
              && (forall r :: r in k.reasons <==> r in j.reasons && r != Incoming)
              && k.engineNotes == j.engineNotes + 1 && k.releases == 1
  {
    RemoveIsFilter(j.reasons, Incoming);
  }

  /** What refuses a Start, and changes nothing. */
  lemma StartRefused(j: Job, owner: bool, spooling: Spooling)
    requires !owner || !j.document
    ensures Start(j, owner, spooling) == (if owner then NoDocument else NotOwner, j)
  {
  }

  lemma AddDocumentLeaves(j: Job, owner: bool, usable: bool)
    ensures var (reply, k) := AddDocument(j, owner, usable);
            && k == j.(document := k.document)
            && (reply == Ok <==> owner && !j.document && !j.spooled && usable)
            && (reply == NotOwner <==> !owner)
            && (reply == NoMoreDocuments <==> owner && (j.document || j.spooled))
            && (reply == BadCall <==> owner && !j.document && !j.spooled && !usable)
            && (k.document <==> j.document || reply == Ok)
  {
  }

  /** Cancel by the owner, in every state. */
  lemma CancelLeaves(j: Job)
    requires JobSafe(j)
    ensures var (reply, k) := Cancel(j, true);
            if j.state == Pending || j.state == PendingHeld then
              reply == Ok && k.state == Canceled && k.reasons == Add(j.reasons, CanceledByUser)
            else if j.state != Processing then
              reply == CannotCancel && k == j
            else if Occupied(j) && ToStopPoint in j.reasons then
              reply == AlreadyCanceled && SameProcesses(j, k) && StateKept(j, k) && k.pendingState == j.pendingState
              && ToStopPoint in k.reasons
            else
              reply == Ok && (if Occupied(j) then k.state == Processing && k.pendingState == Canceled else k.state == Canceled)
  {
    if j.state == Processing {
      CancelOfProcessing(j);
    }
  }

  /** The owner's Cancel kills, as it stands in the interface: SIGKILL to every running process. */
  lemma CancelKills(j: Job)
    requires j.state == Processing && Occupied(j) && ToStopPoint !in j.reasons
    ensures var (reply, k) := Cancel(j, true);
            && reply == Ok && AllKilled(j, k)
            && ToStopPoint in k.reasons && k.pendingState == Canceled && k.state == Processing
  {
    RemoveIsFilter(j.reasons, Transforming);
    var c := CheckTransforming(j);
    assert c.filters == j.filters && c.backend == j.backend && c.state == Processing;
    assert Occupied(c);
    assert ToStopPoint !in Add(c.reasons, CanceledByUser);
    StopKills(c, Canceled, CanceledByUser);
    assert Cancel(j, true) == (Ok, DoCancel(c, Canceled, CanceledByUser));
  }

  lemma CancelOfProcessing(j: Job)
    requires JobSafe(j) && j.state == Processing
    ensures var (reply, k) := Cancel(j, true);
            if Occupied(j) && ToStopPoint in j.reasons then
              reply == AlreadyCanceled && SameProcesses(j, k) && StateKept(j, k) && k.pendingState == j.pendingState
              && ToStopPoint in k.reasons
            else
              reply == Ok && (if Occupied(j) then k.state == Processing && k.pendingState == Canceled else k.state == Canceled)
  {
    RemoveIsFilter(j.reasons, Transforming);
    var c := CheckTransforming(j);
    assert c.filters == j.filters && c.backend == j.backend && c.state == Processing;
    assert ToStopPoint in c.reasons <==> ToStopPoint in j.reasons;
    assert Occupied(c) <==> Occupied(j);
    if !Occupied(j) {
      StopEndsAtOnce(c, Canceled, CanceledByUser);
    } else if ToStopPoint !in j.reasons {
      assert ToStopPoint !in Add(c.reasons, CanceledByUser);
      StopKills(c, Canceled, CanceledByUser);
    }
  }

  lemma CancelRefused(j: Job)
    ensures Cancel(j, false) == (NotOwner, j)
  {
  }

  // Sending a job

  ghost predicate AllLike(ps: seq<Process>, from: nat, to: nat, started: bool, watched: bool) {
    from <= to <= |ps| && forall i :: from <= i < to ==> ps[i] == Process(started, false, watched, false, 0)
  }

  /** How far launching got, for each way it can go. */
  ghost predicate GotAsFar(k: Job, l: Launch) {
    && (l.Launched? || k.backend == Process(false, false, false, false, 0))
    && match l
       case NoSetup => k.state == Aborted && k.filters == []
       case SetupFails(n) => k.state == Aborted && |k.filters| == n && AllLike(k.filters, 0, n, false, false)
       case FilterFails(n, m) =>
         && k.state == Aborted && k.pendingState == Processing && |k.filters| == n && m < n
         && AllLike(k.filters, 0, m, true, false) && AllLike(k.filters, m, n, false, false)
       case BackendFails(n) =>
         && k.state == Aborted && k.pendingState == Completed
         && |k.filters| == n && AllLike(k.filters, 0, n, true, true)
       case Launched(n) =>
         && k.state == Processing && k.pendingState == Completed
         && |k.filters| == n && AllLike(k.filters, 0, n, true, true)
         && k.backend == Process(true, false, true, false, 0)
  }

  lemma SendLeaves(j: Job, l: Launch)
    requires JobSafe(j) && j.state == Pending && l.Possible()
    ensures var k := Send(j, l);
            GotAsFar(k, l) && k.outgoingWatch && k.sendings == 1 && k.releases == j.releases && k.stopAt == j.stopAt
  {
    var a := MarkOutgoing(SetState(j, Processing).(outgoingWatch := true));
    assert a.filters == [] && a.backend == NEVER_RUN;
    ChainLeaves(a, l);
    RunChainCounts(a, l);
  }

  ghost predicate SameCounts(j: Job, k: Job) {
    k.outgoingWatch == j.outgoingWatch && k.sendings == j.sendings && k.releases == j.releases && k.stopAt == j.stopAt
  }

  lemma RunChainCounts(a: Job, l: Launch)
    ensures SameCounts(a, RunChain(a, l))
  {
    FilterCounts(a, l);
  }

  lemma FilterCounts(a: Job, l: Launch)
    ensures SameCounts(a, StartProcessing(a, l))
  {
  }

  lemma ChainLeaves(a: Job, l: Launch)
    requires a.filters == [] && a.backend == NEVER_RUN && a.state == Processing && l.Possible()
    ensures GotAsFar(RunChain(a, l), l)
  {
    var b := StartProcessing(a, l);
    FiltersLeave(a, l);
    if l.BackendFails? || l.Launched? {
      ThenBackend(a, b, l);
    }
  }

  lemma ThenBackend(a: Job, b: Job, l: Launch)
    requires a.filters == [] && b == StartProcessing(a, l) && b.state == Processing && b.backend == NEVER_RUN
    requires l.BackendFails? || l.Launched?
    requires |b.filters| == l.n && AllLike(b.filters, 0, l.n, true, true)
    ensures GotAsFar(RunChain(a, l), l)
  {
    assert RunChain(a, l) == if l.BackendFails? then SetState(b.(pendingState := Completed), Aborted)
                             else b.(pendingState := Completed, backend := b.backend.(started := true, watched := true));
  }

  lemma FiltersLeave(a: Job, l: Launch)
    requires a.filters == [] && a.backend == NEVER_RUN && a.state == Processing && l.Possible()
    ensures var b := StartProcessing(a, l);
            && b.backend == a.backend
            && if l.BackendFails? || l.Launched? then
                 b.state == Processing && |b.filters| == l.n && AllLike(b.filters, 0, l.n, true, true)
               else GotAsFar(b, l)
  {
    if l.BackendFails? || l.Launched? {
      assert StartProcessing(a, l) == Transform(a, Chain(l.n, l.n, WATCHED));
    } else {
      FailedFilters(a, l);
    }
  }

  lemma FailedFilters(a: Job, l: Launch)
    requires a.filters == [] && a.backend == NEVER_RUN && l.Possible()
    requires l.NoSetup? || l.SetupFails? || l.FilterFails?
    ensures GotAsFar(StartProcessing(a, l), l) && StartProcessing(a, l).backend == a.backend
  {
  }

  // Reaping

  /** Nothing else of the job runs once `w` is gone. */
  ghost predicate LastOne(j: Job, w: ProcessId) {
    && (w.Backend? || (j.backend.started && j.backend.finished))
    && forall i :: 0 <= i < |j.filters| && w != Filter(i) ==> !(j.filters[i].started && !j.filters[i].finished)
  }

  ghost predicate Finished(a: Process, b: Process, status: int) {
    b == a.(finished := true, status := status)
  }

  /** Exactly the process that exited is marked, and its status kept. */
  lemma ExitMarks(j: Job, w: ProcessId, status: int)
    requires JobSafe(j) && CanExit(j, w)
    ensures var k := Exit(j, w, status);
            && |k.filters| == |j.filters|
            && (forall i :: 0 <= i < |j.filters| ==>
                  if w == Filter(i) then Finished(j.filters[i], k.filters[i], status) else k.filters[i] == j.filters[i])
            && (if w == Backend then Finished(j.backend, k.backend, status) else k.backend == j.backend)
  {
    var f := Put(j, w, Get(j, w).(finished := true, status := status));
    var r := Reap(j, w, status);
    assert r.filters == f.filters && r.backend == f.backend;
  }

  /** A status other than 0 turns the outcome into ABORTED, and the last exit sets the outcome. */
  lemma ExitSettles(j: Job, w: ProcessId, status: int)
    requires JobSafe(j) && CanExit(j, w)
    ensures var k := Exit(j, w, status);
            && k.pendingState == (if status != 0 then Aborted else j.pendingState)
            && if LastOne(j, w) then k.state == k.pendingState && k.printerNotes == j.printerNotes + 1
               else k.state == j.state && k.printerNotes == j.printerNotes
  {
    ReapKeepsOutcome(j, w, status);
    var f := Judge(Reap(j, w, status), status);
    ExitMarks(j, w, status);
    var k := Exit(j, w, status);
    assert f.filters == k.filters && f.backend == k.backend;
    LastLeft(j, w, k, status);
    ReapKeepsNotes(j, w, status);
  }

  lemma ReapKeepsNotes(j: Job, w: ProcessId, status: int)
    requires Has(j, w)
    ensures Reap(j, w, status).printerNotes == j.printerNotes
  {
  }

  lemma LastLeft(j: Job, w: ProcessId, k: Job, status: int)
    requires JobSafe(j) && CanExit(j, w) && |k.filters| == |j.filters|
    requires forall i :: 0 <= i < |j.filters| ==>
               if w == Filter(i) then Finished(j.filters[i], k.filters[i], status) else k.filters[i] == j.filters[i]
    requires if w == Backend then Finished(j.backend, k.backend, status) else k.backend == j.backend
    ensures LastOne(j, w) <==> k.backend.started && k.backend.finished && !AnyRunning(k.filters)
  {
    if w.Backend? {
      assert j.backend.started;
    }
    if LastOne(j, w) {
      forall i | 0 <= i < |k.filters| ensures !k.filters[i].Running() {
        assert w != Filter(i) ==> !(j.filters[i].started && !j.filters[i].finished);
      }
    } else if !AnyRunning(k.filters) {
      forall i | 0 <= i < |j.filters| && w != Filter(i) ensures !(j.filters[i].started && !j.filters[i].finished) {
        assert !k.filters[i].Running();
      }
    }
  }

  /** The device goes with the backend, "job-transforming" with the last filter. */
  lemma ExitReasons(j: Job, w: ProcessId, status: int)
    requires JobSafe(j) && CanExit(j, w)
    ensures var k := Exit(j, w, status);
            forall r :: r in k.reasons <==>
              && r in j.reasons
              && (w == Backend ==> r != Outgoing)
              && (w != Backend && !AnyRunning(k.filters) ==> r != Transforming)
  {
    ReapReasons(j, w, status);
    JudgedAndSettled(Reap(j, w, status), status);
    if w.Backend? {
      RemoveIsFilter(j.reasons, Outgoing);
    } else {
      RemoveIsFilter(j.reasons, Transforming);
    }
  }

  lemma JudgedAndSettled(r: Job, status: int)
    ensures var k := Settle(Judge(r, status)); k.reasons == r.reasons && SameProcesses(r, k)
  {
  }

  lemma ReapReasons(j: Job, w: ProcessId, status: int)
    requires CanExit(j, w)
    ensures var r := Reap(j, w, status);
            r.reasons == if w.Backend? then Remove(j.reasons, Outgoing)
                         else if AnyRunning(r.filters) then j.reasons
                         else Remove(j.reasons, Transforming)
  {
  }

  // The callbacks

  /** A failing message channel. */
  lemma MessageFailureLeaves(j: Job)
    ensures var k := MessageFailure(j);
            && StateSet(j, k, Canceled) && SameProcesses(j, k) && SameOtherwise(j, k)
            && k.pendingState == j.pendingState && k.stopAt == j.stopAt
            && (CanceledBySystem !in j.reasons ==> k.reasons == j.reasons + [CanceledBySystem])
  {
  }

  /** The job's own handler, in a terminal state and in any other. */
  lemma SelfNotifiedLeaves(j: Job)
    ensures var k := SelfNotified(j);
            if j.state == Canceled || j.state == Aborted || j.state == Completed then
              && !k.selfWatch && k.state == j.state && SameProcesses(j, k)
              && forall r :: r in k.reasons <==> r in j.reasons && r != Incoming && r != ToStopPoint
            else k == j
  {
    RemoveIsFilter(j.reasons, Incoming);
    RemoveIsFilter(Remove(j.reasons, Incoming), ToStopPoint);
  }

  /** The end of the filters' output. */
  lemma DataEndLeaves(j: Job)
    ensures var k := CheckTransforming(j);
            && (forall r :: r in k.reasons <==>
                  && r in j.reasons
                  && (r == Transforming ==>
                        exists i :: 0 <= i < |j.filters| && j.filters[i].started && !j.filters[i].finished))
            && k == j.(reasons := k.reasons, reasonNotes := k.reasonNotes)
  {
    RemoveIsFilter(j.reasons, Transforming);
    if AnyRunning(j.filters) {
      var i :| 0 <= i < |j.filters| && j.filters[i].Running();
      assert j.filters[i].started && !j.filters[i].finished;
    }
  }

  // The strings a client sees

  lemma TextAppended(rs: seq<Reason>, r: Reason)
    ensures Texts(rs + [r]) == Texts(rs) + [r.Text()]
  {
  }

  lemma NewJobText()
    ensures Texts(NEW_JOB.reasons) == ["job-incoming"]
    ensures NEW_JOB.state == PendingHeld && !NEW_JOB.document && !NEW_JOB.spooled && NEW_JOB.filters == []
    ensures !NEW_JOB.backend.started && NEW_JOB.engineWatch && NEW_JOB.selfWatch && !NEW_JOB.outgoingWatch
  {
  }

  /** Why a job was stopped, for one whose list does not say so yet. */
  lemma StopTexts(j: Job, spooling: Spooling)
    requires JobSafe(j) && j.state == PendingHeld
    requires CanceledByUser !in j.reasons && AbortedBySystem !in j.reasons && CanceledBySystem !in j.reasons
    ensures Texts(Cancel(j, true).1.reasons) == Texts(j.reasons) + ["job-canceled-by-user"]
    ensures Texts(MessageFailure(j).reasons) == Texts(j.reasons) + ["job-canceled-by-system"]
    ensures j.document && spooling.WrongType? ==>
              Texts(Start(j, true, spooling).1.reasons) == Texts(j.reasons) + ["job-aborted-by-system"]
  {
    TextAppended(j.reasons, CanceledByUser);
    TextAppended(j.reasons, CanceledBySystem);
    TextAppended(j.reasons, AbortedBySystem);
    CancelLeaves(j);
    MessageFailureLeaves(j);
    if j.document && spooling.WrongType? {
      StartOfHeld(j, spooling);
    }
  }

  /** What a job says of itself while it is processed. */
  lemma SentTexts(j: Job, n: nat)
    requires JobSafe(j) && j.state == Pending && j.reasons == [] && 0 < n
    ensures Texts(Send(j, Launched(n)).reasons) == ["job-outgoing", "job-transforming"]
  {
    SentReasons(j, n);
    var rs: seq<Reason> := [];
    assert [] + [Outgoing] == [Outgoing] && [Outgoing] + [Transforming] == [Outgoing, Transforming];
    TextAppended(rs, Outgoing);
    TextAppended([Outgoing], Transforming);
  }

  lemma SentReasons(j: Job, n: nat)
    requires JobSafe(j) && j.state == Pending && j.reasons == [] && 0 < n
    ensures Send(j, Launched(n)).reasons == [Outgoing, Transforming]
  {
    var a := MarkOutgoing(SetState(j, Processing).(outgoingWatch := true));
    assert a.filters == [] && a.reasons == [Outgoing];
  }

  lemma StoppedText(j: Job, s: JobState)
    requires j.state == Processing && Occupied(j) && s.Stopped() && ToStopPoint !in j.reasons
    ensures "processing-to-stop-point" in Texts(DoCancel(j, s, AbortedBySystem).reasons)
  {
    StopKills(j, s, AbortedBySystem);
    TextIn(DoCancel(j, s, AbortedBySystem).reasons, ToStopPoint);
  }
}
