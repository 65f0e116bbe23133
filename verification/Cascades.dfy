/** The notification cascade after an external step: it always comes to rest, within a number of
    handler calls fixed beforehand, and starts each pending job at most once. Nothing is assumed
    about the state it begins in. */
module Cascades {
  import opened JobModel
  import opened PrinterModel

  /** What a job can still contribute: its queued notifications, and all that starting it and
      having it abort on the spot would queue. */
  function Weight(j: Job): nat {
    3 * j.selfNotes + j.engineNotes + 2 * j.printerNotes + j.reasonNotes + (if j.state == Pending then 15 else 0)
  }

  function TotalWeight(jobs: seq<Job>): nat {
    if jobs == [] then 0 else Weight(jobs[0]) + TotalWeight(jobs[1..])
  }

  function Measure(p: Printer): nat {
    p.notes + TotalWeight(p.jobs)
  }

  function PendingCount(jobs: seq<Job>): nat {
    if jobs == [] then 0 else (if jobs[0].state == Pending then 1 else 0) + PendingCount(jobs[1..])
  }

  lemma {:induction false} TotalsAfterUpdate(jobs: seq<Job>, i: nat, j: Job)
    requires i < |jobs|
    ensures TotalWeight(jobs[i := j]) == TotalWeight(jobs) - Weight(jobs[i]) + Weight(j)
    ensures PendingCount(jobs[i := j]) == PendingCount(jobs) - (if jobs[i].state == Pending then 1 else 0)
                                          + (if j.state == Pending then 1 else 0)
    ensures TotalWeight(jobs) >= Weight(jobs[i])
  {
    if i == 0 {
      assert jobs[i := j][1..] == jobs[1..];
    } else {
      assert jobs[i := j][1..] == jobs[1..][i - 1 := j];
      TotalsAfterUpdate(jobs[1..], i - 1, j);
    }
  }

  /** Does handling `n` start a job? */
  predicate StartsJob(p: Printer, n: Note)
    requires Queued(p, n)
  {
    match n
    case EngineNote(i, _) => p.jobs[i].engineWatch && p.jobs[i].state == Pending && p.state == PrinterIdle
    case PrinterStateNote(_) => p.state == PrinterIdle && NextJob(p.jobs).Some?
    case _ => false
  }

  lemma SetStateWeight(j: Job, s: JobState)
    requires s != Pending
    ensures Weight(SetState(j, s)) == Weight(j) + 6 - (if j.state == Pending then 15 else 0)
  {
  }

  lemma SendingWeight(j: Job, l: Launch)
    requires j.state == Pending
    ensures Weight(SetState(j, Processing)) + 9 == Weight(j)
    ensures Weight(StartSending(SetState(j, Processing).(outgoingWatch := true), l)) + 1 <= Weight(j)
    ensures StartSending(SetState(j, Processing).(outgoingWatch := true), l).state != Pending
  {
    SetStateWeight(j, Processing);
    var p := SetState(j, Processing).(outgoingWatch := true);
    MarkingWeight(p);
    RunChainWeight(MarkOutgoing(p), l);
  }

  lemma MarkingWeight(p: Job)
    ensures Weight(MarkOutgoing(p)) == Weight(p) + 1 && MarkOutgoing(p).state == p.state
  {
  }

  lemma StartProcessingWeight(a: Job, l: Launch)
    requires a.state == Processing
    ensures var b := StartProcessing(a, l);
            (b.state == Aborted && Weight(b) <= Weight(a) + 7) || (b.state == Processing && Weight(b) <= Weight(a) + 1)
  {
    match l
    case NoSetup => SetStateWeight(a, Aborted);
    case SetupFails(n) => SetupFailsWeight(a, Chain(n, 0, SPAWNED));
    case FilterFails(n, k) => FilterFailsWeight(a, Chain(n, k, SPAWNED));
    case BackendFails(n) => TransformWeight(a, Chain(n, n, WATCHED));
    case Launched(n) => TransformWeight(a, Chain(n, n, WATCHED));
  }

  lemma TransformWeight(a: Job, fs: seq<Process>)
    ensures Weight(Transform(a, fs)) == Weight(a) + 1 && Transform(a, fs).state == a.state
  {
  }

  lemma SetupFailsWeight(a: Job, fs: seq<Process>)
    requires a.state == Processing
    ensures Weight(SetState(a.(filters := fs), Aborted)) == Weight(a) + 6
  {
    SetStateWeight(a.(filters := fs), Aborted);
  }

  lemma FilterFailsWeight(a: Job, fs: seq<Process>)
    requires a.state == Processing
    ensures Weight(SetState(Transform(a, fs), Aborted)) == Weight(a) + 7
  {
    TransformWeight(a, fs);
    SetStateWeight(Transform(a, fs), Aborted);
  }

  lemma RunChainWeight(a: Job, l: Launch)
    requires a.state == Processing
    ensures Weight(RunChain(a, l)) <= Weight(a) + 7
    ensures RunChain(a, l).state != Pending
  {
    StartProcessingWeight(a, l);
    var b := if a.filters == [] then StartProcessing(a, l) else a;
    if l.BackendFails? {
      SetStateWeight(b.(pendingState := Completed), Aborted);
    }
  }

  lemma StartJobMeasure(p: Printer, i: nat, l: Launch)
    requires i < |p.jobs| && p.jobs[i].state == Pending
    ensures Measure(StartJob(p, i, l)) <= Measure(p)
    ensures PendingCount(StartJob(p, i, l).jobs) == PendingCount(p.jobs) - 1
  {
    SendingWeight(p.jobs[i], l);
    TotalsAfterUpdate(p.jobs, i, StartJob(p, i, l).jobs[i]);
  }

  /** One handler call lowers the measure, and a start costs one pending job. */
  lemma HandleDecreases(p: Printer, n: Note)
    requires Queued(p, n)
    ensures Measure(Handle(p, n)) < Measure(p)
    ensures PendingCount(Handle(p, n).jobs) == PendingCount(p.jobs) - (if StartsJob(p, n) then 1 else 0)
  {
    match n
    case SelfNote(i) => SelfNoteDecreases(p, i);
    case EngineNote(i, l) => EngineNoteDecreases(p, i, l);
    case PrinterNote(i) => PrinterNoteDecreases(p, i);
    case ReasonsNote(i) => ReasonsNoteDecreases(p, i);
    case PrinterStateNote(l) => PrinterStateNoteDecreases(p, l);
  }

  lemma SelfNoteDecreases(p: Printer, i: nat)
    requires Queued(p, SelfNote(i))
    ensures Measure(OnSelfNote(p, i)) < Measure(p) && PendingCount(OnSelfNote(p, i).jobs) == PendingCount(p.jobs)
  {
    TotalsAfterUpdate(p.jobs, i, AfterSelfNote(p.jobs[i]));
  }

  lemma PrinterNoteDecreases(p: Printer, i: nat)
    requires Queued(p, PrinterNote(i))
    ensures Measure(OnPrinterNote(p, i)) < Measure(p) && PendingCount(OnPrinterNote(p, i).jobs) == PendingCount(p.jobs)
  {
    TotalsAfterUpdate(p.jobs, i, TakePrinterNote(p.jobs[i]));
  }

  lemma ReasonsNoteDecreases(p: Printer, i: nat)
    requires Queued(p, ReasonsNote(i))
    ensures Measure(OnReasonsNote(p, i)) < Measure(p) && PendingCount(OnReasonsNote(p, i).jobs) == PendingCount(p.jobs)
  {
    TotalsAfterUpdate(p.jobs, i, AfterReasonsNote(p.jobs[i]));
  }

  lemma PrinterStateNoteDecreases(p: Printer, l: Launch)
    requires Queued(p, PrinterStateNote(l))
    ensures Measure(OnPrinterStateNote(p, l)) < Measure(p)
    ensures PendingCount(OnPrinterStateNote(p, l).jobs)
         == PendingCount(p.jobs) - (if StartsJob(p, PrinterStateNote(l)) then 1 else 0)
  {
    if p.state == PrinterIdle && NextJob(p.jobs).Some? {
      StartJobMeasure(p.(notes := p.notes - 1), NextJob(p.jobs).value, l);
    }
  }

  lemma EngineNoteDecreases(p: Printer, i: nat, l: Launch)
    requires Queued(p, EngineNote(i, l))
    ensures Measure(OnEngineNote(p, i, l)) < Measure(p)
    ensures PendingCount(OnEngineNote(p, i, l).jobs)
         == PendingCount(p.jobs) - (if StartsJob(p, EngineNote(i, l)) then 1 else 0)
  {
    var k := AfterEngineNote(p.jobs[i], p.state == PrinterIdle);
    TotalsAfterUpdate(p.jobs, i, k);
    if StartsJob(p, EngineNote(i, l)) {
      StartJobMeasure(WithJob(p, i, k), i, l);
    }
  }

  /** How often a cascade starts a job. */
  ghost function Starts(p: Printer, steps: seq<Step>, q: Printer): nat
    requires Cascade(p, steps, q)
    decreases |steps|
  {
    if steps == [] then 0
    else
      assert steps[0].Inside?;
      CascadeTail(p, steps, q);
      (if StartsJob(p, steps[0].n) then 1 else 0) + Starts(Next(p, steps[0]), steps[1..], q)
  }

  lemma CascadeTail(p: Printer, steps: seq<Step>, q: Printer)
    requires Cascade(p, steps, q) && steps != []
    ensures CanStep(p, steps[0]) && Cascade(Next(p, steps[0]), steps[1..], q)
  {
    assert steps[0].Inside?;
  }

  /** However the handlers are ordered and whatever launching does: a cascade is no longer than
      the measure it begins with, and every start uses up one pending job. */
  lemma {:induction false} CascadeIsBounded(p: Printer, steps: seq<Step>, q: Printer)
    requires Cascade(p, steps, q)
    ensures |steps| + Measure(q) <= Measure(p)
    ensures Starts(p, steps, q) + PendingCount(q.jobs) == PendingCount(p.jobs)
    decreases |steps|
  {
    if steps != [] {
      assert steps[0].Inside?;
      CascadeTail(p, steps, q);
      HandleDecreases(p, steps[0].n);
      CascadeIsBounded(Next(p, steps[0]), steps[1..], q);
    }
  }

  lemma SomethingQueued(p: Printer) returns (n: Note)
    requires !Quiescent(p)
    ensures Queued(p, n)
  {
    if 0 < p.notes {
      n := PrinterStateNote(NoSetup);
    } else {
      var i :| 0 <= i < |p.jobs| && !JobQuiet(p.jobs[i]);
      n := if 0 < p.jobs[i].selfNotes then SelfNote(i)
           else if 0 < p.jobs[i].engineNotes then EngineNote(i, NoSetup)
           else if 0 < p.jobs[i].printerNotes then PrinterNote(i)
           else ReasonsNote(i);
    }
  }

  /** From every state the cascade can be carried on until nothing is queued. */
  lemma {:induction false} CascadeComesToRest(p: Printer) returns (steps: seq<Step>, q: Printer)
    ensures Cascade(p, steps, q) && Quiescent(q)
    decreases Measure(p)
  {
    if Quiescent(p) {
      steps, q := [], p;
    } else {
      var n := SomethingQueued(p);
      HandleDecreases(p, n);
      var rest;
      rest, q := CascadeComesToRest(Handle(p, n));
      steps := [Inside(n)] + rest;
      assert steps[1..] == rest;
    }
  }
}
