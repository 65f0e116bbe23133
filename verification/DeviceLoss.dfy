/** What it costs to drop the reason of a running backend: the device goes to a second job. */
module DeviceLoss {
  import opened JobModel
  import opened JobSafety
  import opened PrinterModel
  import opened PrinterSafety
  import opened DeviceGuard
  import opened WithoutTheRules
  import Cascades
  import Runs

  /** Two backends of one printer run. */
  ghost predicate TwoDrive(p: Printer) {
    exists i, k :: 0 <= i < k < |p.jobs| && p.jobs[i].backend.Running() && p.jobs[k].backend.Running()
  }

  /** Without a further drop no two backends ever run from here. */
  ghost predicate ExclusionStands(p: Printer) {
    forall steps, q :: Run(ANY_RUN, p, steps, q) && NeverDrops(p, steps) ==> !TwoDrive(q)
  }

  // Continuations that drop nothing

  ghost predicate Leads(p: Printer, q: Printer) {
    exists steps :: Run(ANY_RUN, p, steps, q) && NeverDrops(p, steps)
  }

  lemma LeadsNowhere(p: Printer)
    ensures Leads(p, p)
  {
    assert Run(ANY_RUN, p, [], p) && NeverDrops(p, []);
  }

  lemma LeadsOn(p: Printer, s: Step, q: Printer)
    requires Allowed(ANY_RUN, p, s) && (s.Outside? ==> !Drops(p, s.e)) && Leads(Next(p, s), q)
    ensures Leads(p, q)
  {
    var steps :| Run(ANY_RUN, Next(p, s), steps, q) && NeverDrops(Next(p, s), steps);
    var all := [s] + steps;
    assert all[1..] == steps;
    assert Run(ANY_RUN, p, all, q) && NeverDrops(p, all);
  }

  /** A running backend whose job no longer holds the device. */
  ghost predicate Loose(p: Printer, i: nat) {
    Safe(p) && i < |p.jobs| && p.jobs[i].backend.Running() && !p.jobOutgoing && p.state != PrinterStopped
  }

  lemma SendRuns(j: Job, l: Launch)
    requires JobSafe(j) && j.state == Pending && l.Launched?
    ensures Send(j, l).backend.Running()
  {
    assert j.filters == [] && j.backend == NEVER_RUN;
  }

  /** A start that succeeds now makes two. */
  lemma StartMakesTwo(p: Printer, i: nat, k: nat)
    requires Loose(p, i) && k < |p.jobs| && p.jobs[k].state == Pending
    ensures TwoDrive(StartJob(p, k, Launched(1)))
  {
    assert JobSafe(p.jobs[i]) && JobSafe(p.jobs[k]);
    SendRuns(p.jobs[k], Launched(1));
    var q := StartJob(p, k, Launched(1));
    assert q.jobs[i] == p.jobs[i];
    if i < k {
      assert q.jobs[i].backend.Running() && q.jobs[k].backend.Running();
    } else {
      assert q.jobs[k].backend.Running() && q.jobs[i].backend.Running();
    }
  }

  ghost predicate Launching(n: Note) {
    (n.EngineNote? ==> n.l == Launched(1)) && (n.PrinterStateNote? ==> n.l == Launched(1))
  }

  lemma EngineNoteWhileLoose(p: Printer, i: nat, k: nat)
    requires Loose(p, i) && Queued(p, EngineNote(k, Launched(1)))
    ensures var q := OnEngineNote(p, k, Launched(1));
            TwoDrive(q) || (Loose(q, i) && (p.state == PrinterIdle ==> q.state == PrinterIdle))
  {
    OnEngineNoteSafe(p, k, Launched(1));
    var j := AfterEngineNote(p.jobs[k], p.state == PrinterIdle);
    ConsumedSafe(p.jobs[k], j);
    if Startable(p.jobs[k]) && p.state == PrinterIdle {
      StartMakesTwo(WithJob(p, k, j), i, k);
    }
  }

  lemma StateNoteWhileLoose(p: Printer, i: nat)
    requires Loose(p, i) && Queued(p, PrinterStateNote(Launched(1)))
    ensures var q := OnPrinterStateNote(p, Launched(1));
            TwoDrive(q) || (Loose(q, i) && (p.state == PrinterIdle ==> q.state == PrinterIdle))
  {
    if p.state == PrinterIdle && NextJob(p.jobs).Some? {
      StartMakesTwo(p.(notes := p.notes - 1), i, NextJob(p.jobs).value);
    }
  }

  /** A handler either starts a second backend or leaves things as loose as they are. */
  lemma HandleWhileLoose(p: Printer, i: nat, n: Note)
    requires Loose(p, i) && Queued(p, n) && Launching(n)
    ensures TwoDrive(Handle(p, n)) || (Loose(Handle(p, n), i) && (p.state == PrinterIdle ==> Handle(p, n).state == PrinterIdle))
  {
    match n
    case EngineNote(k, l) => EngineNoteWhileLoose(p, i, k);
    case PrinterStateNote(l) => StateNoteWhileLoose(p, i);
    case SelfNote(k) => OnSelfNoteSafe(p, k);
    case PrinterNote(k) => ConsumedSafe(p.jobs[k], TakePrinterNote(p.jobs[k]));
    case ReasonsNote(k) => OnReasonsNoteSafe(p, k);
  }

  lemma SomethingToHandle(p: Printer) returns (n: Note)
    requires !Quiescent(p)
    ensures Queued(p, n) && Launching(n)
  {
    if 0 < p.notes {
      n := PrinterStateNote(Launched(1));
    } else {
      var i :| 0 <= i < |p.jobs| && !JobQuiet(p.jobs[i]);
      n := if 0 < p.jobs[i].selfNotes then SelfNote(i)
           else if 0 < p.jobs[i].engineNotes then EngineNote(i, Launched(1))
           else if 0 < p.jobs[i].printerNotes then PrinterNote(i)
           else ReasonsNote(i);
    }
  }

  /** Let the handlers run and every launch succeed: two backends, or rest. */
  lemma {:induction false} RestWhileLoose(p: Printer, i: nat) returns (q: Printer)
    requires Loose(p, i)
    ensures Leads(p, q)
    ensures TwoDrive(q) || (Loose(q, i) && Quiescent(q) && (p.state == PrinterIdle ==> q.state == PrinterIdle))
    decreases Cascades.Measure(p)
  {
    q := p;
    LeadsNowhere(p);
    if !Quiescent(p) {
      var n := SomethingToHandle(p);
      HandleWhileLoose(p, i, n);
      Cascades.HandleDecreases(p, n);
      if TwoDrive(Handle(p, n)) {
        q := Handle(p, n);
        LeadsNowhere(q);
      } else {
        q := RestWhileLoose(Handle(p, n), i);
      }
      LeadsOn(p, Inside(n), q);
    }
  }

  lemma {:induction false} NeverDropsConcat(p: Printer, a: seq<Step>, q: Printer, b: seq<Step>)
    requires Run(ANY_RUN, p, a, q) && NeverDrops(p, a) && NeverDrops(q, b)
    ensures NeverDrops(p, a + b)
    decreases |a|
  {
    if a == [] {
      assert a + b == b;
    } else {
      NeverDropsConcat(Next(p, a[0]), a[1..], q, b);
      assert (a + b)[1..] == a[1..] + b;
    }
  }

  lemma LeadsFurther(p: Printer, q: Printer, r: Printer)
    requires Leads(p, q) && Leads(q, r)
    ensures Leads(p, r)
  {
    var a :| Run(ANY_RUN, p, a, q) && NeverDrops(p, a);
    var b :| Run(ANY_RUN, q, b, r) && NeverDrops(q, b);
    Runs.RunConcat(ANY_RUN, p, a, q, b, r);
    NeverDropsConcat(p, a, q, b);
  }

  // A new job is all it takes

  lemma CreatedWhileLoose(p: Printer, i: nat)
    requires Loose(p, i) && Quiescent(p)
    ensures Loose(Happen(p, Event.CreateJob), i) && Quiescent(Happen(p, Event.CreateJob))
  {
    HappenSafe(p, Event.CreateJob);
  }

  lemma LastJob(p: Printer, j: Job, k: Job)
    ensures WithJob(p.(jobs := p.jobs + [j]), |p.jobs|, k) == p.(jobs := p.jobs + [k])
  {
    assert (p.jobs + [j])[|p.jobs| := k] == p.jobs + [k];
  }

  /** A held job, started on the idle printer. */
  lemma HeldJobRuns(p: Printer, i: nat) returns (q: Printer)
    requires Loose(p, i) && Quiescent(p) && p.state == PrinterIdle
    ensures Leads(p, q) && TwoDrive(q)
  {
    var m := |p.jobs|;
    var held := p.(jobs := p.jobs + [HELD]);
    var created := p.(jobs := p.jobs + [NEW_JOB]);
    CreatedWhileLoose(p, i);
    LastJob(p, NEW_JOB, HELD);
    HappenSafe(created, AddDocumentCall(m, true, true));
    assert Happen(created, AddDocumentCall(m, true, true)) == held;
    assert Loose(held, i) && Quiescent(held);
    q := HeldJobStarts(held, i, m);
    LeadsOn(created, Outside(AddDocumentCall(m, true, true)), q);
    LeadsOn(p, Outside(Event.CreateJob), q);
  }

  lemma HeldJobStarts(p: Printer, i: nat, m: nat) returns (q: Printer)
    requires Loose(p, i) && Quiescent(p) && p.state == PrinterIdle && m < |p.jobs| && p.jobs[m] == HELD
    ensures Leads(p, q) && TwoDrive(q)
  {
    var e := StartCall(m, true, Pdf);
    HappenSafe(p, e);
    Releases();
    var r := Happen(p, e);
    assert r.jobs[m] == RELEASED && Loose(r, i);
    EngineNoteWhileLoose(r, i, m);
    q := OnEngineNote(r, m, Launched(1));
    assert q.state == PrinterProcessing;
    LeadsNowhere(q);
    LeadsOn(r, Inside(EngineNote(m, Launched(1))), q);
    LeadsOn(p, Outside(e), q);
  }

  lemma EndedJobIdles(r: Printer, i: nat, m: nat) returns (q: Printer)
    requires Loose(r, i) && r.state == PrinterProcessing && m < |r.jobs|
    requires r.jobs[m].state.Terminal() && 0 < r.jobs[m].printerNotes
    ensures Leads(r, q) && Loose(q, i) && q.state == PrinterIdle
  {
    q := OnPrinterNote(r, m);
    HandleSafe(r, PrinterNote(m));
    LeadsNowhere(q);
    LeadsOn(r, Inside(PrinterNote(m)), q);
  }

  /** If the printer is busy, a job that is canceled before it is started idles it. */
  lemma CanceledJobIdles(p: Printer, i: nat) returns (q: Printer)
    requires Loose(p, i) && Quiescent(p) && p.state == PrinterProcessing
    ensures Leads(p, q) && Loose(q, i) && q.state == PrinterIdle
  {
    var m := |p.jobs|;
    var created := p.(jobs := p.jobs + [NEW_JOB]);
    CreatedWhileLoose(p, i);
    q := CanceledJobEnds(created, i, m);
    LeadsOn(p, Outside(Event.CreateJob), q);
  }

  lemma CanceledJobEnds(p: Printer, i: nat, m: nat) returns (q: Printer)
    requires Loose(p, i) && Quiescent(p) && p.state == PrinterProcessing && m < |p.jobs| && p.jobs[m] == NEW_JOB
    ensures Leads(p, q) && Loose(q, i) && q.state == PrinterIdle
  {
    var e := CancelCall(m, true);
    CancelsNew();
    HappenSafe(p, e);
    var r := Happen(p, e);
    assert r.jobs[m] == Cancel(NEW_JOB, true).1 && Loose(r, i);
    q := EndedJobIdles(r, i, m);
    LeadsOn(p, Outside(e), q);
  }

  lemma LooseMakesTwo(p: Printer, i: nat) returns (q: Printer)
    requires Loose(p, i)
    ensures Leads(p, q) && TwoDrive(q)
  {
    q := RestWhileLoose(p, i);
    if !TwoDrive(q) {
      var r := q;
      if r.state == PrinterProcessing {
        var idle := CanceledJobIdles(r, i);
        r := RestWhileLoose(idle, i);
        LeadsFurther(q, idle, r);
        LeadsFurther(p, q, r);
      }
      if TwoDrive(r) {
        q := r;
      } else {
        q := HeldJobRuns(r, i);
        LeadsFurther(p, r, q);
      }
    }
  }

  // The event

  lemma {:induction false} RunNotStopped(rules: Rules, p: Printer, steps: seq<Step>, q: Printer)
    requires p.state != PrinterStopped && Run(rules, p, steps, q)
    ensures q.state != PrinterStopped
    decreases |steps|
  {
    if steps != [] {
      RunNotStopped(rules, Next(p, steps[0]), steps[1..], q);
    }
  }

  /** After a drop the reasons handler hands the device back while the backend runs. */
  lemma DropLoosens(p: Printer, e: Event) returns (q: Printer)
    requires Watching(p) && p.state != PrinterStopped && Possible(p, e) && Drops(p, e)
    ensures Leads(Happen(p, e), q) && Loose(q, e.i)
  {
    DropUncovers(p, e);
    HappenSafe(p, e);
    var r := Happen(p, e);
    var j, k := p.jobs[e.i], r.jobs[e.i];
    assert Carrying(j);
    JobAfterModest(j, e);
    assert LetsGo(k) && 0 < k.reasonNotes;
    q := OnReasonsNote(r, e.i);
    OnReasonsNoteSafe(r, e.i);
    LeadsNowhere(q);
    LeadsOn(r, Inside(ReasonsNote(e.i)), q);
  }

  lemma WatchingExcludes(p: Printer)
    requires Watching(p)
    ensures ExclusionStands(p)
  {
    forall steps, q | Run(ANY_RUN, p, steps, q) && NeverDrops(p, steps) ensures !TwoDrive(q) {
      RunWatching(p, steps, q);
      assert forall i :: 0 <= i < |q.jobs| ==> Carrying(q.jobs[i]);
    }
  }

  /** Let nothing have been dropped up to now. After one more event device exclusion stands, for all
      that may follow without a drop, exactly when the event itself drops nothing. */
  lemma ExclusionStandsIff(p: Printer, e: Event)
    requires Careful(p) && Quiescent(p) && Possible(p, e)
    ensures ExclusionStands(Happen(p, e)) <==> !Drops(p, e)
  {
    CarefulIsWatching(p);
    if Drops(p, e) {
      var steps :| Run(ANY_RUN, NEW_PRINTER, steps, p) && NeverDrops(NEW_PRINTER, steps);
      RunNotStopped(ANY_RUN, NEW_PRINTER, steps, p);
      var r := DropLoosens(p, e);
      var q := LooseMakesTwo(r, e.i);
      LeadsFurther(Happen(p, e), r, q);
    } else {
      HappenWatching(p, e);
      WatchingExcludes(Happen(p, e));
    }
  }
}
