/** Putting runs together. */
module Runs {
  import opened PrinterModel
  import Cascades

  lemma {:induction false} RunThen(rules: Rules, p: Printer, steps: seq<Step>, q: Printer, s: Step)
    requires Run(rules, p, steps, q) && Allowed(rules, q, s)
    ensures Run(rules, p, steps + [s], Next(q, s))
    decreases |steps|
  {
    if steps == [] {
      assert [s][1..] == [] && steps + [s] == [s];
    } else {
      RunThen(rules, Next(p, steps[0]), steps[1..], q, s);
      assert (steps + [s])[1..] == steps[1..] + [s];
    }
  }

  lemma ReachNext(rules: Rules, p: Printer, s: Step)
    requires Reachable(rules, p) && Allowed(rules, p, s)
    ensures Reachable(rules, Next(p, s))
  {
    var steps :| Run(rules, NEW_PRINTER, steps, p);
    RunThen(rules, NEW_PRINTER, steps, p, s);
  }

  lemma {:induction false} ReachThroughCascade(rules: Rules, p: Printer, steps: seq<Step>, q: Printer)
    requires Reachable(rules, p) && Cascade(p, steps, q)
    ensures Reachable(rules, q)
    decreases |steps|
  {
    if steps != [] {
      assert steps[0].Inside?;
      Cascades.CascadeTail(p, steps, q);
      ReachNext(rules, p, steps[0]);
      ReachThroughCascade(rules, Next(p, steps[0]), steps[1..], q);
    }
  }

  lemma {:induction false} RunConcat(rules: Rules, p: Printer, a: seq<Step>, q: Printer, b: seq<Step>, r: Printer)
    requires Run(rules, p, a, q) && Run(rules, q, b, r)
    ensures Run(rules, p, a + b, r)
    decreases |a|
  {
    if a == [] {
      assert a + b == b;
    } else {
      RunConcat(rules, Next(p, a[0]), a[1..], q, b, r);
      assert (a + b)[1..] == a[1..] + b;
    }
  }

  /** The rules are about outside steps only. */
  lemma {:induction false} CascadeIsRun(rules: Rules, p: Printer, steps: seq<Step>, q: Printer)
    requires Cascade(p, steps, q)
    ensures Run(rules, p, steps, q)
    decreases |steps|
  {
    if steps != [] {
      assert steps[0].Inside?;
      Cascades.CascadeTail(p, steps, q);
      CascadeIsRun(rules, Next(p, steps[0]), steps[1..], q);
    }
  }

  lemma {:induction false} AnyRunToo(rules: Rules, p: Printer, steps: seq<Step>, q: Printer)
    requires Run(rules, p, steps, q)
    ensures Run(ANY_RUN, p, steps, q)
    decreases |steps|
  {
    if steps != [] {
      AnyRunToo(rules, Next(p, steps[0]), steps[1..], q);
    }
  }
}
