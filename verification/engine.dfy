/** The chaos engine of pkg/chaos: registration, the plain run, scenarios, and accounting of what
    was run, recorded and reported to a callback. */
module ChaosEngine {
  import opened Config
  import opened Scenarios
  import opened Sums
  import Parallel
  import Safety

  function Outcomes(reports: seq<StepReport>): seq<Outcome> {
    if reports == [] then [] else [reports[0].result] + Outcomes(reports[1..])
  }

  function Notices(reports: seq<StepReport>): seq<Outcome> {
    if reports == [] then []
    else NoticeList(reports[0]) + Notices(reports[1..])
  }

  function NoticeList(r: StepReport): seq<Outcome> {
    if r.notified then [r.result] else []
  }

  lemma {:induction false} OutcomesAppend(a: seq<StepReport>, b: seq<StepReport>)
    ensures Outcomes(a + b) == Outcomes(a) + Outcomes(b)
  {
    if a == [] {
      assert a + b == b;
    } else {
      assert (a + b)[1..] == a[1..] + b;
      OutcomesAppend(a[1..], b);
      ConcatAssoc([a[0].result], Outcomes(a[1..]), Outcomes(b));
    }
  }

  lemma {:induction false} NoticesAppend(a: seq<StepReport>, b: seq<StepReport>)
    ensures Notices(a + b) == Notices(a) + Notices(b)
  {
    hide NoticeList;
    if a == [] {
      assert a + b == b;
    } else {
      assert (a + b)[1..] == a[1..] + b;
      NoticesAppend(a[1..], b);
      ConcatAssoc(NoticeList(a[0]), Notices(a[1..]), Notices(b));
    }
  }

  lemma {:induction false} OutcomesAre(reports: seq<StepReport>)
    ensures |Outcomes(reports)| == |reports|
    ensures forall i :: 0 <= i < |reports| ==> Outcomes(reports)[i] == reports[i].result
  {
    if reports != [] {
      OutcomesAre(reports[1..]);
    }
  }

  /** The notifications are the results of just the reports that callbacks are to hear of, in order. */
  lemma {:induction false} NoticesAre(reports: seq<StepReport>) returns (at: seq<nat>)
    ensures |at| == |Notices(reports)| && (forall i, j :: 0 <= i < j < |at| ==> at[i] < at[j])
    ensures forall j :: 0 <= j < |at| ==>
                          at[j] < |reports| && reports[at[j]].notified && Notices(reports)[j] == reports[at[j]].result
    ensures forall i :: 0 <= i < |reports| && reports[i].notified ==> i in at
  {
    at := [];
    if reports != [] {
      var last := |reports| - 1;
      at := NoticesAre(reports[..last]);
      NoticesAppend(reports[..last], [reports[last]]);
      assert reports[..last] + [reports[last]] == reports && [reports[last]][1..] == [];
      assert Notices([reports[last]]) == NoticeList(reports[last]) + Notices([]);
      if reports[last].notified {
        at := at + [last];
      }
    }
  }

  lemma {:induction false} LogsAsMultisets(reports: seq<StepReport>)
    ensures multiset(Outcomes(reports)) == Gather(reports, Parallel.ResultOf)
    ensures multiset(Notices(reports)) == Gather(reports, Parallel.NoticeOf)
  {
    if reports != [] {
      LogsAsMultisets(reports[1..]);
    }
  }

  function TotalCalls(reports: seq<StepReport>): int {
    Sum(reports, Parallel.CallsOf)
  }

  lemma LogsEmpty()
    ensures Outcomes([]) == [] && Notices([]) == [] && TotalCalls([]) == 0
  {
  }

  lemma LogsOneMore(a: seq<StepReport>, r: StepReport)
    ensures Outcomes(a + [r]) == Outcomes(a) + [r.result]
    ensures Notices(a + [r]) == Notices(a) + NoticeList(r)
    ensures TotalCalls(a + [r]) == TotalCalls(a) + r.calls
  {
    OutcomesAppend(a, [r]);
    NoticesAppend(a, [r]);
    SumAppend(a, [r], Parallel.CallsOf);
    assert [r][1..] == [];
    assert Outcomes([r]) == [r.result] + Outcomes([]);
    assert Notices([r]) == NoticeList(r) + Notices([]);
    assert TotalCalls([r]) == r.calls + TotalCalls([]);
  }

  /** What carrying out some reports does: the results appended, what the callbacks hear, and the
      number of Run calls. Without parallel steps the order is that of the reports. */
  ghost predicate CarriedOut(reports: seq<StepReport>, inOrder: bool, results: seq<Outcome>, heard: seq<Outcome>,
                             calls: int) {
    && multiset(results) == multiset(Outcomes(reports))
    && multiset(heard) == multiset(Notices(reports))
    && calls == TotalCalls(reports)
    && (inOrder ==> results == Outcomes(reports) && heard == Notices(reports))
  }

  lemma CarriedOutAppend(a: seq<StepReport>, inOrderA: bool, resultsA: seq<Outcome>, heardA: seq<Outcome>, callsA: int,
                         b: seq<StepReport>, inOrderB: bool, resultsB: seq<Outcome>, heardB: seq<Outcome>, callsB: int)
    requires CarriedOut(a, inOrderA, resultsA, heardA, callsA) && CarriedOut(b, inOrderB, resultsB, heardB, callsB)
    ensures CarriedOut(a + b, inOrderA && inOrderB, resultsA + resultsB, heardA + heardB, callsA + callsB)
  {
    OutcomesAppend(a, b);
    NoticesAppend(a, b);
    SumAppend(a, b, Parallel.CallsOf);
  }

  // ---- The plain run: all experiments in registration order ----

  function FlatReport(e: Experiment, dryRun: bool, a: Attempt): StepReport {
    if dryRun then StepReport(Outcome(e.name, true, DryRunSkipped), 0, true)
    else if a.Succeeded? then StepReport(Outcome(e.name, true, Success), 1, true)
    else StepReport(Outcome(e.name, false, ErrorText), 1, true)
  }

  function FlatReports(experiments: seq<Experiment>, dryRun: bool, attempts: nat -> Attempt, n: nat): seq<StepReport>
    requires n <= |experiments|
  {
    seq(n, i requires 0 <= i < n => FlatReport(experiments[i], dryRun, attempts(i)))
  }

  /** The result of one experiment in the plain run: in a dry run a success that says so, otherwise a success or a
      failure as the experiment's own. */
  predicate PlainResult(e: Experiment, dryRun: bool, succeeded: bool, r: Outcome) {
    && r.name == e.name
    && (r.success <==> dryRun || succeeded)
    && r.detail == if dryRun then DryRunSkipped else if succeeded then Success else ErrorText
  }

  /** The results of the experiments before the stop, one each. */
  ghost predicate PlainRun(experiments: seq<Experiment>, dryRun: bool, attempts: nat -> Attempt, rs: seq<Outcome>) {
    && |rs| <= |experiments|
    && forall i :: 0 <= i < |rs| ==> PlainResult(experiments[i], dryRun, attempts(i).Succeeded?, rs[i])
  }

  lemma PlainResults(experiments: seq<Experiment>, dryRun: bool, attempts: nat -> Attempt, n: nat)
    requires n <= |experiments|
    ensures var reports := FlatReports(experiments, dryRun, attempts, n);
            && |Outcomes(reports)| == n && Notices(reports) == Outcomes(reports)
            && PlainRun(experiments, dryRun, attempts, Outcomes(reports))
  {
    OutcomesAre(FlatReports(experiments, dryRun, attempts, n));
    FlatNotified(experiments, dryRun, attempts, n);
  }

  function FirstNumbers(n: nat): seq<nat> {
    seq(n, i requires 0 <= i => i)
  }

  lemma NumbersNext(n: nat)
    ensures FirstNumbers(0) == [] && FirstNumbers(n + 1) == FirstNumbers(n) + [n] && |FirstNumbers(n)| == n
  {
  }

  lemma FlatNone(experiments: seq<Experiment>, dryRun: bool, attempts: nat -> Attempt)
    ensures FlatReports(experiments, dryRun, attempts, 0) == []
  {
  }

  lemma FlatNext(experiments: seq<Experiment>, dryRun: bool, attempts: nat -> Attempt, i: nat)
    requires i < |experiments|
    ensures FlatReports(experiments, dryRun, attempts, i + 1)
         == FlatReports(experiments, dryRun, attempts, i) + [FlatReport(experiments[i], dryRun, attempts(i))]
  {
  }

  /** The first experiment before which the context is found done, or their number. */
  function StopsAt(attempts: nat -> Attempt, i: nat, n: nat): (stop: nat)
    requires i <= n
    ensures i <= stop <= n
    ensures forall j :: i <= j < stop ==> !attempts(j).Cancelled?
    ensures stop < n ==> attempts(stop).Cancelled?
    decreases n - i
  {
    if i < n && !attempts(i).Cancelled? then StopsAt(attempts, i + 1, n) else i
  }

  /** The schedulers of all parallel scenarios, by position in the plan. */
  type Schedulers = nat -> (Parallel.State -> nat)

  ghost predicate Fair(next: Schedulers) {
    forall k, st :: Parallel.CanMove(st) ==> Parallel.Enabled(st, next(k)(st))
  }

  /** A plan is the configured scenarios in some order that sorts them. */
  ghost predicate IsPlan(plan: seq<Scenario>, scenarios: seq<Scenario>) {
    multiset(plan) == multiset(scenarios) && Sorted(plan)
  }

  predicate NoParallel(scenarios: seq<Scenario>) {
    forall sc :: sc in scenarios ==> !sc.parallel
  }

  lemma OneTurn(w: World, plan: seq<Scenario>, k: nat, rs: seq<Outcome>, heard: seq<Outcome>, calls: int,
                more: seq<Outcome>, moreHeard: seq<Outcome>, moreCalls: int)
    requires k < |plan|
    requires CarriedOut(PlanReports(w, plan, k), NoParallel(plan), rs, heard, calls)
    requires CarriedOut(TurnReports(w, plan, k), !plan[k].parallel, more, moreHeard, moreCalls)
    ensures CarriedOut(PlanReports(w, plan, k + 1), NoParallel(plan), rs + more, heard + moreHeard, calls + moreCalls)
  {
    CarriedOutAppend(PlanReports(w, plan, k), NoParallel(plan), rs, heard, calls,
                     TurnReports(w, plan, k), !plan[k].parallel, more, moreHeard, moreCalls);
    assert plan[k] in plan;
  }

  lemma ParallelSuccess(w: World, k: nat, sc: Scenario)
    requires sc.parallel
    ensures Parallel.Succeeded(AllReports(w, k, sc)) <==> ScenarioOk(w, k, sc)
  {
    var reports := AllReports(w, k, sc);
    assert forall i :: 0 <= i < |reports| ==>
        reports[i] in reports && (reports[i].result.success <==> StepOk(w, k, sc, i));
  }

  /** What a whole RunAll carries out when the cap stays silent. */
  ghost function RunReports(cfg: Config, experiments: seq<Experiment>, w: World, plan: seq<Scenario>,
                            flat: nat -> Attempt): seq<StepReport> {
    if cfg.scenarios != [] then PlanReports(w, plan, |plan|)
    else FlatReports(experiments, cfg.dryRun, flat, StopsAt(flat, 0, |experiments|))
  }

  ghost predicate CutShort(cfg: Config, experiments: seq<Experiment>, flat: nat -> Attempt) {
    cfg.scenarios == [] && StopsAt(flat, 0, |experiments|) < |experiments|
  }

  lemma RoundReports(cfg: Config, experiments: seq<Experiment>, w: World, plan: seq<Scenario>, flat: nat -> Attempt)
    ensures cfg.scenarios != [] ==> RunReports(cfg, experiments, w, plan, flat) == PlanReports(w, plan, |plan|)
    ensures var reports := FlatReports(experiments, cfg.dryRun, flat, StopsAt(flat, 0, |experiments|));
            && (cfg.scenarios == [] ==> RunReports(cfg, experiments, w, plan, flat) == reports)
            && CarriedOut(reports, true, Outcomes(reports), Notices(reports), TotalCalls(reports))
            && CarriedOut(reports, false, Outcomes(reports), Notices(reports), TotalCalls(reports))
    ensures cfg.scenarios == [] ==>
              (CutShort(cfg, experiments, flat) <==> StopsAt(flat, 0, |experiments|) != |experiments|)
    ensures cfg.scenarios != [] ==> !CutShort(cfg, experiments, flat)
  {
  }

  lemma NoPlan(plan: seq<Scenario>, scenarios: seq<Scenario>)
    requires IsPlan(plan, scenarios) && scenarios == []
    ensures plan == []
  {
    assert |multiset(plan)| == |multiset(scenarios)| == 0;
  }

  lemma CutShortMeans(cfg: Config, experiments: seq<Experiment>, flat: nat -> Attempt)
    ensures CutShort(cfg, experiments, flat) <==>
            cfg.scenarios == [] && exists i :: 0 <= i < |experiments| && flat(i).Cancelled?
  {
  }

  class Engine {
    const cfg: Config
    var experiments: seq<Experiment>
    var named: map<string, Experiment>
    var results: seq<Outcome>
    var trace: seq<Outcome>
    var calls: nat

    constructor (cfg: Config)
      ensures this.cfg == cfg && experiments == [] && named == map[] && results == [] && trace == [] && calls == 0
    {
      this.cfg := cfg;
      experiments, named, results, trace, calls := [], map[], [], [], 0;
    }

    method Register(e: Experiment)
      modifies this`experiments
      ensures experiments == old(experiments) + [e]
    {
      experiments := experiments + [e];
    }

    method RegisterNamed(id: string, e: Experiment)
      modifies this`experiments, this`named
      ensures experiments == old(experiments) + [e] && named == old(named)[id := e]
    {
      named := named[id := e];
      experiments := experiments + [e];
    }

    /** The registrations and the dry-run flag that a round sees, next to the outcomes it meets. */
    predicate Sees(w: World)
      reads this`named
    {
      w.named == named && w.dryRun == cfg.dryRun
    }

    /** One step with its retries. */
    method RunScenarioStep(w: World, k: nat, sc: Scenario, i: nat) returns (result: Outcome)
      requires i < |sc.steps|
      requires Sees(w)
      modifies this`trace, this`calls
      ensures var r := Report(w, k, sc, i);
              && result == r.result
              && trace == old(trace) + NoticeList(r) == old(trace) + (if r.notified then [result] else [])
              && calls == old(calls) + r.calls
    {
      var step := sc.steps[i];
      if step.name !in named {
        return Outcome(step.name, false, Blank);
      }
      var attempts := 1;
      if step.retries > 0 {
        attempts := step.retries + 1;
      } else if sc.retries > 0 {
        attempts := sc.retries + 1;
      }
      var cancelled;
      result, cancelled := TryStep(named[step.name].name, step.name, attempts, StepOutcomes(w, k, i));
      if !cancelled {
        trace := trace + [result];
      }
    }

    /** The attempts loop. */
    method TryStep(name: string, id: string, attempts: nat, outcomes: nat -> Attempt)
      returns (result: Outcome, cancelled: bool)
      requires attempts >= 1
      modifies this`calls
      ensures var d := FirstDecisive(outcomes, 0, if cfg.dryRun then 1 else attempts);
              if cfg.dryRun then
                && cancelled == outcomes(0).Cancelled? && calls == old(calls)
                && result == if cancelled then Outcome(id, false, Blank) else Outcome(name, true, DryRunSkipped)
              else
                && cancelled == (d < attempts && outcomes(d).Cancelled?)
                && calls == old(calls) + d + (if d < attempts && !cancelled then 1 else 0)
                && result == if cancelled then Outcome(id, false, Blank)
                             else if d < attempts then Outcome(name, true, Success) else Outcome(name, false, ErrorText)
    {
      result, cancelled := Outcome(name, false, ErrorText), false;
      var attempt := 0;
      while attempt < attempts
        invariant 0 <= attempt <= attempts
        invariant calls == old(calls) + attempt
        invariant result == Outcome(name, false, ErrorText) && !cancelled
        invariant cfg.dryRun ==> attempt == 0
        invariant FirstDecisive(outcomes, 0, attempts) == FirstDecisive(outcomes, attempt, attempts)
      {
        var a := outcomes(attempt);
        if a.Cancelled? {
          return Outcome(id, false, Blank), true;
        }
        if cfg.dryRun {
          return Outcome(name, true, DryRunSkipped), false;
        }
        calls := calls + 1;
        if a.Succeeded? {
          return Outcome(name, true, Success), false;
        }
        attempt := attempt + 1;
      }
    }

    /** The sequential branch of runScenarios, with its two success flags. */
    method RunSequential(w: World, k: nat, sc: Scenario)
      returns (allSucceeded: bool, rs: seq<Outcome>, ghost heard: seq<Outcome>, ghost ran: seq<nat>)
      requires !sc.parallel
      requires Sees(w)
      modifies this`trace, this`calls
      ensures allSucceeded <==> ScenarioOk(w, k, sc)
      ensures trace == old(trace) + heard
      ensures Takes(w, k, sc, ran) && Reports(w, k, sc) == ReportsAt(w, k, sc, ran)
      ensures rs == Outcomes(ReportsAt(w, k, sc, ran)) && heard == Notices(ReportsAt(w, k, sc, ran))
      ensures calls == old(calls) + TotalCalls(ReportsAt(w, k, sc, ran))
    {
      hide Outcomes, Notices, TotalCalls, NoticeList, ScenarioOk, Report, Takes, ReportsAt;
      ghost var reports := [];
      LogsEmpty();
      allSucceeded, rs, heard := true, [], [];
      var prevSuccess := true;
      var i := 0;
      while i < |sc.steps|
        invariant 0 <= i <= |sc.steps|
        invariant WalkTo(w, k, sc, i) == Walk(prevSuccess, allSucceeded, reports)
        invariant trace == old(trace) + heard
        invariant rs == Outcomes(reports) && heard == Notices(reports) && calls == old(calls) + TotalCalls(reports)
      {
        var cond := sc.steps[i].condition;
        if !(cond == "on_success" && !prevSuccess) && !(cond == "on_failure" && prevSuccess) {
          ghost var r := Report(w, k, sc, i);
          var result := RunScenarioStep(w, k, sc, i);
          LogsOneMore(reports, r);
          ConcatAssoc(old(trace), heard, NoticeList(r));
          reports, rs, heard := reports + [r], rs + [result], heard + NoticeList(r);
          if !result.success {
            prevSuccess, allSucceeded := false, false;
          } else {
            prevSuccess := true;
          }
        }
        i := i + 1;
      }
      FoldIsConjunction(w, k, sc);
      ran := StepsTaken(w, k, sc);
    }

    /** The parallel branch: all goroutines under any scheduler. */
    method RunParallel(w: World, k: nat, sc: Scenario, next: Parallel.State -> nat)
      returns (allSucceeded: bool, rs: seq<Outcome>, ghost heard: seq<Outcome>)
      requires sc.parallel
      requires forall st: Parallel.State :: Parallel.CanMove(st) ==> Parallel.Enabled(st, next(st))
      requires Sees(w)
      modifies this`trace, this`calls
      ensures allSucceeded <==> ScenarioOk(w, k, sc)
      ensures trace == old(trace) + heard
      ensures CarriedOut(Reports(w, k, sc), false, rs, heard, calls - old(calls))
    {
      var s := Parallel.RunAll(AllReports(w, k, sc), next);
      LogsAsMultisets(AllReports(w, k, sc));
      ParallelSuccess(w, k, sc);
      allSucceeded, rs, heard := s.allSucceeded, s.results, s.trace;
      trace, calls := trace + s.trace, calls + s.calls;
    }

    /** The steps of one scenario that is not skipped. */
    method RunSteps(w: World, k: nat, sc: Scenario, next: Parallel.State -> nat)
      returns (ok: bool, rs: seq<Outcome>, ghost heard: seq<Outcome>, ghost ran: seq<nat>)
      requires forall st: Parallel.State :: Parallel.CanMove(st) ==> Parallel.Enabled(st, next(st))
      requires Sees(w)
      modifies this`trace, this`calls
      ensures ok <==> ScenarioOk(w, k, sc)
      ensures trace == old(trace) + heard
      ensures CarriedOut(Reports(w, k, sc), !sc.parallel, rs, heard, calls - old(calls))
      ensures Takes(w, k, sc, ran) && Reports(w, k, sc) == ReportsAt(w, k, sc, ran)
    {
      if sc.parallel {
        ok, rs, heard := RunParallel(w, k, sc, next);
        ran := StepsTaken(w, k, sc);
      } else {
        ok, rs, heard, ran := RunSequential(w, k, sc);
      }
    }

    /** The turn of scenario `k`: skipped when disabled or when a prerequisite has not succeeded. */
    method RunTurn(w: World, plan: seq<Scenario>, k: nat, next: Schedulers, succeeded: map<string, bool>)
      returns (succeeded': map<string, bool>, rs: seq<Outcome>, ghost heard: seq<Outcome>)
      requires Fair(next) && k < |plan| && succeeded == SuccessMap(w, plan, k)
      requires Sees(w)
      modifies this`trace, this`calls
      ensures succeeded' == SuccessMap(w, plan, k + 1)
      ensures trace == old(trace) + heard
      ensures CarriedOut(TurnReports(w, plan, k), !plan[k].parallel, rs, heard, calls - old(calls))
    {
      var sc := plan[k];
      if !sc.enabled {
        return succeeded, [], [];
      }
      var skip := SomeUnmet(succeeded, sc);
      if skip {
        return succeeded[sc.name := false], [], [];
      }
      var ok;
      ghost var ran;
      ok, rs, heard, ran := RunSteps(w, k, sc, next(k));
      succeeded' := succeeded[sc.name := ok];
    }

    /** How runScenarios stands after `k` turns, given the trace and the call count it began with. */
    ghost predicate After(w: World, plan: seq<Scenario>, k: nat, succeeded: map<string, bool>, rs: seq<Outcome>,
                          heard: seq<Outcome>, trace0: seq<Outcome>, calls0: nat)
      requires k <= |plan|
      reads this`trace, this`calls
    {
      && succeeded == SuccessMap(w, plan, k)
      && trace == trace0 + heard
      && CarriedOut(PlanReports(w, plan, k), NoParallel(plan), rs, heard, calls - calls0)
    }

    method NextTurn(w: World, plan: seq<Scenario>, k: nat, next: Schedulers, succeeded: map<string, bool>,
                    rs: seq<Outcome>,
                    ghost heard: seq<Outcome>, ghost trace0: seq<Outcome>, ghost calls0: nat)
      returns (succeeded': map<string, bool>, rs': seq<Outcome>, ghost heard': seq<Outcome>)
      requires Fair(next) && k < |plan| && After(w, plan, k, succeeded, rs, heard, trace0, calls0)
      requires Sees(w)
      modifies this`trace, this`calls
      ensures After(w, plan, k + 1, succeeded', rs', heard', trace0, calls0)
    {
      ghost var calls1 := calls;
      var more;
      ghost var moreHeard;
      succeeded', more, moreHeard := RunTurn(w, plan, k, next, succeeded);
      ConcatAssoc(trace0, heard, moreHeard);
      OneTurn(w, plan, k, rs, heard, calls1 - calls0, more, moreHeard, calls - calls1);
      rs', heard' := rs + more, heard + moreHeard;
    }

    /** All scenarios of the plan. The decisions do not depend on the schedulers; the results and
        the callback trace are permutations of the plan's own, equal to them in the absence of
        parallel scenarios. */
    method RunScenarios(w: World, plan: seq<Scenario>, next: Schedulers)
      returns (rs: seq<Outcome>, succeeded: map<string, bool>, ghost heard: seq<Outcome>)
      requires Fair(next)
      requires Sees(w)
      modifies this`trace, this`calls
      ensures succeeded == SuccessMap(w, plan, |plan|)
      ensures trace == old(trace) + heard
      ensures CarriedOut(PlanReports(w, plan, |plan|), NoParallel(plan), rs, heard, calls - old(calls))
    {
      rs, heard, succeeded := [], [], map[];
      var k := 0;
      while k < |plan|
        invariant 0 <= k <= |plan|
        invariant After(w, plan, k, succeeded, rs, heard, old(trace), old(calls))
      {
        succeeded, rs, heard := NextTurn(w, plan, k, next, succeeded, rs, heard, old(trace), old(calls));
        k := k + 1;
      }
    }

    method SomeUnmet(succeeded: map<string, bool>, sc: Scenario) returns (skip: bool)
      ensures skip <==> !PrerequisitesMet(succeeded, sc)
    {
      for i := 0 to |sc.prerequisites|
        invariant forall p :: p in sc.prerequisites[..i] ==> p in succeeded && succeeded[p]
      {
        var pre := sc.prerequisites[i];
        if pre !in succeeded || !succeeded[pre] {
          return true;
        }
      }
      assert sc.prerequisites[..|sc.prerequisites|] == sc.prerequisites;
      return false;
    }

    /** One round. `flat` gives the outcomes of the plain run, `w` holds those of the scenarios.
        A plain run that is cut short keeps its results to itself. */
    method RunAll(w: World, plan: seq<Scenario>, next: Schedulers, flat: nat -> Attempt)
      returns (rs: seq<Outcome>, ghost heard: seq<Outcome>)
      requires IsPlan(plan, cfg.scenarios) && Fair(next)
      requires Sees(w)
      modifies this`results, this`trace, this`calls
      ensures trace == old(trace) + heard
      ensures Safety.CapExceeded(cfg, experiments) ==>
                rs == heard == [] && results == old(results) && calls == old(calls)
      ensures !Safety.CapExceeded(cfg, experiments) ==>
                && CarriedOut(RunReports(cfg, experiments, w, plan, flat), NoParallel(plan), rs, heard,
                              calls - old(calls))
                && results == (if CutShort(cfg, experiments, flat) then old(results) else old(results) + rs)
                && (results == if cfg.scenarios == [] && exists i :: 0 <= i < |experiments| && flat(i).Cancelled?
                               then old(results) else old(results) + rs)
                && (cfg.scenarios == [] ==>
                      && |rs| == StopsAt(flat, 0, |experiments|) && heard == rs
                      && PlainRun(experiments, cfg.dryRun, flat, rs))
    {
      hide PlainRun, IsPlan, CutShort, CarriedOut, RunReports, PlanReports, FlatReports, Outcomes, Notices, TotalCalls;
      CutShortMeans(cfg, experiments, flat);
      RoundReports(cfg, experiments, w, plan, flat);
      rs, heard := [], [];
      if cfg.safety.enabled && !cfg.dryRun && cfg.safety.maxDestructiveActionsPerRun > 0 {
        var destructive := Safety.EngineCount(experiments);
        if destructive > cfg.safety.maxDestructiveActionsPerRun {
          return;
        }
      }
      if |cfg.scenarios| > 0 {
        var succeeded;
        rs, succeeded, heard := RunScenarios(w, plan, next);
        results := results + rs;
        return;
      }
      NoPlan(plan, cfg.scenarios);
      var finished;
      ghost var ran;
      rs, finished, heard, ran := RunFlat(flat);
      if finished {
        results := results + rs;
      }
    }

    /** The loop over the registered experiments. `ran` lists those whose Run was called, by position:
        none in a dry run, else each one before the stop exactly once, in order. */
    method RunFlat(flat: nat -> Attempt)
      returns (rs: seq<Outcome>, finished: bool, ghost heard: seq<Outcome>, ghost ran: seq<nat>)
      modifies this`trace, this`calls
      ensures trace == old(trace) + heard
      ensures finished <==> StopsAt(flat, 0, |experiments|) == |experiments|
      ensures ran == if cfg.dryRun then [] else FirstNumbers(StopsAt(flat, 0, |experiments|))
      ensures calls == old(calls) + |ran|
      ensures var reports := FlatReports(experiments, cfg.dryRun, flat, StopsAt(flat, 0, |experiments|));
              rs == Outcomes(reports) && heard == Notices(reports) && calls == old(calls) + TotalCalls(reports)
      ensures |rs| == StopsAt(flat, 0, |experiments|) && heard == rs && PlainRun(experiments, cfg.dryRun, flat, rs)
    {
      hide FlatReports, Outcomes, Notices, TotalCalls, FirstNumbers, PlainRun;
      NumbersNext(0);
      rs, heard, ran := [], [], [];
      ghost var reports: seq<StepReport> := [];
      FlatNone(experiments, cfg.dryRun, flat);
      LogsEmpty();
      var i := 0;
      while i < |experiments|
        invariant 0 <= i <= |experiments|
        invariant trace == old(trace) + heard
        invariant StopsAt(flat, 0, |experiments|) == StopsAt(flat, i, |experiments|)
        invariant reports == FlatReports(experiments, cfg.dryRun, flat, i)
        invariant ran == (if cfg.dryRun then [] else FirstNumbers(i)) && calls == old(calls) + |ran|
        invariant rs == Outcomes(reports) && heard == Notices(reports) && calls == old(calls) + TotalCalls(reports)
      {
        var e := experiments[i];
        if flat(i).Cancelled? {
          PlainResults(experiments, cfg.dryRun, flat, i);
          return rs, false, heard, ran;
        }
        var result;
        if cfg.dryRun {
          result := Outcome(e.name, true, DryRunSkipped);
        } else {
          calls, ran := calls + 1, ran + [i];
          result := if flat(i).Succeeded? then Outcome(e.name, true, Success) else Outcome(e.name, false, ErrorText);
        }
        ghost var r := FlatReport(e, cfg.dryRun, flat(i));
        FlatNext(experiments, cfg.dryRun, flat, i);
        NumbersNext(i);
        LogsOneMore(reports, r);
        ConcatAssoc(old(trace), heard, [result]);
        reports, rs, heard := reports + [r], rs + [result], heard + [result];
        trace := trace + [result];
        i := i + 1;
      }
      PlainResults(experiments, cfg.dryRun, flat, i);
      return rs, true, heard, ran;
    }

    /** Rolls back every experiment, the last registered first, whatever fails on the way. */
    method RollbackAll(fails: nat -> bool) returns (order: seq<Experiment>, failures: nat)
      ensures |order| == |experiments|
      ensures forall i :: 0 <= i < |order| ==> order[i] == experiments[|experiments| - 1 - i]
      ensures failures <= |order| && (failures == 0 <==> forall i :: 0 <= i < |order| ==> !fails(i))
    {
      order, failures := [], 0;
      var i := |experiments|;
      while i > 0
        invariant 0 <= i <= |experiments| && |order| == |experiments| - i
        invariant forall j :: 0 <= j < |order| ==> order[j] == experiments[|experiments| - 1 - j]
        invariant failures <= |order| && (failures == 0 <==> forall j :: 0 <= j < |order| ==> !fails(j))
      {
        i := i - 1;
        if fails(|order|) {
          failures := failures + 1;
        }
        order := order + [experiments[i]];
      }
    }
  }

  // ---- When every result reaches the callbacks ----

  lemma {:induction false} AllNotified(reports: seq<StepReport>)
    requires forall r :: r in reports ==> r.notified
    ensures Notices(reports) == Outcomes(reports)
  {
    if reports != [] {
      AllNotified(reports[1..]);
    }
  }

  lemma {:induction false} WalkNotified(w: World, k: nat, sc: Scenario, i: nat)
    requires i <= |sc.steps| && Uncancelled(w) && forall step :: step in sc.steps ==> step.name in w.named
    ensures forall r :: r in WalkTo(w, k, sc, i).reports ==> r.notified
  {
    if i > 0 {
      WalkNotified(w, k, sc, i - 1);
      assert sc.steps[i - 1] in sc.steps;
      ReportNotified(w, k, sc, i - 1);
    }
  }

  lemma ReportNotified(w: World, k: nat, sc: Scenario, i: nat)
    requires i < |sc.steps| && Uncancelled(w) && sc.steps[i].name in w.named
    ensures Report(w, k, sc, i).notified
  {
    if !w.dryRun {
      RetryLaw(w, k, sc, i);
    } else {
      assert !w.oracle(k, i, 0).Cancelled?;
    }
  }

  /** In an uncancelled run over known experiments the callbacks hear every result. */
  lemma {:induction false} PlanNotified(w: World, plan: seq<Scenario>, k: nat)
    requires k <= |plan| && Uncancelled(w) && AllKnown(w, plan)
    ensures Notices(PlanReports(w, plan, k)) == Outcomes(PlanReports(w, plan, k))
  {
    hide Report, ScenarioOk, PrerequisitesMet, SuccessMap, Reports, Outcomes, Notices;
    LogsEmpty();
    if k > 0 {
      PlanNotified(w, plan, k - 1);
      if Runs(w, plan, k - 1) {
        ScenarioNotified(w, k - 1, plan[k - 1]);
      }
      OutcomesAppend(PlanReports(w, plan, k - 1), TurnReports(w, plan, k - 1));
      NoticesAppend(PlanReports(w, plan, k - 1), TurnReports(w, plan, k - 1));
    }
  }

  lemma ScenarioNotified(w: World, k: nat, sc: Scenario)
    requires Uncancelled(w) && forall step :: step in sc.steps ==> step.name in w.named
    ensures Notices(Reports(w, k, sc)) == Outcomes(Reports(w, k, sc))
  {
    WalkNotified(w, k, sc, |sc.steps|);
    forall r | r in AllReports(w, k, sc)
      ensures r.notified
    {
      var i :| 0 <= i < |sc.steps| && Report(w, k, sc, i) == r;
      assert sc.steps[i] in sc.steps;
      ReportNotified(w, k, sc, i);
    }
    AllNotified(Reports(w, k, sc));
  }

  lemma FlatNotified(experiments: seq<Experiment>, dryRun: bool, attempts: nat -> Attempt, n: nat)
    requires n <= |experiments|
    ensures Notices(FlatReports(experiments, dryRun, attempts, n))
         == Outcomes(FlatReports(experiments, dryRun, attempts, n))
  {
    var reports := FlatReports(experiments, dryRun, attempts, n);
    assert forall i :: 0 <= i < |reports| ==> reports[i] == FlatReport(experiments[i], dryRun, attempts(i));
    AllNotified(reports);
  }
}
