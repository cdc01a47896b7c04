/** What a plan of scenarios means (pkg/chaos): which scenarios run, which succeed, what results
    they produce. The engine's loops are proved against these definitions. */
module Scenarios {
  import opened Config

  /** How one attempt of one step goes: the context is found done before it, or Run is called. */
  datatype Attempt = Cancelled | Failed | Succeeded

  /** Outcomes by position of the scenario in the sorted plan, step, and attempt. */
  type Oracle = (nat, nat, nat) -> Attempt

  datatype World = World(named: map<string, Experiment>, dryRun: bool, oracle: Oracle)

  datatype Detail = DryRunSkipped | Success | ErrorText | Blank

  /** An ExperimentResult; it carries an error exactly when it is not a success. */
  datatype Outcome = Outcome(name: string, success: bool, detail: Detail)

  /** What running one step produces: its result, how often Run was called, and whether the
      callbacks heard of it. */
  datatype StepReport = StepReport(result: Outcome, calls: nat, notified: bool)

  function Attempts(step: Step, scenarioRetries: int): (n: nat)
    ensures n >= 1
  {
    if step.retries > 0 then step.retries + 1
    else if scenarioRetries > 0 then scenarioRetries + 1
    else 1
  }

  /** The first attempt from `a` on that is not a failure, or `n`. */
  function FirstDecisive(outcomes: nat -> Attempt, a: nat, n: nat): (d: nat)
    requires a <= n
    ensures a <= d <= n
    ensures forall b :: a <= b < d ==> outcomes(b).Failed?
    ensures d < n ==> !outcomes(d).Failed?
    decreases n - a
  {
    if a < n && outcomes(a).Failed? then FirstDecisive(outcomes, a + 1, n) else a
  }

  function StepOutcomes(w: World, k: nat, i: nat): nat -> Attempt {
    (a: nat) => w.oracle(k, i, a)
  }

  function Report(w: World, k: nat, sc: Scenario, i: nat): StepReport
    requires i < |sc.steps|
  {
    var step := sc.steps[i];
    if step.name !in w.named then StepReport(Outcome(step.name, false, Blank), 0, false)
    else
      var name := w.named[step.name].name;
      var n := Attempts(step, sc.retries);
      if w.dryRun then
        if w.oracle(k, i, 0).Cancelled? then StepReport(Outcome(step.name, false, Blank), 0, false)
        else StepReport(Outcome(name, true, DryRunSkipped), 0, true)
      else
        var d := FirstDecisive(StepOutcomes(w, k, i), 0, n);
        if d == n then StepReport(Outcome(name, false, ErrorText), n, true)
        else if w.oracle(k, i, d).Cancelled? then StepReport(Outcome(step.name, false, Blank), d, false)
        else StepReport(Outcome(name, true, Success), d + 1, true)
  }

  predicate StepOk(w: World, k: nat, sc: Scenario, i: nat)
    requires i < |sc.steps|
  {
    Report(w, k, sc, i).result.success
  }

  // ---- Retries ----

  ghost predicate Uncancelled(w: World) {
    forall k, i, a :: !w.oracle(k, i, a).Cancelled?
  }

  /** An uncancelled step of a known experiment calls Run until the first success, at most once more than
      the step's retries, or else the scenario's, or else none, and succeeds exactly when one of those
      attempts does. */
  lemma RetryLaw(w: World, k: nat, sc: Scenario, i: nat)
    requires i < |sc.steps| && sc.steps[i].name in w.named && !w.dryRun && Uncancelled(w)
    ensures var step := sc.steps[i];
            var n := 1 + (if step.retries > 0 then step.retries else if sc.retries > 0 then sc.retries else 0);
            && (StepOk(w, k, sc, i) <==> exists a :: 0 <= a < n && w.oracle(k, i, a).Succeeded?)
            && Report(w, k, sc, i).calls <= n
            && (forall a :: 0 <= a < Report(w, k, sc, i).calls - 1 ==> w.oracle(k, i, a).Failed?)
            && (StepOk(w, k, sc, i) ==> w.oracle(k, i, Report(w, k, sc, i).calls - 1).Succeeded?)
            && (!StepOk(w, k, sc, i) ==> Report(w, k, sc, i).calls == n)
            && Report(w, k, sc, i).notified
  {
    var n := Attempts(sc.steps[i], sc.retries);
    var outcomes := StepOutcomes(w, k, i);
    var d := FirstDecisive(outcomes, 0, n);
    assert forall a: nat :: outcomes(a) == w.oracle(k, i, a);
    assert forall a :: 0 <= a < d ==> outcomes(a).Failed? && w.oracle(k, i, a).Failed?;
    assert d < n ==> w.oracle(k, i, d).Succeeded?;
  }

  /** The number of attempts that a step gets. */
  ghost predicate Allowed(step: Step, sc: Scenario, n: nat) {
    n == 1 + if step.retries > 0 then step.retries else if sc.retries > 0 then sc.retries else 0
  }

  /** What a step comes to. A step of an unknown experiment is a failure nobody hears of, under its id, and so is one
      whose context is found done. In a dry run it is a success without a call. Otherwise it comes to the first
      attempt `a` that does not fail, or to the last one. */
  lemma ReportLaw(w: World, k: nat, sc: Scenario, i: nat, a: nat, n: nat)
    requires i < |sc.steps| && Allowed(sc.steps[i], sc, n)
    requires a <= n && forall b :: 0 <= b < a ==> w.oracle(k, i, b).Failed?
    ensures var id, r := sc.steps[i].name, Report(w, k, sc, i);
            && (id !in w.named ==> r == StepReport(Outcome(id, false, Blank), 0, false))
            && (id in w.named && w.dryRun && w.oracle(k, i, 0).Cancelled? ==>
                  r == StepReport(Outcome(id, false, Blank), 0, false))
            && (id in w.named && w.dryRun && !w.oracle(k, i, 0).Cancelled? ==>
                  r == StepReport(Outcome(w.named[id].name, true, DryRunSkipped), 0, true))
            && (id in w.named && !w.dryRun && a == n ==>
                  r == StepReport(Outcome(w.named[id].name, false, ErrorText), n, true))
            && (id in w.named && !w.dryRun && a < n && w.oracle(k, i, a).Succeeded? ==>
                  r == StepReport(Outcome(w.named[id].name, true, Success), a + 1, true))
            && (id in w.named && !w.dryRun && a < n && w.oracle(k, i, a).Cancelled? ==>
                  r == StepReport(Outcome(id, false, Blank), a, false))
  {
    var f := StepOutcomes(w, k, i);
    var d := FirstDecisive(f, 0, n);
    assert forall b: nat :: f(b) == w.oracle(k, i, b);
    assert forall b :: 0 <= b < a ==> f(b).Failed?;
    assert d >= a && (a < n && !f(a).Failed? ==> d <= a);
  }

  // ---- One scenario ----

  predicate ConditionMet(step: Step, prev: bool) {
    !(step.condition == "on_success" && !prev) && !(step.condition == "on_failure" && prev)
  }

  /** The three variables of the sequential loop. */
  datatype Walk = Walk(prev: bool, all: bool, reports: seq<StepReport>)

  /** The sequential loop after `i` steps, as the code computes it. */
  function WalkTo(w: World, k: nat, sc: Scenario, i: nat): Walk
    requires i <= |sc.steps|
  {
    if i == 0 then Walk(true, true, [])
    else
      var before := WalkTo(w, k, sc, i - 1);
      if !ConditionMet(sc.steps[i - 1], before.prev) then before
      else
        var r := Report(w, k, sc, i - 1);
        Walk(r.result.success, before.all && r.result.success, before.reports + [r])
  }

  function AllReports(w: World, k: nat, sc: Scenario): seq<StepReport> {
    seq(|sc.steps|, i requires 0 <= i < |sc.steps| => Report(w, k, sc, i))
  }

  /** A scenario succeeds when these steps do: all of a parallel one's, and of a sequential one's
      all that are not conditional on a failure. No history is needed to say so. */
  predicate ScenarioOk(w: World, k: nat, sc: Scenario) {
    forall i :: 0 <= i < |sc.steps| && (sc.parallel || sc.steps[i].condition != "on_failure") ==> StepOk(w, k, sc, i)
  }

  lemma {:induction false} WalkMeaning(w: World, k: nat, sc: Scenario, i: nat)
    requires i <= |sc.steps|
    ensures WalkTo(w, k, sc, i).all <==>
              forall j :: 0 <= j < i && sc.steps[j].condition != "on_failure" ==> StepOk(w, k, sc, j)
    ensures WalkTo(w, k, sc, i).all ==> WalkTo(w, k, sc, i).prev
  {
    if i > 0 {
      WalkMeaning(w, k, sc, i - 1);
    }
  }

  /** The loop's success flag is the stateless conjunction. */
  lemma FoldIsConjunction(w: World, k: nat, sc: Scenario)
    requires !sc.parallel
    ensures WalkTo(w, k, sc, |sc.steps|).all <==> ScenarioOk(w, k, sc)
  {
    WalkMeaning(w, k, sc, |sc.steps|);
  }

  /** Of the steps that ran, the `j`-th is the last before step `i`. */
  ghost predicate LastBefore(ran: seq<nat>, j: nat, i: nat) {
    j < |ran| && ran[j] < i && (j + 1 < |ran| ==> ran[j + 1] >= i)
  }

  /** Whether step `i` is to run after those in `ran`: with "on_success" unless the last one failed, with
      "on_failure" only if there is a last one and it failed, and otherwise always. */
  ghost predicate IsDue(w: World, k: nat, sc: Scenario, ran: seq<nat>, i: nat)
    requires i < |sc.steps| && forall j :: 0 <= j < |ran| ==> ran[j] < |sc.steps|
  {
    match sc.steps[i].condition
    case "on_success" => forall j: nat :: LastBefore(ran, j, i) ==> StepOk(w, k, sc, ran[j])
    case "on_failure" => exists j: nat :: LastBefore(ran, j, i) && !StepOk(w, k, sc, ran[j])
    case _ => true
  }

  /** Of the first `n` steps just those ran, in order, that were due. */
  ghost predicate RanWhenDue(w: World, k: nat, sc: Scenario, ran: seq<nat>, n: nat) {
    && n <= |sc.steps| && (forall j :: 0 <= j < |ran| ==> ran[j] < n)
    && (forall j, l :: 0 <= j < l < |ran| ==> ran[j] < ran[l])
    && forall i :: 0 <= i < n ==> (i in ran <==> IsDue(w, k, sc, ran, i))
  }

  function ReportsAt(w: World, k: nat, sc: Scenario, ran: seq<nat>): seq<StepReport>
    requires forall j :: 0 <= j < |ran| ==> ran[j] < |sc.steps|
  {
    seq(|ran|, j requires 0 <= j < |ran| => Report(w, k, sc, ran[j]))
  }

  lemma {:induction false} WalkRuns(w: World, k: nat, sc: Scenario, n: nat) returns (ran: seq<nat>)
    requires n <= |sc.steps|
    ensures RanWhenDue(w, k, sc, ran, n) && WalkTo(w, k, sc, n).reports == ReportsAt(w, k, sc, ran)
    ensures WalkTo(w, k, sc, n).prev == (ran == [] || StepOk(w, k, sc, ran[|ran| - 1]))
  {
    ran := [];
    if n > 0 {
      hide Report;
      ran := WalkRuns(w, k, sc, n - 1);
      ran := RunsOrSkips(w, k, sc, ran, n - 1, WalkTo(w, k, sc, n - 1).prev);
    }
  }

  lemma RunsOrSkips(w: World, k: nat, sc: Scenario, ran: seq<nat>, n: nat, prev: bool) returns (ran': seq<nat>)
    requires n < |sc.steps| && RanWhenDue(w, k, sc, ran, n)
    requires prev == (ran == [] || StepOk(w, k, sc, ran[|ran| - 1]))
    ensures ran' == if ConditionMet(sc.steps[n], prev) then ran + [n] else ran
    ensures RanWhenDue(w, k, sc, ran', n + 1)
  {
    hide StepOk, Report, IsDue, ConditionMet;
    ran' := if ConditionMet(sc.steps[n], prev) then ran + [n] else ran;
    DueIs(w, k, sc, ran, n, prev);
    forall i | 0 <= i <= n
      ensures i in ran' <==> IsDue(w, k, sc, ran', i)
    {
      DueStays(w, k, sc, ran, n, i);
      assert i in ran' <==> i in ran || (i == n && ConditionMet(sc.steps[n], prev));
    }
  }

  lemma DueIs(w: World, k: nat, sc: Scenario, ran: seq<nat>, n: nat, prev: bool)
    requires n < |sc.steps| && RanWhenDue(w, k, sc, ran, n)
    requires prev == (ran == [] || StepOk(w, k, sc, ran[|ran| - 1]))
    ensures IsDue(w, k, sc, ran, n) <==> ConditionMet(sc.steps[n], prev)
  {
    hide StepOk, Report;
    assert "on_success"[3] == 's' && "on_failure"[3] == 'f';
    if ran != [] {
      assert LastBefore(ran, |ran| - 1, n);
    }
    assert forall j: nat :: LastBefore(ran, j, n) ==> j + 1 == |ran|;
  }

  /** Steps from `n` on make no difference to those up to it. */
  lemma DueStays(w: World, k: nat, sc: Scenario, ran: seq<nat>, n: nat, i: nat)
    requires i <= n < |sc.steps| && forall j :: 0 <= j < |ran| ==> ran[j] < n
    ensures IsDue(w, k, sc, ran + [n], i) <==> IsDue(w, k, sc, ran, i)
  {
    hide StepOk, Report;
    forall j: nat
      ensures LastBefore(ran + [n], j, i) <==> LastBefore(ran, j, i)
    {
    }
  }

  /** The steps a scenario takes: a sequential one those that are due, a parallel one all. */
  ghost predicate Takes(w: World, k: nat, sc: Scenario, ran: seq<nat>) {
    if sc.parallel then |ran| == |sc.steps| && forall j :: 0 <= j < |ran| ==> ran[j] == j
    else RanWhenDue(w, k, sc, ran, |sc.steps|)
  }

  /** What a scenario that runs has to report is what these steps come to, in order. */
  lemma StepsTaken(w: World, k: nat, sc: Scenario) returns (ran: seq<nat>)
    ensures Takes(w, k, sc, ran) && Reports(w, k, sc) == ReportsAt(w, k, sc, ran)
  {
    if sc.parallel {
      ran := seq(|sc.steps|, j requires 0 <= j => j);
    } else {
      ran := WalkRuns(w, k, sc, |sc.steps|);
    }
  }

  /** Without on_failure steps it makes no difference whether the steps run in parallel. */
  lemma ParallelIrrelevant(w: World, k: nat, sc: Scenario, sc': Scenario)
    requires sc' == sc.(parallel := !sc.parallel)
    requires forall step :: step in sc.steps ==> step.condition != "on_failure"
    ensures ScenarioOk(w, k, sc) <==> ScenarioOk(w, k, sc')
  {
    forall i | 0 <= i < |sc.steps|
      ensures sc.steps[i].condition != "on_failure" && StepOk(w, k, sc, i) == StepOk(w, k, sc', i)
    {
      assert sc.steps[i] in sc.steps;
    }
  }

  // ---- The whole plan ----

  predicate PrerequisitesMet(succeeded: map<string, bool>, sc: Scenario) {
    forall p :: p in sc.prerequisites ==> p in succeeded && succeeded[p]
  }

  /** The success map after the first `k` scenarios of the sorted plan. */
  function SuccessMap(w: World, plan: seq<Scenario>, k: nat): map<string, bool>
    requires k <= |plan|
  {
    if k == 0 then map[]
    else
      var before, sc := SuccessMap(w, plan, k - 1), plan[k - 1];
      if !sc.enabled then before
      else before[sc.name := PrerequisitesMet(before, sc) && ScenarioOk(w, k - 1, sc)]
  }

  predicate Runs(w: World, plan: seq<Scenario>, k: nat)
    requires k < |plan|
  {
    plan[k].enabled && PrerequisitesMet(SuccessMap(w, plan, k), plan[k])
  }

  predicate Succeeds(w: World, plan: seq<Scenario>, k: nat)
    requires k < |plan|
  {
    Runs(w, plan, k) && ScenarioOk(w, k, plan[k])
  }

  /** The reports of one scenario that runs; a parallel one lists them in step order. */
  function Reports(w: World, k: nat, sc: Scenario): seq<StepReport> {
    if sc.parallel then AllReports(w, k, sc) else WalkTo(w, k, sc, |sc.steps|).reports
  }

  /** What the turn of scenario `k` in the plan contributes. */
  function TurnReports(w: World, plan: seq<Scenario>, k: nat): seq<StepReport>
    requires k < |plan|
  {
    if Runs(w, plan, k) then Reports(w, k, plan[k]) else []
  }

  /** All reports of the first `k` scenarios. */
  function PlanReports(w: World, plan: seq<Scenario>, k: nat): seq<StepReport>
    requires k <= |plan|
  {
    if k == 0 then [] else PlanReports(w, plan, k - 1) + TurnReports(w, plan, k - 1)
  }

  /** Scenario `j` is the last enabled one among the first `k` called `name`. */
  ghost predicate LastNamed(plan: seq<Scenario>, k: nat, name: string, j: nat)
    requires k <= |plan|
  {
    && j < k && plan[j].name == name && plan[j].enabled
    && forall l :: j < l < k && plan[l].name == name ==> !plan[l].enabled
  }

  /** A name is marked successful exactly when the last enabled scenario so called succeeds. */
  lemma {:induction false} MapMeaning(w: World, plan: seq<Scenario>, k: nat, name: string)
    requires k <= |plan|
    ensures var m := SuccessMap(w, plan, k);
            (name in m && m[name]) <==> exists j :: LastNamed(plan, k, name, j) && Succeeds(w, plan, j)
  {
    if k > 0 {
      MapMeaning(w, plan, k - 1, name);
      if plan[k - 1].name == name && plan[k - 1].enabled {
        assert forall j :: LastNamed(plan, k, name, j) ==> j == k - 1;
        assert LastNamed(plan, k, name, k - 1);
      } else {
        assert forall j :: LastNamed(plan, k, name, j) <==> LastNamed(plan, k - 1, name, j);
      }
    }
  }

  // ---- Prerequisite closure ----

  ghost predicate Names(plan: seq<Scenario>, j: int, name: string) {
    0 <= j < |plan| && plan[j].name == name
  }

  ghost predicate Distinct(plan: seq<Scenario>) {
    forall i, j :: 0 <= i < |plan| && 0 <= j < |plan| && plan[i].name == plan[j].name ==> i == j
  }

  ghost predicate Sorted(plan: seq<Scenario>) {
    forall i, j :: 0 <= i < j < |plan| ==> plan[i].order <= plan[j].order
  }

  /** A scenario called `name` has the prerequisite `pre`. */
  ghost predicate Requires(plan: seq<Scenario>, name: string, pre: string) {
    exists j :: Names(plan, j, name) && pre in plan[j].prerequisites
  }

  ghost predicate Chain(plan: seq<Scenario>, chain: seq<string>) {
    chain != [] && forall t :: 0 <= t < |chain| - 1 ==> Requires(plan, chain[t], chain[t + 1])
  }

  /** If a scenario runs, everything it transitively requires exists, is enabled, ran and
      succeeded, each at an earlier position than the one that required it. */
  lemma {:induction false} ClosureRanEarlier(w: World, plan: seq<Scenario>, k: nat, chain: seq<string>)
    returns (j: nat)
    requires Distinct(plan) && k < |plan| && Runs(w, plan, k)
    requires Chain(plan, chain) && chain[0] == plan[k].name && |chain| > 1
    ensures j < k && plan[j].name == chain[|chain| - 1] && plan[j].enabled && Succeeds(w, plan, j)
    decreases |chain|
  {
    assert Requires(plan, chain[0], chain[1]);
    var i :| Names(plan, i, chain[0]) && chain[1] in plan[i].prerequisites;
    MapMeaning(w, plan, k, chain[1]);
    j :| LastNamed(plan, k, chain[1], j) && Succeeds(w, plan, j);
    if |chain| > 2 {
      var rest := chain[1..];
      forall t | 0 <= t < |rest| - 1
        ensures Requires(plan, rest[t], rest[t + 1])
      {
        assert Requires(plan, chain[t + 1], chain[t + 1 + 1]);
      }
      j := ClosureRanEarlier(w, plan, j, rest);
    }
  }

  /** What makes the end of a prerequisite chain impossible to satisfy. */
  ghost predicate Hopeless(plan: seq<Scenario>, k: nat, name: string)
    requires k < |plan|
  {
    || name == plan[k].name
    || (forall j :: 0 <= j < |plan| ==> plan[j].name != name)
    || (exists j :: Names(plan, j, name) && (!plan[j].enabled || plan[j].order > plan[k].order))
  }

  /** A scenario whose requirements lead back to itself, or to an unknown, disabled or later
      ordered scenario, never runs, whatever the outcomes. */
  lemma HopelessNeverRuns(w: World, plan: seq<Scenario>, k: nat, chain: seq<string>)
    requires Distinct(plan) && Sorted(plan) && k < |plan|
    requires Chain(plan, chain) && chain[0] == plan[k].name && |chain| > 1
    requires Hopeless(plan, k, chain[|chain| - 1])
    ensures !Runs(w, plan, k)
  {
    if Runs(w, plan, k) {
      var j := ClosureRanEarlier(w, plan, k, chain);
    }
  }

  /** A cycle further down the chain is as bad as one through the scenario itself. */
  lemma CycleNeverRuns(w: World, plan: seq<Scenario>, k: nat, chain: seq<string>, loop: seq<string>)
    requires Distinct(plan) && k < |plan|
    requires Chain(plan, chain) && chain[0] == plan[k].name && |chain| > 1
    requires Chain(plan, loop) && |loop| > 1 && loop[0] == chain[|chain| - 1] == loop[|loop| - 1]
    ensures !Runs(w, plan, k)
  {
    if Runs(w, plan, k) {
      var j := ClosureRanEarlier(w, plan, k, chain);
      var i := ClosureRanEarlier(w, plan, j, loop);
    }
  }

  // ---- Monotonicity ----

  /** The same engine with some failures turned into successes. */
  ghost predicate Improves(w: World, w': World, plan: seq<Scenario>) {
    forall k, i :: 0 <= k < |plan| && 0 <= i < |plan[k].steps| && StepOk(w, k, plan[k], i) ==> StepOk(w', k, plan[k], i)
  }

  lemma {:induction false} MapMonotone(w: World, w': World, plan: seq<Scenario>, k: nat)
    requires k <= |plan| && Improves(w, w', plan)
    ensures var m, m' := SuccessMap(w, plan, k), SuccessMap(w', plan, k);
            m.Keys == m'.Keys && forall name :: name in m && m[name] ==> m'[name]
  {
    if k > 0 {
      MapMonotone(w, w', plan, k - 1);
      assert ScenarioOk(w, k - 1, plan[k - 1]) ==> ScenarioOk(w', k - 1, plan[k - 1]);
    }
  }

  /** Better step outcomes never make a scenario stop running or succeeding. */
  lemma PlanMonotone(w: World, w': World, plan: seq<Scenario>, k: nat)
    requires k < |plan| && Improves(w, w', plan)
    ensures Runs(w, plan, k) ==> Runs(w', plan, k)
    ensures Succeeds(w, plan, k) ==> Succeeds(w', plan, k)
  {
    MapMonotone(w, w', plan, k);
  }

  /** Turning single attempts from failures into successes improves every step. */
  lemma BetterAttemptsImprove(w: World, w': World, plan: seq<Scenario>)
    requires w'.named == w.named && w'.dryRun == w.dryRun
    requires forall k, i, a :: !w.oracle(k, i, a).Cancelled? ==> !w'.oracle(k, i, a).Cancelled?
    requires forall k, i, a :: w.oracle(k, i, a).Succeeded? ==> w'.oracle(k, i, a).Succeeded?
    ensures Improves(w, w', plan)
  {
    forall k, i | 0 <= k < |plan| && 0 <= i < |plan[k].steps| && StepOk(w, k, plan[k], i)
      ensures StepOk(w', k, plan[k], i)
    {
      var n := Attempts(plan[k].steps[i], plan[k].retries);
      var d := FirstDecisive(StepOutcomes(w, k, i), 0, n);
      var d' := FirstDecisive(StepOutcomes(w', k, i), 0, n);
      assert d' < d ==> StepOutcomes(w, k, i)(d').Failed?;
      assert d < d' ==> StepOutcomes(w', k, i)(d).Failed?;
    }
  }

  // ---- Dry runs ----

  ghost predicate AllKnown(w: World, plan: seq<Scenario>) {
    forall sc, step :: sc in plan && step in sc.steps ==> step.name in w.named
  }

  lemma {:induction false} DryWalk(w: World, k: nat, sc: Scenario, i: nat)
    requires i <= |sc.steps| && w.dryRun
    ensures forall r :: r in WalkTo(w, k, sc, i).reports ==> r.calls == 0
  {
    if i > 0 {
      DryWalk(w, k, sc, i - 1);
    }
  }

  /** A dry run never calls Run, over the whole plan. */
  lemma {:induction false} DryRunCallsNothing(w: World, plan: seq<Scenario>, k: nat)
    requires k <= |plan| && w.dryRun
    ensures forall r :: r in PlanReports(w, plan, k) ==> r.calls == 0
  {
    if k > 0 {
      DryRunCallsNothing(w, plan, k - 1);
      DryWalk(w, k - 1, plan[k - 1], |plan[k - 1].steps|);
    }
  }

  /** An uncancelled dry run over known experiments runs a scenario exactly when it is enabled and
      each of its prerequisites has run at an earlier position. */
  lemma DryRunRuns(w: World, plan: seq<Scenario>, k: nat)
    requires k < |plan| && w.dryRun && Uncancelled(w) && AllKnown(w, plan) && Distinct(plan)
    ensures Runs(w, plan, k) <==>
              && plan[k].enabled
              && forall p :: p in plan[k].prerequisites ==>
                  exists j :: 0 <= j < k && Names(plan, j, p) && Runs(w, plan, j)
  {
    forall p | p in plan[k].prerequisites
      ensures (p in SuccessMap(w, plan, k) && SuccessMap(w, plan, k)[p])
          <==> exists j :: 0 <= j < k && Names(plan, j, p) && Runs(w, plan, j)
    {
      DryMap(w, plan, k, p);
    }
  }

  lemma DryScenarioOk(w: World, k: nat, sc: Scenario)
    requires w.dryRun && Uncancelled(w) && forall step :: step in sc.steps ==> step.name in w.named
    ensures ScenarioOk(w, k, sc)
  {
    assert forall i :: 0 <= i < |sc.steps| ==> sc.steps[i] in sc.steps && !w.oracle(k, i, 0).Cancelled?;
  }

  lemma {:induction false} DryMap(w: World, plan: seq<Scenario>, k: nat, p: string)
    requires k <= |plan| && w.dryRun && Uncancelled(w) && AllKnown(w, plan) && Distinct(plan)
    ensures (p in SuccessMap(w, plan, k) && SuccessMap(w, plan, k)[p])
        <==> exists j :: 0 <= j < k && Names(plan, j, p) && Runs(w, plan, j)
  {
    if k > 0 {
      DryMap(w, plan, k - 1, p);
      var sc := plan[k - 1];
      assert sc in plan;
      DryScenarioOk(w, k - 1, sc);
      if sc.name == p {
        assert forall j :: 0 <= j < k - 1 ==> !Names(plan, j, p);
        assert Names(plan, k - 1, p);
      }
    }
  }
}
