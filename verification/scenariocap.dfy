/** The cap on destructive actions under scenarios: RunAll's guard does not read them, so what a plan of
    scenarios attempts is bounded by its calls of the Kubernetes experiment instead. */
module ScenarioCap {
  import opened ChaosEngine
  import opened Config
  import opened Estimate
  import opened K8s
  import opened RunLog
  import opened RunPlan
  import opened Scaling
  import opened ScenarioRun
  import opened Scenarios
  import opened Sums
  import opened Targets
  import Parallel
  import Safety

  /** The id main registers Kubernetes chaos under. */
  const KUBERNETES_ID := "kubernetes"

  // ---- The calls of one experiment among those of the engine ----

  lemma WalkNext(w: World, k: nat, sc: Scenario, i: nat)
    requires i < |sc.steps| && !sc.parallel
    ensures WalkTo(w, k, sc, i + 1).reports ==
            if Reached(w, k, sc, i) then WalkTo(w, k, sc, i).reports + [Report(w, k, sc, i)]
            else WalkTo(w, k, sc, i).reports
  {
    hide Report;
  }

  lemma {:induction false} WalkTotals(w: World, k: nat, sc: Scenario, id: string, i: nat)
    requires i <= |sc.steps| && !sc.parallel
    ensures TurnCalls(w, k, sc, id, i) <= TotalCalls(WalkTo(w, k, sc, i).reports)
    ensures OnlyNames(sc, id) ==> TurnCalls(w, k, sc, id, i) == TotalCalls(WalkTo(w, k, sc, i).reports)
  {
    hide Report, TotalCalls, Reached, OnlyNames;
    if i == 0 {
      LogsEmpty();
    } else {
      hide WalkTo;
      WalkNext(w, k, sc, i - 1);
      WalkTotals(w, k, sc, id, i - 1);
      LogsOneMore(WalkTo(w, k, sc, i - 1).reports, Report(w, k, sc, i - 1));
      NamesIt(sc, id, i - 1);
    }
  }

  predicate OnlyNames(sc: Scenario, id: string) {
    forall step :: step in sc.steps ==> step.name == id
  }

  lemma NamesIt(sc: Scenario, id: string, i: nat)
    requires i < |sc.steps|
    ensures OnlyNames(sc, id) ==> sc.steps[i].name == id
  {
    assert sc.steps[i] in sc.steps;
  }

  lemma {:induction false} AllTotals(w: World, k: nat, sc: Scenario, id: string, i: nat)
    requires i <= |sc.steps| && sc.parallel
    ensures TurnCalls(w, k, sc, id, i) <= TotalCalls(AllReports(w, k, sc)[..i])
    ensures OnlyNames(sc, id) ==> TurnCalls(w, k, sc, id, i) == TotalCalls(AllReports(w, k, sc)[..i])
  {
    hide Report, TotalCalls, OnlyNames;
    var reports := AllReports(w, k, sc);
    if i == 0 {
      LogsEmpty();
    } else {
      AllTotals(w, k, sc, id, i - 1);
      LogsOneMore(reports[..i - 1], reports[i - 1]);
      assert reports[..i] == reports[..i - 1] + [reports[i - 1]];
      NamesIt(sc, id, i - 1);
    }
  }

  /** The engine's Run calls include those of any one experiment, and are those if no step names another. */
  lemma {:induction false} PlanTotals(w: World, plan: seq<Scenario>, id: string, n: nat)
    requires n <= |plan|
    ensures PlanCalls(w, plan, id, n) <= TotalCalls(PlanReports(w, plan, n))
    ensures (forall sc :: sc in plan ==> OnlyNames(sc, id)) ==>
              PlanCalls(w, plan, id, n) == TotalCalls(PlanReports(w, plan, n))
  {
    hide TurnCalls, WalkTo, Report, Runs, OnlyNames;
    if n == 0 {
      LogsEmpty();
    } else {
      var sc := plan[n - 1];
      PlanTotals(w, plan, id, n - 1);
      assert sc in plan;
      SumAppend(PlanReports(w, plan, n - 1), TurnReports(w, plan, n - 1), Parallel.CallsOf);
      LogsEmpty();
      if sc.parallel {
        AllTotals(w, n - 1, sc, id, |sc.steps|);
        assert AllReports(w, n - 1, sc)[..|sc.steps|] == AllReports(w, n - 1, sc);
      } else {
        WalkTotals(w, n - 1, sc, id, |sc.steps|);
      }
    }
  }

  // ---- Plans whose calls can be read off ----

  function Named(steps: seq<Step>, id: string): nat {
    if steps == [] then 0
    else Named(steps[..|steps| - 1], id) + if steps[|steps| - 1].name == id then 1 else 0
  }

  /** The steps of an enabled scenario that name the experiment. */
  function StepsOf(id: string): Scenario -> int {
    (sc: Scenario) => if sc.enabled then Named(sc.steps, id) else 0
  }

  function StepsNaming(scenarios: seq<Scenario>, id: string): int {
    Sum(scenarios, StepsOf(id))
  }

  predicate PlainStep(sc: Scenario, step: Step) {
    step.retries <= 0 && (sc.parallel || (step.condition != "on_success" && step.condition != "on_failure"))
  }

  /** No retries, no prerequisites, no conditions. */
  predicate Plain(scenarios: seq<Scenario>) {
    forall sc :: sc in scenarios ==>
                   sc.retries <= 0 && sc.prerequisites == [] && forall step :: step in sc.steps ==> PlainStep(sc, step)
  }

  lemma PlainReport(v: World, k: nat, sc: Scenario, id: string, i: nat)
    requires i < |sc.steps| && sc.steps[i].name == id && id in v.named && !v.dryRun && Uncancelled(v)
    requires sc.retries <= 0 && sc.steps[i].retries <= 0
    ensures Report(v, k, sc, i).calls == 1
  {
    RetryLaw(v, k, sc, i);
    if StepOk(v, k, sc, i) {
      assert v.oracle(k, i, Report(v, k, sc, i).calls - 1).Succeeded?;
    }
  }

  lemma {:induction false} PlainTurn(v: World, k: nat, sc: Scenario, id: string, n: nat)
    requires n <= |sc.steps| && id in v.named && !v.dryRun && Uncancelled(v)
    requires sc.retries <= 0 && forall step :: step in sc.steps ==> PlainStep(sc, step)
    ensures TurnCalls(v, k, sc, id, n) == Named(sc.steps[..n], id)
  {
    hide Report, Uncancelled, WalkTo;
    if n > 0 {
      PlainTurn(v, k, sc, id, n - 1);
      assert sc.steps[..n][..n - 1] == sc.steps[..n - 1];
      assert sc.steps[n - 1] in sc.steps && PlainStep(sc, sc.steps[n - 1]);
      if sc.steps[n - 1].name == id {
        PlainReport(v, k, sc, id, n - 1);
      }
    }
  }

  /** A plain plan calls an experiment once for each step that names it, whatever the outcomes. */
  lemma {:induction false} PlainCalls(v: World, plan: seq<Scenario>, id: string, n: nat)
    requires n <= |plan| && Plain(plan) && id in v.named && !v.dryRun && Uncancelled(v)
    ensures PlanCalls(v, plan, id, n) == StepsNaming(plan[..n], id)
  {
    hide TurnCalls, Uncancelled, Named;
    if n > 0 {
      var sc := plan[n - 1];
      PlainCalls(v, plan, id, n - 1);
      assert sc in plan;
      SumLast(plan, n - 1, StepsOf(id));
      PlainTurn(v, n - 1, sc, id, |sc.steps|);
      assert sc.steps[..|sc.steps|] == sc.steps;
    }
  }

  lemma StaysUncancelled(w: World, told: Told, ran: seq<Place>, logs: seq<Log>)
    requires Uncancelled(w) && Truthful(w, told, ran, logs)
    ensures Uncancelled(Overlay(w, told))
  {
    forall p | p in told
      ensures !told[p].Cancelled?
    {
      var r :| 0 <= r < |ran| && ran[r] == p;
      assert told[ran[r]] == Answer(logs[r]);
    }
  }

  // ---- RunAll over scenarios ----

  /** RunAll on a configuration with scenarios, its Kubernetes steps run for real. The guard is the only
      thing the cap does. Past it the experiment runs as often as the plan calls it, in the world that the runs'
      own outcomes make; in a plain plan that is once for each of its steps. */
  method RunAll(engine: Engine, plan: seq<Scenario>, chaos: ChaosK8s, outside: nat -> nat -> nat -> View, w: World,
                ghost start: Deployments)
    returns (rs: seq<Outcome>, told: Told, runs: nat, ghost heard: seq<Outcome>, ghost ran: seq<Place>,
             ghost logs: seq<Log>)
    requires IsPlan(plan, engine.cfg.scenarios) && engine.cfg.scenarios != [] && chaos.cfg == engine.cfg.kubernetes
    requires engine.Sees(w) && KUBERNETES_ID in w.named && Shuffling(outside)
    requires Accounted(start, chaos.tries, chaos.cluster.deployments, chaos.scaledDownDeps)
    modifies chaos, chaos.cluster, engine`results, engine`trace, engine`calls
    ensures Stands(chaos, old(Here(chaos, start, outside)), logs) && runs == |logs|
    ensures Ledger(chaos.cfg, chaos.policy, old(Here(chaos, start, outside)), chaos.cluster.faults, logs)
    ensures OnlyLawful(chaos.cfg, chaos.policy, old(chaos.cluster.Contents()), chaos.cluster.Contents())
    ensures engine.results == old(engine.results) + rs && engine.trace == old(engine.trace) + heard
    ensures Truthful(w, told, ran, logs)
    ensures Safety.CapExceeded(engine.cfg, engine.experiments) ==>
              logs == [] && rs == heard == [] && engine.calls == old(engine.calls)
    ensures !Safety.CapExceeded(engine.cfg, engine.experiments) ==>
              && PlanTold(w, told, plan, KUBERNETES_ID, |plan|)
              && runs == PlanCalls(Overlay(w, told), plan, KUBERNETES_ID, |plan|)
              && CarriedOut(PlanReports(Overlay(w, told), plan, |plan|), NoParallel(plan), rs, heard,
                            engine.calls - old(engine.calls))
              && (Plain(engine.cfg.scenarios) && Uncancelled(w) && !w.dryRun ==>
                    runs == StepsNaming(engine.cfg.scenarios, KUBERNETES_ID))
  {
    hide Stands, Truthful, PlanTold, PlanCalls, Uncancelled, Overlay, OnlyLawful, Ledger, Accounted;
    hide Shuffling, Outcomes, Notices, TotalCalls, CarriedOut, PlanReports, Plain, StepsNaming, IsPlan, Here;
    hide DoneByName, Total;
    ghost var ctx := Here(chaos, start, outside);
    rs, told, runs, heard, ran, logs := [], map[], 0, [], [], [];
    Begins(chaos, start, outside, w);
    StandsMeans(chaos, ctx, logs);
    var cfg := engine.cfg;
    if cfg.safety.enabled && !cfg.dryRun && cfg.safety.maxDestructiveActionsPerRun > 0 {
      var destructive := Safety.EngineCount(engine.experiments);
      if destructive > cfg.safety.maxDestructiveActionsPerRun {
        return;
      }
    }
    var succeeded;
    rs, succeeded, told, runs, heard, ran, logs :=
      RunScenarios(chaos, engine, outside, w, plan, KUBERNETES_ID, ctx);
    engine.results := engine.results + rs;
    StandsMeans(chaos, ctx, logs);
    if Plain(cfg.scenarios) && Uncancelled(w) && !w.dryRun {
      PlainPlan(cfg, plan, w, told, ran, logs);
    }
  }

  lemma Begins(chaos: ChaosK8s, start: Deployments, outside: nat -> nat -> nat -> View, w: World)
    requires Shuffling(outside)
    requires Accounted(start, chaos.tries, chaos.cluster.deployments, chaos.scaledDownDeps)
    ensures var ctx := Here(chaos, start, outside);
            && Stands(chaos, ctx, []) && ctx.outside == outside && ctx.first.before == chaos.cluster.Contents()
            && ctx.first == Idle(ctx.first.from, ctx.first.before)
    ensures Truthful(w, map[], [], [])
  {
    StandsHere(chaos, start, outside);
  }

  lemma PlainInOrder(plan: seq<Scenario>, scenarios: seq<Scenario>)
    requires IsPlan(plan, scenarios) && Plain(scenarios)
    ensures Plain(plan)
  {
    hide PlainStep, Sorted;
    forall sc | sc in plan
      ensures sc in scenarios
    {
      assert sc in multiset(plan) && sc in multiset(scenarios);
    }
  }

  lemma OverlaySetting(w: World, told: Told)
    ensures SameSetting(w, Overlay(w, told))
  {
  }

  lemma PlainPlan(cfg: Config, plan: seq<Scenario>, w: World, told: Told, ran: seq<Place>, logs: seq<Log>)
    requires IsPlan(plan, cfg.scenarios) && Plain(cfg.scenarios) && Uncancelled(w) && !w.dryRun
    requires KUBERNETES_ID in w.named && Truthful(w, told, ran, logs)
    ensures PlanCalls(Overlay(w, told), plan, KUBERNETES_ID, |plan|) == StepsNaming(cfg.scenarios, KUBERNETES_ID)
  {
    hide Uncancelled, Truthful, Overlay, PlanCalls, StepsOf;
    StaysUncancelled(w, told, ran, logs);
    PlainInOrder(plan, cfg.scenarios);
    OverlaySetting(w, told);
    PlainCalls(Overlay(w, told), plan, KUBERNETES_ID, |plan|);
    assert plan[..|plan|] == plan;
    SumPermutation(plan, cfg.scenarios, StepsOf(KUBERNETES_ID));
  }

  // ---- Exactly when the cap holds all the same ----

  /** What the calls of a plan add up to stays within cap times target limit, on every cluster, exactly when
      calls times destructive count are within the cap. */
  lemma CallsAgainstCapIff(cfg: Config, policy: Option<Safety.Policy>, calls: nat)
    requires cfg.kubernetes.excludedPods == [] && AdmitsAll(cfg.kubernetes, policy) && cfg.kubernetes.maxTargets > 0
    requires cfg.safety.maxDestructiveActionsPerRun > 0
    ensures Keeps(cfg.kubernetes, policy, calls, cfg.kubernetes.maxTargets * cfg.safety.maxDestructiveActionsPerRun)
        <==> calls * WholeCount(cfg.kubernetes) <= cfg.safety.maxDestructiveActionsPerRun
  {
    hide WholeCount, Keeps, AdmitsAll;
    var limit, cap, count := cfg.kubernetes.maxTargets, cfg.safety.maxDestructiveActionsPerRun,
        WholeCount(cfg.kubernetes);
    KeepsIff(cfg.kubernetes, policy, calls, limit * cap);
    assert (limit * count) * calls == limit * (calls * count);
    MulMonotone(limit, 0, cap);
    if calls * count <= cap {
      MulMonotone(limit, calls * count, cap);
    } else {
      MulMonotone(limit, cap + 1, calls * count);
      MulStep(limit, cap);
      assert calls != 0 && count != 0;
    }
  }

  /** And within the cap itself exactly when the target limit keeps the whole product there. */
  lemma CallsWithinCapIff(cfg: Config, policy: Option<Safety.Policy>, calls: nat)
    requires cfg.kubernetes.excludedPods == [] && AdmitsAll(cfg.kubernetes, policy)
    requires cfg.safety.maxDestructiveActionsPerRun > 0
    ensures Keeps(cfg.kubernetes, policy, calls, cfg.safety.maxDestructiveActionsPerRun) <==>
              || calls == 0 || WholeCount(cfg.kubernetes) == 0
              || (cfg.kubernetes.maxTargets > 0
                  && (cfg.kubernetes.maxTargets * WholeCount(cfg.kubernetes)) * calls
                     <= cfg.safety.maxDestructiveActionsPerRun)
  {
    KeepsIff(cfg.kubernetes, policy, calls, cfg.safety.maxDestructiveActionsPerRun);
  }

  // ---- A plan beyond the cap ----

  function Twice(): Scenario {
    Scenario("twice", true, 0, false, [], 0, [Step(KUBERNETES_ID, "always", 0), Step(KUBERNETES_ID, "always", 0)])
  }

  lemma TwiceIsPlain()
    ensures Plain([Twice()]) && StepsNaming([Twice()], KUBERNETES_ID) == 2
  {
    var steps := Twice().steps;
    assert steps[..1] == [steps[0]] && steps[..0] == [] && steps[..1][..0] == [];
    assert Named([], KUBERNETES_ID) == 0 && Named(steps[..1], KUBERNETES_ID) == 1 && Named(steps, KUBERNETES_ID) == 2;
    assert [Twice()][1..] == [];
    assert Sum([], StepsOf(KUBERNETES_ID)) == 0;
  }

  /** Cap one, target limit one, one namespace, kill_pod: preflight and guard pass, a scenario names the
      experiment twice, each run lists one pod, and both are gone. */
  method TwoKubernetesSteps(approved: bool, regex: Safety.Regex, binaries: bool, oracle: Oracle)
    returns (cfg: Config, cluster: Cluster, runs: nat, ghost pods: set<Key>, ghost more: seq<Mutation>)
    requires forall k, i, a :: !oracle(k, i, a).Cancelled?
    ensures Safety.Passes(cfg, approved, regex, binaries) && cfg.safety.enabled && !cfg.dryRun
    ensures !Safety.CapExceeded(cfg, Safety.Experiments(Safety.Registered(cfg)))
    ensures cfg.safety.maxDestructiveActionsPerRun == cfg.kubernetes.maxTargets == 1
    ensures cfg.scenarios == [Twice()] && runs == 2
    ensures |more| == 2 > cfg.kubernetes.maxTargets * cfg.safety.maxDestructiveActionsPerRun
    ensures |pods| == 2 && cluster.pods == {}
  {
    hide Safety.K8sCount, Safety.Registered, Safety.Experiments, Plain, AdmitsAll, Crowd, Accounted, Ledger, Stands;
    hide Truthful, Overlay, PlanCalls, PlanTold, OnlyLawful, CarriedOut, Name, Plan, StepsNaming;
    hide Safety.CapExceeded, Safety.Passes, PlanReports, Total;
    cfg := CapOne(1, [Twice()]);
    CapOnePasses(1, [Twice()], approved, regex, binaries);
    TwiceIsPlain();
    var policy := Some(Safety.Policy(cfg.safety, [], [], regex));
    var names := Crowd(2);
    var outside: nat -> nat -> nat -> View :=
      (r: nat) => _ => _ => View(if r < |names| then [names[r]] else [], _ => []);
    cluster := new Cluster({("default", names[0]), ("default", names[1])}, {}, map[], _ => false);
    pods := cluster.pods;
    var chaos := new ChaosK8s(cfg.kubernetes, policy, cluster);
    var engine := new Engine(cfg);
    OnlyKubernetes(cfg);
    engine.RegisterNamed(KUBERNETES_ID, Safety.Registered(cfg)[0].1);
    assert engine.experiments == Safety.Experiments(Safety.Registered(cfg));
    var w := World(engine.named, false, oracle);
    assert Uncancelled(w);
    FreshAccounted(map[]);
    ghost var ctx := Here(chaos, map[], outside);
    var rs, told;
    ghost var heard, ran, logs;
    rs, told, runs, heard, ran, logs := RunAll(engine, cfg.scenarios, chaos, outside, w, map[]);
    more := Total(ctx.first, logs).more;
    BothKilled(policy, ctx, cluster.faults, logs);
    AllGone(chaos, ctx, logs);
  }

  lemma AllGone(chaos: ChaosK8s, ctx: Context, logs: seq<Log>)
    requires Shuffling(ctx.outside) && ctx.first == Idle(ctx.first.from, ctx.first.before) && Stands(chaos, ctx, logs)
    ensures Total(ctx.first, logs).before == ctx.first.before
    ensures Total(ctx.first, logs).after == chaos.cluster.Contents()
  {
    hide Ledger, Total, Accounted, OnlyLawful, AllLawful;
    StandsMeans(chaos, ctx, logs);
    TotalBegins(ctx.first, logs);
  }

  lemma {:induction false} TotalBegins(first: Log, logs: seq<Log>)
    ensures Total(first, logs).before == first.before
  {
    if logs != [] {
      TotalBegins(first, logs[..|logs| - 1]);
    }
  }

  lemma OnlyKubernetes(cfg: Config)
    requires cfg == Only(OneAction(1), cfg.safety, cfg.scenarios)
    ensures Safety.Registered(cfg) != []
    ensures Safety.Experiments(Safety.Registered(cfg)) == [Safety.Registered(cfg)[0].1]
  {
    hide Safety.K8sCount;
    assert Safety.Experiments([]) == [];
  }

  lemma BothKilled(policy: Option<Safety.Policy>, ctx: Context, faults: nat -> bool, logs: seq<Log>)
    requires Shuffling(ctx.outside) && ctx.start == map[] && AdmitsAll(OneAction(1), policy) && |logs| == 2
    requires forall j, i :: ctx.outside(0)(j)(i).listed == [Crowd(2)[0]] && ctx.outside(1)(j)(i).listed == [Crowd(2)[1]]
    requires Ledger(OneAction(1), policy, ctx, faults, logs) && forall j :: !faults(j)
    ensures var all := Total(ctx.first, logs);
            && |all.more| == 2
            && all.after.pods == all.before.pods - {("default", Crowd(2)[0]), ("default", Crowd(2)[1])}
  {
    hide Crowd, AdmitsAll, Plan, KeysOf, Name, Total, AllLawful, AsBounded;
    var cfg := OneAction(1);
    assert Crowd(2)[0] in Crowd(2) && Crowd(2)[1] in Crowd(2);
    OnlyKills(1, policy, map[], [Crowd(2)[0]], ctx.outside(0));
    OnlyKills(1, policy, map[], [Crowd(2)[1]], ctx.outside(1));
    var one, two := Plan(cfg, policy, map[], ctx.outside(0), 1), Plan(cfg, policy, map[], ctx.outside(1), 1);
    assert Repeated(cfg, policy, map[], ctx.outside, 0) == [];
    assert Repeated(cfg, policy, map[], ctx.outside, 1) == [] + one == one;
    KeysOfAppend(KillPod, one, two);
    var keys := KeysOf(KillPod, Total(ctx.first, logs).more);
    assert keys == [("default", Crowd(2)[0]), ("default", Crowd(2)[1])];
  }
}
