/** The limits of pkg/safety, the target estimate and the cap on destructive actions, against what one or
    several runs of pkg/k8s may attempt. */
module Estimate {
  import opened Config
  import opened RunPlan
  import opened Scaling
  import opened Selection
  import opened Sums
  import opened Targets
  import Safety

  // ---- No plan is longer than this ----

  lemma RoundUnknown(cfg: KubernetesConfig, policy: Option<Safety.Policy>, start: Deployments, action: string,
                     namespace: string, view: View)
    requires ShufflesInRange(view.shuffle)
    ensures Parse(action).Unknown? ==> Round(cfg, policy, start, action, namespace, view) == []
  {
  }

  /** The destructive count of the first `n` actions. */
  function Count(cfg: KubernetesConfig, n: nat): nat
    requires n <= |cfg.actions|
  {
    Safety.K8sCount(cfg.actions[..n], |cfg.namespaces|)
  }

  lemma CountNext(cfg: KubernetesConfig, n: nat)
    requires n < |cfg.actions|
    ensures Count(cfg, 0) == 0
    ensures Count(cfg, n + 1) == Count(cfg, n) + if Parse(cfg.actions[n]).Unknown? then 0 else |cfg.namespaces|
  {
    assert cfg.actions[..n + 1][..n] == cfg.actions[..n];
    ParseKnown(cfg.actions[n]);
  }

  lemma CountWhole(cfg: KubernetesConfig)
    ensures Count(cfg, 0) == 0 && Count(cfg, |cfg.actions|) == Safety.K8sCount(cfg.actions, |cfg.namespaces|)
  {
    assert cfg.actions[..|cfg.actions|] == cfg.actions;
  }

  lemma {:induction false} RoundsBound(cfg: KubernetesConfig, policy: Option<Safety.Policy>, start: Deployments,
                                       action: string,
                                       views: nat -> View, n: nat)
    requires n <= |cfg.namespaces| && action in cfg.actions && forall i :: ShufflesInRange(views(i).shuffle)
    ensures cfg.maxTargets > 0 ==> |Rounds(cfg, policy, start, action, views, n)| <= cfg.maxTargets * n
    ensures Parse(action).Unknown? ==> |Rounds(cfg, policy, start, action, views, n)| == 0
  {
    hide Parse, Round, AllLawful;
    if n > 0 {
      RoundsBound(cfg, policy, start, action, views, n - 1);
      RoundUnknown(cfg, policy, start, action, cfg.namespaces[n - 1], views(n - 1));
      RoundLaw(cfg, policy, start, action, cfg.namespaces[n - 1], views(n - 1));
      MulStep(cfg.maxTargets, n - 1);
    }
  }

  lemma {:induction false} PlanBound(cfg: KubernetesConfig, policy: Option<Safety.Policy>, start: Deployments,
                                     outside: nat -> nat -> View, n: nat)
    requires n <= |cfg.actions| && forall j, i :: ShufflesInRange(outside(j)(i).shuffle)
    ensures cfg.maxTargets > 0 ==> |Plan(cfg, policy, start, outside, n)| <= cfg.maxTargets * Count(cfg, n)
    ensures Count(cfg, n) == 0 ==> |Plan(cfg, policy, start, outside, n)| == 0
  {
    hide Parse, Rounds, Count;
    if n == 0 {
      CountWhole(cfg);
    } else {
      var action, size := cfg.actions[n - 1], |cfg.namespaces|;
      PlanBound(cfg, policy, start, outside, n - 1);
      RoundsBound(cfg, policy, start, action, outside(n - 1), size);
      RoundsNone(cfg, policy, start, action, outside(n - 1));
      CountNext(cfg, n - 1);
      MulAdd(cfg.maxTargets, Count(cfg, n - 1), size);
    }
  }

  lemma RoundsNone(cfg: KubernetesConfig, policy: Option<Safety.Policy>, start: Deployments, action: string,
                   views: nat -> View)
    requires forall i :: ShufflesInRange(views(i).shuffle)
    ensures Rounds(cfg, policy, start, action, views, 0) == []
  {
  }

  lemma MulAdd(x: int, a: int, b: int)
    ensures x * (a + b) == x * a + x * b
    ensures x * 0 == 0
  {
  }

  // ---- A cluster and lists that use the bound up ----

  /** Distinct names, none of them protected. */
  function Crowd(m: nat): (names: seq<string>)
    ensures |names| == m
    ensures Distinct(names) && KUBERNETES !in names
  {
    var names := seq(m, i requires 0 <= i => seq(i + 1, _ => 'p'));
    assert forall i :: 0 <= i < m ==> |names[i]| == i + 1 && names[i][0] == 'p';
    names
  }

  function Crowded(namespaces: seq<string>, m: nat): Deployments {
    map i, j | 0 <= i < |namespaces| && 0 <= j < m :: (namespaces[i], Crowd(m)[j]) := Some(1)
  }

  /** The policy lets every name through, for the configured actions and namespaces. */
  ghost predicate AdmitsAll(cfg: KubernetesConfig, policy: Option<Safety.Policy>) {
    forall action, namespace, name :: action in cfg.actions && namespace in cfg.namespaces ==>
                                        Admitted(policy, action, namespace, name)
  }

  lemma {:induction false} NothingFiltered(cfg: KubernetesConfig, policy: Option<Safety.Policy>, kind: Kind,
                                           action: string,
                                           namespace: string, listed: seq<string>)
    requires cfg.excludedPods == [] && KUBERNETES !in listed
    requires AdmitsAll(cfg, policy) && action in cfg.actions && namespace in cfg.namespaces
    ensures Eligible(cfg, kind, listed) == listed && Admit(policy, action, namespace, listed) == listed
  {
    hide Admitted;
    if listed != [] {
      NothingFiltered(cfg, policy, kind, action, namespace, listed[..|listed| - 1]);
    }
  }

  lemma {:induction false} AllExist(deployments: Deployments, namespace: string, listed: seq<string>)
    requires Distinct(listed) && forall i :: 0 <= i < |listed| ==> (namespace, listed[i]) in deployments
    ensures Existing(deployments, namespace, listed) == listed
  {
    if listed != [] {
      AllExist(deployments, namespace, listed[..|listed| - 1]);
    }
  }

  lemma CrowdExists(namespaces: seq<string>, k: nat, m: nat)
    requires k < |namespaces|
    ensures Existing(Crowded(namespaces, m), namespaces[k], Crowd(m)) == Crowd(m)
  {
    hide Crowd;
    forall j | 0 <= j < m
      ensures (namespaces[k], Crowd(m)[j]) in Crowded(namespaces, m)
    {
    }
    AllExist(Crowded(namespaces, m), namespaces[k], Crowd(m));
  }

  lemma CrowdedRound(cfg: KubernetesConfig, policy: Option<Safety.Policy>, action: string, k: nat, m: nat, view: View)
    requires cfg.excludedPods == [] && AdmitsAll(cfg, policy) && action in cfg.actions && k < |cfg.namespaces|
    requires ShufflesInRange(view.shuffle) && view.listed == Crowd(m) && (cfg.maxTargets <= 0 || m <= cfg.maxTargets)
    ensures Round(cfg, policy, Crowded(cfg.namespaces, m), action, cfg.namespaces[k], view)
         == if Parse(action).Unknown? then [] else Mutations(action, cfg.namespaces[k], Crowd(m))
  {
    hide Parse, Crowd, Crowded, AdmitsAll, Eligible, Admit, Existing, Distinct;
    CrowdExists(cfg.namespaces, k, m);
    NothingFiltered(cfg, policy, Parse(action), action, cfg.namespaces[k], Crowd(m));
    assert Chosen(cfg, Parse(action), Crowd(m), view.shuffle) == Crowd(m);
  }

  lemma {:induction false} CrowdedRounds(cfg: KubernetesConfig, policy: Option<Safety.Policy>, action: string, n: nat,
                                         m: nat,
                                         views: nat -> View)
    requires n <= |cfg.namespaces| && action in cfg.actions && cfg.excludedPods == [] && AdmitsAll(cfg, policy)
    requires forall i :: ShufflesInRange(views(i).shuffle) && views(i).listed == Crowd(m)
    requires cfg.maxTargets <= 0 || m <= cfg.maxTargets
    ensures |Rounds(cfg, policy, Crowded(cfg.namespaces, m), action, views, n)|
         == if Parse(action).Unknown? then 0 else m * n
  {
    hide Parse, Round, Crowded, Crowd, AdmitsAll;
    if n > 0 {
      CrowdedRounds(cfg, policy, action, n - 1, m, views);
      CrowdedRound(cfg, policy, action, n - 1, m, views(n - 1));
      MulStep(m, n - 1);
    }
  }

  /** Where every list call finds the same `m` names the plan calls for `m` changes per destructive action. */
  lemma {:induction false} CrowdedPlan(cfg: KubernetesConfig, policy: Option<Safety.Policy>, n: nat, m: nat,
                                       outside: nat -> nat -> View)
    requires n <= |cfg.actions| && cfg.excludedPods == [] && AdmitsAll(cfg, policy)
    requires forall j, i :: ShufflesInRange(outside(j)(i).shuffle) && outside(j)(i).listed == Crowd(m)
    requires cfg.maxTargets <= 0 || m <= cfg.maxTargets
    ensures |Plan(cfg, policy, Crowded(cfg.namespaces, m), outside, n)| == m * Count(cfg, n)
  {
    hide Parse, Rounds, Crowded, Crowd, AdmitsAll, Count;
    if n == 0 {
      CountWhole(cfg);
    } else {
      CrowdedPlan(cfg, policy, n - 1, m, outside);
      CrowdedRounds(cfg, policy, cfg.actions[n - 1], |cfg.namespaces|, m, outside(n - 1));
      CountNext(cfg, n - 1);
      MulAdd(m, Count(cfg, n - 1), |cfg.namespaces|);
    }
  }

  // ---- Several runs ----

  /** What the first `times` runs call for; `outside` gives each of them its own list results. */
  ghost function Repeated(cfg: KubernetesConfig, policy: Option<Safety.Policy>, start: Deployments,
                          outside: nat -> nat -> nat -> View, times: nat): seq<Mutation>
    requires forall r, j, i :: ShufflesInRange(outside(r)(j)(i).shuffle)
  {
    if times == 0 then []
    else Repeated(cfg, policy, start, outside, times - 1) + Plan(cfg, policy, start, outside(times - 1), |cfg.actions|)
  }

  /** The destructive count of one run. */
  function WholeCount(cfg: KubernetesConfig): nat {
    Safety.K8sCount(cfg.actions, |cfg.namespaces|)
  }

  lemma {:induction false} RepeatedBound(cfg: KubernetesConfig, policy: Option<Safety.Policy>, start: Deployments,
                                         outside: nat -> nat -> nat -> View, times: nat)
    requires forall r, j, i :: ShufflesInRange(outside(r)(j)(i).shuffle)
    ensures cfg.maxTargets > 0 ==>
              |Repeated(cfg, policy, start, outside, times)| <= (cfg.maxTargets * WholeCount(cfg)) * times
    ensures WholeCount(cfg) == 0 ==> Repeated(cfg, policy, start, outside, times) == []
  {
    hide Plan, Safety.K8sCount;
    if times > 0 {
      RepeatedBound(cfg, policy, start, outside, times - 1);
      PlanBound(cfg, policy, start, outside(times - 1), |cfg.actions|);
      CountWhole(cfg);
      MulStep(cfg.maxTargets * WholeCount(cfg), times - 1);
    }
  }

  /** Every list call finds the same `m` names, and the deployments among them exist. */
  ghost predicate Crowding(cfg: KubernetesConfig, start: Deployments, outside: nat -> nat -> nat -> View, m: nat) {
    && start == Crowded(cfg.namespaces, m)
    && forall r, j, i :: outside(r)(j)(i).listed == Crowd(m)
  }

  lemma {:induction false} CrowdedRepeated(cfg: KubernetesConfig, policy: Option<Safety.Policy>, start: Deployments,
                                           outside: nat -> nat -> nat -> View, times: nat, m: nat)
    requires cfg.excludedPods == [] && AdmitsAll(cfg, policy) && (cfg.maxTargets <= 0 || m <= cfg.maxTargets)
    requires forall r, j, i :: ShufflesInRange(outside(r)(j)(i).shuffle)
    requires Crowding(cfg, start, outside, m)
    ensures |Repeated(cfg, policy, start, outside, times)| == (m * WholeCount(cfg)) * times
  {
    hide Plan, Safety.K8sCount, AdmitsAll, Crowd, Crowded;
    if times > 0 {
      CrowdedRepeated(cfg, policy, start, outside, times - 1, m);
      CrowdedPlan(cfg, policy, |cfg.actions|, m, outside(times - 1));
      CountWhole(cfg);
      MulStep(m * WholeCount(cfg), times - 1);
    }
  }

  // ---- Exactly when a number bounds what is attempted ----

  ghost predicate CallsForAtMost(cfg: KubernetesConfig, policy: Option<Safety.Policy>, start: Deployments,
                         outside: nat -> nat -> nat -> View, times: nat, bound: int)
  {
    (forall r, j, i :: ShufflesInRange(outside(r)(j)(i).shuffle)) ==>
      |Repeated(cfg, policy, start, outside, times)| <= bound
  }

  /** On every cluster, whatever the list calls return, this many runs call for at most `bound` changes. */
  ghost predicate Keeps(cfg: KubernetesConfig, policy: Option<Safety.Policy>, times: nat, bound: int) {
    forall start, outside :: CallsForAtMost(cfg, policy, start, outside, times, bound)
  }

  /** What a configuration has to look like for that. */
  predicate Restrained(cfg: KubernetesConfig, times: nat, bound: int) {
    || (times == 0 && bound >= 0)
    || (WholeCount(cfg) == 0 && bound >= 0)
    || (cfg.maxTargets > 0 && (cfg.maxTargets * WholeCount(cfg)) * times <= bound)
  }

  lemma RestrainedWithin(cfg: KubernetesConfig, policy: Option<Safety.Policy>, start: Deployments,
                         outside: nat -> nat -> nat -> View, times: nat, bound: int)
    requires Restrained(cfg, times, bound)
    ensures CallsForAtMost(cfg, policy, start, outside, times, bound)
  {
    hide WholeCount, Plan;
    if forall r, j, i :: ShufflesInRange(outside(r)(j)(i).shuffle) {
      RepeatedBound(cfg, policy, start, outside, times);
    }
  }

  /** A cluster that goes beyond the bound of a configuration that is not restrained. */
  lemma Beyond(cfg: KubernetesConfig, policy: Option<Safety.Policy>, times: nat, bound: int)
    returns (start: Deployments, outside: nat -> nat -> nat -> View, m: nat)
    requires cfg.excludedPods == [] && AdmitsAll(cfg, policy) && !Restrained(cfg, times, bound)
    ensures forall r, j, i :: ShufflesInRange(outside(r)(j)(i).shuffle)
    ensures Crowding(cfg, start, outside, m) && (cfg.maxTargets <= 0 || m <= cfg.maxTargets)
    ensures |Repeated(cfg, policy, start, outside, times)| > bound
  {
    hide AdmitsAll, Crowd, Crowded, WholeCount, Plan;
    m := if cfg.maxTargets > 0 then cfg.maxTargets else if bound < 0 then 0 else bound + 1;
    start, outside := Crowded(cfg.namespaces, m), _ => _ => _ => View(Crowd(m), _ => []);
    CrowdedRepeated(cfg, policy, start, outside, times, m);
    if cfg.maxTargets <= 0 && bound >= 0 {
      MulMonotone(m, 1, WholeCount(cfg));
      MulMonotone(m * WholeCount(cfg), 1, times);
    }
  }

  /** Without exclusions and with a policy that admits the names: a number bounds what so many runs call
      for, on every cluster, exactly for the restrained configurations. */
  lemma KeepsIff(cfg: KubernetesConfig, policy: Option<Safety.Policy>, times: nat, bound: int)
    requires cfg.excludedPods == [] && AdmitsAll(cfg, policy)
    ensures Keeps(cfg, policy, times, bound) <==> Restrained(cfg, times, bound)
  {
    if Restrained(cfg, times, bound) {
      forall start, outside
        ensures CallsForAtMost(cfg, policy, start, outside, times, bound)
      {
        RestrainedWithin(cfg, policy, start, outside, times, bound);
      }
    } else {
      var start, outside, m := Beyond(cfg, policy, times, bound);
      assert !CallsForAtMost(cfg, policy, start, outside, times, bound);
    }
  }

  lemma Once(cfg: KubernetesConfig, policy: Option<Safety.Policy>, start: Deployments,
             outside: nat -> nat -> nat -> View)
    requires forall r, j, i :: ShufflesInRange(outside(r)(j)(i).shuffle)
    ensures Repeated(cfg, policy, start, outside, 1) == Plan(cfg, policy, start, outside(0), |cfg.actions|)
  {
    assert Repeated(cfg, policy, start, outside, 0) == [];
  }

  // ---- The cap and the estimate ----

  /** The cap as the documentation has it: at most so many kills, scale-downs and deletes in a run. */
  ghost predicate CapIsBound(cfg: Config, policy: Option<Safety.Policy>) {
    cfg.kubernetes.enabled ==> Keeps(cfg.kubernetes, policy, 1, cfg.safety.maxDestructiveActionsPerRun)
  }

  /** The cap bounds the changes of a run exactly when there are none or a target limit keeps their product
      with the destructive count within it. */
  lemma CapIsBoundIff(cfg: Config, policy: Option<Safety.Policy>)
    requires cfg.kubernetes.excludedPods == [] && AdmitsAll(cfg.kubernetes, policy)
    requires cfg.safety.maxDestructiveActionsPerRun > 0
    ensures CapIsBound(cfg, policy) <==>
              || !cfg.kubernetes.enabled
              || WholeCount(cfg.kubernetes) == 0
              || (cfg.kubernetes.maxTargets > 0
                  && cfg.kubernetes.maxTargets * WholeCount(cfg.kubernetes) <= cfg.safety.maxDestructiveActionsPerRun)
  {
    KeepsIff(cfg.kubernetes, policy, 1, cfg.safety.maxDestructiveActionsPerRun);
  }

  /** Everything a run without scenarios touches, the other packages counted as the estimate counts them. */
  ghost function Touched(cfg: Config, policy: Option<Safety.Policy>, start: Deployments,
                         outside: nat -> nat -> nat -> View): nat
    requires forall r, j, i :: ShufflesInRange(outside(r)(j)(i).shuffle)
  {
    Safety.OtherTargets(cfg)
    + if cfg.kubernetes.enabled then |Repeated(cfg.kubernetes, policy, start, outside, 1)| else 0
  }

  ghost predicate TouchesWithin(cfg: Config, policy: Option<Safety.Policy>, start: Deployments,
                                outside: nat -> nat -> nat -> View, bound: int)
  {
    (forall r, j, i :: ShufflesInRange(outside(r)(j)(i).shuffle)) ==> Touched(cfg, policy, start, outside) <= bound
  }

  ghost predicate TouchesAtMost(cfg: Config, policy: Option<Safety.Policy>, bound: int) {
    forall start, outside :: TouchesWithin(cfg, policy, start, outside, bound)
  }

  lemma TouchedIff(cfg: Config, policy: Option<Safety.Policy>, bound: int)
    requires cfg.kubernetes.excludedPods == [] && AdmitsAll(cfg.kubernetes, policy)
    ensures TouchesAtMost(cfg, policy, bound) <==>
            if cfg.kubernetes.enabled then Restrained(cfg.kubernetes, 1, bound - Safety.OtherTargets(cfg))
            else Safety.OtherTargets(cfg) <= bound
  {
    hide AdmitsAll, Safety.OtherTargets, Restrained;
    var left := bound - Safety.OtherTargets(cfg);
    if cfg.kubernetes.enabled {
      if Restrained(cfg.kubernetes, 1, left) {
        forall start, outside
          ensures TouchesWithin(cfg, policy, start, outside, bound)
        {
          RestrainedWithin(cfg.kubernetes, policy, start, outside, 1, left);
        }
      } else {
        var start, outside, m := Beyond(cfg.kubernetes, policy, 1, left);
        assert !TouchesWithin(cfg, policy, start, outside, bound);
      }
    } else {
      var start: Deployments, outside: nat -> nat -> nat -> View := map[], _ => _ => _ => View([], _ => []);
      assert Touched(cfg, policy, start, outside) == Safety.OtherTargets(cfg);
      assert TouchesWithin(cfg, policy, start, outside, bound) <==> Safety.OtherTargets(cfg) <= bound;
    }
  }

  /** The estimate bounds what a run touches exactly when Kubernetes chaos keeps to its own share of it. */
  lemma EstimateIsBoundIff(cfg: Config, policy: Option<Safety.Policy>)
    requires cfg.kubernetes.excludedPods == [] && AdmitsAll(cfg.kubernetes, policy)
    ensures TouchesAtMost(cfg, policy, Safety.EstimateTargets(cfg)) <==>
              || !cfg.kubernetes.enabled
              || WholeCount(cfg.kubernetes) == 0
              || (cfg.kubernetes.maxTargets > 0
                  && cfg.kubernetes.maxTargets * WholeCount(cfg.kubernetes) <= Safety.KubernetesShare(cfg))
  {
    hide AdmitsAll, WholeCount, TouchesAtMost;
    TouchedIff(cfg, policy, Safety.EstimateTargets(cfg));
  }

  /** The policy main passes on admits every name when preflight passes, destructive actions are allowed
      and no name patterns are configured. */
  lemma PreflightAdmits(cfg: Config, approved: bool, regex: Safety.Regex, binaries: bool)
    requires Safety.Passes(cfg, approved, regex, binaries)
    requires cfg.safety.enabled && !cfg.dryRun && cfg.kubernetes.enabled && cfg.safety.allowDestructiveActions
    requires cfg.safety.allowedNamePatterns == cfg.safety.blockedNamePatterns == []
    ensures AdmitsAll(cfg.kubernetes, Some(Safety.Policy(cfg.safety, [], [], regex)))
  {
  }

  /** The smallest Kubernetes configuration that changes anything. */
  function OneAction(maxTargets: int): KubernetesConfig {
    KubernetesConfig(true, ["default"], [Name(KillPod)], maxTargets, [])
  }

  function Only(kubernetes: KubernetesConfig, safety: SafetyConfig, scenarios: seq<Scenario>): Config {
    Config(false, kubernetes, TrafficConfig(false, 0), TrafficConfig(false, 0), TrafficConfig(false, 0),
           NetworkConfig(false, [], 0, 0, 0.0, 0.0, 0, 0), StressConfig(false, []), safety, scenarios)
  }

  lemma OneDestructive(maxTargets: int)
    ensures WholeCount(OneAction(maxTargets)) == 1
  {
    ParseKnown(Name(KillPod));
    assert Safety.K8sCount([Name(KillPod)][..0], 1) == 0;
  }

  /** That configuration kills just the pods listed, where these are within the target limit. */
  lemma OnlyKills(maxTargets: int, policy: Option<Safety.Policy>, start: Deployments, names: seq<string>,
                  outside: nat -> nat -> View)
    requires AdmitsAll(OneAction(maxTargets), policy) && KUBERNETES !in names
    requires maxTargets <= 0 || |names| <= maxTargets
    requires forall j, i :: ShufflesInRange(outside(j)(i).shuffle) && outside(j)(i).listed == names
    ensures Plan(OneAction(maxTargets), policy, start, outside, 1) == Mutations(Name(KillPod), "default", names)
    ensures KeysOf(KillPod, Plan(OneAction(maxTargets), policy, start, outside, 1)) == KeysIn("default", names)
  {
    hide AdmitsAll, Eligible, Admit, Existing, Name;
    var cfg, action, view := OneAction(maxTargets), Name(KillPod), outside(0)(0);
    NothingFiltered(cfg, policy, KillPod, action, "default", names);
    MutationsOf(KillPod, action, "default", names);
    assert Chosen(cfg, KillPod, names, view.shuffle) == names;
    assert Round(cfg, policy, start, action, "default", view) == Mutations(action, "default", names);
    assert Rounds(cfg, policy, start, action, outside(0), 0) == [];
    assert Rounds(cfg, policy, start, action, outside(0), 1) == Mutations(action, "default", names);
    assert Plan(cfg, policy, start, outside, 0) == [];
  }

  /** Everything else off, destructive actions allowed, and a cap of one. */
  function CapOne(maxTargets: int, scenarios: seq<Scenario>): Config {
    Only(OneAction(maxTargets), SafetyConfig(true, true, false, true, [], [], [], [], 0, 1), scenarios)
  }

  lemma CapOnePasses(maxTargets: int, scenarios: seq<Scenario>, approved: bool, regex: Safety.Regex, binaries: bool)
    ensures var cfg := CapOne(maxTargets, scenarios);
            && Safety.Passes(cfg, approved, regex, binaries)
            && AdmitsAll(cfg.kubernetes, Some(Safety.Policy(cfg.safety, [], [], regex)))
            && !Safety.CapExceeded(cfg, Safety.Experiments(Safety.Registered(cfg)))
  {
    hide Safety.K8sCount, Safety.Registered, Safety.Experiments, AdmitsAll;
    var cfg := CapOne(maxTargets, scenarios);
    OneDestructive(maxTargets);
    Safety.CountsAgree(cfg);
    PreflightAdmits(cfg, approved, regex, binaries);
  }

  /** A configuration that passes preflight with a cap of one, and a cluster on which it calls for two kills. */
  lemma CapIsNoBound(approved: bool, regex: Safety.Regex, binaries: bool)
    returns (cfg: Config, start: Deployments, outside: nat -> nat -> nat -> View)
    ensures cfg.scenarios == [] && cfg.kubernetes == OneAction(2)
    ensures Safety.Passes(cfg, approved, regex, binaries) && cfg.safety.enabled && !cfg.dryRun
    ensures cfg.safety.maxDestructiveActionsPerRun == 1
    ensures forall r, j, i :: ShufflesInRange(outside(r)(j)(i).shuffle)
    ensures var policy := Some(Safety.Policy(cfg.safety, [], [], regex));
            |Plan(cfg.kubernetes, policy, start, outside(0), 1)| > cfg.safety.maxDestructiveActionsPerRun
  {
    hide Safety.K8sCount, Plan;
    cfg := CapOne(2, []);
    OneDestructive(2);
    CapOnePasses(2, [], approved, regex, binaries);
    var policy := Some(Safety.Policy(cfg.safety, [], [], regex));
    var m;
    start, outside, m := Beyond(cfg.kubernetes, policy, 1, 1);
    Once(cfg.kubernetes, policy, start, outside);
  }

  /** A run that passes preflight with a target limit and an estimate of one, and touches more. */
  lemma EstimateIsNoBound(approved: bool, regex: Safety.Regex, binaries: bool)
    returns (cfg: Config, start: Deployments, outside: nat -> nat -> nat -> View)
    ensures cfg.scenarios == []
    ensures Safety.Passes(cfg, approved, regex, binaries) && cfg.safety.enabled && !cfg.dryRun
    ensures Safety.EstimateTargets(cfg) == 1 == cfg.safety.maxTargetsPerRun
    ensures forall r, j, i :: ShufflesInRange(outside(r)(j)(i).shuffle)
    ensures Touched(cfg, Some(Safety.Policy(cfg.safety, [], [], regex)), start, outside) > 1
  {
    hide Safety.K8sCount, Plan;
    cfg := Only(OneAction(0), SafetyConfig(true, true, false, true, [], [], [], [], 1, 0), []);
    OneDestructive(0);
    PreflightAdmits(cfg, approved, regex, binaries);
    var m;
    start, outside, m := Beyond(cfg.kubernetes, Some(Safety.Policy(cfg.safety, [], [], regex)), 1, 1);
  }
}
