/** Whole runs of the program over the Kubernetes experiment: RunAll's guard and loop with the real
    experiment in it, and a run followed by the rollback at the end of main. */
module Campaign {
  import opened ChaosEngine
  import opened Config
  import opened Estimate
  import opened K8s
  import opened RunLog
  import opened RunPlan
  import opened Scaling
  import opened Scenarios
  import opened Selection
  import opened Targets
  import Safety

  // ---- RunAll without scenarios ----

  /** The experiments main registers for a configuration. */
  function Registered(cfg: Config): seq<Experiment> {
    Safety.Experiments(Safety.Registered(cfg))
  }

  /** Kubernetes chaos is registered first. */
  predicate IsKubernetes(cfg: Config, i: nat) {
    i == 0 && cfg.kubernetes.enabled
  }

  lemma KubernetesFirst(cfg: Config)
    requires cfg.kubernetes.enabled
    ensures Safety.Registered(cfg) != [] && Safety.Registered(cfg)[0].0 == "kubernetes"
    ensures forall i :: 0 < i < |Safety.Registered(cfg)| ==> Safety.Registered(cfg)[i].0 != "kubernetes"
    ensures Registered(cfg) != [] && Registered(cfg)[0] == Safety.Registered(cfg)[0].1
    ensures Registered(cfg)[0].destructive == Some(Safety.K8sCount(cfg.kubernetes.actions, |cfg.kubernetes.namespaces|))
  {
    assert forall on, id: string, e :: forall x :: x in Safety.When(on, id, e) ==> x.0 == id;
    forall i | 0 < i < |Safety.Registered(cfg)|
      ensures Safety.Registered(cfg)[i].0 != "kubernetes"
    {
      assert "kubernetes"[0] == 'k' && "http"[0] == 'h' && "grpc"[0] == 'g' && "mq"[0] == 'm';
      assert "network"[0] == 'n' && "stress"[0] == 's';
    }
  }

  /** What the changes one RunAll attempts with the Kubernetes experiment keep to. */
  ghost predicate WithinLimits(cfg: Config, more: seq<Mutation>) {
    && (WholeCount(cfg.kubernetes) == 0 ==> more == [])
    && (cfg.kubernetes.maxTargets > 0 ==> |more| <= cfg.kubernetes.maxTargets * WholeCount(cfg.kubernetes))
  }

  /** Past the guard the destructive count is within the cap, and it is within the estimate anyway. */
  lemma LimitsMean(cfg: Config, more: seq<Mutation>)
    requires cfg.kubernetes.enabled && WithinLimits(cfg, more)
    ensures forall bound: int :: Restrained(cfg.kubernetes, 1, bound) ==> |more| <= bound
    ensures cfg.kubernetes.maxTargets > 0 ==> |more| <= cfg.kubernetes.maxTargets * Safety.KubernetesShare(cfg)
    ensures cfg.kubernetes.maxTargets > 0 && !Safety.CapExceeded(cfg, Registered(cfg))
            && cfg.safety.enabled && !cfg.dryRun && cfg.safety.maxDestructiveActionsPerRun > 0 ==>
              |more| <= cfg.kubernetes.maxTargets * cfg.safety.maxDestructiveActionsPerRun
  {
    hide Safety.K8sCount;
    var count := WholeCount(cfg.kubernetes);
    Safety.CountsAgree(cfg);
    ShareIsEnough(cfg);
    if cfg.kubernetes.maxTargets > 0 {
      MulMonotone(cfg.kubernetes.maxTargets, count, Safety.KubernetesShare(cfg));
      if count <= cfg.safety.maxDestructiveActionsPerRun {
        MulMonotone(cfg.kubernetes.maxTargets, count, cfg.safety.maxDestructiveActionsPerRun);
      }
    }
  }

  lemma ShareIsEnough(cfg: Config)
    requires cfg.kubernetes.enabled
    ensures WholeCount(cfg.kubernetes) <= Safety.KubernetesShare(cfg)
  {
    var n, m := |cfg.kubernetes.namespaces|, |cfg.kubernetes.actions|;
    Safety.K8sCountBound(cfg.kubernetes.actions, n);
    assert n * m <= (if n == 0 then 1 else n) * m;
  }

  /** The Kubernetes experiment ran exactly if the loop got to it, and its outcome is among the answers. */
  ghost predicate Ran(cfg: Config, answers: seq<Attempt>, logs: seq<Log>) {
    && |logs| == (if cfg.kubernetes.enabled && !cfg.dryRun && answers != [] then 1 else 0)
    && (logs != [] ==> answers[0] == Answer(logs[0]))
  }

  /** The turn of one experiment in the plain loop: the Kubernetes one really runs, the others answer
      as `others` says. */
  method RunExperiment(cfg: Config, chaos: ChaosK8s, i: nat, outside: nat -> nat -> nat -> View,
                       others: nat -> Attempt, ghost ctx: Context)
    returns (a: Attempt, ghost logs: seq<Log>)
    requires Shuffling(outside) && ctx.outside == outside && Stands(chaos, ctx, [])
    modifies chaos, chaos.cluster
    ensures |logs| == if IsKubernetes(cfg, i) then 1 else 0
    ensures a == if IsKubernetes(cfg, i) then Answer(logs[0]) else others(i)
    ensures Stands(chaos, ctx, logs)
  {
    hide Stands, Shuffling;
    a, logs := others(i), [];
    if IsKubernetes(cfg, i) {
      var ok;
      ghost var log;
      ok, log := RunOnce(chaos, outside, 0, ctx, logs);
      a, logs := if ok then Succeeded else Failed, logs + [log];
    }
  }

  /** What the other experiments answer, with the first answers as they turned out. */
  function Answers(answers: seq<Attempt>, others: nat -> Attempt): nat -> Attempt {
    (i: nat) => if i < |answers| then answers[i] else others(i)
  }

  lemma {:induction false} StopsTogether(a: nat -> Attempt, b: nat -> Attempt, i: nat, n: nat)
    requires i <= n && forall k :: a(k).Cancelled? <==> b(k).Cancelled?
    ensures StopsAt(a, i, n) == StopsAt(b, i, n)
    decreases n - i
  {
    if i < n && !a(i).Cancelled? {
      StopsTogether(a, b, i + 1, n);
    }
  }

  /** The loop over `n` experiments has come this far without a stop. */
  ghost predicate Underway(cfg: Config, answers: seq<Attempt>, others: nat -> Attempt, n: nat) {
    && |answers| <= n && StopsAt(others, 0, n) == StopsAt(others, |answers|, n)
    && forall k :: 0 <= k < |answers| ==> !answers[k].Cancelled? && (!IsKubernetes(cfg, k) ==> answers[k] == others(k))
  }

  lemma UnderwayNext(cfg: Config, answers: seq<Attempt>, others: nat -> Attempt, n: nat, a: Attempt)
    requires Underway(cfg, answers, others, n) && |answers| < n && !others(|answers|).Cancelled?
    requires !a.Cancelled? && (!IsKubernetes(cfg, |answers|) ==> a == others(|answers|))
    ensures Underway(cfg, answers + [a], others, n)
  {
  }

  lemma UnderwayEnds(cfg: Config, answers: seq<Attempt>, others: nat -> Attempt, n: nat)
    requires Underway(cfg, answers, others, n) && (|answers| == n || others(|answers|).Cancelled?)
    ensures |answers| == StopsAt(Answers(answers, others), 0, n) == StopsAt(others, 0, n)
    ensures forall i :: 0 <= i < |answers| && !IsKubernetes(cfg, i) ==> answers[i] == others(i)
  {
    StopsTogether(Answers(answers, others), others, 0, n);
  }

  lemma OneMoreAnswer(experiments: seq<Experiment>, dryRun: bool, answers: seq<Attempt>, others: nat -> Attempt,
                      a: Attempt)
    requires |answers| < |experiments|
    ensures FlatReports(experiments, dryRun, Answers(answers + [a], others), |answers| + 1)
         == FlatReports(experiments, dryRun, Answers(answers, others), |answers|)
            + [FlatReport(experiments[|answers|], dryRun, a)]
  {
  }

  lemma NoAnswers(cfg: Config, experiments: seq<Experiment>, others: nat -> Attempt)
    ensures Outcomes(FlatReports(experiments, cfg.dryRun, Answers([], others), 0)) == []
    ensures Underway(cfg, [], others, |experiments|)
  {
  }

  /** The loop of RunAll over the registered experiments. */
  method RunPlain(cfg: Config, chaos: ChaosK8s, outside: nat -> nat -> nat -> View, others: nat -> Attempt,
                  ghost ctx: Context)
    returns (rs: seq<Outcome>, ghost answers: seq<Attempt>, ghost logs: seq<Log>)
    requires Shuffling(outside) && ctx.outside == outside && Stands(chaos, ctx, [])
    modifies chaos, chaos.cluster
    ensures |answers| == StopsAt(Answers(answers, others), 0, |Registered(cfg)|)
    ensures |answers| == StopsAt(others, 0, |Registered(cfg)|)
    ensures rs == Outcomes(FlatReports(Registered(cfg), cfg.dryRun, Answers(answers, others), |answers|))
    ensures forall i :: 0 <= i < |answers| && !IsKubernetes(cfg, i) ==> answers[i] == others(i)
    ensures Ran(cfg, answers, logs) && Stands(chaos, ctx, logs)
  {
    hide Registered, FlatReports, Outcomes, FlatReport, Answers, Underway, StopsAt, Stands, Shuffling;
    var experiments := Registered(cfg);
    rs, answers, logs := [], [], [];
    NoAnswers(cfg, experiments, others);
    var i := 0;
    while i < |experiments|
      invariant 0 <= i <= |experiments| && |answers| == i
      invariant Underway(cfg, answers, others, |experiments|)
      invariant rs == Outcomes(FlatReports(experiments, cfg.dryRun, Answers(answers, others), i))
      invariant Ran(cfg, answers, logs) && Stands(chaos, ctx, logs)
    {
      if others(i).Cancelled? {
        UnderwayEnds(cfg, answers, others, |experiments|);
        return;
      }
      var a := others(i);
      if !cfg.dryRun && IsKubernetes(cfg, i) {
        a, logs := RunExperiment(cfg, chaos, i, outside, others, ctx);
      }
      var r := FlatReport(experiments[i], cfg.dryRun, a);
      UnderwayNext(cfg, answers, others, |experiments|, a);
      OneMoreAnswer(experiments, cfg.dryRun, answers, others, a);
      OneMoreResult(FlatReports(experiments, cfg.dryRun, Answers(answers, others), i), r);
      rs, answers := rs + [r.result], answers + [a];
      i := i + 1;
    }
    UnderwayEnds(cfg, answers, others, |experiments|);
  }

  /** RunAll on a configuration without scenarios. Whatever the outside does and whichever calls fail, the
      Kubernetes experiment runs exactly if the loop gets to it, it succeeds exactly if no list call failed, that
      outcome is among the results, it touches only what is lawful and attempts at most the cap times the target
      limit; without API failures it attempts just what is called for. The results are those of the engine's
      plain loop. */
  method RunAll(cfg: Config, chaos: ChaosK8s, outside: nat -> nat -> nat -> View, others: nat -> Attempt,
                ghost start: Deployments)
    returns (rs: seq<Outcome>, ghost answers: seq<Attempt>, ghost logs: seq<Log>)
    requires cfg.scenarios == [] && chaos.cfg == cfg.kubernetes && Shuffling(outside)
    requires Accounted(start, chaos.tries, chaos.cluster.deployments, chaos.scaledDownDeps)
    modifies chaos, chaos.cluster
    ensures Safety.CapExceeded(cfg, Registered(cfg)) ==> rs == [] && answers == [] && logs == []
    ensures !Safety.CapExceeded(cfg, Registered(cfg)) ==>
              && |answers| == StopsAt(Answers(answers, others), 0, |Registered(cfg)|)
                 == StopsAt(others, 0, |Registered(cfg)|)
              && rs == Outcomes(FlatReports(Registered(cfg), cfg.dryRun, Answers(answers, others), |answers|))
    ensures forall i :: 0 <= i < |answers| && !IsKubernetes(cfg, i) ==> answers[i] == others(i)
    ensures |logs| == if cfg.kubernetes.enabled && !cfg.dryRun && answers != [] then 1 else 0
    ensures Stands(chaos, old(Here(chaos, start, outside)), logs)
    ensures logs == [] ==> chaos.cluster.Contents() == old(chaos.cluster.Contents())
    ensures logs != [] ==>
              && logs[0].before == old(chaos.cluster.Contents()) && logs[0].after == chaos.cluster.Contents()
              && Conducted(cfg.kubernetes, chaos.policy, start, outside(0), chaos.cluster.faults, logs[0])
              && chaos.cluster.lists == old(chaos.cluster.lists) + logs[0].asked
              && answers[0] == if forall l :: l in logs[0].asked ==> !chaos.cluster.faults(l) then Succeeded else Failed
    ensures |rs| == |answers| <= |Registered(cfg)|
    ensures forall i :: 0 <= i < |rs| ==> rs[i].name == Registered(cfg)[i].name
    ensures cfg.dryRun ==> forall i :: 0 <= i < |rs| ==> rs[i].success && rs[i].detail == DryRunSkipped
    ensures !cfg.dryRun ==>
              forall i :: 0 <= i < |rs| ==>
                            && (rs[i].success <==>
                                if i == 0 && cfg.kubernetes.enabled
                                then forall l :: l in logs[0].asked ==> !chaos.cluster.faults(l)
                                else others(i).Succeeded?)
                            && rs[i].detail == if rs[i].success then Success else ErrorText
    ensures OnlyLawful(cfg.kubernetes, chaos.policy, old(chaos.cluster.Contents()), chaos.cluster.Contents())
    ensures Accounted(start, chaos.tries, chaos.cluster.deployments, chaos.scaledDownDeps)
    ensures logs != [] ==> forall bound: int :: Restrained(cfg.kubernetes, 1, bound) ==> |logs[0].more| <= bound
    ensures logs != [] && cfg.kubernetes.maxTargets > 0 ==>
              && |logs[0].more| <= cfg.kubernetes.maxTargets * Safety.KubernetesShare(cfg)
              && (cfg.safety.enabled && !cfg.dryRun && cfg.safety.maxDestructiveActionsPerRun > 0 ==>
                    |logs[0].more| <= cfg.kubernetes.maxTargets * cfg.safety.maxDestructiveActionsPerRun)
  {
    hide Accounted, Registered, FlatReports, Outcomes, Answers, OnlyLawful, StopsAt, Restrained, Conducted, Ledger;
    hide Stands, Shuffling, DoneByName, Total, PlainRun;
    ghost var ctx := Here(chaos, start, outside);
    rs, answers, logs := [], [], [];
    StandsHere(chaos, start, outside);
    StandsMeans(chaos, ctx, logs);
    var destructive := Safety.EngineCount(Registered(cfg));
    if cfg.safety.enabled && !cfg.dryRun && cfg.safety.maxDestructiveActionsPerRun > 0
       && destructive > cfg.safety.maxDestructiveActionsPerRun {
      return;
    }
    rs, answers, logs := RunPlain(cfg, chaos, outside, others, ctx);
    StandsMeans(chaos, ctx, logs);
    RanMeans(cfg, chaos, ctx, answers, logs);
    PlainResults(Registered(cfg), cfg.dryRun, Answers(answers, others), |answers|);
    ResultsAre(cfg, answers, others, logs, chaos.cluster.faults, rs);
  }

  /** The results one by one, from how the experiments ended. */
  lemma ResultsAre(cfg: Config, answers: seq<Attempt>, others: nat -> Attempt, logs: seq<Log>, faults: nat -> bool,
                   rs: seq<Outcome>)
    requires PlainRun(Registered(cfg), cfg.dryRun, Answers(answers, others), rs) && |rs| == |answers|
    requires Ran(cfg, answers, logs)
    requires logs != [] ==> answers[0] == if forall l :: l in logs[0].asked ==> !faults(l) then Succeeded else Failed
    requires forall i :: 0 <= i < |answers| && !IsKubernetes(cfg, i) ==> answers[i] == others(i)
    ensures |rs| <= |Registered(cfg)| && forall i :: 0 <= i < |rs| ==> rs[i].name == Registered(cfg)[i].name
    ensures cfg.dryRun ==> forall i :: 0 <= i < |rs| ==> rs[i].success && rs[i].detail == DryRunSkipped
    ensures !cfg.dryRun ==>
              forall i :: 0 <= i < |rs| ==>
                            && (rs[i].success <==>
                                if i == 0 && cfg.kubernetes.enabled
                                then forall l :: l in logs[0].asked ==> !faults(l)
                                else others(i).Succeeded?)
                            && rs[i].detail == if rs[i].success then Success else ErrorText
  {
    hide Registered;
  }

  lemma RanMeans(cfg: Config, chaos: ChaosK8s, ctx: Context, answers: seq<Attempt>, logs: seq<Log>)
    requires Shuffling(ctx.outside) && ctx.first == Idle(ctx.first.from, ctx.first.before) && Stands(chaos, ctx, logs)
    requires Ran(cfg, answers, logs) && chaos.cfg == cfg.kubernetes && !Safety.CapExceeded(cfg, Registered(cfg))
    ensures logs == [] ==> chaos.cluster.Contents() == ctx.first.before
    ensures logs != [] ==>
              && logs[0].before == ctx.first.before && logs[0].after == chaos.cluster.Contents()
              && Conducted(cfg.kubernetes, chaos.policy, ctx.start, ctx.outside(0), chaos.cluster.faults, logs[0])
              && chaos.cluster.lists == ctx.lists + logs[0].asked
              && answers[0] == if forall l :: l in logs[0].asked ==> !chaos.cluster.faults(l) then Succeeded else Failed
    ensures logs != [] ==> forall bound: int :: Restrained(cfg.kubernetes, 1, bound) ==> |logs[0].more| <= bound
    ensures logs != [] && cfg.kubernetes.maxTargets > 0 ==>
              && |logs[0].more| <= cfg.kubernetes.maxTargets * Safety.KubernetesShare(cfg)
              && (cfg.safety.enabled && !cfg.dryRun && cfg.safety.maxDestructiveActionsPerRun > 0 ==>
                    |logs[0].more| <= cfg.kubernetes.maxTargets * cfg.safety.maxDestructiveActionsPerRun)
  {
    hide Restrained, Matched, Listed, AllLawful, Plan, Safety.K8sCount, Accounted, Registered;
    TotalNext(ctx.first, [], Idle(0, ctx.first.before));
    if logs != [] {
      TotalNext(ctx.first, [], logs[0]);
      assert [] + [logs[0]] == logs && logs[..0] == [];
      AnswerLaw(cfg.kubernetes, chaos.policy, ctx.start, ctx.outside(0), chaos.cluster.faults, logs[0]);
      LimitsMean(cfg, logs[0].more);
    }
  }

  /** Two pods, one destructive action, target limit two, cap one: preflight and guard pass, and one RunAll over
      a cluster of which it lists the two pods kills both. */
  method TwoPodsAtOnce(approved: bool, regex: Safety.Regex, binaries: bool, others: nat -> Attempt)
    returns (cfg: Config, cluster: Cluster, ghost pods: set<Key>, ghost log: Log)
    requires !others(0).Cancelled?
    ensures Safety.Passes(cfg, approved, regex, binaries) && cfg.safety.enabled && !cfg.dryRun && cfg.scenarios == []
    ensures !Safety.CapExceeded(cfg, Registered(cfg)) && cfg.safety.maxDestructiveActionsPerRun == 1
    ensures log.before.pods == pods && |pods| == 2 && cluster.pods == {}
  {
    hide Safety.K8sCount, AdmitsAll, Crowd, Accounted, Effects, Plan, Name, Stands, Calm, OnlyLawful, StopsAt, Outcomes;
    hide Safety.Registered, Safety.Experiments, Safety.CapExceeded, Safety.Passes, FlatReports;
    cfg := CapOne(2, []);
    CapOnePasses(2, [], approved, regex, binaries);
    KubernetesFirst(cfg);
    var policy := Some(Safety.Policy(cfg.safety, [], [], regex));
    var outside: nat -> nat -> nat -> View := _ => _ => _ => View(Crowd(2), _ => []);
    cluster := new Cluster({("default", Crowd(2)[0]), ("default", Crowd(2)[1])}, {}, map[], _ => false);
    pods := cluster.pods;
    var chaos := new ChaosK8s(cfg.kubernetes, policy, cluster);
    FreshAccounted(map[]);
    ghost var answers, logs;
    var rs;
    rs, answers, logs := RunAll(cfg, chaos, outside, others, map[]);
    log := logs[0];
    OnlyKills(2, policy, map[], Crowd(2), outside(0));
    KillsAll(cfg.kubernetes, policy, outside(0), cluster.faults, log, Crowd(2));
  }

  lemma KillsAll(cfg: KubernetesConfig, policy: Option<Safety.Policy>, outside: nat -> nat -> View,
                 faults: nat -> bool, log: Log, names: seq<string>)
    requires forall j, i :: ShufflesInRange(outside(j)(i).shuffle)
    requires Conducted(cfg, policy, map[], outside, faults, log) && forall j :: !faults(j)
    requires KeysOf(KillPod, Plan(cfg, policy, map[], outside, |cfg.actions|)) == KeysIn("default", names)
    ensures log.after.pods == log.before.pods - set i | 0 <= i < |names| :: ("default", names[i])
  {
    hide Plan, KeysOf, Safety.K8sCount, AllLawful;
    var keys := KeysIn("default", names);
    assert (set k | k in keys) == set i | 0 <= i < |names| :: ("default", names[i]) by {
      assert forall i :: 0 <= i < |names| ==> keys[i] == ("default", names[i]) && keys[i] in keys;
    }
  }

  lemma OneMoreResult(reports: seq<StepReport>, r: StepReport)
    ensures Outcomes(reports + [r]) == Outcomes(reports) + [r.result]
  {
    LogsOneMore(reports, r);
  }

  // ---- One run and the rollback at the end of main ----

  /** How often a deployment is scaled down in a plan. */
  ghost function Times(key: Key, plan: seq<Mutation>): nat {
    multiset(KeysOf(ScaleDown, plan))[key]
  }

  lemma {:induction false} ZeroedBefore(tries: seq<Try>, l: nat, key: Key)
    requires AllUpdated(tries) && l <= |tries|
    ensures Zeroed(tries[..l], key) <==> key in Keys(tries)[..l]
  {
    var keys := Keys(tries);
    if key in keys[..l] {
      var i :| 0 <= i < l && keys[i] == key;
      assert tries[..l][i] == Try(key, true);
    } else {
      assert forall i :: 0 <= i < l ==> keys[..l][i] == tries[i].key;
    }
  }

  lemma CountAround(keys: seq<Key>, l: nat, key: Key)
    requires l < |keys| && keys[l] == key && forall i :: l < i < |keys| ==> keys[i] != key
    ensures multiset(keys)[key] <= 1 <==> key !in keys[..l]
  {
    assert keys == keys[..l] + [key] + keys[l + 1..];
    assert key !in keys[l + 1..];
  }

  /** Where every scale-down went through, a deployment had not been zeroed before its last record exactly
      if it has no other. */
  lemma LastTryFirst(tries: seq<Try>, key: Key)
    requires AllUpdated(tries)
    ensures LastTry(tries, key) < 0 || !Zeroed(tries[..LastTry(tries, key)], key) <==> multiset(Keys(tries))[key] <= 1
  {
    hide AllUpdated, Zeroed;
    var l, keys := LastTry(tries, key), Keys(tries);
    assert forall i :: 0 <= i < |keys| ==> keys[i] == tries[i].key;
    if l < 0 {
      assert key !in keys;
    } else {
      ZeroedBefore(tries, l, key);
      CountAround(keys, l, key);
    }
  }

  /** Scale-downs of these deployments, all gone through. */
  function AllThrough(keys: seq<Key>): seq<Try> {
    seq(|keys|, i requires 0 <= i < |keys| => Try(keys[i], true))
  }

  lemma TriesOf(cfg: KubernetesConfig, policy: Option<Safety.Policy>, start: Deployments,
                outside: nat -> nat -> View, faults: nat -> bool, log: Log)
    requires forall j, i :: ShufflesInRange(outside(j)(i).shuffle)
    requires Conducted(cfg, policy, start, outside, faults, log)
    ensures Quiet(faults, log) ==>
              && AllUpdated(log.tries)
              && Keys(log.tries) == KeysOf(ScaleDown, Plan(cfg, policy, start, outside, |cfg.actions|))
              && log.tries == AllThrough(Keys(log.tries))
  {
  }

  /** What a complete rollback leaves, after any history from `start`. */
  lemma AfterRollback(start: Deployments, tries: seq<Try>, mid: Deployments, records: seq<DepRef>)
    requires Accounted(start, tries, mid, records)
    ensures Within(tries, start) && mid.Keys == start.Keys && Recorded(records, mid)
    ensures Restore(mid, records) == Final(start, tries)
    ensures forall key :: key in start ==> key in Final(start, tries)
    ensures OncePerDeployment(tries) ==>
              forall key :: key in start ==> Effective(Final(start, tries)[key]) == Effective(start[key])
    ensures AllUpdated(tries) ==>
              forall key :: key in start ==>
                              (Effective(Final(start, tries)[key]) == Effective(start[key]) <==>
                               Effective(start[key]) == 0 || multiset(Keys(tries))[key] <= 1)
  {
    hide Effective, Keys, AllUpdated, OncePerDeployment;
    AccountedKeys(start, tries, mid, records);
    assert Recorded(records, mid) by {
      forall i | 0 <= i < |records|
        ensures records[i].key in mid
      {
        RecordAt(start, tries, i);
        assert tries[i] in tries;
      }
    }
    forall key | key in start
      ensures key in Final(start, tries)
      ensures OncePerDeployment(tries) ==> Effective(Final(start, tries)[key]) == Effective(start[key])
      ensures AllUpdated(tries) ==>
                (Effective(Final(start, tries)[key]) == Effective(start[key]) <==>
                 Effective(start[key]) == 0 || multiset(Keys(tries))[key] <= 1)
    {
      RestoredIff(start, tries, key);
      if OncePerDeployment(tries) {
        OnceRestoresAll(start, tries, key);
      }
      if AllUpdated(tries) {
        LastTryFirst(tries, key);
      }
    }
  }

  /** A fresh experiment runs once and is rolled back: a complete rollback leaves what the history of scale-downs
      makes of it, which is that of the plan where no call fails. A rollback that goes through gives every
      deployment its count back if namespaces differ and one action scales down, even where updates
      failed; and where no call fails it does go through, and a deployment has its count back exactly
      when that is zero or the plan scales it down at most once. */
  method RunAndRollback(cfg: KubernetesConfig, policy: Option<Safety.Policy>, cluster: Cluster,
                        outside: nat -> nat -> View)
    returns (ok: bool, rolledBack: bool, ghost tries: seq<Try>)
    requires forall j, i :: ShufflesInRange(outside(j)(i).shuffle)
    modifies cluster
    ensures cluster.deployments.Keys == old(cluster.deployments).Keys
    ensures Selection.Distinct(cfg.namespaces) && ScaleDowns(cfg.actions) <= 1 && rolledBack ==>
              forall key :: key in old(cluster.deployments) ==>
                              Effective(cluster.deployments[key]) == Effective(old(cluster.deployments)[key])
    ensures rolledBack ==>
              Within(tries, old(cluster.deployments)) && cluster.deployments == Final(old(cluster.deployments), tries)
    ensures Calm(cluster.faults, old(cluster.issued), cluster.issued) ==>
              && ok && rolledBack
              && tries == AllThrough(KeysOf(ScaleDown, Plan(cfg, policy, old(cluster.deployments), outside,
                                                            |cfg.actions|)))
              && forall key :: key in old(cluster.deployments) ==>
                   (Effective(cluster.deployments[key]) == Effective(old(cluster.deployments)[key]) <==>
                    Effective(old(cluster.deployments)[key]) == 0
                    || Times(key, Plan(cfg, policy, old(cluster.deployments), outside, |cfg.actions|)) <= 1)
  {
    hide ShufflesInRange, Conducted, OnlyLawful, Calm, Plan, Through, Restore;
    hide Keys, KeysOf, Accounted, Final, AllUpdated, Effective, Within;
    var chaos := new ChaosK8s(cfg, policy, cluster);
    ghost var start, issued0 := cluster.deployments, cluster.issued;
    ghost var log, went, at;
    FreshAccounted(start);
    ok, log := chaos.Run(outside, start);
    tries := log.tries;
    assert chaos.tries == [] + tries == tries;
    ghost var mid, issued1 := cluster.deployments, cluster.issued;
    TriesOf(cfg, policy, start, outside, cluster.faults, log);
    rolledBack, went, at := chaos.Rollback();
    CalmParts(cluster.faults, issued0, issued1, cluster.issued);
    AfterRollback(start, tries, mid, chaos.scaledDownDeps);
  }

  /** One deployment of one namespace is all there is to find, and nothing protects it. */
  ghost predicate Exposed(cfg: KubernetesConfig, policy: Option<Safety.Policy>, start: Deployments, key: Key,
                          outside: nat -> nat -> View)
  {
    && cfg.namespaces == [key.0] && start.Keys == {key} && !Excluded(cfg, key.1)
    && Admitted(policy, Name(ScaleDown), key.0, key.1)
    && forall j, i :: outside(j)(i).listed == [key.1]
  }

  lemma ExposedRounds(cfg: KubernetesConfig, policy: Option<Safety.Policy>, start: Deployments, key: Key,
                      views: nat -> View)
    requires cfg.namespaces == [key.0] && start.Keys == {key} && !Excluded(cfg, key.1)
    requires Admitted(policy, Name(ScaleDown), key.0, key.1)
    requires forall i :: ShufflesInRange(views(i).shuffle) && views(i).listed == [key.1]
    ensures Rounds(cfg, policy, start, Name(ScaleDown), views, 1) == [Mutation(Name(ScaleDown), key)]
  {
    hide Parse, Name, Excluded, Admitted;
    var listed := [key.1];
    assert listed[..0] == [] && (key.0, key.1) == key && key in start;
    assert Existing(start, key.0, []) == [] && Existing(start, key.0, listed) == listed;
    assert Eligible(cfg, ScaleDown, []) == [] && Eligible(cfg, ScaleDown, listed) == listed;
    assert Admit(policy, Name(ScaleDown), key.0, []) == [] && Admit(policy, Name(ScaleDown), key.0, listed) == listed;
    assert Round(cfg, policy, start, Name(ScaleDown), key.0, views(0)) == [Mutation(Name(ScaleDown), key)];
    assert Rounds(cfg, policy, start, Name(ScaleDown), views, 0) == [];
  }

  lemma ExposedPlan(cfg: KubernetesConfig, policy: Option<Safety.Policy>, start: Deployments, key: Key,
                    outside: nat -> nat -> View)
    requires forall j, i :: ShufflesInRange(outside(j)(i).shuffle)
    requires Exposed(cfg, policy, start, key, outside) && cfg.actions == [Name(ScaleDown), Name(ScaleDown)]
    ensures Times(key, Plan(cfg, policy, start, outside, 2)) == 2
  {
    hide Rounds, Name, Parse, Excluded, Admitted;
    ExposedRounds(cfg, policy, start, key, outside(0));
    ExposedRounds(cfg, policy, start, key, outside(1));
    var one := [Mutation(Name(ScaleDown), key)];
    assert Plan(cfg, policy, start, outside, 0) == [];
    assert Plan(cfg, policy, start, outside, 1) == [] + one == one;
    assert Plan(cfg, policy, start, outside, 2) == one + one;
    TwoKeys(one, key);
  }

  lemma TwoKeys(one: seq<Mutation>, key: Key)
    requires one == [Mutation(Name(ScaleDown), key)]
    ensures KeysOf(ScaleDown, one + one) == [key, key]
  {
    hide Name;
    assert one[..0] == [] && KeysOf(ScaleDown, []) == [];
    assert KeysOf(ScaleDown, one) == [key];
    KeysOfAppend(ScaleDown, one, one);
  }

  /** Two scale_down actions lose the count: no call fails, the rollback succeeds, and the only deployment
      stays at zero. */
  method TwoScaleDowns(cfg: KubernetesConfig, policy: Option<Safety.Policy>, cluster: Cluster, key: Key,
                       outside: nat -> nat -> View)
    returns (rolledBack: bool)
    requires forall j, i :: ShufflesInRange(outside(j)(i).shuffle)
    requires Exposed(cfg, policy, cluster.deployments, key, outside)
    requires cfg.actions == [Name(ScaleDown), Name(ScaleDown)]
    requires forall j :: !cluster.faults(j)
    requires Effective(cluster.deployments[key]) != 0
    modifies cluster
    ensures rolledBack && cluster.deployments == map[key := Some(0)]
  {
    hide ShufflesInRange, Plan, Times, Name, Excluded, Admitted, Final;
    ghost var start := cluster.deployments;
    ghost var tries;
    var ok;
    ExposedPlan(cfg, policy, start, key, outside);
    assert key in start.Keys;
    ok, rolledBack, tries := RunAndRollback(cfg, policy, cluster, outside);
    RollbackValue(start, tries, key);
    assert cluster.deployments.Keys == {key};
  }
}
