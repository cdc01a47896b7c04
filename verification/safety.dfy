/** The safety policy of pkg/safety, and its agreement with the engine's own cap. */
module Safety {
  import opened Config

  /** What the regular-expression library does with a pattern. */
  datatype Regex = Regex(compiles: string -> bool, matches: (string, string) -> bool)

  datatype Policy = Policy(cfg: SafetyConfig, allowed: seq<string>, blocked: seq<string>, regex: Regex)

  const DESTRUCTIVE_K8S: set<string> := {"kill_pod", "scale_down", "delete_service"}

  method NewPolicy(cfg: SafetyConfig, regex: Regex) returns (r: Result<Policy>)
    ensures r.Ok? <==> (forall p :: p in cfg.allowedNamePatterns + cfg.blockedNamePatterns ==> regex.compiles(p))
    ensures r.Ok? ==> r.value == Policy(cfg, cfg.allowedNamePatterns, cfg.blockedNamePatterns, regex)
  {
    var allowed, blocked := [], [];
    for i := 0 to |cfg.allowedNamePatterns|
      invariant allowed == cfg.allowedNamePatterns[..i]
      invariant forall p :: p in allowed ==> regex.compiles(p)
    {
      var pattern := cfg.allowedNamePatterns[i];
      if !regex.compiles(pattern) {
        assert pattern in cfg.allowedNamePatterns + cfg.blockedNamePatterns;
        return Err("compile allowed_name_patterns");
      }
      allowed := allowed + [pattern];
    }
    for i := 0 to |cfg.blockedNamePatterns|
      invariant blocked == cfg.blockedNamePatterns[..i]
      invariant forall p :: p in blocked ==> regex.compiles(p)
    {
      var pattern := cfg.blockedNamePatterns[i];
      if !regex.compiles(pattern) {
        assert pattern in cfg.allowedNamePatterns + cfg.blockedNamePatterns;
        return Err("compile blocked_name_patterns");
      }
      blocked := blocked + [pattern];
    }
    return Ok(Policy(cfg, allowed, blocked, regex));
  }

  // ---- Which targets the policy lets through ----

  predicate NamespaceAllowed(p: SafetyConfig, namespace: string) {
    && (p.allowedNamespaces == [] || namespace in p.allowedNamespaces)
    && namespace !in p.blockedNamespaces
  }

  predicate NameAllowed(p: Policy, name: string) {
    || name == ""
    || (&& (forall rx :: rx in p.blocked ==> !p.regex.matches(rx, name))
        && (p.allowed == [] || exists rx :: rx in p.allowed && p.regex.matches(rx, name)))
  }

  datatype Package = KubernetesActions | NetworkActions | StressActions

  predicate Destructive(action: string, pkg: Package) {
    pkg.KubernetesActions? ==> action in DESTRUCTIVE_K8S
  }

  predicate ActionAllowed(p: Policy, action: string, pkg: Package) {
    !p.cfg.enabled || p.cfg.allowDestructiveActions || !Destructive(action, pkg)
  }

  /** What an enabled policy promises of every Kubernetes resource that gets changed. */
  predicate TargetAllowed(p: Policy, namespace: string, name: string, action: string) {
    !p.cfg.enabled
    || (NamespaceAllowed(p.cfg, namespace) && NameAllowed(p, name) && ActionAllowed(p, action, KubernetesActions))
  }

  method CheckName(p: Policy, name: string) returns (ok: bool)
    ensures ok <==> NameAllowed(p, name)
  {
    if name == "" {
      return true;
    }
    for i := 0 to |p.blocked|
      invariant forall rx :: rx in p.blocked[..i] ==> !p.regex.matches(rx, name)
    {
      if p.regex.matches(p.blocked[i], name) {
        return false;
      }
    }
    assert p.blocked[..|p.blocked|] == p.blocked;
    if |p.allowed| > 0 {
      for i := 0 to |p.allowed|
        invariant forall rx :: rx in p.allowed[..i] ==> !p.regex.matches(rx, name)
      {
        if p.regex.matches(p.allowed[i], name) {
          return true;
        }
      }
      assert p.allowed[..|p.allowed|] == p.allowed;
      return false;
    }
    return true;
  }

  method CheckK8sTarget(p: Policy, namespace: string, name: string, action: string) returns (ok: bool)
    ensures ok <==> TargetAllowed(p, namespace, name, action)
    ensures ok <==>
            || !p.cfg.enabled
            || (&& (p.cfg.allowedNamespaces == [] || namespace in p.cfg.allowedNamespaces)
                && namespace !in p.cfg.blockedNamespaces
                && (|| name == ""
                    || (&& (forall rx :: rx in p.blocked ==> !p.regex.matches(rx, name))
                        && (p.allowed == [] || exists rx :: rx in p.allowed && p.regex.matches(rx, name))))
                && (p.cfg.allowDestructiveActions || action !in {"kill_pod", "scale_down", "delete_service"}))
  {
    if !p.cfg.enabled {
      return true;
    }
    if |p.cfg.allowedNamespaces| > 0 && namespace !in p.cfg.allowedNamespaces {
      return false;
    }
    if namespace in p.cfg.blockedNamespaces {
      return false;
    }
    var nameOk := CheckName(p, name);
    if !nameOk {
      return false;
    }
    return ActionAllowed(p, action, KubernetesActions);
  }

  // ---- Counting destructive actions ----

  /** The namespaces touched by one action: all of them when it is destructive. */
  function ActionWeight(action: string, namespaces: nat): nat {
    if action in DESTRUCTIVE_K8S then namespaces else 0
  }

  function K8sCount(actions: seq<string>, namespaces: nat): nat {
    if actions == [] then 0
    else K8sCount(actions[..|actions| - 1], namespaces) + ActionWeight(actions[|actions| - 1], namespaces)
  }

  function PolicyCount(cfg: Config): nat {
    (if cfg.kubernetes.enabled then K8sCount(cfg.kubernetes.actions, |cfg.kubernetes.namespaces|) else 0)
    + (if cfg.network.enabled then |cfg.network.actions| else 0)
    + (if cfg.stress.enabled then |cfg.stress.actions| else 0)
  }

  method DestructiveActionCount(cfg: Config) returns (total: nat)
    ensures total == PolicyCount(cfg)
  {
    total := 0;
    if cfg.kubernetes.enabled {
      var actions := cfg.kubernetes.actions;
      for i := 0 to |actions|
        invariant total == K8sCount(actions[..i], |cfg.kubernetes.namespaces|)
      {
        assert actions[..i + 1][..i] == actions[..i];
        if actions[i] in DESTRUCTIVE_K8S {
          total := total + |cfg.kubernetes.namespaces|;
        }
      }
      assert actions[..|actions|] == actions;
    }
    if cfg.network.enabled {
      total := total + |cfg.network.actions|;
    }
    if cfg.stress.enabled {
      total := total + |cfg.stress.actions|;
    }
  }

  /** The estimated targets of the other packages: their targets, or their actions. */
  function OtherTargets(cfg: Config): nat {
    (if cfg.http.enabled then cfg.http.targets else 0)
    + (if cfg.grpc.enabled then cfg.grpc.targets else 0)
    + (if cfg.mq.enabled then cfg.mq.targets else 0)
    + (if cfg.network.enabled then |cfg.network.actions| else 0)
    + (if cfg.stress.enabled then |cfg.stress.actions| else 0)
  }

  /** What Kubernetes adds to the estimate. */
  function KubernetesShare(cfg: Config): nat {
    var namespaces := if cfg.kubernetes.namespaces == [] then 1 else |cfg.kubernetes.namespaces|;
    if cfg.kubernetes.enabled then namespaces * |cfg.kubernetes.actions| else 0
  }

  function EstimateTargets(cfg: Config): nat {
    OtherTargets(cfg) + KubernetesShare(cfg)
  }

  lemma {:induction false} K8sCountBound(actions: seq<string>, namespaces: nat)
    ensures K8sCount(actions, namespaces) <= namespaces * |actions|
  {
    if actions != [] {
      var init := actions[..|actions| - 1];
      K8sCountBound(init, namespaces);
      assert namespaces * |actions| == namespaces * |init| + namespaces;
    }
  }

  lemma CountWithinEstimate(cfg: Config)
    ensures PolicyCount(cfg) <= EstimateTargets(cfg)
  {
    var n, m := |cfg.kubernetes.namespaces|, |cfg.kubernetes.actions|;
    K8sCountBound(cfg.kubernetes.actions, n);
    assert n * m <= (if n == 0 then 1 else n) * m;
  }

  // ---- The experiments main registers, and the engine's cap over them ----

  function When(on: bool, id: string, e: Experiment): seq<(string, Experiment)> {
    if on then [(id, e)] else []
  }

  /** Registration order of main: only three kinds of experiment report destructive actions. */
  function Registered(cfg: Config): seq<(string, Experiment)> {
    var k8s := K8sCount(cfg.kubernetes.actions, |cfg.kubernetes.namespaces|);
    When(cfg.kubernetes.enabled, "kubernetes", Experiment("k8s-chaos", Some(k8s)))
    + When(cfg.http.enabled, "http", Experiment("http-flood", None))
    + When(cfg.grpc.enabled, "grpc", Experiment("grpc-flood", None))
    + When(cfg.mq.enabled, "mq", Experiment("mq-flood", None))
    + When(cfg.network.enabled, "network", Experiment("network-chaos", Some(|cfg.network.actions|)))
    + When(cfg.stress.enabled, "stress", Experiment("resource-stress", Some(|cfg.stress.actions|)))
  }

  /** Just the enabled packages are registered, under these ids. */
  lemma RegisteredIds(cfg: Config, id: string)
    ensures (exists e :: (id, e) in Registered(cfg)) <==>
              || (id == "kubernetes" && cfg.kubernetes.enabled)
              || (id == "http" && cfg.http.enabled)
              || (id == "grpc" && cfg.grpc.enabled)
              || (id == "mq" && cfg.mq.enabled)
              || (id == "network" && cfg.network.enabled)
              || (id == "stress" && cfg.stress.enabled)
  {
    hide K8sCount, When;
    var k8s := K8sCount(cfg.kubernetes.actions, |cfg.kubernetes.namespaces|);
    WhenHas(cfg.kubernetes.enabled, "kubernetes", Experiment("k8s-chaos", Some(k8s)), id);
    WhenHas(cfg.http.enabled, "http", Experiment("http-flood", None), id);
    WhenHas(cfg.grpc.enabled, "grpc", Experiment("grpc-flood", None), id);
    WhenHas(cfg.mq.enabled, "mq", Experiment("mq-flood", None), id);
    WhenHas(cfg.network.enabled, "network", Experiment("network-chaos", Some(|cfg.network.actions|)), id);
    WhenHas(cfg.stress.enabled, "stress", Experiment("resource-stress", Some(|cfg.stress.actions|)), id);
  }

  lemma WhenHas(on: bool, name: string, e: Experiment, id: string)
    ensures on && id == name ==> (id, e) in When(on, name, e)
    ensures forall x :: (id, x) in When(on, name, e) ==> on && id == name
  {
  }

  function Experiments(registered: seq<(string, Experiment)>): seq<Experiment> {
    if registered == [] then [] else [registered[0].1] + Experiments(registered[1..])
  }

  function Reported(e: Experiment): nat {
    if e.destructive.Some? then e.destructive.value else 0
  }

  function ReportedTotal(experiments: seq<Experiment>): nat {
    if experiments == [] then 0
    else ReportedTotal(experiments[..|experiments| - 1]) + Reported(experiments[|experiments| - 1])
  }

  /** The engine's own sum over whatever is registered. */
  method EngineCount(experiments: seq<Experiment>) returns (total: nat)
    ensures total == ReportedTotal(experiments)
  {
    total := 0;
    for i := 0 to |experiments|
      invariant total == ReportedTotal(experiments[..i])
    {
      assert experiments[..i + 1][..i] == experiments[..i];
      if experiments[i].destructive.Some? {
        total := total + experiments[i].destructive.value;
      }
    }
    assert experiments[..|experiments|] == experiments;
  }

  lemma {:induction false} ExperimentsAppend(a: seq<(string, Experiment)>, b: seq<(string, Experiment)>)
    ensures Experiments(a + b) == Experiments(a) + Experiments(b)
  {
    if a == [] {
      assert a + b == b;
    } else {
      assert (a + b)[1..] == a[1..] + b;
      ExperimentsAppend(a[1..], b);
    }
  }

  /** The policy's count, made before anything is registered, is the engine's count after. */
  lemma CountsAgree(cfg: Config)
    ensures ReportedTotal(Experiments(Registered(cfg))) == PolicyCount(cfg)
  {
    var k8s := K8sCount(cfg.kubernetes.actions, |cfg.kubernetes.namespaces|);
    SixRegistrations(
      cfg.kubernetes.enabled, "kubernetes", Experiment("k8s-chaos", Some(k8s)),
      cfg.http.enabled, "http", Experiment("http-flood", None),
      cfg.grpc.enabled, "grpc", Experiment("grpc-flood", None),
      cfg.mq.enabled, "mq", Experiment("mq-flood", None),
      cfg.network.enabled, "network", Experiment("network-chaos", Some(|cfg.network.actions|)),
      cfg.stress.enabled, "stress", Experiment("resource-stress", Some(|cfg.stress.actions|)));
  }

  lemma SixRegistrations(on0: bool, id0: string, e0: Experiment, on1: bool, id1: string, e1: Experiment,
                         on2: bool, id2: string, e2: Experiment, on3: bool, id3: string, e3: Experiment,
                         on4: bool, id4: string, e4: Experiment, on5: bool, id5: string, e5: Experiment)
    ensures ReportedTotal(Experiments(When(on0, id0, e0) + When(on1, id1, e1) + When(on2, id2, e2)
                                      + When(on3, id3, e3) + When(on4, id4, e4) + When(on5, id5, e5)))
         == (if on0 then Reported(e0) else 0) + (if on1 then Reported(e1) else 0) + (if on2 then Reported(e2) else 0)
            + (if on3 then Reported(e3) else 0) + (if on4 then Reported(e4) else 0) + (if on5 then Reported(e5) else 0)
  {
    var a := RegisterOne([], on0, id0, e0);
    assert a == When(on0, id0, e0);
    var b := RegisterOne(a, on1, id1, e1);
    var c := RegisterOne(b, on2, id2, e2);
    var d := RegisterOne(c, on3, id3, e3);
    var e := RegisterOne(d, on4, id4, e4);
    var f := RegisterOne(e, on5, id5, e5);
  }

  lemma RegisterOne(a: seq<(string, Experiment)>, on: bool, id: string, e: Experiment)
    returns (b: seq<(string, Experiment)>)
    ensures b == a + When(on, id, e)
    ensures ReportedTotal(Experiments(b)) == ReportedTotal(Experiments(a)) + if on then Reported(e) else 0
  {
    b := a + When(on, id, e);
    ExperimentsAppend(a, When(on, id, e));
    if on {
      assert Experiments(When(on, id, e)) == [e];
      assert (Experiments(a) + [e])[..|Experiments(a)|] == Experiments(a);
    } else {
      assert b == a;
    }
  }

  /** The guard at the top of RunAll. */
  predicate CapExceeded(cfg: Config, experiments: seq<Experiment>) {
    && cfg.safety.enabled && !cfg.dryRun && cfg.safety.maxDestructiveActionsPerRun > 0
    && ReportedTotal(experiments) > cfg.safety.maxDestructiveActionsPerRun
  }

  // ---- Preflight ----

  predicate LimitsKept(p: SafetyConfig, cfg: Config) {
    && !(p.maxTargetsPerRun > 0 && EstimateTargets(cfg) > p.maxTargetsPerRun)
    && !(p.maxDestructiveActionsPerRun > 0 && PolicyCount(cfg) > p.maxDestructiveActionsPerRun)
  }

  method ValidateNamespaces(p: SafetyConfig, namespaces: seq<string>) returns (ok: bool)
    ensures ok <==> forall ns :: ns in namespaces ==> NamespaceAllowed(p, ns)
  {
    if |p.allowedNamespaces| > 0 {
      for i := 0 to |namespaces|
        invariant forall ns :: ns in namespaces[..i] ==> ns in p.allowedNamespaces
      {
        if namespaces[i] !in p.allowedNamespaces {
          assert !NamespaceAllowed(p, namespaces[i]);
          return false;
        }
      }
      assert namespaces[..|namespaces|] == namespaces;
    }
    for i := 0 to |namespaces|
      invariant forall ns :: ns in namespaces[..i] ==> ns !in p.blockedNamespaces
    {
      if namespaces[i] in p.blockedNamespaces {
        assert !NamespaceAllowed(p, namespaces[i]);
        return false;
      }
    }
    assert namespaces[..|namespaces|] == namespaces;
    return true;
  }

  predicate RunValid(p: SafetyConfig, cfg: Config, binaries: bool) {
    && (cfg.kubernetes.enabled ==> forall ns :: ns in cfg.kubernetes.namespaces ==> NamespaceAllowed(p, ns))
    && LimitsKept(p, cfg)
    && (cfg.network.enabled && cfg.network.actions != [] ==> binaries)
  }

  /** What an enabled policy demands of a run that is not a dry run. */
  predicate RunAllowed(cfg: Config, approved: bool, binaries: bool) {
    && (PolicyCount(cfg) > 0 ==>
          && (cfg.safety.failClosed ==> cfg.safety.allowDestructiveActions)
          && (cfg.safety.requireApproval ==> approved))
    && RunValid(cfg.safety, cfg, binaries)
  }

  /** When Preflight lets a run go ahead. */
  predicate Passes(cfg: Config, approved: bool, regex: Regex, binaries: bool) {
    && (forall p :: p in cfg.safety.allowedNamePatterns + cfg.safety.blockedNamePatterns ==> regex.compiles(p))
    && (cfg.safety.enabled && !cfg.dryRun ==> RunAllowed(cfg, approved, binaries))
  }

  /** `binaries` says whether tc and iptables are found. */
  method ValidateRun(p: SafetyConfig, cfg: Config, binaries: bool) returns (ok: bool)
    ensures ok <==> RunValid(p, cfg, binaries)
  {
    if cfg.kubernetes.enabled {
      var namespacesOk := ValidateNamespaces(p, cfg.kubernetes.namespaces);
      if !namespacesOk {
        return false;
      }
    }
    if p.maxTargetsPerRun > 0 && EstimateTargets(cfg) > p.maxTargetsPerRun {
      return false;
    }
    var destructive := DestructiveActionCount(cfg);
    if p.maxDestructiveActionsPerRun > 0 && destructive > p.maxDestructiveActionsPerRun {
      return false;
    }
    if cfg.network.enabled && |cfg.network.actions| > 0 && !binaries {
      return false;
    }
    return true;
  }

  /** How often a Kubernetes action that changes something is configured. */
  function K8sActions(actions: seq<string>): nat {
    multiset(actions)["kill_pod"] + multiset(actions)["scale_down"] + multiset(actions)["delete_service"]
  }

  lemma {:induction false} K8sCountIs(actions: seq<string>, namespaces: nat)
    ensures K8sCount(actions, namespaces) == namespaces * K8sActions(actions)
  {
    if actions != [] {
      var init, action := actions[..|actions| - 1], actions[|actions| - 1];
      K8sCountIs(init, namespaces);
      ActionsNext(init, action);
      assert actions == init + [action];
      assert namespaces * (K8sActions(init) + 1) == namespaces * K8sActions(init) + namespaces;
    }
  }

  lemma ActionsNext(actions: seq<string>, action: string)
    ensures K8sActions(actions + [action]) == K8sActions(actions) + if action in DESTRUCTIVE_K8S then 1 else 0
  {
    assert multiset(actions + [action]) == multiset(actions) + multiset{action};
    assert "kill_pod"[0] == 'k' && "scale_down"[0] == 's' && "delete_service"[0] == 'd';
  }

  /** The counts and limits of preflight, from the configuration itself. */
  ghost predicate Acceptable(cfg: Config, approved: bool, regex: Regex, binaries: bool) {
    var k8s, p := cfg.kubernetes, cfg.safety;
    var others := (if cfg.network.enabled then |cfg.network.actions| else 0)
                  + (if cfg.stress.enabled then |cfg.stress.actions| else 0);
    var destructive := others + if k8s.enabled then |k8s.namespaces| * K8sActions(k8s.actions) else 0;
    var targets := others + (if cfg.http.enabled then cfg.http.targets else 0)
                   + (if cfg.grpc.enabled then cfg.grpc.targets else 0)
                   + (if cfg.mq.enabled then cfg.mq.targets else 0)
                   + (if k8s.enabled then (if |k8s.namespaces| == 0 then 1 else |k8s.namespaces|) * |k8s.actions|
                      else 0);
    && (forall rx :: rx in p.allowedNamePatterns || rx in p.blockedNamePatterns ==> regex.compiles(rx))
    && (p.enabled && !cfg.dryRun ==>
          && (destructive > 0 && p.failClosed ==> p.allowDestructiveActions)
          && (destructive > 0 && p.requireApproval ==> approved)
          && (p.maxTargetsPerRun > 0 ==> targets <= p.maxTargetsPerRun)
          && (p.maxDestructiveActionsPerRun > 0 ==> destructive <= p.maxDestructiveActionsPerRun)
          && (cfg.network.enabled && cfg.network.actions != [] ==> binaries)
          && (k8s.enabled ==>
                forall ns :: ns in k8s.namespaces ==>
                               && (p.allowedNamespaces == [] || ns in p.allowedNamespaces)
                               && ns !in p.blockedNamespaces))
  }

  lemma PassesMeans(cfg: Config, approved: bool, regex: Regex, binaries: bool)
    ensures Passes(cfg, approved, regex, binaries) <==> Acceptable(cfg, approved, regex, binaries)
  {
    hide K8sCount, K8sActions;
    K8sCountIs(cfg.kubernetes.actions, |cfg.kubernetes.namespaces|);
    var p := cfg.safety;
    assert forall rx :: rx in p.allowedNamePatterns + p.blockedNamePatterns <==>
                          rx in p.allowedNamePatterns || rx in p.blockedNamePatterns;
  }

  /** A successful preflight means RunAll's cap stays silent on the experiments main registers,
      and, when it matters, every configured namespace passes the per-target check. */
  method Preflight(cfg: Config, approved: bool, regex: Regex, binaries: bool) returns (r: Result<Policy>)
    ensures r.Ok? ==> r.value.cfg == cfg.safety && r.value.regex == regex
    ensures r.Ok? ==>
              r.value.allowed == cfg.safety.allowedNamePatterns && r.value.blocked == cfg.safety.blockedNamePatterns
    ensures r.Ok? ==> !CapExceeded(cfg, Experiments(Registered(cfg)))
    ensures r.Ok? && cfg.safety.enabled && !cfg.dryRun && cfg.kubernetes.enabled ==>
              forall ns :: ns in cfg.kubernetes.namespaces ==> NamespaceAllowed(cfg.safety, ns)
    ensures r.Ok? <==> Passes(cfg, approved, regex, binaries)
    ensures r.Ok? <==> Acceptable(cfg, approved, regex, binaries)
  {
    hide Acceptable;
    PassesMeans(cfg, approved, regex, binaries);
    r := NewPolicy(cfg.safety, regex);
    CountsAgree(cfg);
    if r.Err? || !cfg.safety.enabled {
      return;
    }
    var destructive := DestructiveActionCount(cfg);
    if !cfg.dryRun && cfg.safety.failClosed && !cfg.safety.allowDestructiveActions && destructive > 0 {
      return Err("safety policy blocks destructive actions");
    }
    if !cfg.dryRun && cfg.safety.requireApproval && destructive > 0 && !approved {
      return Err("safety approval required");
    }
    if !cfg.dryRun {
      var valid := ValidateRun(cfg.safety, cfg, binaries);
      if !valid {
        return Err("validate run");
      }
    }
  }
}
