/** Which Kubernetes resources chaos may touch (pkg/k8s): exclusions, the random choice, the policy,
    and the set of resources that is left afterwards. */
module Targets {
  import opened Config
  import opened Scaling
  import opened Selection
  import Safety

  const KUBERNETES := "kubernetes"

  datatype Kind = KillPod | ScaleDown | DeleteService | Unknown

  function Parse(action: string): Kind {
    match action
    case "kill_pod" => KillPod
    case "scale_down" => ScaleDown
    case "delete_service" => DeleteService
    case _ => Unknown
  }

  lemma ParseKnown(action: string)
    ensures Parse(action) != Unknown <==> action in Safety.DESTRUCTIVE_K8S
  {
  }

  /** An attempted change of one resource. */
  datatype Mutation = Mutation(action: string, key: Key)

  /** strings.Contains. */
  predicate Contains(s: string, part: string) {
    part <= s || (s != [] && Contains(s[1..], part))
  }

  predicate Excluded(cfg: KubernetesConfig, name: string) {
    exists p :: p in cfg.excludedPods && Contains(name, p)
  }

  lemma {:induction false} ContainsMeans(s: string, part: string)
    ensures Contains(s, part) <==> exists front, back :: s == front + part + back
  {
    if part <= s {
      assert s == [] + part + s[|part|..];
    } else if s != [] {
      ContainsMeans(s[1..], part);
      if Contains(s[1..], part) {
        var front, back :| s[1..] == front + part + back;
        assert s == ([s[0]] + front) + part + back;
      }
      if front, back :| s == front + part + back {
        TailSplits(s, part, front, back);
      }
    }
  }

  lemma TailSplits(s: string, part: string, front: string, back: string)
    requires s != [] && s == front + part + back
    ensures part <= s || exists front', back' :: s[1..] == front' + part + back'
  {
    if front == [] {
      assert s[..|part|] == part;
    } else {
      assert s[1..] == front[1..] + part + back;
    }
  }

  /** Somewhere in the name one of the exclusions occurs. */
  ghost predicate Occurs(exclusions: seq<string>, name: string) {
    exists p, front, back :: p in exclusions && name == front + p + back
  }

  lemma ExcludedMeans(cfg: KubernetesConfig, name: string)
    ensures Excluded(cfg, name) <==> Occurs(cfg.excludedPods, name)
  {
    hide Contains;
    forall p
      ensures Contains(name, p) <==> exists front, back :: name == front + p + back
    {
      ContainsMeans(name, p);
    }
  }

  /** What one list call returns and how the shuffle after it goes; both are up to the outside. */
  datatype View = View(listed: seq<string>, shuffle: nat -> seq<Swap>)

  ghost predicate ShufflesInRange(shuffle: nat -> seq<Swap>) {
    forall n :: InRange(shuffle(n), n)
  }

  /** The listed names that may be touched at all. */
  function Eligible(cfg: KubernetesConfig, kind: Kind, listed: seq<string>): seq<string> {
    if listed == [] then []
    else
      var init, name := Eligible(cfg, kind, listed[..|listed| - 1]), listed[|listed| - 1];
      if Excluded(cfg, name) || (kind.DeleteService? && name == KUBERNETES) then init else init + [name]
  }

  predicate Admitted(policy: Option<Safety.Policy>, action: string, namespace: string, name: string) {
    policy.Some? ==> Safety.TargetAllowed(policy.value, namespace, name, action)
  }

  function Admit(policy: Option<Safety.Policy>, action: string, namespace: string, names: seq<string>): seq<string> {
    if names == [] then []
    else
      var init, name := Admit(policy, action, namespace, names[..|names| - 1]), names[|names| - 1];
      if Admitted(policy, action, namespace, name) then init + [name] else init
  }

  /** The random choice among the eligible names, and the part of it the policy lets through. */
  function Chosen(cfg: KubernetesConfig, kind: Kind, listed: seq<string>, shuffle: nat -> seq<Swap>): seq<string>
    requires InRange(shuffle(|Eligible(cfg, kind, listed)|), |Eligible(cfg, kind, listed)|)
  {
    var names := Eligible(cfg, kind, listed);
    Select(names, cfg.maxTargets, shuffle(|names|))
  }

  function Mutations(action: string, namespace: string, names: seq<string>): seq<Mutation> {
    seq(|names|, i requires 0 <= i < |names| => Mutation(action, (namespace, names[i])))
  }

  /** What the policy and the exclusions promise of every attempted change. */
  ghost predicate Lawful(cfg: KubernetesConfig, policy: Option<Safety.Policy>, m: Mutation) {
    && m.action in cfg.actions && Parse(m.action) != Unknown
    && m.key.0 in cfg.namespaces
    && !Excluded(cfg, m.key.1)
    && (Parse(m.action).DeleteService? ==> m.key.1 != KUBERNETES)
    && Admitted(policy, m.action, m.key.0, m.key.1)
  }

  ghost predicate AllLawful(cfg: KubernetesConfig, policy: Option<Safety.Policy>, ms: seq<Mutation>) {
    forall m :: m in ms ==> Lawful(cfg, policy, m)
  }

  /** What an action may change, by name: nothing excluded or protected, in a configured namespace, and under an
      enabled policy only where namespace, name and destructive actions are allowed. */
  ghost predicate Touchable(cfg: KubernetesConfig, policy: Option<Safety.Policy>, action: string, key: Key) {
    && action in cfg.actions && key.0 in cfg.namespaces && !Occurs(cfg.excludedPods, key.1)
    && (action == "delete_service" ==> key.1 != "kubernetes")
    && (policy.Some? && policy.value.cfg.enabled ==>
          && policy.value.cfg.allowDestructiveActions
          && (policy.value.cfg.allowedNamespaces == [] || key.0 in policy.value.cfg.allowedNamespaces)
          && key.0 !in policy.value.cfg.blockedNamespaces
          && (|| key.1 == ""
              || (&& (forall rx :: rx in policy.value.blocked ==> !policy.value.regex.matches(rx, key.1))
                  && (|| policy.value.allowed == []
                      || exists rx :: rx in policy.value.allowed && policy.value.regex.matches(rx, key.1)))))
  }

  lemma LawfulMeans(cfg: KubernetesConfig, policy: Option<Safety.Policy>, m: Mutation)
    ensures Lawful(cfg, policy, m) <==>
            m.action in {"kill_pod", "scale_down", "delete_service"} && Touchable(cfg, policy, m.action, m.key)
  {
    ExcludedMeans(cfg, m.key.1);
  }

  lemma NamesMean()
    ensures Name(KillPod) == "kill_pod" && Name(ScaleDown) == "scale_down" && Name(DeleteService) == "delete_service"
  {
  }

  lemma {:induction false} EligibleLaw(cfg: KubernetesConfig, kind: Kind, listed: seq<string>)
    ensures forall x :: x in Eligible(cfg, kind, listed) <==>
              x in listed && !Excluded(cfg, x) && (kind.DeleteService? ==> x != KUBERNETES)
    ensures Distinct(listed) ==> Distinct(Eligible(cfg, kind, listed))
  {
    if listed != [] {
      var init := listed[..|listed| - 1];
      assert forall x :: x in listed <==> x in init || x == listed[|listed| - 1];
      EligibleLaw(cfg, kind, init);
    }
  }

  lemma AdmitNothing(policy: Option<Safety.Policy>, action: string, namespace: string)
    ensures Admit(policy, action, namespace, []) == [] && Mutations(action, namespace, []) == []
  {
  }

  lemma {:induction false} AdmitLaw(policy: Option<Safety.Policy>, action: string, namespace: string,
                                    names: seq<string>)
    ensures forall x :: x in Admit(policy, action, namespace, names) <==>
              x in names && Admitted(policy, action, namespace, x)
    ensures |Admit(policy, action, namespace, names)| <= |names|
    ensures Distinct(names) ==> Distinct(Admit(policy, action, namespace, names))
  {
    if names != [] {
      var init := names[..|names| - 1];
      assert forall x :: x in names <==> x in init || x == names[|names| - 1];
      AdmitLaw(policy, action, namespace, init);
    }
  }

  lemma AdmitNext(policy: Option<Safety.Policy>, action: string, namespace: string, names: seq<string>, i: nat)
    requires i < |names|
    ensures Admit(policy, action, namespace, names[..i + 1])
         == Admit(policy, action, namespace, names[..i])
            + if Admitted(policy, action, namespace, names[i]) then [names[i]] else []
  {
    assert names[..i + 1][..i] == names[..i];
  }

  /** A target further on is none of those admitted before. */
  lemma NewTarget(policy: Option<Safety.Policy>, action: string, namespace: string, targets: seq<string>, i: nat)
    requires Distinct(targets) && i < |targets|
    ensures targets[i] !in Admit(policy, action, namespace, targets[..i])
    ensures forall j :: i < j < |targets| ==> targets[j] != targets[i]
  {
    AdmitLaw(policy, action, namespace, targets[..i]);
  }

  /** One namespace's targets: lawful, and at most `maxTargets` of them. */
  lemma ChosenLaw(cfg: KubernetesConfig, policy: Option<Safety.Policy>, action: string, namespace: string,
                  listed: seq<string>, shuffle: nat -> seq<Swap>)
    requires ShufflesInRange(shuffle)
    requires action in cfg.actions && Parse(action) != Unknown && namespace in cfg.namespaces
    ensures var names := Admit(policy, action, namespace, Chosen(cfg, Parse(action), listed, shuffle));
            && AllLawful(cfg, policy, Mutations(action, namespace, names))
            && (cfg.maxTargets > 0 ==> |names| <= cfg.maxTargets)
  {
    var kind := Parse(action);
    var eligible := Eligible(cfg, kind, listed);
    var chosen := Chosen(cfg, kind, listed, shuffle);
    EligibleLaw(cfg, kind, listed);
    SelectionLaw(eligible, cfg.maxTargets, shuffle(|eligible|));
    AdmitLaw(policy, action, namespace, chosen);
    var names := Admit(policy, action, namespace, chosen);
    forall m | m in Mutations(action, namespace, names)
      ensures Lawful(cfg, policy, m)
    {
      var i :| 0 <= i < |names| && m == Mutation(action, (namespace, names[i]));
      assert names[i] in names;
    }
  }

  /** What listing the deployments of a namespace returns: those of the names that exist, in any order
      but each once. */
  function Existing(deployments: Deployments, namespace: string, listed: seq<string>): seq<string> {
    if listed == [] then []
    else
      var init, name := Existing(deployments, namespace, listed[..|listed| - 1]), listed[|listed| - 1];
      if (namespace, name) in deployments && name !in init then init + [name] else init
  }

  lemma {:induction false} ExistingLaw(deployments: Deployments, namespace: string, listed: seq<string>)
    ensures forall x :: x in Existing(deployments, namespace, listed) <==> x in listed && (namespace, x) in deployments
    ensures Distinct(Existing(deployments, namespace, listed))
  {
    if listed != [] {
      var init := listed[..|listed| - 1];
      assert forall x :: x in listed <==> x in init || x == listed[|listed| - 1];
      ExistingLaw(deployments, namespace, init);
    }
  }

  lemma {:induction false} ExistingKeys(a: Deployments, b: Deployments, namespace: string, listed: seq<string>)
    requires a.Keys == b.Keys
    ensures Existing(a, namespace, listed) == Existing(b, namespace, listed)
  {
    if listed != [] {
      assert forall k :: k in a <==> k in b.Keys;
      ExistingKeys(a, b, namespace, listed[..|listed| - 1]);
    }
  }

  /** The deployments a scale-down in one namespace goes for. */
  function ScaleTargets(cfg: KubernetesConfig, policy: Option<Safety.Policy>, deployments: Deployments, action: string,
                   namespace: string, view: View): seq<string>
    requires ShufflesInRange(view.shuffle)
  {
    Admit(policy, action, namespace, Chosen(cfg, ScaleDown, Existing(deployments, namespace, view.listed),
                                            view.shuffle))
  }

  lemma TargetsExist(cfg: KubernetesConfig, deployments: Deployments, namespace: string, listed: seq<string>,
                     shuffle: nat -> seq<Swap>)
    requires ShufflesInRange(shuffle)
    ensures var targets := Chosen(cfg, ScaleDown, Existing(deployments, namespace, listed), shuffle);
            && Distinct(targets)
            && forall i :: 0 <= i < |targets| ==> (namespace, targets[i]) in deployments
  {
    var items := Existing(deployments, namespace, listed);
    ExistingLaw(deployments, namespace, listed);
    EligibleLaw(cfg, ScaleDown, items);
    SelectionLaw(Eligible(cfg, ScaleDown, items), cfg.maxTargets, shuffle(|Eligible(cfg, ScaleDown, items)|));
    var targets := Chosen(cfg, ScaleDown, items, shuffle);
    assert forall i :: 0 <= i < |targets| ==> targets[i] in targets;
  }

  function KeysIn(namespace: string, names: seq<string>): seq<Key> {
    seq(|names|, i requires 0 <= i < |names| => (namespace, names[i]))
  }

  lemma OneMoreAttempt(action: string, namespace: string, names: seq<string>, name: string)
    ensures Mutations(action, namespace, names + [name]) == Mutations(action, namespace,
                                                                      names) + [Mutation(action, (namespace, name))]
    ensures KeysIn(namespace, names + [name]) == KeysIn(namespace, names) + [(namespace, name)]
  {
  }

  /** `after` is `before` without these keys. */
  ghost predicate Removed(before: set<Key>, after: set<Key>, keys: seq<Key>) {
    after == before - set k | k in keys
  }

  /** `gone` was there and was removed, all of it among `keys`, and nothing of `keys` is left unless a call failed. */
  ghost predicate Taken(before: set<Key>, after: set<Key>, gone: seq<Key>, keys: seq<Key>, calm: bool) {
    && Removed(before, after, gone)
    && (forall k :: k in gone ==> k in keys && k in before)
    && (calm ==> Removed(before, after, keys))
  }

  lemma TakenNothing(s: set<Key>)
    ensures forall calm :: Taken(s, s, [], [], calm)
    ensures forall namespace, calm :: Taken(s, s, [], KeysIn(namespace, []), calm)
  {
  }

  lemma TakenUncalm(before: set<Key>, after: set<Key>, gone: seq<Key>, keys: seq<Key>, calm: bool)
    requires Taken(before, after, gone, keys, calm)
    ensures Taken(before, after, gone, keys, false)
  {
  }

  lemma TakenStep(before: set<Key>, mid: set<Key>, gone: seq<Key>, keys: seq<Key>, calm: bool, key: Key, ok: bool,
                  calmer: bool)
    requires Taken(before, mid, gone, keys, calm)
    requires (calmer ==> calm && (ok || key !in mid)) && (ok ==> key in mid)
    ensures Taken(before, if ok then mid - {key} else mid, if ok then gone + [key] else gone, keys + [key], calmer)
  {
  }

  lemma TakenAppend(before: set<Key>, mid: set<Key>, after: set<Key>, gone: seq<Key>, keys: seq<Key>, calm: bool,
                    gone': seq<Key>, keys': seq<Key>, calm': bool, calmer: bool)
    requires Taken(before, mid, gone, keys, calm) && Taken(mid, after, gone', keys', calm')
    requires calmer ==> calm && calm'
    ensures Taken(before, after, gone + gone', keys + keys', calmer)
  {
  }

  /** Whatever was taken is among `keys`, and nothing was added. */
  lemma TakenWithin(before: set<Key>, after: set<Key>, gone: seq<Key>, keys: seq<Key>, calm: bool)
    requires Taken(before, after, gone, keys, calm)
    ensures after <= before && forall k :: k in before && k !in after ==> k in keys
  {
  }

  // ---- The resources of one kind among some changes ----

  /** The action that carries out a kind of change. */
  function Name(kind: Kind): (action: string)
    requires !kind.Unknown?
    ensures Parse(action) == kind
  {
    match kind
    case KillPod => "kill_pod"
    case ScaleDown => "scale_down"
    case DeleteService => "delete_service"
  }

  lemma NameUnique(action: string)
    requires !Parse(action).Unknown?
    ensures action == Name(Parse(action))
  {
  }

  function KeysOf(kind: Kind, ms: seq<Mutation>): seq<Key> {
    if ms == [] then []
    else
      var last := ms[|ms| - 1];
      KeysOf(kind, ms[..|ms| - 1]) + if Parse(last.action) == kind then [last.key] else []
  }

  ghost predicate OfAction(action: string, ms: seq<Mutation>) {
    forall m :: m in ms ==> m.action == action
  }

  lemma OfNone(kind: Kind, action: string)
    ensures OfAction(action, []) && KeysOf(kind, []) == []
  {
  }

  lemma OfActionAppend(action: string, a: seq<Mutation>, b: seq<Mutation>)
    requires OfAction(action, a) && OfAction(action, b)
    ensures OfAction(action, a + b)
  {
  }

  lemma MutationsSize(action: string, namespace: string, names: seq<string>)
    ensures |Mutations(action, namespace, names)| == |names|
  {
  }

  lemma {:induction false} KeysOfAppend(kind: Kind, a: seq<Mutation>, b: seq<Mutation>)
    ensures KeysOf(kind, a + b) == KeysOf(kind, a) + KeysOf(kind, b)
  {
    hide Parse;
    if b == [] {
      assert a + b == a;
    } else {
      var init := b[..|b| - 1];
      assert (a + b)[..|a + b| - 1] == a + init;
      KeysOfAppend(kind, a, init);
    }
  }

  lemma {:induction false} KeysOfAction(kind: Kind, action: string, ms: seq<Mutation>)
    requires OfAction(action, ms)
    ensures KeysOf(kind, ms) ==
            if Parse(action) == kind then seq(|ms|, i requires 0 <= i < |ms| => ms[i].key) else []
  {
    hide Parse;
    if ms != [] {
      assert ms[|ms| - 1] in ms;
      assert forall m :: m in ms[..|ms| - 1] ==> m in ms;
      KeysOfAction(kind, action, ms[..|ms| - 1]);
    }
  }

  lemma MutationsOf(kind: Kind, action: string, namespace: string, names: seq<string>)
    ensures OfAction(action, Mutations(action, namespace, names))
    ensures KeysOf(kind, Mutations(action, namespace, names)) == if Parse(action) == kind then KeysIn(namespace,
                                                                                                      names) else []
  {
    hide Parse;
    KeysOfAction(kind, action, Mutations(action, namespace, names));
  }

  lemma {:induction false} KeysOfFrom(kind: Kind, ms: seq<Mutation>, key: Key)
    requires !kind.Unknown?
    ensures key in KeysOf(kind, ms) <==> Mutation(Name(kind), key) in ms
  {
    hide Parse, Name;
    if ms != [] {
      var init, last := ms[..|ms| - 1], ms[|ms| - 1];
      KeysOfFrom(kind, init, key);
      if Parse(last.action) == kind {
        NameUnique(last.action);
      }
      assert Mutation(Name(kind), key) in ms <==>
          Mutation(Name(kind), key) in init || Mutation(Name(kind), key) == last;
    }
  }
}
