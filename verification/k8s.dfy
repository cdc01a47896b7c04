/** ChaosK8s of pkg/k8s over an abstract cluster: changing the chosen targets under the safety policy,
    recording scale-downs, rolling back. */
module K8s {
  import opened Config
  import opened RunPlan
  import opened Scaling
  import opened Selection
  import opened Sums
  import opened Targets
  import Safety

  /** The cluster behind the API. Any call can fail; `faults` says which, by the calls before. */
  class Cluster {
    var pods: set<Key>
    var services: set<Key>
    var deployments: Deployments
    var issued: nat
    ghost var lists: seq<nat>
    const faults: nat -> bool

    constructor (pods: set<Key>, services: set<Key>, deployments: Deployments, faults: nat -> bool)
      ensures this.pods == pods && this.services == services && this.deployments == deployments
      ensures this.faults == faults && this.issued == 0 && this.lists == []
    {
      this.pods, this.services, this.deployments, this.faults, this.issued := pods, services, deployments, faults, 0;
      this.lists := [];
    }

    ghost function Contents(): Content
      reads this
    {
      Content(pods, services, deployments)
    }

    /** The API call number `issued` is made. */
    method Call() returns (ok: bool)
      modifies this`issued
      ensures issued == old(issued) + 1 && (ok <==> !faults(old(issued)))
    {
      ok := !faults(issued);
      issued := issued + 1;
    }

    /** A list call; `lists` has the numbers of these calls. */
    method List() returns (ok: bool)
      modifies this`issued, this`lists
      ensures issued == old(issued) + 1 && lists == old(lists) + [old(issued)] && (ok <==> !faults(old(issued)))
    {
      lists := lists + [issued];
      ok := Call();
    }

    method DeletePod(key: Key) returns (ok: bool)
      modifies this`issued, this`pods
      ensures issued == old(issued) + 1
      ensures ok <==> key in old(pods) && !faults(old(issued))
      ensures pods == if ok then old(pods) - {key} else old(pods)
    {
      ok := Call();
      ok := ok && key in pods;
      if ok {
        pods := pods - {key};
      }
    }

    method DeleteService(key: Key) returns (ok: bool)
      modifies this`issued, this`services
      ensures issued == old(issued) + 1
      ensures ok <==> key in old(services) && !faults(old(issued))
      ensures services == if ok then old(services) - {key} else old(services)
    {
      ok := Call();
      ok := ok && key in services;
      if ok {
        services := services - {key};
      }
    }

    method GetScale(key: Key) returns (ok: bool)
      modifies this`issued
      ensures issued == old(issued) + 1
      ensures ok <==> key in deployments && !faults(old(issued))
    {
      ok := Call();
      ok := ok && key in deployments;
    }

    method UpdateScale(key: Key, replicas: int) returns (ok: bool)
      modifies this`issued, this`deployments
      ensures issued == old(issued) + 1
      ensures ok <==> key in old(deployments) && !faults(old(issued))
      ensures deployments == if ok then old(deployments)[key := Some(replicas)] else old(deployments)
    {
      ok := Call();
      ok := ok && key in deployments;
      if ok {
        deployments := deployments[key := Some(replicas)];
      }
    }
  }

  class ChaosK8s {
    const cfg: KubernetesConfig
    const policy: Option<Safety.Policy>
    const cluster: Cluster
    var killedPods: seq<Key>
    var scaledDownDeps: seq<DepRef>
    ghost var attempts: seq<Mutation>
    ghost var tries: seq<Try>

    constructor (cfg: KubernetesConfig, policy: Option<Safety.Policy>, cluster: Cluster)
      ensures this.cfg == cfg && this.policy == policy && this.cluster == cluster
      ensures killedPods == [] && scaledDownDeps == [] && attempts == [] && tries == []
    {
      this.cfg, this.policy, this.cluster := cfg, policy, cluster;
      killedPods, scaledDownDeps, attempts, tries := [], [], [], [];
    }

    method IsExcluded(name: string) returns (yes: bool)
      ensures yes <==> Excluded(cfg, name)
      ensures yes <==> Occurs(cfg.excludedPods, name)
    {
      ExcludedMeans(cfg, name);
      for i := 0 to |cfg.excludedPods|
        invariant forall p :: p in cfg.excludedPods[..i] ==> !Contains(name, p)
      {
        if Contains(name, cfg.excludedPods[i]) {
          return true;
        }
      }
      assert cfg.excludedPods[..|cfg.excludedPods|] == cfg.excludedPods;
      return false;
    }

    /** Filters the listed names and picks targets among them. */
    method Pick(kind: Kind, listed: seq<string>, shuffle: nat -> seq<Swap>) returns (chosen: seq<string>)
      requires ShufflesInRange(shuffle)
      ensures chosen == Chosen(cfg, kind, listed, shuffle)
    {
      var names: seq<string> := [];
      var i := 0;
      while i < |listed|
        invariant 0 <= i <= |listed|
        invariant names == Eligible(cfg, kind, listed[..i])
      {
        assert listed[..i + 1][..i] == listed[..i];
        var excluded := IsExcluded(listed[i]);
        if !(kind.DeleteService? && listed[i] == KUBERNETES) && !excluded {
          names := names + [listed[i]];
        }
        i := i + 1;
      }
      assert listed[..|listed|] == listed;
      var items := new string[|names|](k requires 0 <= k < |names| => names[k]);
      assert items[..] == names;
      chosen := SelectRandom(items, cfg.maxTargets, shuffle(|names|));
    }

    method Check(namespace: string, name: string, action: string) returns (ok: bool)
      ensures ok <==> Admitted(policy, action, namespace, name)
    {
      if policy.None? {
        return true;
      }
      ok := Safety.CheckK8sTarget(policy.value, namespace, name, action);
    }

    /** One namespace of killPods: one call for every admitted choice, every success recorded. */
    method KillPodsIn(action: string, namespace: string, listed: seq<string>, shuffle: nat -> seq<Swap>)
      returns (ghost one: seq<Mutation>, ghost gone: seq<Key>)
      requires ShufflesInRange(shuffle) && Parse(action).KillPod?
      modifies this`killedPods, this`attempts, cluster`issued, cluster`pods
      ensures one == Mutations(action, namespace,
                               Admit(policy, action, namespace, Chosen(cfg, KillPod, listed, shuffle)))
      ensures attempts == old(attempts) + one && OfAction(action, one)
      ensures cluster.issued == old(cluster.issued) + |one|
      ensures killedPods == old(killedPods) + gone
      ensures Taken(old(cluster.pods), cluster.pods, gone, KeysOf(KillPod, one),
                    Calm(cluster.faults, old(cluster.issued), cluster.issued))
    {
      hide Calm, KeysIn, Mutations, Admit, Admitted, Taken, Parse, OfAction, KeysOf;
      var targets := Pick(KillPod, listed, shuffle);
      ghost var tried: seq<string> := [];
      one, gone := [], [];
      AdmitNothing(policy, action, namespace);
      TakenNothing(cluster.pods);
      var i := 0;
      while i < |targets|
        invariant 0 <= i <= |targets|
        invariant tried == Admit(policy, action, namespace, targets[..i])
        invariant one == Mutations(action, namespace, tried) && attempts == old(attempts) + one
        invariant cluster.issued == old(cluster.issued) + |tried|
        invariant killedPods == old(killedPods) + gone
        invariant Taken(old(cluster.pods), cluster.pods, gone, KeysIn(namespace, tried),
                        Calm(cluster.faults, old(cluster.issued), cluster.issued))
      {
        AdmitNext(policy, action, namespace, targets, i);
        var ok := Check(namespace, targets[i], action);
        if ok {
          var key := (namespace, targets[i]);
          ghost var left, tried0, issued0 := cluster.pods, tried, cluster.issued;
          OneMoreAttempt(action, namespace, tried, targets[i]);
          CalmCall(cluster.faults, old(cluster.issued), issued0);
          ConcatAssoc(old(attempts), one, [Mutation(action, key)]);
          tried, one := tried + [targets[i]], one + [Mutation(action, key)];
          attempts := attempts + [Mutation(action, key)];
          ok := cluster.DeletePod(key);
          TakenStep(old(cluster.pods), left, gone, KeysIn(namespace, tried0),
                    Calm(cluster.faults, old(cluster.issued), issued0), key, ok,
                    Calm(cluster.faults, old(cluster.issued), cluster.issued));
          if ok {
            gone := gone + [key];
            killedPods := killedPods + [key];
          }
        }
        i := i + 1;
      }
      assert targets[..|targets|] == targets;
      MutationsSize(action, namespace, tried);
      MutationsOf(KillPod, action, namespace, tried);
    }

    /** One namespace of deleteServices: the same, without records. */
    method DeleteServicesIn(action: string, namespace: string, listed: seq<string>, shuffle: nat -> seq<Swap>)
      returns (ghost one: seq<Mutation>, ghost gone: seq<Key>)
      requires ShufflesInRange(shuffle) && Parse(action).DeleteService?
      modifies this`attempts, cluster`issued, cluster`services
      ensures one == Mutations(action, namespace,
                               Admit(policy, action, namespace, Chosen(cfg, DeleteService, listed, shuffle)))
      ensures attempts == old(attempts) + one && OfAction(action, one)
      ensures cluster.issued == old(cluster.issued) + |one|
      ensures Taken(old(cluster.services), cluster.services, gone, KeysOf(DeleteService, one),
                    Calm(cluster.faults, old(cluster.issued), cluster.issued))
    {
      hide Calm, KeysIn, Mutations, Admit, Admitted, Taken, Parse, OfAction, KeysOf;
      var targets := Pick(DeleteService, listed, shuffle);
      ghost var tried: seq<string> := [];
      one, gone := [], [];
      AdmitNothing(policy, action, namespace);
      TakenNothing(cluster.services);
      var i := 0;
      while i < |targets|
        invariant 0 <= i <= |targets|
        invariant tried == Admit(policy, action, namespace, targets[..i])
        invariant one == Mutations(action, namespace, tried) && attempts == old(attempts) + one
        invariant cluster.issued == old(cluster.issued) + |tried|
        invariant Taken(old(cluster.services), cluster.services, gone, KeysIn(namespace, tried),
                        Calm(cluster.faults, old(cluster.issued), cluster.issued))
      {
        AdmitNext(policy, action, namespace, targets, i);
        var ok := Check(namespace, targets[i], action);
        if ok {
          var key := (namespace, targets[i]);
          ghost var left, tried0, issued0 := cluster.services, tried, cluster.issued;
          OneMoreAttempt(action, namespace, tried, targets[i]);
          CalmCall(cluster.faults, old(cluster.issued), issued0);
          ConcatAssoc(old(attempts), one, [Mutation(action, key)]);
          tried, one := tried + [targets[i]], one + [Mutation(action, key)];
          attempts := attempts + [Mutation(action, key)];
          ok := cluster.DeleteService(key);
          TakenStep(old(cluster.services), left, gone, KeysIn(namespace, tried0),
                    Calm(cluster.faults, old(cluster.issued), issued0), key, ok,
                    Calm(cluster.faults, old(cluster.issued), cluster.issued));
          if ok {
            gone := gone + [key];
          }
        }
        i := i + 1;
      }
      assert targets[..|targets|] == targets;
      MutationsSize(action, namespace, tried);
      MutationsOf(DeleteService, action, namespace, tried);
    }

    /** One admitted deployment: the record is made before the update, whether or not that goes
        through; nothing happens when the scale cannot be read. */
    method ScaleDownOne(action: string, key: Key, orig: int, ghost start: Deployments) returns (ghost more: seq<Try>)
      requires Accounted(start, tries, cluster.deployments, scaledDownDeps)
      requires key in start && key in cluster.deployments && orig == Effective(cluster.deployments[key])
      modifies this`scaledDownDeps, this`attempts, this`tries, cluster`issued, cluster`deployments
      ensures Accounted(start, tries, cluster.deployments, scaledDownDeps)
      ensures tries == old(tries) + more && attempts == old(attempts) + Tried(action, more)
      ensures |more| <= 1 && (|more| == 1 ==> more[0].key == key)
      ensures more == [] <==> cluster.faults(old(cluster.issued))
      ensures more != [] ==> (more[0].updated <==> !cluster.faults(old(cluster.issued) + 1))
      ensures cluster.issued == old(cluster.issued) + 1 + |more|
      ensures cluster.deployments.Keys == old(cluster.deployments).Keys
      ensures forall k :: k in cluster.deployments && k != key ==> cluster.deployments[k] == old(cluster.deployments)[k]
      ensures Scaled(old(cluster.deployments), cluster.deployments, more)
    {
      more := [];
      ScaledNothing(cluster.deployments);
      var ok := cluster.GetScale(key);
      if ok {
        ghost var records0, deployments0 := scaledDownDeps, cluster.deployments;
        scaledDownDeps := scaledDownDeps + [DepRef(key, orig)];
        ok := cluster.UpdateScale(key, 0);
        AccountedTry(start, tries, deployments0, records0, Try(key, ok));
        ScaledOne(deployments0, Try(key, ok));
        more := [Try(key, ok)];
        tries, attempts := tries + more, attempts + [Mutation(action, key)];
      }
    }

    /** One namespace of scaleDownDeployments. Without API faults every admitted choice is
        recorded. */
    method ScaleDownIn(action: string, namespace: string, listed: seq<string>, shuffle: nat -> seq<Swap>,
                       ghost start: Deployments)
      returns (ghost more: seq<Try>)
      requires ShufflesInRange(shuffle)
      requires Accounted(start, tries, cluster.deployments, scaledDownDeps)
      modifies this`scaledDownDeps, this`attempts, this`tries, cluster`issued, cluster`deployments
      ensures Accounted(start, tries, cluster.deployments, scaledDownDeps)
      ensures tries == old(tries) + more && attempts == old(attempts) + Tried(action, more)
      ensures var view := View(listed, shuffle);
              var names := ScaleTargets(cfg, policy, old(cluster.deployments), action, namespace, view);
              && Of(more, namespace, names)
              && (Calm(cluster.faults, old(cluster.issued), cluster.issued) ==>
                    Keys(more) == KeysIn(namespace, names) && AllUpdated(more))
      ensures cluster.issued >= old(cluster.issued)
      ensures Scaled(old(cluster.deployments), cluster.deployments, more)
    {
      var items := Existing(cluster.deployments, namespace, listed);
      var targets := Pick(ScaleDown, items, shuffle);
      AccountedKeys(start, tries, cluster.deployments, scaledDownDeps);
      TargetsExist(cfg, cluster.deployments, namespace, listed, shuffle);
      more := ScaleDownTargets(action, namespace, targets, start);
    }

    method ScaleDownTargets(action: string, namespace: string, targets: seq<string>, ghost start: Deployments)
      returns (ghost more: seq<Try>)
      requires Distinct(targets) && cluster.deployments.Keys == start.Keys
      requires forall i :: 0 <= i < |targets| ==> (namespace, targets[i]) in cluster.deployments
      requires Accounted(start, tries, cluster.deployments, scaledDownDeps)
      modifies this`scaledDownDeps, this`attempts, this`tries, cluster`issued, cluster`deployments
      ensures Accounted(start, tries, cluster.deployments, scaledDownDeps)
      ensures tries == old(tries) + more && attempts == old(attempts) + Tried(action, more)
      ensures Of(more, namespace, Admit(policy, action, namespace, targets))
      ensures Calm(cluster.faults, old(cluster.issued), cluster.issued) ==>
                Keys(more) == KeysIn(namespace, Admit(policy, action, namespace, targets)) && AllUpdated(more)
      ensures cluster.issued >= old(cluster.issued)
      ensures Scaled(old(cluster.deployments), cluster.deployments, more)
    {
      hide Scaled, Accounted, Admit, Admitted, Of, Effective, Tried, Calm, Keys, KeysIn, AllUpdated, Distinct;
      var deployments0 := cluster.deployments;
      ghost var names: seq<string> := [];
      more := [];
      OfNothing(policy, namespace);
      UpdatedNothing();
      ScaledNothing(cluster.deployments);
      var i := 0;
      while i < |targets|
        invariant 0 <= i <= |targets|
        invariant names == Admit(policy, action, namespace, targets[..i])
        invariant Accounted(start, tries, cluster.deployments, scaledDownDeps)
        invariant tries == old(tries) + more && attempts == old(attempts) + Tried(action, more)
        invariant Of(more, namespace, names)
        invariant Scaled(old(cluster.deployments), cluster.deployments, more)
        invariant cluster.issued >= old(cluster.issued)
        invariant Calm(cluster.faults, old(cluster.issued), cluster.issued) ==>
                    Keys(more) == KeysIn(namespace, names) && AllUpdated(more)
        invariant cluster.deployments.Keys == deployments0.Keys
        invariant forall j :: i <= j < |targets| ==>
                    cluster.deployments[(namespace, targets[j])] == deployments0[(namespace, targets[j])]
      {
        var key := (namespace, targets[i]);
        AdmitNext(policy, action, namespace, targets, i);
        NewTarget(policy, action, namespace, targets, i);
        var ok := Check(namespace, targets[i], action);
        if ok {
          ghost var names0, more0, issued0, mid := names, more, cluster.issued, cluster.deployments;
          names := names + [targets[i]];
          ghost var one := ScaleDownOne(action, key, Effective(deployments0[key]), start);
          more := more + one;
          ScaledAppend(old(cluster.deployments), mid, cluster.deployments, more0, one);
          OneMoreTry(more0, namespace, names, one, action);
          ConcatAssoc(old(tries), more0, one);
          ConcatAssoc(old(attempts), Tried(action, more0), Tried(action, one));
          CalmSplit(cluster.faults, old(cluster.issued), issued0, cluster.issued);
          UpdatedAppend(more0, one);
          UpdatedOne(one);
        }
        i := i + 1;
      }
      assert targets[..|targets|] == targets;
    }

    /** All namespaces of killPods, up to the first whose list call fails. */
    method KillPods(action: string, views: nat -> View, ghost start: Deployments)
      returns (ok: bool, ghost n: nat, ghost more: seq<Mutation>, ghost gone: seq<Key>, ghost asked: seq<nat>)
      requires action in cfg.actions && Parse(action).KillPod? && forall i :: ShufflesInRange(views(i).shuffle)
      modifies this`killedPods, this`attempts, cluster`issued, cluster`lists, cluster`pods
      ensures n <= |cfg.namespaces| && (ok <==> n == |cfg.namespaces|)
      ensures attempts == old(attempts) + more && cluster.issued >= old(cluster.issued) && OfAction(action, more)
      ensures Done(cfg, policy, start, action, views, n, more, true)
      ensures cluster.lists == old(cluster.lists) + asked
      ensures Listed(cluster.faults, asked, ok, |cfg.namespaces|, old(cluster.issued), cluster.issued)
      ensures killedPods == old(killedPods) + gone
      ensures Taken(old(cluster.pods), cluster.pods, gone, KeysOf(KillPod, more),
                    Calm(cluster.faults, old(cluster.issued), cluster.issued))
    {
      hide Listed, Done, Calm, AllLawful, Admit, Chosen, Mutations, ShufflesInRange, Taken, KeysOf, OfAction;
      more, gone, asked := [], [], [];
      ListedNothing(cluster.faults, cluster.issued);
      DoneNothing(cfg, policy, start, action, views);
      TakenNothing(cluster.pods);
      OfNone(KillPod, action);
      var i := 0;
      while i < |cfg.namespaces|
        invariant 0 <= i <= |cfg.namespaces|
        invariant attempts == old(attempts) + more && cluster.issued >= old(cluster.issued) && OfAction(action, more)
        invariant Done(cfg, policy, start, action, views, i, more, true)
        invariant cluster.lists == old(cluster.lists) + asked
        invariant Listed(cluster.faults, asked, true, i, old(cluster.issued), cluster.issued)
        invariant killedPods == old(killedPods) + gone
        invariant Taken(old(cluster.pods), cluster.pods, gone, KeysOf(KillPod, more),
                        Calm(cluster.faults, old(cluster.issued), cluster.issued))
      {
        ghost var issued0, left := cluster.issued, cluster.pods;
        ok := cluster.List();
        ListedNext(cluster.faults, asked, i, old(cluster.issued), issued0, |cfg.namespaces|);
        ConcatAssoc(old(cluster.lists), asked, [issued0]);
        asked := asked + [issued0];
        CalmCall(cluster.faults, old(cluster.issued), issued0);
        if !ok {
          n := i;
          TakenUncalm(old(cluster.pods), left, gone, KeysOf(KillPod, more),
                      Calm(cluster.faults, old(cluster.issued), issued0));
          return;
        }
        ghost var calm, one, went;
        one, went := KillPodsIn(action, cfg.namespaces[i], views(i).listed, views(i).shuffle);
        RoundLaw(cfg, policy, start, action, cfg.namespaces[i], views(i));
        CalmParts(cluster.faults, old(cluster.issued), issued0 + 1, cluster.issued);
        calm := Calm(cluster.faults, old(cluster.issued), cluster.issued);
        DoneStep(cfg, policy, start, action, views, i, more, true, one, true);
        ListedLater(cluster.faults, asked, true, i + 1, old(cluster.issued), issued0 + 1, cluster.issued);
        KeysOfAppend(KillPod, more, one);
        OfActionAppend(action, more, one);
        TakenAppend(old(cluster.pods), left, cluster.pods, gone, KeysOf(KillPod, more),
                    Calm(cluster.faults, old(cluster.issued), issued0), went, KeysOf(KillPod, one),
                    Calm(cluster.faults, issued0 + 1, cluster.issued), calm);
        ConcatAssoc(old(attempts), more, one);
        ConcatAssoc(old(killedPods), gone, went);
        more, gone := more + one, gone + went;
        i := i + 1;
      }
      ok, n := true, i;
    }

    /** All namespaces of deleteServices. */
    method DeleteServices(action: string, views: nat -> View, ghost start: Deployments)
      returns (ok: bool, ghost n: nat, ghost more: seq<Mutation>, ghost gone: seq<Key>, ghost asked: seq<nat>)
      requires action in cfg.actions && Parse(action).DeleteService? && forall i :: ShufflesInRange(views(i).shuffle)
      modifies this`attempts, cluster`issued, cluster`lists, cluster`services
      ensures n <= |cfg.namespaces| && (ok <==> n == |cfg.namespaces|)
      ensures attempts == old(attempts) + more && cluster.issued >= old(cluster.issued) && OfAction(action, more)
      ensures Done(cfg, policy, start, action, views, n, more, true)
      ensures cluster.lists == old(cluster.lists) + asked
      ensures Listed(cluster.faults, asked, ok, |cfg.namespaces|, old(cluster.issued), cluster.issued)
      ensures Taken(old(cluster.services), cluster.services, gone, KeysOf(DeleteService, more),
                    Calm(cluster.faults, old(cluster.issued), cluster.issued))
    {
      hide Listed, Done, Calm, AllLawful, Admit, Chosen, Mutations, ShufflesInRange, Taken, KeysOf, OfAction;
      more, gone, asked := [], [], [];
      ListedNothing(cluster.faults, cluster.issued);
      DoneNothing(cfg, policy, start, action, views);
      TakenNothing(cluster.services);
      OfNone(DeleteService, action);
      var i := 0;
      while i < |cfg.namespaces|
        invariant 0 <= i <= |cfg.namespaces|
        invariant attempts == old(attempts) + more && cluster.issued >= old(cluster.issued) && OfAction(action, more)
        invariant Done(cfg, policy, start, action, views, i, more, true)
        invariant cluster.lists == old(cluster.lists) + asked
        invariant Listed(cluster.faults, asked, true, i, old(cluster.issued), cluster.issued)
        invariant Taken(old(cluster.services), cluster.services, gone, KeysOf(DeleteService, more),
                        Calm(cluster.faults, old(cluster.issued), cluster.issued))
      {
        ghost var issued0, left := cluster.issued, cluster.services;
        ok := cluster.List();
        ListedNext(cluster.faults, asked, i, old(cluster.issued), issued0, |cfg.namespaces|);
        ConcatAssoc(old(cluster.lists), asked, [issued0]);
        asked := asked + [issued0];
        CalmCall(cluster.faults, old(cluster.issued), issued0);
        if !ok {
          n := i;
          TakenUncalm(old(cluster.services), left, gone, KeysOf(DeleteService, more),
                      Calm(cluster.faults, old(cluster.issued), issued0));
          return;
        }
        ghost var calm, one, went;
        one, went := DeleteServicesIn(action, cfg.namespaces[i], views(i).listed, views(i).shuffle);
        RoundLaw(cfg, policy, start, action, cfg.namespaces[i], views(i));
        CalmParts(cluster.faults, old(cluster.issued), issued0 + 1, cluster.issued);
        calm := Calm(cluster.faults, old(cluster.issued), cluster.issued);
        DoneStep(cfg, policy, start, action, views, i, more, true, one, true);
        ListedLater(cluster.faults, asked, true, i + 1, old(cluster.issued), issued0 + 1, cluster.issued);
        KeysOfAppend(DeleteService, more, one);
        OfActionAppend(action, more, one);
        TakenAppend(old(cluster.services), left, cluster.services, gone, KeysOf(DeleteService, more),
                    Calm(cluster.faults, old(cluster.issued), issued0), went, KeysOf(DeleteService, one),
                    Calm(cluster.faults, issued0 + 1, cluster.issued), calm);
        ConcatAssoc(old(attempts), more, one);
        more, gone := more + one, gone + went;
        i := i + 1;
      }
      ok, n := true, i;
    }

    /** All namespaces of scaleDownDeployments. */
    method ScaleDownDeployments(action: string, views: nat -> View, ghost start: Deployments)
      returns (ok: bool, ghost n: nat, ghost more: seq<Mutation>, ghost newTries: seq<Try>, ghost asked: seq<nat>)
      requires action in cfg.actions && Parse(action).ScaleDown? && forall i :: ShufflesInRange(views(i).shuffle)
      requires Accounted(start, tries, cluster.deployments, scaledDownDeps)
      modifies this`scaledDownDeps, this`attempts, this`tries, cluster`issued, cluster`lists,
        cluster`deployments
      ensures n <= |cfg.namespaces| && (ok <==> n == |cfg.namespaces|)
      ensures attempts == old(attempts) + more && cluster.issued >= old(cluster.issued)
      ensures Done(cfg, policy, start, action, views, n, more,
                   Calm(cluster.faults, old(cluster.issued), cluster.issued))
      ensures cluster.lists == old(cluster.lists) + asked
      ensures Listed(cluster.faults, asked, ok, |cfg.namespaces|, old(cluster.issued), cluster.issued)
      ensures Accounted(start, tries, cluster.deployments, scaledDownDeps) && tries == old(tries) + newTries
      ensures Distinct(cfg.namespaces) ==> OncePerDeployment(newTries)
      ensures Calm(cluster.faults, old(cluster.issued), cluster.issued) ==> AllUpdated(newTries)
      ensures OfAction(action, more) && Keys(newTries) == KeysOf(ScaleDown, more)
      ensures Scaled(old(cluster.deployments), cluster.deployments, newTries)
    {
      hide AllUpdated, OfAction, KeysOf, Scaled, Done, Calm, AllLawful, Admit, Chosen, Mutations, ShufflesInRange,
          Accounted, Round, Tried;
      hide ScaleTargets, Listed, TriesOver, Distinct, OncePerDeployment, Of, Keys, KeysIn, Existing;
      more, newTries, asked := [], [], [];
      ListedNothing(cluster.faults, cluster.issued);
      UpdatedNothing();
      DoneNothing(cfg, policy, start, action, views);
      TriesOverNothing();
      OfNone(ScaleDown, action);
      KeysNone();
      ScaledNothing(cluster.deployments);
      var i := 0;
      while i < |cfg.namespaces|
        invariant 0 <= i <= |cfg.namespaces|
        invariant attempts == old(attempts) + more && cluster.issued >= old(cluster.issued)
        invariant Done(cfg, policy, start, action, views, i, more,
                       Calm(cluster.faults, old(cluster.issued), cluster.issued))
        invariant cluster.lists == old(cluster.lists) + asked
        invariant Listed(cluster.faults, asked, true, i, old(cluster.issued), cluster.issued)
        invariant Accounted(start, tries, cluster.deployments, scaledDownDeps) && tries == old(tries) + newTries
        invariant Distinct(cfg.namespaces) ==> TriesOver(newTries, cfg.namespaces[..i])
        invariant Calm(cluster.faults, old(cluster.issued), cluster.issued) ==> AllUpdated(newTries)
        invariant OfAction(action, more) && Keys(newTries) == KeysOf(ScaleDown, more)
        invariant Scaled(old(cluster.deployments), cluster.deployments, newTries)
      {
        ghost var issued0 := cluster.issued;
        ok := cluster.List();
        ListedNext(cluster.faults, asked, i, old(cluster.issued), issued0, |cfg.namespaces|);
        ConcatAssoc(old(cluster.lists), asked, [issued0]);
        asked := asked + [issued0];
        CalmCall(cluster.faults, old(cluster.issued), issued0);
        if !ok {
          n := i;
          DoneUncalm(cfg, policy, start, action, views, i, more, Calm(cluster.faults, old(cluster.issued), issued0));
          TriesOnce(newTries, cfg.namespaces[..i]);
          return;
        }
        ghost var deployments0 := cluster.deployments;
        AccountedKeys(start, tries, deployments0, scaledDownDeps);
        ghost var one := ScaleDownIn(action, cfg.namespaces[i], views(i).listed, views(i).shuffle, start);
        ScaledRound(cfg, policy, start, deployments0, action, cfg.namespaces[i], views(i), one,
                    Calm(cluster.faults, issued0 + 1, cluster.issued));
        CalmParts(cluster.faults, old(cluster.issued), issued0 + 1, cluster.issued);
        DoneStep(cfg, policy, start, action, views, i, more, Calm(cluster.faults, old(cluster.issued), issued0),
                 Tried(action, one),
                 Calm(cluster.faults, old(cluster.issued), cluster.issued));
        ListedLater(cluster.faults, asked, true, i + 1, old(cluster.issued), issued0 + 1, cluster.issued);
        UpdatedAppend(newTries, one);
        TriedOf(action, one);
        KeysOfAppend(ScaleDown, more, Tried(action, one));
        OfActionAppend(action, more, Tried(action, one));
        KeysAppend(newTries, one);
        ScaledAppend(old(cluster.deployments), deployments0, cluster.deployments, newTries, one);
        TriesOverStep(cfg, policy, deployments0, action, views(i), newTries, i, one);
        ConcatAssoc(old(attempts), more, Tried(action, one));
        ConcatAssoc(old(tries), newTries, one);
        more, newTries := more + Tried(action, one), newTries + one;
        i := i + 1;
      }
      TriesOnce(newTries, cfg.namespaces[..i]);
      ok, n := true, i;
    }

    /** One turn of Run: dispatch on the action's name. */
    method RunAction(action: string, views: nat -> View, ghost start: Deployments)
      returns (ok: bool, ghost n: nat, ghost more: seq<Mutation>, ghost killed: seq<Key>, ghost deleted: seq<Key>,
               ghost newTries: seq<Try>, ghost asked: seq<nat>)
      requires action in cfg.actions && forall i :: ShufflesInRange(views(i).shuffle)
      requires Accounted(start, tries, cluster.deployments, scaledDownDeps)
      modifies this, cluster
      ensures attempts == old(attempts) + more && cluster.issued >= old(cluster.issued) && n <= |cfg.namespaces|
      ensures Done(cfg, policy, start, action, views, n, more,
                   Calm(cluster.faults, old(cluster.issued), cluster.issued))
      ensures ok ==> n == |cfg.namespaces|
      ensures cluster.lists == old(cluster.lists) + asked
      ensures Listed(cluster.faults, asked, ok, Safety.ActionWeight(action, |cfg.namespaces|),
                     old(cluster.issued), cluster.issued)
      ensures Accounted(start, tries, cluster.deployments, scaledDownDeps) && tries == old(tries) + newTries
      ensures Parse(action).Unknown? ==> more == []
      ensures !Parse(action).ScaleDown? ==> newTries == []
      ensures Distinct(cfg.namespaces) ==> OncePerDeployment(newTries)
      ensures killedPods == old(killedPods) + killed
      ensures Effects(old(cluster.Contents()), cluster.Contents(), killed, deleted, newTries, more,
                      Calm(cluster.faults, old(cluster.issued), cluster.issued))
    {
      hide Listed, Done, Calm, Accounted, ShufflesInRange, Distinct, Effects, Taken, KeysOf, OfAction, Scaled, Keys;
      hide AllUpdated;
      more, newTries, killed, deleted, asked, n := [], [], [], [], [], |cfg.namespaces|;
      ParseKnown(action);
      ghost var before := cluster.Contents();
      match Parse(action) {
        case KillPod =>
          ok, n, more, killed, asked := KillPods(action, views, start);
          DoneAnyway(cfg, policy, start, action, views, n, more);
          EffectsOfKills(before, cluster.Contents(), action, killed, more,
                         Calm(cluster.faults, old(cluster.issued), cluster.issued));
        case ScaleDown =>
          ok, n, more, newTries, asked := ScaleDownDeployments(action, views, start);
          EffectsOfScaling(before, cluster.Contents(), action, newTries, more,
                           Calm(cluster.faults, old(cluster.issued), cluster.issued));
        case DeleteService =>
          ok, n, more, deleted, asked := DeleteServices(action, views, start);
          DoneAnyway(cfg, policy, start, action, views, n, more);
          EffectsOfDeletes(before, cluster.Contents(), action, deleted, more,
                           Calm(cluster.faults, old(cluster.issued), cluster.issued));
        case Unknown =>
          ok := true;
          ListedNothing(cluster.faults, cluster.issued);
          UnknownDone(cfg, policy, start, action, views);
          EffectsNothing(before);
      }
    }

    /** A whole run, against any outside and any API faults. What it does is in the log, and it succeeds exactly
        if no list call failed. Only what was lawful to touch is gone or changed, by the action named for it. The
        records stay accounted for, over this and all runs before. */
    method Run(outside: nat -> nat -> View, ghost start: Deployments) returns (ok: bool, ghost log: Log)
      requires forall j, i :: ShufflesInRange(outside(j)(i).shuffle)
      requires Accounted(start, tries, cluster.deployments, scaledDownDeps)
      modifies this, cluster
      ensures log.from == old(cluster.issued) <= log.to == cluster.issued
      ensures log.before == old(cluster.Contents()) && log.after == cluster.Contents()
      ensures Conducted(cfg, policy, start, outside, cluster.faults, log) && ok == log.ok
      ensures OnlyLawful(cfg, policy, log.before, log.after) && (Quiet(cluster.faults, log) ==> ok)
      ensures DoneByName(cfg, policy, Quiet(cluster.faults, log), log)
      ensures attempts == old(attempts) + log.more && cluster.lists == old(cluster.lists) + log.asked
      ensures killedPods == old(killedPods) + log.killed && tries == old(tries) + log.tries
      ensures Accounted(start, tries, cluster.deployments, scaledDownDeps)
      ensures Distinct(cfg.namespaces) && ScaleDowns(cfg.actions) <= 1 ==> OncePerDeployment(log.tries)
    {
      hide Safety.K8sCount, Safety.ActionWeight, ScaleDowns, Plan, Listed, Done, DoneActions, Calm, Accounted;
      hide ShufflesInRange, Distinct, OncePerDeployment, AllLawful, Effects, OnlyLawful, DoneByName;
      ghost var more, newTries, killed, deleted, asked := [], [], [], [], [];
      ok := true;
      ListedNothing(cluster.faults, cluster.issued);
      CountStart(cfg.actions, |cfg.namespaces|);
      RunStarts(cfg, policy, start, outside);
      ghost var before := cluster.Contents();
      EffectsNothing(before);
      var j := 0;
      while j < |cfg.actions| && ok
        invariant 0 <= j <= |cfg.actions|
        invariant attempts == old(attempts) + more && cluster.issued >= old(cluster.issued)
        invariant killedPods == old(killedPods) + killed && cluster.lists == old(cluster.lists) + asked
        invariant Listed(cluster.faults, asked, ok, Safety.K8sCount(cfg.actions[..j], |cfg.namespaces|),
                         old(cluster.issued), cluster.issued)
        invariant DoneActions(cfg, policy, start, outside, j, more, ok,
                              Calm(cluster.faults, old(cluster.issued), cluster.issued))
        invariant Accounted(start, tries, cluster.deployments, scaledDownDeps) && tries == old(tries) + newTries
        invariant Effects(before, cluster.Contents(), killed, deleted, newTries, more,
                          Calm(cluster.faults, old(cluster.issued), cluster.issued))
        invariant ScaleDowns(cfg.actions[..j]) == 0 ==> newTries == []
        invariant Distinct(cfg.namespaces) && ScaleDowns(cfg.actions[..j]) <= 1 ==> OncePerDeployment(newTries)
      {
        ghost var issued0, mid := cluster.issued, cluster.Contents();
        ghost var n, one, went, left, tried, calm, listed;
        ok, n, one, went, left, tried, listed := RunAction(cfg.actions[j], outside(j), start);
        ListedAppend(cluster.faults, asked, Safety.K8sCount(cfg.actions[..j], |cfg.namespaces|),
                     old(cluster.issued), issued0, listed, ok,
                     Safety.ActionWeight(cfg.actions[j], |cfg.namespaces|), cluster.issued);
        ListedCalm(cluster.faults, listed, ok, Safety.ActionWeight(cfg.actions[j], |cfg.namespaces|),
                   issued0, cluster.issued);
        ConcatAssoc(old(cluster.lists), asked, listed);
        CalmParts(cluster.faults, old(cluster.issued), issued0, cluster.issued);
        calm := Calm(cluster.faults, old(cluster.issued), cluster.issued);
        DoneActionsStep(cfg, policy, start, outside, j, more, Calm(cluster.faults, old(cluster.issued), issued0), n,
                        one, ok,
                        Calm(cluster.faults, issued0, cluster.issued), calm);
        EffectsAppend(before, mid, cluster.Contents(),
                      killed, deleted, newTries, more, Calm(cluster.faults, old(cluster.issued), issued0),
                      went, left, tried, one, Calm(cluster.faults, issued0, cluster.issued), calm);
        CountStep(cfg.actions, j, |cfg.namespaces|);
        ConcatAssoc(old(attempts), more, one);
        ConcatAssoc(old(tries), newTries, tried);
        ConcatAssoc(old(killedPods), killed, went);
        assert newTries == [] ==> newTries + tried == tried;
        assert tried == [] ==> newTries + tried == newTries;
        more, newTries, killed, deleted := more + one, newTries + tried, killed + went, deleted + left;
        asked := asked + listed;
        j := j + 1;
      }
      RunEnds(cfg, policy, start, outside, j, more, ok, Calm(cluster.faults, old(cluster.issued), cluster.issued));
      ScaleDownsPrefix(cfg.actions, j);
      ListedEnds(cluster.faults, asked, ok, cfg.actions, j, |cfg.namespaces|, old(cluster.issued), cluster.issued);
      log := Log(ok, asked, more, killed, deleted, newTries, old(cluster.issued), cluster.issued,
                 before, cluster.Contents());
      ConductedLawful(cfg, policy, start, outside, cluster.faults, log);
      EffectsByName(cfg, policy, Quiet(cluster.faults, log), log);
    }

    method DestructiveActionCount() returns (total: nat)
      ensures total == Safety.K8sCount(cfg.actions, |cfg.namespaces|)
    {
      total := 0;
      for i := 0 to |cfg.actions|
        invariant total == Safety.K8sCount(cfg.actions[..i], |cfg.namespaces|)
      {
        assert cfg.actions[..i + 1][..i] == cfg.actions[..i];
        ParseKnown(cfg.actions[i]);
        if Parse(cfg.actions[i]) != Unknown {
          total := total + |cfg.namespaces|;
        }
      }
      assert cfg.actions[..|cfg.actions|] == cfg.actions;
    }

    /** Replays the records in the order they were made, skipping those whose calls fail, and keeps
        them all: `went` says which went through. */
    method Rollback() returns (ok: bool, ghost went: seq<bool>, ghost at: seq<nat>)
      modifies cluster`issued, cluster`deployments
      ensures |went| == |scaledDownDeps| && (ok <==> forall i :: 0 <= i < |went| ==> went[i])
      ensures cluster.deployments == Restore(old(cluster.deployments), Through(scaledDownDeps, went))
      ensures ok ==> cluster.deployments == Restore(old(cluster.deployments), scaledDownDeps)
      ensures cluster.issued >= old(cluster.issued) && cluster.deployments.Keys == old(cluster.deployments).Keys
      ensures Recorded(scaledDownDeps, old(cluster.deployments)) ==>
                Calm(cluster.faults, old(cluster.issued), cluster.issued) ==> ok
      ensures |at| == |went| + 1 && at[0] == old(cluster.issued) && at[|went|] == cluster.issued
      ensures forall i :: 0 <= i < |went| ==>
                            Goes(scaledDownDeps[i], old(cluster.deployments), cluster.faults, at[i], at[i + 1], went[i])
    {
      hide Calm, Restore, Through, Recorded, Goes;
      ok, went, at := true, [], [cluster.issued];
      RestoreNothing(cluster.deployments);
      var i := 0;
      while i < |scaledDownDeps|
        invariant 0 <= i <= |scaledDownDeps| && |went| == i && cluster.issued >= old(cluster.issued)
        invariant ok <==> forall k :: 0 <= k < i ==> went[k]
        invariant cluster.deployments.Keys == old(cluster.deployments).Keys
        invariant cluster.deployments == Restore(old(cluster.deployments), Through(scaledDownDeps[..i], went))
        invariant Recorded(scaledDownDeps, old(cluster.deployments)) ==> Recorded(scaledDownDeps, cluster.deployments)
        invariant Recorded(scaledDownDeps, old(cluster.deployments)) ==>
                Calm(cluster.faults, old(cluster.issued), cluster.issued) ==> ok
        invariant |at| == i + 1 && at[0] == old(cluster.issued) && at[i] == cluster.issued
        invariant forall k :: 0 <= k < i ==>
                                Goes(scaledDownDeps[k], old(cluster.deployments), cluster.faults, at[k], at[k + 1],
                                     went[k])
      {
        ghost var issued0, went0, deployments0 := cluster.issued, went, cluster.deployments;
        var done := RollbackOne(scaledDownDeps[i]);
        CalmParts(cluster.faults, old(cluster.issued), issued0, cluster.issued);
        RestoreStep(old(cluster.deployments), scaledDownDeps, i, went0, done);
        GoesAlike(scaledDownDeps[i], old(cluster.deployments), deployments0, cluster.faults, issued0, cluster.issued,
                  done);
        went, ok, at := went + [done], ok && done, at + [cluster.issued];
        i := i + 1;
        assert went[i - 1] == done && forall k :: 0 <= k < i - 1 ==> went[k] == went0[k];
      }
      assert scaledDownDeps[..i] == scaledDownDeps;
      if ok {
        ThroughAll(scaledDownDeps, went);
      }
    }

    /** One record: its deployment's scale is read, then set. */
    method RollbackOne(dep: DepRef) returns (done: bool)
      requires dep in scaledDownDeps
      modifies cluster`issued, cluster`deployments
      ensures done <==>
                && dep.key in old(cluster.deployments)
                && Calm(cluster.faults, old(cluster.issued), old(cluster.issued) + 2)
      ensures Goes(dep, old(cluster.deployments), cluster.faults, old(cluster.issued), cluster.issued, done)
      ensures cluster.deployments.Keys == old(cluster.deployments).Keys
      ensures cluster.deployments ==
              if done then old(cluster.deployments)[dep.key := Some(dep.orig)] else old(cluster.deployments)
      ensures Recorded(scaledDownDeps, old(cluster.deployments)) ==> Recorded(scaledDownDeps, cluster.deployments)
      ensures Recorded(scaledDownDeps, old(cluster.deployments)) ==>
                Calm(cluster.faults, old(cluster.issued), cluster.issued) ==> done
    {
      done := cluster.GetScale(dep.key);
      if done {
        done := cluster.UpdateScale(dep.key, dep.orig);
      }
    }
  }

  // ---- Rolling back, and how much a run can do ----

  /** A record's turn in a rollback, from call number `from` to call number `to`: its scale is read and, if that
      works, updated; it goes through if both calls do. */
  ghost predicate Goes(dep: DepRef, deployments: Deployments, faults: nat -> bool, from: nat, to: nat, done: bool) {
    var answered := dep.key in deployments && !faults(from);
    to == from + (if answered then 2 else 1) && (done <==> answered && !faults(from + 1))
  }

  lemma GoesAlike(dep: DepRef, a: Deployments, b: Deployments, faults: nat -> bool, from: nat, to: nat, done: bool)
    requires a.Keys == b.Keys && Goes(dep, b, faults, from, to, done)
    ensures Goes(dep, a, faults, from, to, done)
  {
    assert forall k :: k in a <==> k in a.Keys;
    assert forall k :: k in b <==> k in b.Keys;
  }

  /** Over one run that records each deployment at most once, and a rollback that goes through, every
      deployment has its replica count back, even where scaling it down had failed. */
  lemma RunThenRollback(start: Deployments, tries: seq<Try>, deployments: Deployments, records: seq<DepRef>, key: Key)
    requires Accounted(start, tries, deployments, records) && OncePerDeployment(tries) && key in start
    ensures key in Restore(deployments, records)
    ensures Effective(Restore(deployments, records)[key]) == Effective(start[key])
  {
    OnceRestoresAll(start, tries, key);
  }

  /** Over any number of runs: a rollback that goes through leaves every recorded deployment at the
      value of its last record, which is zero if an earlier scale-down of it had gone through. */
  lemma RunsThenRollback(start: Deployments, tries: seq<Try>, deployments: Deployments, records: seq<DepRef>, key: Key)
    requires Accounted(start, tries, deployments, records) && key in start
    ensures key in Restore(deployments, records)
    ensures var l := LastTry(tries, key);
            Restore(deployments, records)[key] ==
            if l < 0 then start[key] else Some(if Zeroed(tries[..l], key) then 0 else Effective(start[key]))
  {
    RollbackValue(start, tries, key);
  }
}
