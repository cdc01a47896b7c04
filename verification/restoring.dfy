/** Which configurations get every replica count back: one calm run and its rollback, on every cluster. */
module Restoring {
  import opened Campaign
  import opened Config
  import opened Estimate
  import opened RunPlan
  import opened Scaling
  import opened Selection
  import opened Sums
  import opened Targets
  import Safety

  /** All counts are back in what `Campaign.RunAndRollback` leaves of the deployments when no call fails. */
  ghost predicate AllBack(cfg: KubernetesConfig, policy: Option<Safety.Policy>, start: Deployments,
                          outside: nat -> nat -> View)
  {
    (forall j, i :: ShufflesInRange(outside(j)(i).shuffle)) ==>
      var tries := AllThrough(KeysOf(ScaleDown, Plan(cfg, policy, start, outside, |cfg.actions|)));
      Within(tries, start) && forall key :: key in start ==> SameCount(start, Final(start, tries), key)
  }

  predicate SameCount(a: Deployments, b: Deployments, key: Key)
    requires key in a
  {
    key in b && Effective(b[key]) == Effective(a[key])
  }

  lemma AllWithin(start: Deployments, keys: seq<Key>)
    requires forall k :: k in keys ==> k in start
    ensures Within(AllThrough(keys), start)
  {
    forall t | t in AllThrough(keys)
      ensures t.key in start
    {
      var i :| 0 <= i < |keys| && Try(keys[i], true) == t;
      assert keys[i] in keys;
    }
  }

  lemma BackIff(start: Deployments, keys: seq<Key>, key: Key)
    requires Within(AllThrough(keys), start) && key in start
    ensures SameCount(start, Final(start, AllThrough(keys)), key) <==>
            Effective(start[key]) == 0 || multiset(keys)[key] <= 1
  {
    hide Final, Effective;
    var tries := AllThrough(keys);
    assert Keys(tries) == keys && AllUpdated(tries);
    RestoredIff(start, tries, key);
    LastTryFirst(tries, key);
  }

  /** At most one scale_down action, and no namespace for it twice, unless there is nothing to scale. */
  ghost predicate Careful(cfg: KubernetesConfig) {
    || ScaleDowns(cfg.actions) == 0
    || cfg.namespaces == []
    || (ScaleDowns(cfg.actions) == 1 && Distinct(cfg.namespaces))
  }

  // ---- Careful configurations ----

  lemma {:induction false} RoundsOfAction(cfg: KubernetesConfig, policy: Option<Safety.Policy>, start: Deployments,
                                          action: string, views: nat -> View, n: nat)
    requires n <= |cfg.namespaces| && forall i :: ShufflesInRange(views(i).shuffle)
    ensures OfAction(action, Rounds(cfg, policy, start, action, views, n))
  {
    if n > 0 {
      hide Parse, Admit, Chosen, Existing;
      RoundsOfAction(cfg, policy, start, action, views, n - 1);
      OfActionAppend(action, Rounds(cfg, policy, start, action, views, n - 1),
                     Round(cfg, policy, start, action, cfg.namespaces[n - 1], views(n - 1)));
    }
  }

  lemma ScaleRound(cfg: KubernetesConfig, policy: Option<Safety.Policy>, start: Deployments, action: string,
                   namespace: string, view: View)
    requires ShufflesInRange(view.shuffle) && Parse(action).ScaleDown?
    ensures var keys := KeysOf(ScaleDown, Round(cfg, policy, start, action, namespace, view));
            Distinct(keys) && forall key :: key in keys ==> key.0 == namespace && key in start
  {
    hide Parse, Chosen, Existing;
    var names := ScaleTargets(cfg, policy, start, action, namespace, view);
    TargetsExist(cfg, start, namespace, view.listed, view.shuffle);
    AdmitLaw(policy, action, namespace, Chosen(cfg, ScaleDown, Existing(start, namespace, view.listed), view.shuffle));
    MutationsOf(ScaleDown, action, namespace, names);
    forall i | 0 <= i < |names|
      ensures (namespace, names[i]) in start
    {
      assert names[i] in names;
    }
  }

  /** Deployments of these namespaces, none twice. */
  ghost predicate Over(keys: seq<Key>, namespaces: seq<string>) {
    Distinct(keys) && forall key :: key in keys ==> key.0 in namespaces
  }

  lemma OverNext(keys: seq<Key>, namespaces: seq<string>, n: nat, more: seq<Key>)
    requires n < |namespaces| && Distinct(namespaces) && Over(keys, namespaces[..n])
    requires Distinct(more) && forall key :: key in more ==> key.0 == namespaces[n]
    ensures Over(keys + more, namespaces[..n + 1])
  {
    assert namespaces[..n + 1] == namespaces[..n] + [namespaces[n]];
    assert namespaces[n] !in namespaces[..n];
    assert forall i :: 0 <= i < |keys| ==> keys[i] in keys;
    assert forall i :: 0 <= i < |more| ==> more[i] in more;
  }

  lemma {:induction false} ScaleRounds(cfg: KubernetesConfig, policy: Option<Safety.Policy>, start: Deployments,
                                       action: string, views: nat -> View, n: nat)
    requires n <= |cfg.namespaces| && forall i :: ShufflesInRange(views(i).shuffle)
    requires Parse(action).ScaleDown? && Distinct(cfg.namespaces)
    ensures Over(KeysOf(ScaleDown, Rounds(cfg, policy, start, action, views, n)), cfg.namespaces[..n])
  {
    hide Parse, Round, KeysOf;
    if n == 0 {
      OfNone(ScaleDown, action);
    } else {
      hide Over, Distinct, ShufflesInRange;
      var before := Rounds(cfg, policy, start, action, views, n - 1);
      var one := Round(cfg, policy, start, action, cfg.namespaces[n - 1], views(n - 1));
      ScaleRounds(cfg, policy, start, action, views, n - 1);
      ScaleRound(cfg, policy, start, action, cfg.namespaces[n - 1], views(n - 1));
      KeysOfAppend(ScaleDown, before, one);
      OverNext(KeysOf(ScaleDown, before), cfg.namespaces, n - 1, KeysOf(ScaleDown, one));
    }
  }

  lemma {:induction false} ScalePlan(cfg: KubernetesConfig, policy: Option<Safety.Policy>, start: Deployments,
                                     outside: nat -> nat -> View, n: nat)
    requires n <= |cfg.actions| && forall j, i :: ShufflesInRange(outside(j)(i).shuffle)
    ensures var keys := KeysOf(ScaleDown, Plan(cfg, policy, start, outside, n));
            && (ScaleDowns(cfg.actions[..n]) == 0 || cfg.namespaces == [] ==> keys == [])
            && (ScaleDowns(cfg.actions[..n]) <= 1 && Distinct(cfg.namespaces) ==> Distinct(keys))
  {
    hide Parse, KeysOf, Rounds;
    if n == 0 {
      OfNone(ScaleDown, "");
    } else {
      var action, views := cfg.actions[n - 1], outside(n - 1);
      var before := Plan(cfg, policy, start, outside, n - 1);
      var one := Rounds(cfg, policy, start, action, views, |cfg.namespaces|);
      ScalePlan(cfg, policy, start, outside, n - 1);
      KeysOfAppend(ScaleDown, before, one);
      assert cfg.actions[..n][..n - 1] == cfg.actions[..n - 1];
      RoundsNone(cfg, policy, start, action, views);
      OfNone(ScaleDown, action);
      if Parse(action).ScaleDown? {
        if Distinct(cfg.namespaces) {
          ScaleRounds(cfg, policy, start, action, views, |cfg.namespaces|);
          assert [] + KeysOf(ScaleDown, one) == KeysOf(ScaleDown, one);
        }
      } else {
        RoundsOfAction(cfg, policy, start, action, views, |cfg.namespaces|);
        KeysOfAction(ScaleDown, action, one);
        assert KeysOf(ScaleDown, before) + [] == KeysOf(ScaleDown, before);
      }
    }
  }

  lemma {:induction false} RoundsExist(cfg: KubernetesConfig, policy: Option<Safety.Policy>, start: Deployments,
                                       action: string, views: nat -> View, n: nat)
    requires n <= |cfg.namespaces| && forall i :: ShufflesInRange(views(i).shuffle)
    requires Parse(action).ScaleDown?
    ensures forall key :: key in KeysOf(ScaleDown, Rounds(cfg, policy, start, action, views, n)) ==> key in start
  {
    hide Parse, Round, KeysOf, ShufflesInRange, Distinct;
    if n == 0 {
      OfNone(ScaleDown, action);
    } else {
      RoundsExist(cfg, policy, start, action, views, n - 1);
      ScaleRound(cfg, policy, start, action, cfg.namespaces[n - 1], views(n - 1));
      KeysOfAppend(ScaleDown, Rounds(cfg, policy, start, action, views, n - 1),
                   Round(cfg, policy, start, action, cfg.namespaces[n - 1], views(n - 1)));
    }
  }

  /** Only deployments that exist are scaled down. */
  lemma {:induction false} PlanExists(cfg: KubernetesConfig, policy: Option<Safety.Policy>, start: Deployments,
                                      outside: nat -> nat -> View, n: nat)
    requires n <= |cfg.actions| && forall j, i :: ShufflesInRange(outside(j)(i).shuffle)
    ensures forall key :: key in KeysOf(ScaleDown, Plan(cfg, policy, start, outside, n)) ==> key in start
  {
    hide Parse, KeysOf, Rounds;
    if n == 0 {
      OfNone(ScaleDown, "");
    } else {
      var action, views := cfg.actions[n - 1], outside(n - 1);
      var one := Rounds(cfg, policy, start, action, views, |cfg.namespaces|);
      PlanExists(cfg, policy, start, outside, n - 1);
      KeysOfAppend(ScaleDown, Plan(cfg, policy, start, outside, n - 1), one);
      if Parse(action).ScaleDown? {
        RoundsExist(cfg, policy, start, action, views, |cfg.namespaces|);
      } else {
        RoundsOfAction(cfg, policy, start, action, views, |cfg.namespaces|);
        KeysOfAction(ScaleDown, action, one);
      }
    }
  }

  lemma CarefulBack(cfg: KubernetesConfig, policy: Option<Safety.Policy>, start: Deployments,
                    outside: nat -> nat -> View)
    requires Careful(cfg)
    ensures AllBack(cfg, policy, start, outside)
  {
    hide Plan, KeysOf, ScaleDowns, Final, AllThrough, SameCount;
    if forall j, i :: ShufflesInRange(outside(j)(i).shuffle) {
      var keys := KeysOf(ScaleDown, Plan(cfg, policy, start, outside, |cfg.actions|));
      ScalePlan(cfg, policy, start, outside, |cfg.actions|);
      PlanExists(cfg, policy, start, outside, |cfg.actions|);
      assert cfg.actions[..|cfg.actions|] == cfg.actions;
      DistinctCounts(keys);
      AllWithin(start, keys);
      forall key | key in start
        ensures SameCount(start, Final(start, AllThrough(keys)), key)
      {
        BackIff(start, keys, key);
      }
    }
  }

  // ---- A cluster that loses a count under any other ----

  /** One deployment of the same name in each namespace, as the scale-downs come to them. */
  function OneEach(namespaces: seq<string>, n: nat): seq<Key>
    requires n <= |namespaces|
  {
    seq(n, i requires 0 <= i < n => (namespaces[i], Crowd(1)[0]))
  }

  lemma {:induction false} OneEachRounds(cfg: KubernetesConfig, policy: Option<Safety.Policy>, action: string,
                                         views: nat -> View, n: nat)
    requires n <= |cfg.namespaces| && cfg.excludedPods == [] && AdmitsAll(cfg, policy) && action in cfg.actions
    requires forall i :: ShufflesInRange(views(i).shuffle) && views(i).listed == Crowd(1)
    requires Parse(action).ScaleDown?
    ensures KeysOf(ScaleDown, Rounds(cfg, policy, Crowded(cfg.namespaces, 1), action, views, n))
         == OneEach(cfg.namespaces, n)
  {
    hide Parse, Round, KeysOf, AdmitsAll, Crowded, Crowd;
    if n == 0 {
      OfNone(ScaleDown, action);
    } else {
      var start, namespace := Crowded(cfg.namespaces, 1), cfg.namespaces[n - 1];
      OneEachRounds(cfg, policy, action, views, n - 1);
      CrowdedRound(cfg, policy, action, n - 1, 1, views(n - 1));
      MutationsOf(ScaleDown, action, namespace, Crowd(1));
      KeysOfAppend(ScaleDown, Rounds(cfg, policy, start, action, views, n - 1),
                   Round(cfg, policy, start, action, namespace, views(n - 1)));
      assert KeysIn(namespace, Crowd(1)) == [(namespace, Crowd(1)[0])];
    }
  }

  lemma {:induction false} OneEachPlan(cfg: KubernetesConfig, policy: Option<Safety.Policy>,
                                       outside: nat -> nat -> View,
                                       n: nat, key: Key)
    requires n <= |cfg.actions| && cfg.excludedPods == [] && AdmitsAll(cfg, policy)
    requires forall j, i :: ShufflesInRange(outside(j)(i).shuffle) && outside(j)(i).listed == Crowd(1)
    ensures Times(key, Plan(cfg, policy, Crowded(cfg.namespaces, 1), outside, n))
         == multiset(OneEach(cfg.namespaces, |cfg.namespaces|))[key] * ScaleDowns(cfg.actions[..n])
  {
    hide Parse, KeysOf, Rounds, AdmitsAll, Crowded, Crowd, OneEach;
    if n == 0 {
      OfNone(ScaleDown, "");
    } else {
      var action, start := cfg.actions[n - 1], Crowded(cfg.namespaces, 1);
      var one := Rounds(cfg, policy, start, action, outside(n - 1), |cfg.namespaces|);
      OneEachPlan(cfg, policy, outside, n - 1, key);
      KeysOfAppend(ScaleDown, Plan(cfg, policy, start, outside, n - 1), one);
      assert cfg.actions[..n][..n - 1] == cfg.actions[..n - 1];
      MulStep(multiset(OneEach(cfg.namespaces, |cfg.namespaces|))[key], ScaleDowns(cfg.actions[..n - 1]));
      if Parse(action).ScaleDown? {
        OneEachRounds(cfg, policy, action, outside(n - 1), |cfg.namespaces|);
      } else {
        RoundsOfAction(cfg, policy, start, action, outside(n - 1), |cfg.namespaces|);
        KeysOfAction(ScaleDown, action, one);
      }
    }
  }

  lemma CarelessKey(cfg: KubernetesConfig) returns (key: Key)
    requires !Careful(cfg)
    ensures key in Crowded(cfg.namespaces, 1) && Effective(Crowded(cfg.namespaces, 1)[key]) != 0
    ensures multiset(OneEach(cfg.namespaces, |cfg.namespaces|))[key] * ScaleDowns(cfg.actions) > 1
  {
    hide ScaleDowns, Crowd, Distinct;
    var keys := OneEach(cfg.namespaces, |cfg.namespaces|);
    key := keys[0];
    if !Distinct(cfg.namespaces) {
      RepeatedKey(cfg.namespaces);
      DistinctCounts(keys);
      key :| multiset(keys)[key] > 1;
    }
    assert key in keys && key in multiset(keys);
    var i :| 0 <= i < |keys| && keys[i] == key;
    assert key == (cfg.namespaces[i], Crowd(1)[0]);
    AtLeastTwo(multiset(keys)[key], ScaleDowns(cfg.actions));
  }

  lemma CarelessLoses(cfg: KubernetesConfig, policy: Option<Safety.Policy>)
    returns (start: Deployments, outside: nat -> nat -> View, key: Key)
    requires cfg.excludedPods == [] && AdmitsAll(cfg, policy) && !Careful(cfg)
    ensures forall j, i :: ShufflesInRange(outside(j)(i).shuffle)
    ensures key in start && !AllBack(cfg, policy, start, outside)
  {
    hide AdmitsAll, Plan, ScaleDowns, KeysOf, Crowd, Crowded, Careful, OneEach, Final, AllThrough, SameCount;
    start, outside := Crowded(cfg.namespaces, 1), _ => _ => View(Crowd(1), _ => []);
    key := CarelessKey(cfg);
    OneEachPlan(cfg, policy, outside, |cfg.actions|, key);
    assert cfg.actions[..|cfg.actions|] == cfg.actions;
    PlanExists(cfg, policy, start, outside, |cfg.actions|);
    var keys := KeysOf(ScaleDown, Plan(cfg, policy, start, outside, |cfg.actions|));
    AllWithin(start, keys);
    BackIff(start, keys, key);
  }

  lemma RepeatedKey(namespaces: seq<string>)
    requires !Distinct(namespaces)
    ensures !Distinct(OneEach(namespaces, |namespaces|))
  {
    hide Crowd;
    var keys := OneEach(namespaces, |namespaces|);
    var i, j :| 0 <= i < |namespaces| && 0 <= j < |namespaces| && namespaces[i] == namespaces[j] && i != j;
    assert keys[i] == keys[j];
  }

  lemma AtLeastTwo(a: nat, b: nat)
    requires a > 0 && b > 0 && (a > 1 || b > 1)
    ensures a * b > 1
  {
    MulMonotone(a, 1, b);
    MulMonotone(b, 1, a);
  }

  /** Without exclusions and with a policy that admits the names: every count comes back after a calm run
      and its rollback, on every cluster, exactly for the careful configurations. */
  lemma CountsComeBackIff(cfg: KubernetesConfig, policy: Option<Safety.Policy>)
    requires cfg.excludedPods == [] && AdmitsAll(cfg, policy)
    ensures (forall start, outside :: AllBack(cfg, policy, start, outside)) <==> Careful(cfg)
  {
    if Careful(cfg) {
      forall start, outside
        ensures AllBack(cfg, policy, start, outside)
      {
        CarefulBack(cfg, policy, start, outside);
      }
    } else {
      var start, outside, key := CarelessLoses(cfg, policy);
    }
  }
}
