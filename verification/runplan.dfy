/** What a run of pkg/k8s attempts: the changes called for by namespace and action, and how far a run
    got with them, with the history of scale-downs beside them. */
module RunPlan {
  import opened Config
  import opened Scaling
  import opened Selection
  import opened Sums
  import opened Targets
  import Safety

  // ---- The history of scale-downs ----

  function Keys(tries: seq<Try>): seq<Key> {
    seq(|tries|, i requires 0 <= i < |tries| => tries[i].key)
  }

  function Tried(action: string, tries: seq<Try>): seq<Mutation> {
    seq(|tries|, i requires 0 <= i < |tries| => Mutation(action, tries[i].key))
  }

  ghost predicate AllUpdated(tries: seq<Try>) {
    forall i :: 0 <= i < |tries| ==> tries[i].updated
  }

  lemma UpdatedNothing()
    ensures AllUpdated([])
  {
  }

  lemma UpdatedOne(tries: seq<Try>)
    ensures |tries| <= 1 ==> (AllUpdated(tries) <==> tries == [] || tries[0].updated)
  {
  }

  lemma UpdatedAppend(a: seq<Try>, b: seq<Try>)
    ensures AllUpdated(a + b) <==> AllUpdated(a) && AllUpdated(b)
  {
    assert forall i :: 0 <= i < |a| ==> (a + b)[i] == a[i];
    assert forall i :: 0 <= i < |b| ==> (a + b)[|a| + i] == b[i];
  }

  /** The tries belong to some of these names, each at most once. */
  ghost predicate Of(tries: seq<Try>, namespace: string, names: seq<string>) {
    && |tries| <= |names|
    && (forall t :: t in tries ==> t.key.0 == namespace && t.key.1 in names)
    && OncePerDeployment(tries)
  }

  lemma OfNothing(policy: Option<Safety.Policy>, namespace: string)
    ensures forall action :: Admit(policy, action, namespace, []) == []
    ensures Of([], namespace, []) && Keys([]) == KeysIn(namespace, []) && forall action :: Tried(action, []) == []
  {
  }

  /** At most one try for the name just admitted. */
  lemma OneMoreTry(tries: seq<Try>, namespace: string, names: seq<string>, one: seq<Try>, action: string)
    requires names != [] && Of(tries, namespace, names[..|names| - 1])
    requires |one| <= 1 && (|one| == 1 ==> one[0].key == (namespace, names[|names| - 1]))
    requires names[|names| - 1] !in names[..|names| - 1]
    ensures Of(tries + one, namespace, names)
    ensures Tried(action, tries + one) == Tried(action, tries) + Tried(action, one)
    ensures |one| == 1 && Keys(tries) == KeysIn(namespace, names[..|names| - 1]) ==>
              Keys(tries + one) == KeysIn(namespace, names)
  {
    var init := names[..|names| - 1];
    forall u | u in tries + one
      ensures u.key.0 == namespace && u.key.1 in names
    {
      assert u in tries ==> u.key.1 in init;
    }
    forall i | 0 <= i < |tries| && one != []
      ensures tries[i].key != one[0].key
    {
      assert tries[i] in tries;
    }
    if |one| == 1 && Keys(tries) == KeysIn(namespace, init) {
      assert Keys(tries + one) == Keys(tries) + [one[0].key];
      assert KeysIn(namespace, names) == KeysIn(namespace, init) + [(namespace, names[|names| - 1])];
    }
  }

  /** Each of these deployments at most once, all in these namespaces. */
  ghost predicate TriesOver(tries: seq<Try>, namespaces: seq<string>) {
    OncePerDeployment(tries) && forall t :: t in tries ==> t.key.0 in namespaces
  }

  lemma TriesOverNothing()
    ensures TriesOver([], [])
  {
  }

  lemma TriesOnce(tries: seq<Try>, namespaces: seq<string>)
    ensures TriesOver(tries, namespaces) ==> OncePerDeployment(tries)
  {
  }

  lemma TriesOverStep(cfg: KubernetesConfig, policy: Option<Safety.Policy>, deployments: Deployments, action: string,
                      view: View,
                      tries: seq<Try>, i: nat, one: seq<Try>)
    requires i < |cfg.namespaces| && ShufflesInRange(view.shuffle)
    requires Of(one, cfg.namespaces[i], ScaleTargets(cfg, policy, deployments, action, cfg.namespaces[i], view))
    ensures Distinct(cfg.namespaces) && TriesOver(tries, cfg.namespaces[..i]) ==>
              TriesOver(tries + one, cfg.namespaces[..i + 1])
  {
    if Distinct(cfg.namespaces) && TriesOver(tries, cfg.namespaces[..i]) {
      assert cfg.namespaces[..i + 1] == cfg.namespaces[..i] + [cfg.namespaces[i]];
      assert cfg.namespaces[i] !in cfg.namespaces[..i];
      forall t, u | t in tries && u in one
        ensures t.key != u.key
      {
        assert t.key.0 in cfg.namespaces[..i] && u.key.0 == cfg.namespaces[i];
      }
      assert forall k :: 0 <= k < |tries| ==> tries[k] in tries;
      assert forall k :: 0 <= k < |one| ==> one[k] in one;
    }
  }

  /** The history of scale-downs accounts for the cluster and for the records. */
  ghost predicate Accounted(start: Deployments, tries: seq<Try>, deployments: Deployments, records: seq<DepRef>) {
    && (forall t :: t in tries ==> t.key in start)
    && deployments == Replay(start, tries)
    && records == Records(start, tries)
  }

  lemma AccountedKeys(start: Deployments, tries: seq<Try>, deployments: Deployments, records: seq<DepRef>)
    requires Accounted(start, tries, deployments, records)
    ensures deployments.Keys == start.Keys
  {
    ReplayKeys(start, tries);
  }

  lemma AccountedTry(start: Deployments, tries: seq<Try>, deployments: Deployments, records: seq<DepRef>, t: Try)
    requires Accounted(start, tries, deployments, records) && t.key in start
    ensures t.key in deployments
    ensures Accounted(start, tries + [t], if t.updated then deployments[t.key := Some(0)] else deployments,
                      records + [DepRef(t.key, Effective(deployments[t.key]))])
  {
    ReplayKeys(start, tries);
    assert (tries + [t])[..|tries|] == tries;
  }

  // ---- One action ----

  ghost predicate Calm(faults: nat -> bool, from: nat, to: nat) {
    forall j :: from <= j < to ==> !faults(j)
  }

  lemma CalmCall(faults: nat -> bool, from: nat, to: nat)
    requires from <= to
    ensures Calm(faults, from, to + 1) <==> Calm(faults, from, to) && !faults(to)
  {
  }

  lemma CalmSplit(faults: nat -> bool, from: nat, mid: nat, to: nat)
    requires from <= mid < to
    ensures Calm(faults, from, to) ==> Calm(faults, from, mid) && !faults(mid) && (mid + 1 < to ==> !faults(mid + 1))
  {
  }

  lemma CalmParts(faults: nat -> bool, a: nat, b: nat, c: nat)
    requires a <= b <= c
    ensures Calm(faults, a, c) <==> Calm(faults, a, b) && Calm(faults, b, c)
  {
  }

  /** The list calls made between two points, by their numbers: none but the last one failed, and the outcome
      is a success exactly if that did not either, upon which there were `count` of them. */
  ghost predicate Listed(faults: nat -> bool, asked: seq<nat>, ok: bool, count: nat, from: nat, to: nat) {
    && from <= to && (forall l :: l in asked ==> from <= l < to)
    && (ok <==> forall l :: l in asked ==> !faults(l))
    && (forall i :: 0 <= i < |asked| - 1 ==> !faults(asked[i]))
    && (ok ==> |asked| == count)
  }

  lemma ListedNothing(faults: nat -> bool, at: nat)
    ensures Listed(faults, [], true, 0, at, at)
  {
  }

  lemma ListedNext(faults: nat -> bool, asked: seq<nat>, count: nat, from: nat, at: nat, total: nat)
    requires Listed(faults, asked, true, count, from, at)
    ensures if faults(at) then Listed(faults, asked + [at], false, total, from, at + 1)
            else Listed(faults, asked + [at], true, count + 1, from, at + 1)
  {
    assert forall i :: 0 <= i < |asked| ==> asked[i] in asked;
    assert at in asked + [at];
  }

  lemma ListedLater(faults: nat -> bool, asked: seq<nat>, ok: bool, count: nat, from: nat, to: nat, later: nat)
    requires Listed(faults, asked, ok, count, from, to) && to <= later
    ensures Listed(faults, asked, ok, count, from, later)
  {
  }

  lemma ListedAppend(faults: nat -> bool, asked: seq<nat>, count: nat, from: nat, mid: nat,
                     more: seq<nat>, ok: bool, count': nat, to: nat)
    requires Listed(faults, asked, true, count, from, mid) && Listed(faults, more, ok, count', mid, to)
    ensures Listed(faults, asked + more, ok, count + count', from, to)
  {
    assert forall i :: 0 <= i < |asked| ==> asked[i] in asked;
    assert forall l :: l in asked + more <==> l in asked || l in more;
  }

  lemma ListedCalm(faults: nat -> bool, asked: seq<nat>, ok: bool, count: nat, from: nat, to: nat)
    requires Listed(faults, asked, ok, count, from, to)
    ensures from <= to && (Calm(faults, from, to) ==> ok)
  {
  }

  lemma ListedEnds(faults: nat -> bool, asked: seq<nat>, ok: bool, actions: seq<string>, j: nat, namespaces: nat,
                   from: nat, to: nat)
    requires j <= |actions| && (ok ==> j == |actions|)
    requires Listed(faults, asked, ok, Safety.K8sCount(actions[..j], namespaces), from, to)
    ensures Listed(faults, asked, ok, Safety.K8sCount(actions, namespaces), from, to)
  {
    assert actions[..|actions|] == actions;
  }

  /** The changes called for by one action in one namespace. */
  function Round(cfg: KubernetesConfig, policy: Option<Safety.Policy>, start: Deployments, action: string,
                 namespace: string, view: View): seq<Mutation>
    requires ShufflesInRange(view.shuffle)
  {
    var listed := if Parse(action).ScaleDown? then Existing(start, namespace, view.listed) else view.listed;
    if Parse(action).Unknown? then []
    else Mutations(action, namespace,
                   Admit(policy, action, namespace, Chosen(cfg, Parse(action), listed, view.shuffle)))
  }

  lemma RoundLaw(cfg: KubernetesConfig, policy: Option<Safety.Policy>, start: Deployments, action: string,
                 namespace: string, view: View)
    requires ShufflesInRange(view.shuffle) && action in cfg.actions && namespace in cfg.namespaces
    ensures AllLawful(cfg, policy, Round(cfg, policy, start, action, namespace, view))
    ensures cfg.maxTargets > 0 ==> |Round(cfg, policy, start, action, namespace, view)| <= cfg.maxTargets
  {
    if !Parse(action).Unknown? {
      var listed := if Parse(action).ScaleDown? then Existing(start, namespace, view.listed) else view.listed;
      ChosenLaw(cfg, policy, action, namespace, listed, view.shuffle);
    }
  }

  /** What scaling down did in one namespace, as attempts. */
  lemma ScaledRound(cfg: KubernetesConfig, policy: Option<Safety.Policy>, start: Deployments, deployments: Deployments,
                    action: string, namespace: string, view: View, one: seq<Try>, calm: bool)
    requires ShufflesInRange(view.shuffle) && start.Keys == deployments.Keys
    requires action in cfg.actions && Parse(action).ScaleDown? && namespace in cfg.namespaces
    requires Of(one, namespace, ScaleTargets(cfg, policy, deployments, action, namespace, view))
    requires calm ==> Keys(one) == KeysIn(namespace, ScaleTargets(cfg, policy, deployments, action, namespace, view))
    ensures AllLawful(cfg, policy, Tried(action, one))
    ensures cfg.maxTargets > 0 ==> |Tried(action, one)| <= cfg.maxTargets
    ensures calm ==> Tried(action, one) == Round(cfg, policy, start, action, namespace, view)
  {
    ExistingKeys(start, deployments, namespace, view.listed);
    var names := ScaleTargets(cfg, policy, deployments, action, namespace, view);
    var round := Round(cfg, policy, start, action, namespace, view);
    assert round == Mutations(action, namespace, names);
    RoundLaw(cfg, policy, start, action, namespace, view);
    forall m | m in Tried(action, one)
      ensures Lawful(cfg, policy, m)
    {
      var i :| 0 <= i < |one| && m == Mutation(action, one[i].key);
      assert one[i] in one;
      var j :| 0 <= j < |names| && names[j] == one[i].key.1;
      assert round[j] == m;
    }
    if calm {
      assert forall i :: 0 <= i < |one| ==> Keys(one)[i] == one[i].key;
    }
  }

  /** One action over the first `n` namespaces. */
  ghost function Rounds(cfg: KubernetesConfig, policy: Option<Safety.Policy>, start: Deployments, action: string,
                        views: nat -> View, n: nat): seq<Mutation>
    requires n <= |cfg.namespaces| && forall i :: ShufflesInRange(views(i).shuffle)
  {
    if n == 0 then []
    else Rounds(cfg, policy, start, action, views, n - 1)
         + Round(cfg, policy, start, action, cfg.namespaces[n - 1], views(n - 1))
  }

  /** After `n` namespaces of an action: everything attempted was lawful and within bounds, and
      it was exactly what is called for unless an API call failed. */
  ghost predicate Done(cfg: KubernetesConfig, policy: Option<Safety.Policy>, start: Deployments, action: string,
                       views: nat -> View,
                       n: nat, more: seq<Mutation>, calm: bool)
    requires n <= |cfg.namespaces| && forall i :: ShufflesInRange(views(i).shuffle)
  {
    && AllLawful(cfg, policy, more)
    && (cfg.maxTargets > 0 ==> |more| <= cfg.maxTargets * n)
    && (n == 0 ==> more == [])
    && (calm ==> more == Rounds(cfg, policy, start, action, views, n))
  }

  lemma DoneNothing(cfg: KubernetesConfig, policy: Option<Safety.Policy>, start: Deployments, action: string,
                    views: nat -> View)
    requires forall i :: ShufflesInRange(views(i).shuffle)
    ensures forall calm :: Done(cfg, policy, start, action, views, 0, [], calm)
  {
  }

  lemma DoneAnyway(cfg: KubernetesConfig, policy: Option<Safety.Policy>, start: Deployments, action: string,
                   views: nat -> View, n: nat, more: seq<Mutation>)
    requires n <= |cfg.namespaces| && forall i :: ShufflesInRange(views(i).shuffle)
    requires Done(cfg, policy, start, action, views, n, more, true)
    ensures forall calm :: Done(cfg, policy, start, action, views, n, more, calm)
  {
  }

  lemma DoneUncalm(cfg: KubernetesConfig, policy: Option<Safety.Policy>, start: Deployments, action: string,
                   views: nat -> View,
                   n: nat, more: seq<Mutation>, calm: bool)
    requires n <= |cfg.namespaces| && forall i :: ShufflesInRange(views(i).shuffle)
    requires Done(cfg, policy, start, action, views, n, more, calm)
    ensures Done(cfg, policy, start, action, views, n, more, false)
  {
  }

  lemma DoneStep(cfg: KubernetesConfig, policy: Option<Safety.Policy>, start: Deployments, action: string,
                 views: nat -> View,
                 n: nat, more: seq<Mutation>, calm: bool, one: seq<Mutation>, calmer: bool)
    requires n < |cfg.namespaces| && forall i :: ShufflesInRange(views(i).shuffle)
    requires Done(cfg, policy, start, action, views, n, more, calm)
    requires AllLawful(cfg, policy, one) && (cfg.maxTargets > 0 ==> |one| <= cfg.maxTargets)
    requires calmer ==> calm && one == Round(cfg, policy, start, action, cfg.namespaces[n], views(n))
    ensures Done(cfg, policy, start, action, views, n + 1, more + one, calmer)
  {
    MulStep(cfg.maxTargets, n);
  }

  // ---- What the attempts do to the cluster ----

  /** The resources of a cluster. */
  datatype Content = Content(pods: set<Key>, services: set<Key>, deployments: Deployments)

  /** From `before` to `after`, `killed` pods and `deleted` services went, all of them attempted in
      `more`, and nothing attempted is left unless a call failed; the scale-downs tried are exactly those
      attempted, in order, and set just the deployments whose update went through to zero. */
  ghost predicate Effects(before: Content, after: Content, killed: seq<Key>, deleted: seq<Key>, tries: seq<Try>,
                          more: seq<Mutation>, calm: bool)
  {
    && Taken(before.pods, after.pods, killed, KeysOf(KillPod, more), calm)
    && Taken(before.services, after.services, deleted, KeysOf(DeleteService, more), calm)
    && Keys(tries) == KeysOf(ScaleDown, more) && (calm ==> AllUpdated(tries))
    && Scaled(before.deployments, after.deployments, tries)
  }

  ghost predicate Scaled(before: Deployments, after: Deployments, tries: seq<Try>) {
    && after.Keys == before.Keys
    && forall k :: k in before ==> after[k] == if Zeroed(tries, k) then Some(0) else before[k]
  }

  lemma ScaledAppend(before: Deployments, mid: Deployments, after: Deployments, a: seq<Try>, b: seq<Try>)
    requires Scaled(before, mid, a) && Scaled(mid, after, b)
    ensures Scaled(before, after, a + b)
  {
    assert forall k :: Zeroed(a + b, k) <==> Zeroed(a, k) || Zeroed(b, k);
    assert forall k :: k in before <==> k in before.Keys;
    assert forall k :: k in mid <==> k in mid.Keys;
  }

  lemma ScaledOne(before: Deployments, t: Try)
    requires t.key in before
    ensures Scaled(before, if t.updated then before[t.key := Some(0)] else before, [t])
  {
    assert forall k :: Zeroed([t], k) <==> t == Try(k, true);
  }

  lemma ScaledNothing(deployments: Deployments)
    ensures Scaled(deployments, deployments, [])
  {
  }

  lemma EffectsNothing(c: Content)
    ensures forall calm :: Effects(c, c, [], [], [], [], calm)
  {
  }

  lemma EffectsOfKills(before: Content, after: Content, action: string, killed: seq<Key>, more: seq<Mutation>,
                       calm: bool)
    requires Parse(action).KillPod? && OfAction(action, more) && after == before.(pods := after.pods)
    requires Taken(before.pods, after.pods, killed, KeysOf(KillPod, more), calm)
    ensures Effects(before, after, killed, [], [], more, calm)
  {
    KeysOfAction(DeleteService, action, more);
    KeysOfAction(ScaleDown, action, more);
  }

  lemma EffectsOfDeletes(before: Content, after: Content, action: string, deleted: seq<Key>, more: seq<Mutation>,
                         calm: bool)
    requires Parse(action).DeleteService? && OfAction(action, more) && after == before.(services := after.services)
    requires Taken(before.services, after.services, deleted, KeysOf(DeleteService, more), calm)
    ensures Effects(before, after, [], deleted, [], more, calm)
  {
    KeysOfAction(KillPod, action, more);
    KeysOfAction(ScaleDown, action, more);
  }

  lemma EffectsOfScaling(before: Content, after: Content, action: string, tries: seq<Try>, more: seq<Mutation>,
                         calm: bool)
    requires Parse(action).ScaleDown? && OfAction(action, more) && after == before.(deployments := after.deployments)
    requires Keys(tries) == KeysOf(ScaleDown, more) && (calm ==> AllUpdated(tries))
    requires Scaled(before.deployments, after.deployments, tries)
    ensures Effects(before, after, [], [], tries, more, calm)
  {
    KeysOfAction(KillPod, action, more);
    KeysOfAction(DeleteService, action, more);
  }

  lemma TriedOf(action: string, tries: seq<Try>)
    requires Parse(action).ScaleDown?
    ensures OfAction(action, Tried(action, tries)) && KeysOf(ScaleDown, Tried(action, tries)) == Keys(tries)
  {
    KeysOfAction(ScaleDown, action, Tried(action, tries));
  }

  lemma KeysNone()
    ensures Keys([]) == []
  {
  }

  lemma KeysAppend(a: seq<Try>, b: seq<Try>)
    ensures Keys(a + b) == Keys(a) + Keys(b)
  {
  }

  lemma EffectsAppend(before: Content, mid: Content, after: Content,
                      killed: seq<Key>, deleted: seq<Key>, tries: seq<Try>, more: seq<Mutation>, calm: bool,
                      killed': seq<Key>, deleted': seq<Key>, tries': seq<Try>, more': seq<Mutation>, calm': bool,
                          calmer: bool)
    requires Effects(before, mid, killed, deleted, tries, more, calm)
    requires Effects(mid, after, killed', deleted', tries', more', calm')
    requires calmer ==> calm && calm'
    ensures Effects(before, after, killed + killed', deleted + deleted', tries + tries', more + more', calmer)
  {
    hide Taken, KeysOf, Keys, AllUpdated, Scaled;
    KeysOfAppend(KillPod, more, more');
    KeysOfAppend(DeleteService, more, more');
    KeysOfAppend(ScaleDown, more, more');
    TakenAppend(before.pods, mid.pods, after.pods, killed, KeysOf(KillPod, more), calm, killed',
                KeysOf(KillPod, more'), calm', calmer);
    TakenAppend(before.services, mid.services, after.services, deleted, KeysOf(DeleteService, more), calm,
                deleted', KeysOf(DeleteService, more'), calm', calmer);
    KeysAppend(tries, tries');
    UpdatedAppend(tries, tries');
    ScaledAppend(before.deployments, mid.deployments, after.deployments, tries, tries');
  }

  /** Between two contents nothing was added, and whatever is gone or changed was lawful to touch. */
  ghost predicate OnlyLawful(cfg: KubernetesConfig, policy: Option<Safety.Policy>, before: Content, after: Content) {
    && after.pods <= before.pods && after.services <= before.services
    && after.deployments.Keys == before.deployments.Keys
    && (forall k :: k in before.pods && k !in after.pods ==> Lawful(cfg, policy, Mutation(Name(KillPod), k)))
    && (forall k :: k in before.services && k !in after.services ==>
        Lawful(cfg, policy, Mutation(Name(DeleteService), k)))
    && (forall k :: k in before.deployments && after.deployments[k] != before.deployments[k] ==>
          Lawful(cfg, policy, Mutation(Name(ScaleDown), k)) && after.deployments[k] == Some(0))
  }

  lemma EffectsLawful(cfg: KubernetesConfig, policy: Option<Safety.Policy>, before: Content, after: Content,
                      killed: seq<Key>, deleted: seq<Key>, tries: seq<Try>, more: seq<Mutation>, calm: bool)
    requires Effects(before, after, killed, deleted, tries, more, calm) && AllLawful(cfg, policy, more)
    ensures OnlyLawful(cfg, policy, before, after)
  {
    hide KeysOf, Lawful, Parse, Name;
    TakenWithin(before.pods, after.pods, killed, KeysOf(KillPod, more), calm);
    TakenWithin(before.services, after.services, deleted, KeysOf(DeleteService, more), calm);
    forall k | k in KeysOf(KillPod, more)
      ensures Lawful(cfg, policy, Mutation(Name(KillPod), k))
    {
      KeysOfFrom(KillPod, more, k);
    }
    forall k | k in KeysOf(DeleteService, more)
      ensures Lawful(cfg, policy, Mutation(Name(DeleteService), k))
    {
      KeysOfFrom(DeleteService, more, k);
    }
    forall k | Zeroed(tries, k)
      ensures Lawful(cfg, policy, Mutation(Name(ScaleDown), k))
    {
      var i :| 0 <= i < |tries| && tries[i] == Try(k, true);
      assert Keys(tries)[i] == k;
      KeysOfFrom(ScaleDown, more, k);
    }
  }

  // ---- All actions ----

  /** The first `n` actions, each over every namespace. */
  ghost function Plan(cfg: KubernetesConfig, policy: Option<Safety.Policy>, start: Deployments,
                      outside: nat -> nat -> View, n: nat): seq<Mutation>
    requires n <= |cfg.actions| && forall j, i :: ShufflesInRange(outside(j)(i).shuffle)
  {
    if n == 0 then []
    else Plan(cfg, policy, start, outside, n - 1)
         + Rounds(cfg, policy, start, cfg.actions[n - 1], outside(n - 1), |cfg.namespaces|)
  }

  /** The same after `n` actions of a run. */
  ghost predicate DoneActions(cfg: KubernetesConfig, policy: Option<Safety.Policy>, start: Deployments,
                              outside: nat -> nat -> View,
                              n: nat, more: seq<Mutation>, ok: bool, calm: bool)
    requires n <= |cfg.actions| && forall j, i :: ShufflesInRange(outside(j)(i).shuffle)
  {
    && AllLawful(cfg, policy, more)
    && (cfg.maxTargets > 0 ==> |more| <= cfg.maxTargets * Safety.K8sCount(cfg.actions[..n], |cfg.namespaces|))
    && (Safety.K8sCount(cfg.actions[..n], |cfg.namespaces|) == 0 ==> more == [])
    && (calm ==> ok && more == Plan(cfg, policy, start, outside, n))
  }

  lemma DoneActionsStep(cfg: KubernetesConfig, policy: Option<Safety.Policy>, start: Deployments,
                        outside: nat -> nat -> View,
                        j: nat, more: seq<Mutation>, calm: bool, n: nat, one: seq<Mutation>, ok: bool, now: bool,
                            calmer: bool)
    requires j < |cfg.actions| && n <= |cfg.namespaces| && forall j, i :: ShufflesInRange(outside(j)(i).shuffle)
    requires DoneActions(cfg, policy, start, outside, j, more, true, calm)
    requires Parse(cfg.actions[j]).Unknown? ==> one == []
    requires Done(cfg, policy, start, cfg.actions[j], outside(j), n, one, now)
    requires (now ==> ok && n == |cfg.namespaces|) && (calmer ==> calm && now)
    ensures DoneActions(cfg, policy, start, outside, j + 1, more + one, ok, calmer)
  {
    hide Round, Lawful;
    ParseKnown(cfg.actions[j]);
    assert cfg.actions[..j + 1][..j] == cfg.actions[..j];
    var weight := Safety.ActionWeight(cfg.actions[j], |cfg.namespaces|);
    var before := Safety.K8sCount(cfg.actions[..j], |cfg.namespaces|);
    if cfg.maxTargets > 0 {
      MulMonotone(cfg.maxTargets, n, |cfg.namespaces|);
      assert cfg.maxTargets * (before + weight) == cfg.maxTargets * before + cfg.maxTargets * weight;
    }
  }

  lemma {:induction false} UnknownDoesNothing(cfg: KubernetesConfig, policy: Option<Safety.Policy>, start: Deployments,
                                              action: string, views: nat -> View, n: nat)
    requires n <= |cfg.namespaces| && Parse(action).Unknown? && forall i :: ShufflesInRange(views(i).shuffle)
    ensures Rounds(cfg, policy, start, action, views, n) == []
  {
    if n > 0 {
      UnknownDoesNothing(cfg, policy, start, action, views, n - 1);
    }
  }

  lemma UnknownDone(cfg: KubernetesConfig, policy: Option<Safety.Policy>, start: Deployments, action: string,
                    views: nat -> View)
    requires Parse(action).Unknown? && forall i :: ShufflesInRange(views(i).shuffle)
    ensures forall calm :: Done(cfg, policy, start, action, views, |cfg.namespaces|, [], calm)
  {
    UnknownDoesNothing(cfg, policy, start, action, views, |cfg.namespaces|);
  }

  /** How many of the actions scale down. */
  function ScaleDowns(actions: seq<string>): nat {
    if actions == [] then 0
    else ScaleDowns(actions[..|actions| - 1]) + if Parse(actions[|actions| - 1]).ScaleDown? then 1 else 0
  }

  lemma {:induction false} ScaleDownsPrefix(actions: seq<string>, j: nat)
    requires j <= |actions|
    ensures ScaleDowns(actions[..j]) <= ScaleDowns(actions)
  {
    if j == |actions| {
      assert actions[..j] == actions;
    } else {
      ScaleDownsPrefix(actions[..|actions| - 1], j);
      assert actions[..|actions| - 1][..j] == actions[..j];
    }
  }

  lemma {:induction false} CountPrefix(actions: seq<string>, namespaces: nat, j: nat)
    requires j <= |actions|
    ensures Safety.K8sCount(actions[..j], namespaces) <= Safety.K8sCount(actions, namespaces)
  {
    if j == |actions| {
      assert actions[..j] == actions;
    } else {
      CountPrefix(actions[..|actions| - 1], namespaces, j);
      assert actions[..|actions| - 1][..j] == actions[..j];
    }
  }

  lemma CountStart(actions: seq<string>, namespaces: nat)
    ensures ScaleDowns(actions[..0]) == 0 && Safety.K8sCount(actions[..0], namespaces) == 0
  {
  }

  lemma CountStep(actions: seq<string>, j: nat, namespaces: nat)
    requires j < |actions|
    ensures Safety.K8sCount(actions[..j + 1], namespaces)
         == Safety.K8sCount(actions[..j], namespaces) + Safety.ActionWeight(actions[j], namespaces)
    ensures ScaleDowns(actions[..j + 1])
         == ScaleDowns(actions[..j]) + if Parse(actions[j]).ScaleDown? then 1 else 0
  {
    assert actions[..j + 1][..j] == actions[..j];
  }

  lemma MulMonotone(x: int, a: int, b: int)
    requires 0 <= x && a <= b
    ensures x * a <= x * b
  {
  }

  lemma RunStarts(cfg: KubernetesConfig, policy: Option<Safety.Policy>, start: Deployments, outside: nat -> nat -> View)
    requires forall j, i :: ShufflesInRange(outside(j)(i).shuffle)
    ensures forall calm :: DoneActions(cfg, policy, start, outside, 0, [], true, calm)
    ensures OncePerDeployment([])
  {
  }

  lemma RunEnds(cfg: KubernetesConfig, policy: Option<Safety.Policy>, start: Deployments, outside: nat -> nat -> View,
                j: nat, more: seq<Mutation>, ok: bool, calm: bool)
    requires j <= |cfg.actions| && forall j, i :: ShufflesInRange(outside(j)(i).shuffle)
    requires DoneActions(cfg, policy, start, outside, j, more, ok, calm) && (ok ==> j == |cfg.actions|)
    ensures AllLawful(cfg, policy, more)
    ensures cfg.maxTargets > 0 ==> |more| <= cfg.maxTargets * Safety.K8sCount(cfg.actions, |cfg.namespaces|)
    ensures Safety.K8sCount(cfg.actions, |cfg.namespaces|) == 0 ==> more == []
    ensures calm ==> ok && more == Plan(cfg, policy, start, outside, |cfg.actions|)
  {
    CountPrefix(cfg.actions, |cfg.namespaces|, j);
    if cfg.maxTargets > 0 {
      MulMonotone(cfg.maxTargets, Safety.K8sCount(cfg.actions[..j], |cfg.namespaces|),
                  Safety.K8sCount(cfg.actions, |cfg.namespaces|));
    }
  }

  // ---- The log of a run ----

  /** What one run of the experiment did, or several in a row: the outcome, the list calls by their numbers, what
      was attempted and which attempts took effect, and the cluster and the number of its calls at both ends. */
  datatype Log = Log(ok: bool, asked: seq<nat>, more: seq<Mutation>, killed: seq<Key>, deleted: seq<Key>,
                     tries: seq<Try>, from: nat, to: nat, before: Content, after: Content)

  ghost predicate Quiet(faults: nat -> bool, log: Log) {
    Calm(faults, log.from, log.to)
  }

  /** What changed is what was attempted. */
  ghost predicate Matched(faults: nat -> bool, log: Log) {
    && log.from <= log.to
    && Effects(log.before, log.after, log.killed, log.deleted, log.tries, log.more, Quiet(faults, log))
  }

  /** What a run keeps to. All it attempts is lawful, within the destructive count times the target limit, and
      what is called for unless a call failed. What changed is what was attempted. It succeeds exactly if no list
      call failed, upon which there was one for each namespace and known action. */
  ghost predicate Conducted(cfg: KubernetesConfig, policy: Option<Safety.Policy>, start: Deployments,
                            outside: nat -> nat -> View, faults: nat -> bool, log: Log)
    requires forall j, i :: ShufflesInRange(outside(j)(i).shuffle)
  {
    var count := Safety.K8sCount(cfg.actions, |cfg.namespaces|);
    && AllLawful(cfg, policy, log.more)
    && (cfg.maxTargets > 0 ==> |log.more| <= cfg.maxTargets * count)
    && (count == 0 ==> log.more == [])
    && (Quiet(faults, log) ==> log.more == Plan(cfg, policy, start, outside, |cfg.actions|))
    && Listed(faults, log.asked, log.ok, count, log.from, log.to)
    && Matched(faults, log)
  }

  lemma ConductedLawful(cfg: KubernetesConfig, policy: Option<Safety.Policy>, start: Deployments,
                        outside: nat -> nat -> View, faults: nat -> bool, log: Log)
    requires forall j, i :: ShufflesInRange(outside(j)(i).shuffle)
    requires Conducted(cfg, policy, start, outside, faults, log)
    ensures OnlyLawful(cfg, policy, log.before, log.after) && (Quiet(faults, log) ==> log.ok)
  {
    hide Effects, AllLawful, OnlyLawful, Safety.K8sCount, Plan, Listed, Calm;
    EffectsLawful(cfg, policy, log.before, log.after, log.killed, log.deleted, log.tries, log.more,
                  Quiet(faults, log));
    ListedCalm(faults, log.asked, log.ok, Safety.K8sCount(cfg.actions, |cfg.namespaces|), log.from, log.to);
  }

  // ---- The same by the names of the actions ----

  /** Only pods that "kill_pod" was to kill are gone, only services that "delete_service" was to delete, and only
      deployments that "scale_down" was to scale have changed, to zero; all of them were to be touched; and with no
      failed call all that were to go are gone. */
  ghost predicate DoneByName(cfg: KubernetesConfig, policy: Option<Safety.Policy>, quiet: bool, log: Log) {
    var before, after := log.before, log.after;
    && after.pods <= before.pods && after.services <= before.services
    && after.deployments.Keys == before.deployments.Keys
    && (forall m :: m in log.more ==> m.action in {"kill_pod", "scale_down", "delete_service"})
    && (forall k :: k in before.pods && k !in after.pods ==>
                      Mutation("kill_pod", k) in log.more && Touchable(cfg, policy, "kill_pod", k))
    && (forall k :: k in before.services && k !in after.services ==>
                      Mutation("delete_service", k) in log.more && Touchable(cfg, policy, "delete_service", k))
    && (forall k :: k in before.deployments && after.deployments[k] != before.deployments[k] ==>
                      && after.deployments[k] == Some(0)
                      && Mutation("scale_down", k) in log.more && Touchable(cfg, policy, "scale_down", k))
    && (quiet ==>
          && (forall k :: Mutation("kill_pod", k) in log.more ==> k !in after.pods)
          && (forall k :: Mutation("delete_service", k) in log.more ==> k !in after.services)
          && (forall k :: Mutation("scale_down", k) in log.more && k in before.deployments ==>
                            after.deployments[k] == Some(0)))
  }

  lemma EffectsByName(cfg: KubernetesConfig, policy: Option<Safety.Policy>, quiet: bool, log: Log)
    requires AllLawful(cfg, policy, log.more)
    requires Effects(log.before, log.after, log.killed, log.deleted, log.tries, log.more, quiet)
    ensures DoneByName(cfg, policy, quiet, log)
  {
    hide Lawful, Touchable, KeysOf;
    var pods, services := KeysOf(KillPod, log.more), KeysOf(DeleteService, log.more);
    NamesMean();
    forall m | m in log.more
      ensures m.action in {"kill_pod", "scale_down", "delete_service"} && Touchable(cfg, policy, m.action, m.key)
    {
      LawfulMeans(cfg, policy, m);
    }
    TakenByName(KillPod, log.before.pods, log.after.pods, log.killed, log.more, quiet);
    TakenByName(DeleteService, log.before.services, log.after.services, log.deleted, log.more, quiet);
    ScaledByName(log.before.deployments, log.after.deployments, log.tries, log.more, quiet);
  }

  lemma TakenByName(kind: Kind, before: set<Key>, after: set<Key>, gone: seq<Key>, more: seq<Mutation>, quiet: bool)
    requires !kind.Unknown? && Taken(before, after, gone, KeysOf(kind, more), quiet)
    ensures after <= before
    ensures forall k :: k in before && k !in after ==> Mutation(Name(kind), k) in more
    ensures quiet ==> forall k :: Mutation(Name(kind), k) in more ==> k !in after
  {
    hide KeysOf, Name;
    forall k
      ensures k in KeysOf(kind, more) <==> Mutation(Name(kind), k) in more
    {
      KeysOfFrom(kind, more, k);
    }
  }

  lemma ScaledByName(before: Deployments, after: Deployments, tries: seq<Try>, more: seq<Mutation>, quiet: bool)
    requires Scaled(before, after, tries) && Keys(tries) == KeysOf(ScaleDown, more) && (quiet ==> AllUpdated(tries))
    ensures forall k :: k in before && after[k] != before[k] ==>
                          after[k] == Some(0) && Mutation(Name(ScaleDown), k) in more
    ensures quiet ==> forall k :: Mutation(Name(ScaleDown), k) in more && k in before ==> after[k] == Some(0)
  {
    hide KeysOf, Name;
    var keys := Keys(tries);
    forall k
      ensures k in KeysOf(ScaleDown, more) <==> Mutation(Name(ScaleDown), k) in more
    {
      KeysOfFrom(ScaleDown, more, k);
    }
    forall k | Zeroed(tries, k)
      ensures k in keys
    {
      var i :| 0 <= i < |tries| && tries[i] == Try(k, true);
      assert keys[i] == k;
    }
    forall k | quiet && k in keys
      ensures Zeroed(tries, k)
    {
      var i :| 0 <= i < |keys| && keys[i] == k;
      assert tries[i] == Try(k, true);
    }
  }
}
