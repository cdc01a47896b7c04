/** The scale-down records of pkg/k8s: what they remember over any history of scale-downs, and
    what replaying them does. */
module Scaling {
  import opened Config

  /** Namespace and name. */
  type Key = (string, string)

  /** Replica counts; a deployment may leave its count unset, which means one. */
  type Deployments = map<Key, Option<int>>

  function Effective(replicas: Option<int>): int {
    if replicas.Some? then replicas.value else 1
  }

  datatype DepRef = DepRef(key: Key, orig: int)

  /** One recorded scale-down; `updated` says whether the update to zero went through. */
  datatype Try = Try(key: Key, updated: bool)

  ghost predicate Within(tries: seq<Try>, start: Deployments) {
    forall t :: t in tries ==> t.key in start
  }

  /** The cluster after a history of scale-downs. */
  function Replay(start: Deployments, tries: seq<Try>): Deployments {
    if tries == [] then start
    else
      var before, t := Replay(start, tries[..|tries| - 1]), tries[|tries| - 1];
      if t.updated then before[t.key := Some(0)] else before
  }

  /** Each record remembers the count its deployment had when it was listed. */
  function Records(start: Deployments, tries: seq<Try>): seq<DepRef>
    requires forall t :: t in tries ==> t.key in start
    ensures |Records(start, tries)| == |tries|
  {
    if tries == [] then []
    else
      var init, t := tries[..|tries| - 1], tries[|tries| - 1];
      assert t in tries && forall u :: u in init ==> u in tries;
      var before := Replay(start, init);
      ReplayKeys(start, init);
      Records(start, init) + [DepRef(t.key, Effective(before[t.key]))]
  }

  /** Rollback: the records in the order they were made. */
  function Restore(m: Deployments, deps: seq<DepRef>): Deployments {
    if deps == [] then m
    else Restore(m, deps[..|deps| - 1])[deps[|deps| - 1].key := Some(deps[|deps| - 1].orig)]
  }

  /** The deployments on record exist. */
  ghost predicate Recorded(deps: seq<DepRef>, deployments: Deployments) {
    forall i :: 0 <= i < |deps| ==> deps[i].key in deployments
  }

  /** The records whose restoring went through. */
  function Through(deps: seq<DepRef>, went: seq<bool>): seq<DepRef>
    requires |deps| == |went|
  {
    if deps == [] then []
    else
      var last := |deps| - 1;
      Through(deps[..last], went[..last]) + if went[last] then [deps[last]] else []
  }

  lemma {:induction false} ThroughAll(deps: seq<DepRef>, went: seq<bool>)
    requires |deps| == |went| && forall i :: 0 <= i < |went| ==> went[i]
    ensures Through(deps, went) == deps
  {
    if deps != [] {
      ThroughAll(deps[..|deps| - 1], went[..|deps| - 1]);
    }
  }

  lemma RestoreNothing(m: Deployments)
    ensures Restore(m, Through([], [])) == m
  {
  }

  lemma RestoreStep(m: Deployments, deps: seq<DepRef>, i: nat, went: seq<bool>, done: bool)
    requires i < |deps| && |went| == i
    ensures Restore(m, Through(deps[..i + 1], went + [done]))
         == if done then Restore(m, Through(deps[..i], went))[deps[i].key := Some(deps[i].orig)]
            else Restore(m, Through(deps[..i], went))
  {
    assert deps[..i + 1][..i] == deps[..i] && (went + [done])[..i] == went;
    var before := Through(deps[..i], went);
    assert Through(deps[..i + 1], went + [done]) == before + if done then [deps[i]] else [];
    assert (before + [deps[i]])[..|before|] == before && before + [] == before;
  }

  lemma {:induction false} ReplayKeys(start: Deployments, tries: seq<Try>)
    requires forall t :: t in tries ==> t.key in start
    ensures Replay(start, tries).Keys == start.Keys
  {
    if tries != [] {
      assert tries[|tries| - 1] in tries;
      assert forall u :: u in tries[..|tries| - 1] ==> u in tries;
      ReplayKeys(start, tries[..|tries| - 1]);
    }
  }

  /** The deployment has been scaled to zero at least once. */
  predicate Zeroed(tries: seq<Try>, key: Key) {
    Try(key, true) in tries
  }

  lemma {:induction false} ReplayValue(start: Deployments, tries: seq<Try>, key: Key)
    requires Within(tries, start) && key in start
    ensures key in Replay(start, tries)
    ensures Replay(start, tries)[key] == if Zeroed(tries, key) then Some(0) else start[key]
  {
    if tries != [] {
      var init, t := tries[..|tries| - 1], tries[|tries| - 1];
      assert forall u :: u in tries <==> u in init || u == t;
      ReplayValue(start, init, key);
    }
  }

  /** The position of the last record of a deployment, or -1. */
  function LastTry(tries: seq<Try>, key: Key): (l: int)
    ensures -1 <= l < |tries|
    ensures l >= 0 ==> tries[l].key == key
    ensures forall i :: l < i < |tries| ==> tries[i].key != key
  {
    if tries == [] then -1
    else if tries[|tries| - 1].key == key then |tries| - 1
    else LastTry(tries[..|tries| - 1], key)
  }

  lemma {:induction false} RecordAt(start: Deployments, tries: seq<Try>, i: nat)
    requires Within(tries, start) && i < |tries|
    ensures Records(start, tries)[i]
         == DepRef(tries[i].key, if Zeroed(tries[..i], tries[i].key) then 0 else Effective(start[tries[i].key]))
  {
    var init := tries[..|tries| - 1];
    assert tries[i] in tries;
    assert forall u :: u in init ==> u in tries;
    if i == |tries| - 1 {
      ReplayValue(start, init, tries[i].key);
    } else {
      RecordAt(start, init, i);
      assert init[..i] == tries[..i];
    }
  }

  lemma {:induction false} RestoreLast(m: Deployments, deps: seq<DepRef>, l: nat)
    requires l < |deps| && forall i :: l < i < |deps| ==> deps[i].key != deps[l].key
    ensures deps[l].key in Restore(m, deps) && Restore(m, deps)[deps[l].key] == Some(deps[l].orig)
  {
    if l < |deps| - 1 {
      var init := deps[..|deps| - 1];
      RestoreLast(m, init, l);
    }
  }

  lemma {:induction false} RestoreAbsent(m: Deployments, deps: seq<DepRef>, key: Key)
    requires key in m && forall d :: d in deps ==> d.key != key
    ensures key in Restore(m, deps) && Restore(m, deps)[key] == m[key]
  {
    if deps != [] {
      assert deps[|deps| - 1] in deps;
      assert forall d :: d in deps[..|deps| - 1] ==> d in deps;
      RestoreAbsent(m, deps[..|deps| - 1], key);
    }
  }

  /** What a deployment has after any history and a complete rollback. */
  function Final(start: Deployments, tries: seq<Try>): Deployments
    requires forall t :: t in tries ==> t.key in start
  {
    Restore(Replay(start, tries), Records(start, tries))
  }

  /** Rollback leaves each recorded deployment at the value of its last record, and every other
      one as it was. */
  lemma RollbackValue(start: Deployments, tries: seq<Try>, key: Key)
    requires Within(tries, start) && key in start
    ensures key in Final(start, tries)
    ensures var l := LastTry(tries, key);
            Final(start, tries)[key] ==
            if l < 0 then start[key]
            else Some(if Zeroed(tries[..l], key) then 0 else if start[key].Some? then start[key].value else 1)
  {
    var l, deps := LastTry(tries, key), Records(start, tries);
    forall i | 0 <= i < |tries|
      ensures deps[i].key == tries[i].key
    {
      RecordAt(start, tries, i);
    }
    if l < 0 {
      ReplayValue(start, tries, key);
      RestoreAbsent(Replay(start, tries), deps, key);
    } else {
      RecordAt(start, tries, l);
      RestoreLast(Replay(start, tries), deps, l);
    }
  }

  /** Rollback gives a deployment its original count back exactly when that count is zero anyway,
      or when it had not been scaled to zero before it was last recorded. */
  lemma RestoredIff(start: Deployments, tries: seq<Try>, key: Key)
    requires Within(tries, start) && key in start
    ensures key in Final(start, tries)
    ensures Effective(Final(start, tries)[key]) == Effective(start[key])
        <==> Effective(start[key]) == 0
             || LastTry(tries, key) < 0
             || !Zeroed(tries[..LastTry(tries, key)], key)
  {
    RollbackValue(start, tries, key);
  }

  ghost predicate OncePerDeployment(tries: seq<Try>) {
    forall i, j :: 0 <= i < |tries| && 0 <= j < |tries| && tries[i].key == tries[j].key ==> i == j
  }

  /** Recording each deployment at most once is enough, even where updates failed. */
  lemma OnceRestoresAll(start: Deployments, tries: seq<Try>, key: Key)
    requires Within(tries, start) && OncePerDeployment(tries) && key in start
    ensures key in Final(start, tries) && Effective(Final(start, tries)[key]) == Effective(start[key])
  {
    RestoredIff(start, tries, key);
  }
}
