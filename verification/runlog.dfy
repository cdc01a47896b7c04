/** Runs of the Kubernetes experiment one after another: their logs, and what they add up to. */
module RunLog {
  import opened Config
  import opened Estimate
  import opened K8s
  import opened RunPlan
  import opened Scaling
  import opened Scenarios
  import opened Sums
  import opened Targets
  import Safety

  /** The outcome of an attempt that ran. */
  function Answer(log: Log): Attempt {
    if log.ok then Succeeded else Failed
  }

  lemma AnswerLaw(cfg: KubernetesConfig, policy: Option<Safety.Policy>, start: Deployments,
                  outside: nat -> nat -> View, faults: nat -> bool, log: Log)
    requires forall j, i :: ShufflesInRange(outside(j)(i).shuffle)
    requires Conducted(cfg, policy, start, outside, faults, log)
    ensures Answer(log) == if forall l :: l in log.asked ==> !faults(l) then Succeeded else Failed
  {
    hide Effects, AllLawful, Safety.K8sCount, Plan, Calm;
  }

  // ---- Series ----

  /** Where a series begins: the counts at the start of the program, the outside that each run will meet, and the
      cluster and the experiment's books as they are. */
  datatype Context = Context(start: Deployments, outside: nat -> nat -> nat -> View, first: Log,
                             attempts: seq<Mutation>, lists: seq<nat>, killedPods: seq<Key>, tries: seq<Try>)

  ghost predicate Shuffling(outside: nat -> nat -> nat -> View) {
    forall r, j, i :: ShufflesInRange(outside(r)(j)(i).shuffle)
  }

  ghost function Here(chaos: ChaosK8s, start: Deployments, outside: nat -> nat -> nat -> View): Context
    reads chaos, chaos.cluster
  {
    Context(start, outside, Idle(chaos.cluster.issued, chaos.cluster.Contents()), chaos.attempts,
            chaos.cluster.lists, chaos.killedPods, chaos.tries)
  }

  function Idle(at: nat, c: Content): Log {
    Log(true, [], [], [], [], [], at, at, c, c)
  }

  /** One after the other, as one. */
  function Both(a: Log, b: Log): Log {
    Log(a.ok && b.ok, a.asked + b.asked, a.more + b.more, a.killed + b.killed, a.deleted + b.deleted,
        a.tries + b.tries, a.from, b.to, a.before, b.after)
  }

  function Total(first: Log, logs: seq<Log>): Log {
    if logs == [] then first else Both(Total(first, logs[..|logs| - 1]), logs[|logs| - 1])
  }

  lemma TotalNext(first: Log, logs: seq<Log>, log: Log)
    ensures Total(first, []) == first && Total(first, logs + [log]) == Both(Total(first, logs), log)
  {
    assert (logs + [log])[..|logs|] == logs;
  }

  /** Each log is that of a run, which began where the one before had ended. */
  ghost predicate Series(cfg: KubernetesConfig, policy: Option<Safety.Policy>, ctx: Context, faults: nat -> bool,
                         logs: seq<Log>)
    requires Shuffling(ctx.outside)
  {
    forall r :: 0 <= r < |logs| ==>
                  && logs[r].from == Total(ctx.first, logs[..r]).to
                  && logs[r].before == Total(ctx.first, logs[..r]).after
                  && Conducted(cfg, policy, ctx.start, ctx.outside(r), faults, logs[r])
  }

  /** The cluster and the experiment's books after a series. */
  ghost predicate Stands(chaos: ChaosK8s, ctx: Context, logs: seq<Log>)
    requires Shuffling(ctx.outside)
    reads chaos, chaos.cluster
  {
    var all := Total(ctx.first, logs);
    && all.to == chaos.cluster.issued && all.after == chaos.cluster.Contents()
    && chaos.attempts == ctx.attempts + all.more && chaos.cluster.lists == ctx.lists + all.asked
    && chaos.killedPods == ctx.killedPods + all.killed && chaos.tries == ctx.tries + all.tries
    && Accounted(ctx.start, chaos.tries, chaos.cluster.deployments, chaos.scaledDownDeps)
    && Series(chaos.cfg, chaos.policy, ctx, chaos.cluster.faults, logs)
  }

  lemma FreshAccounted(start: Deployments)
    ensures Accounted(start, [], start, [])
  {
  }

  lemma StandsHere(chaos: ChaosK8s, start: Deployments, outside: nat -> nat -> nat -> View)
    requires Shuffling(outside)
    requires Accounted(start, chaos.tries, chaos.cluster.deployments, chaos.scaledDownDeps)
    ensures Stands(chaos, Here(chaos, start, outside), [])
  {
  }

  lemma SeriesNext(cfg: KubernetesConfig, policy: Option<Safety.Policy>, ctx: Context, faults: nat -> bool,
                   logs: seq<Log>, log: Log)
    requires Shuffling(ctx.outside) && Series(cfg, policy, ctx, faults, logs)
    requires log.from == Total(ctx.first, logs).to && log.before == Total(ctx.first, logs).after
    requires Conducted(cfg, policy, ctx.start, ctx.outside(|logs|), faults, log)
    ensures Series(cfg, policy, ctx, faults, logs + [log])
  {
    hide Total, Conducted;
    forall r | 0 <= r <= |logs|
      ensures (logs + [log])[..r] == logs[..r]
    {
    }
    assert logs[..|logs|] == logs;
  }

  /** One more run. */
  method RunOnce(chaos: ChaosK8s, outside: nat -> nat -> nat -> View, runs: nat, ghost ctx: Context,
                 ghost logs: seq<Log>)
    returns (ok: bool, ghost log: Log)
    requires Shuffling(outside) && ctx.outside == outside && runs == |logs| && Stands(chaos, ctx, logs)
    modifies chaos, chaos.cluster
    ensures Stands(chaos, ctx, logs + [log]) && ok == log.ok
    ensures chaos.cluster.issued >= old(chaos.cluster.issued)
  {
    hide Accounted, Conducted, Calm, OnlyLawful, Series, ShufflesInRange, Total;
    ghost var all := Total(ctx.first, logs);
    ok, log := chaos.Run(outside(runs), ctx.start);
    TotalNext(ctx.first, logs, log);
    SeriesNext(chaos.cfg, chaos.policy, ctx, chaos.cluster.faults, logs, log);
    ConcatAssoc(ctx.attempts, all.more, log.more);
    ConcatAssoc(ctx.lists, all.asked, log.asked);
    ConcatAssoc(ctx.killedPods, all.killed, log.killed);
    ConcatAssoc(ctx.tries, all.tries, log.tries);
  }

  // ---- What a series adds up to ----

  ghost predicate AllOk(logs: seq<Log>) {
    forall r :: 0 <= r < |logs| ==> logs[r].ok
  }

  lemma AllOkNext(logs: seq<Log>, log: Log)
    requires AllOk(logs) && log.ok
    ensures AllOk(logs + [log])
  {
  }

  /** No more than so many runs may attempt. */
  ghost predicate AsBounded(cfg: KubernetesConfig, more: seq<Mutation>, runs: nat) {
    && (cfg.maxTargets > 0 ==> |more| <= (cfg.maxTargets * WholeCount(cfg)) * runs)
    && (WholeCount(cfg) == 0 || runs == 0 ==> more == [])
  }

  lemma BoundedNext(cfg: KubernetesConfig, more: seq<Mutation>, runs: nat, one: seq<Mutation>)
    requires AsBounded(cfg, more, runs)
    requires cfg.maxTargets > 0 ==> |one| <= cfg.maxTargets * WholeCount(cfg)
    requires WholeCount(cfg) == 0 ==> one == []
    ensures AsBounded(cfg, more + one, runs + 1)
  {
    hide Safety.K8sCount;
    MulStep(cfg.maxTargets * WholeCount(cfg), runs);
  }

  /** A whole series: only lawful attempts, as bounded as so many runs, changing just what was attempted; and it
      goes through, as called for, if no call failed. */
  ghost predicate Ledger(cfg: KubernetesConfig, policy: Option<Safety.Policy>, ctx: Context, faults: nat -> bool,
                         logs: seq<Log>)
    requires Shuffling(ctx.outside)
  {
    var all := Total(ctx.first, logs);
    && AllLawful(cfg, policy, all.more)
    && AsBounded(cfg, all.more, |logs|)
    && all.from == ctx.first.from && all.before == ctx.first.before && Matched(faults, all)
    && (Quiet(faults, all) ==>
          && all.more == Repeated(cfg, policy, ctx.start, ctx.outside, |logs|)
          && AllOk(logs))
  }

  lemma LedgerNone(cfg: KubernetesConfig, policy: Option<Safety.Policy>, ctx: Context, faults: nat -> bool)
    requires Shuffling(ctx.outside) && ctx.first == Idle(ctx.first.from, ctx.first.before)
    ensures Ledger(cfg, policy, ctx, faults, [])
  {
    EffectsNothing(ctx.first.before);
  }

  lemma LawfulBoth(cfg: KubernetesConfig, policy: Option<Safety.Policy>, a: seq<Mutation>, b: seq<Mutation>)
    requires AllLawful(cfg, policy, a) && AllLawful(cfg, policy, b)
    ensures AllLawful(cfg, policy, a + b)
  {
  }

  lemma MatchedBoth(faults: nat -> bool, a: Log, b: Log)
    requires Matched(faults, a) && Matched(faults, b) && a.to == b.from && a.after == b.before
    ensures Matched(faults, Both(a, b))
    ensures Quiet(faults, Both(a, b)) ==> Quiet(faults, a) && Quiet(faults, b)
  {
    hide Effects;
    CalmParts(faults, a.from, b.from, b.to);
    EffectsAppend(a.before, b.before, b.after, a.killed, a.deleted, a.tries, a.more, Quiet(faults, a),
                  b.killed, b.deleted, b.tries, b.more, Quiet(faults, b), Quiet(faults, Both(a, b)));
  }

  lemma RepeatedNext(cfg: KubernetesConfig, policy: Option<Safety.Policy>, ctx: Context, runs: nat)
    requires Shuffling(ctx.outside)
    ensures Repeated(cfg, policy, ctx.start, ctx.outside, runs + 1)
         == Repeated(cfg, policy, ctx.start, ctx.outside, runs)
            + Plan(cfg, policy, ctx.start, ctx.outside(runs), |cfg.actions|)
  {
  }

  lemma LedgerNext(cfg: KubernetesConfig, policy: Option<Safety.Policy>, ctx: Context, faults: nat -> bool,
                   logs: seq<Log>, log: Log)
    requires Shuffling(ctx.outside) && Ledger(cfg, policy, ctx, faults, logs)
    requires log.from == Total(ctx.first, logs).to && log.before == Total(ctx.first, logs).after
    requires Conducted(cfg, policy, ctx.start, ctx.outside(|logs|), faults, log)
    ensures Ledger(cfg, policy, ctx, faults, logs + [log])
  {
    hide Total, Matched, Quiet, AllOk, AllLawful, AsBounded, Plan, Repeated, Safety.K8sCount, ShufflesInRange, Listed;
    var all := Total(ctx.first, logs);
    TotalNext(ctx.first, logs, log);
    LawfulBoth(cfg, policy, all.more, log.more);
    ConductedLawful(cfg, policy, ctx.start, ctx.outside(|logs|), faults, log);
    BoundedNext(cfg, all.more, |logs|, log.more);
    RepeatedNext(cfg, policy, ctx, |logs|);
    MatchedBoth(faults, all, log);
    if Quiet(faults, Both(all, log)) {
      AllOkNext(logs, log);
    }
  }

  lemma {:induction false} SeriesLedger(cfg: KubernetesConfig, policy: Option<Safety.Policy>, ctx: Context,
                                        faults: nat -> bool, logs: seq<Log>)
    requires Shuffling(ctx.outside) && ctx.first == Idle(ctx.first.from, ctx.first.before)
    requires Series(cfg, policy, ctx, faults, logs)
    ensures Ledger(cfg, policy, ctx, faults, logs)
  {
    hide Ledger, Conducted, Total;
    if logs == [] {
      LedgerNone(cfg, policy, ctx, faults);
    } else {
      var n := |logs| - 1;
      forall r | 0 <= r <= n
        ensures logs[..n][..r] == logs[..r]
      {
      }
      SeriesLedger(cfg, policy, ctx, faults, logs[..n]);
      LedgerNext(cfg, policy, ctx, faults, logs[..n], logs[n]);
      assert logs[..n] + [logs[n]] == logs;
    }
  }

  /** What the experiment's books and the cluster say after a series. */
  lemma StandsMeans(chaos: ChaosK8s, ctx: Context, logs: seq<Log>)
    requires Shuffling(ctx.outside) && ctx.first == Idle(ctx.first.from, ctx.first.before) && Stands(chaos, ctx, logs)
    ensures Ledger(chaos.cfg, chaos.policy, ctx, chaos.cluster.faults, logs)
    ensures OnlyLawful(chaos.cfg, chaos.policy, ctx.first.before, chaos.cluster.Contents())
    ensures Accounted(ctx.start, chaos.tries, chaos.cluster.deployments, chaos.scaledDownDeps)
    ensures chaos.cluster.issued >= ctx.first.from
    ensures var all := Total(ctx.first, logs);
            DoneByName(chaos.cfg, chaos.policy, Quiet(chaos.cluster.faults, all), all)
  {
    hide Total, Effects, OnlyLawful, AllLawful, Accounted, AsBounded, Conducted, Repeated, DoneByName;
    var all, faults := Total(ctx.first, logs), chaos.cluster.faults;
    SeriesLedger(chaos.cfg, chaos.policy, ctx, faults, logs);
    EffectsLawful(chaos.cfg, chaos.policy, all.before, all.after, all.killed, all.deleted, all.tries, all.more,
                  Quiet(faults, all));
    EffectsByName(chaos.cfg, chaos.policy, Quiet(faults, all), all);
  }
}
