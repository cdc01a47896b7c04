/** A plan of scenarios in which the Kubernetes steps really run (pkg/chaos over pkg/k8s): what the runs come to
    decides which steps and scenarios follow, and the plan's meaning is that of the world they make. */
module ScenarioRun {
  import opened ChaosEngine
  import opened Config
  import opened K8s
  import opened RunLog
  import opened RunPlan
  import opened Scenarios
  import opened Sums
  import opened Targets
  import Parallel

  // ---- Attempts whose outcome turns out on the way ----

  /** An attempt by scenario, step and number. */
  type Place = (nat, nat, nat)

  /** The outcomes of the Kubernetes attempts that ran so far. */
  type Told = map<Place, Attempt>

  /** The world in which those attempts end as they did. */
  function Overlay(w: World, told: Told): World {
    w.(oracle := (k: nat, i: nat, a: nat) => if (k, i, a) in told then told[(k, i, a)] else w.oracle(k, i, a))
  }

  predicate Earlier(p: Place, q: Place) {
    p.0 < q.0 || (p.0 == q.0 && (p.1 < q.1 || (p.1 == q.1 && p.2 < q.2)))
  }

  /** What is told is exactly how the runs in the logs ended, each at its place `ran`, in the order of the plan,
      and none where the context was done. */
  ghost predicate Truthful(w: World, told: Told, ran: seq<Place>, logs: seq<Log>) {
    && |ran| == |logs| && (forall p :: p in told <==> p in ran)
    && (forall r, s :: 0 <= r < s < |ran| ==> Earlier(ran[r], ran[s]))
    && forall r :: 0 <= r < |ran| ==>
                     told[ran[r]] == Answer(logs[r]) && !w.oracle(ran[r].0, ran[r].1, ran[r].2).Cancelled?
  }

  lemma ToldNext(w: World, told: Told, ran: seq<Place>, logs: seq<Log>, p: Place, log: Log)
    requires Truthful(w, told, ran, logs) && !w.oracle(p.0, p.1, p.2).Cancelled?
    requires forall q :: q in told ==> Earlier(q, p)
    ensures Truthful(w, told[p := Answer(log)], ran + [p], logs + [log])
  {
    assert forall r :: 0 <= r < |ran| ==> ran[r] in ran && ran[r] in told;
  }

  /** Nothing has been told of step `i` of scenario `k` or of anything after it. */
  ghost predicate Before(told: Told, k: nat, i: nat) {
    forall k', i', a :: (k', i', a) in told ==> k' < k || (k' == k && i' < i)
  }

  /** The second says nothing new except about step `i` of scenario `k`. */
  ghost predicate Extends(told: Told, told': Told, k: nat, i: nat) {
    forall k', i', a :: (k', i') != (k, i) ==>
                          && ((k', i', a) in told' <==> (k', i', a) in told)
                          && ((k', i', a) in told ==> told'[(k', i', a)] == told[(k', i', a)])
  }

  ghost predicate SameStep(w: World, w': World, k: nat, i: nat) {
    forall a: nat :: w.oracle(k, i, a) == w'.oracle(k, i, a)
  }

  ghost predicate SameSetting(w: World, w': World) {
    w.named == w'.named && w.dryRun == w'.dryRun
  }

  lemma OverlayAgrees(w: World, told: Told, told': Told, k: nat, i: nat, k': nat, i': nat)
    requires Extends(told, told', k, i) && (k', i') != (k, i)
    ensures SameSetting(Overlay(w, told), Overlay(w, told'))
    ensures SameStep(Overlay(w, told), Overlay(w, told'), k', i')
  {
  }

  lemma {:induction false} DecisiveAgrees(f: nat -> Attempt, g: nat -> Attempt, a: nat, n: nat)
    requires a <= n && forall b :: f(b) == g(b)
    ensures FirstDecisive(f, a, n) == FirstDecisive(g, a, n)
    decreases n - a
  {
    if a < n && f(a).Failed? {
      DecisiveAgrees(f, g, a + 1, n);
    }
  }

  lemma {:induction false} DecisiveIs(f: nat -> Attempt, a: nat, d: nat, n: nat)
    requires a <= d <= n && (forall b :: a <= b < d ==> f(b).Failed?) && (d < n ==> !f(d).Failed?)
    ensures FirstDecisive(f, a, n) == d
    decreases d - a
  {
    if a < d {
      DecisiveIs(f, a + 1, d, n);
    }
  }

  lemma ReportAgrees(w: World, w': World, k: nat, sc: Scenario, i: nat)
    requires i < |sc.steps| && SameSetting(w, w') && SameStep(w, w', k, i)
    ensures Report(w, k, sc, i) == Report(w', k, sc, i)
  {
    DecisiveAgrees(StepOutcomes(w, k, i), StepOutcomes(w', k, i), 0, Attempts(sc.steps[i], sc.retries));
  }

  lemma {:induction false} WalkAgrees(w: World, w': World, k: nat, sc: Scenario, i: nat)
    requires i <= |sc.steps| && SameSetting(w, w') && forall j :: 0 <= j < i ==> SameStep(w, w', k, j)
    ensures WalkTo(w, k, sc, i) == WalkTo(w', k, sc, i)
  {
    hide Report, SameStep;
    if i > 0 {
      WalkAgrees(w, w', k, sc, i - 1);
      ReportAgrees(w, w', k, sc, i - 1);
    }
  }

  // ---- How often a plan calls an experiment ----

  /** Step `i` is not skipped, in the walk through a scenario that runs. */
  predicate Reached(w: World, k: nat, sc: Scenario, i: nat)
    requires i < |sc.steps|
  {
    sc.parallel || ConditionMet(sc.steps[i], WalkTo(w, k, sc, i).prev)
  }

  function StepCalls(w: World, k: nat, sc: Scenario, id: string, i: nat): nat
    requires i < |sc.steps|
  {
    if Reached(w, k, sc, i) && sc.steps[i].name == id then Report(w, k, sc, i).calls else 0
  }

  /** The Run calls of the experiment `id` in the first `n` steps of a scenario that runs. */
  function TurnCalls(w: World, k: nat, sc: Scenario, id: string, n: nat): nat
    requires n <= |sc.steps|
  {
    if n == 0 then 0 else TurnCalls(w, k, sc, id, n - 1) + StepCalls(w, k, sc, id, n - 1)
  }

  /** The same in the first `n` scenarios of a plan. */
  function PlanCalls(w: World, plan: seq<Scenario>, id: string, n: nat): nat
    requires n <= |plan|
  {
    if n == 0 then 0
    else
      var sc := plan[n - 1];
      PlanCalls(w, plan, id, n - 1) + if Runs(w, plan, n - 1) then TurnCalls(w, n - 1, sc, id, |sc.steps|) else 0
  }

  lemma {:induction false} TurnAgrees(w: World, w': World, k: nat, sc: Scenario, id: string, n: nat)
    requires n <= |sc.steps| && SameSetting(w, w') && forall j :: 0 <= j < n ==> SameStep(w, w', k, j)
    ensures TurnCalls(w, k, sc, id, n) == TurnCalls(w', k, sc, id, n)
  {
    hide Report, SameStep, WalkTo, ConditionMet;
    if n > 0 {
      TurnAgrees(w, w', k, sc, id, n - 1);
      WalkAgrees(w, w', k, sc, n - 1);
      ReportAgrees(w, w', k, sc, n - 1);
    }
  }

  lemma ScenarioAgrees(w: World, w': World, k: nat, sc: Scenario)
    requires SameSetting(w, w') && forall j :: 0 <= j < |sc.steps| ==> SameStep(w, w', k, j)
    ensures ScenarioOk(w, k, sc) == ScenarioOk(w', k, sc) && Reports(w, k, sc) == Reports(w', k, sc)
  {
    hide Report, SameStep;
    forall j | 0 <= j < |sc.steps|
      ensures StepOk(w, k, sc, j) == StepOk(w', k, sc, j) && Report(w, k, sc, j) == Report(w', k, sc, j)
    {
      ReportAgrees(w, w', k, sc, j);
    }
    WalkAgrees(w, w', k, sc, |sc.steps|);
    assert AllReports(w, k, sc) == AllReports(w', k, sc);
  }

  lemma StepCallsAgree(w: World, w': World, k: nat, sc: Scenario, id: string, i: nat)
    requires i < |sc.steps| && SameSetting(w, w') && forall j :: 0 <= j <= i ==> SameStep(w, w', k, j)
    ensures StepCalls(w, k, sc, id, i) == StepCalls(w', k, sc, id, i)
  {
    hide Report, SameStep, WalkTo, ConditionMet;
    WalkAgrees(w, w', k, sc, i);
    ReportAgrees(w, w', k, sc, i);
  }

  lemma {:induction false} MapAgrees(w: World, w': World, plan: seq<Scenario>, id: string, n: nat)
    requires n <= |plan| && SameSetting(w, w') && forall k, j :: 0 <= k < n && 0 <= j ==> SameStep(w, w', k, j)
    ensures SuccessMap(w, plan, n) == SuccessMap(w', plan, n)
    ensures PlanCalls(w, plan, id, n) == PlanCalls(w', plan, id, n)
    ensures PlanReports(w, plan, n) == PlanReports(w', plan, n)
  {
    hide SameStep, ScenarioOk, TurnCalls, PrerequisitesMet, Reports;
    if n > 0 {
      var sc := plan[n - 1];
      MapAgrees(w, w', plan, id, n - 1);
      ScenarioAgrees(w, w', n - 1, sc);
      TurnAgrees(w, w', n - 1, sc, id, |sc.steps|);
    }
  }

  /** How often a plan calls the experiment `id` at step `i` of scenario `k`. */
  function CallsAt(w: World, plan: seq<Scenario>, id: string, k: nat, i: nat): nat {
    if k < |plan| && Runs(w, plan, k) && i < |plan[k].steps| then StepCalls(w, k, plan[k], id, i) else 0
  }

  lemma CallsAtAgrees(w: World, w': World, plan: seq<Scenario>, id: string, k: nat, i: nat)
    requires SameSetting(w, w') && forall l, j :: 0 <= l <= k && 0 <= j ==> SameStep(w, w', l, j)
    ensures CallsAt(w, plan, id, k, i) == CallsAt(w', plan, id, k, i)
  {
    hide SameStep, PrerequisitesMet, StepCalls;
    if k < |plan| && i < |plan[k].steps| {
      MapAgrees(w, w', plan, id, k);
      StepCallsAgree(w, w', k, plan[k], id, i);
    }
  }

  // ---- A plan with real Kubernetes steps ----

  /** So many runs have been made, and what is told is how they ended. */
  ghost predicate Going(chaos: ChaosK8s, ctx: Context, w: World, told: Told, runs: nat, ran: seq<Place>,
                        logs: seq<Log>)
    requires Shuffling(ctx.outside)
    reads chaos, chaos.cluster
  {
    runs == |logs| && Stands(chaos, ctx, logs) && Truthful(w, told, ran, logs)
  }

  lemma NowAt(told: Told, told': Told, k: nat, i: nat, a: nat)
    requires Before(told, k, i) && Extends(told, told', k, i)
    requires forall b :: (k, i, b) in told' <==> 0 <= b < a
    ensures forall q :: q in told' ==> Earlier(q, (k, i, a))
  {
    forall q | q in told'
      ensures Earlier(q, (k, i, a))
    {
      assert q == (q.0, q.1, q.2);
    }
  }

  lemma ReportIs(v: World, k: nat, sc: Scenario, i: nat, d: nat)
    requires i < |sc.steps| && sc.steps[i].name in v.named && !v.dryRun && d <= Attempts(sc.steps[i], sc.retries)
    requires forall b :: 0 <= b < d ==> v.oracle(k, i, b).Failed?
    ensures var id, name := sc.steps[i].name, v.named[sc.steps[i].name].name;
            var r := Report(v, k, sc, i);
            if d == Attempts(sc.steps[i], sc.retries) then r == StepReport(Outcome(name, false, ErrorText), d, true)
            else match v.oracle(k, i, d)
              case Cancelled => r == StepReport(Outcome(id, false, Blank), d, false)
              case Succeeded => r == StepReport(Outcome(name, true, Success), d + 1, true)
              case Failed => true
  {
    var f := StepOutcomes(v, k, i);
    assert forall b :: 0 <= b < d ==> f(b).Failed?;
    if d == Attempts(sc.steps[i], sc.retries) || !v.oracle(k, i, d).Failed? {
      DecisiveIs(f, 0, d, Attempts(sc.steps[i], sc.retries));
    }
  }

  /** The attempts of a Kubernetes step: as many runs as the outcomes they turn out to have call for. */
  method TryKubernetes(chaos: ChaosK8s, engine: Engine, outside: nat -> nat -> nat -> View, w: World, k: nat,
                       sc: Scenario, i: nat, told: Told, runs: nat,
                       ghost ctx: Context, ghost ran: seq<Place>, ghost logs: seq<Log>)
    returns (result: Outcome, told': Told, runs': nat, ghost ran': seq<Place>, ghost logs': seq<Log>)
    requires Shuffling(outside) && ctx.outside == outside && Going(chaos, ctx, w, told, runs, ran, logs)
    requires engine.Sees(w) && !w.dryRun && i < |sc.steps| && sc.steps[i].name in w.named && Before(told, k, i)
    modifies chaos, chaos.cluster, engine`trace, engine`calls
    ensures Going(chaos, ctx, w, told', runs', ran', logs') && Extends(told, told', k, i)
    ensures var r := Report(Overlay(w, told'), k, sc, i);
            && result == r.result && runs' == runs + r.calls
            && (forall a :: (k, i, a) in told' <==> 0 <= a < r.calls)
            && engine.trace == old(engine.trace) + NoticeList(r)
            && engine.calls == old(engine.calls) + r.calls
  {
    hide Stands, Truthful, Report, Shuffling, Before, Earlier, Extends;
    var name, attempts := engine.named[sc.steps[i].name].name, Attempts(sc.steps[i], sc.retries);
    told', runs', ran', logs' := told, runs, ran, logs;
    NothingAt(told, k, i);
    ExtendsNothing(told, k, i);
    result := Outcome(name, false, ErrorText);
    var a := 0;
    while a < attempts
      invariant 0 <= a <= attempts && runs' == runs + a
      invariant Going(chaos, ctx, w, told', runs', ran', logs') && Extends(told, told', k, i)
      invariant forall b :: (k, i, b) in told' <==> 0 <= b < a
      invariant forall b :: 0 <= b < a ==> told'[(k, i, b)].Failed?
      invariant engine.trace == old(engine.trace) && engine.calls == old(engine.calls) + a
    {
      if w.oracle(k, i, a).Cancelled? {
        ReportIs(Overlay(w, told'), k, sc, i, a);
        result := Outcome(sc.steps[i].name, false, Blank);
        return;
      }
      engine.calls := engine.calls + 1;
      var ok;
      ghost var log;
      ok, log := RunOnce(chaos, outside, runs', ctx, logs');
      NowAt(told, told', k, i, a);
      ToldNext(w, told', ran', logs', (k, i, a), log);
      ExtendsMore(told, told', k, i, a, log);
      runs', told' := runs' + 1, told'[(k, i, a) := if ok then Succeeded else Failed];
      ran', logs' := ran' + [(k, i, a)], logs' + [log];
      if ok {
        ReportIs(Overlay(w, told'), k, sc, i, a);
        result := Outcome(name, true, Success);
        engine.trace := engine.trace + [result];
        return;
      }
      a := a + 1;
    }
    ReportIs(Overlay(w, told'), k, sc, i, attempts);
    engine.trace := engine.trace + [result];
  }

  lemma NothingAt(told: Told, k: nat, i: nat)
    requires Before(told, k, i)
    ensures forall a :: (k, i, a) !in told
  {
  }

  /** One step of a scenario: a Kubernetes step really runs, any other ends as the world says. */
  method RunStep(chaos: ChaosK8s, engine: Engine, outside: nat -> nat -> nat -> View, w: World, id: string, k: nat,
                 sc: Scenario, i: nat, told: Told, runs: nat,
                 ghost ctx: Context, ghost ran: seq<Place>, ghost logs: seq<Log>)
    returns (result: Outcome, told': Told, runs': nat, ghost ran': seq<Place>, ghost logs': seq<Log>)
    requires Shuffling(outside) && ctx.outside == outside && Going(chaos, ctx, w, told, runs, ran, logs)
    requires engine.Sees(w) && i < |sc.steps| && id in w.named && Before(told, k, i)
    modifies chaos, chaos.cluster, engine`trace, engine`calls
    ensures Going(chaos, ctx, w, told', runs', ran', logs') && Extends(told, told', k, i)
    ensures var r := Report(Overlay(w, told'), k, sc, i);
            && result == r.result
            && runs' == runs + (if sc.steps[i].name == id then r.calls else 0)
            && (forall a :: (k, i, a) in told' <==> sc.steps[i].name == id && 0 <= a < r.calls)
            && engine.trace == old(engine.trace) + NoticeList(r)
            && engine.calls == old(engine.calls) + r.calls
  {
    hide Going, NoticeList, Shuffling;
    told', runs', ran', logs' := told, runs, ran, logs;
    if sc.steps[i].name == id && !w.dryRun {
      result, told', runs', ran', logs' :=
        TryKubernetes(chaos, engine, outside, w, k, sc, i, told, runs, ctx, ran, logs);
    } else {
      NothingAt(told, k, i);
      ReportAgrees(w, Overlay(w, told), k, sc, i);
      result := engine.RunScenarioStep(w, k, sc, i);
    }
  }

  /** The calls told of scenario `k` are those of its first `i` steps. */
  ghost predicate TurnTold(w: World, told: Told, k: nat, sc: Scenario, id: string, i: nat)
    requires i <= |sc.steps|
  {
    forall j, a :: (k, j, a) in told <==> 0 <= j < i && 0 <= a < StepCalls(Overlay(w, told), k, sc, id, j)
  }

  lemma TurnToldStart(w: World, told: Told, k: nat, sc: Scenario, id: string)
    requires Before(told, k, 0)
    ensures TurnTold(w, told, k, sc, id, 0)
  {
  }

  lemma TurnToldStep(w: World, told: Told, told': Told, k: nat, sc: Scenario, id: string, i: nat)
    requires i < |sc.steps| && TurnTold(w, told, k, sc, id, i) && Extends(told, told', k, i)
    requires forall a :: (k, i, a) in told' <==> 0 <= a < StepCalls(Overlay(w, told'), k, sc, id, i)
    ensures TurnTold(w, told', k, sc, id, i + 1)
  {
    hide StepCalls, SameStep, Overlay;
    var v, v' := Overlay(w, told), Overlay(w, told');
    OverlayAgrees(w, told, told', k, i, k, i + 1);
    forall j | 0 <= j < i
      ensures SameStep(v, v', k, j)
    {
      OverlayAgrees(w, told, told', k, i, k, j);
    }
    forall j | 0 <= j < i
      ensures StepCalls(v, k, sc, id, j) == StepCalls(v', k, sc, id, j)
    {
      StepCallsAgree(v, v', k, sc, id, j);
    }
  }

  /** The flags of the step loop after `i` steps, with the reports and the experiment's calls so far. */
  ghost predicate Walking(v: World, k: nat, sc: Scenario, id: string, i: nat, prev: bool, all: bool,
                          reports: seq<StepReport>, calls: int)
    requires i <= |sc.steps|
  {
    && (!sc.parallel ==> WalkTo(v, k, sc, i) == Walk(prev, all, reports))
    && (sc.parallel ==>
          reports == AllReports(v, k, sc)[..i] && (all <==> forall j :: 0 <= j < i ==> StepOk(v, k, sc, j)))
    && calls == TurnCalls(v, k, sc, id, i)
  }

  lemma WalkingStart(v: World, k: nat, sc: Scenario, id: string)
    ensures Walking(v, k, sc, id, 0, true, true, [], 0)
  {
  }

  lemma WalkingSkip(v: World, k: nat, sc: Scenario, id: string, i: nat, prev: bool, all: bool,
                    reports: seq<StepReport>, calls: int)
    requires i < |sc.steps| && Walking(v, k, sc, id, i, prev, all, reports, calls) && !Reached(v, k, sc, i)
    ensures Walking(v, k, sc, id, i + 1, prev, all, reports, calls)
  {
    hide Report;
  }

  /** What is told of step `i` changes nothing of the steps before it. */
  lemma WalkingKept(w: World, told: Told, told': Told, k: nat, sc: Scenario, id: string, i: nat, prev: bool, all: bool,
                    reports: seq<StepReport>, calls: int)
    requires i < |sc.steps| && Walking(Overlay(w, told), k, sc, id, i, prev, all, reports, calls)
    requires Extends(told, told', k, i)
    ensures Walking(Overlay(w, told'), k, sc, id, i, prev, all, reports, calls)
    ensures Reached(Overlay(w, told), k, sc, i) == Reached(Overlay(w, told'), k, sc, i)
  {
    hide Report, ConditionMet, Extends, SameStep, Overlay;
    var v, v' := Overlay(w, told), Overlay(w, told');
    forall j | 0 <= j < i
      ensures SameSetting(v, v') && SameStep(v, v', k, j)
      ensures Report(v, k, sc, j) == Report(v', k, sc, j) && StepOk(v, k, sc, j) == StepOk(v', k, sc, j)
    {
      OverlayAgrees(w, told, told', k, i, k, j);
      ReportAgrees(v, v', k, sc, j);
    }
    OverlayAgrees(w, told, told', k, i, k, i + 1);
    WalkAgrees(v, v', k, sc, i);
    TurnAgrees(v, v', k, sc, id, i);
    assert AllReports(v, k, sc)[..i] == AllReports(v', k, sc)[..i];
  }

  lemma WalkingStep(v: World, k: nat, sc: Scenario, id: string, i: nat, prev: bool, all: bool,
                    reports: seq<StepReport>, calls: int)
    requires i < |sc.steps| && Walking(v, k, sc, id, i, prev, all, reports, calls) && Reached(v, k, sc, i)
    ensures var r := Report(v, k, sc, i);
            Walking(v, k, sc, id, i + 1, r.result.success, all && r.result.success, reports + [r],
                    calls + if sc.steps[i].name == id then r.calls else 0)
  {
    hide Report, ConditionMet;
    var r := Report(v, k, sc, i);
    assert TurnCalls(v, k, sc, id, i + 1) == TurnCalls(v, k, sc, id, i) + StepCalls(v, k, sc, id, i);
    if sc.parallel {
      var whole := AllReports(v, k, sc);
      assert whole[..i + 1] == whole[..i] + [whole[i]];
      assert StepOk(v, k, sc, i) == r.result.success;
    }
  }

  lemma WalkingDone(v: World, k: nat, sc: Scenario, id: string, prev: bool, all: bool, reports: seq<StepReport>,
                    calls: int)
    requires Walking(v, k, sc, id, |sc.steps|, prev, all, reports, calls)
    ensures (all <==> ScenarioOk(v, k, sc)) && reports == Reports(v, k, sc)
    ensures calls == TurnCalls(v, k, sc, id, |sc.steps|)
  {
    hide Report;
    if !sc.parallel {
      FoldIsConjunction(v, k, sc);
    }
    assert AllReports(v, k, sc)[..|sc.steps|] == AllReports(v, k, sc);
  }

  lemma WalkingPrev(v: World, k: nat, sc: Scenario, id: string, i: nat, prev: bool, all: bool,
                    reports: seq<StepReport>, calls: int)
    requires i < |sc.steps| && Walking(v, k, sc, id, i, prev, all, reports, calls)
    ensures Reached(v, k, sc, i) <==> sc.parallel || ConditionMet(sc.steps[i], prev)
  {
  }

  /** The second says nothing new except about scenario `k`. */
  ghost predicate ExtendsTurn(told: Told, told': Told, k: nat) {
    forall k', i', a :: k' != k ==>
                          && ((k', i', a) in told' <==> (k', i', a) in told)
                          && ((k', i', a) in told ==> told'[(k', i', a)] == told[(k', i', a)])
  }

  lemma ExtendsNothing(told: Told, k: nat, i: nat)
    ensures ExtendsTurn(told, told, k) && Extends(told, told, k, i)
  {
  }

  lemma ExtendsMore(told: Told, told': Told, k: nat, i: nat, a: nat, log: Log)
    requires Extends(told, told', k, i)
    ensures Extends(told, told'[(k, i, a) := Answer(log)], k, i)
  {
  }

  lemma TurnExtends(told: Told, mid: Told, told': Told, k: nat, i: nat)
    requires ExtendsTurn(told, mid, k) && Extends(mid, told', k, i)
    ensures ExtendsTurn(told, told', k)
  {
  }

  lemma BeforeNext(told: Told, told': Told, k: nat, i: nat)
    requires Before(told, k, i) && Extends(told, told', k, i)
    ensures Before(told', k, i + 1)
  {
  }

  lemma BeforeTurn(told: Told, k: nat, i: nat)
    requires Before(told, k, i)
    ensures Before(told, k + 1, 0)
  {
  }

  /** What the callbacks heard since and how often Run was called. */
  ghost predicate Heard(engine: Engine, trace: seq<Outcome>, calls: nat, reports: seq<StepReport>)
    reads engine`trace, engine`calls
  {
    engine.trace == trace + Notices(reports) && engine.calls == calls + TotalCalls(reports)
  }

  /** The steps of scenario `k`, which runs: those of a sequential one under their conditions, those of a
      parallel one all, one after another. */
  method RunSteps(chaos: ChaosK8s, engine: Engine, outside: nat -> nat -> nat -> View, w: World, id: string, k: nat,
                  sc: Scenario, told: Told, runs: nat,
                  ghost ctx: Context, ghost ran: seq<Place>, ghost logs: seq<Log>)
    returns (ok: bool, rs: seq<Outcome>, told': Told, runs': nat, ghost ran': seq<Place>, ghost logs': seq<Log>,
             ghost due: seq<nat>)
    requires Shuffling(outside) && ctx.outside == outside && Going(chaos, ctx, w, told, runs, ran, logs)
    requires engine.Sees(w) && id in w.named && Before(told, k, 0)
    modifies chaos, chaos.cluster, engine`trace, engine`calls
    ensures Going(chaos, ctx, w, told', runs', ran', logs') && ExtendsTurn(told, told', k)
    ensures Before(told', k, |sc.steps|) && TurnTold(w, told', k, sc, id, |sc.steps|)
    ensures ok <==> ScenarioOk(Overlay(w, told'), k, sc)
    ensures runs' == runs + TurnCalls(Overlay(w, told'), k, sc, id, |sc.steps|)
    ensures rs == Outcomes(Reports(Overlay(w, told'), k, sc))
    ensures Heard(engine, old(engine.trace), old(engine.calls), Reports(Overlay(w, told'), k, sc))
    ensures Takes(Overlay(w, told'), k, sc, due)
    ensures Reports(Overlay(w, told'), k, sc) == ReportsAt(Overlay(w, told'), k, sc, due)
  {
    hide Going, Report, Walking, WalkTo, Before, Extends, ExtendsTurn, ScenarioOk, TurnCalls, TurnTold, Overlay;
    hide Outcomes, Notices, TotalCalls, NoticeList, Shuffling, Takes, ReportsAt;
    ok, rs, told', runs', ran', logs' := true, [], told, runs, ran, logs;
    ghost var reports: seq<StepReport> := [];
    var prev := true;
    var i := 0;
    LogsEmpty();
    WalkingStart(Overlay(w, told), k, sc, id);
    TurnToldStart(w, told, k, sc, id);
    ExtendsNothing(told, k, 0);
    while i < |sc.steps|
      invariant 0 <= i <= |sc.steps|
      invariant Going(chaos, ctx, w, told', runs', ran', logs') && ExtendsTurn(told, told', k)
      invariant Before(told', k, i) && TurnTold(w, told', k, sc, id, i)
      invariant Walking(Overlay(w, told'), k, sc, id, i, prev, ok, reports, runs' - runs)
      invariant rs == Outcomes(reports) && Heard(engine, old(engine.trace), old(engine.calls), reports)
    {
      ghost var told0, runs0 := told', runs';
      WalkingPrev(Overlay(w, told'), k, sc, id, i, prev, ok, reports, runs' - runs);
      if sc.parallel || ConditionMet(sc.steps[i], prev) {
        var result;
        result, told', runs', ran', logs' :=
          RunStep(chaos, engine, outside, w, id, k, sc, i, told', runs', ctx, ran', logs');
        ghost var r := Report(Overlay(w, told'), k, sc, i);
        WalkingKept(w, told0, told', k, sc, id, i, prev, ok, reports, runs0 - runs);
        WalkingStep(Overlay(w, told'), k, sc, id, i, prev, ok, reports, runs0 - runs);
        LogsOneMore(reports, r);
        ConcatAssoc(old(engine.trace), Notices(reports), NoticeList(r));
        reports, rs, prev, ok := reports + [r], rs + [result], result.success, ok && result.success;
      } else {
        NothingAt(told', k, i);
        ExtendsNothing(told', k, i);
        WalkingSkip(Overlay(w, told'), k, sc, id, i, prev, ok, reports, runs' - runs);
      }
      TurnToldStep(w, told0, told', k, sc, id, i);
      TurnExtends(told, told0, told', k, i);
      BeforeNext(told0, told', k, i);
      i := i + 1;
    }
    WalkingDone(Overlay(w, told'), k, sc, id, prev, ok, reports, runs' - runs);
    due := StepsTaken(Overlay(w, told'), k, sc);
  }

  /** The calls told are those of the first `n` scenarios. */
  ghost predicate PlanTold(w: World, told: Told, plan: seq<Scenario>, id: string, n: nat) {
    forall k, i, a :: (k, i, a) in told <==> 0 <= k < n && 0 <= i && 0 <= a < CallsAt(Overlay(w, told), plan, id, k, i)
  }

  lemma OverlayTurn(w: World, told: Told, told': Told, k: nat)
    requires ExtendsTurn(told, told', k)
    ensures SameSetting(Overlay(w, told), Overlay(w, told'))
    ensures forall l, j :: 0 <= l < k && 0 <= j ==> SameStep(Overlay(w, told), Overlay(w, told'), l, j)
  {
  }

  /** Telling of scenario `k` what is told of it changes nothing of the scenarios before. */
  lemma TurnKept(w: World, plan: seq<Scenario>, id: string, told: Told, told': Told, k: nat)
    requires k <= |plan| && ExtendsTurn(told, told', k)
    ensures SuccessMap(Overlay(w, told), plan, k) == SuccessMap(Overlay(w, told'), plan, k)
    ensures PlanCalls(Overlay(w, told), plan, id, k) == PlanCalls(Overlay(w, told'), plan, id, k)
    ensures PlanReports(Overlay(w, told), plan, k) == PlanReports(Overlay(w, told'), plan, k)
    ensures forall l, i :: 0 <= l < k && 0 <= i ==>
                             CallsAt(Overlay(w, told), plan, id, l, i) == CallsAt(Overlay(w, told'), plan, id, l, i)
  {
    hide ExtendsTurn, SameStep, Overlay, CallsAt;
    var v, v' := Overlay(w, told), Overlay(w, told');
    OverlayTurn(w, told, told', k);
    MapAgrees(v, v', plan, id, k);
    forall l, i | 0 <= l < k && 0 <= i
      ensures CallsAt(v, plan, id, l, i) == CallsAt(v', plan, id, l, i)
    {
      CallsAtAgrees(v, v', plan, id, l, i);
    }
  }

  lemma PlanToldNext(w: World, plan: seq<Scenario>, id: string, told: Told, told': Told, k: nat)
    requires k < |plan| && ExtendsTurn(told, told', k) && PlanTold(w, told, plan, id, k)
    requires if Runs(Overlay(w, told'), plan, k) then TurnTold(w, told', k, plan[k], id, |plan[k].steps|)
             else forall i, a :: (k, i, a) !in told'
    ensures PlanTold(w, told', plan, id, k + 1)
  {
    hide Overlay, Runs, StepCalls;
    TurnKept(w, plan, id, told, told', k);
  }

  /** The turn of scenario `k`: skipped when disabled or when a prerequisite has not succeeded. */
  method RunTurn(chaos: ChaosK8s, engine: Engine, outside: nat -> nat -> nat -> View, w: World, plan: seq<Scenario>,
                 id: string, k: nat, succeeded: map<string, bool>, told: Told, runs: nat,
                 ghost ctx: Context, ghost ran: seq<Place>, ghost logs: seq<Log>)
    returns (succeeded': map<string, bool>, rs: seq<Outcome>, told': Told, runs': nat,
             ghost ran': seq<Place>, ghost logs': seq<Log>)
    requires Shuffling(outside) && ctx.outside == outside && Going(chaos, ctx, w, told, runs, ran, logs)
    requires engine.Sees(w) && id in w.named && k < |plan| && Before(told, k, 0)
    requires succeeded == SuccessMap(Overlay(w, told), plan, k) && PlanTold(w, told, plan, id, k)
    modifies chaos, chaos.cluster, engine`trace, engine`calls
    ensures Going(chaos, ctx, w, told', runs', ran', logs') && ExtendsTurn(told, told', k) && Before(told', k + 1, 0)
    ensures succeeded' == SuccessMap(Overlay(w, told'), plan, k + 1) && PlanTold(w, told', plan, id, k + 1)
    ensures runs' - runs ==
            PlanCalls(Overlay(w, told'), plan, id, k + 1) - PlanCalls(Overlay(w, told'), plan, id, k)
    ensures rs == Outcomes(TurnReports(Overlay(w, told'), plan, k))
    ensures Heard(engine, old(engine.trace), old(engine.calls), TurnReports(Overlay(w, told'), plan, k))
  {
    hide Going, Before, ExtendsTurn, ScenarioOk, TurnCalls, TurnTold, PlanTold, Overlay, PrerequisitesMet, Reports;
    hide Shuffling, Outcomes, Notices, TotalCalls;
    var sc := plan[k];
    succeeded', rs, told', runs', ran', logs' := succeeded, [], told, runs, ran, logs;
    LogsEmpty();
    NoneOf(told, k);
    ExtendsNothing(told, k, 0);
    if sc.enabled {
      if PrerequisitesMet(succeeded, sc) {
        var ok;
        ghost var due;
        ok, rs, told', runs', ran', logs', due :=
          RunSteps(chaos, engine, outside, w, id, k, sc, told, runs, ctx, ran, logs);
        succeeded' := succeeded[sc.name := ok];
        BeforeTurn(told', k, |sc.steps|);
      } else {
        succeeded' := succeeded[sc.name := false];
        BeforeTurn(told, k, 0);
      }
    } else {
      BeforeTurn(told, k, 0);
    }
    TurnKept(w, plan, id, told, told', k);
    PlanToldNext(w, plan, id, told, told', k);
  }

  lemma NoneOf(told: Told, k: nat)
    requires Before(told, k, 0)
    ensures forall i, a :: (k, i, a) !in told
  {
  }

  /** The whole plan. In the world that the Kubernetes runs turn out to make, the scenarios that ran and
      succeeded, the results and what the callbacks heard are those of the plan's meaning; and the runs are exactly
      the attempts it calls for, in its order, each with the outcome that its list calls gave it. */
  method RunScenarios(chaos: ChaosK8s, engine: Engine, outside: nat -> nat -> nat -> View, w: World,
                      plan: seq<Scenario>, id: string, ghost ctx: Context)
    returns (rs: seq<Outcome>, succeeded: map<string, bool>, told: Told, runs: nat, ghost heard: seq<Outcome>,
             ghost ran: seq<Place>, ghost logs: seq<Log>)
    requires Shuffling(outside) && ctx.outside == outside && Stands(chaos, ctx, [])
    requires engine.Sees(w) && id in w.named
    modifies chaos, chaos.cluster, engine`trace, engine`calls
    ensures Stands(chaos, ctx, logs) && runs == |logs| && Truthful(w, told, ran, logs)
    ensures PlanTold(w, told, plan, id, |plan|)
    ensures succeeded == SuccessMap(Overlay(w, told), plan, |plan|)
    ensures runs == PlanCalls(Overlay(w, told), plan, id, |plan|)
    ensures engine.trace == old(engine.trace) + heard
    ensures CarriedOut(PlanReports(Overlay(w, told), plan, |plan|), NoParallel(plan), rs, heard,
                       engine.calls - old(engine.calls))
  {
    hide Stands, Truthful, Before, ExtendsTurn, SuccessMap, PlanTold, Overlay, TurnReports, Outcomes, Notices;
    hide TotalCalls, Shuffling;
    rs, succeeded, told, runs, ran, logs := [], map[], map[], 0, [], [];
    PlanNothing(w, plan, id);
    ghost var reports: seq<StepReport> := [];
    var k := 0;
    while k < |plan|
      invariant 0 <= k <= |plan|
      invariant Going(chaos, ctx, w, told, runs, ran, logs) && Before(told, k, 0) && PlanTold(w, told, plan, id, k)
      invariant succeeded == SuccessMap(Overlay(w, told), plan, k)
      invariant runs == PlanCalls(Overlay(w, told), plan, id, k)
      invariant reports == PlanReports(Overlay(w, told), plan, k) && rs == Outcomes(reports)
      invariant Heard(engine, old(engine.trace), old(engine.calls), reports)
    {
      ghost var told0 := told;
      var more;
      succeeded, more, told, runs, ran, logs :=
        RunTurn(chaos, engine, outside, w, plan, id, k, succeeded, told, runs, ctx, ran, logs);
      TurnKept(w, plan, id, told0, told, k);
      ghost var turn := TurnReports(Overlay(w, told), plan, k);
      OutcomesAppend(reports, turn);
      NoticesAppend(reports, turn);
      ConcatAssoc(old(engine.trace), Notices(reports), Notices(turn));
      CallsAdd(reports, turn);
      rs, reports := rs + more, reports + turn;
      k := k + 1;
    }
    heard := Notices(reports);
  }

  lemma CallsAdd(a: seq<StepReport>, b: seq<StepReport>)
    ensures TotalCalls(a + b) == TotalCalls(a) + TotalCalls(b)
  {
    SumAppend(a, b, Parallel.CallsOf);
  }

  lemma PlanNothing(w: World, plan: seq<Scenario>, id: string)
    ensures Truthful(w, map[], [], []) && Before(map[], 0, 0) && PlanTold(w, map[], plan, id, 0)
    ensures SuccessMap(Overlay(w, map[]), plan, 0) == map[]
    ensures Outcomes([]) == [] && Notices([]) == [] && TotalCalls([]) == 0
  {
  }

  lemma CalledAtAll(v: World, k: nat, sc: Scenario, i: nat)
    requires i < |sc.steps| && sc.steps[i].name in v.named && !v.dryRun && Uncancelled(v)
    ensures Report(v, k, sc, i).calls > 0
  {
  }

  /** Where every run succeeded, a Kubernetes step that was reached ran once and succeeded, whatever retries it
      has and whatever the world said before. */
  lemma OnceWhereAllSucceed(w: World, plan: seq<Scenario>, id: string, told: Told, ran: seq<Place>, logs: seq<Log>,
                            k: nat, i: nat)
    requires Truthful(w, told, ran, logs) && PlanTold(w, told, plan, id, |plan|)
    requires forall r :: 0 <= r < |logs| ==> logs[r].ok
    requires id in w.named && !w.dryRun && Uncancelled(w) && k < |plan| && Runs(Overlay(w, told), plan, k)
    requires i < |plan[k].steps| && plan[k].steps[i].name == id && Reached(Overlay(w, told), k, plan[k], i)
    ensures (k, i, 0) in told && (k, i, 1) !in told
    ensures Report(Overlay(w, told), k, plan[k], i).calls == 1 && StepOk(Overlay(w, told), k, plan[k], i)
  {
    hide Runs, Reached, Report;
    var v := Overlay(w, told);
    assert Uncancelled(v) by {
      forall p | p in told
        ensures told[p].Succeeded?
      {
        var r :| 0 <= r < |ran| && ran[r] == p;
        assert told[ran[r]] == Answer(logs[r]);
      }
    }
    RetryLaw(v, k, plan[k], i);
    assert CallsAt(v, plan, id, k, i) == Report(v, k, plan[k], i).calls;
    CalledAtAll(v, k, plan[k], i);
    assert (k, i, 0) in told;
    var r :| 0 <= r < |ran| && ran[r] == (k, i, 0);
    assert v.oracle(k, i, 0) == Answer(logs[r]) == Succeeded;
  }
}
