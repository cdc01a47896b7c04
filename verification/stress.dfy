/** ChaosStress.Run of pkg/stress: one goroutine per known action, each sending its result on a
    buffered channel that the main goroutine closes and drains. An action of the model is one
    atomic step, so a sequence of actions is one interleaving. */
module Stress {
  import opened Config
  import opened Sums
  import Safety

  /** A configured action: unknown ones only log; a known one may be refused by the policy. */
  datatype Spec = Spec(known: bool, admitted: bool)

  function SpecOf(policy: Option<Safety.Policy>, action: string): Spec {
    Spec(action in {"cpu", "memory", "disk_io", "disk_fill"},
         policy.Some? ==> Safety.ActionAllowed(policy.value, action, Safety.StressActions))
  }

  function Specs(policy: Option<Safety.Policy>, actions: seq<string>): seq<Spec> {
    seq(|actions|, i requires 0 <= i < |actions| => SpecOf(policy, actions[i]))
  }

  datatype Main =
    | Spawning(next: nat)
    | Refused
    | Draining
    | Returned

  datatype Goroutine = Running | Sent(failed: bool) | Finished(failed: bool)

  /** `channel` holds the sent results, true for an error; `drained` and `errs` count what the
      main goroutine has taken out. */
  datatype State = State(main: Main, goroutines: seq<Goroutine>, channel: seq<bool>, drained: nat, errs: nat)

  datatype Action = Spawn | WaitDone | Drain | Send(g: nat, failed: bool) | Done(g: nat)

  function Init(): State {
    State(Spawning(0), [], [], 0, 0)
  }

  predicate Open(s: State) {
    !s.main.Draining? && !s.main.Returned?
  }

  predicate AllFinished(s: State) {
    forall g :: g in s.goroutines ==> g.Finished?
  }

  predicate Enabled(specs: seq<Spec>, s: State, a: Action) {
    match a
    case Spawn => s.main.Spawning? && s.main.next < |specs|
    case WaitDone => AllFinished(s) && s.main.Spawning? && s.main.next >= |specs|
    case Drain => s.main.Draining?
    case Send(g, _) => g < |s.goroutines| && s.goroutines[g].Running? && |s.channel| < |specs| && Open(s)
    case Done(g) => g < |s.goroutines| && s.goroutines[g].Sent?
  }

  function Apply(specs: seq<Spec>, s: State, a: Action): State
    requires Enabled(specs, s, a)
  {
    match a
    case Spawn =>
      var spec := specs[s.main.next];
      if !spec.known then s.(main := Spawning(s.main.next + 1))
      else if !spec.admitted then s.(main := Refused)
      else s.(main := Spawning(s.main.next + 1), goroutines := s.goroutines + [Running])
    case WaitDone => s.(main := Draining)
    case Drain =>
      if s.channel == [] then s.(main := Returned)
      else s.(channel := s.channel[1..], drained := s.drained + 1, errs := s.errs + if s.channel[0] then 1 else 0)
    case Send(g, failed) => s.(goroutines := s.goroutines[g := Sent(failed)], channel := s.channel + [failed])
    case Done(g) => s.(goroutines := s.goroutines[g := Finished(s.goroutines[g].failed)])
  }

  ghost predicate Path(specs: seq<Spec>, s: State, acts: seq<Action>, s': State)
    decreases |acts|
  {
    if acts == [] then s' == s
    else Enabled(specs, s, acts[0]) && Path(specs, Apply(specs, s, acts[0]), acts[1..], s')
  }

  function Delivered(g: Goroutine): int { if g.Running? then 0 else 1 }

  function Failed(g: Goroutine): int { if !g.Running? && g.failed then 1 else 0 }

  function Rank(g: Goroutine): int {
    match g
    case Running => 3
    case Sent(_) => 1
    case Finished(_) => 0
  }

  function IsError(b: bool): int { if b then 1 else 0 }

  /** The goroutines that the first `n` actions start. */
  function Started(specs: seq<Spec>, n: nat): nat
    requires n <= |specs|
  {
    if n == 0 then 0 else Started(specs, n - 1) + if specs[n - 1].known && specs[n - 1].admitted then 1 else 0
  }

  ghost predicate Counts(s: State) {
    && |s.channel| + s.drained == Sum(s.goroutines, Delivered)
    && Sum(s.channel, IsError) + s.errs == Sum(s.goroutines, Failed)
  }

  ghost predicate Spawned(specs: seq<Spec>, s: State) {
    && |s.goroutines| <= |specs|
    && (s.main.Spawning? ==>
          && s.main.next <= |specs| && |s.goroutines| == Started(specs, s.main.next)
          && forall i :: 0 <= i < s.main.next && specs[i].known ==> specs[i].admitted)
    && (s.main.Draining? || s.main.Returned? ==>
          && |s.goroutines| == Started(specs, |specs|)
          && forall i :: 0 <= i < |specs| && specs[i].known ==> specs[i].admitted)
    && (s.main.Refused? ==> exists i :: 0 <= i < |specs| && specs[i].known && !specs[i].admitted)
  }

  ghost predicate Inv(specs: seq<Spec>, s: State) {
    && Counts(s) && Spawned(specs, s)
    && (!Open(s) ==> AllFinished(s))
    && (s.main.Returned? ==> s.channel == [])
    && (Open(s) ==> s.drained == 0)
  }

  lemma {:induction false} StartedBound(specs: seq<Spec>, n: nat)
    requires n <= |specs|
    ensures Started(specs, n) <= n
  {
    if n > 0 {
      StartedBound(specs, n - 1);
    }
  }

  lemma StepCounts(specs: seq<Spec>, s: State, a: Action)
    requires Counts(s) && Enabled(specs, s, a)
    ensures Counts(Apply(specs, s, a))
  {
    match a
    case Spawn =>
      SumAppend(s.goroutines, [Running], Delivered);
      SumAppend(s.goroutines, [Running], Failed);
    case WaitDone =>
    case Drain =>
    case Send(g, failed) =>
      SumUpdate(s.goroutines, g, Sent(failed), Delivered);
      SumUpdate(s.goroutines, g, Sent(failed), Failed);
      SumAppend(s.channel, [failed], IsError);
    case Done(g) =>
      SumUpdate(s.goroutines, g, Finished(s.goroutines[g].failed), Delivered);
      SumUpdate(s.goroutines, g, Finished(s.goroutines[g].failed), Failed);
  }

  lemma StepSpawned(specs: seq<Spec>, s: State, a: Action)
    requires Spawned(specs, s) && Enabled(specs, s, a)
    ensures Spawned(specs, Apply(specs, s, a))
  {
    if a.Spawn? {
      StartedBound(specs, s.main.next + 1);
    }
  }

  lemma StepInv(specs: seq<Spec>, s: State, a: Action)
    requires Inv(specs, s) && Enabled(specs, s, a)
    ensures Inv(specs, Apply(specs, s, a))
  {
    StepCounts(specs, s, a);
    StepSpawned(specs, s, a);
    if a.Done? {
      assert s.goroutines[a.g] in s.goroutines;
    }
  }

  lemma {:induction false} PathInv(specs: seq<Spec>, s: State, acts: seq<Action>, s': State)
    requires Inv(specs, s) && Path(specs, s, acts, s')
    ensures Inv(specs, s')
    decreases |acts|
  {
    if acts != [] {
      StepInv(specs, s, acts[0]);
      PathInv(specs, Apply(specs, s, acts[0]), acts[1..], s');
    }
  }

  /** In every interleaving, also after an early return, each goroutine that still has to send
      finds the channel open and with room: no send ever blocks or panics. */
  lemma SendNeverBlocks(specs: seq<Spec>, acts: seq<Action>, s: State, g: nat, failed: bool)
    requires Path(specs, Init(), acts, s) && g < |s.goroutines| && s.goroutines[g].Running?
    ensures |s.channel| < |specs| && Open(s) && Enabled(specs, s, Send(g, failed))
  {
    PathInv(specs, Init(), acts, s);
    assert s.goroutines[g] in s.goroutines;
    SumUpdate(s.goroutines, g, Sent(failed), Delivered);
    SumBounds(s.goroutines[g := Sent(failed)], Delivered, 0, 1);
  }

  /** When Run gets to its end every action was admitted, every known one was started, and Run
      reports no error exactly when none of them failed. */
  lemma ReturnedNilIff(specs: seq<Spec>, acts: seq<Action>, s: State)
    requires Path(specs, Init(), acts, s) && s.main.Returned?
    ensures forall i :: 0 <= i < |specs| && specs[i].known ==> specs[i].admitted
    ensures |s.goroutines| == Started(specs, |specs|) == s.drained
    ensures s.errs == 0 <==> forall g :: g in s.goroutines ==> g == Finished(false)
  {
    PathInv(specs, Init(), acts, s);
    AllDelivered(s.goroutines);
    NoneFailed(s.goroutines);
  }

  lemma {:induction false} AllDelivered(gs: seq<Goroutine>)
    requires forall g :: g in gs ==> g.Finished?
    ensures Sum(gs, Delivered) == |gs|
  {
    if gs != [] {
      assert gs[0] in gs && forall g :: g in gs[1..] ==> g in gs;
      AllDelivered(gs[1..]);
    }
  }

  lemma {:induction false} NoneFailed(gs: seq<Goroutine>)
    requires forall g :: g in gs ==> g.Finished?
    ensures Sum(gs, Failed) >= 0
    ensures Sum(gs, Failed) == 0 <==> forall g :: g in gs ==> g == Finished(false)
  {
    if gs != [] {
      assert gs[0] in gs && forall g :: g in gs <==> g == gs[0] || g in gs[1..];
      NoneFailed(gs[1..]);
    }
  }

  // ---- How the actions ended ----

  /** The goroutines that were done with an error, or without one, in an interleaving. */
  function Ended(acts: seq<Action>, failed: bool): nat {
    if acts == [] then 0
    else Ended(acts[1..], failed) + if acts[0].Send? && acts[0].failed == failed then 1 else 0
  }

  /** The results of a kind among those sent, drained or not. */
  function ErrorsSent(s: State): int {
    Sum(s.channel, IsError) + s.errs
  }

  function ResultsSent(s: State): int {
    |s.channel| + s.drained
  }

  lemma StepEnded(specs: seq<Spec>, s: State, a: Action)
    requires Enabled(specs, s, a)
    ensures ErrorsSent(Apply(specs, s, a)) == ErrorsSent(s) + if a.Send? && a.failed then 1 else 0
    ensures ResultsSent(Apply(specs, s, a)) == ResultsSent(s) + if a.Send? then 1 else 0
  {
    if a.Send? {
      SumAppend(s.channel, [a.failed], IsError);
      assert Sum([a.failed], IsError) == IsError(a.failed) + Sum([a.failed][1..], IsError);
    }
  }

  lemma {:induction false} PathEnded(specs: seq<Spec>, s: State, acts: seq<Action>, s': State)
    requires Path(specs, s, acts, s')
    ensures ErrorsSent(s') == ErrorsSent(s) + Ended(acts, true)
    ensures ResultsSent(s') == ResultsSent(s) + Ended(acts, true) + Ended(acts, false)
    decreases |acts|
  {
    hide Apply, Enabled, ErrorsSent, ResultsSent;
    if acts != [] {
      StepEnded(specs, s, acts[0]);
      PathEnded(specs, Apply(specs, s, acts[0]), acts[1..], s');
    }
  }

  /** Upon the end the errors reported are the goroutines that failed, and all that were started have ended. */
  lemma ErrorsAreFailures(specs: seq<Spec>, acts: seq<Action>, s: State)
    requires Path(specs, Init(), acts, s) && s.main.Returned?
    ensures s.errs == Ended(acts, true) && s.drained == Ended(acts, true) + Ended(acts, false) == |s.goroutines|
  {
    PathInv(specs, Init(), acts, s);
    PathEnded(specs, Init(), acts, s);
    AllDelivered(s.goroutines);
  }

  /** How often an action is configured that starts a goroutine. */
  function Stresses(actions: seq<string>): nat {
    multiset(actions)["cpu"] + multiset(actions)["memory"] + multiset(actions)["disk_io"]
    + multiset(actions)["disk_fill"]
  }

  lemma StressesNext(actions: seq<string>, action: string)
    ensures Stresses([]) == 0
    ensures Stresses(actions + [action]) ==
            Stresses(actions) + if action in {"cpu", "memory", "disk_io", "disk_fill"} then 1 else 0
  {
    assert multiset(actions + [action]) == multiset(actions) + multiset{action};
    assert "cpu"[0] == 'c' && "memory"[0] == 'm' && "disk_io"[5] == 'i' && "disk_fill"[5] == 'f';
  }

  lemma {:induction false} StartedIs(policy: Option<Safety.Policy>, actions: seq<string>, n: nat)
    requires n <= |actions|
    requires forall i :: 0 <= i < |actions| && Specs(policy, actions)[i].known ==> Specs(policy, actions)[i].admitted
    ensures Started(Specs(policy, actions), n) == Stresses(actions[..n])
  {
    hide Stresses;
    StressesNext([], "");
    if n > 0 {
      StartedIs(policy, actions, n - 1);
      assert actions[..n] == actions[..n - 1] + [actions[n - 1]];
      StressesNext(actions[..n - 1], actions[n - 1]);
    }
  }

  // ---- Every run ends ----

  predicate MainDone(s: State) {
    s.main.Returned? || s.main.Refused?
  }

  function Measure(specs: seq<Spec>, s: State): int {
    Sum(s.goroutines, Rank) + |s.channel|
    + match s.main
      case Spawning(i) => 4 * (|specs| - i) + 3
      case Refused => 0
      case Draining => 1
      case Returned => 0
  }

  lemma StepDecreases(specs: seq<Spec>, s: State, a: Action)
    requires Spawned(specs, s) && Enabled(specs, s, a)
    ensures Measure(specs, Apply(specs, s, a)) < Measure(specs, s)
  {
    match a
    case Spawn => SumAppend(s.goroutines, [Running], Rank);
    case WaitDone =>
    case Drain =>
    case Send(g, failed) => SumUpdate(s.goroutines, g, Sent(failed), Rank);
    case Done(g) => SumUpdate(s.goroutines, g, Finished(s.goroutines[g].failed), Rank);
  }

  lemma {:induction false} PathBounded(specs: seq<Spec>, s: State, acts: seq<Action>, s': State)
    requires Spawned(specs, s) && Path(specs, s, acts, s')
    ensures |acts| <= Measure(specs, s)
    decreases |acts|
  {
    if acts == [] {
      SumBounds(s.goroutines, Rank, 0, 3);
    } else {
      StepSpawned(specs, s, acts[0]);
      StepDecreases(specs, s, acts[0]);
      PathBounded(specs, Apply(specs, s, acts[0]), acts[1..], s');
    }
  }

  /** Until the main goroutine has returned and all others have finished something can move, and
      no run is longer than the bound; so Run always returns and leaves no goroutine behind. */
  lemma AlwaysFinishes(specs: seq<Spec>, acts: seq<Action>, s: State) returns (a: Action)
    requires Path(specs, Init(), acts, s)
    ensures |acts| <= 4 * |specs| + 3
    ensures !(MainDone(s) && AllFinished(s)) ==> Enabled(specs, s, a)
  {
    PathBounded(specs, Init(), acts, s);
    PathInv(specs, Init(), acts, s);
    if AllFinished(s) {
      a := if s.main.Draining? then Drain
           else if s.main.Spawning? && s.main.next < |specs| then Spawn
           else WaitDone;
    } else {
      var g :| 0 <= g < |s.goroutines| && !s.goroutines[g].Finished?;
      if s.goroutines[g].Running? {
        SendNeverBlocks(specs, acts, s, g, false);
        a := Send(g, false);
      } else {
        a := Done(g);
      }
    }
  }

  ghost predicate CanMove(specs: seq<Spec>, s: State) {
    exists a :: Enabled(specs, s, a)
  }

  lemma {:induction false} PathExtend(specs: seq<Spec>, s: State, acts: seq<Action>, s': State, a: Action)
    requires Path(specs, s, acts, s') && Enabled(specs, s', a)
    ensures Path(specs, s, acts + [a], Apply(specs, s', a))
    decreases |acts|
  {
    var longer := acts + [a];
    if acts == [] {
      assert longer[1..] == [];
    } else {
      assert longer[1..] == acts[1..] + [a];
      PathExtend(specs, Apply(specs, s, acts[0]), acts[1..], s', a);
    }
  }

  /** Runs the actions under any scheduler until nothing is left to do. The run is refused exactly when some known
      action is, by a policy that allows none, and otherwise reports an error for each action that failed. */
  method Run(actions: seq<string>, policy: Option<Safety.Policy>, schedule: State -> Action)
    returns (s: State, ghost acts: seq<Action>)
    requires forall st: State :: CanMove(Specs(policy, actions), st) ==>
                                   Enabled(Specs(policy, actions), st, schedule(st))
    ensures Path(Specs(policy, actions), Init(), acts, s) && MainDone(s) && AllFinished(s)
    ensures s.main.Refused? <==>
            && policy.Some? && policy.value.cfg.enabled && !policy.value.cfg.allowDestructiveActions
            && exists action :: action in actions && action in {"cpu", "memory", "disk_io", "disk_fill"}
    ensures s.main.Returned? ==>
              && s.errs == Ended(acts, true) && |s.goroutines| == Ended(acts, true) + Ended(acts, false)
              && |s.goroutines| == Stresses(actions)
              && (s.errs == 0 <==> forall g :: g in s.goroutines ==> g == Finished(false))
  {
    hide Stresses;
    var specs := Specs(policy, actions);
    s, acts := Init(), [];
    while !(MainDone(s) && AllFinished(s))
      invariant Path(specs, Init(), acts, s)
      decreases 4 * |specs| + 3 - |acts|
    {
      ghost var possible := AlwaysFinishes(specs, acts, s);
      assert CanMove(specs, s);
      var a := schedule(s);
      PathExtend(specs, Init(), acts, s, a);
      s, acts := Apply(specs, s, a), acts + [a];
      ghost var bounded := AlwaysFinishes(specs, acts, s);
    }
    PathInv(specs, Init(), acts, s);
    RefusedIff(policy, actions);
    if s.main.Returned? {
      ReturnedNilIff(specs, acts, s);
      ErrorsAreFailures(specs, acts, s);
      StartedIs(policy, actions, |actions|);
      assert actions[..|actions|] == actions;
    }
  }

  lemma RefusedIff(policy: Option<Safety.Policy>, actions: seq<string>)
    ensures var specs := Specs(policy, actions);
            (exists i :: 0 <= i < |specs| && specs[i].known && !specs[i].admitted) <==>
            && policy.Some? && policy.value.cfg.enabled && !policy.value.cfg.allowDestructiveActions
            && exists action :: action in actions && action in {"cpu", "memory", "disk_io", "disk_fill"}
  {
    var specs := Specs(policy, actions);
    if i :| 0 <= i < |specs| && specs[i].known && !specs[i].admitted {
      assert actions[i] in actions;
    }
    if action :| action in actions && action in {"cpu", "memory", "disk_io", "disk_fill"} {
      var i :| 0 <= i < |actions| && actions[i] == action;
      assert specs[i].known;
    }
  }
}
