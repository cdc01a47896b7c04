/** The goroutines of a parallel scenario: each makes its attempts, then calls the callbacks, then
    appends its result and clears the shared success flag under the lock. Their steps interleave
    freely; `runs next` below is one choice of whose step comes next. */
module Parallel {
  import opened Sums
  import opened Scenarios

  /** Where a goroutine stands; its report is what it ends up with, the attempts being fixed. */
  datatype Goroutine =
    | Trying(report: StepReport, made: nat)
    | Reporting(report: StepReport)
    | Recording(report: StepReport)
    | Finished(report: StepReport)

  /** `trace` is what a callback has heard, `calls` how often Run has been called. */
  datatype State = State(goroutines: seq<Goroutine>, results: seq<Outcome>, trace: seq<Outcome>, calls: nat,
                         allSucceeded: bool)

  function Init(reports: seq<StepReport>): State {
    State(seq(|reports|, i requires 0 <= i < |reports| => Trying(reports[i], 0)), [], [], 0, true)
  }

  predicate Done(s: State) {
    forall g :: g in s.goroutines ==> g.Finished?
  }

  predicate Enabled(s: State, i: nat) {
    i < |s.goroutines| && !s.goroutines[i].Finished?
  }

  function Moved(g: Goroutine): Goroutine
    requires !g.Finished?
  {
    match g
    case Trying(r, made) => if made < r.calls then Trying(r, made + 1) else Reporting(r)
    case Reporting(r) => Recording(r)
    case Recording(r) => Finished(r)
  }

  /** What a goroutine's next step appends to the results and to the trace. */
  function AddedResult(g: Goroutine): seq<Outcome> {
    if g.Recording? then [g.report.result] else []
  }

  function AddedNotice(g: Goroutine): seq<Outcome> {
    if g.Reporting? && g.report.notified then [g.report.result] else []
  }

  function Advance(s: State, i: nat): State
    requires Enabled(s, i)
  {
    var g := s.goroutines[i];
    State(s.goroutines[i := Moved(g)], s.results + AddedResult(g), s.trace + AddedNotice(g),
          if g.Trying? && g.made < g.report.calls then s.calls + 1 else s.calls,
          s.allSucceeded && (g.Recording? ==> g.report.result.success))
  }

  ghost predicate Path(s: State, schedule: seq<nat>, s': State)
    decreases |schedule|
  {
    if schedule == [] then s' == s
    else Enabled(s, schedule[0]) && Path(Advance(s, schedule[0]), schedule[1..], s')
  }

  // ---- What each goroutine has contributed so far ----

  function Recorded(g: Goroutine): multiset<Outcome> {
    if g.Finished? then multiset{g.report.result} else multiset{}
  }

  function Heard(g: Goroutine): multiset<Outcome> {
    if (g.Recording? || g.Finished?) && g.report.notified then multiset{g.report.result} else multiset{}
  }

  function Made(g: Goroutine): int {
    if g.Trying? then g.made else g.report.calls
  }

  function Failures(g: Goroutine): int {
    if g.Finished? && !g.report.result.success then 1 else 0
  }

  function Left(g: Goroutine): int {
    match g
    case Trying(r, made) => r.calls - made + 3
    case Reporting(_) => 2
    case Recording(_) => 1
    case Finished(_) => 0
  }

  ghost predicate Shape(reports: seq<StepReport>, s: State) {
    && |s.goroutines| == |reports|
    && (forall i :: 0 <= i < |reports| ==> s.goroutines[i].report == reports[i])
    && (forall i :: 0 <= i < |reports| && s.goroutines[i].Trying? ==> s.goroutines[i].made <= reports[i].calls)
  }

  ghost predicate Logs(s: State) {
    && multiset(s.results) == Gather(s.goroutines, Recorded)
    && multiset(s.trace) == Gather(s.goroutines, Heard)
  }

  ghost predicate Tallies(s: State) {
    && s.calls == Sum(s.goroutines, Made)
    && (s.allSucceeded <==> Sum(s.goroutines, Failures) == 0)
    && Sum(s.goroutines, Failures) >= 0
  }

  ghost predicate Inv(reports: seq<StepReport>, s: State) {
    Shape(reports, s) && Logs(s) && Tallies(s)
  }

  lemma InitInv(reports: seq<StepReport>)
    ensures Inv(reports, Init(reports))
  {
    var gs := Init(reports).goroutines;
    GatherEmpty(gs, Recorded);
    GatherEmpty(gs, Heard);
    SumBounds(gs, Made, 0, 0);
    SumBounds(gs, Failures, 0, 0);
  }

  lemma AdvanceShape(reports: seq<StepReport>, s: State, i: nat)
    requires Shape(reports, s) && Enabled(s, i)
    ensures Shape(reports, Advance(s, i))
  {
  }

  lemma Grows<T>(before: multiset<T>, after: multiset<T>, out: multiset<T>, into: multiset<T>, added: multiset<T>)
    requires after + out == before + into && into == out + added
    ensures after == before + added
  {
    forall x
      ensures after[x] == (before + added)[x]
    {
      assert (after + out)[x] == (before + into)[x];
    }
  }

  lemma StepAdds(g: Goroutine)
    requires !g.Finished?
    ensures Recorded(Moved(g)) == Recorded(g) + multiset(AddedResult(g))
    ensures Heard(Moved(g)) == Heard(g) + multiset(AddedNotice(g))
  {
  }

  lemma LogFollows<T>(log: seq<T>, added: seq<T>, before: multiset<T>, after: multiset<T>, out: multiset<T>,
                      into: multiset<T>)
    requires multiset(log) == before && after + out == before + into && into == out + multiset(added)
    ensures multiset(log + added) == after
  {
    Grows(before, after, out, into, multiset(added));
  }

  lemma AdvanceLogs(s: State, i: nat)
    requires Logs(s) && Enabled(s, i)
    ensures Logs(Advance(s, i))
  {
    var g := s.goroutines[i];
    var gs' := s.goroutines[i := Moved(g)];
    StepAdds(g);
    GatherUpdate(s.goroutines, i, Moved(g), Recorded);
    LogFollows(s.results, AddedResult(g), Gather(s.goroutines, Recorded), Gather(gs', Recorded), Recorded(g),
               Recorded(Moved(g)));
    GatherUpdate(s.goroutines, i, Moved(g), Heard);
    LogFollows(s.trace, AddedNotice(g), Gather(s.goroutines, Heard), Gather(gs', Heard), Heard(g), Heard(Moved(g)));
  }

  lemma AdvanceTallies(s: State, i: nat)
    requires Tallies(s) && Enabled(s, i)
    requires s.goroutines[i].Trying? ==> s.goroutines[i].made <= s.goroutines[i].report.calls
    ensures Tallies(Advance(s, i))
  {
    var g' := Advance(s, i).goroutines[i];
    SumUpdate(s.goroutines, i, g', Made);
    SumUpdate(s.goroutines, i, g', Failures);
  }

  lemma AdvanceInv(reports: seq<StepReport>, s: State, i: nat)
    requires Inv(reports, s) && Enabled(s, i)
    ensures Inv(reports, Advance(s, i))
  {
    AdvanceShape(reports, s, i);
    AdvanceLogs(s, i);
    AdvanceTallies(s, i);
  }

  lemma AdvanceLowers(s: State, i: nat)
    requires Enabled(s, i)
    requires s.goroutines[i].Trying? ==> s.goroutines[i].made <= s.goroutines[i].report.calls
    ensures Sum(Advance(s, i).goroutines, Left) < Sum(s.goroutines, Left)
  {
    SumUpdate(s.goroutines, i, Advance(s, i).goroutines[i], Left);
  }

  lemma {:induction false} PathInv(reports: seq<StepReport>, s: State, schedule: seq<nat>, s': State)
    requires Inv(reports, s) && Path(s, schedule, s')
    ensures Inv(reports, s')
    decreases |schedule|
  {
    if schedule != [] {
      AdvanceInv(reports, s, schedule[0]);
      PathInv(reports, Advance(s, schedule[0]), schedule[1..], s');
    }
  }

  // ---- What all of them contribute ----

  function ResultOf(r: StepReport): multiset<Outcome> { multiset{r.result} }

  function NoticeOf(r: StepReport): multiset<Outcome> {
    if r.notified then multiset{r.result} else multiset{}
  }

  function CallsOf(r: StepReport): int { r.calls }

  ghost predicate Succeeded(reports: seq<StepReport>) {
    forall r :: r in reports ==> r.result.success
  }

  lemma {:induction false} FinishedLogs(gs: seq<Goroutine>, reports: seq<StepReport>)
    requires |gs| == |reports|
    requires forall i :: 0 <= i < |gs| ==> gs[i] == Finished(reports[i])
    ensures Gather(gs, Recorded) == Gather(reports, ResultOf)
    ensures Gather(gs, Heard) == Gather(reports, NoticeOf)
  {
    if gs != [] {
      FinishedLogs(gs[1..], reports[1..]);
    }
  }

  lemma {:induction false} FinishedTallies(gs: seq<Goroutine>, reports: seq<StepReport>)
    requires |gs| == |reports|
    requires forall i :: 0 <= i < |gs| ==> gs[i] == Finished(reports[i])
    ensures Sum(gs, Made) == Sum(reports, CallsOf)
    ensures Sum(gs, Failures) >= 0
    ensures Sum(gs, Failures) == 0 <==> Succeeded(reports)
  {
    if gs != [] {
      FinishedTallies(gs[1..], reports[1..]);
      assert forall r :: r in reports <==> r == reports[0] || r in reports[1..];
    }
  }

  /** Whatever the interleaving: when all goroutines are done the results are a permutation of
      the steps' results, the callbacks heard exactly the reported ones, Run was called as often
      as the steps make it, and the flag is the conjunction of the steps' successes. */
  lemma InterleavingIrrelevant(reports: seq<StepReport>, schedule: seq<nat>, s: State)
    requires Path(Init(reports), schedule, s) && Done(s)
    ensures multiset(s.results) == Gather(reports, ResultOf)
    ensures multiset(s.trace) == Gather(reports, NoticeOf)
    ensures s.calls == Sum(reports, CallsOf)
    ensures s.allSucceeded <==> Succeeded(reports)
  {
    InitInv(reports);
    PathInv(reports, Init(reports), schedule, s);
    forall i | 0 <= i < |reports|
      ensures s.goroutines[i] == Finished(reports[i])
    {
      assert s.goroutines[i] in s.goroutines;
    }
    FinishedLogs(s.goroutines, reports);
    FinishedTallies(s.goroutines, reports);
  }

  lemma {:induction false} PathExtend(s: State, schedule: seq<nat>, s': State, i: nat)
    requires Path(s, schedule, s') && Enabled(s', i)
    ensures Path(s, schedule + [i], Advance(s', i))
    decreases |schedule|
  {
    var longer := schedule + [i];
    if schedule == [] {
      assert longer[1..] == [];
    } else {
      assert longer[1..] == schedule[1..] + [i];
      PathExtend(Advance(s, schedule[0]), schedule[1..], s', i);
    }
  }

  ghost predicate CanMove(s: State) {
    exists i :: Enabled(s, i)
  }

  /** Starts the goroutines and waits for them, under any scheduler. */
  method RunAll(reports: seq<StepReport>, next: State -> nat) returns (s: State)
    requires forall st: State :: CanMove(st) ==> Enabled(st, next(st))
    ensures multiset(s.results) == Gather(reports, ResultOf)
    ensures multiset(s.trace) == Gather(reports, NoticeOf)
    ensures s.calls == Sum(reports, CallsOf)
    ensures s.allSucceeded <==> Succeeded(reports)
  {
    s := Init(reports);
    ghost var schedule := [];
    InitInv(reports);
    while !Done(s)
      invariant Path(Init(reports), schedule, s)
      decreases Remaining(reports, schedule, s)
    {
      MoveLowers(reports, schedule, s, next);
      var i := next(s);
      s, schedule := Advance(s, i), schedule + [i];
    }
    InterleavingIrrelevant(reports, schedule, s);
  }

  ghost function Remaining(reports: seq<StepReport>, schedule: seq<nat>, s: State): nat
    requires Path(Init(reports), schedule, s)
  {
    InitInv(reports);
    PathInv(reports, Init(reports), schedule, s);
    LeftNonNegative(s.goroutines);
    Sum(s.goroutines, Left)
  }

  lemma MoveLowers(reports: seq<StepReport>, schedule: seq<nat>, s: State, next: State -> nat)
    requires Path(Init(reports), schedule, s) && !Done(s)
    requires forall st: State :: CanMove(st) ==> Enabled(st, next(st))
    ensures Enabled(s, next(s))
    ensures Path(Init(reports), schedule + [next(s)], Advance(s, next(s)))
    ensures Remaining(reports, schedule + [next(s)], Advance(s, next(s))) < Remaining(reports, schedule, s)
  {
    var waiting :| 0 <= waiting < |s.goroutines| && !s.goroutines[waiting].Finished?;
    assert Enabled(s, waiting);
    assert CanMove(s);
    PathExtend(Init(reports), schedule, s, next(s));
    InitInv(reports);
    PathInv(reports, Init(reports), schedule, s);
    AdvanceLowers(s, next(s));
  }

  lemma {:induction false} LeftNonNegative(gs: seq<Goroutine>)
    requires forall i :: 0 <= i < |gs| && gs[i].Trying? ==> gs[i].made <= gs[i].report.calls
    ensures Sum(gs, Left) >= 0
  {
    if gs != [] {
      LeftNonNegative(gs[1..]);
    }
  }
}
