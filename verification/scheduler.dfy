/** The round loops of pkg/scheduler over the engine, and the accounting across rounds. Clocks and
    cron expressions are parameters. */
module Scheduler {
  import opened Config
  import opened Scenarios
  import opened Sums
  import opened ChaosEngine
  import Report
  import Safety

  /** What one round meets: its outcomes, the order the sort gives the scenarios, the schedulers
      of parallel scenarios. */
  datatype Round = Round(w: World, plan: seq<Scenario>, next: Schedulers, flat: nat -> Attempt)

  /** What one round returned and what the callbacks heard of it. */
  datatype Log = Log(returned: seq<Outcome>, heard: seq<Outcome>)

  ghost predicate RoundDone(cfg: Config, experiments: seq<Experiment>, r: Round, log: Log) {
    if Safety.CapExceeded(cfg, experiments) then log == Log([], [])
    else
      var reports := RunReports(cfg, experiments, r.w, r.plan, r.flat);
      CarriedOut(reports, NoParallel(r.plan), log.returned, log.heard, TotalCalls(reports))
  }

  /** The results a round leaves with the engine: none if it was cut short. */
  ghost function Kept(cfg: Config, experiments: seq<Experiment>, r: Round, log: Log): seq<Outcome> {
    if CutShort(cfg, experiments, r.flat) then [] else log.returned
  }

  ghost function AllKept(cfg: Config, experiments: seq<Experiment>, rounds: nat -> Round,
                         logs: seq<Log>): seq<Outcome> {
    if logs == [] then []
    else
      var last := |logs| - 1;
      AllKept(cfg, experiments, rounds, logs[..last]) + Kept(cfg, experiments, rounds(last), logs[last])
  }

  function Returned(logs: seq<Log>): seq<Outcome> {
    if logs == [] then [] else Returned(logs[..|logs| - 1]) + logs[|logs| - 1].returned
  }

  function Heard(logs: seq<Log>): seq<Outcome> {
    if logs == [] then [] else Heard(logs[..|logs| - 1]) + logs[|logs| - 1].heard
  }

  ghost predicate Valid(cfg: Config, named: map<string, Experiment>, r: Round) {
    && r.w.named == named && r.w.dryRun == cfg.dryRun
    && IsPlan(r.plan, cfg.scenarios) && Fair(r.next)
  }

  ghost predicate AllValid(cfg: Config, named: map<string, Experiment>, rounds: nat -> Round) {
    forall i :: Valid(cfg, named, rounds(i))
  }

  ghost predicate AllDone(cfg: Config, experiments: seq<Experiment>, rounds: nat -> Round, logs: seq<Log>) {
    forall i :: 0 <= i < |logs| ==> RoundDone(cfg, experiments, rounds(i), logs[i])
  }

  /** What an engine holds when exactly the rounds of `logs` were carried out since it held
      `results0` and `trace0`. */
  ghost predicate Account(cfg: Config, experiments: seq<Experiment>, rounds: nat -> Round, logs: seq<Log>,
                          results0: seq<Outcome>, trace0: seq<Outcome>, results: seq<Outcome>, trace: seq<Outcome>) {
    && AllDone(cfg, experiments, rounds, logs)
    && results == results0 + AllKept(cfg, experiments, rounds, logs)
    && trace == trace0 + Heard(logs)
  }

  lemma AccountStart(cfg: Config, experiments: seq<Experiment>, rounds: nat -> Round, results: seq<Outcome>,
                     trace: seq<Outcome>)
    ensures Account(cfg, experiments, rounds, [], results, trace, results, trace)
  {
  }

  lemma KeptNext(cfg: Config, experiments: seq<Experiment>, rounds: nat -> Round, logs: seq<Log>, log: Log)
    ensures AllKept(cfg, experiments, rounds, logs + [log])
         == AllKept(cfg, experiments, rounds, logs) + Kept(cfg, experiments, rounds(|logs|), log)
    ensures Heard(logs + [log]) == Heard(logs) + log.heard
  {
    assert (logs + [log])[..|logs|] == logs;
  }

  lemma DoneNext(cfg: Config, experiments: seq<Experiment>, rounds: nat -> Round, logs: seq<Log>, log: Log)
    requires AllDone(cfg, experiments, rounds, logs) && RoundDone(cfg, experiments, rounds(|logs|), log)
    ensures AllDone(cfg, experiments, rounds, logs + [log])
  {
    hide RoundDone;
  }

  lemma AccountNext(cfg: Config, experiments: seq<Experiment>, rounds: nat -> Round, logs: seq<Log>,
                    results0: seq<Outcome>, trace0: seq<Outcome>, results: seq<Outcome>, trace: seq<Outcome>, log: Log)
    requires Account(cfg, experiments, rounds, logs, results0, trace0, results, trace)
    requires RoundDone(cfg, experiments, rounds(|logs|), log)
    ensures Account(cfg, experiments, rounds, logs + [log], results0, trace0,
                    results + Kept(cfg, experiments, rounds(|logs|), log), trace + log.heard)
  {
    hide RoundDone, AllDone;
    DoneNext(cfg, experiments, rounds, logs, log);
    KeptNext(cfg, experiments, rounds, logs, log);
    ConcatAssoc(results0, AllKept(cfg, experiments, rounds, logs), Kept(cfg, experiments, rounds(|logs|), log));
    ConcatAssoc(trace0, Heard(logs), log.heard);
  }

  /** How a round loop stands when it is last looked at. */
  datatype End = Finished | Aborted | Rejected | Going

  /** The number of rounds after which a loop ends, if it does. */
  function LastRound(max: int, doneAfter: Option<nat>): Option<nat> {
    if max > 0 && (doneAfter.Some? ==> max <= doneAfter.value) then Some(max) else doneAfter
  }

  function RoundsBy(max: int, doneAfter: Option<nat>, watched: nat): nat {
    var last := LastRound(max, doneAfter);
    if last.Some? && last.value <= watched then last.value else watched
  }

  function EndOf(max: int, doneAfter: Option<nat>, watched: nat): End {
    var last := LastRound(max, doneAfter);
    if last.None? || last.value > watched then Going
    else if max > 0 && (doneAfter.Some? ==> max <= doneAfter.value) then Finished
    else Aborted
  }

  class Scheduler {
    const maxExperiments: int
    const engine: Engine

    constructor (maxExperiments: int, engine: Engine)
      ensures this.maxExperiments == maxExperiments && this.engine == engine
    {
      this.maxExperiments, this.engine := maxExperiments, engine;
    }

    ghost predicate Stands(rounds: nat -> Round, logs: seq<Log>, results0: seq<Outcome>, trace0: seq<Outcome>)
      reads engine
    {
      Account(engine.cfg, engine.experiments, rounds, logs, results0, trace0, engine.results, engine.trace)
    }

    /** One engine round, the engine's answer kept as a log entry. */
    method RunRound(r: Round) returns (ghost log: Log)
      requires Valid(engine.cfg, engine.named, r)
      modifies engine`results, engine`trace, engine`calls
      ensures RoundDone(engine.cfg, engine.experiments, r, log)
      ensures engine.results == old(engine.results) + Kept(engine.cfg, engine.experiments, r, log)
      ensures engine.trace == old(engine.trace) + log.heard
    {
      var rs;
      ghost var heard;
      rs, heard := engine.RunAll(r.w, r.plan, r.next, r.flat);
      log := Log(rs, heard);
    }

    method NextRound(rounds: nat -> Round, n: nat, ghost logs: seq<Log>, ghost results0: seq<Outcome>,
                     ghost trace0: seq<Outcome>)
      returns (ghost logs': seq<Log>)
      requires AllValid(engine.cfg, engine.named, rounds) && |logs| == n
      requires Stands(rounds, logs, results0, trace0)
      modifies engine`results, engine`trace, engine`calls
      ensures |logs'| == n + 1 && Stands(rounds, logs', results0, trace0)
    {
      ghost var results1, trace1 := engine.results, engine.trace;
      ghost var log := RunRound(rounds(n));
      AccountNext(engine.cfg, engine.experiments, rounds, logs, results0, trace0, results1, trace1, log);
      logs' := logs + [log];
    }

    /** The rounds up to the maximum, or up to the one after which the context is found done, whichever
        comes first; with neither the loop goes on for good. `watched` says how many rounds to look on,
        so every run, endless ones included, is described as far as it gets. */
    method RunContinuous(rounds: nat -> Round, doneAfter: Option<nat>, watched: nat)
      returns (end: End, n: nat, ghost logs: seq<Log>)
      requires AllValid(engine.cfg, engine.named, rounds)
      requires doneAfter.Some? ==> doneAfter.value > 0
      modifies engine`results, engine`trace, engine`calls
      ensures |logs| == n && Stands(rounds, logs, old(engine.results), old(engine.trace))
      ensures end == EndOf(maxExperiments, doneAfter, watched) && n == RoundsBy(maxExperiments, doneAfter, watched)
      ensures n <= watched && (maxExperiments > 0 ==> n <= maxExperiments) && (doneAfter.Some? ==> n <= doneAfter.value)
      ensures end.Finished? <==> maxExperiments > 0 && n == maxExperiments
      ensures end.Aborted? <==> doneAfter == Some(n) && !(maxExperiments > 0 && n == maxExperiments)
      ensures end.Going? || end.Finished? || end.Aborted?
      ensures end.Going? ==> n == watched
    {
      hide Account;
      end, n, logs := Going, 0, [];
      AccountStart(engine.cfg, engine.experiments, rounds, engine.results, engine.trace);
      while n < watched
        invariant |logs| == n <= watched
        invariant (maxExperiments > 0 ==> n < maxExperiments) && (doneAfter.Some? ==> n < doneAfter.value)
        invariant Stands(rounds, logs, old(engine.results), old(engine.trace))
      {
        logs := NextRound(rounds, n, logs, old(engine.results), old(engine.trace));
        n := n + 1;
        if maxExperiments > 0 && n >= maxExperiments {
          return Finished, n, logs;
        }
        if doneAfter == Some(n) {
          return Aborted, n, logs;
        }
      }
    }

    /** The cron loop waits before each round, so it may be cancelled before the first. */
    method RunCron(parses: bool, rounds: nat -> Round, doneAfter: Option<nat>, watched: nat)
      returns (end: End, n: nat, ghost logs: seq<Log>)
      requires AllValid(engine.cfg, engine.named, rounds)
      modifies engine`results, engine`trace, engine`calls
      ensures |logs| == n && Stands(rounds, logs, old(engine.results), old(engine.trace))
      ensures end == if parses then EndOf(maxExperiments, doneAfter, watched) else Rejected
      ensures n == if parses then RoundsBy(maxExperiments, doneAfter, watched) else 0
      ensures end.Rejected? <==> !parses
      ensures n <= watched && (maxExperiments > 0 ==> n <= maxExperiments) && (doneAfter.Some? ==> n <= doneAfter.value)
      ensures parses ==>
                && (end.Finished? <==> maxExperiments > 0 && n == maxExperiments)
                && (end.Aborted? <==> doneAfter == Some(n) && !(maxExperiments > 0 && n == maxExperiments))
                && (end.Going? ==> n == watched)
    {
      hide Account;
      n, logs := 0, [];
      AccountStart(engine.cfg, engine.experiments, rounds, engine.results, engine.trace);
      if !parses {
        return Rejected, n, logs;
      }
      while true
        invariant |logs| == n <= watched
        invariant (maxExperiments > 0 ==> n < maxExperiments) && (doneAfter.Some? ==> n <= doneAfter.value)
        invariant Stands(rounds, logs, old(engine.results), old(engine.trace))
        decreases watched - n
      {
        if doneAfter == Some(n) {
          return Aborted, n, logs;
        }
        if n == watched {
          return Going, n, logs;
        }
        logs := NextRound(rounds, n, logs, old(engine.results), old(engine.trace));
        n := n + 1;
        if maxExperiments > 0 && n >= maxExperiments {
          return Finished, n, logs;
        }
      }
    }
  }

  // ---- Conservation across rounds ----

  /** A round in which nothing is cancelled and every step names a registered experiment. */
  ghost predicate Clean(r: Round) {
    && Uncancelled(r.w) && AllKnown(r.w, r.plan)
    && forall i :: !r.flat(i).Cancelled?
  }

  lemma CleanRound(cfg: Config, experiments: seq<Experiment>, r: Round, log: Log)
    requires RoundDone(cfg, experiments, r, log) && Clean(r)
    ensures multiset(log.heard) == multiset(log.returned)
    ensures NoParallel(r.plan) ==> log.heard == log.returned
    ensures Kept(cfg, experiments, r, log) == log.returned
  {
    var stop := StopsAt(r.flat, 0, |experiments|);
    assert !CutShort(cfg, experiments, r.flat);
    PlanNotified(r.w, r.plan, |r.plan|);
    FlatNotified(experiments, cfg.dryRun, r.flat, stop);
  }

  /** When no round is cancelled and all ids are known, nothing is lost or counted twice: what
      the rounds kept is what they returned, one after the other, and the callbacks heard the
      same results, in the same order if nothing ran in parallel. */
  lemma {:induction false} CleanRounds(cfg: Config, experiments: seq<Experiment>, rounds: nat -> Round, logs: seq<Log>)
    requires AllDone(cfg, experiments, rounds, logs) && forall i :: 0 <= i < |logs| ==> Clean(rounds(i))
    ensures AllKept(cfg, experiments, rounds, logs) == Returned(logs)
    ensures multiset(Heard(logs)) == multiset(Returned(logs))
    ensures (forall i :: 0 <= i < |logs| ==> NoParallel(rounds(i).plan)) ==> Heard(logs) == Returned(logs)
  {
    hide RoundDone, Clean, Kept, NoParallel;
    if logs != [] {
      var last := |logs| - 1;
      CleanRounds(cfg, experiments, rounds, logs[..last]);
      CleanRound(cfg, experiments, rounds(last), logs[last]);
    }
  }

  // ---- What the metrics and the report make of it ----

  /** A step or experiment skipped by a dry run counts as a success. */
  ghost predicate SkipsSucceed(outcomes: seq<Outcome>) {
    forall o :: o in outcomes ==> (o.detail == DryRunSkipped ==> o.success)
  }

  lemma {:induction false} OutcomesSkip(reports: seq<StepReport>)
    requires forall r :: r in reports ==> (r.result.detail == DryRunSkipped ==> r.result.success)
    ensures SkipsSucceed(Outcomes(reports))
  {
    if reports != [] {
      assert reports[0] in reports && forall r :: r in reports[1..] ==> r in reports;
      OutcomesSkip(reports[1..]);
    }
  }

  lemma {:induction false} WalkSkips(w: World, k: nat, sc: Scenario, i: nat)
    requires i <= |sc.steps|
    ensures forall r :: r in WalkTo(w, k, sc, i).reports ==> (r.result.detail == DryRunSkipped ==> r.result.success)
  {
    if i > 0 {
      WalkSkips(w, k, sc, i - 1);
    }
  }

  lemma {:induction false} PlanSkips(w: World, plan: seq<Scenario>, k: nat)
    requires k <= |plan|
    ensures forall r :: r in PlanReports(w, plan, k) ==> (r.result.detail == DryRunSkipped ==> r.result.success)
  {
    if k > 0 {
      hide WalkTo, ScenarioOk, SuccessMap, PrerequisitesMet;
      PlanSkips(w, plan, k - 1);
      WalkSkips(w, k - 1, plan[k - 1], |plan[k - 1].steps|);
    }
  }

  lemma RoundSkips(cfg: Config, experiments: seq<Experiment>, r: Round, log: Log)
    requires RoundDone(cfg, experiments, r, log) && Clean(r)
    ensures SkipsSucceed(log.heard)
  {
    CleanRound(cfg, experiments, r, log);
    if !Safety.CapExceeded(cfg, experiments) {
      var reports := RunReports(cfg, experiments, r.w, r.plan, r.flat);
      PlanSkips(r.w, r.plan, |r.plan|);
      OutcomesSkip(reports);
      forall o | o in log.heard
        ensures o in Outcomes(reports)
      {
        assert o in multiset(log.heard) && o in multiset(log.returned) && o in multiset(Outcomes(reports));
      }
    }
  }

  lemma {:induction false} RoundsSkip(cfg: Config, experiments: seq<Experiment>, rounds: nat -> Round, logs: seq<Log>)
    requires AllDone(cfg, experiments, rounds, logs) && forall i :: 0 <= i < |logs| ==> Clean(rounds(i))
    ensures SkipsSucceed(Heard(logs))
  {
    hide RoundDone, Clean;
    if logs != [] {
      var last := |logs| - 1;
      RoundsSkip(cfg, experiments, rounds, logs[..last]);
      RoundSkips(cfg, experiments, rounds(last), logs[last]);
    }
  }

  /** From a fresh engine, after clean rounds: Results() is the rounds' results in sequence, and the
      callbacks heard just as many successes and failures. */
  lemma WholeRunAddsUp(cfg: Config, experiments: seq<Experiment>, rounds: nat -> Round, logs: seq<Log>,
                       results: seq<Outcome>, trace: seq<Outcome>)
    requires Account(cfg, experiments, rounds, logs, [], [], results, trace)
    requires forall i :: 0 <= i < |logs| ==> Clean(rounds(i))
    ensures results == Returned(logs) && |results| == |trace|
    ensures Sum(trace, Report.IsSuccess) == Sum(results, Report.IsSuccess)
    ensures Sum(trace, Report.IsFailure) == Sum(results, Report.IsFailure)
    ensures |results| == Sum(results, Report.IsSuccess) + Sum(results, Report.IsFailure)
    ensures SkipsSucceed(trace)
  {
    hide AllDone, Clean;
    CleanRounds(cfg, experiments, rounds, logs);
    RoundsSkip(cfg, experiments, rounds, logs);
    assert results == AllKept(cfg, experiments, rounds, logs) && trace == Heard(logs);
    Report.MetricsAddUp(trace, results);
  }

  lemma AccountDone(cfg: Config, experiments: seq<Experiment>, rounds: nat -> Round, logs: seq<Log>,
                    results0: seq<Outcome>, trace0: seq<Outcome>, results: seq<Outcome>, trace: seq<Outcome>)
    requires Account(cfg, experiments, rounds, logs, results0, trace0, results, trace)
    ensures AllDone(cfg, experiments, rounds, logs)
  {
  }

  /** A whole run of the program: rounds, the callback on every result, and the report at the end. The
      metrics make up the results, and without parallel scenarios so does the report; both see the same
      failures. */
  method RunAndReport(s: Scheduler, rounds: nat -> Round, doneAfter: Option<nat>, watched: nat,
                      c: Report.Collector, b: Report.Builder)
    returns (summary: Report.Summary, n: nat, ghost logs: seq<Log>)
    requires AllValid(s.engine.cfg, s.engine.named, rounds) && forall i :: Clean(rounds(i))
    requires doneAfter.Some? ==> doneAfter.value > 0
    requires s.engine.results == [] && s.engine.trace == []
    requires c.total == c.success == c.failed == 0 && b.entries == []
    modifies s.engine`results, s.engine`trace, s.engine`calls, c, b
    ensures n == RoundsBy(s.maxExperiments, doneAfter, watched) == |logs|
    ensures AllDone(s.engine.cfg, s.engine.experiments, rounds, logs)
    ensures s.engine.results == Returned(logs)
    ensures c.total == c.success + c.failed == |s.engine.results|
    ensures c.success == Sum(s.engine.results, Report.IsSuccess) && c.failed == Sum(s.engine.results, Report.IsFailure)
    ensures (forall i :: NoParallel(rounds(i).plan)) ==>
              && summary.total == summary.succeeded + summary.failed + summary.skipped == |s.engine.results|
              && summary.failed == c.failed && summary.succeeded + summary.skipped == c.success
  {
    hide AllValid, AllDone, Clean, Account, SkipsSucceed, Returned, EndOf, RoundsBy, NoParallel, Report.Entries;
    var end;
    end, n, logs := s.RunContinuous(rounds, doneAfter, watched);
    WholeRunAddsUp(s.engine.cfg, s.engine.experiments, rounds, logs, s.engine.results, s.engine.trace);
    AccountDone(s.engine.cfg, s.engine.experiments, rounds, logs, [], [], s.engine.results, s.engine.trace);
    Report.SuccessOrFailure(s.engine.trace);
    Report.Deliver(s.engine.trace, c, b);
    assert b.entries == Report.Entries(s.engine.trace);
    summary := b.Build();
    EntriesCount(s.engine.trace);
  }

  lemma {:induction false} EntriesCount(trace: seq<Outcome>)
    requires SkipsSucceed(trace)
    ensures |Report.Entries(trace)| == |trace|
    ensures Sum(Report.Entries(trace), Report.IsFailed) == Sum(trace, Report.IsFailure)
  {
    if trace != [] {
      var entries := Report.Entries(trace);
      assert trace[0] in trace && entries[1..] == Report.Entries(trace[1..]);
      EntriesCount(trace[1..]);
    }
  }
}
