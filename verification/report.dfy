/** What the result callback of main feeds: the metrics counters and the report builder
    (pkg/metrics, pkg/report). */
module Report {
  import opened Scenarios
  import opened Sums

  datatype Status = Passed | Failed | Skipped

  datatype Entry = Entry(name: string, status: Status)

  datatype Summary = Summary(total: nat, succeeded: nat, failed: nat, skipped: nat)

  /** The status of a result: an error makes it failed, a dry-run detail overrides both. */
  function StatusOf(o: Outcome): Status {
    if o.detail == DryRunSkipped then Skipped else if o.success then Passed else Status.Failed
  }

  function Entries(trace: seq<Outcome>): seq<Entry> {
    seq(|trace|, i requires 0 <= i < |trace| => Entry(trace[i].name, StatusOf(trace[i])))
  }

  function IsPassed(e: Entry): int { if e.status.Passed? then 1 else 0 }
  function IsFailed(e: Entry): int { if e.status.Failed? then 1 else 0 }
  function IsSkipped(e: Entry): int { if e.status.Skipped? then 1 else 0 }
  function IsSuccess(o: Outcome): int { if o.success then 1 else 0 }
  function IsFailure(o: Outcome): int { if o.success then 0 else 1 }

  function Statuses(entries: seq<Entry>): seq<Status> {
    seq(|entries|, i requires 0 <= i < |entries| => entries[i].status)
  }

  function Successes(trace: seq<Outcome>): seq<bool> {
    seq(|trace|, i requires 0 <= i < |trace| => trace[i].success)
  }

  /** The sums count the entries of each status, and the results of each kind. */
  lemma {:induction false} StatusCounts(entries: seq<Entry>)
    ensures Sum(entries, IsPassed) == multiset(Statuses(entries))[Passed]
    ensures Sum(entries, IsFailed) == multiset(Statuses(entries))[Status.Failed]
    ensures Sum(entries, IsSkipped) == multiset(Statuses(entries))[Skipped]
  {
    if entries != [] {
      StatusCounts(entries[1..]);
      assert Statuses(entries) == [entries[0].status] + Statuses(entries[1..]);
    }
  }

  lemma {:induction false} SuccessCounts(trace: seq<Outcome>)
    ensures Sum(trace, IsSuccess) == multiset(Successes(trace))[true]
    ensures Sum(trace, IsFailure) == multiset(Successes(trace))[false]
  {
    if trace != [] {
      SuccessCounts(trace[1..]);
      assert Successes(trace) == [trace[0].success] + Successes(trace[1..]);
    }
  }

  class Collector {
    var total: int
    var success: int
    var failed: int

    constructor ()
      ensures total == success == failed == 0
    {
      total, success, failed := 0, 0, 0;
    }
  }

  class Builder {
    var entries: seq<Entry>

    constructor ()
      ensures entries == []
    {
      entries := [];
    }

    method RecordExperiment(name: string, isError: bool, dryRunSkipped: bool)
      modifies this
      ensures entries == old(entries)
                         + [Entry(name, if dryRunSkipped then Skipped else if isError then Status.Failed else Passed)]
    {
      var status := Passed;
      if isError {
        status := Status.Failed;
      }
      if dryRunSkipped {
        status := Skipped;
      }
      entries := entries + [Entry(name, status)];
    }

    /** Counts the entries by status; the three counts make up the total. */
    method Build() returns (s: Summary)
      ensures s.total == |entries| == s.succeeded + s.failed + s.skipped
      ensures s.succeeded == Sum(entries, IsPassed) && s.failed == Sum(entries, IsFailed)
      ensures s.skipped == Sum(entries, IsSkipped)
      ensures var statuses := multiset(Statuses(entries));
              s.succeeded == statuses[Passed] && s.failed == statuses[Status.Failed] && s.skipped == statuses[Skipped]
    {
      StatusCounts(entries);
      s := Summary(|entries|, 0, 0, 0);
      var i := 0;
      while i < |entries|
        invariant 0 <= i <= |entries| == s.total
        invariant s.succeeded == Sum(entries[..i], IsPassed) && s.failed == Sum(entries[..i], IsFailed)
        invariant s.skipped == Sum(entries[..i], IsSkipped) && s.succeeded + s.failed + s.skipped == i
      {
        var e := entries[i];
        SumLast(entries, i, IsPassed);
        SumLast(entries, i, IsFailed);
        SumLast(entries, i, IsSkipped);
        match e.status {
          case Passed => s := s.(succeeded := s.succeeded + 1);
          case Failed => s := s.(failed := s.failed + 1);
          case Skipped => s := s.(skipped := s.skipped + 1);
        }
        i := i + 1;
      }
      assert entries[..|entries|] == entries;
    }
  }

  /** Calls main's callback on every result an engine reports, in order. */
  method Deliver(trace: seq<Outcome>, c: Collector, b: Builder)
    modifies c, b
    ensures c.total == old(c.total) + |trace|
    ensures c.success == old(c.success) + Sum(trace, IsSuccess)
    ensures c.failed == old(c.failed) + Sum(trace, IsFailure)
    ensures b.entries == old(b.entries) + Entries(trace)
    ensures c.success == old(c.success) + multiset(Successes(trace))[true]
    ensures c.failed == old(c.failed) + multiset(Successes(trace))[false]
  {
    assert Entries(trace[..0]) == [];
    hide Entries, Successes;
    var i := 0;
    while i < |trace|
      invariant 0 <= i <= |trace|
      invariant c.total == old(c.total) + i
      invariant c.success == old(c.success) + Sum(trace[..i], IsSuccess)
      invariant c.failed == old(c.failed) + Sum(trace[..i], IsFailure)
      invariant b.entries == old(b.entries) + Entries(trace[..i])
    {
      var r := trace[i];
      EntriesNext(trace, i);
      ConcatAssoc(old(b.entries), Entries(trace[..i]), [Entry(r.name, StatusOf(r))]);
      SumLast(trace, i, IsSuccess);
      SumLast(trace, i, IsFailure);
      c.total := c.total + 1;
      if r.success {
        c.success := c.success + 1;
      } else {
        c.failed := c.failed + 1;
      }
      b.RecordExperiment(r.name, !r.success, r.detail == DryRunSkipped);
      i := i + 1;
    }
    assert trace[..|trace|] == trace;
    SuccessCounts(trace);
  }

  lemma EntriesNext(trace: seq<Outcome>, i: nat)
    requires i < |trace|
    ensures Entries(trace[..i + 1]) == Entries(trace[..i]) + [Entry(trace[i].name, StatusOf(trace[i]))]
  {
  }

  lemma {:induction false} SuccessOrFailure(trace: seq<Outcome>)
    ensures Sum(trace, IsSuccess) + Sum(trace, IsFailure) == |trace|
    ensures Sum(trace, IsSuccess) >= 0 && Sum(trace, IsFailure) >= 0
  {
    if trace != [] {
      SuccessOrFailure(trace[1..]);
    }
  }

  /** If the callbacks heard the results in some order, the metrics add up to the results. */
  lemma MetricsAddUp(trace: seq<Outcome>, results: seq<Outcome>)
    requires multiset(trace) == multiset(results)
    ensures |trace| == |results| == Sum(trace, IsSuccess) + Sum(trace, IsFailure)
    ensures Sum(trace, IsSuccess) == Sum(results, IsSuccess)
    ensures Sum(trace, IsFailure) == Sum(results, IsFailure)
  {
    SumPermutation(trace, results, IsSuccess);
    SumPermutation(trace, results, IsFailure);
    SuccessOrFailure(trace);
    assert |multiset(trace)| == |trace| && |multiset(results)| == |results|;
  }
}
