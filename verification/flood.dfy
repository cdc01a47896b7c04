/** The worker pool shared by pkg/httpflood, pkg/grpcflood and pkg/mqflood: one dispatcher,
    a fixed number of workers, a bounded channel between them, cancellation and atomic
    counters. Every atomic operation of the program is one action here, so a sequence of
    actions is one interleaving. */
module Flood {
  import opened Sums
  import Payload

  datatype Protocol = Http | Grpc | Mq

  /** One flood target as configured. `noise` is the random source, per job and byte. */
  datatype Target = Target(protocol: Protocol, concurrency: int, requests: int, messageSize: int, rated: bool,
                           source: Payload.Source, noise: nat -> nat -> Payload.Byte)
  {
    function Workers(): (n: nat)
      ensures n > 0
    {
      if concurrency <= 0 then 1 else concurrency
    }

    function Jobs(): (n: nat)
      ensures n > 0
    {
      if requests <= 0 then 100 else requests
    }

    function Size(): (n: nat)
      ensures n > 0
    {
      if messageSize <= 0 then 256 else messageSize
    }
  }

  /** Where the dispatcher stands; `next` is the index it sends next, so also its sends so far. */
  datatype Dispatcher =
    | Check(next: nat)
    | Tick(next: nat)
    | Send(next: nat)
    | Closing(next: nat)
    | Closed(next: nat)

  /** Where a worker stands. A failing worker has counted the error of a bad request but not
      yet the request; a counted one has counted the request but not yet how it ended; a paying
      one has counted a published message but not yet its bytes. */
  datatype Worker =
    | Idle
    | Got(job: nat)
    | Busy(job: nat)
    | Failing(job: nat)
    | Counted(job: nat, ok: bool)
    | Paying(job: nat)
    | Exited

  /** `executed` and `discarded` record which jobs were counted and which were thrown away. */
  datatype State = State(dispatcher: Dispatcher, workers: seq<Worker>, channel: seq<nat>, cancelled: bool,
                         total: int, success: int, errors: int, bytes: int,
                         executed: multiset<nat>, discarded: multiset<nat>)

  datatype Action =
    | Cancel
    | StopDispatch
    | PassCheck
    | TakeTick
    | SendJob
    | CloseChannel
    | Work(worker: nat, op: Op)

  datatype Op =
    | Receive
    | RangeEnds
    | Discard
    | Begin
    | RejectRequest
    | CountRejected
    | CountRequest(ok: bool)
    | Classify
    | CountBytes

  function Init(t: Target): State {
    State(Check(0), seq(t.Workers(), _ => Idle), [], false, 0, 0, 0, 0, multiset{}, multiset{})
  }

  predicate Enabled(t: Target, s: State, a: Action) {
    match a
    case Cancel => !s.cancelled
    case StopDispatch =>
      || (s.dispatcher.Check? && (s.cancelled || s.dispatcher.next >= t.Jobs()))
      || ((s.dispatcher.Tick? || s.dispatcher.Send?) && s.cancelled)
    case PassCheck => s.dispatcher.Check? && s.dispatcher.next < t.Jobs() && !s.cancelled
    case TakeTick => s.dispatcher.Tick?
    case SendJob => s.dispatcher.Send? && |s.channel| < t.Workers()
    case CloseChannel => s.dispatcher.Closing?
    case Work(k, op) => k < |s.workers| && WorkerEnabled(t, s, s.workers[k], op)
  }

  predicate WorkerEnabled(t: Target, s: State, w: Worker, op: Op) {
    match op
    case Receive => w.Idle? && s.channel != []
    case RangeEnds => w.Idle? && s.channel == [] && s.dispatcher.Closed?
    case Discard => w.Got? && s.cancelled
    case Begin => w.Got? && !s.cancelled
    case RejectRequest => w.Busy? && t.protocol.Http?
    case CountRejected => w.Failing?
    case CountRequest(_) => w.Busy?
    case Classify => w.Counted?
    case CountBytes => w.Paying?
  }

  function Apply(t: Target, s: State, a: Action): State
    requires Enabled(t, s, a)
  {
    match a
    case Cancel => s.(cancelled := true)
    case StopDispatch => s.(dispatcher := Closing(s.dispatcher.next))
    case PassCheck => s.(dispatcher := if t.rated then Tick(s.dispatcher.next) else Send(s.dispatcher.next))
    case TakeTick => s.(dispatcher := Send(s.dispatcher.next))
    case SendJob => s.(dispatcher := Check(s.dispatcher.next + 1), channel := s.channel + [s.dispatcher.next])
    case CloseChannel => s.(dispatcher := Closed(s.dispatcher.next))
    case Work(k, op) =>
      var w := s.workers[k];
      Recorded(t, s, w, op).(workers := s.workers[k := Moved(t, s, w, op)])
  }

  function Moved(t: Target, s: State, w: Worker, op: Op): Worker
    requires WorkerEnabled(t, s, w, op)
  {
    match op
    case Receive => Got(s.channel[0])
    case RangeEnds => Exited
    case Discard => Exited
    case Begin => Busy(w.job)
    case RejectRequest => Failing(w.job)
    case CountRequest(ok) => Counted(w.job, ok)
    case Classify => if w.ok && t.protocol.Mq? then Paying(w.job) else Idle
    case _ => Idle
  }

  /** The shared counters and channel after a worker's action. */
  function Recorded(t: Target, s: State, w: Worker, op: Op): State
    requires WorkerEnabled(t, s, w, op)
  {
    match op
    case Receive => s.(channel := s.channel[1..])
    case Discard => s.(discarded := s.discarded + multiset{w.job})
    case RejectRequest => s.(errors := s.errors + 1)
    case CountRejected => s.(total := s.total + 1, executed := s.executed + multiset{w.job})
    case CountRequest(_) => s.(total := s.total + 1, executed := s.executed + multiset{w.job})
    case Classify => if w.ok then s.(success := s.success + 1) else s.(errors := s.errors + 1)
    case CountBytes => s.(bytes := s.bytes + |Payload.Expected(t.source, t.Size(), t.noise(w.job))|)
    case _ => s
  }

  /** `s'` is reached from `s` by exactly the interleaving `acts`. */
  ghost predicate Path(t: Target, s: State, acts: seq<Action>, s': State)
    decreases |acts|
  {
    if acts == [] then s' == s
    else Enabled(t, s, acts[0]) && Path(t, Apply(t, s, acts[0]), acts[1..], s')
  }

  /** `flood` returns once every worker has; the dispatcher may still be on its way out. */
  predicate Returned(s: State) {
    forall w :: w in s.workers ==> w.Exited?
  }

  predicate Final(s: State) {
    Returned(s) && s.dispatcher.Closed?
  }

  // ---- What the workers owe the counters ----

  function Held(w: Worker): multiset<nat> {
    if w.Got? || w.Busy? || w.Failing? then multiset{w.job} else multiset{}
  }

  /** Requests counted ahead of their classification, less errors counted ahead of their request. */
  function Gap(w: Worker): int {
    if w.Counted? then 1 else if w.Failing? then -1 else 0
  }

  function Unpaid(w: Worker): int { if w.Paying? then 1 else 0 }

  function Gone(w: Worker): int { if w.Exited? then 1 else 0 }

  /** Workers past the cancellation check whose request is still to be counted. */
  function Committed(w: Worker): int { if w.Busy? || w.Failing? then 1 else 0 }

  function Rank(w: Worker): int {
    match w
    case Idle => 1
    case Got(_) => 6
    case Busy(_) => 5
    case Failing(_) => 2
    case Counted(_, _) => 3
    case Paying(_) => 2
    case Exited => 0
  }

  function DispatcherRank(t: Target, d: Dispatcher): int {
    match d
    case Check(i) => 11 * (t.Jobs() - i) + 4
    case Tick(i) => 11 * (t.Jobs() - i) + 3
    case Send(i) => 11 * (t.Jobs() - i) + 2
    case Closing(_) => 1
    case Closed(_) => 0
  }

  /** Every action lowers this number, so it bounds the actions still to come. */
  function Measure(t: Target, s: State): int {
    DispatcherRank(t, s.dispatcher) + 7 * |s.channel| + Sum(s.workers, Rank) + (if s.cancelled then 0 else 1)
  }

  function UpTo(n: nat): multiset<nat> {
    if n == 0 then multiset{} else UpTo(n - 1) + multiset{n - 1}
  }

  /** No sent job is lost or duplicated. */
  ghost predicate Conserved(s: State) {
    Gather(s.workers, Held) + Settled(s) == UpTo(s.dispatcher.next)
  }

  ghost predicate CountersAgree(t: Target, s: State) {
    && s.total == |s.executed|
    && s.total - (s.success + s.errors) == Sum(s.workers, Gap)
    && s.bytes == (if t.protocol.Mq? then t.Size() * (s.success - Sum(s.workers, Unpaid)) else 0)
    && (!t.protocol.Mq? ==> forall w :: w in s.workers ==> !w.Paying?)
    && 0 <= s.success && 0 <= s.errors
  }

  ghost predicate ExitsJustified(t: Target, s: State) {
    && |s.discarded| <= Sum(s.workers, Gone)
    && (s.discarded != multiset{} ==> s.cancelled)
    && ((exists w :: w in s.workers && w.Exited?) ==> s.cancelled || (s.dispatcher.Closed? && s.channel == []))
    && (s.dispatcher.Closing? || s.dispatcher.Closed? ==> s.cancelled || s.dispatcher.next == t.Jobs())
  }

  ghost predicate Shape(t: Target, s: State) {
    && |s.workers| == t.Workers()
    && |s.channel| <= t.Workers()
    && s.dispatcher.next <= t.Jobs()
    && (s.dispatcher.Tick? || s.dispatcher.Send? ==> s.dispatcher.next < t.Jobs())
    && (forall i :: 0 <= i < |s.channel| ==> s.channel[i] == s.dispatcher.next - |s.channel| + i)
  }

  ghost predicate Inv(t: Target, s: State) {
    Shape(t, s) && Conserved(s) && CountersAgree(t, s) && ExitsJustified(t, s)
  }

  // ---- The invariant holds in every reachable state ----

  lemma InitInv(t: Target)
    ensures Inv(t, Init(t))
  {
    var s := Init(t);
    GatherEmpty(s.workers, Held);
    SumBounds(s.workers, Gap, 0, 0);
    SumBounds(s.workers, Unpaid, 0, 0);
    SumBounds(s.workers, Gone, 0, 1);
  }

  lemma StepShape(t: Target, s: State, a: Action)
    requires Shape(t, s) && Enabled(t, s, a)
    ensures Shape(t, Apply(t, s, a))
  {
  }

  lemma StepConserved(t: Target, s: State, a: Action)
    requires Conserved(s) && Enabled(t, s, a)
    ensures Conserved(Apply(t, s, a))
  {
    if a.Work? {
      WorkerConserved(t, s, a);
    } else {
      OthersConserved(t, s, a);
    }
  }

  lemma OthersConserved(t: Target, s: State, a: Action)
    requires Conserved(s) && Enabled(t, s, a) && !a.Work?
    ensures Conserved(Apply(t, s, a))
  {
    hide Recorded, Moved, WorkerEnabled, Held;
    if a.SendJob? {
      assert multiset(Apply(t, s, a).channel) == multiset(s.channel) + multiset{s.dispatcher.next};
    }
  }

  lemma WorkerConserved(t: Target, s: State, a: Action)
    requires Conserved(s) && Enabled(t, s, a) && a.Work?
    ensures Conserved(Apply(t, s, a))
  {
    hide Recorded, Moved, Held, Settled, WorkerEnabled, Gather;
    var w := s.workers[a.worker];
    var rec, w' := Recorded(t, s, w, a.op), Moved(t, s, w, a.op);
    var workers' := s.workers[a.worker := w'];
    GatherUpdate(s.workers, a.worker, w', Held);
    SettledMoves(t, s, w, a.op);
    Rebalance(Gather(s.workers, Held), Gather(workers', Held), Settled(s), Settled(rec), Held(w), Held(w'));
    RecordedKeeps(t, s, w, a.op, workers');
  }

  lemma RecordedKeeps(t: Target, s: State, w: Worker, op: Op, workers: seq<Worker>)
    requires WorkerEnabled(t, s, w, op)
    ensures Recorded(t, s, w, op).dispatcher == s.dispatcher
    ensures Settled(Recorded(t, s, w, op).(workers := workers)) == Settled(Recorded(t, s, w, op))
  {
  }

  /** The sent jobs no worker is holding. */
  function Settled(s: State): multiset<nat> {
    multiset(s.channel) + s.executed + s.discarded
  }

  lemma SettledMoves(t: Target, s: State, w: Worker, op: Op)
    requires WorkerEnabled(t, s, w, op)
    ensures Settled(s) + Held(w) == Settled(Recorded(t, s, w, op)) + Held(Moved(t, s, w, op))
  {
    if op.Receive? {
      ReceiveSettles(s);
    } else if op.Discard? || op.CountRejected? || op.CountRequest? {
      CountSettles(s, w.job);
    } else {
      OthersSettle(t, s, w, op);
    }
  }

  lemma OthersSettle(t: Target, s: State, w: Worker, op: Op)
    requires WorkerEnabled(t, s, w, op)
    requires !(op.Receive? || op.Discard? || op.CountRejected? || op.CountRequest?)
    ensures Settled(Recorded(t, s, w, op)) == Settled(s) && Held(Moved(t, s, w, op)) == Held(w)
  {
    var s' := Recorded(t, s, w, op);
    assert s'.channel == s.channel && s'.executed == s.executed && s'.discarded == s.discarded;
  }

  lemma ReceiveSettles(s: State)
    requires s.channel != []
    ensures Settled(s) == Settled(s.(channel := s.channel[1..])) + multiset{s.channel[0]}
  {
    assert s.channel == [s.channel[0]] + s.channel[1..];
  }

  lemma CountSettles(s: State, job: nat)
    ensures forall total ::
              Settled(s.(total := total, executed := s.executed + multiset{job})) == Settled(s) + multiset{job}
    ensures Settled(s.(discarded := s.discarded + multiset{job})) == Settled(s) + multiset{job}
  {
  }

  lemma Rebalance(held: multiset<nat>, held': multiset<nat>, rest: multiset<nat>, rest': multiset<nat>,
                  out: multiset<nat>, into: multiset<nat>)
    requires held' + out == held + into
    requires rest + out == rest' + into
    ensures held' + rest' == held + rest
  {
    forall job
      ensures (held' + rest')[job] == (held + rest)[job]
    {
      assert (held' + out)[job] == (held + into)[job];
      assert (rest + out)[job] == (rest' + into)[job];
    }
  }

  /** The messages a worker's action gets paid for. */
  function Paid(w: Worker, op: Op): int {
    if op.CountBytes? && w.Paying? then 1 else 0
  }

  lemma CountersMove(t: Target, s: State, w: Worker, op: Op)
    requires WorkerEnabled(t, s, w, op)
    ensures var s', w' := Recorded(t, s, w, op), Moved(t, s, w, op);
            && s'.workers == s.workers && s'.success >= s.success && s'.errors >= s.errors
            && s'.total - |s'.executed| == s.total - |s.executed|
            && s'.total - (s'.success + s'.errors) - Gap(w') == s.total - (s.success + s.errors) - Gap(w)
            && (t.protocol.Mq? ==> s'.success - Unpaid(w') == s.success - Unpaid(w) + Paid(w, op))
            && s'.bytes == s.bytes + (if Paid(w, op) == 1 then t.Size() else 0)
            && (w'.Paying? ==> t.protocol.Mq?)
  {
  }

  lemma StepCounters(t: Target, s: State, a: Action)
    requires CountersAgree(t, s) && Enabled(t, s, a)
    ensures CountersAgree(t, Apply(t, s, a))
  {
    if a.Work? {
      WorkerCounters(t, s, a);
    }
  }

  lemma WorkerCounters(t: Target, s: State, a: Action)
    requires CountersAgree(t, s) && Enabled(t, s, a) && a.Work?
    ensures CountersAgree(t, Apply(t, s, a))
  {
    hide Recorded, Moved, WorkerEnabled;
    var s' := Apply(t, s, a);
    var w, w' := s.workers[a.worker], s'.workers[a.worker];
    CountersMove(t, s, w, a.op);
    SumUpdate(s.workers, a.worker, w', Gap);
    SumUpdate(s.workers, a.worker, w', Unpaid);
    assert w in s.workers;
    assert forall v :: v in s'.workers ==> v in s.workers || v == w';
    MulStep(t.Size(), s.success - Sum(s.workers, Unpaid));
  }

  lemma StepExits(t: Target, s: State, a: Action)
    requires Shape(t, s) && ExitsJustified(t, s) && Enabled(t, s, a)
    ensures ExitsJustified(t, Apply(t, s, a))
  {
    if a.Work? {
      var s' := Apply(t, s, a);
      var w' := s'.workers[a.worker];
      SumUpdate(s.workers, a.worker, w', Gone);
      assert forall v :: v in s'.workers ==> v in s.workers || v == w';
    }
  }

  lemma {:induction false} PathInv(t: Target, s: State, acts: seq<Action>, s': State)
    requires Inv(t, s) && Path(t, s, acts, s')
    ensures Inv(t, s')
    decreases |acts|
  {
    if acts != [] {
      StepShape(t, s, acts[0]);
      StepConserved(t, s, acts[0]);
      StepCounters(t, s, acts[0]);
      StepExits(t, s, acts[0]);
      PathInv(t, Apply(t, s, acts[0]), acts[1..], s');
    }
  }

  /** Safety over every interleaving: sent jobs are conserved, the request counter differs from
      successes plus errors by exactly the workers between two counter updates, and the byte
      counter is the message size times the published messages already paid for. */
  lemma ReachableSafe(t: Target, acts: seq<Action>, s: State)
    requires Path(t, Init(t), acts, s)
    ensures Inv(t, s)
  {
    InitInv(t);
    PathInv(t, Init(t), acts, s);
  }

  // ---- Termination and deadlock freedom ----

  lemma WorkLowersRank(t: Target, s: State, w: Worker, op: Op)
    requires WorkerEnabled(t, s, w, op)
    ensures var s' := Recorded(t, s, w, op);
            && Rank(Moved(t, s, w, op)) + 7 * |s'.channel| < Rank(w) + 7 * |s.channel|
            && s'.dispatcher == s.dispatcher && s'.cancelled == s.cancelled
  {
  }

  lemma StepDecreases(t: Target, s: State, a: Action)
    requires Shape(t, s) && Enabled(t, s, a)
    ensures Measure(t, Apply(t, s, a)) < Measure(t, s)
  {
    hide Recorded, Moved, WorkerEnabled;
    if a.Work? {
      WorkLowersRank(t, s, s.workers[a.worker], a.op);
      SumUpdate(s.workers, a.worker, Apply(t, s, a).workers[a.worker], Rank);
    }
  }

  lemma MeasureNonNegative(t: Target, s: State)
    requires Shape(t, s)
    ensures Measure(t, s) >= 0
  {
    SumBounds(s.workers, Rank, 0, 6);
  }

  lemma {:induction false} PathDecreases(t: Target, s: State, acts: seq<Action>, s': State)
    requires Shape(t, s) && Path(t, s, acts, s')
    ensures Shape(t, s') && |acts| + Measure(t, s') <= Measure(t, s)
    decreases |acts|
  {
    if acts != [] {
      StepShape(t, s, acts[0]);
      StepDecreases(t, s, acts[0]);
      PathDecreases(t, Apply(t, s, acts[0]), acts[1..], s');
    }
  }

  /** No interleaving is longer than this, whatever the requests return and whenever the run
      is cancelled. */
  lemma RunsAreBounded(t: Target, acts: seq<Action>, s: State)
    requires Path(t, Init(t), acts, s)
    ensures |acts| <= 11 * t.Jobs() + t.Workers() + 5
  {
    InitInv(t);
    PathDecreases(t, Init(t), acts, s);
    MeasureNonNegative(t, s);
    SumBounds(Init(t).workers, Rank, 1, 1);
  }

  /** Until everything has ended some action other than an outside cancellation is possible. */
  lemma NoDeadlock(t: Target, acts: seq<Action>, s: State) returns (a: Action)
    requires Path(t, Init(t), acts, s) && !Final(s)
    ensures Enabled(t, s, a) && a != Cancel
    ensures !Returned(s) && s.dispatcher.Closed? ==> a.Work?
  {
    ReachableSafe(t, acts, s);
    a := NextAction(t, s);
  }

  lemma NextAction(t: Target, s: State) returns (a: Action)
    requires Inv(t, s) && !Final(s)
    ensures Enabled(t, s, a) && a != Cancel
    ensures s.dispatcher.Closed? ==> a.Work?
  {
    match s.dispatcher
    case Check(i) => a := if s.cancelled || i >= t.Jobs() then StopDispatch else PassCheck;
    case Tick(_) => a := TakeTick;
    case Closing(_) => a := CloseChannel;
    case Send(_) =>
      if s.cancelled {
        a := StopDispatch;
      } else if |s.channel| < t.Workers() {
        a := SendJob;
      } else {
        assert s.workers[0] in s.workers;
        a := WorkerAction(t, s, 0);
      }
    case Closed(_) =>
      var k :| 0 <= k < |s.workers| && !s.workers[k].Exited?;
      a := WorkerAction(t, s, k);
  }

  lemma WorkerAction(t: Target, s: State, k: nat) returns (a: Action)
    requires k < |s.workers| && !s.workers[k].Exited?
    requires s.channel != [] || s.dispatcher.Closed?
    ensures Enabled(t, s, a) && a != Cancel
    ensures a.Work?
  {
    match s.workers[k]
    case Idle => a := if s.channel != [] then Work(k, Receive) else Work(k, RangeEnds);
    case Got(_) => a := if s.cancelled then Work(k, Discard) else Work(k, Begin);
    case Busy(_) => a := Work(k, CountRequest(true));
    case Failing(_) => a := Work(k, CountRejected);
    case Counted(_, _) => a := Work(k, Classify);
    case Paying(_) => a := Work(k, CountBytes);
  }

  // ---- What holds when flood returns ----

  lemma {:induction false} UpToSize(n: nat)
    ensures |UpTo(n)| == n
  {
    if n > 0 {
      UpToSize(n - 1);
    }
  }

  lemma {:induction false} UpToOnce(n: nat, job: nat)
    ensures UpTo(n)[job] == if job < n then 1 else 0
  {
    if n > 0 {
      UpToOnce(n - 1, job);
    }
  }

  lemma NothingOwed(s: State)
    requires Returned(s)
    ensures Gather(s.workers, Held) == multiset{}
    ensures Sum(s.workers, Gap) == 0 && Sum(s.workers, Unpaid) == 0
  {
    GatherEmpty(s.workers, Held);
    SumBounds(s.workers, Gap, 0, 0);
    SumBounds(s.workers, Unpaid, 0, 0);
  }

  /** Cancelled or not, the counters agree when `flood` returns. */
  lemma CountersWhenReturned(t: Target, acts: seq<Action>, s: State)
    requires Path(t, Init(t), acts, s) && Returned(s)
    ensures s.total == s.success + s.errors == |s.executed|
    ensures t.protocol.Mq? ==> s.bytes == t.Size() * s.success
  {
    ReachableSafe(t, acts, s);
    NothingOwed(s);
  }

  /** An uncancelled run counts exactly the requested jobs, each index once. */
  lemma UncancelledRunsEverything(t: Target, acts: seq<Action>, s: State)
    requires Path(t, Init(t), acts, s) && Returned(s) && !s.cancelled
    ensures s.total == t.Jobs() == s.success + s.errors
    ensures forall job: nat :: s.executed[job] == if job < t.Jobs() then 1 else 0
    ensures s.channel == [] && s.discarded == multiset{} && s.dispatcher.Closed?
  {
    ReachableSafe(t, acts, s);
    NothingOwed(s);
    assert s.workers[0] in s.workers;
    assert s.executed == UpTo(t.Jobs());
    UpToSize(t.Jobs());
    forall job: nat
      ensures s.executed[job] == if job < t.Jobs() then 1 else 0
    {
      UpToOnce(t.Jobs(), job);
    }
  }

  /** When everything has ended, each sent job was counted, discarded or left behind, and at
      most two jobs per worker were not counted. */
  lemma FinalConservation(t: Target, acts: seq<Action>, s: State)
    requires Path(t, Init(t), acts, s) && Final(s)
    ensures s.executed + s.discarded + multiset(s.channel) == UpTo(s.dispatcher.next)
    ensures s.dispatcher.next == s.total + |s.discarded| + |s.channel|
    ensures |s.discarded| <= t.Workers() && |s.channel| <= t.Workers()
    ensures s.dispatcher.next - s.total <= 2 * t.Workers()
  {
    ReachableSafe(t, acts, s);
    NothingOwed(s);
    SumBounds(s.workers, Gone, 0, 1);
    UpToSize(s.dispatcher.next);
    assert |s.executed + s.discarded + multiset(s.channel)| == |s.executed| + |s.discarded| + |s.channel|;
  }

  // ---- How the requests ended ----

  /** The requests that an interleaving saw answered, with success or not, and those that could not be built. */
  function Answers(acts: seq<Action>, ok: bool): nat {
    if acts == [] then 0
    else Answers(acts[1..], ok) + if acts[0].Work? && acts[0].op == CountRequest(ok) then 1 else 0
  }

  function Rejections(acts: seq<Action>): nat {
    if acts == [] then 0
    else Rejections(acts[1..]) + if acts[0].Work? && acts[0].op.RejectRequest? then 1 else 0
  }

  /** Workers that know of such an answer but have not counted it yet. */
  function Answered(ok: bool): Worker -> int {
    (w: Worker) => if w.Counted? && w.ok == ok then 1 else 0
  }

  function SuccessesDue(s: State): int {
    s.success + Sum(s.workers, Answered(true))
  }

  function ErrorsDue(s: State): int {
    s.errors + Sum(s.workers, Answered(false))
  }

  lemma WorkAnswers(t: Target, s: State, w: Worker, op: Op)
    requires WorkerEnabled(t, s, w, op)
    ensures var s', w' := Recorded(t, s, w, op), Moved(t, s, w, op);
            && s'.success + Answered(true)(w') - s.success - Answered(true)(w)
               == (if op == CountRequest(true) then 1 else 0)
            && s'.errors + Answered(false)(w') - s.errors - Answered(false)(w)
               == (if op == CountRequest(false) then 1 else 0) + (if op == RejectRequest then 1 else 0)
            && s'.workers == s.workers
  {
  }

  lemma StepAnswers(t: Target, s: State, a: Action)
    requires Enabled(t, s, a)
    ensures SuccessesDue(Apply(t, s, a)) == SuccessesDue(s) + if a.Work? && a.op == CountRequest(true) then 1 else 0
    ensures ErrorsDue(Apply(t, s, a)) ==
            ErrorsDue(s) + (if a.Work? && a.op == CountRequest(false) then 1 else 0)
            + (if a.Work? && a.op.RejectRequest? then 1 else 0)
  {
    hide Recorded, Moved, WorkerEnabled, Answered;
    if a.Work? {
      var w, w' := s.workers[a.worker], Moved(t, s, s.workers[a.worker], a.op);
      WorkAnswers(t, s, w, a.op);
      SumUpdate(s.workers, a.worker, w', Answered(true));
      SumUpdate(s.workers, a.worker, w', Answered(false));
    }
  }

  lemma {:induction false} PathAnswers(t: Target, s: State, acts: seq<Action>, s': State)
    requires Path(t, s, acts, s')
    ensures SuccessesDue(s') == SuccessesDue(s) + Answers(acts, true)
    ensures ErrorsDue(s') == ErrorsDue(s) + Answers(acts, false) + Rejections(acts)
    decreases |acts|
  {
    hide SuccessesDue, ErrorsDue, Enabled, Apply;
    if acts != [] {
      StepAnswers(t, s, acts[0]);
      PathAnswers(t, Apply(t, s, acts[0]), acts[1..], s');
    }
  }

  /** Over every interleaving: the successes counted, with those that workers have still to count, are the
      requests answered with success, and the errors are the others and the requests that could not be built. */
  lemma CountersAreOutcomes(t: Target, acts: seq<Action>, s: State)
    requires Path(t, Init(t), acts, s)
    ensures s.success + Sum(s.workers, Answered(true)) == Answers(acts, true)
    ensures s.errors + Sum(s.workers, Answered(false)) == Answers(acts, false) + Rejections(acts)
  {
    PathAnswers(t, Init(t), acts, s);
    SumBounds(Init(t).workers, Answered(true), 0, 0);
    SumBounds(Init(t).workers, Answered(false), 0, 0);
  }

  /** When `flood` returns each counter is the number of the requests that ended so, and a message queue has been
      paid for just the messages it took, at the configured size or else at 256 bytes. */
  lemma OutcomesWhenReturned(t: Target, acts: seq<Action>, s: State)
    requires Path(t, Init(t), acts, s) && Returned(s)
    ensures s.success == Answers(acts, true)
    ensures s.errors == Answers(acts, false) + Rejections(acts)
    ensures s.bytes ==
            if t.protocol.Mq? then (if t.messageSize <= 0 then 256 else t.messageSize) * Answers(acts, true) else 0
    ensures t.protocol != Http ==> Rejections(acts) == 0
  {
    ReachableSafe(t, acts, s);
    NothingOwed(s);
    CountersAreOutcomes(t, acts, s);
    SumBounds(s.workers, Answered(true), 0, 0);
    SumBounds(s.workers, Answered(false), 0, 0);
    NoRejections(t, Init(t), acts, s);
  }

  lemma {:induction false} NoRejections(t: Target, s: State, acts: seq<Action>, s': State)
    requires Path(t, s, acts, s')
    ensures t.protocol != Http ==> Rejections(acts) == 0
    decreases |acts|
  {
    if acts != [] {
      NoRejections(t, Apply(t, s, acts[0]), acts[1..], s');
    }
  }

  // ---- The rate ----

  function Ticks(acts: seq<Action>): nat {
    if acts == [] then 0 else Ticks(acts[1..]) + if acts[0].TakeTick? then 1 else 0
  }

  function Sends(acts: seq<Action>): nat {
    if acts == [] then 0 else Sends(acts[1..]) + if acts[0].SendJob? then 1 else 0
  }

  lemma {:induction false} PathTicks(t: Target, s: State, acts: seq<Action>, s': State)
    requires Path(t, s, acts, s') && (t.rated || !s.dispatcher.Tick?)
    ensures if t.rated then
              Ticks(acts) + (if s.dispatcher.Send? then 1 else 0)
              >= Sends(acts) + (if s'.dispatcher.Send? then 1 else 0)
            else Ticks(acts) == 0
    ensures s'.dispatcher.next == s.dispatcher.next + Sends(acts)
    decreases |acts|
  {
    if acts != [] {
      PathTicks(t, Apply(t, s, acts[0]), acts[1..], s');
    }
  }

  /** A limited rate takes a tick for every job sent; without one none is taken. */
  lemma EverySendHasItsTick(t: Target, acts: seq<Action>, s: State)
    requires Path(t, Init(t), acts, s)
    ensures s.dispatcher.next == Sends(acts)
    ensures if t.rated then Sends(acts) <= Ticks(acts) else Ticks(acts) == 0
  {
    PathTicks(t, Init(t), acts, s);
  }

  // ---- After cancellation ----

  /** The sends and counted requests that cancellation can no longer prevent. */
  function SendsDue(s: State): int {
    s.dispatcher.next + (if s.dispatcher.Tick? || s.dispatcher.Send? then 1 else 0)
  }

  function RequestsDue(s: State): int {
    s.total + Sum(s.workers, Committed)
  }

  lemma {:induction false} CancelledPath(t: Target, s: State, acts: seq<Action>, s': State)
    requires s.cancelled && Path(t, s, acts, s')
    ensures s'.cancelled && SendsDue(s') <= SendsDue(s) && RequestsDue(s') <= RequestsDue(s)
    decreases |acts|
  {
    if acts != [] {
      var a := acts[0];
      var next := Apply(t, s, a);
      if a.Work? {
        SumUpdate(s.workers, a.worker, next.workers[a.worker], Committed);
      }
      CancelledPath(t, next, acts[1..], s');
    }
  }

  /** From any point after the cancellation on, at most one job is sent, and each worker counts
      at most one more request. */
  lemma CancellationStopsTheFlood(t: Target, before: seq<Action>, s: State, after: seq<Action>, s': State)
    requires Path(t, Init(t), before, s) && s.cancelled && Path(t, s, after, s')
    ensures s'.dispatcher.next <= s.dispatcher.next + 1
    ensures s'.total <= s.total + t.Workers()
  {
    ReachableSafe(t, before, s);
    CancelledPath(t, s, after, s');
    SumBounds(s.workers, Committed, 0, 1);
    SumBounds(s'.workers, Committed, 0, 1);
  }

  lemma {:induction false} PathExtend(t: Target, s: State, acts: seq<Action>, s': State, a: Action)
    requires Path(t, s, acts, s') && Enabled(t, s', a)
    ensures Path(t, s, acts + [a], Apply(t, s', a))
    decreases |acts|
  {
    var longer := acts + [a];
    if acts == [] {
      assert longer[1..] == [];
    } else {
      assert longer[1..] == acts[1..] + [a];
      PathExtend(t, Apply(t, s, acts[0]), acts[1..], s', a);
    }
  }

  ghost predicate CanMove(t: Target, s: State) {
    exists a :: Enabled(t, s, a)
  }

  /** Runs the pool under any scheduler until all workers are done, as `flood` waits for them. */
  method RunFlood(t: Target, schedule: State -> Action) returns (s: State, ghost acts: seq<Action>)
    requires forall st: State :: CanMove(t, st) ==> Enabled(t, st, schedule(st))
    ensures Path(t, Init(t), acts, s) && Returned(s)
    ensures s.total == s.success + s.errors
    ensures s.success == Answers(acts, true)
    ensures s.errors == Answers(acts, false) + Rejections(acts)
    ensures s.bytes ==
            if t.protocol.Mq? then (if t.messageSize <= 0 then 256 else t.messageSize) * s.success else 0
    ensures |s.workers| == if t.concurrency <= 0 then 1 else t.concurrency
    ensures !s.cancelled ==> s.total == if t.requests <= 0 then 100 else t.requests
    ensures !s.cancelled ==> s.executed == UpTo(t.Jobs())
  {
    s, acts := Init(t), [];
    InitInv(t);
    MeasureNonNegative(t, s);
    while !Returned(s)
      invariant Path(t, Init(t), acts, s)
      invariant Measure(t, s) >= 0
      decreases Measure(t, s)
    {
      ghost var possible := NoDeadlock(t, acts, s);
      ReachableSafe(t, acts, s);
      var a := schedule(s);
      StepShape(t, s, a);
      StepDecreases(t, s, a);
      MeasureNonNegative(t, Apply(t, s, a));
      PathExtend(t, Init(t), acts, s, a);
      s, acts := Apply(t, s, a), acts + [a];
    }
    CountersWhenReturned(t, acts, s);
    OutcomesWhenReturned(t, acts, s);
    ReachableSafe(t, acts, s);
    if !s.cancelled {
      UncancelledRunsEverything(t, acts, s);
      NothingOwed(s);
    }
  }
}
