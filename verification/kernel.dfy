/** The host state that tc and iptables change, as pkg/network relies on it: one interface's
    root queueing discipline and the OUTPUT chain. Commands that fail change nothing. */
module Kernel {
  import opened Config

  datatype Qdisc =
    | Delay(ms: int, jitter: int)
    | Loss(percent: real)
    | Rate(kbps: int)
    | Corruption(percent: real)
    | Foreign(id: int)

  datatype Rule = DropDns(tcp: bool) | Other(id: int)

  /** `root` is None while the interface has only its implicit default. */
  datatype Kernel = Kernel(root: Option<Qdisc>, output: seq<Rule>)

  datatype Command = AddRoot(qdisc: Qdisc) | DeleteRoot | Append(rule: Rule) | Delete(rule: Rule)

  /** Adding a root fails on an explicit root; -D needs a matching rule. */
  predicate Accepts(k: Kernel, c: Command) {
    match c
    case AddRoot(_) => k.root.None?
    case DeleteRoot => k.root.Some?
    case Append(_) => true
    case Delete(r) => r in k.output
  }

  /** -D removes the first matching rule. */
  function DeleteFirst(rules: seq<Rule>, r: Rule): seq<Rule> {
    if rules == [] then []
    else if rules[0] == r then rules[1..]
    else [rules[0]] + DeleteFirst(rules[1..], r)
  }

  function Exec(k: Kernel, c: Command): Kernel {
    match c
    case AddRoot(q) => k.(root := Some(q))
    case DeleteRoot => k.(root := None)
    case Append(r) => k.(output := k.output + [r])
    case Delete(r) => k.(output := DeleteFirst(k.output, r))
  }

  /** The command pushed for later when `c` has succeeded. */
  function Inverse(c: Command): Command {
    match c
    case AddRoot(_) => DeleteRoot
    case Append(r) => Delete(r)
    case DeleteRoot => DeleteRoot
    case Delete(r) => Append(r)
  }

  function ExecAll(k: Kernel, cmds: seq<Command>): Kernel {
    if cmds == [] then k else Exec(ExecAll(k, cmds[..|cmds| - 1]), cmds[|cmds| - 1])
  }

  function Inverses(cmds: seq<Command>): seq<Command> {
    seq(|cmds|, i requires 0 <= i < |cmds| => Inverse(cmds[i]))
  }

  ghost predicate AllAccepted(k: Kernel, cmds: seq<Command>) {
    forall i :: 0 <= i < |cmds| ==> Accepts(ExecAll(k, cmds[..i]), cmds[i])
  }

  /** The commands this package injects: it never deletes, and only blocks DNS. */
  predicate Injects(c: Command) {
    c.AddRoot? || (c.Append? && c.rule.DropDns?)
  }

  /** Undoes a stack, last pushed first. */
  function Undo(k: Kernel, applied: seq<Command>): Kernel
    decreases |applied|
  {
    if applied == [] then k else Undo(Exec(k, applied[|applied| - 1]), applied[..|applied| - 1])
  }

  ghost predicate UndoAccepted(k: Kernel, applied: seq<Command>)
    decreases |applied|
  {
    applied != [] ==>
      var top := applied[|applied| - 1];
      Accepts(k, top) && UndoAccepted(Exec(k, top), applied[..|applied| - 1])
  }

  /** The stack's rules, each as often as it is to be deleted. */
  function Pending(c: Command): multiset<Rule> {
    if c.Delete? then multiset{c.rule} else multiset{}
  }

  function PendingRules(applied: seq<Command>): multiset<Rule> {
    if applied == [] then multiset{} else PendingRules(applied[..|applied| - 1]) + Pending(applied[|applied| - 1])
  }

  function RootDeletes(applied: seq<Command>): nat {
    if applied == [] then 0
    else RootDeletes(applied[..|applied| - 1]) + if applied[|applied| - 1].DeleteRoot? then 1 else 0
  }

  ghost predicate NoDns(rules: seq<Rule>) {
    forall r :: r in rules ==> !r.DropDns?
  }

  ghost predicate Undoing(applied: seq<Command>) {
    forall c :: c in applied ==> c.DeleteRoot? || (c.Delete? && c.rule.DropDns?)
  }

  ghost predicate RootBalanced(start: Option<Qdisc>, root: Option<Qdisc>, applied: seq<Command>) {
    && RootDeletes(applied) <= 1
    && (if RootDeletes(applied) == 1 then start.None? && root.Some? else root == start)
  }

  ghost predicate RulesBalanced(start: seq<Rule>, rules: seq<Rule>, applied: seq<Command>) {
    && multiset(rules) == multiset(start) + PendingRules(applied)
    && (NoDns(start) ==> start <= rules)
  }

  /** `k` is `start` plus exactly what the stack will take away again. */
  ghost predicate Balanced(start: Kernel, k: Kernel, applied: seq<Command>) {
    && Undoing(applied)
    && RootBalanced(start.root, k.root, applied)
    && RulesBalanced(start.output, k.output, applied)
  }

  /** What a rollback owes: the root and the rules, and the very rule order when the start
      held none of the rules this package inserts. */
  ghost predicate Restored(start: Kernel, k: Kernel) {
    && k.root == start.root
    && multiset(k.output) == multiset(start.output)
    && (NoDns(start.output) ==> k.output == start.output)
  }

  lemma {:induction false} DeleteFirstCounts(rules: seq<Rule>, r: Rule)
    ensures multiset(DeleteFirst(rules, r)) == multiset(rules) - multiset{r}
  {
    if rules != [] {
      assert rules == [rules[0]] + rules[1..];
      if rules[0] != r {
        DeleteFirstCounts(rules[1..], r);
      }
    }
  }

  /** Rules that differ from `r` in front of the first match stay in place. */
  lemma {:induction false} DeleteFirstAfter(front: seq<Rule>, back: seq<Rule>, r: Rule)
    requires r !in front
    ensures DeleteFirst(front + back, r) == front + DeleteFirst(back, r)
  {
    if front == [] {
      assert front + back == back;
    } else {
      assert (front + back)[1..] == front[1..] + back;
      DeleteFirstAfter(front[1..], back, r);
    }
  }

  lemma PrefixKept(start: seq<Rule>, rules: seq<Rule>, r: Rule)
    requires start <= rules && r !in start
    ensures start <= DeleteFirst(rules, r)
  {
    var back := rules[|start|..];
    assert rules == start + back;
    DeleteFirstAfter(start, back, r);
  }

  /** One injected command and its pushed inverse keep the balance. */
  lemma InjectBalanced(start: Kernel, k: Kernel, applied: seq<Command>, c: Command)
    requires Balanced(start, k, applied) && Injects(c) && Accepts(k, c)
    ensures Balanced(start, Exec(k, c), applied + [Inverse(c)])
  {
    var longer := applied + [Inverse(c)];
    assert longer[..|longer| - 1] == applied;
  }

  lemma TopAccepted(start: Kernel, k: Kernel, applied: seq<Command>)
    requires Balanced(start, k, applied) && applied != []
    ensures var top := applied[|applied| - 1];
            Accepts(k, top) && Balanced(start, Exec(k, top), applied[..|applied| - 1])
  {
    var top, rest := applied[|applied| - 1], applied[..|applied| - 1];
    assert top in applied && forall c :: c in rest ==> c in applied;
    if top.Delete? {
      TopRule(start.output, k.output, applied);
    }
  }

  lemma TopRule(start: seq<Rule>, rules: seq<Rule>, applied: seq<Command>)
    requires applied != [] && applied[|applied| - 1].Delete? && applied[|applied| - 1].rule.DropDns?
    requires RulesBalanced(start, rules, applied)
    ensures var r := applied[|applied| - 1].rule;
            r in rules && RulesBalanced(start, DeleteFirst(rules, r), applied[..|applied| - 1])
  {
    var r := applied[|applied| - 1].rule;
    assert r in multiset(rules);
    DeleteFirstCounts(rules, r);
    if NoDns(start) {
      PrefixKept(start, rules, r);
    }
  }

  lemma BalancedEmpty(start: Kernel, k: Kernel)
    requires Balanced(start, k, [])
    ensures Restored(start, k)
  {
    assert |multiset(k.output)| == |k.output| && |multiset(start.output)| == |start.output|;
  }

  /** Undoing a balanced stack last-in-first-out never fails and restores the start. */
  lemma {:induction false} UndoRestores(start: Kernel, k: Kernel, applied: seq<Command>)
    requires Balanced(start, k, applied)
    ensures UndoAccepted(k, applied) && Restored(start, Undo(k, applied))
    decreases |applied|
  {
    if applied == [] {
      BalancedEmpty(start, k);
    } else {
      TopAccepted(start, k, applied);
      UndoRestores(start, Exec(k, applied[|applied| - 1]), applied[..|applied| - 1]);
    }
  }

  lemma AcceptedPrefix(k: Kernel, cmds: seq<Command>)
    requires cmds != [] && AllAccepted(k, cmds)
    ensures var init := cmds[..|cmds| - 1];
            AllAccepted(k, init) && Accepts(ExecAll(k, init), cmds[|cmds| - 1])
  {
    var init := cmds[..|cmds| - 1];
    forall i | 0 <= i < |init|
      ensures Accepts(ExecAll(k, init[..i]), init[i])
    {
      assert init[..i] == cmds[..i];
    }
  }

  lemma InversesLast(applied: seq<Command>, cmds: seq<Command>)
    requires cmds != []
    ensures applied + Inverses(cmds)
         == applied + Inverses(cmds[..|cmds| - 1]) + [Inverse(cmds[|cmds| - 1])]
  {
  }

  /** Injected commands in any number and order keep the balance with every state they started
      from, so any prefix of any run, once undone, leaves no trace. */
  lemma {:induction false} InjectionsBalanced(start: Kernel, k: Kernel, applied: seq<Command>, cmds: seq<Command>)
    requires Balanced(start, k, applied)
    requires AllAccepted(k, cmds) && forall c :: c in cmds ==> Injects(c)
    ensures Balanced(start, ExecAll(k, cmds), applied + Inverses(cmds))
  {
    if cmds == [] {
      assert applied + Inverses(cmds) == applied;
    } else {
      var init, last := cmds[..|cmds| - 1], cmds[|cmds| - 1];
      AcceptedPrefix(k, cmds);
      assert forall c :: c in init ==> c in cmds;
      InjectionsBalanced(start, k, applied, init);
      InjectBalanced(start, ExecAll(k, init), applied + Inverses(init), last);
      InversesLast(applied, cmds);
    }
  }

  function AddRoots(cmds: seq<Command>): nat {
    if cmds == [] then 0
    else AddRoots(cmds[..|cmds| - 1]) + if cmds[|cmds| - 1].AddRoot? then 1 else 0
  }

  /** Injections never remove a root, so a second one cannot succeed after the first. */
  lemma {:induction false} OneRootAtMost(k: Kernel, cmds: seq<Command>)
    requires AllAccepted(k, cmds) && forall c :: c in cmds ==> Injects(c)
    ensures AddRoots(cmds) <= if k.root.None? then 1 else 0
    ensures ExecAll(k, cmds).root.Some? <==> k.root.Some? || AddRoots(cmds) == 1
  {
    if cmds != [] {
      AcceptedPrefix(k, cmds);
      assert cmds[|cmds| - 1] in cmds;
      assert forall c :: c in cmds[..|cmds| - 1] ==> c in cmds;
      OneRootAtMost(k, cmds[..|cmds| - 1]);
    }
  }

  lemma {:induction false} ExecAppend(k: Kernel, a: seq<Command>, b: seq<Command>)
    ensures ExecAll(k, a + b) == ExecAll(ExecAll(k, a), b)
  {
    if b == [] {
      assert a + b == a;
    } else {
      assert (a + b)[..|a + b| - 1] == a + b[..|b| - 1];
      ExecAppend(k, a, b[..|b| - 1]);
    }
  }

  lemma AcceptedAppend(k: Kernel, a: seq<Command>, b: seq<Command>)
    requires AllAccepted(k, a) && AllAccepted(ExecAll(k, a), b)
    ensures AllAccepted(k, a + b)
  {
    forall i | 0 <= i < |a + b|
      ensures Accepts(ExecAll(k, (a + b)[..i]), (a + b)[i])
    {
      if i < |a| {
        assert (a + b)[..i] == a[..i];
      } else {
        assert (a + b)[..i] == a + b[..i - |a|];
        ExecAppend(k, a, b[..i - |a|]);
      }
    }
  }

  /** Exactly the commands `cmds` took effect, each with its inverse pushed. */
  ghost predicate Performed(k: Kernel, applied: seq<Command>, k': Kernel, applied': seq<Command>, cmds: seq<Command>) {
    AllAccepted(k, cmds) && k' == ExecAll(k, cmds) && applied' == applied + Inverses(cmds)
  }

  lemma PerformedAppend(k: Kernel, applied: seq<Command>, k': Kernel, applied': seq<Command>,
                        k'': Kernel, applied'': seq<Command>, a: seq<Command>, b: seq<Command>)
    requires Performed(k, applied, k', applied', a) && Performed(k', applied', k'', applied'', b)
    ensures Performed(k, applied, k'', applied'', a + b)
  {
    ExecAppend(k, a, b);
    AcceptedAppend(k, a, b);
    InversesAppend(applied, a, b);
  }

  lemma InversesAppend(applied: seq<Command>, a: seq<Command>, b: seq<Command>)
    ensures applied + Inverses(a) + Inverses(b) == applied + Inverses(a + b)
  {
  }

  lemma PerformedNothing(k: Kernel, applied: seq<Command>)
    ensures Performed(k, applied, k, applied, [])
  {
    assert applied + Inverses([]) == applied;
  }

  lemma PerformedOne(k: Kernel, applied: seq<Command>, c: Command)
    requires Accepts(k, c)
    ensures Performed(k, applied, Exec(k, c), applied + [Inverse(c)], [c])
  {
    assert [c][..0] == [];
    assert ExecAll(k, [c]) == Exec(ExecAll(k, []), c);
    assert Inverses([c]) == [Inverse(c)];
  }

  lemma SelfBalanced(k: Kernel)
    ensures Balanced(k, k, [])
  {
  }

  /** The same for one uninterrupted run of commands, without the bookkeeping. */
  lemma UndoInvertsInjections(k: Kernel, cmds: seq<Command>)
    requires AllAccepted(k, cmds) && forall c :: c in cmds ==> Injects(c)
    ensures UndoAccepted(ExecAll(k, cmds), Inverses(cmds))
    ensures Restored(k, Undo(ExecAll(k, cmds), Inverses(cmds)))
  {
    SelfBalanced(k);
    InjectionsBalanced(k, k, [], cmds);
    assert [] + Inverses(cmds) == Inverses(cmds);
    UndoRestores(k, ExecAll(k, cmds), Inverses(cmds));
  }

  // ---- Failed undo commands ----

  /** Explicit root plus rules: what a successful undo command lowers by one. */
  function Weight(k: Kernel): nat {
    |k.output| + if k.root.Some? then 1 else 0
  }

  lemma UndoLowersWeight(k: Kernel, c: Command)
    requires (c.DeleteRoot? || c.Delete?) && Accepts(k, c)
    ensures Weight(Exec(k, c)) == Weight(k) - 1
  {
    if c.Delete? {
      DeleteFirstCounts(k.output, c.rule);
      assert c.rule in multiset(k.output);
      assert |multiset(k.output)| == |k.output|;
      assert |multiset(DeleteFirst(k.output, c.rule))| == |DeleteFirst(k.output, c.rule)|;
    }
  }

  lemma {:induction false} BalancedWeight(start: Kernel, k: Kernel, applied: seq<Command>)
    requires Balanced(start, k, applied)
    ensures Weight(k) == Weight(start) + |applied|
    decreases |applied|
  {
    assert |multiset(k.output)| == |k.output| && |multiset(start.output)| == |start.output|;
    if applied != [] {
      TopAccepted(start, k, applied);
      UndoLowersWeight(k, applied[|applied| - 1]) by {
        assert applied[|applied| - 1] in applied;
      }
      BalancedWeight(start, Exec(k, applied[|applied| - 1]), applied[..|applied| - 1]);
    }
  }

  lemma RestoredWeight(start: Kernel, k: Kernel)
    requires Restored(start, k)
    ensures Weight(k) == Weight(start)
  {
    assert |multiset(k.output)| == |k.output| && |multiset(start.output)| == |start.output|;
  }

  /** What unwinding a stack does when command number `issued`, `issued + 1`, ... may fail on
      their own: the final state and the number of commands that failed. */
  function Unwind(k: Kernel, stack: seq<Command>, faults: nat -> bool, issued: nat): (Kernel, nat)
    decreases |stack|
  {
    if stack == [] then (k, 0)
    else
      var top, rest := stack[|stack| - 1], stack[..|stack| - 1];
      if Accepts(k, top) && !faults(issued) then Unwind(Exec(k, top), rest, faults, issued + 1)
      else var (k', errors) := Unwind(k, rest, faults, issued + 1); (k', errors + 1)
  }

  ghost predicate Faultless(faults: nat -> bool, issued: nat, count: nat) {
    forall j :: issued <= j < issued + count ==> !faults(j)
  }

  lemma {:induction false} UnwindWeight(k: Kernel, stack: seq<Command>, faults: nat -> bool, issued: nat)
    requires Undoing(stack)
    ensures var (k', errors) := Unwind(k, stack, faults, issued); Weight(k') == Weight(k) - |stack| + errors
    decreases |stack|
  {
    if stack != [] {
      var top, rest := stack[|stack| - 1], stack[..|stack| - 1];
      assert top in stack && forall c :: c in rest ==> c in stack;
      if Accepts(k, top) && !faults(issued) {
        UndoLowersWeight(k, top);
        UnwindWeight(Exec(k, top), rest, faults, issued + 1);
      } else {
        UnwindWeight(k, rest, faults, issued + 1);
      }
    }
  }

  /** Without faults unwinding is undoing, and every command of a balanced stack is accepted. */
  lemma {:induction false} UnwindFaultless(start: Kernel, k: Kernel, stack: seq<Command>, faults: nat -> bool,
                                           issued: nat)
    requires Balanced(start, k, stack)
    ensures Unwind(k, stack, faults, issued).1 == 0 <==> Faultless(faults, issued, |stack|)
    ensures Faultless(faults, issued, |stack|) ==> Unwind(k, stack, faults, issued) == (Undo(k, stack), 0)
    decreases |stack|
  {
    if stack != [] {
      TopAccepted(start, k, stack);
      if faults(issued) {
        assert Unwind(k, stack, faults, issued).1 == Unwind(k, stack[..|stack| - 1], faults, issued + 1).1 + 1;
        assert !Faultless(faults, issued, |stack|);
      } else {
        UnwindFaultless(start, Exec(k, stack[|stack| - 1]), stack[..|stack| - 1], faults, issued + 1);
        FaultlessLater(faults, issued, |stack|);
      }
    }
  }

  lemma FaultlessLater(faults: nat -> bool, issued: nat, count: nat)
    requires count > 0 && !faults(issued)
    ensures Faultless(faults, issued, count) <==> Faultless(faults, issued + 1, count - 1)
  {
  }

  /** A rollback of a balanced stack reports no error exactly when none of its commands hit a
      fault, and exactly when the start is restored. */
  lemma RollbackExact(start: Kernel, k: Kernel, stack: seq<Command>, faults: nat -> bool, issued: nat)
    requires Balanced(start, k, stack)
    ensures var (k', errors) := Unwind(k, stack, faults, issued);
            && (errors == 0 <==> Faultless(faults, issued, |stack|))
            && (errors == 0 <==> Restored(start, k'))
  {
    var (k', errors) := Unwind(k, stack, faults, issued);
    UnwindFaultless(start, k, stack, faults, issued);
    if errors == 0 {
      UndoRestores(start, k, stack);
    } else if Restored(start, k') {
      RestoredWeight(start, k');
      BalancedWeight(start, k, stack);
      UnwindWeight(k, stack, faults, issued);
    }
  }

  /** The commands of a stack that meet a fault while it is unwound. */
  function Struck(stack: seq<Command>, faults: nat -> bool, issued: nat): seq<Command>
    decreases |stack|
  {
    if stack == [] then []
    else
      Struck(stack[..|stack| - 1], faults, issued + 1) + if faults(issued) then [stack[|stack| - 1]] else []
  }

  lemma {:induction false} PendingAppend(a: seq<Command>, b: seq<Command>)
    ensures PendingRules(a + b) == PendingRules(a) + PendingRules(b)
    ensures RootDeletes(a + b) == RootDeletes(a) + RootDeletes(b)
  {
    if b == [] {
      assert a + b == a;
    } else {
      assert (a + b)[..|a + b| - 1] == a + b[..|b| - 1];
      PendingAppend(a, b[..|b| - 1]);
    }
  }

  /** It makes no difference to the balance where in the stack a command is. */
  lemma BalancedMoved(start: Kernel, k: Kernel, held: seq<Command>, rest: seq<Command>, top: Command)
    requires Balanced(start, k, held + (rest + [top]))
    ensures Balanced(start, k, ([top] + held) + rest)
  {
    hide RootBalanced, RulesBalanced, PendingRules, RootDeletes, Pending;
    var was, now := held + (rest + [top]), ([top] + held) + rest;
    PendingAppend(held, rest + [top]);
    PendingAppend(rest, [top]);
    PendingAppend([top] + held, rest);
    PendingAppend([top], held);
    assert PendingRules(was) == PendingRules(now) && RootDeletes(was) == RootDeletes(now);
    assert forall c :: c in now <==> c in was;
    BalancedAs(start, k, was, now);
  }

  lemma BalancedAs(start: Kernel, k: Kernel, was: seq<Command>, now: seq<Command>)
    requires RootBalanced(start.root, k.root, was) && RulesBalanced(start.output, k.output, was)
    requires PendingRules(was) == PendingRules(now) && RootDeletes(was) == RootDeletes(now)
    ensures RootBalanced(start.root, k.root, now) && RulesBalanced(start.output, k.output, now)
  {
  }

  lemma {:induction false} UnwindHolding(start: Kernel, k: Kernel, held: seq<Command>, stack: seq<Command>,
                                         faults: nat -> bool, issued: nat)
    requires Balanced(start, k, held + stack)
    ensures Balanced(start, Unwind(k, stack, faults, issued).0, Struck(stack, faults, issued) + held)
    ensures Unwind(k, stack, faults, issued).1 == |Struck(stack, faults, issued)|
    decreases |stack|
  {
    hide Balanced;
    if stack == [] {
      assert held + stack == held && [] + held == held;
    } else {
      var top, rest := stack[|stack| - 1], stack[..|stack| - 1];
      assert stack == rest + [top] && held + stack == (held + rest) + [top];
      assert (held + stack)[..|held + stack| - 1] == held + rest;
      TopAccepted(start, k, held + stack);
      if faults(issued) {
        BalancedMoved(start, k, held, rest, top);
        UnwindHolding(start, k, [top] + held, rest, faults, issued + 1);
        assert Struck(rest, faults, issued + 1) + ([top] + held) == Struck(stack, faults, issued) + held;
      } else {
        UnwindHolding(start, Exec(k, top), held, rest, faults, issued + 1);
        assert Struck(rest, faults, issued + 1) + [] == Struck(rest, faults, issued + 1);
      }
    }
  }

  /** Whatever fails, the rollback of a balanced stack goes on, reports as many errors as there are commands that
      met a fault, and leaves exactly what those were to take away. */
  lemma UnwindLeaves(start: Kernel, k: Kernel, stack: seq<Command>, faults: nat -> bool, issued: nat)
    requires Balanced(start, k, stack)
    ensures var (k', errors) := Unwind(k, stack, faults, issued);
            errors == |Struck(stack, faults, issued)| && Balanced(start, k', Struck(stack, faults, issued))
  {
    assert [] + stack == stack && Struck(stack, faults, issued) + [] == Struck(stack, faults, issued);
    UnwindHolding(start, k, [], stack, faults, issued);
  }
}
