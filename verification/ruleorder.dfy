/** When undoing blocked DNS also restores the order of the OUTPUT chain: -D takes the first match, which
    need not be the rule that was appended. For whatever a run got to append, the condition is exact. */
module RuleOrder {
  import opened Config
  import opened Kernel
  import opened Network

  const UDP := DropDns(false)
  const TCP := DropDns(true)

  // ---- One appended rule ----

  /** Once the rule is in the chain nothing else follows. */
  predicate Block(rules: seq<Rule>, r: Rule) {
    forall i, j :: 0 <= i < j < |rules| && rules[i] == r ==> rules[j] == r
  }

  /** What a half-applied dns_failure leaves is put in order again exactly when nothing else follows an
      earlier copy of the rule. */
  lemma {:induction false} OrderRestoredIff(rules: seq<Rule>, r: Rule)
    ensures DeleteFirst(rules + [r], r) == rules <==> Block(rules, r)
  {
    if rules == [] {
      assert rules + [r] == [r];
    } else {
      var rest := rules[1..];
      assert (rules + [r])[1..] == rest + [r];
      if rules[0] == r {
        assert DeleteFirst(rules + [r], r) == rest + [r];
        if rest + [r] == rules {
          ShiftedIsConstant(rules, r);
        }
      } else {
        OrderRestoredIff(rest, r);
        assert rules == [rules[0]] + rest;
        if Block(rest, r) {
          forall i, j | 0 <= i < j < |rules| && rules[i] == r
            ensures rules[j] == r
          {
            assert rest[i - 1] == r && rest[j - 1] == rules[j];
          }
        } else {
          var i, j :| 0 <= i < j < |rest| && rest[i] == r && rest[j] != r;
          assert rules[i + 1] == r && rules[j + 1] != r;
        }
      }
    }
  }

  lemma {:induction false} ShiftedIsConstant(rules: seq<Rule>, r: Rule)
    requires rules != [] && rules[1..] + [r] == rules && rules[0] == r
    ensures forall j :: 0 <= j < |rules| ==> rules[j] == r
  {
    var j := 0;
    while j + 1 < |rules|
      invariant 0 <= j < |rules|
      invariant forall i :: 0 <= i <= j ==> rules[i] == r
    {
      assert (rules[1..] + [r])[j] == rules[j + 1];
      j := j + 1;
    }
  }

  // ---- Moving a rule to the end, over and over ----

  function Trail(rules: seq<Rule>, r: Rule): nat {
    if rules != [] && rules[|rules| - 1] == r then 1 + Trail(rules[..|rules| - 1], r) else 0
  }

  lemma {:induction false} TrailCons(x: Rule, rules: seq<Rule>, r: Rule)
    ensures Trail([x] + rules, r) ==
            if x == r && (forall i :: 0 <= i < |rules| ==> rules[i] == r) then |rules| + 1 else Trail(rules, r)
  {
    var longer := [x] + rules;
    if rules == [] {
      assert longer[..0] == [];
    } else {
      var init := rules[..|rules| - 1];
      assert longer[..|longer| - 1] == [x] + init;
      if rules[|rules| - 1] == r {
        TrailCons(x, init, r);
      }
    }
  }

  /** Moving the first copy of a rule to the end lengthens the trail of copies, if it changes anything. */
  lemma {:induction false} TrailGrows(rules: seq<Rule>, r: Rule)
    requires r in rules
    ensures var moved := DeleteFirst(rules, r) + [r]; moved == rules || Trail(moved, r) > Trail(rules, r)
  {
    var x, rest := rules[0], rules[1..];
    var moved := DeleteFirst(rules, r) + [r];
    assert rules == [x] + rest;
    TrailCons(x, rest, r);
    if x == r {
      assert moved[..|moved| - 1] == rest;
      if forall i :: 0 <= i < |rest| ==> rest[i] == r {
        assert moved == rules;
      }
    } else {
      TrailGrows(rest, r);
      TrailCons(x, DeleteFirst(rest, r) + [r], r);
      assert moved == [x] + (DeleteFirst(rest, r) + [r]);
    }
  }

  /** One rule appended and deleted, `n` times. */
  function Moves(rules: seq<Rule>, r: Rule, n: nat): seq<Rule>
    decreases n
  {
    if n == 0 then rules else Moves(DeleteFirst(rules + [r], r), r, n - 1)
  }

  lemma MoveGrows(rules: seq<Rule>, r: Rule)
    ensures var moved := DeleteFirst(rules + [r], r); moved == rules || Trail(moved, r) > Trail(rules, r)
  {
    if r in rules {
      DeleteFirstFront(rules, [r], r);
      TrailGrows(rules, r);
    } else {
      DeleteFirstAfter(rules, [r], r);
    }
  }

  lemma {:induction false} MovesGrow(rules: seq<Rule>, r: Rule, n: nat)
    ensures Moves(rules, r, n) == rules || Trail(Moves(rules, r, n), r) > Trail(rules, r)
    decreases n
  {
    if n > 0 {
      MoveGrows(rules, r);
      MovesGrow(DeleteFirst(rules + [r], r), r, n - 1);
    }
  }

  lemma {:induction false} MovesIff(rules: seq<Rule>, r: Rule, n: nat)
    ensures Moves(rules, r, n) == rules <==> n == 0 || DeleteFirst(rules + [r], r) == rules
    decreases n
  {
    if n > 0 {
      var moved := DeleteFirst(rules + [r], r);
      if moved == rules {
        MovesIff(rules, r, n - 1);
      } else {
        MoveGrows(rules, r);
        MovesGrow(moved, r, n - 1);
      }
    }
  }

  // ---- Any rules appended, and deleted the last first ----

  function Undone(rules: seq<Rule>, added: seq<Rule>): seq<Rule>
    decreases |added|
  {
    if added == [] then rules else Undone(DeleteFirst(rules, added[|added| - 1]), added[..|added| - 1])
  }

  /** Read backwards, the chain has the appended rules in their order, over and over; and where it first has
      another, it has the one expected nowhere up to there, and whichever of the others only as a last block. */
  predicate Traces(rules: seq<Rule>, added: seq<Rule>) {
    if added == [] then true
    else
      var r := added[|added| - 1];
      if rules != [] && rules[|rules| - 1] == r then Traces(rules[..|rules| - 1], [r] + added[..|added| - 1])
      else r !in rules && forall i, j :: 0 <= i < j < |rules| && rules[i] in added ==> rules[j] == rules[i]
  }

  ghost predicate OnlyDns(added: seq<Rule>) {
    forall r :: r in added ==> r.DropDns?
  }

  lemma {:induction false} DeleteFirstFront(a: seq<Rule>, b: seq<Rule>, r: Rule)
    requires r in a
    ensures DeleteFirst(a + b, r) == DeleteFirst(a, r) + b
  {
    assert (a + b)[1..] == a[1..] + b;
    if a[0] != r {
      DeleteFirstFront(a[1..], b, r);
    }
  }

  lemma {:induction false} DeletesCommute(rules: seq<Rule>, a: Rule, b: Rule)
    ensures DeleteFirst(DeleteFirst(rules, a), b) == DeleteFirst(DeleteFirst(rules, b), a)
  {
    if rules != [] && a != b && rules[0] != a && rules[0] != b {
      DeletesCommute(rules[1..], a, b);
    }
  }

  /** It makes no difference to delete the first one appended first. */
  lemma {:induction false} UndoneCons(rules: seq<Rule>, r: Rule, added: seq<Rule>)
    ensures Undone(rules, [r] + added) == Undone(DeleteFirst(rules, r), added)
    decreases |added|
  {
    var all := [r] + added;
    if added == [] {
      assert all[..0] == [];
    } else {
      var last, init := added[|added| - 1], added[..|added| - 1];
      assert all[..|all| - 1] == [r] + init;
      UndoneCons(DeleteFirst(rules, last), r, init);
      DeletesCommute(rules, r, last);
    }
  }

  /** What need not be touched stays. */
  lemma {:induction false} UndoneFront(front: seq<Rule>, back: seq<Rule>, added: seq<Rule>)
    requires multiset(added) <= multiset(front)
    ensures Undone(front + back, added) == Undone(front, added) + back
    decreases |added|
  {
    if added != [] {
      var last, init := added[|added| - 1], added[..|added| - 1];
      assert added == init + [last];
      assert last in multiset(added) && last in front;
      DeleteFirstFront(front, back, last);
      DeleteFirstCounts(front, last);
      UndoneFront(DeleteFirst(front, last), back, init);
    }
  }

  /** The last rule appended is what ends up last if the chain had it already. */
  lemma LastStays(rules: seq<Rule>, added: seq<Rule>, r: Rule)
    requires r in rules
    ensures Undone(rules + (added + [r]), added + [r]) == Undone(DeleteFirst(rules + added, r), added) + [r]
  {
    var all := added + [r];
    assert all[..|all| - 1] == added;
    assert rules + all == (rules + added) + [r];
    DeleteFirstFront(rules + added, [r], r);
    DeleteFirstCounts(rules + added, r);
    assert multiset(added) <= multiset(DeleteFirst(rules + added, r)) by {
      assert r in multiset(rules);
      assert multiset(rules + added) == multiset(rules) + multiset(added);
    }
    UndoneFront(DeleteFirst(rules + added, r), [r], added);
  }

  /** So where the chain ends in it, both go round. */
  lemma UndoneRound(rules: seq<Rule>, added: seq<Rule>, r: Rule)
    ensures Undone((rules + [r]) + (added + [r]), added + [r])
         == Undone(rules + ([r] + added), [r] + added) + [r]
  {
    LastStays(rules + [r], added, r);
    UndoneCons(rules + ([r] + added), r, added);
    assert (rules + [r]) + added == rules + ([r] + added);
  }

  lemma MovedSame(rules: seq<Rule>, x: Rule)
    ensures multiset(DeleteFirst(rules + [x], x)) == multiset(rules)
    ensures forall r :: r in DeleteFirst(rules + [x], x) <==> r in rules
    ensures x !in rules ==> DeleteFirst(rules + [x], x) == rules
  {
    DeleteFirstCounts(rules + [x], x);
    var moved := DeleteFirst(rules + [x], x);
    assert forall r :: r in moved <==> r in multiset(moved);
    if x !in rules {
      DeleteFirstAfter(rules, [x], x);
    }
  }

  lemma AbsentStep(rules: seq<Rule>, x: Rule, rest: seq<Rule>)
    ensures Undone(rules + ([x] + rest), [x] + rest) == Undone(DeleteFirst(rules + [x], x) + rest, rest)
  {
    hide Undone, DeleteFirst;
    assert rules + ([x] + rest) == (rules + [x]) + rest;
    UndoneCons(rules + ([x] + rest), x, rest);
    DeleteFirstFront(rules + [x], rest, x);
  }

  /** A rule the chain does not have goes with its copies; of the other one the first copies go. */
  lemma {:induction false} UndoneAbsent(rules: seq<Rule>, added: seq<Rule>, r: Rule, other: Rule)
    requires r !in rules && other != r && forall x :: x in added ==> x == r || x == other
    ensures Undone(rules + added, added) == Moves(rules, other, Count(added, other))
    decreases |added|
  {
    if added == [] {
      assert rules + added == rules;
    } else {
      hide Undone, DeleteFirst;
      var x, rest := added[0], added[1..];
      assert added == [x] + rest && x in added;
      assert forall y :: y in rest ==> y in added;
      AbsentStep(rules, x, rest);
      MovedSame(rules, x);
      UndoneAbsent(DeleteFirst(rules + [x], x), rest, r, other);
    }
  }

  function Count(added: seq<Rule>, r: Rule): (n: nat)
    ensures n == 0 <==> r !in added
  {
    if added == [] then 0 else Count(added[1..], r) + if added[0] == r then 1 else 0
  }

  /** Undone, the rules appended leave the chain as it was exactly if it traces them. */
  lemma {:induction false} UndoneIff(rules: seq<Rule>, added: seq<Rule>)
    requires OnlyDns(added)
    ensures Undone(rules + added, added) == rules <==> Traces(rules, added)
    decreases |rules|
  {
    if added == [] {
      assert rules + added == rules;
    } else {
      var r, init := added[|added| - 1], added[..|added| - 1];
      assert added == init + [r];
      if rules != [] && rules[|rules| - 1] == r {
        var front := rules[..|rules| - 1];
        assert rules == front + [r];
        UndoneRound(front, init, r);
        UndoneIff(front, [r] + init);
      } else if r in rules {
        LastStays(rules, init, r);
      } else {
        var other := DropDns(!r.tcp);
        UndoneAbsent(rules, added, r, other);
        MovesIff(rules, other, Count(added, other));
        OrderRestoredIff(rules, other);
        assert forall i :: 0 <= i < |rules| && rules[i] in added ==> rules[i] == other;
      }
    }
  }

  // ---- Completed dns_failures ----

  /** What `n` completed dns_failures append, with `a` UDP and `b` TCP. */
  function Alternating(a: Rule, b: Rule, n: nat): seq<Rule> {
    if n == 0 then [] else Alternating(a, b, n - 1) + [a, b]
  }

  lemma {:induction false} AlternatingRound(a: Rule, b: Rule, n: nat)
    ensures [b] + Alternating(a, b, n) + [a] == Alternating(b, a, n + 1)
  {
    if n == 0 {
      assert Alternating(b, a, 0) == [];
    } else {
      AlternatingRound(a, b, n - 1);
      assert [b] + Alternating(a, b, n) + [a] == ([b] + Alternating(a, b, n - 1) + [a]) + [b, a];
    }
  }

  lemma {:induction false} AlternatingOf(a: Rule, b: Rule, n: nat)
    ensures forall r :: r in Alternating(a, b, n) <==> n > 0 && (r == a || r == b)
  {
    if n > 0 {
      AlternatingOf(a, b, n - 1);
      assert a in [a, b] && b in [a, b];
    }
  }

  lemma TracesAlternating(rules: seq<Rule>, a: Rule, b: Rule, n: nat)
    requires n > 0 && a != b
    ensures Traces(rules, Alternating(a, b, n)) <==>
            if rules != [] && rules[|rules| - 1] == b then Traces(rules[..|rules| - 1], Alternating(b, a, n))
            else b !in rules && Block(rules, a)
  {
    var added := Alternating(a, b, n);
    assert added[|added| - 1] == b && [b] + added[..|added| - 1] == [b] + Alternating(a, b, n - 1) + [a];
    AlternatingRound(a, b, n - 1);
    AlternatingOf(a, b, n);
  }

  predicate EndsInPair(rules: seq<Rule>) {
    |rules| >= 2 && rules[|rules| - 2..] == [UDP, TCP]
  }

  /** The chain's DNS rules, if any, are a suffix: copies of one of the two rules, then (UDP, TCP) pairs. */
  predicate Orderly(rules: seq<Rule>) {
    if EndsInPair(rules) then Orderly(rules[..|rules| - 2])
    else OneBlock(rules)
  }

  predicate OneBlock(rules: seq<Rule>) {
    forall i, j :: 0 <= i < j < |rules| && rules[i].DropDns? ==> rules[j] == rules[i]
  }

  lemma OneBlockIff(rules: seq<Rule>, r: Rule, other: Rule)
    requires r.DropDns? && other == DropDns(!r.tcp) && (rules == [] || rules[|rules| - 1] != other)
    ensures OneBlock(rules) <==> other !in rules && Block(rules, r)
  {
    if OneBlock(rules) {
      forall i | 0 <= i < |rules|
        ensures rules[i] != other
      {
        assert i < |rules| - 1 && rules[i].DropDns? ==> rules[|rules| - 1] == rules[i];
      }
    } else {
      var i, j :| 0 <= i < j < |rules| && rules[i].DropDns? && rules[j] != rules[i];
      assert rules[i] == r || rules[i] == other;
    }
  }

  lemma BlockEnd(front: seq<Rule>, r: Rule)
    ensures Block(front + [r], r) <==> Block(front, r)
  {
    var rules := front + [r];
    if Block(rules, r) {
      forall i, j | 0 <= i < j < |front| && front[i] == r
        ensures front[j] == r
      {
        assert rules[i] == r && rules[j] == front[j];
      }
    }
  }

  /** Whatever the number of pairs appended, the chains that trace them are the orderly ones. */
  lemma {:induction false} OrderlyIff(rules: seq<Rule>, n: nat)
    requires n > 0
    ensures Traces(rules, Alternating(UDP, TCP, n)) <==> Orderly(rules)
  {
    hide Traces, Block, OneBlock;
    TracesAlternating(rules, UDP, TCP, n);
    if rules != [] && rules[|rules| - 1] == TCP {
      var front := rules[..|rules| - 1];
      assert rules == front + [TCP];
      TracesAlternating(front, TCP, UDP, n);
      if front != [] && front[|front| - 1] == UDP {
        assert EndsInPair(rules) && front[..|front| - 1] == rules[..|rules| - 2];
        OrderlyIff(rules[..|rules| - 2], n);
      } else {
        assert !EndsInPair(rules);
        OneBlockIff(rules, TCP, UDP);
        BlockEnd(front, TCP);
      }
    } else {
      OneBlockIff(rules, UDP, TCP);
    }
  }

  /** However many completed dns_failures are undone, the chain is as it was exactly if it was orderly. */
  lemma CyclesIff(rules: seq<Rule>, n: nat)
    ensures Undone(rules + Alternating(UDP, TCP, n), Alternating(UDP, TCP, n)) == rules <==> n == 0 || Orderly(rules)
  {
    AlternatingOf(UDP, TCP, n);
    UndoneIff(rules, Alternating(UDP, TCP, n));
    if n > 0 {
      OrderlyIff(rules, n);
    }
  }

  // ---- Runs ----

  /** The rules that some injections append. */
  function Appended(cmds: seq<Command>): seq<Rule> {
    if cmds == [] then []
    else
      var last := cmds[|cmds| - 1];
      Appended(cmds[..|cmds| - 1]) + if last.Append? then [last.rule] else []
  }

  lemma {:induction false} AppendedBoth(a: seq<Command>, b: seq<Command>)
    ensures Appended(a + b) == Appended(a) + Appended(b)
  {
    if b == [] {
      assert a + b == a;
    } else {
      assert (a + b)[..|a + b| - 1] == a + b[..|b| - 1];
      AppendedBoth(a, b[..|b| - 1]);
    }
  }

  ghost predicate AllInjections(cmds: seq<Command>) {
    forall c :: c in cmds ==> Injects(c)
  }

  lemma {:induction false} InjectionsOutput(k: Kernel, cmds: seq<Command>)
    requires AllInjections(cmds)
    ensures ExecAll(k, cmds).output == k.output + Appended(cmds) && OnlyDns(Appended(cmds))
  {
    if cmds != [] {
      assert Injects(cmds[|cmds| - 1]);
      InjectionsOutput(k, cmds[..|cmds| - 1]);
    }
  }

  lemma {:induction false} UndoOutput(k: Kernel, cmds: seq<Command>)
    requires AllInjections(cmds)
    ensures Undo(k, Inverses(cmds)).output == Undone(k.output, Appended(cmds))
    decreases |cmds|
  {
    if cmds != [] {
      hide Undone, DeleteFirst;
      var init, last := cmds[..|cmds| - 1], cmds[|cmds| - 1];
      assert last in cmds && Injects(last);
      assert Inverses(cmds)[..|cmds| - 1] == Inverses(init);
      UndoOutput(Exec(k, Inverse(last)), init);
      UndoneLast(k.output, Appended(init), UDP);
      UndoneLast(k.output, Appended(init), TCP);
    }
  }

  lemma UndoneLast(rules: seq<Rule>, added: seq<Rule>, r: Rule)
    ensures Undone(rules, added + [r]) == Undone(DeleteFirst(rules, r), added)
    ensures added + [] == added
  {
    assert (added + [r])[..|added|] == added;
  }

  /** Wherever a run stopped, undoing what it has injected restores the order of the chain exactly if the chain
      traced the rules appended. */
  lemma UndoOrderIff(k: Kernel, done: seq<Command>)
    requires AllInjections(done)
    ensures Undo(ExecAll(k, done), Inverses(done)).output == k.output <==> Traces(k.output, Appended(done))
  {
    InjectionsOutput(k, done);
    UndoOutput(ExecAll(k, done), done);
    UndoneIff(k.output, Appended(done));
  }

  function DnsFailures(actions: seq<string>): nat {
    multiset(actions)["dns_failure"]
  }

  lemma DnsFailuresNext(actions: seq<string>)
    ensures DnsFailures([]) == 0
    ensures actions != [] ==>
              DnsFailures(actions) ==
              DnsFailures(actions[..|actions| - 1])
              + if Parse(actions[|actions| - 1]).DnsFailure? then 1 else 0
  {
    hide Parse;
    if actions != [] {
      var init, name := actions[..|actions| - 1], actions[|actions| - 1];
      ParseMeans(name);
      assert actions == init + [name];
      assert multiset(actions) == multiset(init) + multiset{name};
    }
  }

  lemma ActionAppends(cfg: NetworkConfig, action: Action)
    ensures Appended(Commands(cfg, action)) == if action.DnsFailure? then [UDP, TCP] else []
  {
    var cmds := Commands(cfg, action);
    if cmds != [] {
      assert cmds[..1][..0] == [] && Appended([]) == [];
      if action.DnsFailure? {
        assert Appended(cmds[..1]) == [UDP];
      } else {
        assert cmds[..0] == [];
      }
    }
  }

  lemma {:induction false} RunAppends(cfg: NetworkConfig, actions: seq<string>)
    ensures Appended(AllCommands(cfg, actions)) == Alternating(UDP, TCP, DnsFailures(actions))
    ensures AllInjections(AllCommands(cfg, actions))
  {
    AllInject(cfg, actions);
    DnsFailuresNext(actions);
    if actions != [] {
      hide Commands, Parse, Appended, DnsFailures;
      var init, action := actions[..|actions| - 1], Parse(actions[|actions| - 1]);
      RunAppends(cfg, init);
      AppendedBoth(AllCommands(cfg, init), Commands(cfg, action));
      ActionAppends(cfg, action);
    }
  }

  /** Undoing any completed actions, of one run or of several, gives the chain its order back exactly if
      none of them blocked DNS or the chain was orderly before. */
  lemma RunOrderIff(cfg: NetworkConfig, actions: seq<string>, k: Kernel)
    ensures var done := AllCommands(cfg, actions);
            Undo(ExecAll(k, done), Inverses(done)).output == k.output
            <==> DnsFailures(actions) == 0 || Orderly(k.output)
  {
    RunAppends(cfg, actions);
    UndoOrderIff(k, AllCommands(cfg, actions));
    if DnsFailures(actions) > 0 {
      OrderlyIff(k.output, DnsFailures(actions));
    }
  }

  /** And where another dns_failure got no further than its first command. */
  lemma HalfAppliedIff(cfg: NetworkConfig, actions: seq<string>, k: Kernel)
    ensures var done := AllCommands(cfg, actions) + [Append(UDP)];
            Undo(ExecAll(k, done), Inverses(done)).output == k.output
            <==> Traces(k.output, Alternating(UDP, TCP, DnsFailures(actions)) + [UDP])
  {
    hide Undo, ExecAll, Inverses, Traces;
    RunAppends(cfg, actions);
    UndoOrderIff(k, AllCommands(cfg, actions) + [Append(UDP)]);
  }

  /** A run that loses the order: both rules were there before, the other way round. */
  lemma OrderLost(cfg: NetworkConfig, k: Kernel)
    requires cfg.actions == ["dns_failure"] && k.output == [TCP, UDP]
    ensures var done := AllCommands(cfg, cfg.actions);
            && AllAccepted(k, done) && UndoAccepted(ExecAll(k, done), Inverses(done))
            && Undo(ExecAll(k, done), Inverses(done)).output == [UDP, TCP]
  {
    hide Parse, ExecAll, Undo, UndoAccepted, Inverses, Undone;
    var done := AllCommands(cfg, cfg.actions);
    OneDnsFailure(cfg, k);
    RunAppends(cfg, cfg.actions);
    UndoInvertsInjections(k, done);
    InjectionsOutput(k, done);
    UndoOutput(ExecAll(k, done), done);
    assert Alternating(UDP, TCP, 0) == [];
    assert Alternating(UDP, TCP, 1) == [UDP, TCP];
    OrderLostChain();
  }

  lemma OneDnsFailure(cfg: NetworkConfig, k: Kernel)
    requires cfg.actions == ["dns_failure"]
    ensures DnsFailures(cfg.actions) == 1 && AllAccepted(k, AllCommands(cfg, cfg.actions))
  {
    hide Parse;
    ParseMeans("dns_failure");
    DnsFailuresNext(cfg.actions);
    assert cfg.actions[..0] == [] && AllCommands(cfg, []) == [];
    var done := AllCommands(cfg, cfg.actions);
    assert done == [] + Commands(cfg, DnsFailure) == [Append(UDP), Append(TCP)];
  }

  lemma OrderLostChain()
    ensures Undone([TCP, UDP] + [UDP, TCP], [UDP, TCP]) == [UDP, TCP]
  {
    var rules := [TCP, UDP] + [UDP, TCP];
    assert [UDP, TCP][..1] == [UDP] && [UDP][..0] == [];
    assert rules[1..] == [UDP, UDP, TCP];
    assert DeleteFirst(rules, TCP) == [UDP, UDP, TCP];
    assert [UDP, UDP, TCP][1..] == [UDP, TCP];
    assert Undone([UDP, UDP, TCP], [UDP]) == Undone([UDP, TCP], []);
  }

  /** Orderly is not enough when a run stops between the two commands after a completed dns_failure. */
  lemma HalfAppliedLosesOrder(root: Option<Qdisc>)
    ensures var rules := [UDP, TCP];
            && Orderly(rules)
            && Undo(Kernel(root, rules + [UDP, TCP] + [UDP]), Inverses([Append(UDP), Append(TCP), Append(UDP)])).output
               == [TCP, UDP]
  {
    assert [UDP, TCP][..0] == [] && Orderly([]);
    var k := Kernel(root, [UDP, TCP, UDP, TCP, UDP]);
    assert [UDP, TCP] + [UDP, TCP] + [UDP] == k.output;
    var stack := Inverses([Append(UDP), Append(TCP), Append(UDP)]);
    assert stack == [Delete(UDP), Delete(TCP), Delete(UDP)];
    assert stack[..2] == [Delete(UDP), Delete(TCP)] && stack[..2][..1] == [Delete(UDP)] && stack[..2][..1][..0] == [];
    assert k.output[1..] == [TCP, UDP, TCP, UDP];
    assert [TCP, UDP, TCP, UDP][1..] == [UDP, TCP, UDP];
    assert [UDP, TCP, UDP][1..] == [TCP, UDP];
    var a := Exec(k, Delete(UDP));
    var b := Exec(a, Delete(TCP));
    var c := Exec(b, Delete(UDP));
    assert Undo(k, stack) == Undo(a, stack[..2]) == Undo(b, [Delete(UDP)]) == Undo(c, []);
  }
}
