/** ChaosNetwork of pkg/network: it injects tc and iptables commands and keeps the commands
    that undo them on a stack. */
module Network {
  import opened Config
  import opened Kernel
  import Safety

  function Positive(value: int, default: int): int {
    if value <= 0 then default else value
  }

  function PositivePercent(value: real, default: real): real {
    if value <= 0.0 then default else value
  }

  datatype Action = Latency | PacketLoss | DnsFailure | BandwidthLimit | Corrupt | Unknown

  function Parse(name: string): Action {
    match name
    case "latency" => Latency
    case "packet_loss" => PacketLoss
    case "dns_failure" => DnsFailure
    case "bandwidth_limit" => BandwidthLimit
    case "corrupt" => Corrupt
    case _ => Unknown
  }

  /** The commands one configured action issues; an unknown action issues none. */
  function Commands(cfg: NetworkConfig, action: Action): seq<Command> {
    match action
    case Latency => [AddRoot(Delay(Positive(cfg.latencyMs, 100), if cfg.jitterMs > 0 then cfg.jitterMs else 0))]
    case PacketLoss => [AddRoot(Loss(PositivePercent(cfg.packetLossPercent, 5.0)))]
    case DnsFailure => [Append(DropDns(false)), Append(DropDns(true))]
    case BandwidthLimit => [AddRoot(Rate(Positive(cfg.bandwidthLimitKbps, 256)))]
    case Corrupt => [AddRoot(Corruption(PositivePercent(cfg.corruptPercent, 5.0)))]
    case Unknown => []
  }

  function AllCommands(cfg: NetworkConfig, actions: seq<string>): seq<Command> {
    if actions == [] then []
    else AllCommands(cfg, actions[..|actions| - 1]) + Commands(cfg, Parse(actions[|actions| - 1]))
  }

  lemma {:induction false} AllInject(cfg: NetworkConfig, actions: seq<string>)
    ensures forall c :: c in AllCommands(cfg, actions) ==> Injects(c)
  {
    if actions != [] {
      AllInject(cfg, actions[..|actions| - 1]);
    }
  }

  lemma {:induction false} AllCommandsPrefix(cfg: NetworkConfig, actions: seq<string>, i: nat)
    requires i <= |actions|
    ensures AllCommands(cfg, actions[..i]) <= AllCommands(cfg, actions)
    decreases |actions|
  {
    if i == |actions| {
      assert actions[..i] == actions;
    } else {
      var init := actions[..|actions| - 1];
      assert init[..i] == actions[..i];
      AllCommandsPrefix(cfg, init, i);
    }
  }

  // ---- What the names of the actions do to the host ----

  /** The action is one that a run carries out. */
  predicate Known(name: string) {
    name in {"latency", "packet_loss", "dns_failure", "bandwidth_limit", "corrupt"}
  }

  /** Two rules for each `dns_failure`, UDP before TCP, and possibly the UDP rule of one more, at the end. */
  ghost predicate RulesDone(names: seq<string>, half: bool, k: Kernel, k': Kernel) {
    var blocked := 2 * multiset(names)["dns_failure"] + if half then 1 else 0;
    && |k'.output| == |k.output| + blocked && k.output <= k'.output
    && forall j :: 0 <= j < blocked ==> k'.output[|k.output| + j] == DropDns(j % 2 == 1)
  }

  /** At most one action that sets a root discipline, none if one was in place, and its value as configured. */
  ghost predicate RootDone(cfg: NetworkConfig, names: seq<string>, k: Kernel, k': Kernel) {
    var count := multiset(names);
    && count["latency"] + count["packet_loss"] + count["bandwidth_limit"] + count["corrupt"]
       <= (if k.root.None? then 1 else 0)
    && k'.root ==
       if "latency" in names then
         Some(Delay(if cfg.latencyMs > 0 then cfg.latencyMs else 100, if cfg.jitterMs > 0 then cfg.jitterMs else 0))
       else if "packet_loss" in names then
         Some(Loss(if cfg.packetLossPercent > 0.0 then cfg.packetLossPercent else 5.0))
       else if "bandwidth_limit" in names then
         Some(Rate(if cfg.bandwidthLimitKbps > 0 then cfg.bandwidthLimitKbps else 256))
       else if "corrupt" in names then
         Some(Corruption(if cfg.corruptPercent > 0.0 then cfg.corruptPercent else 5.0))
       else k.root
  }

  lemma ParseMeans(name: string)
    ensures Parse(name) == Latency <==> name == "latency"
    ensures Parse(name) == PacketLoss <==> name == "packet_loss"
    ensures Parse(name) == DnsFailure <==> name == "dns_failure"
    ensures Parse(name) == BandwidthLimit <==> name == "bandwidth_limit"
    ensures Parse(name) == Corrupt <==> name == "corrupt"
    ensures Parse(name) == Unknown <==> !Known(name)
  {
  }

  lemma NamesAreDistinct()
    ensures "latency" != "packet_loss" && "latency" != "dns_failure" && "latency" != "bandwidth_limit"
    ensures "latency" != "corrupt" && "packet_loss" != "dns_failure" && "packet_loss" != "bandwidth_limit"
    ensures "packet_loss" != "corrupt" && "dns_failure" != "bandwidth_limit" && "dns_failure" != "corrupt"
    ensures "bandwidth_limit" != "corrupt"
  {
    assert "latency"[0] == 'l' && "packet_loss"[0] == 'p' && "dns_failure"[0] == 'd' && "corrupt"[0] == 'c';
    assert "bandwidth_limit"[0] == 'b';
  }

  lemma CommandsRun(cfg: NetworkConfig, action: Action, k: Kernel)
    requires AllAccepted(k, Commands(cfg, action))
    ensures var k' := ExecAll(k, Commands(cfg, action));
            && k'.output == k.output + (if action.DnsFailure? then [DropDns(false), DropDns(true)] else [])
            && (if action.DnsFailure? || action.Unknown? then k'.root == k.root
                else k.root.None? && k'.root == Some(Commands(cfg, action)[0].qdisc))
  {
    var cmds := Commands(cfg, action);
    if cmds != [] {
      assert cmds[..0] == [] && Accepts(ExecAll(k, cmds[..0]), cmds[0]);
      assert cmds[..1][..0] == [] && ExecAll(k, cmds[..1]) == Exec(k, cmds[0]);
      if action.DnsFailure? {
        assert ExecAll(k, cmds) == Exec(ExecAll(k, cmds[..1]), cmds[1]);
      } else {
        assert cmds == cmds[..1];
      }
    }
  }

  lemma RulesNext(cfg: NetworkConfig, names: seq<string>, name: string, k: Kernel, k1: Kernel)
    requires RulesDone(names, false, k, k1) && AllAccepted(k1, Commands(cfg, Parse(name)))
    ensures RulesDone(names + [name], false, k, ExecAll(k1, Commands(cfg, Parse(name))))
  {
    hide Commands, Parse, ExecAll, AllAccepted;
    ParseMeans(name);
    CommandsRun(cfg, Parse(name), k1);
    assert multiset(names + [name]) == multiset(names) + multiset{name};
  }

  lemma RootNext(cfg: NetworkConfig, names: seq<string>, name: string, k: Kernel, k1: Kernel)
    requires RootDone(cfg, names, k, k1) && AllAccepted(k1, Commands(cfg, Parse(name)))
    ensures RootDone(cfg, names + [name], k, ExecAll(k1, Commands(cfg, Parse(name))))
  {
    hide Parse, ExecAll, AllAccepted;
    ParseMeans(name);
    NamesAreDistinct();
    CommandsRun(cfg, Parse(name), k1);
    var all, k2 := names + [name], ExecAll(k1, Commands(cfg, Parse(name)));
    assert multiset(all) == multiset(names) + multiset{name};
    assert forall x :: x in all <==> x in names || x == name;
    if name == "dns_failure" || !Known(name) {
      assert k2.root == k1.root;
    } else {
      NoneNamed(cfg, names, k, k1);
      assert k2.root == Some(Commands(cfg, Parse(name))[0].qdisc);
    }
  }

  lemma NoneNamed(cfg: NetworkConfig, names: seq<string>, k: Kernel, k1: Kernel)
    requires RootDone(cfg, names, k, k1) && k1.root.None?
    ensures k.root.None?
    ensures forall x :: x in {"latency", "packet_loss", "bandwidth_limit", "corrupt"} ==>
                          x !in names && multiset(names)[x] == 0
  {
  }

  lemma HalfDone(cfg: NetworkConfig, names: seq<string>, k: Kernel, k1: Kernel)
    requires RulesDone(names, false, k, k1) && RootDone(cfg, names, k, k1)
    ensures RulesDone(names, true, k, Exec(k1, Append(DropDns(false))))
    ensures RootDone(cfg, names, k, Exec(k1, Append(DropDns(false))))
  {
  }

  /** Of the named actions the first `m` have been carried out, and half of the next where only its first command
      took effect. */
  ghost predicate DoneByName(cfg: NetworkConfig, names: seq<string>, m: nat, half: bool, k: Kernel, k': Kernel) {
    && m <= |names| && (m < |names| ==> Known(names[m])) && (half ==> m < |names| && names[m] == "dns_failure")
    && RulesDone(names[..m], half, k, k') && RootDone(cfg, names[..m], k, k')
  }

  lemma {:induction false} ByName(cfg: NetworkConfig, names: seq<string>, k: Kernel, n: nat)
    returns (m: nat, half: bool)
    requires n <= |AllCommands(cfg, names)| && AllAccepted(k, AllCommands(cfg, names)[..n])
    ensures DoneByName(cfg, names, m, half, k, ExecAll(k, AllCommands(cfg, names)[..n]))
    ensures if n == |AllCommands(cfg, names)| then m == |names|
            else m < |names| && (AllCommands(cfg, names)[n].AddRoot? <==> names[m] != "dns_failure")
    decreases |names|
  {
    hide DoneByName, Commands, Parse, Exec, ExecAll, AllAccepted;
    var all := AllCommands(cfg, names);
    if names == [] {
      NothingByName(cfg, k);
      assert all[..n] == [];
      return 0, false;
    }
    var init, name := names[..|names| - 1], names[|names| - 1];
    var before, cmds := AllCommands(cfg, init), Commands(cfg, Parse(name));
    CommandsOf(cfg, name);
    if n < |before| || (n == |before| && cmds != []) {
      assert all[..n] == before[..n];
      m, half := ByName(cfg, init, k, n);
      MoreNames(cfg, names, m, half, k, ExecAll(k, all[..n]));
    } else {
      assert all[..n] == before + cmds[..n - |before|] && before[..|before|] == before;
      AcceptedParts(k, before, cmds[..n - |before|]);
      ExecAppend(k, before, cmds[..n - |before|]);
      m, half := ByName(cfg, init, k, |before|);
      m, half := LastByName(cfg, names, half, k, ExecAll(k, before), n - |before|);
    }
  }

  lemma MoreNames(cfg: NetworkConfig, names: seq<string>, m: nat, half: bool, k: Kernel, k': Kernel)
    requires names != [] && DoneByName(cfg, names[..|names| - 1], m, half, k, k')
    requires m == |names| - 1 ==> Commands(cfg, Parse(names[m])) != []
    ensures DoneByName(cfg, names, m, half, k, k') && m < |names|
    ensures m < |names| - 1 ==> names[..|names| - 1][m] == names[m]
  {
    hide RulesDone, RootDone, Commands, Parse;
    assert names[..|names| - 1][..m] == names[..m];
    if m == |names| - 1 {
      CommandsOf(cfg, names[m]);
    }
  }

  lemma LastByName(cfg: NetworkConfig, names: seq<string>, was: bool, k: Kernel, k1: Kernel, n: nat)
    returns (m: nat, half: bool)
    requires names != [] && DoneByName(cfg, names[..|names| - 1], |names| - 1, was, k, k1)
    requires var cmds := Commands(cfg, Parse(names[|names| - 1]));
             n <= |cmds| && (n > 0 || cmds == []) && AllAccepted(k1, cmds[..n])
    ensures var cmds := Commands(cfg, Parse(names[|names| - 1]));
            && DoneByName(cfg, names, m, half, k, ExecAll(k1, cmds[..n]))
            && m == if n == |cmds| then |names| else |names| - 1
  {
    hide RulesDone, RootDone, Parse, ExecAll, AllAccepted, Commands;
    var init, name := names[..|names| - 1], names[|names| - 1];
    var cmds := Commands(cfg, Parse(name));
    assert names == init + [name] && init[..|init|] == init && names[..|names|] == names;
    if n == |cmds| {
      assert cmds[..n] == cmds;
      RulesNext(cfg, init, name, k, k1);
      RootNext(cfg, init, name, k, k1);
      return |names|, false;
    }
    CommandsOf(cfg, name);
    OneExec(k1, cmds[..1], Append(DropDns(false)));
    HalfDone(cfg, init, k, k1);
    m, half := |init|, true;
  }

  lemma CommandsOf(cfg: NetworkConfig, name: string)
    ensures var cmds := Commands(cfg, Parse(name));
            && (cmds != [] ==> Known(name))
            && (forall c :: c in cmds ==> (c.AddRoot? <==> name != "dns_failure"))
            && (|cmds| > 1 ==> name == "dns_failure" && |cmds| == 2 && cmds[..1] == [Append(DropDns(false))])
  {
    hide Parse;
    ParseMeans(name);
  }

  lemma AcceptedParts(k: Kernel, a: seq<Command>, b: seq<Command>)
    requires AllAccepted(k, a + b)
    ensures AllAccepted(k, a) && AllAccepted(ExecAll(k, a), b)
  {
    hide Accepts, ExecAll;
    forall i | 0 <= i < |a|
      ensures Accepts(ExecAll(k, a[..i]), a[i])
    {
      assert (a + b)[..i] == a[..i] && (a + b)[i] == a[i];
    }
    forall i | 0 <= i < |b|
      ensures Accepts(ExecAll(ExecAll(k, a), b[..i]), b[i])
    {
      assert (a + b)[..|a| + i] == a + b[..i] && (a + b)[|a| + i] == b[i];
      ExecAppend(k, a, b[..i]);
    }
  }

  lemma OneExec(k: Kernel, cmds: seq<Command>, c: Command)
    requires cmds == [c]
    ensures ExecAll(k, cmds) == Exec(k, c)
  {
    assert cmds[..0] == [];
  }

  lemma NothingByName(cfg: NetworkConfig, k: Kernel)
    ensures DoneByName(cfg, [], 0, false, k, k) && ExecAll(k, []) == k
  {
  }

  /** The policy stops a run at this action. */
  predicate Refuses(policy: Option<Safety.Policy>, action: string) {
    && Parse(action) != Unknown
    && policy.Some? && !Safety.ActionAllowed(policy.value, action, Safety.NetworkActions)
  }

  /** The first action from `i` on that is cancelled or refused, or the number of actions. */
  function StopsAt(policy: Option<Safety.Policy>, actions: seq<string>, cancelled: nat -> bool, i: nat): (stop: nat)
    requires i <= |actions|
    ensures i <= stop <= |actions|
    ensures forall j :: i <= j < stop ==> !cancelled(j) && !Refuses(policy, actions[j])
    ensures stop < |actions| ==> cancelled(stop) || Refuses(policy, actions[stop])
    decreases |actions| - i
  {
    if i < |actions| && !cancelled(i) && !Refuses(policy, actions[i])
    then StopsAt(policy, actions, cancelled, i + 1)
    else i
  }

  /** The run gets to just these actions: none of them is cancelled or, being known, refused by a policy that
      allows no destructive actions, and the next one is. */
  ghost predicate Admits(policy: Option<Safety.Policy>, actions: seq<string>, cancelled: nat -> bool, stop: nat) {
    && stop <= |actions|
    && (forall j :: 0 <= j < stop ==> !cancelled(j) && !(Known(actions[j]) && Forbids(policy)))
    && (stop < |actions| ==> cancelled(stop) || (Known(actions[stop]) && Forbids(policy)))
  }

  predicate Forbids(policy: Option<Safety.Policy>) {
    policy.Some? && policy.value.cfg.enabled && !policy.value.cfg.allowDestructiveActions
  }

  lemma StopMeans(policy: Option<Safety.Policy>, actions: seq<string>, cancelled: nat -> bool, stop: nat)
    requires stop == StopsAt(policy, actions, cancelled, 0)
    ensures Admits(policy, actions, cancelled, stop)
  {
    forall j | 0 <= j < |actions|
      ensures Refuses(policy, actions[j]) <==> Known(actions[j]) && Forbids(policy)
    {
      ParseMeans(actions[j]);
    }
  }

  /** Command `i` of `cmds`, issued one after the other from `k`, is accepted and meets no fault. */
  ghost predicate Works(k: Kernel, cmds: seq<Command>, faults: nat -> bool, issued: nat, i: nat)
    requires i < |cmds|
  {
    Accepts(ExecAll(k, cmds[..i]), cmds[i]) && !faults(issued + i)
  }

  /** Exactly the first `n` commands take effect: the next one, if any, does not work. */
  ghost predicate Reaches(k: Kernel, cmds: seq<Command>, faults: nat -> bool, issued: nat, n: nat) {
    && n <= |cmds|
    && (forall i :: 0 <= i < n ==> Works(k, cmds, faults, issued, i))
    && (n < |cmds| ==> !Works(k, cmds, faults, issued, n))
  }

  /** The number of commands issued when `n` of them take effect. */
  function Issues(cmds: seq<Command>, n: nat): nat {
    if n < |cmds| then n + 1 else |cmds|
  }

  lemma PerformedState(k: Kernel, applied: seq<Command>, k': Kernel, applied': seq<Command>, cmds: seq<Command>)
    requires Performed(k, applied, k', applied', cmds)
    ensures k' == ExecAll(k, cmds)
  {
  }

  lemma WorksAppend(k: Kernel, a: seq<Command>, b: seq<Command>, faults: nat -> bool, issued: nat, i: nat)
    requires i < |a + b|
    ensures Works(k, a + b, faults, issued, i)
        <==> if i < |a| then Works(k, a, faults, issued, i)
             else Works(ExecAll(k, a), b, faults, issued + |a|, i - |a|)
  {
    if i < |a| {
      assert (a + b)[..i] == a[..i];
    } else {
      assert (a + b)[..i] == a + b[..i - |a|];
      ExecAppend(k, a, b[..i - |a|]);
    }
  }

  lemma ReachesAppend(k: Kernel, a: seq<Command>, b: seq<Command>, faults: nat -> bool, issued: nat, n: nat)
    requires Reaches(k, a, faults, issued, |a|) && Reaches(ExecAll(k, a), b, faults, issued + |a|, n)
    ensures Reaches(k, a + b, faults, issued, |a| + n)
  {
    hide Works, ExecAll;
    forall i | 0 <= i < |a + b|
      ensures Works(k, a + b, faults, issued, i)
          <==> if i < |a| then Works(k, a, faults, issued, i)
               else Works(ExecAll(k, a), b, faults, issued + |a|, i - |a|)
    {
      WorksAppend(k, a, b, faults, issued, i);
    }
  }

  lemma ReachesLonger(k: Kernel, cmds: seq<Command>, longer: seq<Command>, faults: nat -> bool, issued: nat, n: nat)
    requires Reaches(k, cmds, faults, issued, n) && n < |cmds| && cmds <= longer
    ensures Reaches(k, longer, faults, issued, n)
  {
    hide Works, ExecAll;
    var rest := longer[|cmds|..];
    assert longer == cmds + rest;
    forall i | 0 <= i <= n
      ensures Works(k, longer, faults, issued, i) <==> Works(k, cmds, faults, issued, i)
    {
      WorksAppend(k, cmds, rest, faults, issued, i);
    }
  }

  lemma NothingDone(cfg: NetworkConfig, k: Kernel, applied: seq<Command>, faults: nat -> bool, issued: nat)
    returns (done: seq<Command>)
    ensures done == [] == AllCommands(cfg, cfg.actions[..0]) == done[..0]
    ensures Reaches(k, done, faults, issued, 0) && Performed(k, applied, k, applied, done[..0])
  {
    done := [];
    PerformedNothing(k, applied);
  }

  /** One action after those before `i` have all taken effect: `m` of its commands do. */
  lemma OneMore(cfg: NetworkConfig, k0: Kernel, a0: seq<Command>, k1: Kernel, a1: seq<Command>, k2: Kernel,
                a2: seq<Command>,
                faults: nat -> bool, issued: nat, i: nat, m: nat, stop: nat) returns (done: seq<Command>, n: nat)
    requires i < stop <= |cfg.actions|
    requires var before, cmds := AllCommands(cfg, cfg.actions[..i]), Commands(cfg, Parse(cfg.actions[i]));
             && Reaches(k0, before, faults, issued, |before|) && Performed(k0, a0, k1, a1, before[..|before|])
             && Reaches(k1, cmds, faults, issued + |before|, m) && Performed(k1, a1, k2, a2, cmds[..m])
    ensures done == AllCommands(cfg, cfg.actions[..i + 1])
         == AllCommands(cfg, cfg.actions[..i]) + Commands(cfg, Parse(cfg.actions[i]))
    ensures n == |AllCommands(cfg, cfg.actions[..i])| + m <= |done|
    ensures Reaches(k0, done, faults, issued, n) && Performed(k0, a0, k2, a2, done[..n])
    ensures n < |done| ==>
              && n < |AllCommands(cfg, cfg.actions[..stop])|
              && Reaches(k0, AllCommands(cfg, cfg.actions[..stop]), faults, issued, n)
              && Performed(k0, a0, k2, a2, AllCommands(cfg, cfg.actions[..stop])[..n])
  {
    hide Commands, Performed, Reaches;
    var before, cmds := AllCommands(cfg, cfg.actions[..i]), Commands(cfg, Parse(cfg.actions[i]));
    var all := AllCommands(cfg, cfg.actions[..stop]);
    assert cfg.actions[..i + 1][..i] == cfg.actions[..i];
    done, n := before + cmds, |before| + m;
    ReachesWithin(k1, cmds, faults, issued + |before|, m);
    assert before[..|before|] == before && done[..n] == before + cmds[..m];
    PerformedAppend(k0, a0, k1, a1, k2, a2, before, cmds[..m]);
    PerformedState(k0, a0, k1, a1, before);
    ReachesAppend(k0, before, cmds, faults, issued, m);
    if n < |done| {
      assert cfg.actions[..stop][..i + 1] == cfg.actions[..i + 1];
      AllCommandsPrefix(cfg, cfg.actions[..stop], i + 1);
      ReachesLonger(k0, done, all, faults, issued, n);
      assert all[..n] == done[..n];
    }
  }

  lemma ReachesWithin(k: Kernel, cmds: seq<Command>, faults: nat -> bool, issued: nat, n: nat)
    requires Reaches(k, cmds, faults, issued, n)
    ensures n <= |cmds|
  {
  }

  /** The machine the commands run on. A command can also fail for reasons of its own:
      `faults` says which ones do, by the number of commands issued before. */
  class Host {
    var kernel: Kernel
    var issued: nat
    const faults: nat -> bool

    constructor (kernel: Kernel, faults: nat -> bool)
      ensures this.kernel == kernel && this.issued == 0 && this.faults == faults
    {
      this.kernel, this.issued, this.faults := kernel, 0, faults;
    }

    method Run(c: Command) returns (ok: bool)
      modifies this
      ensures ok <==> Accepts(old(kernel), c) && !faults(old(issued))
      ensures kernel == if ok then Exec(old(kernel), c) else old(kernel)
      ensures issued == old(issued) + 1
    {
      ok := Accepts(kernel, c) && !faults(issued);
      issued := issued + 1;
      if ok {
        kernel := Exec(kernel, c);
      }
    }
  }

  datatype End = Success | Stopped | RolledBack(clean: bool)

  class ChaosNetwork {
    const cfg: NetworkConfig
    const policy: Option<Safety.Policy>
    const host: Host
    var applied: seq<Command>

    constructor (cfg: NetworkConfig, policy: Option<Safety.Policy>, host: Host)
      ensures this.cfg == cfg && this.policy == policy && this.host == host && applied == []
    {
      this.cfg, this.policy, this.host, this.applied := cfg, policy, host, [];
    }

    /** Adds a root discipline: latency, packet loss, bandwidth limit or corruption. */
    method InjectRoot(qdisc: Qdisc) returns (ok: bool)
      modifies this`applied, host
      ensures ok <==> old(host.kernel).root.None? && !host.faults(old(host.issued))
      ensures host.issued == old(host.issued) + 1
      ensures Performed(old(host.kernel), old(applied), host.kernel, applied, if ok then [AddRoot(qdisc)] else [])
    {
      PerformedNothing(host.kernel, applied);
      ok := host.Run(AddRoot(qdisc));
      if !ok {
        return;
      }
      PerformedOne(old(host.kernel), applied, AddRoot(qdisc));
      applied := applied + [DeleteRoot];
    }

    method InjectLatency() returns (ok: bool)
      modifies this`applied, host
      ensures ok <==> old(host.kernel).root.None? && !host.faults(old(host.issued))
      ensures host.issued == old(host.issued) + 1
      ensures Performed(old(host.kernel), old(applied), host.kernel, applied, if ok then Commands(cfg, Latency) else [])
    {
      var latencyMs := cfg.latencyMs;
      if latencyMs <= 0 {
        latencyMs := 100;
      }
      ok := InjectRoot(Delay(latencyMs, if cfg.jitterMs > 0 then cfg.jitterMs else 0));
    }

    method InjectPacketLoss() returns (ok: bool)
      modifies this`applied, host
      ensures ok <==> old(host.kernel).root.None? && !host.faults(old(host.issued))
      ensures host.issued == old(host.issued) + 1
      ensures Performed(old(host.kernel), old(applied), host.kernel, applied,
                        if ok then Commands(cfg, PacketLoss) else [])
    {
      var lossPct := cfg.packetLossPercent;
      if lossPct <= 0.0 {
        lossPct := 5.0;
      }
      ok := InjectRoot(Loss(lossPct));
    }

    /** Blocks DNS over UDP, then over TCP. When the second command fails the first stays, on
        the kernel and on the stack. */
    method InjectDNSFailure() returns (ok: bool, ghost n: nat)
      modifies this`applied, host
      ensures n == if host.faults(old(host.issued)) then 0 else if host.faults(old(host.issued) + 1) then 1 else 2
      ensures (ok <==> n == 2) && host.issued == old(host.issued) + if n == 0 then 1 else 2
      ensures Performed(old(host.kernel), old(applied), host.kernel, applied, Commands(cfg, DnsFailure)[..n])
    {
      var udp, tcp := Append(DropDns(false)), Append(DropDns(true));
      n := 0;
      PerformedNothing(host.kernel, applied);
      ok := host.Run(udp);
      if !ok {
        return;
      }
      PerformedOne(old(host.kernel), applied, udp);
      applied := applied + [Delete(DropDns(false))];
      n := 1;
      ghost var k1, a1 := host.kernel, applied;
      assert Commands(cfg, DnsFailure)[..1] == [udp];
      ok := host.Run(tcp);
      if !ok {
        return;
      }
      PerformedOne(k1, a1, tcp);
      applied := applied + [Delete(DropDns(true))];
      n := 2;
      PerformedAppend(old(host.kernel), old(applied), k1, a1, host.kernel, applied, [udp], [tcp]);
      assert Commands(cfg, DnsFailure)[..2] == [udp] + [tcp];
    }

    method InjectBandwidthLimit() returns (ok: bool)
      modifies this`applied, host
      ensures ok <==> old(host.kernel).root.None? && !host.faults(old(host.issued))
      ensures host.issued == old(host.issued) + 1
      ensures Performed(old(host.kernel), old(applied), host.kernel, applied,
                        if ok then Commands(cfg, BandwidthLimit) else [])
    {
      var rateKbps := cfg.bandwidthLimitKbps;
      if rateKbps <= 0 {
        rateKbps := 256;
      }
      ok := InjectRoot(Rate(rateKbps));
    }

    method InjectCorruption() returns (ok: bool)
      modifies this`applied, host
      ensures ok <==> old(host.kernel).root.None? && !host.faults(old(host.issued))
      ensures host.issued == old(host.issued) + 1
      ensures Performed(old(host.kernel), old(applied), host.kernel, applied, if ok then Commands(cfg, Corrupt) else [])
    {
      var corruptPct := cfg.corruptPercent;
      if corruptPct <= 0.0 {
        corruptPct := 5.0;
      }
      ok := InjectRoot(Corruption(corruptPct));
    }

    /** One action of the Run loop after its policy check: a prefix of its commands takes effect,
        all of them when it succeeds. */
    method Inject(action: Action) returns (ok: bool, ghost n: nat)
      modifies this`applied, host
      ensures Reaches(old(host.kernel), Commands(cfg, action), host.faults, old(host.issued), n)
      ensures host.issued == old(host.issued) + Issues(Commands(cfg, action), n)
      ensures ok <==> n == |Commands(cfg, action)|
      ensures Performed(old(host.kernel), old(applied), host.kernel, applied, Commands(cfg, action)[..n])
    {
      match action {
        case Latency => ok := InjectLatency();
        case PacketLoss => ok := InjectPacketLoss();
        case BandwidthLimit => ok := InjectBandwidthLimit();
        case Corrupt => ok := InjectCorruption();
        case DnsFailure =>
          ok, n := InjectDNSFailure();
          return;
        case Unknown =>
          PerformedNothing(host.kernel, applied);
          return true, 0;
      }
      n := if ok then 1 else 0;
      assert Commands(cfg, action)[..1] == Commands(cfg, action);
    }

    /** One turn of the action loop: the policy check, then the injection. */
    method RunAction(name: string) returns (ok: bool, ghost n: nat)
      modifies this`applied, host
      ensures Refuses(policy, name) ==>
                && !ok && n == 0 && host.issued == old(host.issued)
                && host.kernel == old(host.kernel) && applied == old(applied)
      ensures !Refuses(policy, name) ==>
                && Reaches(old(host.kernel), Commands(cfg, Parse(name)), host.faults, old(host.issued), n)
                && host.issued == old(host.issued) + Issues(Commands(cfg, Parse(name)), n)
                && (ok <==> n == |Commands(cfg, Parse(name))|)
      ensures n <= |Commands(cfg, Parse(name))|
      ensures Performed(old(host.kernel), old(applied), host.kernel, applied, Commands(cfg, Parse(name))[..n])
    {
      if Refuses(policy, name) {
        PerformedNothing(host.kernel, applied);
        return false, 0;
      }
      ok, n := Inject(Parse(name));
    }

    /** The action loop of Run. `cancelled` says before which actions the context is found
        done. The commands of the actions before the first one cancelled or refused take effect
        up to the first that the host does not accept or that meets a fault. */
    method RunActions(cancelled: nat -> bool) returns (ok: bool, ghost stop: nat, ghost n: nat)
      modifies this`applied, host
      ensures stop == StopsAt(policy, cfg.actions, cancelled, 0)
      ensures Reaches(old(host.kernel), AllCommands(cfg, cfg.actions[..stop]), host.faults, old(host.issued), n)
      ensures Performed(old(host.kernel), old(applied), host.kernel, applied,
                        AllCommands(cfg, cfg.actions[..stop])[..n])
      ensures ok <==> stop == |cfg.actions| && n == |AllCommands(cfg, cfg.actions)|
      ensures host.issued == old(host.issued) + Issues(AllCommands(cfg, cfg.actions[..stop]), n)
    {
      hide Performed, Reaches, Commands, AllCommands, Refuses;
      ok, n, stop := true, 0, StopsAt(policy, cfg.actions, cancelled, 0);
      assert cfg.actions[..|cfg.actions|] == cfg.actions;
      ghost var k0, a0, issued0 := host.kernel, applied, host.issued;
      ghost var done := NothingDone(cfg, k0, a0, host.faults, issued0);
      var i := 0;
      while i < |cfg.actions|
        invariant 0 <= i <= stop && stop == StopsAt(policy, cfg.actions, cancelled, i)
        invariant done == AllCommands(cfg, cfg.actions[..i]) && host.issued == issued0 + |done|
        invariant Reaches(k0, done, host.faults, issued0, |done|)
        invariant Performed(k0, a0, host.kernel, applied, done[..|done|])
      {
        if cancelled(i) {
          return false, stop, |done|;
        }
        ghost var k1, a1 := host.kernel, applied;
        ok, n := RunAction(cfg.actions[i]);
        if Refuses(policy, cfg.actions[i]) {
          return false, stop, |done|;
        }
        done, n := OneMore(cfg, k0, a0, k1, a1, host.kernel, applied, host.faults, issued0, i, n, stop);
        if !ok {
          return false, stop, n;
        }
        i := i + 1;
      }
      n := |done|;
    }

    /** Runs the configured actions in order. `expires` says whether a configured duration runs
        out before the context does, upon which the run rolls itself back; `k` and `stack` are
        the kernel and the stack when the actions are over, `issued` the commands issued so far.
        By then the first `m` named actions have been carried out, and `half` of another. */
    method Run(cancelled: nat -> bool, expires: bool)
      returns (end: End, ghost stop: nat, ghost n: nat, ghost k: Kernel, ghost stack: seq<Command>, ghost issued: nat,
               ghost m: nat, ghost half: bool)
      modifies this`applied, host
      ensures stop == StopsAt(policy, cfg.actions, cancelled, 0)
      ensures Reaches(old(host.kernel), AllCommands(cfg, cfg.actions[..stop]), host.faults, old(host.issued), n)
      ensures Performed(old(host.kernel), old(applied), k, stack, AllCommands(cfg, cfg.actions[..stop])[..n])
      ensures var all := stop == |cfg.actions| && n == |AllCommands(cfg, cfg.actions)|;
              && (end.Success? <==> all && cfg.duration <= 0)
              && (end.RolledBack? <==> all && cfg.duration > 0 && expires)
      ensures Admits(policy, cfg.actions, cancelled, stop)
      ensures DoneByName(cfg, cfg.actions[..stop], m, half, old(host.kernel), k)
      ensures m < stop ==> (issued > 0 && host.faults(issued - 1)) || (cfg.actions[m] != "dns_failure" && k.root.Some?)
      ensures end.Success? <==> m == |cfg.actions| && cfg.duration <= 0
      ensures end.RolledBack? <==> m == |cfg.actions| && cfg.duration > 0 && expires
      ensures !end.RolledBack? ==> host.kernel == k && applied == stack
      ensures end.RolledBack? ==> applied == [] && host.kernel == Unwind(k, stack, host.faults, issued).0
      ensures end.RolledBack? ==> (end.clean <==> Unwind(k, stack, host.faults, issued).1 == 0)
    {
      hide Performed, Reaches, Commands, AllCommands, Refuses, DoneByName, Admits, Unwind;
      var ok;
      ok, stop, n := RunActions(cancelled);
      k, stack, issued := host.kernel, applied, host.issued;
      StopMeans(policy, cfg.actions, cancelled, stop);
      m, half := RunByName(cfg, stop, old(host.kernel), host.faults, old(host.issued), n, issued);
      PerformedState(old(host.kernel), old(applied), k, stack, AllCommands(cfg, cfg.actions[..stop])[..n]);
      if !ok {
        end := Stopped;
      } else if cfg.duration > 0 {
        if expires {
          var clean := Rollback();
          end := RolledBack(clean);
        } else {
          end := Stopped;
        }
      } else {
        end := Success;
      }
    }

    /** Undoes the stack from the top, going on after failures, and empties it. */
    method Rollback() returns (clean: bool)
      modifies this`applied, host
      ensures applied == []
      ensures host.kernel == Unwind(old(host.kernel), old(applied), host.faults, old(host.issued)).0
      ensures clean <==> Unwind(old(host.kernel), old(applied), host.faults, old(host.issued)).1 == 0
      ensures host.issued == old(host.issued) + |old(applied)|
    {
      var errors: nat := 0;
      var i := |applied|;
      ghost var stack := applied;
      ghost var whole := Unwind(host.kernel, applied, host.faults, host.issued);
      while i > 0
        invariant 0 <= i <= |applied| && applied == old(applied) && stack == applied[..i]
        invariant host.issued == old(host.issued) + |applied| - i
        invariant whole == (Unwind(host.kernel, stack, host.faults, host.issued).0,
                            Unwind(host.kernel, stack, host.faults, host.issued).1 + errors)
      {
        i := i - 1;
        stack := stack[..|stack| - 1];
        var ok := host.Run(applied[i]);
        if !ok {
          errors := errors + 1;
        }
      }
      applied := [];
      clean := errors == 0;
    }
  }

  /** Wherever a run stops, the stack undoes everything back to any state it was balanced with
      before: after every command of any number of runs, nothing is left behind for good. */
  lemma RunKeepsBalance(cfg: NetworkConfig, start: Kernel, k: Kernel, applied: seq<Command>, k': Kernel,
                        applied': seq<Command>,
                        stop: nat, n: nat)
    requires Balanced(start, k, applied)
    requires stop <= |cfg.actions| && n <= |AllCommands(cfg, cfg.actions[..stop])|
    requires Performed(k, applied, k', applied', AllCommands(cfg, cfg.actions[..stop])[..n])
    ensures Balanced(start, k', applied')
    ensures UndoAccepted(k', applied') && Restored(start, Undo(k', applied'))
  {
    AllInject(cfg, cfg.actions[..stop]);
    InjectionsBalanced(start, k, applied, AllCommands(cfg, cfg.actions[..stop])[..n]);
    UndoRestores(start, k', applied');
  }

  /** Of commands that meet no fault all take effect exactly when at most one of them sets a root
      discipline, or none if one is in place. */
  lemma RunsThroughIff(cfg: NetworkConfig, actions: seq<string>, k: Kernel, faults: nat -> bool, issued: nat, n: nat)
    requires Reaches(k, AllCommands(cfg, actions), faults, issued, n)
    requires Faultless(faults, issued, |AllCommands(cfg, actions)|)
    ensures n == |AllCommands(cfg, actions)| <==> AddRoots(AllCommands(cfg, actions)) <= if k.root.None? then 1 else 0
  {
    hide AllCommands, ExecAll;
    var cmds := AllCommands(cfg, actions);
    AllInject(cfg, actions);
    ReachesAccepted(k, cmds, faults, issued, n);
    OneRootAtMost(k, cmds[..n]);
    if n < |cmds| {
      assert cmds[n] in cmds;
      assert cmds[..n + 1][..n] == cmds[..n];
      AddRootsPrefix(cmds, n + 1);
    } else {
      assert cmds[..n] == cmds;
    }
  }

  lemma ReachesAccepted(k: Kernel, cmds: seq<Command>, faults: nat -> bool, issued: nat, n: nat)
    requires Reaches(k, cmds, faults, issued, n)
    ensures n <= |cmds| && AllAccepted(k, cmds[..n])
  {
    hide ExecAll, Accepts;
    forall i | 0 <= i < n
      ensures Accepts(ExecAll(k, cmds[..n][..i]), cmds[..n][i])
    {
      assert Works(k, cmds, faults, issued, i) && cmds[..n][..i] == cmds[..i];
    }
  }

  /** How far a run came, in terms of the actions it was to carry out, and why no further. */
  lemma RunByName(cfg: NetworkConfig, stop: nat, k: Kernel, faults: nat -> bool, issued: nat, n: nat, now: nat)
    returns (m: nat, half: bool)
    requires stop <= |cfg.actions| && Reaches(k, AllCommands(cfg, cfg.actions[..stop]), faults, issued, n)
    requires now == issued + Issues(AllCommands(cfg, cfg.actions[..stop]), n)
    ensures n <= |AllCommands(cfg, cfg.actions[..stop])| && m <= stop
    ensures var k' := ExecAll(k, AllCommands(cfg, cfg.actions[..stop])[..n]);
            && DoneByName(cfg, cfg.actions[..stop], m, half, k, k')
            && (m < stop ==> (now > 0 && faults(now - 1)) || (cfg.actions[m] != "dns_failure" && k'.root.Some?))
    ensures m == |cfg.actions| <==> stop == |cfg.actions| && n == |AllCommands(cfg, cfg.actions)|
  {
    hide DoneByName, Commands, Exec, ExecAll, AllAccepted;
    var names := cfg.actions[..stop];
    var all := AllCommands(cfg, names);
    ReachesAccepted(k, all, faults, issued, n);
    m, half := ByName(cfg, names, k, n);
    if n < |all| {
      assert !Works(k, all, faults, issued, n);
      AllInject(cfg, names);
      assert all[n] in all && Injects(all[n]);
    }
    assert cfg.actions[..|cfg.actions|] == cfg.actions;
    assert n == |all| <==> m == stop;
  }

  lemma {:induction false} AddRootsPrefix(cmds: seq<Command>, n: nat)
    requires n <= |cmds|
    ensures AddRoots(cmds[..n]) <= AddRoots(cmds)
  {
    if n == |cmds| {
      assert cmds[..n] == cmds;
    } else {
      AddRootsPrefix(cmds[..|cmds| - 1], n);
      assert cmds[..|cmds| - 1][..n] == cmds[..n];
    }
  }
}
