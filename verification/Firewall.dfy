/** Each VM has its own nftables table. What the rules of one table are, what chains do with
    a packet, and what any number of tables do to it together. */
module Firewall {
  import opened Optional
  import opened VmIds
  import opened Network

  datatype CtState = New | Established | Related | Invalid

  datatype Packet = Packet(iif: string, oif: string, src: Ipv4, dst: Ipv4, tcp: bool, dport: u16, ct: CtState)

  type Prefix = n: nat | n <= 32

  datatype Match =
    | Iif(name: string)
    | Oif(name: string)
    | Saddr(net: Ipv4, prefix: Prefix)
    | Daddr(net: Ipv4, prefix: Prefix)
    | DaddrNot(net: Ipv4, prefix: Prefix)
    | TcpDport(port: u16)
    | Ct(states: set<CtState>)

  datatype Action = Accept | Drop | Dnat(to: Ipv4, port: u16) | Masquerade

  datatype Rule = Rule(matches: seq<Match>, action: Action)

  datatype Table = Table(
    name: string, prerouting: seq<Rule>, output: seq<Rule>, forward: seq<Rule>, postrouting: seq<Rule>)

  predicate Meets(m: Match, p: Packet) {
    match m
    case Iif(name) => p.iif == name
    case Oif(name) => p.oif == name
    case Saddr(net, prefix) => SamePrefix(p.src.Value(), net.Value(), prefix)
    case Daddr(net, prefix) => SamePrefix(p.dst.Value(), net.Value(), prefix)
    case DaddrNot(net, prefix) => !SamePrefix(p.dst.Value(), net.Value(), prefix)
    case TcpDport(port) => p.tcp && p.dport == port
    case Ct(states) => p.ct in states
  }

  predicate Applies(r: Rule, p: Packet) {
    forall m :: m in r.matches ==> Meets(m, p)
  }

  /** A filter chain with policy accept: the first rule that applies decides. */
  predicate ChainAccepts(rules: seq<Rule>, p: Packet) {
    if rules == [] then true
    else if Applies(rules[0], p) && rules[0].action == Accept then true
    else if Applies(rules[0], p) && rules[0].action == Drop then false
    else ChainAccepts(rules[1..], p)
  }

  /** An accept ends only its own chain, a drop is final: the other tables' chains at the
      same hook see every packet not dropped before them. */
  predicate Accepted(tables: seq<Table>, p: Packet) {
    tables == [] || (ChainAccepts(tables[0].forward, p) && Accepted(tables[1..], p))
  }

  /** A NAT chain: the first rule that applies rewrites the destination. */
  function ChainTranslates(rules: seq<Rule>, p: Packet): Packet {
    if rules == [] then p
    else if Applies(rules[0], p) && rules[0].action.Dnat? then
      p.(dst := rules[0].action.to, dport := rules[0].action.port)
    else ChainTranslates(rules[1..], p)
  }

  datatype Hook = Prerouting | Output

  function NatChain(t: Table, hook: Hook): seq<Rule> {
    if hook == Prerouting then t.prerouting else t.output
  }

  /** Every table sees the packet as the tables before it left it. */
  function Translated(tables: seq<Table>, hook: Hook, p: Packet): Packet {
    if tables == [] then p else Translated(tables[1..], hook, ChainTranslates(NatChain(tables[0], hook), p))
  }

  /** How many tables change the packet on its way. */
  function Rewrites(tables: seq<Table>, hook: Hook, p: Packet): nat {
    if tables == [] then 0
    else
      var q := ChainTranslates(NatChain(tables[0], hook), p);
      (if q == p then 0 else 1) + Rewrites(tables[1..], hook, q)
  }

  // The rules of one VM's table.

  /** A running VM as its table was built: the host's default external interface then, and
      its published ports. */
  datatype Vm = Vm(id: VmId, host: string, bindings: seq<PortBinding>)

  datatype PortForward =
    PortForward(external: u16, guestIp: Ipv4, internal: u16, exclusion: Ipv4, exclusionPrefix: Prefix)

  datatype ForwardRule =
    | AllowVmEgress
    | AllowEstablishedToVm
    | AllowEstablishedFromPeer
    | AllowPublishedTcp(forward: PortForward)
    | DropUnmatchedToVm

  datatype FirewallPlan = FirewallPlan(portForwards: seq<PortForward>, forwardRules: seq<ForwardRule>)

  function Forward(spec: NetworkSpec, b: PortBinding): PortForward {
    PortForward(b.external, spec.guestIp, b.internal, POOL, POOL_PREFIX)
  }

  function Plan(spec: NetworkSpec, bindings: seq<PortBinding>): FirewallPlan {
    var forwards := seq(|bindings|, i requires 0 <= i < |bindings| => Forward(spec, bindings[i]));
    FirewallPlan(forwards,
                 [AllowVmEgress, AllowEstablishedToVm, AllowEstablishedFromPeer]
                 + seq(|forwards|, i requires 0 <= i < |forwards| => AllowPublishedTcp(forwards[i]))
                 + [DropUnmatchedToVm])
  }

  function DnatRule(hook: Hook, host: string, f: PortForward): Rule {
    var inbound := if hook == Prerouting then [Iif(host)] else [];
    Rule(inbound + [DaddrNot(f.exclusion, f.exclusionPrefix), TcpDport(f.external)], Dnat(f.guestIp, f.internal))
  }

  function FilterRule(spec: NetworkSpec, host: string, r: ForwardRule): Rule {
    match r
    case AllowVmEgress => Rule([Iif(spec.tap), Oif(host)], Accept)
    case AllowEstablishedToVm => Rule([Iif(host), Oif(spec.tap), Ct({Established, Related})], Accept)
    case AllowEstablishedFromPeer => Rule([Saddr(POOL, POOL_PREFIX), Oif(spec.tap), Ct({Established, Related})], Accept)
    case AllowPublishedTcp(f) => Rule([Oif(spec.tap), Daddr(f.guestIp, 32), TcpDport(f.internal)], Accept)
    case DropUnmatchedToVm => Rule([Oif(spec.tap)], Drop)
  }

  /** `install_rules`: the transaction, rule by rule. */
  method InstallRules(spec: NetworkSpec, host: string, name: string, bindings: seq<PortBinding>) returns (t: Table)
    ensures |t.prerouting| == |t.output| == |bindings| && |t.forward| == |bindings| + 4
    ensures forall i :: 0 <= i < |bindings| ==>
              && t.prerouting[i] == DnatRule(Prerouting, host, Forward(spec, bindings[i]))
              && t.output[i] == DnatRule(Output, host, Forward(spec, bindings[i]))
              && t.forward[3 + i] == FilterRule(spec, host, AllowPublishedTcp(Forward(spec, bindings[i])))
    ensures t.forward[0] == FilterRule(spec, host, AllowVmEgress)
    ensures t.forward[1] == FilterRule(spec, host, AllowEstablishedToVm)
    ensures t.forward[2] == FilterRule(spec, host, AllowEstablishedFromPeer)
    ensures t.forward[3 + |bindings|] == FilterRule(spec, host, DropUnmatchedToVm)
    ensures t.name == name && t.postrouting == [Rule([Saddr(spec.subnet, 30), Oif(host)], Masquerade)]
  {
    hide DnatRule, FilterRule, Forward;
    t := Table(name, [], [], [], [Rule([Saddr(spec.subnet, 30), Oif(host)], Masquerade)]);
    var plan := Plan(spec, bindings);
    for i := 0 to |plan.portForwards|
      invariant |t.prerouting| == |t.output| == i && t.forward == []
      invariant t.name == name && t.postrouting == [Rule([Saddr(spec.subnet, 30), Oif(host)], Masquerade)]
      invariant forall j :: 0 <= j < i ==> t.prerouting[j] == DnatRule(Prerouting, host, plan.portForwards[j])
      invariant forall j :: 0 <= j < i ==> t.output[j] == DnatRule(Output, host, plan.portForwards[j])
    {
      t := t.(prerouting := t.prerouting + [DnatRule(Prerouting, host, plan.portForwards[i])],
              output := t.output + [DnatRule(Output, host, plan.portForwards[i])]);
    }
    ghost var translating := t;
    for i := 0 to |plan.forwardRules|
      invariant t == translating.(forward := t.forward) && |t.forward| == i
      invariant forall j :: 0 <= j < i ==> t.forward[j] == FilterRule(spec, host, plan.forwardRules[j])
    {
      t := t.(forward := t.forward + [FilterRule(spec, host, plan.forwardRules[i])]);
    }
  }

  /** The same table as a value. */
  function TableOf(v: Vm): Table {
    var spec := Spec(v.id);
    var plan := Plan(spec, v.bindings);
    Table(
      "fc_vm_" + Digits(v.id),
      seq(|v.bindings|, i requires 0 <= i < |v.bindings| => DnatRule(Prerouting, v.host, plan.portForwards[i])),
      seq(|v.bindings|, i requires 0 <= i < |v.bindings| => DnatRule(Output, v.host, plan.portForwards[i])),
      seq(|plan.forwardRules|,
          i requires 0 <= i < |plan.forwardRules| => FilterRule(spec, v.host, plan.forwardRules[i])),
      [Rule([Saddr(spec.subnet, 30), Oif(v.host)], Masquerade)])
  }

  function Tables(vms: seq<Vm>): seq<Table> {
    seq(|vms|, i requires 0 <= i < |vms| => TableOf(vms[i]))
  }

  method InstallFor(v: Vm) returns (t: Table)
    ensures t == TableOf(v)
  {
    t := InstallRules(Spec(v.id), v.host, "fc_vm_" + Digits(v.id), v.bindings);
    assert t.forward == TableOf(v).forward;
  }

  /** No two VMs share a table. */
  lemma {:induction false} TablesApart(v: Vm, u: Vm)
    ensures TableOf(v).name == "fc_vm_" + Digits(v.id)
    ensures v.id != u.id ==> TableOf(v).name != TableOf(u).name
  {
    if TableOf(v).name == TableOf(u).name {
      assert TableOf(v).name[6..] == Digits(v.id) && TableOf(u).name[6..] == Digits(u.id);
      DigitsInjective(v.id, u.id);
    }
  }

  // What the forward chains decide together.

  /** What may leave on a VM's TAP. The first case needs the host's external interface to be
      that very TAP. */
  ghost predicate Permitted(v: Vm, p: Packet) {
    || (p.iif == p.oif == v.host)
    || (p.ct in {Established, Related} && (p.iif == v.host || InPool(p.src)))
    || (p.tcp && p.dst == Spec(v.id).guestIp && exists b :: b in v.bindings && b.internal == p.dport)
  }

  lemma {:induction false} ValueInjective(x: Ipv4, y: Ipv4)
    requires x.Value() == y.Value()
    ensures x == y
  {
    assert x.a == y.a;
    assert x.b == y.b;
    assert x.c == y.c;
  }

  lemma {:induction false} SameAddress(x: Ipv4, y: Ipv4)
    ensures SamePrefix(x.Value(), y.Value(), 32) <==> x == y
  {
    hide Ipv4.Value, Span;
    SpanIs();
    if x.Value() == y.Value() {
      ValueInjective(x, y);
    }
  }

  /** When each kind of forward rule applies. */
  lemma {:induction false} FilterApplies(v: Vm, r: ForwardRule, p: Packet)
    requires r.AllowPublishedTcp? ==> r.forward.guestIp == Spec(v.id).guestIp
    ensures Applies(FilterRule(Spec(v.id), v.host, r), p) <==>
              match r
              case AllowVmEgress => p.iif == Spec(v.id).tap && p.oif == v.host
              case AllowEstablishedToVm => p.iif == v.host && p.oif == Spec(v.id).tap && p.ct in {Established, Related}
              case AllowEstablishedFromPeer =>
                InPool(p.src) && p.oif == Spec(v.id).tap && p.ct in {Established, Related}
              case AllowPublishedTcp(f) =>
                p.oif == Spec(v.id).tap && p.dst == Spec(v.id).guestIp && p.tcp && p.dport == f.internal
              case DropUnmatchedToVm => p.oif == Spec(v.id).tap
  {
    hide Spec, SamePrefix, Span, Ipv4.Value;
    SameAddress(p.dst, Spec(v.id).guestIp);
    MatchesAre(FilterRule(Spec(v.id), v.host, r), p);
  }

  lemma {:induction false} MatchesAre(r: Rule, p: Packet)
    requires 1 <= |r.matches| <= 3
    ensures Applies(r, p) <==>
              && Meets(r.matches[0], p)
              && (|r.matches| > 1 ==> Meets(r.matches[1], p))
              && (|r.matches| > 2 ==> Meets(r.matches[2], p))
  {
  }

  lemma {:induction false} ChainStep(rules: seq<Rule>, k: nat, p: Packet)
    requires k < |rules|
    ensures ChainAccepts(rules[k..], p) <==>
              if Applies(rules[k], p) && rules[k].action in {Accept, Drop} then rules[k].action == Accept
              else ChainAccepts(rules[k + 1..], p)
  {
  }

  ghost predicate PublishedFrom(v: Vm, k: nat, p: Packet) {
    p.tcp && p.dst == Spec(v.id).guestIp && exists j :: k <= j < |v.bindings| && v.bindings[j].internal == p.dport
  }

  lemma {:induction false} PublishedAccepts(v: Vm, k: nat, p: Packet)
    requires k <= |v.bindings|
    ensures ChainAccepts(TableOf(v).forward[3 + k..], p) <==> (p.oif == Spec(v.id).tap ==> PublishedFrom(v, k, p))
    decreases |v.bindings| - k
  {
    hide Applies, Spec;
    var chain := TableOf(v).forward;
    ChainStep(chain, 3 + k, p);
    if k < |v.bindings| {
      FilterApplies(v, AllowPublishedTcp(Forward(Spec(v.id), v.bindings[k])), p);
      PublishedAccepts(v, k + 1, p);
    } else {
      FilterApplies(v, DropUnmatchedToVm, p);
      assert chain[3 + k + 1..] == [];
    }
  }

  /** One table drops exactly what leaves on its own TAP without permission. */
  lemma {:induction false} TableAccepts(v: Vm, p: Packet)
    ensures ChainAccepts(TableOf(v).forward, p) <==> (p.oif == Spec(v.id).tap ==> Permitted(v, p))
  {
    hide Applies, Spec, ChainAccepts;
    var chain := TableOf(v).forward;
    assert chain[0..] == chain;
    ChainStep(chain, 0, p);
    ChainStep(chain, 1, p);
    ChainStep(chain, 2, p);
    FilterApplies(v, AllowVmEgress, p);
    FilterApplies(v, AllowEstablishedToVm, p);
    FilterApplies(v, AllowEstablishedFromPeer, p);
    PublishedAccepts(v, 0, p);
  }

  /** All tables together accept a packet exactly when each VM whose TAP it leaves on
      permits it. */
  lemma {:induction false} TablesAccept(vms: seq<Vm>, p: Packet)
    ensures Accepted(Tables(vms), p) <==> forall v :: v in vms && p.oif == Spec(v.id).tap ==> Permitted(v, p)
  {
    hide Permitted, Spec, ChainAccepts, TableOf;
    if vms != [] {
      TableAccepts(vms[0], p);
      TablesAccept(vms[1..], p);
      assert Tables(vms)[1..] == Tables(vms[1..]);
      assert vms == [vms[0]] + vms[1..];
    }
  }

  ghost predicate OneTableEach(vms: seq<Vm>) {
    forall i, j :: 0 <= i < j < |vms| ==> vms[i].id != vms[j].id
  }

  /** The tables of other VMs never matter for what leaves on a VM's TAP, whatever their
      number, their order and their bindings. */
  lemma {:induction false} VerdictIsItsOwn(vms: seq<Vm>, k: nat, p: Packet)
    requires OneTableEach(vms) && k < |vms| && p.oif == Spec(vms[k].id).tap
    ensures Accepted(Tables(vms), p) <==> Permitted(vms[k], p)
  {
    TablesAccept(vms, p);
    forall v | v in vms && p.oif == Spec(v.id).tap
      ensures v == vms[k]
    {
      if v.id != vms[k].id {
        AllocationsApart(v.id, vms[k].id);
      }
    }
  }

  /** Established or related traffic from the VM's host interface or the pool, or TCP to the
      guest's address on a published internal port. */
  ghost predicate Plain(v: Vm, p: Packet) {
    || (p.ct in {Established, Related} && (p.iif == v.host || InPool(p.src)))
    || (p.tcp && p.dst == Spec(v.id).guestIp && exists b :: b in v.bindings && b.internal == p.dport)
  }

  /** The verdict on everything leaving on a VM's TAP is this plain condition exactly when the
      host's external interface is not that TAP itself. */
  lemma {:induction false} VerdictIsPlain(vms: seq<Vm>, k: nat)
    requires OneTableEach(vms) && k < |vms|
    ensures (forall p: Packet :: p.oif == Spec(vms[k].id).tap ==> (Accepted(Tables(vms), p) <==> Plain(vms[k], p))) <==>
              vms[k].host != Spec(vms[k].id).tap
  {
    hide Accepted, Tables, Spec, OneTableEach, InPool;
    var tap, guest := Spec(vms[k].id).tap, Spec(vms[k].id).guestIp;
    forall p: Packet | p.oif == tap
      ensures Accepted(Tables(vms), p) <==> Permitted(vms[k], p)
    {
      VerdictIsItsOwn(vms, k, p);
    }
    var back := Packet(tap, tap, guest, guest, false, 0, New);
    assert !Plain(vms[k], back);
    assert vms[k].host == tap ==> Permitted(vms[k], back);
  }

  /** Such a host, with one VM that publishes nothing: a new packet from the VM's TAP is let
      back out of it. */
  lemma {:induction false} OwnTapIsLetOut()
    ensures var v := Vm(0, Spec(0).tap, []);
            var p := Packet(v.host, v.host, Spec(0).guestIp, Spec(0).guestIp, false, 0, New);
            p.oif == Spec(v.id).tap && Accepted(Tables([v]), p) && !Plain(v, p)
  {
    hide Accepted, Tables, Spec, InPool;
    var v := Vm(0, Spec(0).tap, []);
    VerdictIsItsOwn([v], 0, Packet(v.host, v.host, Spec(0).guestIp, Spec(0).guestIp, false, 0, New));
  }

  // What the NAT chains do together.

  /** A binding takes a packet: for `Prerouting` one arriving on the host's interface. */
  ghost predicate Takes(v: Vm, j: nat, hook: Hook, p: Packet)
    requires j < |v.bindings|
  {
    (hook == Prerouting ==> p.iif == v.host) && !InPool(p.dst) && p.tcp && p.dport == v.bindings[j].external
  }

  function Redirected(v: Vm, j: nat, p: Packet): Packet
    requires j < |v.bindings|
  {
    p.(dst := Spec(v.id).guestIp, dport := v.bindings[j].internal)
  }

  /** The first binding, table by table, that takes the packet. */
  ghost predicate IsFirst(vms: seq<Vm>, i: nat, j: nat, hook: Hook, p: Packet) {
    && i < |vms| && j < |vms[i].bindings| && Takes(vms[i], j, hook, p)
    && (forall h: nat :: h < j ==> !Takes(vms[i], h, hook, p))
    && (forall g: nat :: g < i ==> NoneTakes(vms[g], hook, p))
  }

  ghost predicate NoneTakes(v: Vm, hook: Hook, p: Packet) {
    forall h: nat :: h < |v.bindings| ==> !Takes(v, h, hook, p)
  }

  /** The first binding from the `k`-th on that takes the packet. */
  ghost function FirstTaker(v: Vm, k: nat, hook: Hook, p: Packet): (j: Option<nat>)
    requires k <= |v.bindings|
    ensures j.None? ==> forall h: nat :: k <= h < |v.bindings| ==> !Takes(v, h, hook, p)
    ensures j.Some? ==> k <= j.value < |v.bindings| && Takes(v, j.value, hook, p)
    ensures j.Some? ==> forall h: nat :: k <= h < j.value ==> !Takes(v, h, hook, p)
    decreases |v.bindings| - k
  {
    if k == |v.bindings| then None
    else if Takes(v, k, hook, p) then Some(k)
    else FirstTaker(v, k + 1, hook, p)
  }

  lemma {:induction false} ChainFrom(v: Vm, k: nat, hook: Hook, p: Packet)
    requires k <= |v.bindings|
    ensures ChainTranslates(NatChain(TableOf(v), hook)[k..], p) ==
              match FirstTaker(v, k, hook, p)
              case None => p
              case Some(j) => Redirected(v, j, p)
    decreases |v.bindings| - k
  {
    hide Applies, Takes, Spec, InPool, TableOf, NatChain;
    var chain := NatChain(TableOf(v), hook);
    NatChainIs(v, hook);
    if k < |v.bindings| {
      assert chain[k..][1..] == chain[k + 1..];
      DnatApplies(v, k, hook, p);
      ChainFrom(v, k + 1, hook, p);
    } else {
      assert chain[k..] == [];
    }
  }

  lemma {:induction false} NatChainIs(v: Vm, hook: Hook)
    ensures var chain := NatChain(TableOf(v), hook);
            && |chain| == |v.bindings| && chain[0..] == chain
            && forall i :: 0 <= i < |chain| ==> chain[i] == DnatRule(hook, v.host, Forward(Spec(v.id), v.bindings[i]))
  {
  }

  lemma {:induction false} DnatApplies(v: Vm, k: nat, hook: Hook, p: Packet)
    requires k < |v.bindings|
    ensures Applies(DnatRule(hook, v.host, Forward(Spec(v.id), v.bindings[k])), p) <==> Takes(v, k, hook, p)
  {
    hide Spec, SamePrefix;
    MatchesAre(DnatRule(hook, v.host, Forward(Spec(v.id), v.bindings[k])), p);
  }

  /** The first table translates, the others see what it left. */
  lemma {:induction false} TablesTranslate(vms: seq<Vm>, hook: Hook, p: Packet)
    requires vms != []
    ensures var taker := FirstTaker(vms[0], 0, hook, p);
            var q := if taker.None? then p else Redirected(vms[0], taker.value, p);
            && Translated(Tables(vms), hook, p) == Translated(Tables(vms[1..]), hook, q)
            && Rewrites(Tables(vms), hook, p) == (if q == p then 0 else 1) + Rewrites(Tables(vms[1..]), hook, q)
  {
    hide FirstTaker, TableOf, Takes, Redirected, NatChain, ChainTranslates;
    ChainFrom(vms[0], 0, hook, p);
    NatChainIs(vms[0], hook);
    assert Tables(vms)[0] == TableOf(vms[0]) && Tables(vms)[1..] == Tables(vms[1..]);
  }

  /** A binding sends into the pool, and what is bound for the pool no binding takes. */
  lemma {:induction false} PoolIsExcluded(v: Vm, j: nat, hook: Hook, p: Packet)
    requires j < |v.bindings| && Takes(v, j, hook, p)
    ensures var q := Redirected(v, j, p);
            q != p && forall other: Vm, h: nat :: h < |other.bindings| ==> !Takes(other, h, hook, q)
  {
    hide Spec, SamePrefix;
    AllocationInPool(v.id);
  }

  /** No table touches a packet no binding takes. */
  lemma {:induction false} Untouched(vms: seq<Vm>, hook: Hook, p: Packet)
    requires forall v :: v in vms ==> NoneTakes(v, hook, p)
    ensures Translated(Tables(vms), hook, p) == p && Rewrites(Tables(vms), hook, p) == 0
  {
    if vms != [] {
      hide Takes, Translated, Rewrites, Tables;
      assert NoneTakes(vms[0], hook, p);
      TablesTranslate(vms, hook, p);
      Untouched(vms[1..], hook, p);
    }
  }

  /** A packet is rewritten once, by the first binding that takes it: every guest address
      lies in the pool the rules exclude. */
  lemma {:induction false} FirstBindingWins(vms: seq<Vm>, i: nat, j: nat, hook: Hook, p: Packet)
    requires IsFirst(vms, i, j, hook, p)
    ensures Translated(Tables(vms), hook, p) == Redirected(vms[i], j, p)
    ensures Rewrites(Tables(vms), hook, p) == 1
  {
    hide Takes, Translated, Rewrites, Tables, Redirected, FirstTaker;
    TablesTranslate(vms, hook, p);
    PoolIsExcluded(vms[i], j, hook, p);
    if i == 0 {
      Untouched(vms[1..], hook, Redirected(vms[0], j, p));
    } else {
      assert NoneTakes(vms[0], hook, p);
      forall g: nat | g < i - 1
        ensures NoneTakes(vms[1..][g], hook, p)
      {
        assert vms[1..][g] == vms[g + 1];
      }
      FirstBindingWins(vms[1..], i - 1, j, hook, p);
    }
  }

  /** An inbound packet some binding takes is let through on the VM's TAP. */
  lemma {:induction false} PublishedPortIsReachable(vms: seq<Vm>, i: nat, j: nat, p: Packet)
    requires OneTableEach(vms) && IsFirst(vms, i, j, Prerouting, p)
    ensures Accepted(Tables(vms), Translated(Tables(vms), Prerouting, p).(oif := Spec(vms[i].id).tap))
  {
    FirstBindingWins(vms, i, j, Prerouting, p);
    var q := Redirected(vms[i], j, p).(oif := Spec(vms[i].id).tap);
    assert vms[i].bindings[j] in vms[i].bindings;
    VerdictIsItsOwn(vms, i, q);
  }
}
