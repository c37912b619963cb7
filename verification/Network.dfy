/** The network allocation of a VM: a /30 of the VM pool, and names derived from its id. */
module Network {
  import opened Optional
  import opened VmIds

  type u8 = n: nat | n < 0x100
  type u16 = n: nat | n < 0x1_0000
  type u32 = n: nat | n < 0x1_0000_0000

  /** A port of the guest published on a port of the host. */
  datatype PortBinding = PortBinding(internal: u16, external: u16)

  datatype Ipv4 = Ipv4(a: u8, b: u8, c: u8, d: u8) {
    function Value(): u32 {
      ((a * 0x100 + b) * 0x100 + c) * 0x100 + d
    }
  }

  const POOL: Ipv4 := Ipv4(172, 16, 0, 0)
  const POOL_PREFIX: nat := 16

  /** How many addresses share a prefix of this length. */
  function Span(prefix: nat): (s: nat)
    requires prefix <= 32
    ensures s > 0
    decreases 32 - prefix
  {
    if prefix == 32 then 1 else 2 * Span(prefix + 1)
  }

  /** Two addresses agree in the first `prefix` bits. */
  predicate SamePrefix(x: u32, y: u32, prefix: nat)
    requires prefix <= 32
  {
    x / Span(prefix) == y / Span(prefix)
  }

  predicate InPool(x: Ipv4) {
    SamePrefix(x.Value(), POOL.Value(), POOL_PREFIX)
  }

  datatype NetworkSpec = NetworkSpec(id: VmId, tap: string, subnet: Ipv4, hostIp: Ipv4, guestIp: Ipv4, guestMac: string)

  predicate ValidInterfaceName(name: string) {
    0 < |name| <= 15 && forall c :: c in name ==> '0' <= c <= '9' || 'a' <= c <= 'z' || 'A' <= c <= 'Z' || c in "_.-"
  }

  function TapName(id: VmId): string {
    "fc-tap" + Digits(id)
  }

  function HexDigit(n: nat): char
    requires n < 16
  {
    if n < 10 then '0' + n as char else 'a' + (n - 10) as char
  }

  function Hex(n: u8): string {
    [HexDigit(n / 16), HexDigit(n % 16)]
  }

  /** The products and sums are taken in u16 and u8, where they must not overflow. */
  function NewSpec(id: VmId): (r: Option<NetworkSpec>) {
    var offset: u16 := id * 4;
    var third: u8, fourth: u8 := offset / 0x100, offset % 0x100;
    LastOctetFits(id);
    var guest: u8 := fourth + 2;
    var host: u8 := fourth + 1;
    if !ValidInterfaceName(TapName(id)) then None
    else Some(NetworkSpec(id, TapName(id), Ipv4(172, 16, third, fourth), Ipv4(172, 16, third, host),
                          Ipv4(172, 16, third, guest), "06:00:ac:10:" + Hex(third) + ":" + Hex(guest)))
  }

  /** Neither the offset nor the octets made of it overflow. */
  lemma {:induction false} LastOctetFits(id: VmId)
    ensures id * 4 < 0x1_0000 && id * 4 / 0x100 < 0x100 && id * 4 % 0x100 + 2 < 0x100
  {
    assert id * 4 % 0x100 == id % 64 * 4;
  }

  /** The allocation never fails. */
  lemma {:induction false} NameIsValid(id: VmId)
    ensures ValidInterfaceName(TapName(id)) && NewSpec(id).Some?
    ensures 7 <= |TapName(id)| <= 11 && forall c :: c in TapName(id) ==> c in "fc-tap" || '0' <= c <= '9'
  {
    FewDigits(id, 5);
  }

  function Spec(id: VmId): (s: NetworkSpec) {
    NameIsValid(id);
    NewSpec(id).value
  }

  /** Every address of a VM lies in its /30, and that in the pool, of which the last
      allocation takes the end. */
  lemma {:induction false} AllocationInPool(id: VmId)
    ensures var s := Spec(id);
            && s.subnet.Value() == POOL.Value() + 4 * id
            && s.hostIp.Value() == s.subnet.Value() + 1 && s.guestIp.Value() == s.subnet.Value() + 2
            && SamePrefix(s.hostIp.Value(), s.subnet.Value(), 30) && SamePrefix(s.guestIp.Value(), s.subnet.Value(), 30)
            && InPool(s.subnet) && InPool(s.hostIp) && InPool(s.guestIp)
  {
    SpanIs();
    SpecIs(id);
    var third, fourth := id * 4 / 0x100, id * 4 % 0x100;
    assert third * 0x100 + fourth == 4 * id;
    assert POOL.Value() == 0xac100000;
    assert (0xac100000 + 4 * id) / 4 == 0x2b040000 + id;
    assert (0xac100000 + 4 * id) / 0x1_0000 == 0xac10;
  }

  lemma {:induction false} SpecIs(id: VmId)
    ensures id * 4 / 0x100 < 0x100 && id * 4 % 0x100 + 2 < 0x100
    ensures Spec(id) ==
              (var third: u8, fourth: u8 := id * 4 / 0x100, id * 4 % 0x100;
               NetworkSpec(id, TapName(id), Ipv4(172, 16, third, fourth), Ipv4(172, 16, third, fourth + 1),
                           Ipv4(172, 16, third, fourth + 2), "06:00:ac:10:" + Hex(third) + ":" + Hex(fourth + 2)))
  {
    LastOctetFits(id);
    NameIsValid(id);
  }

  lemma {:induction false} SpanIs()
    ensures Span(32) == 1 && Span(30) == 4 && Span(16) == 0x1_0000
  {
  }

  /** Different VMs share no TAP name, no address of their subnets and no MAC. */
  lemma {:induction false} AllocationsApart(i: VmId, j: VmId)
    requires i != j
    ensures Spec(i).tap != Spec(j).tap && Spec(i).guestMac != Spec(j).guestMac
    ensures forall x: u32 :: !(SamePrefix(x, Spec(i).subnet.Value(), 30) && SamePrefix(x, Spec(j).subnet.Value(), 30))
    ensures Spec(i).guestIp != Spec(j).guestIp
  {
    hide *;
    AllocationInPool(i);
    AllocationInPool(j);
    SpecIs(i);
    SpecIs(j);
    TapsApart(i, j);
    MacsApart(i, j);
    forall x: u32 | SamePrefix(x, Spec(i).subnet.Value(), 30) && SamePrefix(x, Spec(j).subnet.Value(), 30)
      ensures false
    {
      SubnetsApart(x, i, j);
    }
  }

  lemma {:induction false} SubnetsApart(x: u32, i: VmId, j: VmId)
    requires SamePrefix(x, Spec(i).subnet.Value(), 30) && SamePrefix(x, Spec(j).subnet.Value(), 30)
    ensures i == j
  {
    hide Spec;
    AllocationInPool(i);
    AllocationInPool(j);
    SpanIs();
    assert (0xac100000 + 4 * i) / 4 == 0x2b040000 + i;
    assert (0xac100000 + 4 * j) / 4 == 0x2b040000 + j;
  }

  lemma {:induction false} TapsApart(i: VmId, j: VmId)
    requires i != j
    ensures TapName(i) != TapName(j)
  {
    if TapName(i) == TapName(j) {
      assert TapName(i)[6..] == Digits(i) && TapName(j)[6..] == Digits(j);
      DigitsInjective(i, j);
    }
  }

  lemma {:induction false} MacsApart(i: VmId, j: VmId)
    requires i != j
    ensures Spec(i).guestMac != Spec(j).guestMac
  {
    SpecIs(i);
    SpecIs(j);
    hide Spec, NewSpec, TapName;
    var m, n := Spec(i).guestMac, Spec(j).guestMac;
    if m == n {
      assert m[12..14] == Hex(Spec(i).guestIp.c) && m[15..17] == Hex(Spec(i).guestIp.d);
      assert n[12..14] == Hex(Spec(j).guestIp.c) && n[15..17] == Hex(Spec(j).guestIp.d);
      HexInjective(Spec(i).guestIp.c, Spec(j).guestIp.c);
      HexInjective(Spec(i).guestIp.d, Spec(j).guestIp.d);
      AllocationInPool(i);
      AllocationInPool(j);
    }
  }

  lemma {:induction false} HexDigits(n: nat)
    requires n < 16
    ensures HexDigit(n) == "0123456789abcdef"[n]
  {
  }

  lemma {:induction false} HexInjective(m: u8, n: u8)
    requires Hex(m) == Hex(n)
    ensures m == n
  {
    assert Hex(m)[0] == HexDigit(m / 16) && Hex(m)[1] == HexDigit(m % 16);
    assert Hex(n)[0] == HexDigit(n / 16) && Hex(n)[1] == HexDigit(n % 16);
  }

  /** The first and the last allocation. */
  lemma {:induction false} AllocationIsStable()
    ensures Spec(0) == NetworkSpec(0, "fc-tap0", Ipv4(172, 16, 0, 0), Ipv4(172, 16, 0, 1), Ipv4(172, 16, 0, 2),
                                   "06:00:ac:10:00:02")
    ensures Spec(16383) == NetworkSpec(16383, "fc-tap16383", Ipv4(172, 16, 255, 252), Ipv4(172, 16, 255, 253),
                                       Ipv4(172, 16, 255, 254), "06:00:ac:10:ff:fe")
  {
    hide Spec, NewSpec, TapName, Digits, Hex;
    SpecIs(0);
    SpecIs(16383);
    TapNamesAre();
    HexesAre();
    assert "06:00:ac:10:" + "00" + ":" + "02" == "06:00:ac:10:00:02";
    assert "06:00:ac:10:" + "ff" + ":" + "fe" == "06:00:ac:10:ff:fe";
  }

  lemma {:induction false} HexesAre()
    ensures Hex(0) == "00" && Hex(2) == "02" && Hex(255) == "ff" && Hex(254) == "fe"
  {
  }

  lemma {:induction false} TapNamesAre()
    ensures TapName(0) == "fc-tap0" && TapName(16383) == "fc-tap16383"
  {
    DigitsAre();
    hide Digits;
    assert "fc-tap" + "0" == "fc-tap0" && "fc-tap" + "16383" == "fc-tap16383";
  }

  lemma {:induction false} DigitsAre()
    ensures Digits(0) == "0" && Digits(16383) == "16383"
  {
    assert Digits(1) == "1";
    assert Digits(16) == Digits(1) + "6";
    assert Digits(163) == Digits(16) + "3";
    assert Digits(1638) == Digits(163) + "8";
    assert Digits(16383) == Digits(1638) + "3";
  }

  /** `overlaps_vm_pool`: the masks are powers of two, so that masking is rounding down. */
  function OverlapsVmPool(destination: u32, prefix: nat): bool
    requires prefix <= 32
  {
    var routeStart := destination / Span(prefix) * Span(prefix);
    var routeEnd := routeStart + Span(prefix) - 1;
    var poolStart: nat := POOL.Value();
    var poolEnd := poolStart + 0xffff;
    routeStart <= poolEnd && poolStart <= routeEnd
  }

  /** A route is taken to overlap exactly when some address lies in it and in the pool. */
  lemma {:induction false} OverlapsMeans(destination: u32, prefix: nat)
    requires prefix <= 32
    ensures OverlapsVmPool(destination, prefix) <==>
              exists x: u32 :: SamePrefix(x, destination, prefix) && SamePrefix(x, POOL.Value(), POOL_PREFIX)
  {
    SpanIs();
    var span := Span(prefix);
    var start := destination / span * span;
    forall x: u32 | SamePrefix(x, destination, prefix)
      ensures start <= x <= start + span - 1
    {
    }
    if OverlapsVmPool(destination, prefix) {
      var x := if start <= POOL.Value() then POOL.Value() else start;
      assert x < 0x1_0000_0000;
      InSpan(x, destination, span);
      assert SamePrefix(x, destination, prefix) && SamePrefix(x, POOL.Value(), POOL_PREFIX);
    }
  }

  lemma {:induction false} InSpan(x: nat, y: nat, span: nat)
    requires span > 0 && y / span * span <= x < y / span * span + span
    ensures x / span == y / span
  {
    var k, q := y / span, x / span;
    assert x == q * span + x % span;
    assert q < k ==> (q + 1) * span <= k * span;
    assert k < q ==> (k + 1) * span <= q * span;
  }
}
