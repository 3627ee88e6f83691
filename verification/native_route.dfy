/** When the native device needs an explicit route, and the texts handed to the operating system
    (device/native_route.go, device/native_linux.go, device/native_windows.go). */
module NativeRoute {
  import opened Sequences
  import opened Cidr
  import opened NetipText

  function ShouldAddNativeRoute(addr: string, subnet: string, readV6: V6Reader): bool {
    match ParsePrefix(addr, readV6)
    case None => true
    case Some(addrPrefix) =>
      match ParsePrefix(subnet, readV6)
      case None => true
      case Some(subnetPrefix) =>
        ParsedIsValid(addr, readV6);
        ParsedIsValid(subnet, readV6);
        Masked(addrPrefix) != Masked(subnetPrefix)
  }

  /** For all texts, the route is left out exactly when both are prefixes of the same set of
      addresses. */
  lemma RouteDecision(addr: string, subnet: string, readV6: V6Reader)
    ensures !ShouldAddNativeRoute(addr, subnet, readV6) <==>
            var a, b := ParsePrefix(addr, readV6), ParsePrefix(subnet, readV6);
            a.Some? && b.Some? && a.value.Valid() && b.value.Valid() && SameCover(a.value, b.value)
  {
    var a, b := ParsePrefix(addr, readV6), ParsePrefix(subnet, readV6);
    if a.Some? && b.Some? {
      ParsedIsValid(addr, readV6);
      ParsedIsValid(subnet, readV6);
      MaskedDecidesCover(a.value, b.value);
    }
  }

  // ---- the Linux configuration commands ----

  datatype Command =
    | LinkUp(dev: string)                     // ip link set dev .. up
    | AddrAdd(addr: string, dev: string)      // ip -4 addr add .. dev ..
    | RouteAdd(subnet: string, dev: string)   // ip -4 route add .. dev ..

  /** A network interface of the kernel. */
  datatype Net = Net(name: string, up: bool, routes: seq<Prefix>)

  /** What a command does to the interface, and whether it succeeds. Adding an address installs the
      route of its masked prefix; a route is refused while the interface is down, and when its text is
      no IPv4 prefix, has host bits or is already there. */
  function Effect(net: Net, cmd: Command, readV6: V6Reader): (bool, Net) {
    if cmd.dev != net.name then (false, net)
    else match cmd
      case LinkUp(_) => (true, net.(up := true))
      case AddrAdd(addr, _) =>
        var p := ParsePrefix(addr, readV6);
        if p.None? || p.value.family != V4 then (false, net)
        else
          ParsedIsValid(addr, readV6);
          (true, net.(routes := net.routes + [Masked(p.value)]))
      case RouteAdd(subnet, _) =>
        var p := ParsePrefix(subnet, readV6);
        if p.None? || p.value.family != V4 then (false, net)
        else
          ParsedIsValid(subnet, readV6);
          if !net.up || Masked(p.value) != p.value || p.value in net.routes then (false, net)
          else (true, net.(routes := net.routes + [p.value]))
  }

  /** The interface as the program changes it. */
  class Interface {
    var net: Net
    const readV6: V6Reader

    constructor (name: string, readV6: V6Reader)
      ensures net == New(name) && this.readV6 == readV6
    {
      this.readV6, net := readV6, New(name);
    }

    method Run(cmd: Command) returns (ok: bool)
      modifies this
      ensures (ok, net) == Effect(old(net), cmd, readV6)
    {
      var result := Effect(net, cmd, readV6);
      ok, net := result.0, result.1;
    }

    /** The commands of `nativeFromCfg`, run one by one until one fails. */
    method Configure(dev: string, addr: string, subnet: string) returns (ok: bool)
      requires net == New(dev)
      modifies this
      ensures (ok, net) == AllRun(New(dev), Commands(dev, addr, subnet, readV6), readV6)
    {
      var cmds := [LinkUp(dev), AddrAdd(addr, dev)];
      if ShouldAddNativeRoute(addr, subnet, readV6) {
        cmds := cmds + [RouteAdd(subnet, dev)];
      }
      ok := true;
      for i := 0 to |cmds|
        invariant ok && AllRun(New(dev), cmds[..i], readV6) == (true, net)
      {
        AllRunMore(New(dev), cmds, i, readV6);
        ok := Run(cmds[i]);
        if !ok {
          AllRunFails(New(dev), cmds, i + 1, readV6);
          return;
        }
      }
      assert cmds[..|cmds|] == cmds;
    }
  }

  function New(name: string): Net { Net(name, false, []) }

  /** Running commands until one fails. */
  function AllRun(net: Net, cmds: seq<Command>, readV6: V6Reader): (bool, Net) {
    if cmds == [] then (true, net)
    else
      var before := AllRun(net, cmds[..|cmds| - 1], readV6);
      if before.0 then Effect(before.1, cmds[|cmds| - 1], readV6) else before
  }

  lemma AllRunMore(net: Net, cmds: seq<Command>, i: nat, readV6: V6Reader)
    requires i < |cmds|
    ensures var before := AllRun(net, cmds[..i], readV6);
            AllRun(net, cmds[..i + 1], readV6) ==
            if before.0 then Effect(before.1, cmds[i], readV6) else before
  {
    assert cmds[..i + 1][..i] == cmds[..i];
  }

  lemma {:induction false} AllRunFails(net: Net, cmds: seq<Command>, i: nat, readV6: V6Reader)
    requires i <= |cmds| && !AllRun(net, cmds[..i], readV6).0
    ensures AllRun(net, cmds, readV6) == AllRun(net, cmds[..i], readV6)
    decreases |cmds| - i
  {
    if i < |cmds| {
      AllRunMore(net, cmds, i, readV6);
      AllRunFails(net, cmds, i + 1, readV6);
    } else {
      assert cmds[..i] == cmds;
    }
  }

  predicate Distinct(routes: seq<Prefix>) {
    forall j, k :: 0 <= j < k < |routes| ==> routes[j] != routes[k]
  }

  /** Some route of the interface covers the address. */
  predicate RoutedTo(routes: seq<Prefix>, x: nat) {
    exists k :: 0 <= k < |routes| && routes[k].Valid() && Covers(routes[k], V4, x)
  }

  /** The commands of `nativeFromCfg`. */
  function Commands(dev: string, addr: string, subnet: string, readV6: V6Reader): seq<Command> {
    [LinkUp(dev), AddrAdd(addr, dev)] +
    if ShouldAddNativeRoute(addr, subnet, readV6) then [RouteAdd(subnet, dev)] else []
  }

  lemma CommandsResult(dev: string, addr: string, subnet: string, readV6: V6Reader)
    ensures var cmds := Commands(dev, addr, subnet, readV6);
            var afterAddr := Effect(Net(dev, true, []), AddrAdd(addr, dev), readV6);
            AllRun(New(dev), cmds, readV6) ==
            if afterAddr.0 && ShouldAddNativeRoute(addr, subnet, readV6)
            then Effect(afterAddr.1, RouteAdd(subnet, dev), readV6) else afterAddr
  {
    var net, cmds := New(dev), Commands(dev, addr, subnet, readV6);
    assert cmds[..0] == [];
    AllRunMore(net, cmds, 0, readV6);
    AllRunMore(net, cmds, 1, readV6);
    if |cmds| == 3 { AllRunMore(net, cmds, 2, readV6); }
    assert cmds[..|cmds|] == cmds;
  }

  /** For two IPv4 prefixes the commands succeed exactly when the subnet has no host bits or needs
      no route of its own; then the interface is up, no route is installed twice and exactly the
      addresses of the two prefixes are routed. */
  lemma ConfigureMeaning(dev: string, addr: string, subnet: string, readV6: V6Reader)
    requires var a, b := ParsePrefix(addr, readV6), ParsePrefix(subnet, readV6);
             a.Some? && b.Some? && a.value.family == V4 && b.value.family == V4
    ensures var a, b := ParsePrefix(addr, readV6).value, ParsePrefix(subnet, readV6).value;
            var (ok, net) := AllRun(New(dev), Commands(dev, addr, subnet, readV6), readV6);
            && a.Valid() && b.Valid()
            && (ok <==> Masked(b) == b || SameCover(a, b))
            && (ok ==> net.up && Distinct(net.routes) &&
                       forall x: nat :: RoutedTo(net.routes, x) <==> Covers(a, V4, x) || Covers(b, V4, x))
  {
    CommandsResult(dev, addr, subnet, readV6);
    ParsedIsValid(addr, readV6);
    ParsedIsValid(subnet, readV6);
    var a, b := ParsePrefix(addr, readV6).value, ParsePrefix(subnet, readV6).value;
    MaskedDecidesCover(a, b);
    var (ok, net) := AllRun(New(dev), Commands(dev, addr, subnet, readV6), readV6);
    if ok { RoutesCover(a, b, net.routes); }
  }

  lemma RoutesCover(a: Prefix, b: Prefix, routes: seq<Prefix>)
    requires a.Valid() && b.Valid() && a.family == V4 && b.family == V4
    requires if Masked(a) == Masked(b) then routes == [Masked(a)] else Masked(b) == b && routes == [Masked(a), b]
    ensures forall x: nat :: RoutedTo(routes, x) <==> Covers(a, V4, x) || Covers(b, V4, x)
  {
    MaskedKeepsCover(a);
    MaskedDecidesCover(a, b);
    forall x: nat ensures RoutedTo(routes, x) <==> Covers(a, V4, x) || Covers(b, V4, x) {
      assert Covers(a, V4, x) <==> Covers(Masked(a), V4, x);
      assert routes[0] == Masked(a);
      if Masked(a) != Masked(b) { assert routes[1] == b; }
      else { assert Covers(a, V4, x) <==> Covers(b, V4, x); }
    }
  }

  lemma ConfigureBlocks(dev: string, addr: string, subnet: string, a: Prefix, b: Prefix, readV6: V6Reader)
    requires ParsePrefix(addr, readV6) == Some(a) && ParsePrefix(subnet, readV6) == Some(b)
    requires a.Valid() && b.Valid() && a.family == V4 && b.family == V4
    ensures AllRun(New(dev), Commands(dev, addr, subnet, readV6), readV6).0 <==>
            b.addr % Block(b) == 0 ||
            (a.bits == b.bits && a.addr - a.addr % Block(a) == b.addr - b.addr % Block(b))
  {
    MaskedNumber(a);
    MaskedNumber(b);
    MaskedDecidesCover(a, b);
    ConfigureMeaning(dev, addr, subnet, readV6);
  }

  lemma QuadByBytes(a: nat)
    ensures PrintQuad(a) ==
            Decimal(a / 0x100_0000 % 256) + ['.'] + Decimal(a / 0x1_0000 % 256) + ['.'] +
            Decimal(a / 0x100 % 256) + ['.'] + Decimal(a % 256)
  {
    var f1, f2 := a / 256 / 256 / 256, a / 256 / 256;
    assert f2 == a / 0x1_0000 && f1 == a / 0x100_0000;
    assert Fields(1, f1) == Decimal(f1 % 256) + ['.'];
    assert Fields(2, f2) == Fields(1, f1) + Decimal(f2 % 256) + ['.'];
    assert Fields(3, a / 256) == Fields(2, f2) + Decimal(a / 256 % 256) + ['.'];
  }

  /** The bytes of a 32-bit word. */
  lemma BytesOf(a: nat, b3: nat, b2: nat, b1: nat, b0: nat)
    requires b3 < 256 && b2 < 256 && b1 < 256 && b0 < 256
    requires a == b3 * 0x100_0000 + b2 * 0x1_0000 + b1 * 0x100 + b0
    ensures a / 0x100_0000 % 256 == b3 && a / 0x1_0000 % 256 == b2 && a / 0x100 % 256 == b1 && a % 256 == b0
  {
    var y := b3 * 256 + b2;
    var x := y * 256 + b1;
    QuotientIs(a, x, b0, 256);
    QuotientIs(x, y, b1, 256);
    QuotientIs(y, b3, b2, 256);
    QuotientIs(a, y, b1 * 256 + b0, 0x1_0000);
    QuotientIs(a, b3, b2 * 0x1_0000 + b1 * 256 + b0, 0x100_0000);
  }

  lemma BytesText(a: nat, b3: nat, b2: nat, b1: nat, b0: nat)
    requires b3 < 256 && b2 < 256 && b1 < 256 && b0 < 256
    requires a == b3 * 0x100_0000 + b2 * 0x1_0000 + b1 * 0x100 + b0
    ensures PrintQuad(a) == Decimal(b3) + ['.'] + Decimal(b2) + ['.'] + Decimal(b1) + ['.'] + Decimal(b0)
  {
    QuadByBytes(a);
    BytesOf(a, b3, b2, b1, b0);
  }

  lemma ShortText(a: nat, n: nat, p: nat)
    requires n < 10 && p < 10 && a == n * 0x101_0101
    ensures PrintPrefix(a, p) == [Digit(n), '.', Digit(n), '.', Digit(n), '.', Digit(n), '/', Digit(p)]
  {
    BytesText(a, n, n, n, n);
    DecimalDigits(n);
    DecimalDigits(p);
  }

  lemma ShortPrefix(a: Prefix, n: nat, readV6: V6Reader)
    requires n < 10 && a == Prefix(V4, n * 0x101_0101, 8)
    ensures a.Valid() && ParsePrefix(PrintPrefix(a.addr, a.bits), readV6) == Some(a)
    ensures a.addr % Block(a) == n * 0x1_0101
  {
    Pow2Of32();
    assert Pow2(24) == 0x100_0000 by { Pow2Sum(16, 8); Pow2Sum(8, 8); assert Pow2(8) == 256; }
    PrefixRoundTrip(a.addr, a.bits, readV6);
    QuotientIs(a.addr, n, n * 0x1_0101, 0x100_0000);
  }

  /** A subnet written with host bits, next to an address outside of it: the configuration fails. */
  lemma HostBitsFail(dev: string, addr: string, subnet: string, readV6: V6Reader)
    requires addr == "1.1.1.1/8" && subnet == "2.2.2.2/8"
    ensures !AllRun(New(dev), Commands(dev, addr, subnet, readV6), readV6).0
  {
    var a, b := Prefix(V4, 0x101_0101, 8), Prefix(V4, 0x202_0202, 8);
    ShortText(a.addr, 1, a.bits);
    ShortText(b.addr, 2, b.bits);
    assert PrintPrefix(a.addr, a.bits) == addr && PrintPrefix(b.addr, b.bits) == subnet;
    ShortPrefix(a, 1, readV6);
    ShortPrefix(b, 2, readV6);
    ConfigureBlocks(dev, addr, subnet, a, b, readV6);
  }

  // ---- the Windows mask ----

  function CidrPrefixToMask(prefix: int): string {
    if prefix <= 0 then "0.0.0.0"
    else if prefix >= 32 then "255.255.255.255"
    else
      var mask := (0xFFFF_FFFF * Pow2(32 - prefix)) % 0x1_0000_0000;
      Decimal(mask / 0x100_0000 % 256) + ['.'] + Decimal(mask / 0x1_0000 % 256) + ['.'] +
      Decimal(mask / 0x100 % 256) + ['.'] + Decimal(mask % 256)
  }

  function Clamp(prefix: int): nat { if prefix <= 0 then 0 else if prefix >= 32 then 32 else prefix }

  lemma Pow2Of32()
    ensures Pow2(32) == 0x1_0000_0000
  {
    assert Pow2(8) == 0x100;
    assert Pow2(16) == 0x1_0000;
    assert Pow2(24) == 0x100_0000;
  }

  /** A 32-bit word of ones shifted left. */
  lemma ShiftedOnes(p: nat)
    requires 0 < p < 32
    ensures (0xFFFF_FFFF * Pow2(32 - p)) % 0x1_0000_0000 == Mask(32, p)
  {
    var m := Pow2(32 - p);
    Pow2Of32();
    Pow2Grows(32 - p, 32);
    assert 0xFFFF_FFFF * m == (m - 1) * 0x1_0000_0000 + (0x1_0000_0000 - m);
    QuotientIs(0xFFFF_FFFF * m, m - 1, 0x1_0000_0000 - m, 0x1_0000_0000);
  }

  lemma ZerosPrinted(a: nat, n: nat)
    requires a == n == 0
    ensures PrintQuad(a) == "0.0.0.0"
  {
    BytesText(a, n, n, n, n);
    DecimalDigits(n);
  }

  lemma LongText(a: nat, n: nat)
    requires 100 <= n < 256 && a == n * 0x101_0101
    ensures var x, y, z := Digit(n / 100), Digit(n / 10 % 10), Digit(n % 10);
            PrintQuad(a) == [x, y, z, '.', x, y, z, '.', x, y, z, '.', x, y, z]
  {
    BytesText(a, n, n, n, n);
    DecimalDigits(n);
  }

  lemma OnesPrinted(a: nat, n: nat)
    requires n == 255 && a == n * 0x101_0101
    ensures PrintQuad(a) == "255.255.255.255"
  {
    LongText(a, n);
  }

  lemma MaskPrinted(prefix: int)
    ensures CidrPrefixToMask(prefix) == PrintQuad(Mask(32, Clamp(prefix)))
  {
    Pow2Of32();
    if 0 < prefix < 32 {
      ShiftedOnes(prefix);
      QuadByBytes(Mask(32, prefix));
    } else if prefix <= 0 {
      ZerosPrinted(Mask(32, 0), 0);
    } else {
      OnesPrinted(Mask(32, 32), 255);
    }
  }

  /** The text is the dotted quad of 2^32 - 2^(32 - p), and it reads back as that number. */
  lemma MaskText(prefix: int)
    ensures Mask(32, Clamp(prefix)) == 0x1_0000_0000 - Pow2(32 - Clamp(prefix))
    ensures ParseQuad(CidrPrefixToMask(prefix)) == Some(Mask(32, Clamp(prefix)))
  {
    Pow2Of32();
    MaskPrinted(prefix);
    ParsePrint(Mask(32, Clamp(prefix)));
  }

  /** Longer prefixes have larger masks, so the text determines the prefix. */
  lemma MaskGrows(p: nat, q: nat)
    requires p < q <= 32
    ensures Mask(32, p) < Mask(32, q) && CidrPrefixToMask(p) != CidrPrefixToMask(q)
  {
    Pow2Grows(32 - q, 32 - p);
    assert Clamp(p) == p && Clamp(q) == q;
    MaskText(p);
    MaskText(q);
  }

  /** `parseIPv4Prefix`: the address text and the prefix length handed to netsh. */
  function ParseIPv4Prefix(value: string, readV6: V6Reader): Option<(string, nat)> {
    match ParsePrefix(value, readV6)
    case None => None
    case Some(p) => if p.family != V4 then None else Some((PrintQuad(p.addr), p.bits))
  }

  /** The texts that Windows accepts are those of IPv4 prefixes, and their length is kept. */
  lemma WindowsAcceptsIPv4(value: string, readV6: V6Reader)
    ensures var p, r := ParsePrefix(value, readV6), ParseIPv4Prefix(value, readV6);
            && (r.Some? <==> p.Some? && p.value.family == V4)
            && (r.Some? ==> r.value.1 == p.value.bits)
  {
  }

  /** The address and mask texts, ANDed, give the network address that the route decision compares. */
  lemma WindowsTextsAgree(value: string, readV6: V6Reader)
    requires ParseIPv4Prefix(value, readV6).Some?
    ensures var (ip, bits) := ParseIPv4Prefix(value, readV6).value;
            var p := ParsePrefix(value, readV6).value;
            var ipRead, maskRead := ParseQuad(ip), ParseQuad(CidrPrefixToMask(bits));
            && p.Valid() && ipRead == Some(p.addr) && maskRead.Some?
            && BitAnd(ipRead.value, maskRead.value, 32) == Masked(p).addr
  {
    var (ip, bits) := ParseIPv4Prefix(value, readV6).value;
    ParsedIsValid(value, readV6);
    ParsePrint(ParsePrefix(value, readV6).value.addr);
    MaskText(bits);
  }
}
