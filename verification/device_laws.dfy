/** The addresses and commands that the configurations of a device come down to. */
module DeviceLaws {
  import opened Sequences
  import opened Cidr
  import opened NetipText
  import opened NetipLaws
  import opened NativeRoute
  import opened RunnerSystem
  import opened DeviceSetup

  /** The text of an address 10.200.1.x; the parameters keep the numbers symbolic. */
  lemma TenText(a: nat, ten: nat, twoHundred: nat, one: nat, x: nat)
    requires ten == 10 && twoHundred == 200 && one == 1 && x < 10
    requires a == ten * 0x100_0000 + twoHundred * 0x1_0000 + one * 0x100 + x
    ensures PrintQuad(a) == "10.200.1." + [Digit(x)]
  {
    BytesText(a, ten, twoHundred, one, x);
    DecimalDigits(ten);
    DecimalDigits(twoHundred);
    DecimalDigits(one);
    DecimalDigits(x);
    assert Decimal(ten) == "10" && Decimal(twoHundred) == "200" && Decimal(one) == "1";
  }

  /** Without a configured address the two kinds of virtual devices have the addresses 10.200.1.3 and
      10.200.1.4. */
  lemma DefaultAddresses(cfg: Cfg, env: Env)
    requires cfg.tunAddr == "" && (cfg.tunType == "vtun+http" || cfg.tunType == "vtun+socks")
    ensures LocalAddr(cfg, env).Some? && LocalAddr(cfg, env).value.family == V4
    ensures PrintQuad(LocalAddr(cfg, env).value.value) ==
            if cfg.tunType == "vtun+http" then "10.200.1.3" else "10.200.1.4"
  {
    var x := if cfg.tunType == "vtun+http" then 3 else 4;
    TenText(LocalAddr(cfg, env).value.value, 10, 200, 1, x);
    assert [Digit(x)] == if cfg.tunType == "vtun+http" then "3" else "4";
  }

  /** A configured IPv4 address is the device's own. */
  lemma ConfiguredAddress(cfg: Cfg, env: Env, a: nat)
    requires a < Pow2(32) && cfg.tunAddr == PrintQuad(a)
    ensures LocalAddr(cfg, env) == Some(Addr(V4, a))
  {
    QuadRead(a, env.readZoned);
    QuadChars(a);
  }

  /** The loopback addresses are those of 127.0.0.0/8. */
  lemma LoopbackIs127(a: Addr)
    requires a.family == V4 && a.value < Pow2(32)
    ensures Loopback(a) <==> Covers(Prefix(V4, 127 * Pow2(24), 8), V4, a.value)
  {
    Pow2Of32();
    assert Pow2(24) == 0x100_0000 by { assert Pow2(8) == 0x100; assert Pow2(16) == 0x1_0000; }
    QuotientIs(127 * Pow2(24), 127, 0, Pow2(24));
  }

  /** Without an HTTP address there is nothing to listen on exactly for IPv6 and 127.0.0.0/8. */
  lemma NothingToListenOnIff(cfg: Cfg, env: Env, a: Addr)
    requires cfg.tunHttpAddr == "" && LocalAddr(cfg, env) == Some(a) && a.value < Pow2(Width(a.family))
    ensures NothingToListenOn(cfg, env) <==>
            a.family == V6 || Covers(Prefix(V4, 127 * Pow2(24), 8), V4, a.value)
    ensures HttpFails(cfg, env) <==>
            !env.listens(if NothingToListenOn(cfg, env) then None else Some(AddrPort(a, 80)))
  {
    if a.family == V4 { LoopbackIs127(a); }
    if !NothingToListenOn(cfg, env) { assert Named(cfg, env, AddrPort(a, 80)); }
  }

  /** With nothing configured the HTTP server listens on port 80 of 10.200.1.3. */
  lemma DefaultHttpAddr(cfg: Cfg, env: Env, a: AddrPort)
    requires cfg.tunType == "vtun+http" && cfg.tunAddr == "" && cfg.tunHttpAddr == ""
    ensures !NothingToListenOn(cfg, env) && !Unreadable(cfg, env)
    ensures Named(cfg, env, a) ==> a.port == 80 && a.addr.family == V4 && PrintQuad(a.addr.value) == "10.200.1.3"
  {
    DefaultAddresses(cfg, env);
  }

  /** A configured IPv4 address is listened on at its port, or at 80 if it has none. */
  lemma ConfiguredHttpAddr(cfg: Cfg, env: Env, a: nat, port: nat, named: AddrPort)
    requires a < Pow2(32) && port < 65536
    requires cfg.tunHttpAddr == PrintQuad(a) || cfg.tunHttpAddr == PrintPort(PrintQuad(a), port)
    ensures !Unreadable(cfg, env) && !NothingToListenOn(cfg, env)
    ensures Named(cfg, env, named) <==>
            named == AddrPort(Addr(V4, a), if cfg.tunHttpAddr == PrintQuad(a) then 80 else port)
    ensures HttpFails(cfg, env) <==>
            !env.listens(Some(AddrPort(Addr(V4, a), if cfg.tunHttpAddr == PrintQuad(a) then 80 else port)))
  {
    var chosen := AddrPort(Addr(V4, a), if cfg.tunHttpAddr == PrintQuad(a) then 80 else port);
    AddrPortRoundTrip(a, port, env.readZoned);
    QuadChars(a);
    assert Named(cfg, env, chosen);
  }

  /** The native device is ready only if each command of its list ran. */
  lemma CommandsRunAll(cfg: Cfg, env: Env, dev: string, addr: string, subnet: string)
    requires addr == if cfg.tunAddr != "" then cfg.tunAddr else "10.200.1.2/24"
    requires subnet == if cfg.tunSubnet != "" then cfg.tunSubnet else "10.200.1.0/24"
    ensures CommandsRun(cfg, env) <==> forall k: nat :: k < |Commands(dev, addr, subnet, env.readV6)| ==> env.runs(k)
  {
    assert RouteWanted(cfg, env) == ShouldAddNativeRoute(addr, subnet, env.readV6);
    EachRuns(env, if RouteWanted(cfg, env) then 3 else 2);
  }

  lemma EachRuns(env: Env, n: nat)
    requires n == 2 || n == 3
    ensures (forall k: nat :: k < n ==> env.runs(k)) <==> env.runs(0) && env.runs(1) && (n == 3 ==> env.runs(2))
  {
    if forall k: nat :: k < n ==> env.runs(k) { assert env.runs(0) && env.runs(1); }
  }

  /** The default address 10.200.1.2/24 covers the default subnet: no route is added for them. */
  lemma DefaultsNeedNoRoute(addr: string, subnet: string, readV6: V6Reader)
    requires addr == "10.200.1.2/24" && subnet == "10.200.1.0/24"
    ensures !ShouldAddNativeRoute(addr, subnet, readV6)
  {
    var a, b := Prefix(V4, 0x0AC8_0102, 24), Prefix(V4, 0x0AC8_0100, 24);
    DefaultText(a, 2, addr);
    DefaultText(b, 0, subnet);
    WithinTen(a, b, readV6);
  }

  lemma WithinTen(a: Prefix, b: Prefix, readV6: V6Reader)
    requires a == Prefix(V4, 0x0AC8_0102, 24) && b == Prefix(V4, 0x0AC8_0100, 24)
    ensures !ShouldAddNativeRoute(PrintPrefix(a.addr, a.bits), PrintPrefix(b.addr, b.bits), readV6)
  {
    TenPrefix(a, 2, readV6);
    TenPrefix(b, 0, readV6);
    SameNetwork(PrintPrefix(a.addr, a.bits), PrintPrefix(b.addr, b.bits), a, b, readV6);
  }

  lemma DefaultText(a: Prefix, x: nat, text: string)
    requires x < 10 && a == Prefix(V4, 0x0AC8_0100 + x, 24) && text == "10.200.1." + [Digit(x)] + "/24"
    ensures PrintPrefix(a.addr, a.bits) == text
  {
    TenText(a.addr, 10, 200, 1, x);
    DecimalDigits(a.bits);
    assert Decimal(a.bits) == "24";
  }

  lemma TenPrefix(a: Prefix, x: nat, readV6: V6Reader)
    requires x < 256 && a == Prefix(V4, 0x0AC8_0100 + x, 24)
    ensures a.Valid() && ParsePrefix(PrintPrefix(a.addr, a.bits), readV6) == Some(a)
    ensures a.addr % Block(a) == x
  {
    Pow2Of32();
    assert Pow2(8) == 256;
    PrefixRoundTrip(a.addr, a.bits, readV6);
    QuotientIs(a.addr, 0xA_C801, x, 256);
  }

  /** Prefixes of one length whose addresses differ in the host bits only need no route. */
  lemma SameNetwork(addr: string, subnet: string, a: Prefix, b: Prefix, readV6: V6Reader)
    requires ParsePrefix(addr, readV6) == Some(a) && ParsePrefix(subnet, readV6) == Some(b)
    requires a.Valid() && b.Valid() && a.family == b.family && a.bits == b.bits
    requires a.addr - a.addr % Block(a) == b.addr - b.addr % Block(b)
    ensures !ShouldAddNativeRoute(addr, subnet, readV6)
  {
    MaskedNumber(a);
    MaskedNumber(b);
  }
}
