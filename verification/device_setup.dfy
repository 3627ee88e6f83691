/** What `TunFromCfg` does with a configuration (device/device.go, device/native_*.go), and which
    failing starts leave the device open. */
module DeviceSetup {
  import opened Sequences
  import opened Cidr
  import opened NetipText
  import opened NativeRoute
  import opened RunnerSystem
  import opened RunnerSafety

  datatype Cfg = Cfg(
    connect: string,
    tunType: string,
    tunName: string,
    tunAddr: string,
    tunSubnet: string,
    tunHttpAddr: string,
    tunSocksAddr: string)

  datatype Platform = Linux | OtherUnix | Windows | Unsupported

  /** The address to listen on; none is the zero `netip.AddrPort`. */
  type ListenAddr = Option<AddrPort>

  /** What the program is told by the libraries and the operating system. `loggerReturns` is whether
      `Panicln` of the logger in use returns; that of Go's own logger panics. */
  datatype Env = Env(
    platform: Platform,
    readV6: V6Reader,
    readZoned: V6Reader,
    builds: (Addr, string) -> bool,
    listens: ListenAddr -> bool,
    listensLocally: string -> bool,
    createsTun: string -> bool,
    indexFound: bool,
    runs: nat -> bool,
    loggerReturns: bool,
    connects: bool)

  const DEFAULT_HTTP_ADDR := Addr(V4, 0x0AC8_0103)
  const DEFAULT_SOCKS_ADDR := Addr(V4, 0x0AC8_0104)

  function Default(text: string, default: string): string { if text != "" then text else default }

  // ---- when a device is built, and when it is ready ----

  /** The only local address of a virtual device. */
  function LocalAddr(cfg: Cfg, env: Env): Option<Addr> {
    if cfg.tunAddr != "" then ParseAddrFrom(cfg.tunAddr, 0, env.readZoned)
    else Some(if cfg.tunType == "vtun+http" then DEFAULT_HTTP_ADDR else DEFAULT_SOCKS_ADDR)
  }

  predicate VTunBuilds(cfg: Cfg, env: Env) {
    LocalAddr(cfg, env).Some? && env.builds(LocalAddr(cfg, env).value, cfg.tunName)
  }

  predicate Loopback(a: Addr) { if a.family == V4 then a.value / 0x100_0000 == 127 else a.value == 1 }

  /** The configured HTTP address is neither an address with a port nor an address. */
  predicate Unreadable(cfg: Cfg, env: Env) {
    && cfg.tunHttpAddr != ""
    && ParseAddrPort(cfg.tunHttpAddr, env.readZoned).None?
    && ParseAddrFrom(cfg.tunHttpAddr, 0, env.readZoned).None?
  }

  /** No HTTP address is configured, and the device's own address cannot serve as one. */
  predicate NothingToListenOn(cfg: Cfg, env: Env) {
    cfg.tunHttpAddr == "" && LocalAddr(cfg, env).Some? &&
    (LocalAddr(cfg, env).value.family == V6 || Loopback(LocalAddr(cfg, env).value))
  }

  /** `a` is the address the configuration names, with port 80 where it names none. */
  predicate Named(cfg: Cfg, env: Env, a: AddrPort) {
    if cfg.tunHttpAddr == "" then LocalAddr(cfg, env) == Some(a.addr) && a.port == 80
    else
      ParseAddrPort(cfg.tunHttpAddr, env.readZoned) == Some(a) ||
      (ParseAddrPort(cfg.tunHttpAddr, env.readZoned).None? && a.port == 80 &&
       ParseAddrFrom(cfg.tunHttpAddr, 0, env.readZoned) == Some(a.addr))
  }

  /** The HTTP server of the device cannot be set up. */
  ghost predicate HttpFails(cfg: Cfg, env: Env) {
    || Unreadable(cfg, env)
    || (NothingToListenOn(cfg, env) && !env.listens(None))
    || (!NothingToListenOn(cfg, env) && exists a :: Named(cfg, env, a) && !env.listens(Some(a)))
  }

  predicate NativeBuilds(cfg: Cfg, env: Env) {
    && env.platform != Unsupported
    && (env.platform == Windows ==> ParseIPv4Prefix(Default(cfg.tunAddr, "10.200.1.2/24"), env.readV6).Some?)
    && env.createsTun(Default(cfg.tunName, "tun0"))
  }

  predicate RouteWanted(cfg: Cfg, env: Env) {
    ShouldAddNativeRoute(Default(cfg.tunAddr, "10.200.1.2/24"), Default(cfg.tunSubnet, "10.200.1.0/24"), env.readV6)
  }

  predicate CommandsRun(cfg: Cfg, env: Env) {
    env.runs(0) && env.runs(1) && (RouteWanted(cfg, env) ==> env.runs(2))
  }

  predicate NativeReady(cfg: Cfg, env: Env) {
    CommandsRun(cfg, env) && (env.platform == Windows && RouteWanted(cfg, env) ==> env.indexFound)
  }

  /** A command failed where the logger's panic comes before the close. */
  predicate NativePanics(cfg: Cfg, env: Env) {
    env.platform != Windows && !env.loggerReturns && !CommandsRun(cfg, env)
  }

  function Kind(cfg: Cfg): TunKind {
    if cfg.tunType == "vtun+http" then VTunHttp
    else if cfg.tunType == "vtun+socks" then VTunSocks
    else Native
  }

  predicate Builds(cfg: Cfg, env: Env) {
    if cfg.tunType == "native" then NativeBuilds(cfg, env)
    else (cfg.tunType == "vtun+http" || cfg.tunType == "vtun+socks") && VTunBuilds(cfg, env)
  }

  ghost predicate IsReady(cfg: Cfg, env: Env)
    requires Builds(cfg, env)
  {
    match Kind(cfg)
    case Native => NativeReady(cfg, env)
    case VTunHttp => !HttpFails(cfg, env)
    case VTunSocks => env.listensLocally(Default(cfg.tunSocksAddr, "127.0.0.1:1080"))
  }

  /** The configurations and environments in which a failing start leaves the device open. */
  ghost predicate LeavesOpen(cfg: Cfg, env: Env) {
    || (cfg.tunType == "vtun+http" && VTunBuilds(cfg, env) && HttpFails(cfg, env))
    || (cfg.tunType == "native" && NativeBuilds(cfg, env) && NativePanics(cfg, env))
  }

  ghost function TunSetup(cfg: Cfg, env: Env): TunOutcome {
    if !Builds(cfg, env) then BuildFails
    else if IsReady(cfg, env) then Ready
    else if cfg.tunType == "native" && NativePanics(cfg, env) then Panics
    else SetupFails(cfg.tunType != "vtun+http")
  }

  // ---- the code ----

  datatype End = Delivered | Error | Panicking

  /** One call of `TunFromCfg`: whether it built a device, closed it, and what it registered. */
  class Builder {
    const cfg: Cfg
    const env: Env
    var built: bool
    var closed: bool
    var registered: seq<seq<Action>>

    constructor (cfg: Cfg, env: Env)
      ensures this.cfg == cfg && this.env == env && !built && !closed && registered == []
    {
      this.cfg, this.env := cfg, env;
      built, closed, registered := false, false, [];
    }

    method VTunFromCfg() returns (local: Option<Addr>)
      requires !built
      modifies `built
      ensures built == local.Some?
      ensures built <==> LocalAddr(cfg, env).Some? && env.builds(LocalAddr(cfg, env).value, cfg.tunName)
      ensures local.Some? ==> local == LocalAddr(cfg, env)
    {
      var laddr := if cfg.tunType == "vtun+http" then DEFAULT_HTTP_ADDR else DEFAULT_SOCKS_ADDR;
      if cfg.tunAddr != "" {
        var parsed := ParseAddrFrom(cfg.tunAddr, 0, env.readZoned);
        if parsed.None? {
          return None;
        }
        laddr := parsed.value;
      }
      if !env.builds(laddr, cfg.tunName) {
        return None;
      }
      built := true;
      return Some(laddr);
    }

    /** Where the HTTP server of the device is to listen; fails for an unreadable text. */
    method HttpAddr(locals: seq<Addr>) returns (ok: bool, httpAddr: ListenAddr)
      requires LocalAddr(cfg, env).Some? && locals == [LocalAddr(cfg, env).value]
      ensures ok == !Unreadable(cfg, env)
      ensures ok && NothingToListenOn(cfg, env) ==> httpAddr == None
      ensures ok && !NothingToListenOn(cfg, env) ==> httpAddr.Some? && Named(cfg, env, httpAddr.value)
    {
      httpAddr := None;
      if cfg.tunHttpAddr != "" {
        httpAddr := ParseAddrPort(cfg.tunHttpAddr, env.readZoned);
        if httpAddr.None? {
          var addr := ParseAddrFrom(cfg.tunHttpAddr, 0, env.readZoned);
          if addr.None? {
            return false, None;
          }
          httpAddr := Some(AddrPort(addr.value, 80));
        }
      } else {
        for i := 0 to |locals|
          invariant httpAddr == None
          invariant i == 1 ==> locals[0].family != V4 || Loopback(locals[0])
        {
          if locals[i].family == V4 && !Loopback(locals[i]) {
            httpAddr := Some(AddrPort(locals[i], 80));
            break;
          }
        }
      }
      return true, httpAddr;
    }

    method VTunHttpFromCfg() returns (ok: bool)
      requires !built
      modifies `built, `registered
      ensures built == VTunBuilds(cfg, env)
      ensures ok <==> built && !HttpFails(cfg, env)
      ensures registered == old(registered) + if ok then [VTunLoop(), VTunCloser()] else []
    {
      var local := VTunFromCfg();
      if local.None? {
        return false;
      }
      var readable, httpAddr := HttpAddr([local.value]);
      if !readable {
        return false;
      }
      if httpAddr.Some? { NamedOnce(cfg, env, httpAddr.value); }
      if !env.listens(httpAddr) {
        return false;
      }
      registered := registered + [VTunLoop(), VTunCloser()];
      return true;
    }

    method VTunSocksFromCfg() returns (ok: bool)
      requires !built && !closed
      modifies this
      ensures built == VTunBuilds(cfg, env)
      ensures ok <==> built && env.listensLocally(Default(cfg.tunSocksAddr, "127.0.0.1:1080"))
      ensures closed <==> built && !ok
      ensures registered == old(registered) + if ok then [SocksCloser(), SocksLoop()] else []
    {
      var local := VTunFromCfg();
      if local.None? {
        return false;
      }
      var addr := "127.0.0.1:1080";
      if cfg.tunSocksAddr != "" {
        addr := cfg.tunSocksAddr;
      }
      if !env.listensLocally(addr) {
        closed := true;
        return false;
      }
      registered := registered + [SocksCloser(), SocksLoop()];
      return true;
    }

    method NativeFromCfg() returns (end: End)
      requires !built && !closed
      modifies `built, `closed
      ensures built <==>
              env.platform != Unsupported && env.createsTun(if cfg.tunName != "" then cfg.tunName else "tun0") &&
              (env.platform == Windows ==>
                 ParseIPv4Prefix(if cfg.tunAddr != "" then cfg.tunAddr else "10.200.1.2/24", env.readV6).Some?)
      ensures end.Delivered? <==>
              built && CommandsRun(cfg, env) && (env.platform == Windows && RouteWanted(cfg, env) ==> env.indexFound)
      ensures end.Panicking? <==>
              built && env.platform != Windows && !env.loggerReturns && !CommandsRun(cfg, env)
      ensures closed <==> built && end.Error?
    {
      var addr, subnet := Default(cfg.tunAddr, "10.200.1.2/24"), Default(cfg.tunSubnet, "10.200.1.0/24");
      if env.platform == Unsupported {
        return Error;
      }
      if env.platform == Windows {
        var parsed := ParseIPv4Prefix(addr, env.readV6);
        if parsed.None? {
          return Error;
        }
      }
      if !env.createsTun(Default(cfg.tunName, "tun0")) {
        return Error;
      }
      built := true;
      var commands := 2;
      if ShouldAddNativeRoute(addr, subnet, env.readV6) {
        if env.platform == Windows && !env.indexFound {
          closed := true;
          return Error;
        }
        commands := 3;
      }
      for i := 0 to commands
        invariant built && !closed
        invariant forall k :: 0 <= k < i ==> env.runs(k)
      {
        if !env.runs(i) {
          if env.platform != Windows && !env.loggerReturns {
            return Panicking;
          }
          closed := true;
          return Error;
        }
      }
      return Delivered;
    }

    method TunFromCfg() returns (end: End)
      requires !built && !closed && registered == []
      modifies this
      ensures end == match TunSetup(cfg, env)
                     case Ready => Delivered
                     case Panics => Panicking
                     case _ => Error
      ensures built == !TunSetup(cfg, env).BuildFails? && closed == (TunSetup(cfg, env) == SetupFails(true))
      ensures if end == Delivered then Registers(registered, TunRegistrations(Kind(cfg))) else registered == []
    {
      if cfg.tunType == "vtun+http" {
        var ok := VTunHttpFromCfg();
        return if ok then Delivered else Error;
      } else if cfg.tunType == "vtun+socks" {
        var ok := VTunSocksFromCfg();
        return if ok then Delivered else Error;
      } else if cfg.tunType == "native" {
        end := NativeFromCfg();
      } else {
        return Error;
      }
    }
  }

  /** The scripts are those that the actions register. */
  predicate Registers(scripts: seq<seq<Action>>, actions: seq<Action>) {
    |scripts| == |actions| && forall k :: 0 <= k < |actions| ==> actions[k] == Register(scripts[k])
  }

  /** A configuration names at most one address to listen on. */
  lemma NamedOnce(cfg: Cfg, env: Env, a: AddrPort)
    requires Named(cfg, env, a)
    ensures forall b :: Named(cfg, env, b) ==> b == a
  {
  }

  // ---- the whole start ----

  ghost function PlanOf(cfg: Cfg, env: Env): Plan {
    Plan(Kind(cfg), cfg.connect != "", TunSetup(cfg, env), env.connects)
  }

  /** Over every run of a start that fails, at whatever point, the device is left open exactly when it
      is a `vtun+http` device that was built but whose server could not be set up, or a native device
      on unix one of whose commands failed under a logger that panics. */
  lemma DeviceLeftOpenIff(cfg: Cfg, env: Env, steps: seq<Step>)
    requires CanRun(Init(PlanOf(cfg, env)), steps)
    requires var s := After(Init(PlanOf(cfg, env)), steps); s.outcome == Failed || s.outcome == Panicked
    ensures var s := After(Init(PlanOf(cfg, env)), steps);
            DeviceBuilt in s.effects && DeviceClosed !in s.effects <==>
            (cfg.tunType == "vtun+http" && VTunBuilds(cfg, env) && HttpFails(cfg, env)) ||
            (cfg.tunType == "native" && NativeBuilds(cfg, env) &&
             env.platform != Windows && !env.loggerReturns && !CommandsRun(cfg, env))
  {
    var p := PlanOf(cfg, env);
    if p.tun == Ready {
      StartedOrFailed(p, steps);
      FailedStartLeavesNothing(p, steps);
    } else {
      FailedSetup(p, steps);
    }
  }

  lemma StartedOrFailed(p: Plan, steps: seq<Step>)
    requires CanRun(Init(p), steps) && p.tun == Ready
    ensures After(Init(p), steps).outcome != Panicked
  {
    Reachable(p, steps);
    var s := After(Init(p), steps);
    if s.outcome != Pending { assert Happened(s, Script(p)[|Script(p)| - 1]); }
  }

  /** The starting thread alone brings a start whose `TunFromCfg` failed to its end. */
  lemma {:induction false} StarterRun(s: Sys) returns (steps: seq<Step>)
    requires Inv(s) && s.plan.tun != Ready
    ensures CanRun(s, steps) && !StarterRunning(After(s, steps))
    decreases |Script(s.plan)| - s.pc
  {
    if !StarterRunning(s) {
      steps := [];
    } else {
      InvStep(s, StarterMoves);
      StepFrame(s, StarterMoves);
      var rest := StarterRun(Do(s, StarterMoves));
      steps := [StarterMoves] + rest;
      assert steps[1..] == rest;
    }
  }

  /** In each of those situations a run does leave the device open. */
  lemma LeakIsReachable(cfg: Cfg, env: Env) returns (steps: seq<Step>)
    requires LeavesOpen(cfg, env)
    ensures CanRun(Init(PlanOf(cfg, env)), steps)
    ensures var s := After(Init(PlanOf(cfg, env)), steps);
            (s.outcome == Failed || s.outcome == Panicked) && DeviceOpen(s)
  {
    var p := PlanOf(cfg, env);
    InvInit(p);
    steps := StarterRun(Init(p));
    Reachable(p, steps);
    var s := After(Init(p), steps);
    assert Happened(s, Script(p)[|Script(p)| - 1]);
    FailedSetup(p, steps);
  }

  /** A host name as the HTTP address, wherever the default device can be built. */
  lemma HostNameLeaks(cfg: Cfg, env: Env)
    requires cfg.tunType == "vtun+http" && cfg.tunAddr == "" && env.builds(DEFAULT_HTTP_ADDR, cfg.tunName)
    requires cfg.tunHttpAddr == "localhost"
    ensures LeavesOpen(cfg, env)
  {
    NameUnreadable(cfg.tunHttpAddr, env.readZoned);
  }
}
