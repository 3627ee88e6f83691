/** One VPN session of runner.Start as a transition system: the starting thread, the goroutines
    registered on the session's wait group, and the goroutine that closes `done`
    (runner/session.go, device/device.go). Every thread is a script of actions. */
module RunnerSystem {
  import opened Sequences

  /** What has been done to a resource once a call returned. */
  datatype Effect =
    | DeviceBuilt | DeviceClosed
    | LinkStopped | TransportClosed
    | ServerClosed | ServeReturned
    | SocksListenerClosed | SocksAcceptReturned | ConnServed(c: nat) | ConnClosed(c: nat)
    | VTunServerClosed | VTunServeReturned

  datatype Action =
    | AwaitCancel                                // <-ctx.Done()
    | Perform(effect: Effect)                    // a call that returns
    | Serve(until: Effect, returned: Effect)     // a server loop: may fail, ends once closed
    | AcceptLoop                                 // listener.Accept in a loop
    | SpawnHandler(c: nat)                       // wg.Go for an accepted connection
    | WgDone                                     // the end of a function given to wg.Go
    | Register(script: seq<Action>)              // wg.Go
    | Cancel                                     // cancel() or Stop()
    | AwaitGroup                                 // wg.Wait()
    | SpawnWaiter                                // go func() { wg.Wait(); close(done) }
    | ReturnOk | ReturnErr | Panic

  datatype TunKind = Native | VTunHttp | VTunSocks

  /** How `TunFromCfg` ends: no device was built, one was built and then an error was returned with
      the device closed or not, a panic after building it, or a device that is ready. */
  datatype TunOutcome = BuildFails | SetupFails(closed: bool) | Panics | Ready

  /** What the environment decides about one call of `Start`. */
  datatype Plan = Plan(kind: TunKind, client: bool, tun: TunOutcome, connects: bool)

  function DeviceCloser(): seq<Action> { [AwaitCancel, Perform(DeviceClosed), WgDone] }

  function ClientCloser(): seq<Action> {
    [AwaitCancel, Perform(LinkStopped), Perform(TransportClosed), WgDone]
  }

  function ServerCloser(): seq<Action> {
    [AwaitCancel, Perform(LinkStopped), Perform(ServerClosed), WgDone]
  }

  function ServerLoop(): seq<Action> { [Serve(ServerClosed, ServeReturned), WgDone] }

  function SocksCloser(): seq<Action> { [AwaitCancel, Perform(SocksListenerClosed), WgDone] }

  function SocksLoop(): seq<Action> { [AcceptLoop, WgDone] }

  function Handler(c: nat): seq<Action> { [Perform(ConnServed(c)), Perform(ConnClosed(c)), WgDone] }

  function VTunCloser(): seq<Action> { [AwaitCancel, Perform(VTunServerClosed), WgDone] }

  function VTunLoop(): seq<Action> { [Serve(VTunServerClosed, VTunServeReturned), WgDone] }

  /** What `TunFromCfg` registers for a device that is ready. */
  function TunRegistrations(kind: TunKind): seq<Action> {
    match kind
    case Native => []
    case VTunHttp => [Register(VTunLoop()), Register(VTunCloser())]
    case VTunSocks => [Register(SocksCloser()), Register(SocksLoop())]
  }

  function PeerRegistrations(client: bool): seq<Action> {
    if client then [Register(ClientCloser())]
    else [Register(ServerCloser()), Register(ServerLoop())]
  }

  /** `Start` from the creation of its context up to its last registration. */
  function Setup(p: Plan): seq<Action> {
    match p.tun
    case BuildFails => []
    case SetupFails(closed) => [Perform(DeviceBuilt)] + if closed then [Perform(DeviceClosed)] else []
    case Panics => [Perform(DeviceBuilt)]
    case Ready =>
      [Perform(DeviceBuilt)] + TunRegistrations(p.kind) + [Register(DeviceCloser())] +
      (if p.connects then PeerRegistrations(p.client) else [])
  }

  /** The rest of `Start`. */
  function Ending(p: Plan): seq<Action> {
    if p.tun == Panics then [Panic]
    else if p.tun != Ready then [Cancel, ReturnErr]
    else if p.connects then [SpawnWaiter, ReturnOk]
    else if p.client then [Cancel, Perform(DeviceClosed), AwaitGroup, ReturnErr]
    else [Perform(LinkStopped), Cancel, Perform(DeviceClosed), AwaitGroup, ReturnErr]
  }

  function Script(p: Plan): seq<Action> { Setup(p) + Ending(p) }

  datatype Outcome = Pending | Started | Failed | Panicked
  datatype Waiter = NotStarted | Watching | Finished

  /** `pc` is the starting thread's position in its script; `tasks` holds what each registered
      goroutine has still to do; `promised` collects the effects that were registered. */
  datatype Sys = Sys(
    plan: Plan,
    pc: nat,
    outcome: Outcome,
    waiter: Waiter,
    tasks: seq<seq<Action>>,
    counter: int,
    cancelled: bool,
    effects: set<Effect>,
    promised: set<Effect>,
    accepted: nat,
    doneCloses: nat)

  function Init(p: Plan): Sys {
    Sys(p, 0, Pending, NotStarted, [], 0, false, {}, {}, 0, 0)
  }

  function Promise(a: Action): set<Effect> {
    match a
    case Perform(e) => {e}
    case Serve(_, returned) => {returned}
    case AcceptLoop => {SocksAcceptReturned}
    case SpawnHandler(c) => {ConnServed(c), ConnClosed(c)}
    case _ => {}
  }

  function Promises(t: seq<Action>): set<Effect> {
    if t == [] then {} else Promise(t[0]) + Promises(t[1..])
  }

  datatype Step =
    | ContextCancelled       // the parent context ends, or the owner calls Stop
    | StarterMoves
    | WaiterMoves
    | TaskMoves(i: nat)
    | ConnAccepted(i: nat)   // Accept returns a connection

  predicate StarterRunning(s: Sys) { s.pc < |Script(s.plan)| }

  predicate Enabled(s: Sys, step: Step) {
    match step
    case ContextCancelled => true
    case StarterMoves =>
      StarterRunning(s) && (Script(s.plan)[s.pc] == AwaitGroup ==> s.counter == 0)
    case WaiterMoves => s.waiter == Watching && s.counter == 0
    case TaskMoves(i) =>
      i < |s.tasks| && s.tasks[i] != [] && (s.tasks[i][0] == AwaitCancel ==> s.cancelled)
    case ConnAccepted(i) =>
      i < |s.tasks| && s.tasks[i] != [] && s.tasks[i][0] == AcceptLoop &&
      SocksListenerClosed !in s.effects
  }

  /** wg.Go: the counter is raised before the goroutine starts. */
  function WgGo(s: Sys, script: seq<Action>): Sys {
    s.(tasks := s.tasks + [script], counter := s.counter + 1, promised := s.promised + Promises(script))
  }

  /** What an action does to the rest of the system. */
  function Act(s: Sys, a: Action): (s': Sys)
    ensures s'.plan == s.plan && s'.pc == s.pc && s'.accepted == s.accepted && s'.doneCloses == s.doneCloses
    ensures s.effects <= s'.effects && (s.cancelled ==> s'.cancelled)
  {
    match a
    case Perform(e) => s.(effects := s.effects + {e})
    case Serve(_, returned) => s.(effects := s.effects + {returned})
    case AcceptLoop => s.(effects := s.effects + {SocksAcceptReturned})
    case SpawnHandler(c) => WgGo(s, Handler(c))
    case WgDone => s.(counter := s.counter - 1)
    case Register(script) => WgGo(s, script)
    case Cancel => s.(cancelled := true)
    case SpawnWaiter => s.(waiter := Watching)
    case ReturnOk => s.(outcome := Started)
    case ReturnErr => s.(outcome := Failed)
    case Panic => s.(outcome := Panicked)
    case _ => s
  }

  function Do(s: Sys, step: Step): Sys
    requires Enabled(s, step)
  {
    match step
    case ContextCancelled => s.(cancelled := true)
    case StarterMoves => Act(s.(pc := s.pc + 1), Script(s.plan)[s.pc])
    case WaiterMoves => s.(waiter := Finished, doneCloses := s.doneCloses + 1)
    case TaskMoves(i) => Act(s.(tasks := s.tasks[i := s.tasks[i][1..]]), s.tasks[i][0])
    case ConnAccepted(i) =>
      s.(tasks := s.tasks[i := [SpawnHandler(s.accepted)] + s.tasks[i]],
         accepted := s.accepted + 1,
         promised := s.promised + {ConnServed(s.accepted), ConnClosed(s.accepted)})
  }

  predicate CanRun(s: Sys, steps: seq<Step>)
    decreases |steps|
  {
    steps == [] || (Enabled(s, steps[0]) && CanRun(Do(s, steps[0]), steps[1..]))
  }

  function After(s: Sys, steps: seq<Step>): Sys
    requires CanRun(s, steps)
    decreases |steps|
  {
    if steps == [] then s else After(Do(s, steps[0]), steps[1..])
  }
}
