/** What `Wait` and a failed `Start` guarantee, over every run. */
module RunnerSafety {
  import opened Sequences
  import opened RunnerSystem

  function Busy(t: seq<Action>): nat { if t == [] then 0 else 1 }

  predicate IsPlain(a: Action) { a.AwaitCancel? || a.Perform? }

  predicate IsServe(a: Action) {
    a.Serve? && (a.returned == ServeReturned || a.returned == VTunServeReturned)
  }

  /** The forms a registered goroutine's remaining script can take. */
  predicate TaskShape(t: seq<Action>) {
    || t == []
    || t == [WgDone]
    || (|t| == 2 && (IsServe(t[0]) || t[0].AcceptLoop?) && t[1] == WgDone)
    || (|t| == 3 && t[0].SpawnHandler? && t[1] == AcceptLoop && t[2] == WgDone)
    || (|t| >= 2 && t[|t| - 1] == WgDone && forall k :: 0 <= k < |t| - 1 ==> IsPlain(t[k]))
  }

  /** A registered effect has happened or some goroutine still has it ahead. */
  ghost predicate Kept(s: Sys, e: Effect) {
    e in s.effects || exists i :: 0 <= i < |s.tasks| && e in Promises(s.tasks[i])
  }

  /** The lasting consequence of an action of the starting thread. */
  ghost predicate Happened(s: Sys, a: Action) {
    match a
    case Register(script) => Promises(script) <= s.promised
    case Perform(e) => e in s.effects
    case Cancel => s.cancelled
    case AwaitGroup => s.counter == 0
    case SpawnWaiter => s.waiter != NotStarted
    case ReturnOk => s.outcome == Started
    case ReturnErr => s.outcome == Failed
    case Panic => s.outcome == Panicked
    case _ => true
  }

  /** The starting thread will register nothing more. */
  predicate Sealed(s: Sys) { s.pc >= |Setup(s.plan)| }

  predicate ConnectFails(p: Plan) { p.tun == Ready && !p.connects }

  /** Someone may be looking at the counter: the waiter, or `Start` itself after a failure. */
  predicate Observed(s: Sys) {
    s.waiter != NotStarted || (ConnectFails(s.plan) && s.pc >= |Script(s.plan)| - 2)
  }

  predicate SetupAction(a: Action) {
    a.Perform? || (a.Register? && TaskShape(a.script) && a.script != [] && !a.script[0].SpawnHandler?)
  }

  /** The scripts that a plan's start registers. */
  predicate KnownScript(p: Plan, t: seq<Action>) {
    || t == DeviceCloser()
    || (p.kind == VTunHttp && (t == VTunLoop() || t == VTunCloser()))
    || (p.kind == VTunSocks && (t == SocksCloser() || t == SocksLoop()))
    || (p.connects && p.client && t == ClientCloser())
    || (p.connects && !p.client && (t == ServerCloser() || t == ServerLoop()))
  }

  predicate Known(p: Plan, a: Action) {
    || a == Perform(DeviceBuilt)
    || (p.tun != Ready && a == Perform(DeviceClosed))
    || (p.tun == Ready && a.Register? && KnownScript(p, a.script))
  }

  lemma SetupKnown(p: Plan, k: nat)
    requires k < |Setup(p)|
    ensures Known(p, Setup(p)[k])
  {
    if p.tun == Ready {
      var parts := [Perform(DeviceBuilt)] + TunRegistrations(p.kind);
      assert forall j :: 0 <= j < |parts| ==> Known(p, parts[j]);
      var more := parts + [Register(DeviceCloser())];
      assert forall j :: 0 <= j < |more| ==> Known(p, more[j]);
      var peers := if p.connects then PeerRegistrations(p.client) else [];
      assert forall j :: 0 <= j < |peers| ==> Known(p, peers[j]);
    }
  }

  lemma KnownShape(p: Plan, t: seq<Action>)
    requires KnownScript(p, t)
    ensures TaskShape(t) && t != [] && !t[0].SpawnHandler?
  {
  }

  lemma SetupShape(p: Plan, k: nat)
    requires k < |Setup(p)|
    ensures SetupAction(Setup(p)[k])
  {
    SetupKnown(p, k);
    var a := Setup(p)[k];
    if a.Register? { KnownShape(p, a.script); }
  }

  /** What remains after the registrations. */
  predicate EndingAction(p: Plan, k: nat)
    requires |Setup(p)| <= k < |Script(p)|
  {
    match Script(p)[k]
    case Perform(_) => true
    case Cancel => !(p.tun == Ready && p.connects)
    case AwaitGroup => k == |Script(p)| - 2 && ConnectFails(p)
    case SpawnWaiter => k == |Script(p)| - 2 && p.tun == Ready && p.connects
    case ReturnOk => k == |Script(p)| - 1 && p.tun == Ready && p.connects
    case ReturnErr => k == |Script(p)| - 1 && !(p.tun == Ready && p.connects) && p.tun != Panics
    case Panic => k == |Script(p)| - 1 && p.tun == Panics
    case _ => false
  }

  lemma EndingShape(p: Plan, k: nat)
    requires |Setup(p)| <= k < |Script(p)|
    ensures EndingAction(p, k)
  {
  }

  /** The account of the goroutines, apart from the starting thread. */
  ghost predicate Accounts(s: Sys) {
    && s.counter == Sum(Busy, s.tasks)
    && (forall i :: 0 <= i < |s.tasks| ==> TaskShape(s.tasks[i]))
    && (forall e <- s.promised :: Kept(s, e))
    && (forall c: nat :: c < s.accepted ==> ConnServed(c) in s.promised && ConnClosed(c) in s.promised)
  }

  /** What the starting thread has done, and what it may still do. */
  ghost predicate History(s: Sys) {
    && s.pc <= |Script(s.plan)|
    && (forall k :: 0 <= k < s.pc ==> Happened(s, Script(s.plan)[k]))
    && (s.outcome != Pending ==> !StarterRunning(s))
    && (s.waiter != NotStarted ==> s.plan.tun == Ready && s.plan.connects && s.pc >= |Script(s.plan)| - 1)
    && (Observed(s) ==> Sealed(s))
    && s.doneCloses == (if s.waiter == Finished then 1 else 0)
    && (s.waiter == Finished ==> s.counter == 0)
  }

  ghost predicate Inv(s: Sys) { Accounts(s) && History(s) }

  lemma AccountsWgGo(s: Sys, script: seq<Action>)
    requires Accounts(s) && TaskShape(script) && script != []
    ensures Accounts(WgGo(s, script))
  {
    var s' := WgGo(s, script);
    SumAppend(Busy, s.tasks, script);
    assert s'.tasks[|s.tasks|] == script;
    forall e <- s'.promised ensures Kept(s', e) {
      if e in s.promised && e !in s.effects {
        var i :| 0 <= i < |s.tasks| && e in Promises(s.tasks[i]);
        assert s'.tasks[i] == s.tasks[i];
      }
    }
  }

  /** What a goroutine's action leaves unchanged and what it brings about. */
  lemma TaskAction(s: Sys, i: nat)
    requires Accounts(s) && Enabled(s, TaskMoves(i)) && !s.tasks[i][0].SpawnHandler?
    ensures var s' := Do(s, TaskMoves(i));
            && s'.tasks == s.tasks[i := s.tasks[i][1..]] && s'.promised == s.promised
            && s'.effects == s.effects + Promise(s.tasks[i][0])
            && s'.counter == s.counter - (if s.tasks[i] == [WgDone] then 1 else 0)
            && (s.tasks[i] == [WgDone] || s.tasks[i][1..] != [])
  {
    assert TaskShape(s.tasks[i]);
  }

  /** A goroutine's first action moves its promise from what is ahead to what has happened. */
  lemma AccountsTask(s: Sys, i: nat)
    requires Accounts(s) && Enabled(s, TaskMoves(i)) && !s.tasks[i][0].SpawnHandler?
    ensures Accounts(Do(s, TaskMoves(i)))
  {
    var s' := Do(s, TaskMoves(i));
    var t := s.tasks[i];
    TaskAction(s, i);
    SumUpdate(Busy, s.tasks, i, t[1..]);
    forall k | 0 <= k < |s'.tasks| ensures TaskShape(s'.tasks[k]) {
      assert TaskShape(s.tasks[k]);
    }
    forall e <- s'.promised ensures Kept(s', e) {
      if e !in s.effects {
        var j :| 0 <= j < |s.tasks| && e in Promises(s.tasks[j]);
        if j != i { assert s'.tasks[j] == s.tasks[j]; } else { assert s'.tasks[i] == t[1..]; }
      }
    }
  }

  lemma AccountsSpawn(s: Sys, i: nat)
    requires Accounts(s) && Enabled(s, TaskMoves(i)) && s.tasks[i][0].SpawnHandler?
    ensures Accounts(Do(s, TaskMoves(i))) && s.counter > 0
  {
    var s' := Do(s, TaskMoves(i));
    var t := s.tasks[i];
    var c := t[0].c;
    assert TaskShape(t);
    var moved := s.tasks[i := t[1..]];
    SumUpdate(Busy, s.tasks, i, t[1..]);
    SumAppend(Busy, moved, Handler(c));
    assert s'.tasks[|moved|] == Handler(c);
    HandlerPromises(c);
    forall e <- s'.promised ensures Kept(s', e) {
      if e in s.promised { SpawnKeeps(s, i, e); }
    }
  }

  lemma SpawnKeeps(s: Sys, i: nat, e: Effect)
    requires Enabled(s, TaskMoves(i)) && s.tasks[i][0].SpawnHandler? && Kept(s, e)
    ensures Kept(Do(s, TaskMoves(i)), e)
  {
    var s', t := Do(s, TaskMoves(i)), s.tasks[i];
    HandlerPromises(t[0].c);
    assert s'.tasks[|s.tasks|] == Handler(t[0].c);
    if e !in s.effects {
      var j :| 0 <= j < |s.tasks| && e in Promises(s.tasks[j]);
      if j != i { assert s'.tasks[j] == s.tasks[j]; } else { assert s'.tasks[i] == t[1..]; }
    }
  }

  lemma HandlerPromises(c: nat)
    ensures Promises(Handler(c)) == {ConnServed(c), ConnClosed(c)}
  {
    assert Handler(c)[1..] == [Perform(ConnClosed(c)), WgDone];
    assert Handler(c)[1..][1..] == [WgDone];
    assert Promises([WgDone]) == {};
    assert Promises([Perform(ConnClosed(c)), WgDone]) == {ConnClosed(c)};
  }

  lemma AccountsAccept(s: Sys, i: nat)
    requires Accounts(s) && Enabled(s, ConnAccepted(i))
    ensures Accounts(Do(s, ConnAccepted(i)))
  {
    var s' := Do(s, ConnAccepted(i));
    var t, t' := s.tasks[i], s'.tasks[i];
    assert TaskShape(t);
    assert t'[1..] == t;
    SumUpdate(Busy, s.tasks, i, t');
    forall e <- s'.promised ensures Kept(s', e) {
      if e in s.promised && e !in s.effects {
        var j :| 0 <= j < |s.tasks| && e in Promises(s.tasks[j]);
        if j != i { assert s'.tasks[j] == s.tasks[j]; }
      }
    }
  }

  /** What has happened stays so when the rest of the system moves on. */
  lemma HistoryStays(s: Sys, s': Sys)
    requires History(s)
    requires s'.plan == s.plan && s'.pc == s.pc && s'.outcome == s.outcome && s'.waiter == s.waiter
    requires s'.doneCloses == s.doneCloses
    requires s.promised <= s'.promised && s.effects <= s'.effects && (s.cancelled ==> s'.cancelled)
    requires s.counter == 0 && Observed(s) ==> s'.counter == 0
    ensures History(s')
  {
    forall k | 0 <= k < s'.pc ensures Happened(s', Script(s'.plan)[k]) {
      assert Happened(s, Script(s.plan)[k]);
      if k < |Setup(s.plan)| { SetupShape(s.plan, k); } else { EndingShape(s.plan, k); }
    }
  }

  lemma InvTask(s: Sys, i: nat)
    requires Inv(s) && Enabled(s, TaskMoves(i))
    ensures Inv(Do(s, TaskMoves(i)))
  {
    if s.tasks[i][0].SpawnHandler? { AccountsSpawn(s, i); } else { AccountsTask(s, i); }
    assert TaskShape(s.tasks[i]);
    SumUpdate(Busy, s.tasks, i, s.tasks[i]);
    HistoryStays(s, Do(s, TaskMoves(i)));
  }

  /** One more action of the starting thread, with what it leaves behind. */
  lemma HistoryMoves(s: Sys)
    requires Inv(s) && Enabled(s, StarterMoves)
    requires var s' := Do(s, StarterMoves);
             Happened(s', Script(s.plan)[s.pc]) && (Observed(s) ==> s'.counter == s.counter)
    ensures forall k :: 0 <= k <= s.pc ==> Happened(Do(s, StarterMoves), Script(s.plan)[k])
  {
    var s' := Do(s, StarterMoves);
    forall k | 0 <= k <= s.pc ensures Happened(s', Script(s.plan)[k]) {
      if k < s.pc {
        assert Happened(s, Script(s.plan)[k]);
        if k < |Setup(s.plan)| { SetupShape(s.plan, k); } else { EndingShape(s.plan, k); }
        EarlierThan(s, k);
      }
    }
  }

  /** Nothing returns before the starting thread's last action. */
  lemma EarlierThan(s: Sys, k: nat)
    requires k < s.pc < |Script(s.plan)|
    ensures !Script(s.plan)[k].ReturnOk? && !Script(s.plan)[k].ReturnErr? && !Script(s.plan)[k].Panic?
  {
    if k < |Setup(s.plan)| { SetupShape(s.plan, k); } else { EndingShape(s.plan, k); }
  }

  lemma InvSetup(s: Sys)
    requires Inv(s) && Enabled(s, StarterMoves) && s.pc < |Setup(s.plan)|
    ensures Inv(Do(s, StarterMoves))
  {
    var a := Script(s.plan)[s.pc];
    SetupShape(s.plan, s.pc);
    assert a == Setup(s.plan)[s.pc];
    if a.Register? { AccountsWgGo(s.(pc := s.pc + 1), a.script); }
    HistoryMoves(s);
  }

  lemma InvEnding(s: Sys)
    requires Inv(s) && Enabled(s, StarterMoves) && s.pc >= |Setup(s.plan)|
    ensures Inv(Do(s, StarterMoves))
  {
    EndingShape(s.plan, s.pc);
    HistoryMoves(s);
  }

  lemma InvOutside(s: Sys, step: Step)
    requires Inv(s) && Enabled(s, step) && (step.ContextCancelled? || step.ConnAccepted?)
    ensures Inv(Do(s, step))
  {
    if step.ConnAccepted? { AccountsAccept(s, step.i); }
    HistoryStays(s, Do(s, step));
  }

  lemma InvWaiter(s: Sys)
    requires Inv(s) && Enabled(s, WaiterMoves)
    ensures Inv(Do(s, WaiterMoves))
  {
    var s' := Do(s, WaiterMoves);
    forall e <- s'.promised ensures Kept(s', e) {
      assert Kept(s, e);
    }
    forall k | 0 <= k < s'.pc ensures Happened(s', Script(s'.plan)[k]) {
      assert Happened(s, Script(s.plan)[k]);
    }
  }

  lemma InvStep(s: Sys, step: Step)
    requires Inv(s) && Enabled(s, step)
    ensures Inv(Do(s, step))
  {
    match step {
      case StarterMoves => if s.pc < |Setup(s.plan)| { InvSetup(s); } else { InvEnding(s); }
      case WaiterMoves => InvWaiter(s);
      case TaskMoves(i) => InvTask(s, i);
      case _ => InvOutside(s, step);
    }
  }

  lemma {:induction false} InvRun(s: Sys, steps: seq<Step>)
    requires Inv(s) && CanRun(s, steps)
    ensures Inv(After(s, steps))
    decreases |steps|
  {
    if steps != [] {
      InvStep(s, steps[0]);
      InvRun(Do(s, steps[0]), steps[1..]);
    }
  }

  lemma InvInit(p: Plan)
    ensures Inv(Init(p))
  {
  }

  lemma Reachable(p: Plan, steps: seq<Step>)
    requires CanRun(Init(p), steps)
    ensures Inv(After(Init(p), steps)) && After(Init(p), steps).plan == p
  {
    InvInit(p);
    InvRun(Init(p), steps);
    PlanKept(Init(p), steps);
  }

  /** What no step takes back. */
  lemma StepFrame(s: Sys, step: Step)
    requires Enabled(s, step)
    ensures var s' := Do(s, step);
            && s'.plan == s.plan && s.effects <= s'.effects && (s.cancelled ==> s'.cancelled)
            && s'.pc == (if step.StarterMoves? then s.pc + 1 else s.pc)
  {
  }

  lemma {:induction false} PlanKept(s: Sys, steps: seq<Step>)
    requires CanRun(s, steps)
    ensures After(s, steps).plan == s.plan
    decreases |steps|
  {
    if steps != [] {
      StepFrame(s, steps[0]);
      PlanKept(Do(s, steps[0]), steps[1..]);
    }
  }

  // ---- the guarantees ----

  /** With the counter at zero no registered goroutine has anything left to do. */
  lemma {:induction false} ZeroMeansIdle(tasks: seq<seq<Action>>)
    requires Sum(Busy, tasks) == 0
    ensures forall i :: 0 <= i < |tasks| ==> tasks[i] == []
  {
    if tasks != [] {
      ZeroMeansIdle(tasks[1..]);
      forall i | 0 <= i < |tasks| ensures tasks[i] == [] {
        if i > 0 { assert tasks[i] == tasks[1..][i - 1]; }
      }
    }
  }

  /** The counter counts the unfinished goroutines, and while anyone can be looking at it a
      registration only ever finds it above zero. */
  lemma WaitGroupSound(p: Plan, steps: seq<Step>, step: Step)
    requires CanRun(Init(p), steps) && Enabled(After(Init(p), steps), step)
    ensures var s := After(Init(p), steps);
            && s.counter >= 0 && Do(s, step).counter >= 0
            && (Observed(s) && Do(s, step).counter > s.counter ==> s.counter > 0)
            && (Observed(s) && s.counter == 0 ==> forall i :: 0 <= i < |s.tasks| ==> s.tasks[i] == [])
  {
    Reachable(p, steps);
    var s := After(Init(p), steps);
    InvStep(s, step);
    if s.counter == 0 { ZeroMeansIdle(s.tasks); }
    if step.TaskMoves? { SumUpdate(Busy, s.tasks, step.i, s.tasks[step.i]); }
    if step.StarterMoves? && s.pc >= |Setup(p)| { EndingShape(p, s.pc); }
  }

  function ConnsClosed(accepted: nat): set<Effect> {
    (set c: nat | c < accepted :: ConnServed(c)) + (set c: nat | c < accepted :: ConnClosed(c))
  }

  /** What a started session owns, named resource by resource. */
  function Owned(p: Plan, accepted: nat): set<Effect> {
    {DeviceBuilt, DeviceClosed} + ConnsClosed(accepted) +
    (match p.kind
     case Native => {}
     case VTunHttp => {VTunServerClosed, VTunServeReturned}
     case VTunSocks => {SocksListenerClosed, SocksAcceptReturned}) +
    (if p.client then {LinkStopped, TransportClosed} else {LinkStopped, ServerClosed, ServeReturned})
  }

  lemma CloserPromises(e: Effect)
    ensures Promises([Perform(e), WgDone]) == {e}
    ensures Promises([AwaitCancel, Perform(e), WgDone]) == {e}
  {
    assert [Perform(e), WgDone][1..] == [WgDone];
    assert Promises([WgDone]) == {};
    assert [AwaitCancel, Perform(e), WgDone][1..] == [Perform(e), WgDone];
  }

  lemma PeerCloserPromises(e: Effect, f: Effect)
    ensures Promises([AwaitCancel, Perform(e), Perform(f), WgDone]) == {e, f}
  {
    CloserPromises(f);
    assert [AwaitCancel, Perform(e), Perform(f), WgDone][1..] == [Perform(e), Perform(f), WgDone];
    assert [Perform(e), Perform(f), WgDone][1..] == [Perform(f), WgDone];
  }

  lemma LoopPromises(a: Action)
    ensures Promises([a, WgDone]) == Promise(a)
  {
    assert [a, WgDone][1..] == [WgDone];
    assert Promises([WgDone]) == {};
  }

  lemma ScriptPromises()
    ensures Promises(DeviceCloser()) == {DeviceClosed}
    ensures Promises(ClientCloser()) == {LinkStopped, TransportClosed}
    ensures Promises(ServerCloser()) == {LinkStopped, ServerClosed}
    ensures Promises(ServerLoop()) == {ServeReturned}
    ensures Promises(SocksCloser()) == {SocksListenerClosed}
    ensures Promises(SocksLoop()) == {SocksAcceptReturned}
    ensures Promises(VTunCloser()) == {VTunServerClosed}
    ensures Promises(VTunLoop()) == {VTunServeReturned}
  {
    CloserPromises(DeviceClosed);
    PeerCloserPromises(LinkStopped, TransportClosed);
    PeerCloserPromises(LinkStopped, ServerClosed);
    LoopPromises(Serve(ServerClosed, ServeReturned));
    CloserPromises(SocksListenerClosed);
    LoopPromises(AcceptLoop);
    CloserPromises(VTunServerClosed);
    LoopPromises(Serve(VTunServerClosed, VTunServeReturned));
  }

  /** A setup with `x` between `a` and `c` contains `x`. */
  lemma Contains<T>(a: seq<T>, x: T, c: seq<T>)
    ensures x in a + [x] + c
  {
    assert (a + [x] + c)[|a|] == x;
  }

  lemma TunRegistered(p: Plan)
    requires p.tun == Ready
    ensures Perform(DeviceBuilt) in Setup(p) && Register(DeviceCloser()) in Setup(p)
    ensures forall a <- TunRegistrations(p.kind) :: a in Setup(p)
  {
    var peers := if p.connects then PeerRegistrations(p.client) else [];
    var tuns := [Perform(DeviceBuilt)] + TunRegistrations(p.kind);
    assert Setup(p) == tuns + [Register(DeviceCloser())] + peers;
    Contains(tuns, Register(DeviceCloser()), peers);
    forall a | a in tuns ensures a in Setup(p) {
      assert a in tuns + [Register(DeviceCloser())];
    }
  }

  lemma PeerRegistered(p: Plan)
    requires p.tun == Ready && p.connects
    ensures forall a <- PeerRegistrations(p.client) :: a in Setup(p)
  {
    var tuns := [Perform(DeviceBuilt)] + TunRegistrations(p.kind) + [Register(DeviceCloser())];
    assert Setup(p) == tuns + PeerRegistrations(p.client);
  }

  /** What the setup contains has happened once it is complete. */
  lemma SetupHappened(s: Sys, a: Action)
    requires Inv(s) && Sealed(s) && a in Setup(s.plan)
    ensures Happened(s, a)
  {
    var k :| 0 <= k < |Setup(s.plan)| && Setup(s.plan)[k] == a;
    assert Script(s.plan)[k] == a;
  }

  lemma RegisteredPromised(s: Sys, t: seq<Action>)
    requires Inv(s) && Sealed(s) && Register(t) in Setup(s.plan)
    ensures Promises(t) <= s.promised
  {
    SetupHappened(s, Register(t));
  }

  lemma DevicePromised(s: Sys)
    requires Inv(s) && Sealed(s) && s.plan.tun == Ready
    ensures DeviceBuilt in s.effects && DeviceClosed in s.promised
  {
    TunRegistered(s.plan);
    SetupHappened(s, Perform(DeviceBuilt));
    RegisteredPromised(s, DeviceCloser());
    CloserPromises(DeviceClosed);
  }

  lemma HttpPromised(s: Sys)
    requires Inv(s) && Sealed(s) && s.plan.tun == Ready && s.plan.kind == VTunHttp
    ensures {VTunServerClosed, VTunServeReturned} <= s.promised
  {
    TunRegistered(s.plan);
    assert Register(VTunLoop()) in TunRegistrations(VTunHttp) && Register(VTunCloser()) in TunRegistrations(VTunHttp);
    RegisteredPromised(s, VTunLoop());
    RegisteredPromised(s, VTunCloser());
    CloserPromises(VTunServerClosed);
    LoopPromises(Serve(VTunServerClosed, VTunServeReturned));
  }

  lemma SocksPromised(s: Sys)
    requires Inv(s) && Sealed(s) && s.plan.tun == Ready && s.plan.kind == VTunSocks
    ensures {SocksListenerClosed, SocksAcceptReturned} <= s.promised
  {
    TunRegistered(s.plan);
    assert Register(SocksLoop()) in TunRegistrations(VTunSocks) && Register(SocksCloser()) in TunRegistrations(VTunSocks);
    RegisteredPromised(s, SocksLoop());
    RegisteredPromised(s, SocksCloser());
    CloserPromises(SocksListenerClosed);
    LoopPromises(AcceptLoop);
  }

  lemma TunPromised(s: Sys)
    requires Inv(s) && Sealed(s) && s.plan.tun == Ready
    ensures DeviceBuilt in s.effects && DeviceClosed in s.promised
    ensures s.plan.kind == VTunHttp ==> {VTunServerClosed, VTunServeReturned} <= s.promised
    ensures s.plan.kind == VTunSocks ==> {SocksListenerClosed, SocksAcceptReturned} <= s.promised
  {
    DevicePromised(s);
    if s.plan.kind == VTunHttp { HttpPromised(s); }
    if s.plan.kind == VTunSocks { SocksPromised(s); }
  }

  lemma PeerPromised(s: Sys)
    requires Inv(s) && Sealed(s) && s.plan.tun == Ready && s.plan.connects
    ensures LinkStopped in s.promised
    ensures if s.plan.client then TransportClosed in s.promised
            else {ServerClosed, ServeReturned} <= s.promised
  {
    PeerRegistered(s.plan);
    if s.plan.client {
      assert Register(ClientCloser()) in PeerRegistrations(true);
      RegisteredPromised(s, ClientCloser());
      PeerCloserPromises(LinkStopped, TransportClosed);
    } else {
      assert Register(ServerCloser()) in PeerRegistrations(false) && Register(ServerLoop()) in PeerRegistrations(false);
      RegisteredPromised(s, ServerCloser());
      RegisteredPromised(s, ServerLoop());
      PeerCloserPromises(LinkStopped, ServerClosed);
      LoopPromises(Serve(ServerClosed, ServeReturned));
    }
  }

  /** After the registrations of a start that connected, all that the session owns is promised. */
  lemma OwnedIsPromised(s: Sys)
    requires Inv(s) && Sealed(s) && s.plan.tun == Ready && s.plan.connects
    ensures Owned(s.plan, s.accepted) <= s.promised + s.effects
  {
    TunPromised(s);
    PeerPromised(s);
  }

  /** An idle system has kept every promise. */
  lemma IdleKept(s: Sys)
    requires Inv(s) && s.counter == 0
    ensures forall i :: 0 <= i < |s.tasks| ==> s.tasks[i] == []
    ensures s.promised <= s.effects
  {
    ZeroMeansIdle(s.tasks);
    forall e <- s.promised ensures e in s.effects {
      assert Kept(s, e);
    }
  }

  // ---- nothing ends before the cancellation ----

  /** What must stay open until the context is cancelled; a server that failed to listen stops its
      link before. */
  function Closings(p: Plan): set<Effect> {
    {DeviceClosed, SocksListenerClosed, VTunServerClosed, TransportClosed, ServerClosed} +
    (if p.connects then {LinkStopped} else {})
  }

  /** The goroutines that close something wait for the cancellation first. */
  ghost predicate Held(s: Sys) {
    s.cancelled ||
    (s.effects !! Closings(s.plan) &&
     forall i :: 0 <= i < |s.tasks| ==> HoldsBack(s.tasks[i], s.plan))
  }

  predicate HoldsBack(t: seq<Action>, p: Plan) {
    Promises(t) !! Closings(p) || (t != [] && t[0] == AwaitCancel)
  }

  lemma SetupHolds(p: Plan, k: nat)
    requires p.tun == Ready && k < |Setup(p)|
    ensures Setup(p)[k].Perform? ==> Setup(p)[k] == Perform(DeviceBuilt)
    ensures Setup(p)[k].Register? ==> HoldsBack(Setup(p)[k].script, p)
  {
    SetupKnown(p, k);
    var a := Setup(p)[k];
    if a.Register? { KnownHolds(p, a.script); }
  }

  lemma KnownHolds(p: Plan, t: seq<Action>)
    requires KnownScript(p, t)
    ensures HoldsBack(t, p)
  {
    ScriptPromises();
  }

  lemma HeldSetup(s: Sys)
    requires Inv(s) && Held(s) && s.plan.tun == Ready && Enabled(s, StarterMoves)
    requires s.pc < |Setup(s.plan)|
    ensures Held(Do(s, StarterMoves))
  {
    SetupHolds(s.plan, s.pc);
    SetupShape(s.plan, s.pc);
    assert Script(s.plan)[s.pc] == Setup(s.plan)[s.pc];
  }

  lemma HeldEnding(s: Sys)
    requires Inv(s) && Held(s) && s.plan.tun == Ready && Enabled(s, StarterMoves)
    requires s.pc >= |Setup(s.plan)|
    ensures Held(Do(s, StarterMoves))
  {
    EndingShape(s.plan, s.pc);
    if Script(s.plan)[s.pc] == Perform(DeviceClosed) {
      assert Script(s.plan)[s.pc - 1] == Cancel && Happened(s, Script(s.plan)[s.pc - 1]);
    }
  }

  lemma HeldTask(s: Sys, i: nat)
    requires Inv(s) && Held(s) && Enabled(s, TaskMoves(i))
    ensures Held(Do(s, TaskMoves(i)))
  {
    var t := s.tasks[i];
    assert TaskShape(t);
    assert Promises(t) == Promise(t[0]) + Promises(t[1..]);
    if !s.cancelled {
      assert HoldsBack(t, s.plan);
      if t[0].SpawnHandler? { HandlerPromises(t[0].c); } else { TaskAction(s, i); }
    }
  }

  lemma HeldAccept(s: Sys, i: nat)
    requires Held(s) && Enabled(s, ConnAccepted(i))
    ensures Held(Do(s, ConnAccepted(i)))
  {
    var t' := Do(s, ConnAccepted(i)).tasks[i];
    assert t'[1..] == s.tasks[i];
    assert Promises(t') == {ConnServed(s.accepted), ConnClosed(s.accepted)} + Promises(s.tasks[i]);
    if !s.cancelled { assert HoldsBack(s.tasks[i], s.plan); }
  }

  lemma HeldStep(s: Sys, step: Step)
    requires Inv(s) && Held(s) && s.plan.tun == Ready && Enabled(s, step)
    ensures Held(Do(s, step))
  {
    match step {
      case StarterMoves => if s.pc < |Setup(s.plan)| { HeldSetup(s); } else { HeldEnding(s); }
      case TaskMoves(i) => HeldTask(s, i);
      case ConnAccepted(i) => HeldAccept(s, i);
      case _ =>
    }
  }

  /** A start that connects cancels nothing itself. */
  lemma CancelsNothing(s: Sys)
    requires Inv(s) && s.plan.tun == Ready && s.plan.connects && Enabled(s, StarterMoves)
    ensures Do(s, StarterMoves).cancelled == s.cancelled
  {
    if s.pc < |Setup(s.plan)| {
      SetupShape(s.plan, s.pc);
      assert Script(s.plan)[s.pc] == Setup(s.plan)[s.pc];
    } else {
      EndingShape(s.plan, s.pc);
    }
  }

  lemma {:induction false} HeldRun(s: Sys, steps: seq<Step>)
    requires Inv(s) && Held(s) && s.plan.tun == Ready && CanRun(s, steps)
    ensures Held(After(s, steps))
    ensures s.plan.connects && ContextCancelled !in steps ==> After(s, steps).cancelled == s.cancelled
    decreases |steps|
  {
    if steps != [] {
      InvStep(s, steps[0]);
      HeldStep(s, steps[0]);
      StepFrame(s, steps[0]);
      HeldRun(Do(s, steps[0]), steps[1..]);
      if steps[0].StarterMoves? && s.plan.connects { CancelsNothing(s); }
      if steps[0].TaskMoves? { assert TaskShape(s.tasks[steps[0].i]); }
    }
  }

  /** Nothing that a session runs on is closed before the context is cancelled, and the context of a
      session that was started is cancelled by nothing but `Stop` or the end of the parent context. */
  lemma ClosedOnlyAfterCancel(p: Plan, steps: seq<Step>)
    requires CanRun(Init(p), steps) && p.tun == Ready
    ensures var s := After(Init(p), steps);
            var kept := {DeviceClosed, SocksListenerClosed, VTunServerClosed, TransportClosed, ServerClosed};
            && (!s.cancelled ==> s.effects !! kept && (p.connects ==> LinkStopped !in s.effects))
            && (p.connects && s.cancelled ==> ContextCancelled in steps)
  {
    Reachable(p, steps);
    HeldRun(Init(p), steps);
  }

  /** `Start` returns a session exactly if the device is ready and the peer can be reached, and it
      panics exactly if `TunFromCfg` does. */
  lemma StartOutcome(p: Plan, steps: seq<Step>)
    requires CanRun(Init(p), steps) && After(Init(p), steps).outcome != Pending
    ensures var s := After(Init(p), steps);
            && (s.outcome == Started <==> p.tun == Ready && p.connects)
            && (s.outcome == Panicked <==> p.tun == Panics)
  {
    Reachable(p, steps);
    var n := |Script(p)|;
    EndingShape(p, n - 1);
    assert Happened(After(Init(p), steps), Script(p)[n - 1]);
  }

  /** `done` is only ever closed after `Stop`, or the end of the parent context, cancelled the session:
      the counter cannot reach zero before. */
  lemma DoneOnlyAfterCancel(p: Plan, steps: seq<Step>)
    requires CanRun(Init(p), steps) && After(Init(p), steps).doneCloses > 0
    ensures After(Init(p), steps).cancelled && ContextCancelled in steps
  {
    Reachable(p, steps);
    HeldRun(Init(p), steps);
    IdleKept(After(Init(p), steps));
    OwnedIsPromised(After(Init(p), steps));
  }

  /** `done` is closed at most once, and once it is closed the context was cancelled, every goroutine
      has finished and every resource of the session, each accepted SOCKS connection included, has
      been closed. */
  lemma WaitMeansFinished(p: Plan, steps: seq<Step>)
    requires CanRun(Init(p), steps)
    ensures var s := After(Init(p), steps);
            && s.doneCloses <= 1
            && (s.doneCloses == 1 ==>
                  && s.cancelled
                  && (forall i :: 0 <= i < |s.tasks| ==> s.tasks[i] == [])
                  && {DeviceBuilt, DeviceClosed, LinkStopped} <= s.effects
                  && (p.kind == VTunHttp ==> {VTunServerClosed, VTunServeReturned} <= s.effects)
                  && (p.kind == VTunSocks ==> {SocksListenerClosed, SocksAcceptReturned} <= s.effects)
                  && (if p.client then TransportClosed in s.effects
                      else {ServerClosed, ServeReturned} <= s.effects)
                  && (forall c: nat :: c < s.accepted ==> {ConnServed(c), ConnClosed(c)} <= s.effects))
  {
    Reachable(p, steps);
    var s := After(Init(p), steps);
    if s.doneCloses == 1 {
      IdleKept(s);
      OwnedIsPromised(s);
      DoneOnlyAfterCancel(p, steps);
    }
  }

  /** After `done` nothing but a further cancellation can happen, save that `Start` returns. */
  lemma NothingAfterDone(p: Plan, steps: seq<Step>, step: Step)
    requires CanRun(Init(p), steps) && Enabled(After(Init(p), steps), step)
    requires After(Init(p), steps).doneCloses == 1
    ensures var s, s' := After(Init(p), steps), Do(After(Init(p), steps), step);
            s'.tasks == s.tasks && s'.effects == s.effects && s'.accepted == s.accepted && s'.doneCloses == 1
  {
    Reachable(p, steps);
    var s := After(Init(p), steps);
    IdleKept(s);
    if step.StarterMoves? { EndingShape(p, s.pc); }
  }

  /** When `startClient` or `startServer` failed and `Start` has returned that error, nothing runs:
      the context is cancelled, the device is closed and every goroutine has finished. */
  lemma FailedStartLeavesNothing(p: Plan, steps: seq<Step>)
    requires CanRun(Init(p), steps)
    requires p.tun == Ready && After(Init(p), steps).outcome == Failed
    ensures var s := After(Init(p), steps);
            && s.cancelled && DeviceClosed in s.effects && s.counter == 0
            && (!p.client ==> LinkStopped in s.effects)
            && (p.kind == VTunHttp ==> {VTunServerClosed, VTunServeReturned} <= s.effects)
            && (p.kind == VTunSocks ==> {SocksListenerClosed, SocksAcceptReturned} <= s.effects)
            && (forall c: nat :: c < s.accepted ==> {ConnServed(c), ConnClosed(c)} <= s.effects)
            && (forall i :: 0 <= i < |s.tasks| ==> s.tasks[i] == [])
            && s.promised <= s.effects
  {
    Reachable(p, steps);
    var s := After(Init(p), steps);
    var n := |Script(p)|;
    assert Happened(s, Script(p)[n - 1]);
    if !p.connects {
      assert Script(p)[n - 2] == AwaitGroup && Happened(s, Script(p)[n - 2]);
      assert Script(p)[n - 3] == Perform(DeviceClosed) && Happened(s, Script(p)[n - 3]);
      assert Script(p)[n - 4] == Cancel && Happened(s, Script(p)[n - 4]);
      if !p.client { assert Script(p)[n - 5] == Perform(LinkStopped) && Happened(s, Script(p)[n - 5]); }
      IdleKept(s);
      TunPromised(s);
    }
  }

  /** A start whose `TunFromCfg` did not deliver a device registers no goroutine, cancels its context
      unless it panics, and leaves exactly the device that `TunFromCfg` left. */
  lemma FailedSetup(p: Plan, steps: seq<Step>)
    requires CanRun(Init(p), steps)
    requires p.tun != Ready && After(Init(p), steps).outcome != Pending
    ensures var s := After(Init(p), steps);
            && s.tasks == [] && (s.outcome == Panicked <==> p.tun == Panics)
            && (s.outcome == Failed ==> s.cancelled)
            && (DeviceOpen(s) <==> p.tun == Panics || p.tun == SetupFails(false))
  {
    Reachable(p, steps);
    OnlySetupEffects(p, steps);
    var s := After(Init(p), steps);
    var n := |Script(p)|;
    assert forall k :: 0 <= k < n ==> Happened(s, Script(p)[k]);
    assert Happened(s, Script(p)[n - 1]);
    if p.tun != Panics { assert Script(p)[n - 2] == Cancel; }
    if p.tun != BuildFails { assert Script(p)[0] == Perform(DeviceBuilt); }
    if p.tun == SetupFails(true) { assert Script(p)[1] == Perform(DeviceClosed); }
  }

  predicate DeviceOpen(s: Sys) { DeviceBuilt in s.effects && DeviceClosed !in s.effects }

  lemma {:induction false} OnlySetupEffects(p: Plan, steps: seq<Step>)
    requires CanRun(Init(p), steps) && p.tun != Ready
    ensures var s := After(Init(p), steps);
            s.tasks == [] && (forall e <- s.effects :: Perform(e) in Setup(p))
  {
    OnlySetupEffectsFrom(Init(p), steps);
  }

  lemma {:induction false} OnlySetupEffectsFrom(s: Sys, steps: seq<Step>)
    requires CanRun(s, steps) && s.plan.tun != Ready
    requires s.tasks == [] && (forall e <- s.effects :: Perform(e) in Setup(s.plan))
    ensures var s' := After(s, steps);
            s'.tasks == [] && (forall e <- s'.effects :: Perform(e) in Setup(s.plan))
    decreases |steps|
  {
    if steps != [] {
      if steps[0].StarterMoves? {
        if s.pc < |Setup(s.plan)| { assert Script(s.plan)[s.pc] == Setup(s.plan)[s.pc]; }
        else { EndingShape(s.plan, s.pc); }
      }
      OnlySetupEffectsFrom(Do(s, steps[0]), steps[1..]);
    }
  }
}
