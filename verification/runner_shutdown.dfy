/** Shutting a session down: how many steps any run can take, and that a cancelled session always
    gets to its end. */
module RunnerShutdown {
  import opened Sequences
  import opened RunnerSystem
  import opened RunnerSafety

  // ---- a bound on every run ----

  function Weight(a: Action): nat { if a.SpawnHandler? then 4 else 1 }

  function TaskWork(t: seq<Action>): nat { Sum(Weight, t) }

  function StarterWeight(a: Action): nat {
    match a
    case Register(script) => 1 + |script|
    case SpawnWaiter => 2
    case _ => 1
  }

  /** The steps left to every thread, a pending connection's handler included. */
  function Work(s: Sys): nat {
    StarterWork(s) + Sum(TaskWork, s.tasks) + (if s.waiter == Watching then 1 else 0)
  }

  function StarterWork(s: Sys): nat {
    if s.pc <= |Script(s.plan)| then Sum(StarterWeight, Script(s.plan)[s.pc..]) else 0
  }

  lemma {:induction false} PlainWork(t: seq<Action>)
    requires forall k :: 0 <= k < |t| ==> !t[k].SpawnHandler?
    ensures TaskWork(t) == |t|
  {
    if t != [] { PlainWork(t[1..]); }
  }

  lemma WorkSpawn(s: Sys, i: nat)
    requires Inv(s) && Enabled(s, TaskMoves(i)) && s.tasks[i][0].SpawnHandler?
    ensures Sum(TaskWork, Do(s, TaskMoves(i)).tasks) == Sum(TaskWork, s.tasks) - 1
  {
    var t := s.tasks[i];
    var moved := s.tasks[i := t[1..]];
    assert Do(s, TaskMoves(i)).tasks == moved + [Handler(t[0].c)];
    SumUpdate(TaskWork, s.tasks, i, t[1..]);
    assert TaskWork(t) == 4 + TaskWork(t[1..]);
    SumAppend(TaskWork, moved, Handler(t[0].c));
    PlainWork(Handler(t[0].c));
  }

  lemma WorkPlain(s: Sys, i: nat)
    requires Inv(s) && Enabled(s, TaskMoves(i)) && !s.tasks[i][0].SpawnHandler?
    ensures Sum(TaskWork, Do(s, TaskMoves(i)).tasks) == Sum(TaskWork, s.tasks) - 1
  {
    var t := s.tasks[i];
    assert TaskShape(t);
    assert Do(s, TaskMoves(i)).tasks == s.tasks[i := t[1..]];
    SumUpdate(TaskWork, s.tasks, i, t[1..]);
  }

  lemma TaskFrame(s: Sys, i: nat)
    requires Inv(s) && Enabled(s, TaskMoves(i))
    ensures var s' := Do(s, TaskMoves(i)); s'.pc == s.pc && s'.plan == s.plan && s'.waiter == s.waiter
  {
    assert TaskShape(s.tasks[i]);
  }

  lemma WorkTask(s: Sys, i: nat)
    requires Inv(s) && Enabled(s, TaskMoves(i))
    ensures Work(Do(s, TaskMoves(i))) == Work(s) - 1
  {
    TaskFrame(s, i);
    if s.tasks[i][0].SpawnHandler? { WorkSpawn(s, i); } else { WorkPlain(s, i); }
  }

  lemma WorkAccept(s: Sys, i: nat)
    requires Inv(s) && Enabled(s, ConnAccepted(i))
    ensures Work(Do(s, ConnAccepted(i))) == Work(s) + 4
  {
    var t' := [SpawnHandler(s.accepted)] + s.tasks[i];
    assert t'[1..] == s.tasks[i];
    SumUpdate(TaskWork, s.tasks, i, t');
  }

  lemma WorkSetup(s: Sys)
    requires Inv(s) && Enabled(s, StarterMoves) && s.pc < |Setup(s.plan)|
    ensures Sum(TaskWork, Do(s, StarterMoves).tasks) + 1 ==
            Sum(TaskWork, s.tasks) + StarterWeight(Script(s.plan)[s.pc])
    ensures Do(s, StarterMoves).waiter == s.waiter
  {
    SetupShape(s.plan, s.pc);
    WorkAct(s.(pc := s.pc + 1), Setup(s.plan)[s.pc]);
  }

  lemma WorkAct(s: Sys, a: Action)
    requires SetupAction(a)
    ensures Sum(TaskWork, Act(s, a).tasks) + 1 == Sum(TaskWork, s.tasks) + StarterWeight(a)
    ensures Act(s, a).waiter == s.waiter
  {
    if a.Register? {
      PlainWork(a.script);
      SumAppend(TaskWork, s.tasks, a.script);
    }
  }

  lemma WorkEnding(s: Sys)
    requires Inv(s) && Enabled(s, StarterMoves) && s.pc >= |Setup(s.plan)|
    ensures var s' := Do(s, StarterMoves);
            s'.tasks == s.tasks &&
            (if s'.waiter == Watching then 1 else 0) + 1 ==
            (if s.waiter == Watching then 1 else 0) + StarterWeight(Script(s.plan)[s.pc])
  {
    EndingShape(s.plan, s.pc);
  }

  lemma WorkStarter(s: Sys)
    requires Inv(s) && Enabled(s, StarterMoves)
    ensures Work(Do(s, StarterMoves)) == Work(s) - 1
  {
    var script := Script(s.plan);
    var s' := Do(s, StarterMoves);
    StepFrame(s, StarterMoves);
    assert script[s.pc..][1..] == script[s.pc + 1..];
    assert StarterWork(s) == StarterWeight(script[s.pc]) + StarterWork(s');
    if s.pc < |Setup(s.plan)| { WorkSetup(s); } else { WorkEnding(s); }
  }

  function IsAccept(step: Step): nat { if step.ConnAccepted? then 1 else 0 }

  function IsMove(step: Step): nat { if step.ConnAccepted? || step.ContextCancelled? then 0 else 1 }

  function Accepts(steps: seq<Step>): nat { Sum(IsAccept, steps) }

  /** Steps other than accepting a connection or cancelling the context. */
  function Moves(steps: seq<Step>): nat { Sum(IsMove, steps) }

  /** What a step does to the work. */
  lemma WorkStep(s: Sys, step: Step)
    requires Inv(s) && Enabled(s, step)
    ensures Inv(Do(s, step)) && IsMove(step) + Work(Do(s, step)) == Work(s) + 4 * IsAccept(step)
  {
    InvStep(s, step);
    match step {
      case ContextCancelled =>
      case StarterMoves => WorkStarter(s);
      case WaiterMoves =>
      case TaskMoves(i) => WorkTask(s, i);
      case ConnAccepted(i) => WorkAccept(s, i);
    }
  }

  /** In every run, the steps of all threads other than accepting a connection number at most the
      work there was plus four for each connection accepted on the way. */
  lemma {:induction false} RunBound(s: Sys, steps: seq<Step>)
    requires Inv(s) && CanRun(s, steps)
    ensures Inv(After(s, steps))
    ensures Moves(steps) + Work(After(s, steps)) == Work(s) + 4 * Accepts(steps)
    decreases |steps|
  {
    if steps != [] {
      WorkStep(s, steps[0]);
      RunBound(Do(s, steps[0]), steps[1..]);
    }
  }

  /** Once the SOCKS listener is closed no connection is accepted any more, so the work left bounds
      the rest of the run, the handler of a last connection included. */
  lemma {:induction false} ClosedListenerBound(s: Sys, steps: seq<Step>)
    requires Inv(s) && CanRun(s, steps) && SocksListenerClosed in s.effects
    ensures Accepts(steps) == 0 && Moves(steps) <= Work(s)
    decreases |steps|
  {
    RunBound(s, steps);
    NoAccepts(s, steps);
  }

  lemma {:induction false} NoAccepts(s: Sys, steps: seq<Step>)
    requires CanRun(s, steps) && SocksListenerClosed in s.effects
    ensures Accepts(steps) == 0
    decreases |steps|
  {
    if steps != [] {
      StepFrame(s, steps[0]);
      NoAccepts(Do(s, steps[0]), steps[1..]);
    }
  }

  // ---- progress ----

  predicate Complete(s: Sys) {
    !StarterRunning(s) && s.waiter != Watching && forall i :: 0 <= i < |s.tasks| ==> s.tasks[i] == []
  }

  /** The steps that are bound to happen: a server loop is only bound to return once its server was
      closed, and Accept is only bound to fail once its listener was closed. */
  predicate Bound(s: Sys, step: Step) {
    Enabled(s, step) &&
    match step
    case ContextCancelled => false
    case ConnAccepted(_) => false
    case TaskMoves(i) =>
      (match s.tasks[i][0]
       case Serve(until, _) => until in s.effects
       case AcceptLoop => SocksListenerClosed in s.effects
       case _ => true)
    case _ => true
  }

  /** The closing that a goroutine waits for. */
  function Needs(t: seq<Action>): set<Effect> {
    if t == [] then {}
    else (match t[0]
          case Serve(until, _) => {until}
          case AcceptLoop => {SocksListenerClosed}
          case _ => {}) + Needs(t[1..])
  }

  /** The closings that the goroutines of a plan see to. */
  function Closes(p: Plan): set<Effect> {
    (if p.tun == Ready && p.kind == VTunHttp then {VTunServerClosed} else {}) +
    (if p.tun == Ready && p.kind == VTunSocks then {SocksListenerClosed} else {}) +
    (if p.tun == Ready && p.connects && !p.client then {ServerClosed} else {})
  }

  ghost predicate Closable(s: Sys) {
    forall i :: 0 <= i < |s.tasks| ==> Needs(s.tasks[i]) <= Closes(s.plan)
  }

  lemma {:induction false} PlainNeeds(t: seq<Action>)
    requires forall k :: 0 <= k < |t| ==> !t[k].Serve? && !t[k].AcceptLoop?
    ensures Needs(t) == {}
  {
    if t != [] { PlainNeeds(t[1..]); }
  }

  lemma LoopNeeds(a: Action)
    ensures Needs([a, WgDone]) == Needs([a])
  {
    assert [a, WgDone][1..] == [WgDone] && [a][1..] == [] && [WgDone][1..] == [];
  }

  predicate NeedsWithin(a: Action, closes: set<Effect>) { a.Register? ==> Needs(a.script) <= closes }

  lemma SetupNeeds(p: Plan, k: nat)
    requires k < |Setup(p)|
    ensures NeedsWithin(Setup(p)[k], Closes(p))
  {
    SetupKnown(p, k);
    var a := Setup(p)[k];
    if a.Register? { KnownNeeds(p, a.script); }
  }

  lemma KnownNeeds(p: Plan, t: seq<Action>)
    requires p.tun == Ready && KnownScript(p, t)
    ensures Needs(t) <= Closes(p)
  {
    if t == VTunLoop() || t == SocksLoop() || t == ServerLoop() {
      LoopNeeds(t[0]);
      assert t == [t[0], WgDone] && [t[0]][1..] == [];
    } else {
      PlainNeeds(t);
    }
  }

  lemma ClosableSetup(s: Sys)
    requires Inv(s) && Closable(s) && Enabled(s, StarterMoves) && s.pc < |Setup(s.plan)|
    ensures Closable(Do(s, StarterMoves))
  {
    SetupNeeds(s.plan, s.pc);
    SetupShape(s.plan, s.pc);
    assert Script(s.plan)[s.pc] == Setup(s.plan)[s.pc];
  }

  lemma ClosableEnding(s: Sys)
    requires Inv(s) && Closable(s) && Enabled(s, StarterMoves) && s.pc >= |Setup(s.plan)|
    ensures Closable(Do(s, StarterMoves))
  {
    EndingShape(s.plan, s.pc);
  }

  lemma ClosableTask(s: Sys, i: nat)
    requires Inv(s) && Closable(s) && Enabled(s, TaskMoves(i))
    ensures Closable(Do(s, TaskMoves(i)))
  {
    var t := s.tasks[i];
    assert TaskShape(t) && Needs(t) <= Closes(s.plan);
    assert Needs(t[1..]) <= Needs(t);
    TaskList(s, i);
    if t[0].SpawnHandler? { PlainNeeds(Handler(t[0].c)); }
  }

  /** The goroutines after one of them moved. */
  lemma TaskList(s: Sys, i: nat)
    requires Enabled(s, TaskMoves(i)) && TaskShape(s.tasks[i])
    ensures var t := s.tasks[i];
            var moved := s.tasks[i := t[1..]];
            && Do(s, TaskMoves(i)).tasks == (if t[0].SpawnHandler? then moved + [Handler(t[0].c)] else moved)
            && Do(s, TaskMoves(i)).plan == s.plan
  {
  }

  lemma ClosableStep(s: Sys, step: Step)
    requires Inv(s) && Closable(s) && Enabled(s, step)
    ensures Closable(Do(s, step))
  {
    match step {
      case StarterMoves => if s.pc < |Setup(s.plan)| { ClosableSetup(s); } else { ClosableEnding(s); }
      case TaskMoves(i) => ClosableTask(s, i);
      case ConnAccepted(i) =>
        assert Do(s, step).tasks[i][1..] == s.tasks[i];
        assert Needs(s.tasks[i]) <= Closes(s.plan);
      case _ =>
    }
  }

  /** Some goroutine that still has a closing ahead can take a step that is bound to happen. */
  lemma CloserIsBound(s: Sys, e: Effect) returns (i: nat)
    requires Inv(s) && s.cancelled && e in s.promised && e !in s.effects
    requires e == SocksListenerClosed || e == ServerClosed || e == VTunServerClosed
    ensures Bound(s, TaskMoves(i))
  {
    assert Kept(s, e);
    i :| 0 <= i < |s.tasks| && e in Promises(s.tasks[i]);
    assert TaskShape(s.tasks[i]);
    LoopsPromiseNoClosing(s.tasks[i], e);
  }

  /** Neither the server loops nor the accept loop closes a listener or a server. */
  lemma LoopsPromiseNoClosing(t: seq<Action>, e: Effect)
    requires TaskShape(t) && e in Promises(t)
    requires e == SocksListenerClosed || e == ServerClosed || e == VTunServerClosed
    ensures t != [] && !t[0].Serve? && !t[0].AcceptLoop?
  {
    if |t| == 2 {
      LoopPromises(t[0]);
      assert t == [t[0], WgDone];
    }
  }

  /** A cancelled session that is not complete has a step that is bound to happen. */
  lemma ShutdownProgress(s: Sys) returns (step: Step)
    requires Inv(s) && Closable(s) && s.cancelled && !Complete(s)
    ensures Bound(s, step)
  {
    if StarterRunning(s) && Script(s.plan)[s.pc] != AwaitGroup {
      step := StarterMoves;
    } else if s.counter == 0 {
      ZeroMeansIdle(s.tasks);
      step := if StarterRunning(s) then StarterMoves else WaiterMoves;
    } else {
      if StarterRunning(s) && s.pc < |Setup(s.plan)| { SetupShape(s.plan, s.pc); }
      step := TaskProgress(s);
    }
  }

  /** A goroutine, or the one that closes what it serves, has a step that is bound to happen. */
  lemma TaskProgress(s: Sys) returns (step: Step)
    requires Inv(s) && Closable(s) && s.cancelled && s.counter > 0 && Sealed(s)
    ensures Bound(s, step)
  {
    var i := PositiveTerm(Busy, s.tasks);
    step := TaskMoves(i);
    var t := s.tasks[i];
    assert TaskShape(t) && Needs(t) <= Closes(s.plan);
    if t[0].Serve? || t[0].AcceptLoop? {
      var e := if t[0].Serve? then t[0].until else SocksListenerClosed;
      assert e in Needs(t);
      ClosingPromised(s, e);
      if e !in s.effects {
        var j := CloserIsBound(s, e);
        step := TaskMoves(j);
      }
    }
  }

  lemma ClosingPromised(s: Sys, e: Effect)
    requires Inv(s) && Sealed(s) && e in Closes(s.plan)
    ensures e in s.promised && (e == SocksListenerClosed || e == ServerClosed || e == VTunServerClosed)
  {
    TunPromised(s);
    if s.plan.connects { PeerPromised(s); }
  }

  predicate AllBound(s: Sys, steps: seq<Step>)
    requires CanRun(s, steps)
    decreases |steps|
  {
    steps == [] || (Bound(s, steps[0]) && AllBound(Do(s, steps[0]), steps[1..]))
  }

  lemma BoundStepWorks(s: Sys, step: Step)
    requires Inv(s) && Bound(s, step)
    ensures Work(Do(s, step)) == Work(s) - 1
  {
    match step {
      case StarterMoves => WorkStarter(s);
      case TaskMoves(i) => WorkTask(s, i);
      case WaiterMoves =>
    }
  }

  /** Such steps alone take a cancelled session to its end. */
  lemma {:induction false} ShutdownCompletes(s: Sys) returns (steps: seq<Step>)
    requires Inv(s) && Closable(s) && s.cancelled
    ensures CanRun(s, steps) && AllBound(s, steps) && Complete(After(s, steps))
    decreases Work(s)
  {
    if Complete(s) {
      steps := [];
    } else {
      var step := ShutdownProgress(s);
      InvStep(s, step);
      ClosableStep(s, step);
      BoundStepWorks(s, step);
      var rest := ShutdownCompletes(Do(s, step));
      steps := [step] + rest;
      assert steps[1..] == rest;
    }
  }

  lemma {:induction false} ClosableRun(s: Sys, steps: seq<Step>)
    requires Inv(s) && Closable(s) && CanRun(s, steps)
    ensures Closable(After(s, steps))
    decreases |steps|
  {
    if steps != [] {
      InvStep(s, steps[0]);
      ClosableStep(s, steps[0]);
      ClosableRun(Do(s, steps[0]), steps[1..]);
    }
  }

  /** Every run of steps that are bound to happen uses up one unit of work with each, and as long as
      it has not reached the end another such step is possible. */
  lemma {:induction false} BoundRun(s: Sys, steps: seq<Step>)
    requires Inv(s) && Closable(s) && s.cancelled && CanRun(s, steps) && AllBound(s, steps)
    ensures |steps| + Work(After(s, steps)) == Work(s)
    ensures Complete(After(s, steps)) || exists step :: Bound(After(s, steps), step)
    decreases |steps|
  {
    if steps == [] {
      if !Complete(s) { var step := ShutdownProgress(s); assert Bound(s, step); }
    } else {
      InvStep(s, steps[0]);
      ClosableStep(s, steps[0]);
      BoundStepWorks(s, steps[0]);
      StepFrame(s, steps[0]);
      BoundRun(Do(s, steps[0]), steps[1..]);
    }
  }

  /** Wherever a session is cancelled, every run of steps that are bound to happen is at most as long
      as the work left, and if no such step is left, then `Start` has returned or panicked, all
      goroutines have finished, and `done` is closed exactly if `Start` succeeded. */
  lemma CancelledSessionEnds(p: Plan, steps: seq<Step>, more: seq<Step>)
    requires CanRun(Init(p), steps) && After(Init(p), steps).cancelled
    requires CanRun(After(Init(p), steps), more) && AllBound(After(Init(p), steps), more)
    ensures var s := After(Init(p), steps);
            var s' := After(s, more);
            && |more| + Work(s') == Work(s)
            && ((forall step :: !Bound(s', step)) ==>
                  Complete(s') && s'.outcome != Pending && (s'.outcome == Started <==> s'.doneCloses == 1))
  {
    Reachable(p, steps);
    ClosableRun(Init(p), steps);
    var s := After(Init(p), steps);
    BoundRun(s, more);
    InvRun(s, more);
    PlanKept(s, more);
    var s' := After(s, more);
    if Complete(s') { CompleteOutcome(s'); }
  }

  lemma CompleteOutcome(s: Sys)
    requires Inv(s) && Complete(s)
    ensures s.outcome != Pending && (s.outcome == Started <==> s.doneCloses == 1)
  {
    var n := |Script(s.plan)|;
    assert Happened(s, Script(s.plan)[n - 1]);
    EndingShape(s.plan, n - 1);
    if s.plan.tun == Ready && s.plan.connects {
      assert Script(s.plan)[n - 2] == SpawnWaiter && Happened(s, Script(s.plan)[n - 2]);
    }
  }
}
