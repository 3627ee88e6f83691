/** The order in which the goroutines of a session close things. */
module RunnerOrder {
  import opened Sequences
  import opened RunnerSystem
  import opened RunnerSafety

  /** What has to come first: the link is stopped before the connection or the server under it is
      closed, and a SOCKS connection is served before it is closed. */
  function Before(e: Effect): set<Effect> {
    match e
    case TransportClosed => {LinkStopped}
    case ServerClosed => {LinkStopped}
    case ConnClosed(c) => {ConnServed(c)}
    case _ => {}
  }

  /** The rest of a script keeps the order, after what is `done`. */
  predicate InOrder(t: seq<Action>, done: set<Effect>) {
    t == [] ||
    match t[0]
    case Perform(e) => Before(e) <= done && InOrder(t[1..], done + {e})
    case _ => InOrder(t[1..], done)
  }

  lemma {:induction false} MoreDone(t: seq<Action>, done: set<Effect>, more: set<Effect>)
    requires InOrder(t, done) && done <= more
    ensures InOrder(t, more)
  {
    if t != [] {
      match t[0]
      case Perform(e) => MoreDone(t[1..], done + {e}, more + {e});
      case _ => MoreDone(t[1..], done, more);
    }
  }

  ghost predicate Ordered(s: Sys) {
    && (forall e <- s.effects :: Before(e) <= s.effects)
    && forall i :: 0 <= i < |s.tasks| ==> InOrder(s.tasks[i], s.effects)
  }

  lemma CloserInOrder(e: Effect, done: set<Effect>)
    requires Before(e) == {}
    ensures InOrder([AwaitCancel, Perform(e), WgDone], done)
  {
    assert [AwaitCancel, Perform(e), WgDone][1..] == [Perform(e), WgDone];
    assert [Perform(e), WgDone][1..] == [WgDone] && [WgDone][1..] == [];
    assert InOrder([WgDone], done + {e});
  }

  lemma PairInOrder(e: Effect, f: Effect, done: set<Effect>)
    requires Before(e) == {} && Before(f) <= {e}
    ensures InOrder([Perform(e), Perform(f), WgDone], done)
    ensures InOrder([AwaitCancel, Perform(e), Perform(f), WgDone], done)
  {
    assert [Perform(e), Perform(f), WgDone][1..] == [Perform(f), WgDone];
    assert [Perform(f), WgDone][1..] == [WgDone] && [WgDone][1..] == [];
    assert InOrder([WgDone], done + {e} + {f}) && InOrder([Perform(f), WgDone], done + {e});
    assert [AwaitCancel, Perform(e), Perform(f), WgDone][1..] == [Perform(e), Perform(f), WgDone];
  }

  lemma LoopInOrder(a: Action, done: set<Effect>)
    requires !a.Perform?
    ensures InOrder([a, WgDone], done)
  {
    assert [a, WgDone][1..] == [WgDone] && [WgDone][1..] == [];
  }

  lemma KnownInOrder(p: Plan, t: seq<Action>, done: set<Effect>)
    requires KnownScript(p, t)
    ensures InOrder(t, done)
  {
    CloserInOrder(DeviceClosed, done);
    CloserInOrder(VTunServerClosed, done);
    CloserInOrder(SocksListenerClosed, done);
    PairInOrder(LinkStopped, TransportClosed, done);
    PairInOrder(LinkStopped, ServerClosed, done);
    if |t| == 2 { LoopInOrder(t[0], done); }
  }

  lemma OrderedTask(s: Sys, i: nat)
    requires Inv(s) && Ordered(s) && Enabled(s, TaskMoves(i))
    ensures Ordered(Do(s, TaskMoves(i)))
  {
    var s', t := Do(s, TaskMoves(i)), s.tasks[i];
    assert TaskShape(t) && InOrder(t, s.effects);
    if t[0].SpawnHandler? {
      PairInOrder(ConnServed(t[0].c), ConnClosed(t[0].c), s.effects);
    } else {
      TaskAction(s, i);
      forall k | 0 <= k < |s.tasks| ensures InOrder(s'.tasks[k], s'.effects) {
        assert InOrder(s.tasks[k], s.effects);
        if k != i { MoreDone(s.tasks[k], s.effects, s'.effects); }
        else if t[0].Perform? { assert s'.effects == s.effects + {t[0].effect}; }
        else { MoreDone(t[1..], s.effects, s'.effects); }
      }
    }
  }

  lemma OrderedStarter(s: Sys)
    requires Inv(s) && Ordered(s) && Enabled(s, StarterMoves)
    ensures Ordered(Do(s, StarterMoves))
  {
    var s', p := Do(s, StarterMoves), s.plan;
    if s.pc < |Setup(p)| {
      SetupKnown(p, s.pc);
      assert Script(p)[s.pc] == Setup(p)[s.pc];
      if Setup(p)[s.pc].Register? { KnownInOrder(p, Setup(p)[s.pc].script, s.effects); }
    } else {
      EndingShape(p, s.pc);
    }
    forall k | 0 <= k < |s.tasks| ensures InOrder(s'.tasks[k], s'.effects) {
      assert InOrder(s.tasks[k], s.effects);
      MoreDone(s.tasks[k], s.effects, s'.effects);
    }
  }

  lemma {:induction false} OrderedRun(s: Sys, steps: seq<Step>)
    requires Inv(s) && Ordered(s) && CanRun(s, steps)
    ensures Ordered(After(s, steps))
    decreases |steps|
  {
    if steps != [] {
      InvStep(s, steps[0]);
      match steps[0] {
        case StarterMoves => OrderedStarter(s);
        case TaskMoves(i) => OrderedTask(s, i);
        case ConnAccepted(i) => assert Do(s, steps[0]).tasks[i][1..] == s.tasks[i];
        case _ =>
      }
      OrderedRun(Do(s, steps[0]), steps[1..]);
    }
  }

  /** In every run the link is stopped before the connection or the server is closed, and a SOCKS
      connection is closed only after it was served. */
  lemma ClosedInOrder(p: Plan, steps: seq<Step>)
    requires CanRun(Init(p), steps)
    ensures var s := After(Init(p), steps);
            && (TransportClosed in s.effects || ServerClosed in s.effects ==> LinkStopped in s.effects)
            && (forall c: nat :: ConnClosed(c) in s.effects ==> ConnServed(c) in s.effects)
  {
    InvInit(p);
    OrderedRun(Init(p), steps);
    var s := After(Init(p), steps);
    if TransportClosed in s.effects { assert Before(TransportClosed) <= s.effects; }
    if ServerClosed in s.effects { assert Before(ServerClosed) <= s.effects; }
    forall c: nat | ConnClosed(c) in s.effects ensures ConnServed(c) in s.effects {
      assert Before(ConnClosed(c)) <= s.effects;
    }
  }
}
