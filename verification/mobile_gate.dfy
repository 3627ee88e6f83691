/** The mobile client behind the view model's busy gate (MainViewModel.kt), where calls do not
    overlap. */
module MobileGate {
  import opened Sequences
  import opened MobileClient

  /** The client, the gate, and the status the user sees. */
  datatype View = View(world: World, busy: bool, status: Status)

  datatype ViewStep = Launch(action: Action) | Run(i: nat, outcome: Outcome) | Refresh

  predicate ViewEnabled(v: View, s: ViewStep) {
    match s
    case Launch(_) => true
    case Run(i, outcome) => Enabled(v.world, Advance(i, outcome))
    case Refresh => v.busy && Resting(v.world)
  }

  function ViewDo(v: View, s: ViewStep): View
    requires ViewEnabled(v, s)
  {
    match s
    case Launch(action) => if v.busy then v else View(Do(v.world, Begin(action)), true, v.status)
    case Run(i, outcome) => v.(world := Do(v.world, Advance(i, outcome)))
    case Refresh => v.(busy := false, status := v.world.data.status)
  }

  function InitView(): View { View(Init(), false, NewClient().status) }

  predicate ViewCanRun(v: View, steps: seq<ViewStep>)
    decreases |steps|
  {
    steps == [] || (ViewEnabled(v, steps[0]) && ViewCanRun(ViewDo(v, steps[0]), steps[1..]))
  }

  function ViewAfter(v: View, steps: seq<ViewStep>): View
    requires ViewCanRun(v, steps)
    decreases |steps|
  {
    if steps == [] then v else ViewAfter(ViewDo(v, steps[0]), steps[1..])
  }

  /** What holds while the only call is where `c` says. */
  predicate Fits(d: Data, c: Call) {
    match c
    case Called(_) => Settled(d)
    case Dialing => d.session.None? && d.status.Connecting?
    case Installing(_) => d.session.None? && d.status.Connecting?
    case TookNone => d.session.None? && d.status.Disconnecting?
    case Stopping(_) => d.session.None? && d.status.Disconnecting?
    case Halted => d.session.None? && d.status.Disconnecting?
    case Using(_) => d.session.Some? && Settled(d)
    case Returned => Settled(d)
  }

  /** The call in flight, if there is one, is the last one begun. */
  ghost predicate Gated(v: View) {
    && Conserved(v.world) && !AnyOrphan(v.world)
    && var calls := v.world.calls;
       && (forall i :: 0 <= i < |calls| - 1 ==> calls[i].Returned?)
       && Fits(v.world.data, if calls == [] then Returned else calls[|calls| - 1])
       && (!v.busy ==> Resting(v.world) && v.status == v.world.data.status)
  }

  lemma GatedStep(v: View, s: ViewStep)
    requires Gated(v) && ViewEnabled(v, s)
    ensures Gated(ViewDo(v, s))
  {
    match s
    case Launch(action) => ConservedStep(v.world, Begin(action));
    case Run(i, outcome) => ConservedStep(v.world, Advance(i, outcome));
    case Refresh =>
  }

  lemma {:induction false} GatedRun(v: View, steps: seq<ViewStep>)
    requires Gated(v) && ViewCanRun(v, steps)
    ensures Gated(ViewAfter(v, steps))
    decreases |steps|
  {
    if steps != [] {
      GatedStep(v, steps[0]);
      GatedRun(ViewDo(v, steps[0]), steps[1..]);
    }
  }

  /** A session that was not stopped is current or in the hands of the call in flight. */
  lemma UnstoppedPlace(v: View, id: nat)
    requires Gated(v) && id < v.world.data.created && id !in v.world.data.stopped
    ensures var d, calls := v.world.data, v.world.calls;
            d.session == Some(id) ||
            (d.session.None? && calls != [] &&
             (calls[|calls| - 1] == Installing(id) || calls[|calls| - 1] == Stopping(id)))
  {
    var w := v.world;
    assert !Orphaned(w, id);
    assert id in multiset(w.data.stopped) <==> id in w.data.stopped;
    if w.data.session != Some(id) {
      var i := PositiveTerm(Holding(id), w.calls);
    }
  }

  /** Behind the gate no two calls are in flight, at most one session is unstopped, and at rest the
      user sees the client's status, which says whether a session exists, every other session
      having been stopped exactly once. */
  lemma GateSerializes(steps: seq<ViewStep>)
    requires ViewCanRun(InitView(), steps)
    ensures var v := ViewAfter(InitView(), steps);
            var d, calls := v.world.data, v.world.calls;
            && (forall i, j :: 0 <= i < j < |calls| ==> calls[i].Returned? || calls[j].Returned?)
            && (forall a: nat, b: nat ::
                  (a < d.created && b < d.created && a !in d.stopped && b !in d.stopped) ==> a == b)
            && (!v.busy ==> v.status == d.status && Settled(d))
            && (forall c <- calls :: c.Dialing? || c.Installing? ==> d.status.Connecting? && d.session.None?)
            && (forall c <- calls :: c.TookNone? || c.Stopping? || c.Halted? ==>
                  d.status.Disconnecting? && d.session.None?)
            && (!v.busy ==> forall id: nat :: id < d.created ==>
                  multiset(d.stopped)[id] == if d.session == Some(id) then 0 else 1)
  {
    InitConserved();
    GatedRun(InitView(), steps);
    var v := ViewAfter(InitView(), steps);
    var d := v.world.data;
    forall a: nat, b: nat | a < d.created && b < d.created && a !in d.stopped && b !in d.stopped
      ensures a == b
    {
      UnstoppedPlace(v, a);
      UnstoppedPlace(v, b);
    }
    if !v.busy {
      forall id: nat | id < d.created
        ensures multiset(d.stopped)[id] == if d.session == Some(id) then 0 else 1
      {
        assert Places(v.world, id) <= 1;
        if id !in d.stopped { UnstoppedPlace(v, id); }
        assert id in multiset(d.stopped) <==> id in d.stopped;
      }
    }
  }

  // ---- one call at a time ----

  /** What a call that nothing interrupts does. */
  function Performed(d: Data, action: Action, outcome: Outcome): Data {
    match action
    case Connect =>
      if d.session.Some? then d
      else if outcome.Succeeds? then Data(Some(d.created), Connected, d.created + 1, d.stopped)
      else d.(status := ConnectFailed(outcome.message))
    case Disconnect =>
      d.(session := None, status := Idle,
         stopped := if d.session.Some? then d.stopped + [d.session.value] else d.stopped)
    case Use(ping) =>
      if d.session.None? then d
      else d.(status := if outcome.Succeeds? then Connected else UseFailed(ping, outcome.message))
  }

  /** How many sections a call may still have before it. */
  function Rank(c: Call): nat {
    match c
    case Called(_) => 4
    case Dialing => 3
    case Installing(_) => 2
    case TookNone => 2
    case Stopping(_) => 3
    case Halted => 2
    case Using(_) => 2
    case Returned => 0
  }

  /** The data once a call that is at `c` has run to its end. */
  function Pending(d: Data, c: Call, outcome: Outcome): Data
    decreases Rank(c)
  {
    if c.Returned? then d
    else var (d', c') := Section(d, c, outcome); Pending(d', c', outcome)
  }

  lemma PendingPerformed(d: Data, action: Action, outcome: Outcome)
    ensures Pending(d, Called(action), outcome) == Performed(d, action, outcome)
  {
    var (d1, c1) := Section(d, Called(action), outcome);
    var (d2, c2) := Section(d1, c1, outcome);
    assert Pending(d1, c1, outcome) == if c1.Returned? then d1 else Pending(d2, c2, outcome);
  }

  /** Advancing one call until it returns. */
  lemma PerformedIsARun(w: World, action: Action, outcome: Outcome) returns (steps: seq<Step>)
    ensures CanRun(w, steps)
    ensures After(w, steps) == World(Performed(w.data, action, outcome), w.calls + [Returned])
    ensures var d, d' := w.data, After(w, steps).data;
            match action
            case Connect =>
              if d.session.Some? then d' == d
              else if outcome.Fails? then d' == d.(status := ConnectFailed(outcome.message))
              else d'.session == Some(d.created) && d'.status == Connected && d'.created == d.created + 1
            case Disconnect =>
              && d'.session == None && d'.status == Idle
              && d'.stopped == d.stopped + if d.session.Some? then [d.session.value] else []
            case Use(ping) =>
              && d'.session == d.session && d'.stopped == d.stopped
              && d'.status == if d.session.None? then d.status
                              else if outcome.Succeeds? then Connected
                              else UseFailed(ping, outcome.message)
  {
    var n := |w.calls|;
    var a := Advance(n, outcome);
    steps := [];
    Extend(w, steps, Begin(action)); steps := steps + [Begin(action)];
    PendingPerformed(w.data, action, outcome);
    while !After(w, steps).calls[n].Returned?
      invariant CanRun(w, steps)
      invariant |After(w, steps).calls| == n + 1 && After(w, steps).calls[..n] == w.calls
      invariant Pending(After(w, steps).data, After(w, steps).calls[n], outcome)
                == Performed(w.data, action, outcome)
      decreases Rank(After(w, steps).calls[n])
    {
      Extend(w, steps, a);
      steps := steps + [a];
    }
    assert After(w, steps).calls == w.calls + [Returned];
  }

  /** The client object: each method is one critical section or a whole call. */
  class Client {
    var session: Option<nat>
    var status: Status
    var created: nat         // sessions dialled
    var stopped: seq<nat>    // sessions on which Stop and Wait were called

    function Contents(): Data
      reads this
    {
      Data(session, status, created, stopped)
    }

    constructor ()
      ensures Contents() == NewClient()
    {
      session, status, created, stopped := None, Idle, 0, [];
    }

    /** The check at the start of `Connect`. */
    method Check() returns (free: bool)
      modifies `status
      ensures free == old(session).None?
      ensures status == if free then Connecting else old(status)
    {
      if session.Some? {
        return false;
      }
      status := Connecting;
      return true;
    }

    method TakeSession() returns (taken: Option<nat>)
      modifies `session, `status
      ensures taken == old(session) && session == None && status == Disconnecting
    {
      taken := session;
      session := None;
      status := Disconnecting;
    }

    method SetStatus(next: Status)
      modifies `status
      ensures status == next
    {
      status := next;
    }

    method Connect(dial: Outcome) returns (ok: bool)
      modifies this
      ensures Contents() == Performed(old(Contents()), Action.Connect, dial)
      ensures ok == (old(session).None? && dial.Succeeds?)
      ensures old(session).Some? ==> session == old(session) && status == old(status)
      ensures old(session).None? && dial.Fails? ==> session == None && status == ConnectFailed(dial.message)
      ensures ok ==> session == Some(old(created)) && status == Connected && created == old(created) + 1
    {
      var free := Check();
      if !free {
        return false;
      }
      if dial.Fails? {
        SetStatus(ConnectFailed(dial.message));
        return false;
      }
      var id := created;
      created := created + 1;
      session := Some(id);
      status := Connected;
      return true;
    }

    method Disconnect()
      modifies this
      ensures Contents() == Performed(old(Contents()), Action.Disconnect, Succeeds)
      ensures session == None && status == Idle
      ensures stopped == old(stopped) + if old(session).Some? then [old(session).value] else []
    {
      var taken := TakeSession();
      if taken.None? {
        SetStatus(Idle);
        return;
      }
      stopped := stopped + [taken.value];
      status := Idle;
    }

    /** `Request` and `Ping`. */
    method Use(ping: bool, answer: Outcome) returns (ok: bool)
      modifies `status
      ensures Contents() == Performed(old(Contents()), Action.Use(ping), answer)
      ensures ok == (old(session).Some? && answer.Succeeds?)
      ensures session == old(session) && stopped == old(stopped)
      ensures old(session).None? ==> status == old(status)
      ensures old(session).Some? ==> status == if answer.Succeeds? then Connected else UseFailed(ping, answer.message)
    {
      if session.None? {
        return false;
      }
      if answer.Fails? {
        SetStatus(UseFailed(ping, answer.message));
        return false;
      }
      SetStatus(Connected);
      return true;
    }
  }

  /** The view model around one client. */
  class MainViewModel {
    const client: Client
    var busy: bool
    var status: Status

    ghost predicate AtRest()
      reads this, client
    {
      !busy && status == client.status && Settled(client.Contents())
    }

    constructor ()
      ensures fresh(client) && AtRest() && client.Contents() == NewClient()
    {
      var c := new Client();
      client := c;
      busy := false;
      status := c.status;
    }

    /** One action from the click to the refresh; nothing at all while another one is running. */
    method LaunchAction(action: Action, outcome: Outcome)
      modifies this, client
      ensures old(busy) ==> busy && status == old(status) && client.Contents() == old(client.Contents())
      ensures !old(busy) ==>
                !busy && status == client.status
                && client.Contents() == Performed(old(client.Contents()), action, outcome)
      ensures old(AtRest()) ==> AtRest()
    {
      if busy {
        return;
      }
      busy := true;
      match action {
        case Connect => var _ := client.Connect(outcome);
        case Disconnect => client.Disconnect();
        case Use(ping) => var _ := client.Use(ping, outcome);
      }
      RefreshClientState();
    }

    method RefreshClientState()
      modifies this
      ensures !busy && status == client.status
    {
      status := client.status;
      busy := false;
    }
  }
}
