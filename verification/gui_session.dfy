/** The GUI object: its methods change its fields as gui/main.go does, and each is proved to take
    the corresponding steps of the transition system. */
module GuiSession {
  import opened Sequences
  import opened GuiWorld
  import opened GuiExclusion

  function Repeat(s: Step, n: nat): (steps: seq<Step>)
    ensures |steps| == n
    ensures forall k :: 0 <= k < n ==> steps[k] == s
  {
    if n == 0 then [] else [s] + Repeat(s, n - 1)
  }

  /** The clicks of one frame in the order `handleActions` polls the buttons. */
  function Clicks(starts: nat, stops: nat, requests: nat, pings: nat): seq<Step> {
    Repeat(StartClicked, starts) + Repeat(StopClicked, stops) +
    Repeat(RequestClicked, requests) + Repeat(PingClicked, pings)
  }

  lemma {:induction false} ClicksCanRun(w: World, steps: seq<Step>)
    requires w.phase == Acting && AllClicks(steps)
    ensures CanRun(w, steps) && After(w, steps).phase == Acting
    decreases |steps|
  {
    if steps != [] {
      assert IsClick(steps[0]);
      ClicksCanRun(Do(w, steps[0]), steps[1..]);
    }
  }

  lemma {:induction false} RepeatMore(w: World, s: Step, n: nat)
    requires w.phase == Acting && IsClick(s)
    ensures CanRun(w, Repeat(s, n)) && CanRun(w, Repeat(s, n + 1))
    ensures After(w, Repeat(s, n)).phase == Acting
    ensures After(w, Repeat(s, n + 1)) == Do(After(w, Repeat(s, n)), s)
    decreases n
  {
    assert Repeat(s, n + 1)[1..] == Repeat(s, n);
    if n == 0 {
      assert CanRun(Do(w, s), []);
    } else {
      assert Repeat(s, n)[1..] == Repeat(s, n - 1);
      RepeatMore(Do(w, s), s, n - 1);
    }
  }

  /** Draining step by step is `ApplyAll`. */
  lemma {:induction false} DrainRun(w: World)
    requires w.phase == Draining
    ensures CanRun(w, Repeat(DrainOne, |w.queue|))
    ensures After(w, Repeat(DrainOne, |w.queue|)) == w.(ui := ApplyAll(w.ui, w.queue), queue := [])
    decreases |w.queue|
  {
    if w.queue != [] {
      assert Repeat(DrainOne, |w.queue|)[1..] == Repeat(DrainOne, |w.queue| - 1);
      DrainRun(Do(w, DrainOne));
    }
  }

  predicate AllClicks(steps: seq<Step>) { forall k :: 0 <= k < |steps| ==> IsClick(steps[k]) }

  /** The world after the clicks of one frame. */
  function Clicked(w: World, clicks: seq<Step>): World
    requires w.phase == Layout && AllClicks(clicks)
  {
    var w1 := Do(w, BeginFrame(w.ui.mode, w.ui.tunType));
    ClicksCanRun(w1, clicks);
    After(w1, clicks)
  }

  /** The world after the queue was drained. */
  function Drained(w: World): World {
    w.(phase := Layout, ui := ApplyAll(w.ui, w.queue), queue := [])
  }

  lemma FourRuns(w: World, a: seq<Step>, b: seq<Step>, c: seq<Step>, d: seq<Step>)
    requires CanRun(w, a) && CanRun(After(w, a), b) && CanRun(After(After(w, a), b), c)
    requires CanRun(After(After(After(w, a), b), c), d)
    ensures CanRun(w, a + b + c + d) && After(w, a + b + c + d) == After(After(After(After(w, a), b), c), d)
  {
    RunConcat(w, a, b);
    RunConcat(w, a + b, c);
    RunConcat(w, a + b + c, d);
  }

  lemma DrainedStep(w: World)
    requires Enabled(w, DrainOne)
    ensures Do(w, DrainOne) == w.(ui := Apply(w.ui, w.queue[0]), queue := w.queue[1..])
    ensures Drained(Do(w, DrainOne)) == Drained(w) && Do(w, DrainOne).phase == Draining
  {
  }

  /** A background step, if it is possible. */
  function Try(w: World, s: Step): World { if IsBackground(s) && Enabled(w, s) then Do(w, s) else w }

  function TryAll(w: World, steps: seq<Step>): World
    decreases |steps|
  {
    if steps == [] then w else TryAll(Try(w, steps[0]), steps[1..])
  }

  /** `run` leads from `w` to `w'`. */
  ghost predicate Ran(w: World, run: seq<Step>, w': World) { CanRun(w, run) && After(w, run) == w' }

  lemma RanMore(w: World, run: seq<Step>, w': World, s: Step) returns (longer: seq<Step>)
    requires Ran(w, run, w') && Enabled(w', s)
    ensures Ran(w, longer, Do(w', s))
  {
    longer := run + [s];
    assert [s][1..] == [] && CanRun(Do(w', s), []);
    RunConcat(w, run, [s]);
  }

  lemma {:induction false} RanTries(w: World, run: seq<Step>, w': World, steps: seq<Step>) returns (longer: seq<Step>)
    requires Ran(w, run, w')
    ensures Ran(w, longer, TryAll(w', steps))
    decreases |steps|
  {
    longer := run;
    if steps != [] {
      if IsBackground(steps[0]) && Enabled(w', steps[0]) { longer := RanMore(w, run, w', steps[0]); }
      longer := RanTries(w, longer, Try(w', steps[0]), steps[1..]);
    }
  }

  lemma {:induction false} TriesKeep(w: World, steps: seq<Step>)
    ensures TryAll(w, steps).phase == w.phase && (Safe(w) ==> Safe(TryAll(w, steps)))
    decreases |steps|
  {
    if steps != [] {
      var w' := Try(w, steps[0]);
      if IsBackground(steps[0]) && Enabled(w, steps[0]) && Safe(w) { SafeStep(w, steps[0]); }
      TriesKeep(w', steps[1..]);
    }
  }

  /** A frame of clicks, background steps, and a drain with background steps in between keeps the
      invariant. */
  lemma FrameIsSafe(w: World, clicks: seq<Step>, first: seq<Step>, drain: seq<Step>)
    requires w.phase == Layout && AllClicks(clicks) && Safe(w)
    requires CanRun(BeginsDrain(w, clicks, first), drain)
    requires var end := After(BeginsDrain(w, clicks, first), drain); end.phase == Draining && end.queue == []
    ensures Safe(After(BeginsDrain(w, clicks, first), drain).(phase := Layout))
  {
    var begin := BeginFrame(w.ui.mode, w.ui.tunType);
    SafeStep(w, begin);
    var w1 := Do(w, begin);
    ClicksCanRun(w1, clicks);
    SafeRun(w1, clicks);
    var w2 := After(w1, clicks);
    TriesKeep(w2, first);
    SafeStep(TryAll(w2, first), BeginDrain);
    var w3 := BeginsDrain(w, clicks, first);
    SafeRun(w3, drain);
    SafeStep(After(w3, drain), EndDrain);
  }

  /** The clicks of a frame and what the background does before the drain. */
  function BeginsDrain(w: World, clicks: seq<Step>, first: seq<Step>): World
    requires w.phase == Layout && AllClicks(clicks)
  {
    TryAll(Clicked(w, clicks), first).(phase := Draining)
  }

  class Gui {
    var session: Option<nat>
    var vtun: Option<nat>
    var starting: bool
    var stopping: bool
    var running: bool
    var status: Status
    var lastEvent: Text
    var requesting: bool
    var pinging: bool
    var resultText: string
    var mode: Mode
    var tunType: TunType

    var updates: seq<Update>         // the buffered channel
    var goroutines: seq<Goroutine>   // started with `go`
    var stopRequested: set<nat>      // sessions whose `Stop` was called
    var dropped: nat                 // warnings logged about a full queue

    var phase: Phase                 // where the UI thread is
    var lost: nat                    // dropped updates of a start in progress
    var live: set<nat>               // sessions whose `Wait` has not been released
    var nextId: nat

    function UiState(): Ui
      reads this
    {
      Ui(session, vtun, starting, stopping, running, status, lastEvent, requesting, pinging,
         resultText, mode, tunType)
    }

    function State(): World
      reads this
    {
      World(UiState(), phase, updates, dropped, lost, goroutines, live, stopRequested, nextId)
    }

    constructor ()
      ensures State() == Init()
      ensures session == vtun == None && !starting && !stopping && !running && !requesting && !pinging
      ensures status == Idle && lastEvent == Ready && resultText == "" && mode == ServerMode && tunType == VTunHttp
      ensures updates == [] && goroutines == []
    {
      session, vtun := None, None;
      starting, stopping, running := false, false, false;
      status, lastEvent := Idle, Ready;
      requesting, pinging, resultText := false, false, "";
      mode, tunType := ServerMode, VTunHttp;
      updates, goroutines, stopRequested, dropped := [], [], {}, 0;
      phase, lost, live, nextId := Layout, 0, {}, 0;
    }

    method Enqueue(update: Update)
      modifies `updates, `dropped, `lost
      ensures State() == GuiWorld.Enqueue(old(State()), update)
    {
      if |updates| < QUEUE_CAPACITY {
        updates := updates + [update];
      } else {
        dropped := dropped + 1;
        lost := if IsLifecycle(update) && !UiState().CanStart() then lost + 1 else lost;
      }
    }

    method StartSession()
      modifies `starting, `stopping, `status, `lastEvent, `goroutines, `updates, `dropped, `lost
      ensures State() == ClickStart(old(State()))
    {
      if starting || session.Some? {
        return;
      }
      if tunType == VTunOnly && mode != ClientMode {
        Enqueue(FailedUpdate(VTunNeedsClientMode));
        return;
      }
      Launch(mode == ClientMode && tunType == VTunOnly);
    }

    /** The rest of `startSession`: the flags of a start, and its starter. */
    method Launch(vtunClient: bool)
      modifies `starting, `stopping, `status, `lastEvent, `goroutines
      ensures UiState() == old(UiState()).(starting := true, stopping := false, status := Starting,
                                           lastEvent := StartingSession)
      ensures goroutines == old(goroutines) + [Dialing(vtunClient)]
    {
      starting := true;
      stopping := false;
      status := Starting;
      lastEvent := StartingSession;
      goroutines := goroutines + [Dialing(vtunClient)];
    }

    method StopSession()
      modifies `starting, `stopping, `status, `lastEvent, `stopRequested
      ensures State() == ClickStop(old(State()))
    {
      if session.None? || stopping {
        return;
      }
      stopping := true;
      starting := false;
      status := Stopping;
      lastEvent := StoppingSession;
      stopRequested := stopRequested + {session.value};
    }

    method RunVTunRequest()
      modifies `requesting, `lastEvent, `goroutines
      ensures State() == ClickRequest(old(State()))
    {
      if vtun.None? || requesting {
        return;
      }
      requesting := true;
      lastEvent := RunningRequest;
      goroutines := goroutines + [Requesting(vtun.value)];
    }

    method RunVTunPing()
      modifies `pinging, `lastEvent, `goroutines
      ensures State() == ClickPing(old(State()))
    {
      if vtun.None? || pinging {
        return;
      }
      pinging := true;
      lastEvent := RunningPing;
      goroutines := goroutines + [Pinging(vtun.value)];
    }

    method Receive(update: Update)
      modifies `session, `vtun, `starting, `stopping, `running, `status, `lastEvent,
               `requesting, `pinging, `resultText
      ensures UiState() == Apply(old(UiState()), update)
    {
      if update.err.Some? {
        session, vtun := None, None;
        starting, stopping, running := false, false, false;
        status := update.status;
        lastEvent := update.err.value;
        return;
      }
      if update.session.Some? {
        session, vtun := update.session, update.vtun;
        starting, stopping, running := false, false, true;
        status := update.status;
        if update.event.Some? {
          lastEvent := update.event.value;
        } else {
          lastEvent := SessionRunning;
        }
        if update.result != "" {
          resultText := update.result;
        }
        return;
      }
      if update.stopped {
        session, vtun := None, None;
        starting, stopping, running := false, false, false;
        requesting, pinging := false, false;
        status := update.status;
        lastEvent := SessionStopped;
        if update.result != "" {
          resultText := update.result;
        }
        return;
      }
      if update.result != "" || update.event.Some? {
        if update.result != "" {
          resultText := update.result;
        }
        if update.event.Some? {
          lastEvent := update.event.value;
        }
        requesting, pinging := false, false;
      }
    }

    /** A goroutine reports `update` and goes on as `g`. */
    method Report(i: nat, g: Goroutine, update: Update)
      requires i < |goroutines|
      modifies `goroutines, `updates, `dropped, `lost
      ensures State() == GuiWorld.Enqueue(old(State()).(gos := old(goroutines)[i := g]), update)
    {
      goroutines := goroutines[i := g];
      Enqueue(update);
    }

    /** One step of a goroutine or the end of a session, if it is possible. */
    method Background(s: Step)
      modifies `goroutines, `updates, `dropped, `lost, `live, `nextId
      ensures State() == Try(old(State()), s)
    {
      if !IsBackground(s) || !Enabled(State(), s) {
        return;
      }
      match s {
        case DialFails(i, message) => Report(i, Exited, FailedUpdate(message));
        case DialSucceeds(i) =>
          goroutines := goroutines[i := Handing(nextId, goroutines[i].vtun)];
          live, nextId := live + {nextId}, nextId + 1;
        case HandsOver(i) =>
          Report(i, Waiting(goroutines[i].id), StartedUpdate(goroutines[i].id, goroutines[i].vtun));
        case SessionEnds(id) => live := live - {id};
        case WaiterReports(i) => Report(i, Exited, StoppedUpdate());
        case ToolReports(i, result, event) => Report(i, Exited, ToolUpdate(status, result, event));
      }
    }

    method BackgroundAll(steps: seq<Step>)
      modifies `goroutines, `updates, `dropped, `lost, `live, `nextId
      ensures State() == TryAll(old(State()), steps)
    {
      for k := 0 to |steps|
        invariant TryAll(State(), steps[k..]) == TryAll(old(State()), steps)
      {
        assert steps[k..][1..] == steps[k + 1..];
        Background(steps[k]);
      }
    }

    /** Takes the first update off the channel and applies it. */
    method ReceiveNext()
      requires phase == Draining && updates != []
      modifies `updates, `session, `vtun, `starting, `stopping, `running, `status, `lastEvent,
               `requesting, `pinging, `resultText
      ensures State() == old(State()).(ui := Apply(old(UiState()), old(updates)[0]), queue := old(updates)[1..])
    {
      var update := updates[0];
      updates := updates[1..];
      Receive(update);
    }

    /** Receives until the queue is empty. Before each look at the queue the background acts: `others`
        says how, and it is at rest when that list is over. */
    method ApplyUpdates(others: seq<seq<Step>>) returns (ghost run: seq<Step>)
      requires phase == Draining
      modifies this
      ensures updates == [] && phase == Draining
      ensures Ran(old(State()), run, State())
      ensures others == [] ==> Drained(State()) == Drained(old(State()))
    {
      ghost var w := State();
      var k := 0;
      run := [];
      while true
        invariant 0 <= k <= |others| && phase == Draining
        invariant Ran(w, run, State())
        invariant others == [] ==> Drained(State()) == Drained(w)
        decreases |others| - k, |updates|
      {
        if k < |others| {
          run := RanTries(w, run, State(), others[k]);
          TriesKeep(State(), others[k]);
          BackgroundAll(others[k]);
          k := k + 1;
        }
        if updates == [] {
          return;
        }
        run := RanMore(w, run, State(), DrainOne);
        DrainedStep(State());
        ReceiveNext();
      }
    }

    /** `handleActions`, given how often each button was clicked since the last frame. */
    method HandleActions(starts: nat, stops: nat, requests: nat, pings: nat)
      requires phase == Layout
      modifies this
      ensures State() == Clicked(old(State()),
                                 Repeat(StartClicked, starts) + Repeat(StopClicked, stops) +
                                 Repeat(RequestClicked, requests) + Repeat(PingClicked, pings))
    {
      phase := Acting;
      ghost var w0 := State();
      PollStart(starts);
      PollStop(stops);
      PollRequest(requests);
      PollPing(pings);
      FourRuns(w0, Repeat(StartClicked, starts), Repeat(StopClicked, stops),
               Repeat(RequestClicked, requests), Repeat(PingClicked, pings));
    }

    method PollStart(clicks: nat)
      requires phase == Acting
      modifies this
      ensures phase == Acting && CanRun(old(State()), Repeat(StartClicked, clicks))
      ensures State() == After(old(State()), Repeat(StartClicked, clicks))
    {
      ghost var w := State();
      for k := 0 to clicks
        invariant phase == Acting
        invariant CanRun(w, Repeat(StartClicked, k)) && State() == After(w, Repeat(StartClicked, k))
      {
        RepeatMore(w, StartClicked, k);
        StartSession();
      }
    }

    method PollStop(clicks: nat)
      requires phase == Acting
      modifies this
      ensures phase == Acting && CanRun(old(State()), Repeat(StopClicked, clicks))
      ensures State() == After(old(State()), Repeat(StopClicked, clicks))
    {
      ghost var w := State();
      for k := 0 to clicks
        invariant phase == Acting
        invariant CanRun(w, Repeat(StopClicked, k)) && State() == After(w, Repeat(StopClicked, k))
      {
        RepeatMore(w, StopClicked, k);
        StopSession();
      }
    }

    method PollRequest(clicks: nat)
      requires phase == Acting
      modifies this
      ensures phase == Acting && CanRun(old(State()), Repeat(RequestClicked, clicks))
      ensures State() == After(old(State()), Repeat(RequestClicked, clicks))
    {
      ghost var w := State();
      for k := 0 to clicks
        invariant phase == Acting
        invariant CanRun(w, Repeat(RequestClicked, k)) && State() == After(w, Repeat(RequestClicked, k))
      {
        RepeatMore(w, RequestClicked, k);
        RunVTunRequest();
      }
    }

    method PollPing(clicks: nat)
      requires phase == Acting
      modifies this
      ensures phase == Acting && CanRun(old(State()), Repeat(PingClicked, clicks))
      ensures State() == After(old(State()), Repeat(PingClicked, clicks))
    {
      ghost var w := State();
      for k := 0 to clicks
        invariant phase == Acting
        invariant CanRun(w, Repeat(PingClicked, k)) && State() == After(w, Repeat(PingClicked, k))
      {
        RepeatMore(w, PingClicked, k);
        RunVTunPing();
      }
    }

    /** The part of a frame event between taking it and laying out, the background acting as `first`
        says before the drain and as `others` says during it. */
    method Frame(starts: nat, stops: nat, requests: nat, pings: nat, first: seq<Step>, others: seq<seq<Step>>)
      requires phase == Layout
      modifies this
      ensures phase == Layout && updates == []
      ensures Safe(old(State())) ==> Safe(State())
      ensures first == [] && others == [] ==>
                State() == Drained(Clicked(old(State()), Clicks(starts, stops, requests, pings)))
    {
      ghost var w, clicks := State(), Clicks(starts, stops, requests, pings);
      HandleActions(starts, stops, requests, pings);
      BackgroundAll(first);
      TriesKeep(Clicked(w, clicks), first);
      phase := Draining;
      ghost var drain := ApplyUpdates(others);
      if Safe(w) { FrameIsSafe(w, clicks, first, drain); }
      phase := Layout;
    }
  }
}
