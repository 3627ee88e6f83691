/** The GUI session protocol as a transition system: one UI thread, background goroutines,
    and a lossy queue of 32 updates between them (gui/main.go). */
module GuiWorld {
  import opened Sequences

  const QUEUE_CAPACITY: nat := 32

  datatype Mode = ServerMode | ClientMode
  datatype TunType = NativeTun | VTunHttp | VTunSocks | VTunOnly
  datatype Status = Idle | Starting | Running | Stopping | Stopped | Failed

  /** The banner texts: the fixed ones by name, anything else as text. */
  datatype Text =
    | Ready | StartingSession | StoppingSession | SessionRunning | VTunClientRunning | SessionStopped
    | RunningRequest | RunningPing | VTunNeedsClientMode | Message(text: string)

  /** One message to the UI thread. Sessions are named by numbers. */
  datatype Update = Update(
    err: Option<Text>,
    session: Option<nat>,
    vtun: Option<nat>,
    stopped: bool,
    status: Status,
    result: string,
    event: Option<Text>)

  function FailedUpdate(message: Text): Update {
    Update(Some(message), None, None, false, Failed, "", None)
  }

  function StartedUpdate(id: nat, vtun: bool): Update {
    if vtun then Update(None, Some(id), Some(id), false, Running, "", Some(VTunClientRunning))
    else Update(None, Some(id), None, false, Running, "", None)
  }

  function StoppedUpdate(): Update {
    Update(None, None, None, true, Stopped, "", None)
  }

  function ToolUpdate(status: Status, result: string, event: Text): Update {
    Update(None, None, None, false, status, result, Some(event))
  }

  predicate IsFailed(u: Update) { u.err.Some? }
  predicate IsStarted(u: Update) { u.err.None? && u.session.Some? }
  predicate IsStopped(u: Update) { u.err.None? && u.session.None? && u.stopped }
  predicate IsLifecycle(u: Update) { u.err.Some? || u.session.Some? || u.stopped }

  /** The fields of the GUI that only its own thread writes. */
  datatype Ui = Ui(
    session: Option<nat>,
    vtun: Option<nat>,
    starting: bool,
    stopping: bool,
    running: bool,
    status: Status,
    lastEvent: Text,
    requesting: bool,
    pinging: bool,
    resultText: string,
    mode: Mode,
    tunType: TunType)
  {
    /** `startSession` does something only in this situation. */
    predicate CanStart() { !starting && session.None? }

    predicate BadConfig() { tunType == VTunOnly && mode != ClientMode }
  }

  /** The effect of one update, with the branches tested in the order the UI thread tests them. */
  function Apply(ui: Ui, u: Update): Ui {
    if u.err.Some? then
      ui.(session := None, vtun := None, starting := false, stopping := false, running := false,
          status := u.status, lastEvent := u.err.value)
    else if u.session.Some? then
      ui.(session := u.session, vtun := u.vtun, starting := false, stopping := false, running := true,
          status := u.status,
          lastEvent := if u.event.Some? then u.event.value else SessionRunning,
          resultText := if u.result != "" then u.result else ui.resultText)
    else if u.stopped then
      ui.(session := None, vtun := None, starting := false, stopping := false, running := false,
          requesting := false, pinging := false,
          status := u.status, lastEvent := SessionStopped,
          resultText := if u.result != "" then u.result else ui.resultText)
    else if u.result != "" || u.event.Some? then
      ui.(resultText := if u.result != "" then u.result else ui.resultText,
          lastEvent := if u.event.Some? then u.event.value else ui.lastEvent,
          requesting := false, pinging := false)
    else ui
  }

  /** Draining a whole queue. */
  function ApplyAll(ui: Ui, queue: seq<Update>): Ui
    decreases |queue|
  {
    if queue == [] then ui else ApplyAll(Apply(ui, queue[0]), queue[1..])
  }

  /** A background goroutine and where it has got to. A starter that succeeds hands its session
      over and goes on as that session's waiter. */
  datatype Goroutine =
    | Dialing(vtun: bool)
    | Handing(id: nat, vtun: bool)
    | Waiting(id: nat)
    | Requesting(id: nat)
    | Pinging(id: nat)
    | Exited

  predicate IsLifer(g: Goroutine) { g.Dialing? || g.Handing? || g.Waiting? }
  predicate IsStarter(g: Goroutine) { g.Dialing? }

  /** Where the UI thread is: laying out, in `handleActions`, or in `applyUpdates`. Only layout
      may change the chosen mode and TUN type. */
  datatype Phase = Layout | Acting | Draining

  /** `live` holds the sessions whose `Wait` has not been released. `drops` counts all updates that
      found the queue full, `lost` those among them that belonged to a start in progress. */
  datatype World = World(
    ui: Ui,
    phase: Phase,
    queue: seq<Update>,
    drops: nat,
    lost: nat,
    gos: seq<Goroutine>,
    live: set<nat>,
    stopRequested: set<nat>,
    nextId: nat)

  function InitialUi(): Ui {
    Ui(None, None, false, false, false, Idle, Ready, false, false, "", ServerMode, VTunHttp)
  }

  function Init(): World {
    World(InitialUi(), Layout, [], 0, 0, [], {}, {}, 0)
  }

  /** The non-blocking send: a full queue drops the update. */
  function Enqueue(w: World, u: Update): World {
    if |w.queue| < QUEUE_CAPACITY then w.(queue := w.queue + [u])
    else w.(drops := w.drops + 1,
            lost := if IsLifecycle(u) && !w.ui.CanStart() then w.lost + 1 else w.lost)
  }

  function ClickStart(w: World): World {
    if !w.ui.CanStart() then w
    else if w.ui.BadConfig() then
      Enqueue(w, FailedUpdate(VTunNeedsClientMode))
    else
      w.(ui := w.ui.(starting := true, stopping := false, status := Starting,
                     lastEvent := StartingSession),
         gos := w.gos + [Dialing(w.ui.mode == ClientMode && w.ui.tunType == VTunOnly)])
  }

  function ClickStop(w: World): World {
    if w.ui.session.None? || w.ui.stopping then w
    else
      w.(ui := w.ui.(stopping := true, starting := false, status := Stopping,
                     lastEvent := StoppingSession),
         stopRequested := w.stopRequested + {w.ui.session.value})
  }

  function ClickRequest(w: World): World {
    if w.ui.vtun.None? || w.ui.requesting then w
    else
      w.(ui := w.ui.(requesting := true, lastEvent := RunningRequest),
         gos := w.gos + [Requesting(w.ui.vtun.value)])
  }

  function ClickPing(w: World): World {
    if w.ui.vtun.None? || w.ui.pinging then w
    else
      w.(ui := w.ui.(pinging := true, lastEvent := RunningPing),
         gos := w.gos + [Pinging(w.ui.vtun.value)])
  }

  datatype Step =
    // the UI thread
    | BeginFrame(mode: Mode, tunType: TunType)
    | StartClicked | StopClicked | RequestClicked | PingClicked
    | BeginDrain | DrainOne | EndDrain
    // the background
    | DialFails(i: nat, message: Text)
    | DialSucceeds(i: nat)
    | HandsOver(i: nat)
    | SessionEnds(id: nat)
    | WaiterReports(i: nat)
    | ToolReports(i: nat, result: string, event: Text)

  predicate IsClick(s: Step) { s.StartClicked? || s.StopClicked? || s.RequestClicked? || s.PingClicked? }

  predicate IsBackground(s: Step) {
    s.DialFails? || s.DialSucceeds? || s.HandsOver? || s.SessionEnds? || s.WaiterReports? || s.ToolReports?
  }

  /** A session ends only after its `Stop`: every goroutine it waits for waits for that first. */
  predicate Enabled(w: World, s: Step) {
    match s
    case BeginFrame(_, _) => w.phase == Layout
    case StartClicked => w.phase == Acting
    case StopClicked => w.phase == Acting
    case RequestClicked => w.phase == Acting
    case PingClicked => w.phase == Acting
    case BeginDrain => w.phase == Acting
    case DrainOne => w.phase == Draining && w.queue != []
    case EndDrain => w.phase == Draining && w.queue == []
    case DialFails(i, _) => i < |w.gos| && w.gos[i].Dialing?
    case DialSucceeds(i) => i < |w.gos| && w.gos[i].Dialing?
    case HandsOver(i) => i < |w.gos| && w.gos[i].Handing?
    case SessionEnds(id) => id in w.live && id in w.stopRequested
    case WaiterReports(i) => i < |w.gos| && w.gos[i].Waiting? && w.gos[i].id !in w.live
    case ToolReports(i, result, _) =>
      i < |w.gos| && (w.gos[i].Requesting? || w.gos[i].Pinging?) && result != ""
  }

  function Do(w: World, s: Step): World
    requires Enabled(w, s)
  {
    match s
    case BeginFrame(mode, tunType) =>
      w.(phase := Acting, ui := w.ui.(mode := mode, tunType := tunType))
    case StartClicked => ClickStart(w)
    case StopClicked => ClickStop(w)
    case RequestClicked => ClickRequest(w)
    case PingClicked => ClickPing(w)
    case BeginDrain => w.(phase := Draining)
    case DrainOne => w.(ui := Apply(w.ui, w.queue[0]), queue := w.queue[1..])
    case EndDrain => w.(phase := Layout)
    case DialFails(i, message) =>
      Enqueue(w.(gos := w.gos[i := Exited]), FailedUpdate(message))
    case DialSucceeds(i) =>
      w.(gos := w.gos[i := Handing(w.nextId, w.gos[i].vtun)],
         live := w.live + {w.nextId}, nextId := w.nextId + 1)
    case HandsOver(i) =>
      Enqueue(w.(gos := w.gos[i := Waiting(w.gos[i].id)]), StartedUpdate(w.gos[i].id, w.gos[i].vtun))
    case SessionEnds(id) => w.(live := w.live - {id})
    case WaiterReports(i) =>
      Enqueue(w.(gos := w.gos[i := Exited]), StoppedUpdate())
    case ToolReports(i, result, event) =>
      Enqueue(w.(gos := w.gos[i := Exited]), ToolUpdate(w.ui.status, result, event))
  }

  /** `steps` can be taken one after the other from `w`. */
  predicate CanRun(w: World, steps: seq<Step>)
    decreases |steps|
  {
    steps == [] || (Enabled(w, steps[0]) && CanRun(Do(w, steps[0]), steps[1..]))
  }

  function After(w: World, steps: seq<Step>): World
    requires CanRun(w, steps)
    decreases |steps|
  {
    if steps == [] then w else After(Do(w, steps[0]), steps[1..])
  }

  lemma {:induction false} RunConcat(w: World, a: seq<Step>, b: seq<Step>)
    requires CanRun(w, a) && CanRun(After(w, a), b)
    ensures CanRun(w, a + b) && After(w, a + b) == After(After(w, a), b)
    decreases |a|
  {
    if a == [] {
      assert a + b == b;
    } else {
      assert (a + b)[0] == a[0] && (a + b)[1..] == a[1..] + b;
      RunConcat(Do(w, a[0]), a[1..], b);
    }
  }
}
