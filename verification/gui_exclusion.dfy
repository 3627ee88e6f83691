/** At most one VPN session at a time, over every interleaving and every dropped update, and
    exactly when a dropped update leaves the GUI stuck. */
module GuiExclusion {
  import opened Sequences
  import opened GuiWorld

  function Lifers(w: World): seq<Goroutine> { Filter(IsLifer, w.gos) }

  function LifecycleQueue(w: World): seq<Update> { Filter(IsLifecycle, w.queue) }

  function Starters(gos: seq<Goroutine>): nat { |Filter(IsStarter, gos)| }

  predicate OnlyStarting(ui: Ui) { ui.starting && ui.session.None? }

  /** While a start is allowed there is no starter, no live session and no update of an earlier
      start in the queue: only rejections of bad configurations made in the current frame. */
  ghost predicate Quiet(w: World) {
    && Lifers(w) == []
    && w.live == {}
    && (forall k :: 0 <= k < |LifecycleQueue(w)| ==> IsFailed(LifecycleQueue(w)[k]))
    && (LifecycleQueue(w) == [] || w.phase == Draining || (w.phase == Acting && w.ui.BadConfig()))
  }

  /** The starter holds its session `id`. */
  predicate HeldByStarter(w: World, id: nat) {
    Lifers(w) == [Handing(id, true)] || Lifers(w) == [Handing(id, false)]
  }

  /** A queued update names session `id`. */
  predicate NamedInQueue(w: World, id: nat) {
    |LifecycleQueue(w)| == 1 &&
    var u := LifecycleQueue(w)[0];
    IsStarted(u) && u.session == Some(id) && (u.vtun.Some? ==> u.vtun == u.session)
  }

  predicate HeldByUi(w: World, id: nat) { w.ui.session == Some(id) }

  /** The start in progress has ended and the update that says so is queued. */
  predicate EndQueued(w: World) {
    |LifecycleQueue(w)| == 1 && (IsFailed(LifecycleQueue(w)[0]) || IsStopped(LifecycleQueue(w)[0]))
  }

  /** What can be left of the start in progress while another start is not allowed. */
  predicate Chain(w: World) {
    var ls, lc := Lifers(w), LifecycleQueue(w);
    if ls == [] then
      w.live == {} && (lc == [] || EndQueued(w))
    else if |ls| != 1 then false
    else match ls[0]
      case Dialing(_) => OnlyStarting(w.ui) && lc == [] && w.live == {}
      case Handing(id, _) =>
        OnlyStarting(w.ui) && lc == [] && w.live == {id} && id !in w.stopRequested && id < w.nextId
      case Waiting(id) =>
        && w.live <= {id}
        && (id in w.live || id in w.stopRequested)
        && id < w.nextId
        && if lc == [] && HeldByUi(w, id) then !w.ui.starting
           else (lc == [] || NamedInQueue(w, id)) && OnlyStarting(w.ui) && id !in w.stopRequested
      case _ => false
  }

  ghost predicate Safe(w: World) {
    && (if w.ui.CanStart() then Quiet(w) else Chain(w))
    && (w.ui.vtun.Some? ==> w.ui.vtun == w.ui.session)
    && (w.ui.stopping && w.ui.session.Some? ==> w.ui.session.value in w.stopRequested)
    && (forall id <- w.stopRequested :: id < w.nextId)
    && (w.ui.session.Some? ==> w.ui.session.value < w.nextId)
    && |w.queue| <= QUEUE_CAPACITY
  }

  lemma EnqueueFilter(w: World, u: Update)
    ensures LifecycleQueue(Enqueue(w, u)) ==
            LifecycleQueue(w) + (if IsLifecycle(u) && |w.queue| < QUEUE_CAPACITY then [u] else [])
  {
    FilterAppend(IsLifecycle, w.queue, u);
  }

  /** Replacing the only lifecycle goroutine. */
  lemma ReplaceLifer(w: World, i: nat, g: Goroutine)
    requires Safe(w) && i < |w.gos| && IsLifer(w.gos[i])
    ensures !w.ui.CanStart() && Lifers(w) == [w.gos[i]]
    ensures Filter(IsLifer, w.gos[i := g]) == if IsLifer(g) then [g] else []
  {
    FilterUpdate(IsLifer, w.gos, i, g);
  }

  lemma ReplaceTool(gos: seq<Goroutine>, i: nat)
    requires i < |gos| && !IsLifer(gos[i])
    ensures Filter(IsLifer, gos[i := Exited]) == Filter(IsLifer, gos)
  {
    FilterUpdate(IsLifer, gos, i, Exited);
  }

  lemma PopFilter(queue: seq<Update>)
    requires queue != []
    ensures var lc := Filter(IsLifecycle, queue);
            if IsLifecycle(queue[0]) then
              lc != [] && lc[0] == queue[0] && Filter(IsLifecycle, queue[1..]) == lc[1..]
            else
              Filter(IsLifecycle, queue[1..]) == lc
  {
    if IsLifecycle(queue[0]) {
      assert Filter(IsLifecycle, queue) == [queue[0]] + Filter(IsLifecycle, queue[1..]);
    }
  }

  /** `Safe` depends only on the session, the flags of the lifecycle and what is under way. */
  lemma SafeSame(w: World, w': World)
    requires Safe(w)
    requires Lifers(w') == Lifers(w) && LifecycleQueue(w') == LifecycleQueue(w)
    requires w'.live == w.live && w'.stopRequested == w.stopRequested && w'.nextId == w.nextId
    requires w'.phase == w.phase && |w'.queue| <= QUEUE_CAPACITY
    requires w'.ui.session == w.ui.session && w'.ui.vtun == w.ui.vtun && w'.ui.starting == w.ui.starting
    requires w'.ui.stopping == w.ui.stopping && w'.ui.BadConfig() == w.ui.BadConfig()
    ensures Safe(w')
  {
  }

  lemma SafeDrainTool(w: World)
    requires Safe(w) && Enabled(w, DrainOne) && !IsLifecycle(w.queue[0])
    ensures Safe(Do(w, DrainOne))
  {
    PopFilter(w.queue);
    SafeSame(w, Do(w, DrainOne));
  }

  lemma SafeDrainReport(w: World)
    requires Safe(w) && Enabled(w, DrainOne) && IsLifecycle(w.queue[0])
    ensures Safe(Do(w, DrainOne))
  {
    PopFilter(w.queue);
    var lc, lc' := LifecycleQueue(w), LifecycleQueue(Do(w, DrainOne));
    if w.ui.CanStart() {
      assert forall k :: 0 <= k < |lc'| ==> lc'[k] == lc[k + 1];
    } else {
      assert lc' == [];
    }
  }

  lemma SafeDrain(w: World)
    requires Safe(w) && Enabled(w, DrainOne)
    ensures Safe(Do(w, DrainOne))
  {
    if IsLifecycle(w.queue[0]) { SafeDrainReport(w); } else { SafeDrainTool(w); }
  }

  lemma SafeStart(w: World)
    requires Safe(w) && Enabled(w, StartClicked)
    ensures Safe(ClickStart(w))
  {
    if w.ui.CanStart() && w.ui.BadConfig() {
      EnqueueFilter(w, FailedUpdate(VTunNeedsClientMode));
    } else if w.ui.CanStart() {
      FilterAppend(IsLifer, w.gos, Dialing(w.ui.mode == ClientMode && w.ui.tunType == VTunOnly));
    }
  }

  /** A request or ping starts: no lifecycle goroutine is added. */
  lemma SafeTool(w: World, s: Step)
    requires Safe(w) && Enabled(w, s) && (s.RequestClicked? || s.PingClicked?)
    ensures Safe(Do(w, s))
  {
    if w.ui.vtun.Some? {
      FilterAppend(IsLifer, w.gos, if s.PingClicked? then Pinging(w.ui.vtun.value) else Requesting(w.ui.vtun.value));
    }
    SafeSame(w, Do(w, s));
  }

  lemma SafeStop(w: World)
    requires Safe(w) && Enabled(w, StopClicked)
    ensures Safe(ClickStop(w))
  {
  }

  lemma SafeClick(w: World, s: Step)
    requires Safe(w) && Enabled(w, s) && IsClick(s)
    ensures Safe(Do(w, s))
  {
    if s.StartClicked? { SafeStart(w); } else if s.StopClicked? { SafeStop(w); } else { SafeTool(w, s); }
  }

  /** A lifecycle goroutine that reports `u` and goes on as `g`. */
  lemma SafeReport(w: World, i: nat, g: Goroutine, u: Update)
    requires Safe(w) && i < |w.gos| && IsLifer(w.gos[i])
    requires match w.gos[i]
             case Dialing(_) => g == Exited && IsFailed(u)
             case Handing(id, vtun) => g == Waiting(id) && u == StartedUpdate(id, vtun)
             case Waiting(id) => g == Exited && IsStopped(u) && id !in w.live
             case _ => false
    ensures Safe(Enqueue(w.(gos := w.gos[i := g]), u))
  {
    ReplaceLifer(w, i, g);
    EnqueueFilter(w.(gos := w.gos[i := g]), u);
  }

  lemma SafeDial(w: World, i: nat)
    requires Safe(w) && Enabled(w, DialSucceeds(i))
    ensures Safe(Do(w, DialSucceeds(i)))
  {
    ReplaceLifer(w, i, Handing(w.nextId, w.gos[i].vtun));
  }

  lemma SafeEnd(w: World, id: nat)
    requires Safe(w) && Enabled(w, SessionEnds(id))
    ensures Safe(Do(w, SessionEnds(id)))
  {
  }

  lemma SafeAnswer(w: World, s: Step)
    requires Safe(w) && Enabled(w, s) && s.ToolReports?
    ensures Safe(Do(w, s))
  {
    ReplaceTool(w.gos, s.i);
    EnqueueFilter(w.(gos := w.gos[s.i := Exited]), ToolUpdate(w.ui.status, s.result, s.event));
    SafeSame(w, Do(w, s));
  }

  lemma SafeBackground(w: World, s: Step)
    requires Safe(w) && Enabled(w, s) && IsBackground(s)
    ensures Safe(Do(w, s))
  {
    match s {
      case DialFails(i, message) => SafeReport(w, i, Exited, FailedUpdate(message));
      case DialSucceeds(i) => SafeDial(w, i);
      case HandsOver(i) =>
        SafeReport(w, i, Waiting(w.gos[i].id), StartedUpdate(w.gos[i].id, w.gos[i].vtun));
      case SessionEnds(id) => SafeEnd(w, id);
      case WaiterReports(i) => SafeReport(w, i, Exited, StoppedUpdate());
      case ToolReports(_, _, _) => SafeAnswer(w, s);
    }
  }

  lemma SafeStep(w: World, s: Step)
    requires Safe(w) && Enabled(w, s)
    ensures Safe(Do(w, s))
  {
    if IsBackground(s) { SafeBackground(w, s); }
    else if IsClick(s) { SafeClick(w, s); }
    else if s.DrainOne? { SafeDrain(w); }
  }

  lemma {:induction false} SafeRun(w: World, steps: seq<Step>)
    requires Safe(w) && CanRun(w, steps)
    ensures Safe(After(w, steps))
    decreases |steps|
  {
    if steps != [] {
      SafeStep(w, steps[0]);
      SafeRun(Do(w, steps[0]), steps[1..]);
    }
  }

  lemma {:induction false} StartersAreLifers(gos: seq<Goroutine>)
    ensures Filter(IsStarter, Filter(IsLifer, gos)) == Filter(IsStarter, gos)
  {
    if gos != [] {
      StartersAreLifers(gos[1..]);
      var rest := Filter(IsLifer, gos[1..]);
      if IsLifer(gos[0]) {
        assert Filter(IsLifer, gos) == [gos[0]] + rest;
        assert ([gos[0]] + rest)[1..] == rest;
      } else {
        assert Filter(IsLifer, gos) == rest;
      }
    }
  }

  /** In every reachable state, whatever was dropped, starters outstanding plus sessions not yet
      done number at most one. */
  lemma MutualExclusion(steps: seq<Step>)
    requires CanRun(Init(), steps)
    ensures var w := After(Init(), steps); Starters(w.gos) + |w.live| <= 1
  {
    SafeRun(Init(), steps);
    var w := After(Init(), steps);
    StartersAreLifers(w.gos);
    var ls := Lifers(w);
    if ls != [] {
      assert ls == [ls[0]] && ls[1..] == [];
      if ls[0].Waiting? && w.live != {} { assert w.live == {ls[0].id}; }
    }
  }

  /** Whenever `startSession` would start, everything an earlier start created is gone. */
  lemma StartGuardMeansQuiet(steps: seq<Step>)
    requires CanRun(Init(), steps)
    requires After(Init(), steps).ui.CanStart()
    ensures Quiet(After(Init(), steps))
  {
    SafeRun(Init(), steps);
  }

  // ---- lost updates ----

  /** A start is in progress for the UI, but nothing can report on it any more: either it is over
      and its last update was lost, or its session runs and the update naming it was lost. */
  predicate Stuck(w: World) {
    !w.ui.CanStart() && LifecycleQueue(w) == [] &&
    (Lifers(w) == [] || (w.ui.session.None? && |Lifers(w)| == 1 && Lifers(w)[0].Waiting?))
  }

  lemma StuckClick(w: World, s: Step)
    requires Safe(w) && Enabled(w, s) && IsClick(s)
    ensures Do(w, s).lost == w.lost
    ensures Stuck(Do(w, s)) <==> Stuck(w)
  {
    match s {
      case StartClicked =>
        FilterAppend(IsLifer, w.gos, Dialing(w.ui.mode == ClientMode && w.ui.tunType == VTunOnly));
      case StopClicked =>
      case RequestClicked =>
        if w.ui.vtun.Some? { FilterAppend(IsLifer, w.gos, Requesting(w.ui.vtun.value)); }
      case PingClicked =>
        if w.ui.vtun.Some? { FilterAppend(IsLifer, w.gos, Pinging(w.ui.vtun.value)); }
    }
  }

  /** Receiving a report shows that the state was not stuck, and it is not afterwards. */
  lemma StuckDrainReport(w: World)
    requires Safe(w) && Enabled(w, DrainOne) && IsLifecycle(w.queue[0])
    ensures !Stuck(w) && !Stuck(Do(w, DrainOne))
  {
    PopFilter(w.queue);
    var u, w' := w.queue[0], Do(w, DrainOne);
    assert LifecycleQueue(w)[0] == u;
    if !w'.ui.CanStart() {
      assert IsStarted(u) && w'.ui.session.Some?;
      assert |LifecycleQueue(w)| == 1;
    }
  }

  lemma StuckDrainTool(w: World)
    requires Safe(w) && Enabled(w, DrainOne) && !IsLifecycle(w.queue[0])
    ensures Stuck(Do(w, DrainOne)) <==> Stuck(w)
  {
    PopFilter(w.queue);
    assert LifecycleQueue(Do(w, DrainOne)) == LifecycleQueue(w) && Lifers(Do(w, DrainOne)) == Lifers(w);
  }

  lemma StuckUiStep(w: World, s: Step)
    requires Safe(w) && Enabled(w, s) && !IsBackground(s)
    ensures Do(w, s).lost == w.lost
    ensures Stuck(Do(w, s)) <==> Stuck(w)
  {
    if IsClick(s) { StuckClick(w, s); } else if s.DrainOne? {
      if IsLifecycle(w.queue[0]) { StuckDrainReport(w); } else { StuckDrainTool(w); }
    }
  }

  /** A lifecycle goroutine that reports `u` and goes on as `g`. */
  lemma StuckReport(w: World, i: nat, g: Goroutine, u: Update)
    requires Safe(w) && i < |w.gos| && IsLifer(w.gos[i]) && IsLifecycle(u)
    requires g == Exited || (w.gos[i].Handing? && g == Waiting(w.gos[i].id))
    requires w.gos[i].Waiting? ==> w.gos[i].id in w.stopRequested
    ensures var w' := Enqueue(w.(gos := w.gos[i := g]), u);
            !Stuck(w) && w'.lost >= w.lost && (Stuck(w') <==> w'.lost > w.lost)
  {
    ReplaceLifer(w, i, g);
    EnqueueFilter(w.(gos := w.gos[i := g]), u);
  }

  lemma StuckBackground(w: World, s: Step)
    requires Safe(w) && Enabled(w, s) && IsBackground(s)
    ensures Do(w, s).lost >= w.lost
    ensures Stuck(Do(w, s)) <==> Stuck(w) || Do(w, s).lost > w.lost
  {
    match s {
      case DialFails(i, message) =>
        StuckReport(w, i, Exited, FailedUpdate(message));
      case DialSucceeds(i) =>
        ReplaceLifer(w, i, Handing(w.nextId, w.gos[i].vtun));
      case HandsOver(i) =>
        StuckReport(w, i, Waiting(w.gos[i].id), StartedUpdate(w.gos[i].id, w.gos[i].vtun));
      case SessionEnds(id) =>
      case WaiterReports(i) =>
        ReplaceLifer(w, i, Exited);
        StuckReport(w, i, Exited, StoppedUpdate());
      case ToolReports(i, result, event) =>
        ReplaceTool(w.gos, i);
        EnqueueFilter(w.(gos := w.gos[i := Exited]), ToolUpdate(w.ui.status, result, event));
    }
  }

  lemma StuckStep(w: World, s: Step)
    requires Safe(w) && Enabled(w, s)
    ensures Do(w, s).lost >= w.lost
    ensures Stuck(Do(w, s)) <==> Stuck(w) || Do(w, s).lost > w.lost
  {
    if IsBackground(s) { StuckBackground(w, s); } else { StuckUiStep(w, s); }
  }

  lemma {:induction false} StuckRun(w: World, steps: seq<Step>)
    requires Safe(w) && CanRun(w, steps)
    ensures After(w, steps).lost >= w.lost
    ensures Stuck(After(w, steps)) <==> Stuck(w) || After(w, steps).lost > w.lost
    decreases |steps|
  {
    if steps != [] {
      SafeStep(w, steps[0]);
      StuckStep(w, steps[0]);
      StuckRun(Do(w, steps[0]), steps[1..]);
    }
  }

  /** The GUI is stuck in exactly the runs that lost an update of a start in progress. */
  lemma StuckIffLost(steps: seq<Step>)
    requires CanRun(Init(), steps)
    ensures Stuck(After(Init(), steps)) <==> After(Init(), steps).lost > 0
  {
    StuckRun(Init(), steps);
  }

  /** With nothing lost, a live session is exactly one of: held by its starter, named by a queued
      update, or held by the UI. */
  lemma LiveSessionHasOneOwner(steps: seq<Step>, id: nat)
    requires CanRun(Init(), steps)
    requires After(Init(), steps).lost == 0 && id in After(Init(), steps).live
    ensures var w := After(Init(), steps);
            && (HeldByStarter(w, id) || NamedInQueue(w, id) || HeldByUi(w, id))
            && !(HeldByStarter(w, id) && NamedInQueue(w, id))
            && !(HeldByStarter(w, id) && HeldByUi(w, id))
            && !(NamedInQueue(w, id) && HeldByUi(w, id))
  {
    SafeRun(Init(), steps);
    StuckIffLost(steps);
    var w := After(Init(), steps);
    var ls := Lifers(w);
    assert ls == [ls[0]];
  }
}
