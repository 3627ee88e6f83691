/** From every reachable state that lost nothing the GUI can get back to where a start is allowed,
    and while it is stopping every step that the program or a finished session owes brings it
    closer. */
module GuiRecovery {
  import opened Sequences
  import opened GuiWorld
  import opened GuiExclusion

  /** How far the UI thread is from draining. */
  function PhaseRank(p: Phase): nat {
    match p case Layout => 2 case Acting => 1 case Draining => 0
  }

  /** One whole frame without clicks: the queue is drained and nothing else happens. */
  lemma {:induction false} Flush(w: World) returns (steps: seq<Step>)
    requires Safe(w) && !Stuck(w)
    ensures CanRun(w, steps)
    ensures var w' := After(w, steps);
            Safe(w') && !Stuck(w') && w'.queue == [] && w'.phase == Layout &&
            w'.gos == w.gos && w'.live == w.live && w'.stopRequested == w.stopRequested
    decreases |w.queue|, PhaseRank(w.phase)
  {
    if w.phase == Draining && w.queue == [] {
      steps := [EndDrain];
      assert CanRun(Do(w, EndDrain), steps[1..]);
      StuckStep(w, EndDrain);
      SafeStep(w, EndDrain);
    } else if w.phase == Layout && w.queue == [] {
      steps := [];
    } else {
      var s := if w.phase == Layout then BeginFrame(w.ui.mode, w.ui.tunType)
               else if w.phase == Acting then BeginDrain else DrainOne;
      SafeStep(w, s);
      StuckUiStep(w, s);
      var rest := Flush(Do(w, s));
      steps := [s] + rest;
      assert steps[1..] == rest;
    }
  }

  /** How much of the start in progress is still to happen. */
  function Stage(w: World): nat {
    var ls := Lifers(w);
    if ls == [] then 0
    else match ls[0]
      case Dialing(_) => 5
      case Handing(_, _) => 4
      case Waiting(id) => if id !in w.live then 1 else if id in w.stopRequested then 2 else 3
      case _ => 0
  }

  lemma TheLifer(w: World) returns (i: nat)
    requires Safe(w) && Lifers(w) != []
    ensures i < |w.gos| && IsLifer(w.gos[i]) && Lifers(w) == [w.gos[i]] && !w.ui.CanStart()
  {
    FilterEmpty(IsLifer, w.gos);
    i :| 0 <= i < |w.gos| && IsLifer(w.gos[i]);
    ReplaceLifer(w, i, w.gos[i]);
  }

  /** Once drained, a start in progress can take a step that completes part of it. */
  lemma Advance(w: World) returns (s: Step)
    requires Safe(w) && !Stuck(w) && w.queue == [] && w.phase == Acting && !w.ui.CanStart()
    ensures Enabled(w, s) && Safe(Do(w, s)) && !Stuck(Do(w, s)) && Stage(Do(w, s)) < Stage(w)
  {
    var i := TheLifer(w);
    s := StageStep(w, i);
    SafeStep(w, s);
    StuckStep(w, s);
  }

  /** The step that takes the only lifecycle goroutine one stage further, with room in the queue. */
  lemma StageStep(w: World, i: nat) returns (s: Step)
    requires Safe(w) && !Stuck(w) && w.queue == [] && w.phase == Acting && !w.ui.CanStart()
    requires i < |w.gos| && IsLifer(w.gos[i]) && Lifers(w) == [w.gos[i]]
    ensures Enabled(w, s) && Do(w, s).lost == w.lost && Stage(Do(w, s)) < Stage(w)
  {
    match w.gos[i] {
      case Dialing(_) =>
        s := DialFails(i, Message("dial failed"));
        ReplaceLifer(w, i, Exited);
      case Handing(id, _) =>
        s := HandsOver(i);
        ReplaceLifer(w, i, Waiting(id));
      case Waiting(id) =>
        if id !in w.live {
          s := WaiterReports(i);
          ReplaceLifer(w, i, Exited);
        } else if id in w.stopRequested {
          s := SessionEnds(id);
        } else {
          s := StopClicked;
        }
    }
  }

  /** The next frame begins, and the start in progress gets one stage further. */
  lemma NextStage(w: World) returns (s: Step)
    requires Safe(w) && !Stuck(w) && w.queue == [] && w.phase == Layout && !w.ui.CanStart()
    ensures var begin := BeginFrame(w.ui.mode, w.ui.tunType);
            && Enabled(w, begin) && Enabled(Do(w, begin), s)
            && var w' := Do(Do(w, begin), s); Safe(w') && !Stuck(w') && Stage(w') < Stage(w)
  {
    var begin := BeginFrame(w.ui.mode, w.ui.tunType);
    SafeStep(w, begin);
    StuckStep(w, begin);
    s := Advance(Do(w, begin));
  }

  lemma {:induction false} Recover(w: World) returns (steps: seq<Step>)
    requires Safe(w) && !Stuck(w)
    ensures CanRun(w, steps) && After(w, steps).ui.CanStart()
    decreases Stage(w)
  {
    var flush := Flush(w);
    var w0 := After(w, flush);
    if w0.ui.CanStart() {
      steps := flush;
    } else {
      var begin := BeginFrame(w0.ui.mode, w0.ui.tunType);
      var s := NextStage(w0);
      var rest := Recover(Do(Do(w0, begin), s));
      TwoThen(w0, begin, s, rest);
      RunConcat(w, flush, [begin, s] + rest);
      steps := flush + ([begin, s] + rest);
    }
  }

  lemma TwoThen(w: World, s: Step, t: Step, rest: seq<Step>)
    requires Enabled(w, s) && Enabled(Do(w, s), t) && CanRun(Do(Do(w, s), t), rest)
    ensures CanRun(w, [s, t] + rest) && After(w, [s, t] + rest) == After(Do(Do(w, s), t), rest)
  {
    var tail := [s, t] + rest;
    assert tail[1..] == [t] + rest && tail[1..][1..] == rest;
  }

  ghost predicate CanStartAgain(w: World) {
    exists more :: CanRun(w, more) && After(w, more).ui.CanStart()
  }

  lemma StartAgainIffNotStuck(w: World)
    requires Safe(w)
    ensures CanStartAgain(w) <==> !Stuck(w)
  {
    if Stuck(w) {
      forall more | CanRun(w, more) ensures !After(w, more).ui.CanStart() {
        StuckRun(w, more);
      }
    } else {
      var more := Recover(w);
      assert CanRun(w, more) && After(w, more).ui.CanStart();
    }
  }

  /** From a reachable state some continuation allows another start, exactly when no update of the
      start in progress was lost. */
  lemma StartAgainIffNothingLost(steps: seq<Step>)
    requires CanRun(Init(), steps)
    ensures CanStartAgain(After(Init(), steps)) <==> After(Init(), steps).lost == 0
  {
    SafeRun(Init(), steps);
    StuckIffLost(steps);
    StartAgainIffNotStuck(After(Init(), steps));
  }

  // ---- stopping ----

  /** A stop was requested for the current session and it has not been cleared. */
  predicate StopPending(w: World, id: nat) {
    w.ui.session == Some(id) && w.ui.stopping && !Stuck(w)
  }

  /** The position of the first lifecycle update. */
  function FirstReport(queue: seq<Update>): nat {
    if queue == [] || IsLifecycle(queue[0]) then 0 else 1 + FirstReport(queue[1..])
  }

  /** Steps that bring a pending stop to its end, counted. */
  function Distance(w: World): nat {
    if Lifers(w) == [] then 3 * FirstReport(w.queue) + PhaseRank(w.phase)
    else if w.live == {} then 3 * QUEUE_CAPACITY
    else 3 * QUEUE_CAPACITY + 1
  }

  /** The steps nobody has to be asked for: the session ends, its waiter reports, and, once the
      report is queued, the UI thread runs its frames. */
  predicate Owed(w: World, id: nat, s: Step) {
    || s == SessionEnds(id)
    || s.WaiterReports?
    || (Lifers(w) == [] && (s.BeginFrame? || s.BeginDrain? || s.DrainOne?))
  }

  lemma {:induction false} FirstReportAppend(queue: seq<Update>, u: Update)
    ensures FirstReport(queue + [u]) <= |queue| + (if IsLifecycle(u) then 0 else 1)
    ensures Filter(IsLifecycle, queue) != [] ==>
              FirstReport(queue) < |queue| && FirstReport(queue + [u]) == FirstReport(queue)
  {
    if queue == [] {
      assert (queue + [u])[1..] == [];
    } else {
      assert (queue + [u])[0] == queue[0] && (queue + [u])[1..] == queue[1..] + [u];
      PopFilter(queue);
      FirstReportAppend(queue[1..], u);
    }
  }

  /** The states a pending stop goes through: session alive, waiter about to report, report queued. */
  lemma PendingShape(w: World, id: nat)
    requires Safe(w) && StopPending(w, id)
    ensures id in w.stopRequested
    ensures Lifers(w) == [Waiting(id)] || Lifers(w) == []
    ensures Lifers(w) == [Waiting(id)] ==> LifecycleQueue(w) == [] && w.live <= {id}
    ensures Lifers(w) == [] ==> EndQueued(w)
  {
    if Lifers(w) != [] { assert Lifers(w) == [Lifers(w)[0]]; }
  }

  /** While a stop is pending some owed step can be taken. */
  lemma StopCanProgress(w: World, id: nat) returns (s: Step)
    requires Safe(w) && StopPending(w, id)
    ensures Enabled(w, s) && Owed(w, id, s)
  {
    PendingShape(w, id);
    if Lifers(w) == [] {
      s := if w.phase == Layout then BeginFrame(w.ui.mode, w.ui.tunType)
           else if w.phase == Acting then BeginDrain else DrainOne;
    } else if id in w.live {
      s := SessionEnds(id);
    } else {
      var i := TheLifer(w);
      s := WaiterReports(i);
    }
  }

  predicate Closer(w: World, id: nat, w': World, strictly: bool) {
    w'.ui.CanStart() ||
    (StopPending(w', id) && Distance(w') <= Distance(w) && (strictly ==> Distance(w') < Distance(w)))
  }

  lemma StopProgressUi(w: World, id: nat, s: Step)
    requires Safe(w) && StopPending(w, id) && Enabled(w, s) && !IsBackground(s)
    ensures Closer(w, id, Do(w, s), Owed(w, id, s))
  {
    PendingShape(w, id);
    StuckUiStep(w, s);
    match s {
      case RequestClicked =>
        if w.ui.vtun.Some? { FilterAppend(IsLifer, w.gos, Requesting(w.ui.vtun.value)); }
      case PingClicked =>
        if w.ui.vtun.Some? { FilterAppend(IsLifer, w.gos, Pinging(w.ui.vtun.value)); }
      case DrainOne => PopFilter(w.queue);
      case _ =>
    }
  }

  lemma StopProgressBackground(w: World, id: nat, s: Step)
    requires Safe(w) && StopPending(w, id) && Enabled(w, s) && IsBackground(s) && Do(w, s).lost == w.lost
    ensures Closer(w, id, Do(w, s), Owed(w, id, s))
  {
    PendingShape(w, id);
    StuckBackground(w, s);
    match s {
      case DialFails(i, _) => ReplaceLifer(w, i, Exited);
      case DialSucceeds(i) => ReplaceLifer(w, i, Exited);
      case HandsOver(i) => ReplaceLifer(w, i, Exited);
      case SessionEnds(_) =>
      case WaiterReports(i) =>
        ReplaceLifer(w, i, Exited);
        FirstReportAppend(w.queue, StoppedUpdate());
      case ToolReports(i, result, event) =>
        ReplaceTool(w.gos, i);
        FirstReportAppend(w.queue, ToolUpdate(w.ui.status, result, event));
    }
  }

  /** No step moves a pending stop away from its end, and every owed step moves it closer or ends
      it with a start allowed again, unless that step loses the report. */
  lemma StopProgress(w: World, id: nat, s: Step)
    requires Safe(w) && StopPending(w, id) && Enabled(w, s) && Do(w, s).lost == w.lost
    ensures Closer(w, id, Do(w, s), Owed(w, id, s))
  {
    if IsBackground(s) { StopProgressBackground(w, id, s); } else { StopProgressUi(w, id, s); }
  }

  function OwedSteps(w: World, id: nat, steps: seq<Step>): nat
    requires CanRun(w, steps)
    decreases |steps|
  {
    if steps == [] then 0
    else (if Owed(w, id, steps[0]) then 1 else 0) + OwedSteps(Do(w, steps[0]), id, steps[1..])
  }

  /** Somewhere along the run a start is allowed. */
  predicate Clears(w: World, steps: seq<Step>)
    requires CanRun(w, steps)
    decreases |steps|
  {
    w.ui.CanStart() || (steps != [] && Clears(Do(w, steps[0]), steps[1..]))
  }

  /** Every run without losses that takes more owed steps than the distance ends the stop. */
  lemma {:induction false} StopCompletes(w: World, id: nat, steps: seq<Step>)
    requires Safe(w) && StopPending(w, id) && CanRun(w, steps)
    requires After(w, steps).lost == w.lost
    requires OwedSteps(w, id, steps) > Distance(w)
    ensures Clears(w, steps)
    decreases |steps|
  {
    var w' := Do(w, steps[0]);
    SafeStep(w, steps[0]);
    StuckStep(w, steps[0]);
    StuckRun(w', steps[1..]);
    StopProgress(w, id, steps[0]);
    if !w'.ui.CanStart() {
      StopCompletes(w', id, steps[1..]);
    }
  }
}
