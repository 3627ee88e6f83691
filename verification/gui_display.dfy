/** What the GUI shows, what its queue delivers, and how many requests it runs. */
module GuiDisplay {
  import opened Sequences
  import opened GuiWorld
  import opened GuiExclusion

  // ---- the flags and the status ----

  /** An update as some report makes it: a failure, a session, an end, or a result. */
  predicate WellMade(u: Update) {
    if u.err.Some? then u.session.None? && !u.stopped && u.status == Failed && u.result == ""
    else if u.session.Some? then !u.stopped && u.status == Running && u.result == ""
    else if u.stopped then u.status == Stopped && u.result == "" && u.event.None?
    else u.result != "" && u.event.Some?
  }

  ghost predicate AllMade(queue: seq<Update>) { forall k :: 0 <= k < |queue| ==> WellMade(queue[k]) }

  /** The flags and the status say where the session is. */
  predicate Truthful(ui: Ui) {
    && (ui.running <==> ui.session.Some?)
    && (ui.starting ==> ui.session.None? && ui.status == Starting)
    && (ui.stopping ==> ui.session.Some?)
    && (ui.session.Some? ==> ui.status == if ui.stopping then Stopping else Running)
    && (!ui.starting && ui.session.None? ==> ui.status == Idle || ui.status == Failed || ui.status == Stopped)
  }

  ghost predicate Displays(w: World) { Truthful(w.ui) && AllMade(w.queue) }

  lemma DisplaysUi(w: World, s: Step)
    requires Displays(w) && Enabled(w, s) && !IsBackground(s)
    ensures Displays(Do(w, s))
  {
    if s.DrainOne? { assert WellMade(w.queue[0]); }
  }

  lemma DisplaysBackground(w: World, s: Step)
    requires Displays(w) && Enabled(w, s) && IsBackground(s)
    ensures Displays(Do(w, s))
  {
  }

  lemma {:induction false} DisplaysRun(w: World, steps: seq<Step>)
    requires Displays(w) && CanRun(w, steps)
    ensures Displays(After(w, steps))
    decreases |steps|
  {
    if steps != [] {
      if IsBackground(steps[0]) { DisplaysBackground(w, steps[0]); } else { DisplaysUi(w, steps[0]); }
      DisplaysRun(Do(w, steps[0]), steps[1..]);
    }
  }

  /** In every reachable state the flags and the status agree with the session, and every queued
      update is well made. */
  lemma DisplayIsTruthful(steps: seq<Step>)
    requires CanRun(Init(), steps)
    ensures var w := After(Init(), steps); Truthful(w.ui) && AllMade(w.queue)
  {
    DisplaysRun(Init(), steps);
  }

  // ---- what a drain shows ----

  /** What an update announces. */
  function Announced(u: Update): Text
    requires WellMade(u)
  {
    if u.err.Some? then u.err.value
    else if u.session.Some? then (if u.event.Some? then u.event.value else SessionRunning)
    else if u.stopped then SessionStopped
    else u.event.value
  }

  /** After a drain the last update is the one announced. */
  lemma {:induction false} LastIsAnnounced(ui: Ui, queue: seq<Update>)
    requires queue != [] && AllMade(queue)
    ensures ApplyAll(ui, queue).lastEvent == Announced(queue[|queue| - 1])
    decreases |queue|
  {
    assert WellMade(queue[0]);
    if |queue| > 1 {
      LastIsAnnounced(Apply(ui, queue[0]), queue[1..]);
    } else {
      assert ApplyAll(Apply(ui, queue[0]), queue[1..]) == Apply(ui, queue[0]);
    }
  }

  /** Updates without results leave the text shown as it is. */
  lemma {:induction false} ResultKept(ui: Ui, queue: seq<Update>)
    requires forall k :: 0 <= k < |queue| ==> queue[k].result == ""
    ensures ApplyAll(ui, queue).resultText == ui.resultText
    decreases |queue|
  {
    if queue != [] { ResultKept(Apply(ui, queue[0]), queue[1..]); }
  }

  /** After a drain the text shown is the last result received. */
  lemma {:induction false} LastResultShown(ui: Ui, before: seq<Update>, u: Update, after: seq<Update>)
    requires WellMade(u) && u.result != ""
    requires forall k :: 0 <= k < |after| ==> after[k].result == ""
    ensures ApplyAll(ui, before + [u] + after).resultText == u.result
    decreases |before|
  {
    var queue := before + [u] + after;
    if before == [] {
      assert queue[0] == u && queue[1..] == after;
      ResultKept(Apply(ui, u), after);
    } else {
      assert queue[0] == before[0] && queue[1..] == before[1..] + [u] + after;
      LastResultShown(Apply(ui, before[0]), before[1..], u, after);
    }
  }

  /** A result or the end of the session frees both buttons; nothing else does. */
  predicate Frees(u: Update) { u.err.None? && u.session.None? }

  lemma {:induction false} ButtonsFreed(ui: Ui, queue: seq<Update>)
    requires AllMade(queue)
    ensures var after, freed := ApplyAll(ui, queue), exists k :: 0 <= k < |queue| && Frees(queue[k]);
            && after.requesting == (ui.requesting && !freed)
            && after.pinging == (ui.pinging && !freed)
    decreases |queue|
  {
    if queue != [] {
      var rest := queue[1..];
      assert WellMade(queue[0]);
      ButtonsFreed(Apply(ui, queue[0]), rest);
      assert forall k :: 1 <= k < |queue| ==> queue[k] == rest[k - 1];
      if k :| 0 <= k < |rest| && Frees(rest[k]) { assert Frees(queue[k + 1]); }
    }
  }

  // ---- the queue ----

  predicate Reports(s: Step) { s.DialFails? || s.HandsOver? || s.WaiterReports? || s.ToolReports? }

  /** The update says what the step reports. */
  predicate Tells(w: World, s: Step, u: Update)
    requires Enabled(w, s) && Reports(s)
  {
    match s
    case DialFails(_, message) => u.err == Some(message)
    case HandsOver(i) =>
      && u.err.None? && u.session == Some(w.gos[i].id)
      && u.vtun == (if w.gos[i].vtun then u.session else None)
      && u.event == (if w.gos[i].vtun then Some(VTunClientRunning) else None)
    case WaiterReports(_) => u.err.None? && u.session.None? && u.stopped
    case ToolReports(_, result, event) =>
      u.err.None? && u.session.None? && !u.stopped && u.result == result && u.event == Some(event)
  }

  /** A report goes to the end of the queue if it holds fewer than 32, and is dropped otherwise;
      updates are received from its front; no other background step touches it. */
  lemma QueueIsBoundedFifo(w: World, s: Step)
    requires Enabled(w, s)
    ensures var w' := Do(w, s);
            && (Reports(s) && |w.queue| < 32 ==>
                  w'.drops == w.drops && |w'.queue| == |w.queue| + 1 && w.queue <= w'.queue &&
                  Tells(w, s, w'.queue[|w.queue|]))
            && (Reports(s) && |w.queue| >= 32 ==> w'.queue == w.queue && w'.drops == w.drops + 1)
            && (s.DrainOne? ==> [w.queue[0]] + w'.queue == w.queue && w'.drops == w.drops)
            && (!Reports(s) && !s.DrainOne? && !s.StartClicked? ==> w'.queue == w.queue && w'.drops == w.drops)
  {
  }

  /** The background never touches the fields of the UI thread. */
  lemma BackgroundLeavesUi(w: World, s: Step)
    requires Enabled(w, s) && IsBackground(s)
    ensures Do(w, s).ui == w.ui
  {
  }

  lemma ChoiceOfClick(w: World, s: Step)
    requires Enabled(w, s) && IsClick(s)
    ensures Do(w, s).ui.mode == w.ui.mode && Do(w, s).ui.tunType == w.ui.tunType
  {
  }

  /** The mode and the tun type change in the layout only, between two frames. */
  lemma ChoiceIsKept(w: World, s: Step)
    requires Enabled(w, s) && !IsBackground(s) && !s.BeginFrame?
    ensures Do(w, s).ui.mode == w.ui.mode && Do(w, s).ui.tunType == w.ui.tunType
  {
    if IsClick(s) { ChoiceOfClick(w, s); }
  }

  /** A click that has an effect says so at once, and one that has none changes nothing. */
  lemma ClickAnnounced(w: World, s: Step)
    requires Enabled(w, s) && IsClick(s)
    ensures var w' := Do(w, s);
            match s
            case StartClicked =>
              if w.ui.starting || w.ui.session.Some? then w' == w
              else w.ui.BadConfig() || (w'.ui.lastEvent == StartingSession && w'.ui.starting)
            case StopClicked =>
              if w.ui.session.None? || w.ui.stopping then w' == w
              else w'.ui.lastEvent == StoppingSession && w'.ui.stopping && w.ui.session.value in w'.stopRequested
            case RequestClicked =>
              if w.ui.vtun.None? || w.ui.requesting then w' == w
              else w'.ui.lastEvent == RunningRequest && w'.ui.requesting && w'.gos == w.gos + [Requesting(w.ui.vtun.value)]
            case PingClicked =>
              if w.ui.vtun.None? || w.ui.pinging then w' == w
              else w'.ui.lastEvent == RunningPing && w'.ui.pinging && w'.gos == w.gos + [Pinging(w.ui.vtun.value)]
            case _ => true
  {
  }

  /** A start that is clicked for a vtun outside client mode is rejected with its own text. */
  lemma RejectionQueued(w: World)
    requires Enabled(w, StartClicked) && !w.ui.starting && w.ui.session.None? && |w.queue| < 32
    requires w.ui.tunType == VTunOnly && w.ui.mode == ServerMode
    ensures var w' := ClickStart(w);
            && w'.ui == w.ui && w'.gos == w.gos
            && |w'.queue| == |w.queue| + 1 && w.queue <= w'.queue
            && w'.queue[|w.queue|].err == Some(VTunNeedsClientMode)
  {
  }

  // ---- one request at a time ----

  function IsTool(g: Goroutine): nat { if g.Requesting? || g.Pinging? then 1 else 0 }

  function IsAnswer(u: Update): nat { if IsLifecycle(u) then 0 else 1 }

  /** Requests and pings whose answers have not been received. */
  function Open(w: World): nat { Sum(IsTool, w.gos) + Sum(IsAnswer, w.queue) }

  predicate Busy(ui: Ui, pings: bool) { if pings then ui.pinging else ui.requesting }

  /** A click that no run with one kind of tool, and no stop, contains. */
  predicate Excluded(s: Step, pings: bool) { s.StopClicked? || (if pings then s.RequestClicked? else s.PingClicked?) }

  ghost predicate Single(w: World, pings: bool) {
    && w.stopRequested == {}
    && (forall k :: 0 <= k < |w.queue| ==> !w.queue[k].stopped)
    && Open(w) <= 1 && (Open(w) == 1 ==> Busy(w.ui, pings))
  }

  lemma SingleClick(w: World, s: Step, pings: bool)
    requires Single(w, pings) && Enabled(w, s) && IsClick(s) && !Excluded(s, pings)
    ensures Single(Do(w, s), pings)
  {
    match s {
      case StartClicked =>
        SumAppend(IsTool, w.gos, Dialing(w.ui.mode == ClientMode && w.ui.tunType == VTunOnly));
        SumAppend(IsAnswer, w.queue, FailedUpdate(VTunNeedsClientMode));
      case RequestClicked =>
        if w.ui.vtun.Some? { SumAppend(IsTool, w.gos, Requesting(w.ui.vtun.value)); }
      case PingClicked =>
        if w.ui.vtun.Some? { SumAppend(IsTool, w.gos, Pinging(w.ui.vtun.value)); }
    }
  }

  lemma SingleDrain(w: World, pings: bool)
    requires Single(w, pings) && Displays(w) && Enabled(w, DrainOne)
    ensures Single(Do(w, DrainOne), pings)
  {
    assert WellMade(w.queue[0]);
  }

  lemma SingleReport(w: World, i: nat, g: Goroutine, u: Update, pings: bool)
    requires Single(w, pings) && i < |w.gos| && !u.stopped
    requires IsTool(g) + IsAnswer(u) <= IsTool(w.gos[i])
    ensures Single(Enqueue(w.(gos := w.gos[i := g]), u), pings)
  {
    SumUpdate(IsTool, w.gos, i, g);
    SumAppend(IsAnswer, w.queue, u);
  }

  lemma SingleBackground(w: World, s: Step, pings: bool)
    requires Single(w, pings) && Safe(w) && Enabled(w, s) && IsBackground(s)
    ensures Single(Do(w, s), pings)
  {
    match s {
      case DialFails(i, message) => SingleReport(w, i, Exited, FailedUpdate(message), pings);
      case DialSucceeds(i) => SumUpdate(IsTool, w.gos, i, Handing(w.nextId, w.gos[i].vtun));
      case HandsOver(i) =>
        SingleReport(w, i, Waiting(w.gos[i].id), StartedUpdate(w.gos[i].id, w.gos[i].vtun), pings);
      case SessionEnds(_) =>
      case WaiterReports(i) => NeverEnds(w, i);
      case ToolReports(i, result, event) =>
        SingleReport(w, i, Exited, ToolUpdate(w.ui.status, result, event), pings);
    }
  }

  /** A session that was not told to stop has not ended. */
  lemma NeverEnds(w: World, i: nat)
    requires Safe(w) && w.stopRequested == {} && i < |w.gos| && w.gos[i].Waiting?
    ensures w.gos[i].id in w.live
  {
    ReplaceLifer(w, i, w.gos[i]);
  }

  predicate OneKind(steps: seq<Step>, pings: bool) { forall k :: 0 <= k < |steps| ==> !Excluded(steps[k], pings) }

  lemma {:induction false} SingleRun(w: World, steps: seq<Step>, pings: bool)
    requires Safe(w) && Displays(w) && Single(w, pings) && CanRun(w, steps) && OneKind(steps, pings)
    ensures Single(After(w, steps), pings)
    decreases |steps|
  {
    if steps != [] {
      var s := steps[0];
      assert !Excluded(s, pings);
      SafeStep(w, s);
      if IsBackground(s) { SingleBackground(w, s, pings); DisplaysBackground(w, s); }
      else {
        if IsClick(s) { SingleClick(w, s, pings); } else if s.DrainOne? { SingleDrain(w, pings); }
        DisplaysUi(w, s);
      }
      SingleRun(Do(w, s), steps[1..], pings);
    }
  }

  /** As long as only requests are made, or only pings, and nothing is stopped, at most one is open,
      and its button stays busy until its answer was received. */
  lemma OneToolAtATime(steps: seq<Step>, pings: bool)
    requires CanRun(Init(), steps) && OneKind(steps, pings)
    ensures var w := After(Init(), steps);
            Sum(IsTool, w.gos) + Sum(IsAnswer, w.queue) <= (if Busy(w.ui, pings) then 1 else 0)
  {
    SingleRun(Init(), steps, pings);
  }
}
