/** The queue's capacity can be exceeded: a run in which the GUI loses the report of its session's
    end and can never start another one. */
module GuiOverflow {
  import opened Sequences
  import opened GuiWorld
  import opened GuiExclusion
  import opened GuiRecovery

  function IsTool(g: Goroutine): nat { if g.Requesting? || g.Pinging? then 1 else 0 }

  function Tools(w: World): nat { Sum(IsTool, w.gos) }

  /** One more step at the end of a run. */
  lemma Extend(w: World, steps: seq<Step>, s: Step)
    requires CanRun(w, steps) && Enabled(After(w, steps), s)
    ensures CanRun(w, steps + [s]) && After(w, steps + [s]) == Do(After(w, steps), s)
  {
    var w' := Do(After(w, steps), s);
    assert [s][1..] == [] && CanRun(w', []);
    RunConcat(w, steps, [s]);
  }

  /** The vtun client is connected, the buttons are free and the queue is empty. */
  ghost predicate Connected(w: World) {
    && w.phase == Layout && w.queue == [] && w.lost == 0
    && w.ui.session == Some(0) && w.ui.vtun == Some(0)
    && !w.ui.starting && !w.ui.stopping && !w.ui.requesting && !w.ui.pinging
    && w.live == {0} && w.stopRequested == {}
  }

  /** The end of a frame with one update in the queue. */
  lemma DrainUpdate(w: World) returns (steps: seq<Step>)
    requires w.phase == Acting && |w.queue| == 1
    ensures CanRun(w, steps)
    ensures After(w, steps) == w.(phase := Layout, ui := Apply(w.ui, w.queue[0]), queue := [])
  {
    steps := [];
    Extend(w, steps, BeginDrain); steps := steps + [BeginDrain];
    Extend(w, steps, DrainOne); steps := steps + [DrainOne];
    Extend(w, steps, EndDrain); steps := steps + [EndDrain];
  }

  lemma Connect() returns (steps: seq<Step>)
    ensures CanRun(Init(), steps) && Connected(After(Init(), steps))
  {
    steps := [];
    Extend(Init(), steps, BeginFrame(ClientMode, VTunOnly)); steps := steps + [BeginFrame(ClientMode, VTunOnly)];
    Extend(Init(), steps, StartClicked); steps := steps + [StartClicked];
    Extend(Init(), steps, DialSucceeds(0)); steps := steps + [DialSucceeds(0)];
    Extend(Init(), steps, HandsOver(0)); steps := steps + [HandsOver(0)];
    var drain := DrainUpdate(After(Init(), steps));
    RunConcat(Init(), steps, drain);
    steps := steps + drain;
  }

  /** One frame in which a request is added: the answer of a ping clears both busy flags, so the
      request button is free again while the request is still running. */
  lemma AddRequest(w: World) returns (steps: seq<Step>)
    requires Connected(w)
    ensures CanRun(w, steps) && Connected(After(w, steps)) && Tools(After(w, steps)) == Tools(w) + 1
  {
    var before := RequestAndPing(w);
    var drain := DrainUpdate(After(w, before));
    RunConcat(w, before, drain);
    steps := before + drain;
    SumAppend(IsTool, w.gos, Requesting(0));
    SumAppend(IsTool, w.gos + [Requesting(0)], Exited);
  }

  /** Both buttons are clicked, and the ping answers. */
  lemma RequestAndPing(w: World) returns (steps: seq<Step>)
    requires Connected(w)
    ensures CanRun(w, steps)
    ensures var w' := After(w, steps);
            && w'.phase == Acting && w'.queue == [ToolUpdate(w.ui.status, "x", Ready)]
            && w'.gos == w.gos + [Requesting(0)] + [Exited]
            && w'.ui == w.ui.(mode := ClientMode, tunType := VTunOnly, requesting := true, pinging := true,
                              lastEvent := RunningPing)
            && w'.lost == w.lost && w'.live == w.live && w'.stopRequested == w.stopRequested
  {
    var n := |w.gos|;
    steps := [];
    Extend(w, steps, BeginFrame(ClientMode, VTunOnly)); steps := steps + [BeginFrame(ClientMode, VTunOnly)];
    Extend(w, steps, RequestClicked); steps := steps + [RequestClicked];
    Extend(w, steps, PingClicked); steps := steps + [PingClicked];
    assert After(w, steps).gos == w.gos + [Requesting(0)] + [Pinging(0)];
    Extend(w, steps, ToolReports(n + 1, "x", Ready)); steps := steps + [ToolReports(n + 1, "x", Ready)];
  }

  /** The number of requests in flight has no bound. */
  lemma {:induction false} PileUp(n: nat) returns (steps: seq<Step>)
    ensures CanRun(Init(), steps) && Connected(After(Init(), steps)) && Tools(After(Init(), steps)) >= n
  {
    if n == 0 {
      steps := Connect();
    } else {
      var before := PileUp(n - 1);
      var more := AddRequest(After(Init(), before));
      RunConcat(Init(), before, more);
      steps := before + more;
    }
  }

  /** Answers alone fill the queue. */
  lemma {:induction false} Fill(w: World) returns (steps: seq<Step>)
    requires Safe(w) && |w.queue| + Tools(w) >= QUEUE_CAPACITY
    ensures CanRun(w, steps)
    ensures var w' := After(w, steps);
            && Safe(w') && |w'.queue| == QUEUE_CAPACITY
            && w'.live == w.live && w'.stopRequested == w.stopRequested && w'.lost == w.lost
            && Lifers(w') == Lifers(w)
    decreases QUEUE_CAPACITY - |w.queue|
  {
    if |w.queue| == QUEUE_CAPACITY {
      steps := [];
    } else {
      var i := PositiveTerm(IsTool, w.gos);
      var s := ToolReports(i, "x", Ready);
      SafeStep(w, s);
      SumUpdate(IsTool, w.gos, i, Exited);
      ReplaceTool(w.gos, i);
      var rest := Fill(Do(w, s));
      steps := [s] + rest;
      assert steps[1..] == rest;
    }
  }

  /** A stop makes every request in flight answer at once: the queue fills up, the report of the
      session's end is dropped, and no continuation allows another start. */
  lemma LossIsReachable() returns (steps: seq<Step>)
    ensures CanRun(Init(), steps) && !CanStartAgain(After(Init(), steps))
  {
    steps := PileUp(QUEUE_CAPACITY);
    var w := After(Init(), steps);
    SafeRun(Init(), steps);
    Extend(Init(), steps, BeginFrame(ClientMode, VTunOnly)); steps := steps + [BeginFrame(ClientMode, VTunOnly)];
    Extend(Init(), steps, StopClicked); steps := steps + [StopClicked];
    SafeRun(Init(), steps);
    var fill := Fill(After(Init(), steps));
    RunConcat(Init(), steps, fill); steps := steps + fill;
    Extend(Init(), steps, SessionEnds(0)); steps := steps + [SessionEnds(0)];
    SafeRun(Init(), steps);
    var i := TheLifer(After(Init(), steps));
    Extend(Init(), steps, WaiterReports(i)); steps := steps + [WaiterReports(i)];
    StartAgainIffNothingLost(steps);
  }
}
