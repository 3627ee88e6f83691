/** Which session the request and ping tools work on: only one that was started as a vtun client. */
module GuiVTun {
  import opened Sequences
  import opened GuiWorld
  import opened GuiExclusion

  /** What is remembered of a run: whether the last start that was let through was that of a vtun
      client, the sessions that came from such starts, and whether requests and pings were clicked. */
  datatype Past = Past(vtunStart: bool, vtunSessions: set<nat>, requests: bool, pings: bool)

  function Remember(w: World, s: Step, past: Past): Past {
    match s
    case StartClicked =>
      if w.ui.starting || w.ui.session.Some? || (w.ui.tunType == VTunOnly && w.ui.mode != ClientMode) then past
      else past.(vtunStart := w.ui.mode == ClientMode && w.ui.tunType == VTunOnly)
    case DialSucceeds(_) =>
      if past.vtunStart then past.(vtunSessions := past.vtunSessions + {w.nextId}) else past
    case RequestClicked => past.(requests := true)
    case PingClicked => past.(pings := true)
    case _ => past
  }

  function History(w: World, steps: seq<Step>, past: Past): Past
    requires CanRun(w, steps)
    decreases |steps|
  {
    if steps == [] then past else History(Do(w, steps[0]), steps[1..], Remember(w, steps[0], past))
  }

  function Nothing(): Past { Past(false, {}, false, false) }

  /** The goroutine fits the past. */
  predicate Fits(g: Goroutine, past: Past, nextId: nat) {
    match g
    case Dialing(vtun) => vtun == past.vtunStart
    case Handing(id, vtun) => id < nextId && (vtun <==> id in past.vtunSessions)
    case Waiting(_) => true
    case Requesting(id) => id in past.vtunSessions && past.requests
    case Pinging(id) => id in past.vtunSessions && past.pings
    case Exited => true
  }

  /** A session and the vtun session beside it. */
  predicate Named(session: Option<nat>, vtun: Option<nat>, past: Past, nextId: nat) {
    && (session.Some? ==> session.value < nextId)
    && vtun == (if session.Some? && session.value in past.vtunSessions then session else None)
  }

  ghost predicate Knows(w: World, past: Past) {
    && (forall id <- past.vtunSessions :: id < w.nextId)
    && Named(w.ui.session, w.ui.vtun, past, w.nextId)
    && (forall k :: 0 <= k < |w.queue| ==> Named(w.queue[k].session, w.queue[k].vtun, past, w.nextId))
    && (forall i :: 0 <= i < |w.gos| ==> Fits(w.gos[i], past, w.nextId))
  }

  lemma NoStarter(w: World, i: nat)
    requires Safe(w) && w.ui.CanStart() && i < |w.gos|
    ensures !w.gos[i].Dialing?
  {
    FilterEmpty(IsLifer, w.gos);
  }

  lemma KnowsStart(w: World, past: Past)
    requires Safe(w) && Knows(w, past) && Enabled(w, StartClicked)
    ensures Knows(ClickStart(w), Remember(w, StartClicked, past))
  {
    if w.ui.CanStart() {
      forall i | 0 <= i < |w.gos| ensures !w.gos[i].Dialing? { NoStarter(w, i); }
    }
  }

  lemma KnowsTool(w: World, s: Step, past: Past)
    requires Knows(w, past) && Enabled(w, s) && (s.RequestClicked? || s.PingClicked?)
    ensures Knows(Do(w, s), Remember(w, s, past))
  {
    var w', past' := Do(w, s), Remember(w, s, past);
    forall i | 0 <= i < |w'.gos| ensures Fits(w'.gos[i], past', w'.nextId) {
      if i < |w.gos| { assert Fits(w.gos[i], past, w.nextId); }
    }
  }

  lemma KnowsStop(w: World, past: Past)
    requires Knows(w, past) && Enabled(w, StopClicked)
    ensures Knows(ClickStop(w), past)
  {
  }

  lemma KnowsClick(w: World, s: Step, past: Past)
    requires Safe(w) && Knows(w, past) && Enabled(w, s) && IsClick(s)
    ensures Knows(Do(w, s), Remember(w, s, past))
  {
    if s.StartClicked? { KnowsStart(w, past); } else if s.StopClicked? { KnowsStop(w, past); }
    else { KnowsTool(w, s, past); }
  }

  lemma KnowsDrain(w: World, s: Step, past: Past)
    requires Knows(w, past) && Enabled(w, s) && !IsClick(s) && !IsBackground(s)
    ensures Knows(Do(w, s), past)
  {
    if s.DrainOne? {
      assert Named(w.queue[0].session, w.queue[0].vtun, past, w.nextId);
    }
  }

  lemma KnowsReport(w: World, i: nat, g: Goroutine, u: Update, past: Past)
    requires Knows(w, past) && i < |w.gos| && Fits(g, past, w.nextId)
    requires Named(u.session, u.vtun, past, w.nextId)
    ensures Knows(Enqueue(w.(gos := w.gos[i := g]), u), past)
  {
  }

  /** A new session's number was never used before. */
  lemma KnowsDial(w: World, i: nat, past: Past)
    requires Knows(w, past) && Enabled(w, DialSucceeds(i))
    ensures Knows(Do(w, DialSucceeds(i)), Remember(w, DialSucceeds(i), past))
  {
    var w', past' := Do(w, DialSucceeds(i)), Remember(w, DialSucceeds(i), past);
    assert Fits(w.gos[i], past, w.nextId);
    forall k | 0 <= k < |w.gos| ensures Fits(w'.gos[k], past', w'.nextId) {
      assert Fits(w.gos[k], past, w.nextId);
    }
  }

  lemma KnowsBackground(w: World, s: Step, past: Past)
    requires Knows(w, past) && Enabled(w, s) && IsBackground(s)
    ensures Knows(Do(w, s), Remember(w, s, past))
  {
    match s {
      case DialFails(i, message) => KnowsReport(w, i, Exited, FailedUpdate(message), past);
      case DialSucceeds(i) => KnowsDial(w, i, past);
      case HandsOver(i) =>
        assert Fits(w.gos[i], past, w.nextId);
        KnowsReport(w, i, Waiting(w.gos[i].id), StartedUpdate(w.gos[i].id, w.gos[i].vtun), past);
      case SessionEnds(_) =>
      case WaiterReports(i) => KnowsReport(w, i, Exited, StoppedUpdate(), past);
      case ToolReports(i, result, event) =>
        KnowsReport(w, i, Exited, ToolUpdate(w.ui.status, result, event), past);
    }
  }

  lemma {:induction false} KnowsRun(w: World, steps: seq<Step>, past: Past)
    requires Safe(w) && Knows(w, past) && CanRun(w, steps)
    ensures Knows(After(w, steps), History(w, steps, past))
    decreases |steps|
  {
    if steps != [] {
      var s := steps[0];
      SafeStep(w, s);
      if IsClick(s) { KnowsClick(w, s, past); }
      else if IsBackground(s) { KnowsBackground(w, s, past); }
      else { KnowsDrain(w, s, past); }
      KnowsRun(Do(w, s), steps[1..], Remember(w, s, past));
    }
  }

  /** In every reachable state the tools have a session exactly if the session the GUI holds came from
      a start clicked in client mode with the tun type "vtun", and every request and ping under way
      works on such a session and was asked for by its own button. */
  lemma ToolsUseVTunSessions(steps: seq<Step>)
    requires CanRun(Init(), steps)
    ensures var w, past := After(Init(), steps), History(Init(), steps, Nothing());
            && w.ui.vtun == (if w.ui.session.Some? && w.ui.session.value in past.vtunSessions
                             then w.ui.session else None)
            && (forall i :: 0 <= i < |w.gos| && w.gos[i].Requesting? ==>
                  w.gos[i].id in past.vtunSessions && past.requests)
            && (forall i :: 0 <= i < |w.gos| && w.gos[i].Pinging? ==>
                  w.gos[i].id in past.vtunSessions && past.pings)
  {
    KnowsRun(Init(), steps, Nothing());
    var w, past := After(Init(), steps), History(Init(), steps, Nothing());
    assert forall i :: 0 <= i < |w.gos| ==> Fits(w.gos[i], past, w.nextId);
  }

  /** The start is clicked in client mode with the tun type "vtun". */
  predicate VTunStart(w: World, s: Step) {
    s.StartClicked? && w.ui.mode == ClientMode && w.ui.tunType == VTunOnly
  }

  predicate NoVTunStart(w: World, steps: seq<Step>)
    requires CanRun(w, steps)
    decreases |steps|
  {
    steps == [] || (!VTunStart(w, steps[0]) && NoVTunStart(Do(w, steps[0]), steps[1..]))
  }

  lemma {:induction false} NoneRemembered(w: World, steps: seq<Step>, past: Past)
    requires CanRun(w, steps) && NoVTunStart(w, steps) && !past.vtunStart && past.vtunSessions == {}
    ensures History(w, steps, past).vtunSessions == {}
    decreases |steps|
  {
    if steps != [] { NoneRemembered(Do(w, steps[0]), steps[1..], Remember(w, steps[0], past)); }
  }

  /** Without such a start there is never a session for the tools, nor a request or ping. */
  lemma NoToolsWithoutVTunStart(steps: seq<Step>)
    requires CanRun(Init(), steps) && NoVTunStart(Init(), steps)
    ensures var w := After(Init(), steps);
            w.ui.vtun == None && forall i :: 0 <= i < |w.gos| ==> !w.gos[i].Requesting? && !w.gos[i].Pinging?
  {
    ToolsUseVTunSessions(steps);
    NoneRemembered(Init(), steps, Nothing());
  }
}
