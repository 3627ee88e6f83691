/** Closing the window: the UI thread cancels the root context, waits for the session it holds, if it
    holds one, and the program exits. */
module GuiClose {
  import opened Sequences
  import opened GuiWorld
  import opened GuiExclusion
  import opened GuiRecovery

  /** After the close only the background goes on, and every session may end, stopped or not. */
  predicate StillEnabled(w: World, s: Step) {
    IsBackground(s) && if s.SessionEnds? then s.id in w.live else Enabled(w, s)
  }

  function StillDo(w: World, s: Step): World
    requires StillEnabled(w, s)
  {
    if s.SessionEnds? then w.(live := w.live - {s.id}) else Do(w, s)
  }

  predicate CanClose(w: World, steps: seq<Step>)
    decreases |steps|
  {
    steps == [] || (StillEnabled(w, steps[0]) && CanClose(StillDo(w, steps[0]), steps[1..]))
  }

  function AtExit(w: World, steps: seq<Step>): World
    requires CanClose(w, steps)
    decreases |steps|
  {
    if steps == [] then w else AtExit(StillDo(w, steps[0]), steps[1..])
  }

  /** The deferred wait of the UI thread is over. */
  predicate MayExit(w: World) { w.ui.session.Some? ==> w.ui.session.value !in w.live }

  /** However the background goes on after the close, the program exits with no session running. */
  ghost predicate Orderly(w: World) {
    forall steps :: CanClose(w, steps) && MayExit(AtExit(w, steps)) ==> AtExit(w, steps).live == {}
  }

  predicate NoStarter(gos: seq<Goroutine>) {
    forall i :: 0 <= i < |gos| ==> !gos[i].Dialing? && !gos[i].Handing?
  }

  lemma {:induction false} WithoutStarter(w: World, steps: seq<Step>)
    requires NoStarter(w.gos) && CanClose(w, steps)
    ensures AtExit(w, steps).live <= w.live && AtExit(w, steps).ui == w.ui
    decreases |steps|
  {
    if steps != [] {
      WithoutStarter(StillDo(w, steps[0]), steps[1..]);
    }
  }

  /** With no start under way there is no starter, and only the session the UI holds can be live. */
  lemma HeldOrNone(w: World)
    requires Safe(w) && (Lifers(w) == [] || w.ui.session.Some?)
    ensures NoStarter(w.gos)
    ensures forall id <- w.live :: w.ui.session == Some(id)
  {
    forall i | 0 <= i < |w.gos| && IsLifer(w.gos[i]) ensures w.gos[i].Waiting? {
      ReplaceLifer(w, i, w.gos[i]);
    }
    if Lifers(w) != [] { var i := TheLifer(w); }
  }

  lemma Abandons(w: World) returns (steps: seq<Step>)
    requires Safe(w) && Lifers(w) != [] && w.ui.session.None?
    ensures CanClose(w, steps) && MayExit(AtExit(w, steps)) && AtExit(w, steps).live != {}
  {
    var i := TheLifer(w);
    if w.gos[i].Dialing? {
      var s := DialSucceeds(i);
      steps := [s];
      assert steps[1..] == [] && w.nextId in StillDo(w, s).live;
      assert CanClose(StillDo(w, s), steps[1..]) && AtExit(w, steps) == StillDo(w, s);
    } else {
      steps := [];
      assert w.gos[i].id in w.live;
    }
  }

  /** Whenever the window is closed, the program is sure to wait for every session exactly if no
      starter or session is left of the latest start, or the UI holds its session. A session that is
      still in the hands of its starter, named in the queue, or whose update was lost is not waited
      for. */
  lemma OrderlyIffHeld(steps: seq<Step>)
    requires CanRun(Init(), steps)
    ensures var w := After(Init(), steps);
            Orderly(w) <==> Lifers(w) == [] || w.ui.session.Some?
  {
    SafeRun(Init(), steps);
    var w := After(Init(), steps);
    if Lifers(w) == [] || w.ui.session.Some? {
      HeldOrNone(w);
      forall more | CanClose(w, more) && MayExit(AtExit(w, more)) ensures AtExit(w, more).live == {} {
        WithoutStarter(w, more);
        assert forall id <- w.live :: id !in AtExit(w, more).live;
      }
    } else {
      var more := Abandons(w);
      assert CanClose(w, more) && MayExit(AtExit(w, more));
    }
  }

  /** A close is orderly whenever the GUI does not show a start in progress. */
  lemma OrderlyUnlessStarting(steps: seq<Step>)
    requires CanRun(Init(), steps) && !After(Init(), steps).ui.starting
    ensures Orderly(After(Init(), steps))
  {
    OrderlyIffHeld(steps);
    SafeRun(Init(), steps);
    var w := After(Init(), steps);
    if Lifers(w) != [] { var i := TheLifer(w); }
  }

  /** A live session is waited for exactly when the UI holds it; otherwise, with nothing lost, it is in
      the hands of its starter or named in the queue. */
  lemma WaitedForIffHeld(steps: seq<Step>, id: nat)
    requires CanRun(Init(), steps) && id in After(Init(), steps).live
    ensures var w := After(Init(), steps);
            && (Orderly(w) <==> HeldByUi(w, id))
            && (w.lost == 0 && !Orderly(w) ==> HeldByStarter(w, id) || NamedInQueue(w, id))
  {
    OrderlyIffHeld(steps);
    SafeRun(Init(), steps);
    var w := After(Init(), steps);
    if w.ui.session.Some? || Lifers(w) == [] { HeldOrNone(w); }
    if w.lost == 0 { LiveSessionHasOneOwner(steps, id); }
  }
}
