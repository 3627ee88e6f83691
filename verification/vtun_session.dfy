/** The session of the vtun client (clientcore/vtun_client.go): `Stop` may be called any number of
    times, the parent context may end, and one goroutine closes the resources and then `done`. */
module VTunSession {
  import opened Sequences
  import opened RunnerSystem

  /** `once` is spent by the first `Stop`; `cancels` counts the calls of the cancel function;
      `next` is the closer's position in its script. */
  datatype Session = Session(
    once: bool, cancels: nat, cancelled: bool, next: nat, effects: seq<Effect>, doneCloses: nat)

  datatype Signal = ParentEnds | StopCalled | CloserMoves

  /** `closeResources` in the order of its calls. */
  function Resources(): seq<Effect> { [LinkStopped, TransportClosed, DeviceClosed] }

  /** The closer: it waits, closes the resources one by one, and closes `done`. */
  const LAST: nat := 5

  function New(): Session { Session(false, 0, false, 0, [], 0) }

  predicate Enabled(s: Session, step: Signal) {
    step.CloserMoves? ==> s.next < LAST && (s.next == 0 ==> s.cancelled)
  }

  function Do(s: Session, step: Signal): Session
    requires Enabled(s, step)
  {
    match step
    case ParentEnds => s.(cancelled := true)
    case StopCalled =>
      if s.once then s else s.(once := true, cancels := s.cancels + 1, cancelled := true)
    case CloserMoves =>
      if s.next == 0 then s.(next := 1)
      else if s.next <= |Resources()| then s.(next := s.next + 1, effects := s.effects + [Resources()[s.next - 1]])
      else s.(next := s.next + 1, doneCloses := s.doneCloses + 1)
  }

  predicate CanRun(s: Session, steps: seq<Signal>)
    decreases |steps|
  {
    steps == [] || (Enabled(s, steps[0]) && CanRun(Do(s, steps[0]), steps[1..]))
  }

  function After(s: Session, steps: seq<Signal>): Session
    requires CanRun(s, steps)
    decreases |steps|
  {
    if steps == [] then s else After(Do(s, steps[0]), steps[1..])
  }

  predicate Inv(s: Session) {
    && s.next <= LAST
    && (s.next > 0 || s.once ==> s.cancelled)
    && s.effects == Resources()[..if s.next == 0 then 0 else if s.next == LAST then 3 else s.next - 1]
    && s.doneCloses == (if s.next == LAST then 1 else 0)
    && s.cancels == (if s.once then 1 else 0)
  }

  predicate Stopped(steps: seq<Signal>) { StopCalled in steps || ParentEnds in steps }

  function IsMove(step: Signal): nat { if step.CloserMoves? then 1 else 0 }

  lemma {:induction false} Run(s: Session, steps: seq<Signal>)
    requires Inv(s) && CanRun(s, steps)
    ensures Inv(After(s, steps))
    ensures After(s, steps).cancelled <==> s.cancelled || Stopped(steps)
    ensures After(s, steps).next == s.next + Sum(IsMove, steps)
    decreases |steps|
  {
    if steps != [] {
      Run(Do(s, steps[0]), steps[1..]);
      assert steps == [steps[0]] + steps[1..];
    }
  }

  /** However often and whenever it is stopped: the cancel function is called at most once, `done` is
      closed at most once, and it is closed only after a stop or the end of the parent context, with
      the link stopped, the connection closed and the device closed, in this order. */
  lemma DoneMeansClosed(steps: seq<Signal>)
    requires CanRun(New(), steps)
    ensures var s := After(New(), steps);
            && s.cancels <= 1 && s.doneCloses <= 1
            && s.effects <= [LinkStopped, TransportClosed, DeviceClosed]
            && (s.doneCloses == 1 ==> s.effects == [LinkStopped, TransportClosed, DeviceClosed])
            && (s.effects == [] || StopCalled in steps || ParentEnds in steps)
            && (s.doneCloses == 0 || StopCalled in steps || ParentEnds in steps)
  {
    Run(New(), steps);
  }

  /** After a cancellation the closer can always move until `done` is closed, and its fifth move
      closes it. */
  lemma CancelledEnds(steps: seq<Signal>)
    requires CanRun(New(), steps) && Stopped(steps)
    ensures var s := After(New(), steps);
            && (s.doneCloses == 1 <==> Sum(IsMove, steps) == 5)
            && (s.doneCloses == 0 ==> Enabled(s, CloserMoves))
  {
    Run(New(), steps);
  }
}
