/** The event channel of a transport connection (transport/transport.go): 42 slots, one event already
    in it when the connection is made, and one more sent by every `Close`. */
module ConnEvents {
  import opened Sequences

  const SLOTS: nat := 42

  datatype Event = EventUp | EventDown

  /** A connection's channel and how often its WebSocket was closed. */
  class Conn {
    var events: seq<Event>
    var socketCloses: nat

    /** `Dial` and `Accept`. */
    constructor ()
      ensures Contents() == New()
    {
      events, socketCloses := [EventUp], 0;
    }

    function Contents(): Channel
      reads this
    {
      Channel(events, socketCloses)
    }

    /** Runs to its end, or waits in the send with nothing changed. */
    method Close() returns (waits: bool)
      modifies this
      ensures waits == !Enabled(old(Contents()), CloseRuns)
      ensures Contents() == if waits then old(Contents()) else Do(old(Contents()), CloseRuns)
    {
      if |events| >= SLOTS {
        return true;
      }
      events := events + [EventDown];
      socketCloses := socketCloses + 1;
      return false;
    }

    /** What the owner of `Events()` receives next. */
    method Receive() returns (event: Option<Event>)
      modifies `events
      ensures event == if old(events) == [] then None else Some(old(events)[0])
      ensures Contents() == if event.None? then old(Contents()) else Do(old(Contents()), EventTaken)
    {
      if events == [] {
        return None;
      }
      event := Some(events[0]);
      events := events[1..];
    }
  }

  datatype Channel = Channel(events: seq<Event>, socketCloses: nat)

  datatype Step = CloseRuns | EventTaken

  function New(): Channel { Channel([EventUp], 0) }

  predicate Enabled(c: Channel, s: Step) {
    if s.CloseRuns? then |c.events| < SLOTS else c.events != []
  }

  function Do(c: Channel, s: Step): Channel
    requires Enabled(c, s)
  {
    if s.CloseRuns? then Channel(c.events + [EventDown], c.socketCloses + 1)
    else c.(events := c.events[1..])
  }

  predicate CanRun(c: Channel, steps: seq<Step>)
    decreases |steps|
  {
    steps == [] || (Enabled(c, steps[0]) && CanRun(Do(c, steps[0]), steps[1..]))
  }

  function After(c: Channel, steps: seq<Step>): Channel
    requires CanRun(c, steps)
    decreases |steps|
  {
    if steps == [] then c else After(Do(c, steps[0]), steps[1..])
  }

  function IsClose(s: Step): nat { if s.CloseRuns? then 1 else 0 }

  function IsTake(s: Step): nat { if s.EventTaken? then 1 else 0 }

  function Closes(steps: seq<Step>): nat { Sum(IsClose, steps) }

  function Takes(steps: seq<Step>): nat { Sum(IsTake, steps) }

  /** The events that `closes` calls of `Close` send after the one sent first. */
  function Sent(closes: nat): (events: seq<Event>)
    ensures |events| == closes + 1 && events[0] == EventUp
    ensures forall k :: 1 <= k <= closes ==> events[k] == EventDown
  {
    [EventUp] + seq(closes, _ => EventDown)
  }

  /** `c` has seen so many closes and receives. */
  predicate Reached(c: Channel, closes: nat, takes: nat) {
    && c.socketCloses == closes && |c.events| == closes + 1 - takes && |c.events| <= SLOTS
    && forall k :: 0 <= k < |c.events| ==> c.events[k] == (if k + takes == 0 then EventUp else EventDown)
  }

  lemma ReachedStep(c: Channel, s: Step, closes: nat, takes: nat)
    requires Reached(c, closes, takes) && Enabled(c, s)
    ensures Reached(Do(c, s), closes + IsClose(s), takes + IsTake(s))
  {
  }

  lemma {:induction false} ReachedRun(c: Channel, steps: seq<Step>, closes: nat, takes: nat)
    requires Reached(c, closes, takes) && CanRun(c, steps)
    ensures Reached(After(c, steps), closes + Closes(steps), takes + Takes(steps))
    decreases |steps|
  {
    if steps != [] {
      ReachedStep(c, steps[0], closes, takes);
      ReachedRun(Do(c, steps[0]), steps[1..], closes + IsClose(steps[0]), takes + IsTake(steps[0]));
    }
  }

  /** After any run of closes and receives, what was received and what is left together are one
      `EventUp` and then one `EventDown` for each close; each close that ran closed the WebSocket once;
      and a further `Close` waits exactly when 41 more closes ran than events were received. */
  lemma CloseWaitsIff(steps: seq<Step>)
    requires CanRun(New(), steps)
    ensures var c := After(New(), steps);
            && Takes(steps) <= Closes(steps) + 1 && c.events == Sent(Closes(steps))[Takes(steps)..]
            && c.socketCloses == Closes(steps)
            && (!Enabled(c, CloseRuns) <==> Closes(steps) == Takes(steps) + 41)
  {
    ReachedRun(New(), steps, 0, 0);
    var c := After(New(), steps);
    assert c.events == Sent(Closes(steps))[Takes(steps)..];
  }
}
