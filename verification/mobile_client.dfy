/** The mobile client (mobilelib/client.go) as a transition system whose steps are its critical
    sections, and what holds in every interleaving of calls. */
module MobileClient {
  import opened Sequences

  datatype Status =
    | Idle | Connecting | Connected | Disconnecting
    | ConnectFailed(message: string) | UseFailed(ping: bool, message: string)

  /** What the mutex guards, and beside it the sessions dialled so far and those stopped, in the
      order of their stops. Sessions are numbered as they are dialled. */
  datatype Data = Data(session: Option<nat>, status: Status, created: nat, stopped: seq<nat>)

  function NewClient(): Data { Data(None, Idle, 0, []) }

  /** The four calls; a request and a ping differ only in the text of their failure. */
  datatype Action = Connect | Disconnect | Use(ping: bool)

  /** How the dial, the request or the ping ends. */
  datatype Outcome = Succeeds | Fails(message: string)

  /** A call between two of its critical sections. `TookNone` is a disconnect that found no
      session; `Halted` one whose session has been stopped and waited for. */
  datatype Call =
    | Called(action: Action)
    | Dialing
    | Installing(id: nat)
    | TookNone
    | Stopping(id: nat)
    | Halted
    | Using(ping: bool)
    | Returned

  datatype World = World(data: Data, calls: seq<Call>)

  /** The next section of a call: what it does to the data and how the call goes on. */
  function Section(d: Data, c: Call, outcome: Outcome): (Data, Call) {
    match c
    case Called(Connect) =>
      if d.session.Some? then (d, Returned) else (d.(status := Connecting), Dialing)
    case Called(Disconnect) =>
      (d.(session := None, status := Disconnecting),
       if d.session.Some? then Stopping(d.session.value) else TookNone)
    case Called(Use(ping)) => (d, if d.session.Some? then Using(ping) else Returned)
    case Dialing =>
      if outcome.Succeeds? then (d.(created := d.created + 1), Installing(d.created))
      else (d.(status := ConnectFailed(outcome.message)), Returned)
    case Installing(id) => (d.(session := Some(id), status := Connected), Returned)
    case TookNone => (d.(status := Idle), Returned)
    case Stopping(id) => (d.(stopped := d.stopped + [id]), Halted)
    case Halted => (d.(status := Idle), Returned)
    case Using(ping) =>
      (d.(status := if outcome.Succeeds? then Connected else UseFailed(ping, outcome.message)), Returned)
    case Returned => (d, Returned)
  }

  datatype Step = Begin(action: Action) | Advance(i: nat, outcome: Outcome)

  predicate Enabled(w: World, s: Step) {
    s.Advance? ==> s.i < |w.calls| && !w.calls[s.i].Returned?
  }

  function Do(w: World, s: Step): World
    requires Enabled(w, s)
  {
    match s
    case Begin(action) => w.(calls := w.calls + [Called(action)])
    case Advance(i, outcome) =>
      var (d, c) := Section(w.data, w.calls[i], outcome);
      World(d, w.calls[i := c])
  }

  predicate CanRun(w: World, steps: seq<Step>)
    decreases |steps|
  {
    steps == [] || (Enabled(w, steps[0]) && CanRun(Do(w, steps[0]), steps[1..]))
  }

  function After(w: World, steps: seq<Step>): World
    requires CanRun(w, steps)
    decreases |steps|
  {
    if steps == [] then w else After(Do(w, steps[0]), steps[1..])
  }

  function Init(): World { World(NewClient(), []) }

  // ---- any interleaving of calls ----

  function Holding(id: nat): Call -> nat {
    (c: Call) => if (c.Installing? || c.Stopping?) && c.id == id then 1 else 0
  }

  /** In how many places a session is: in the hands of a call, current, or stopped. */
  function Places(w: World, id: nat): nat {
    Sum(Holding(id), w.calls)
    + (if w.data.session == Some(id) then 1 else 0)
    + multiset(w.data.stopped)[id]
  }

  /** The session was dialled, was never stopped, and nothing refers to it any more. */
  predicate Orphaned(w: World, id: nat) { id < w.data.created && Places(w, id) == 0 }

  ghost predicate AnyOrphan(w: World) { exists id: nat :: Orphaned(w, id) }

  /** The step replaces the current session by another one. */
  predicate Overwrites(w: World, s: Step) {
    s.Advance? && s.i < |w.calls| && w.calls[s.i].Installing? && w.data.session.Some?
  }

  ghost predicate Conserved(w: World) {
    forall id: nat :: Places(w, id) <= if id < w.data.created then 1 else 0
  }

  /** The session being installed is not the current one: that would be two places. */
  lemma InstallsAnother(w: World, i: nat)
    requires Conserved(w) && i < |w.calls| && w.calls[i].Installing?
    ensures w.data.session != Some(w.calls[i].id)
  {
    SumUpdate(Holding(w.calls[i].id), w.calls, i, Returned);
    assert Places(w, w.calls[i].id) <= 1;
  }

  /** What one section does to the places of one session. */
  lemma PlacesSection(w: World, s: Step, id: nat)
    requires s.Advance? && Enabled(w, s) && Conserved(w)
    ensures Accounted(w, Do(w, s), Overwrites(w, s), id)
  {
    SumUpdate(Holding(id), w.calls, s.i, Section(w.data, w.calls[s.i], s.outcome).1);
    if w.calls[s.i].Installing? { InstallsAnother(w, s.i); }
  }

  /** The session has one place more if it was just dialled, one less if it was overwritten. */
  predicate Accounted(w: World, w': World, overwritten: bool, id: nat) {
    Places(w', id) == Places(w, id)
      + (if w'.data.created > w.data.created == id then 1 else 0)
      - (if overwritten && w.data.session == Some(id) then 1 else 0)
  }

  lemma PlacesStep(w: World, s: Step, id: nat)
    requires Enabled(w, s) && Conserved(w)
    ensures Accounted(w, Do(w, s), Overwrites(w, s), id)
  {
    if s.Begin? { SumAppend(Holding(id), w.calls, Called(s.action)); } else { PlacesSection(w, s, id); }
  }

  lemma ConservedStep(w: World, s: Step)
    requires Enabled(w, s) && Conserved(w)
    ensures Conserved(Do(w, s))
    ensures AnyOrphan(Do(w, s)) <==> AnyOrphan(w) || Overwrites(w, s)
  {
    var w' := Do(w, s);
    forall id: nat
      ensures Places(w', id) <= if id < w'.data.created then 1 else 0
      ensures Orphaned(w', id) <==>
              Orphaned(w, id) || (Overwrites(w, s) && w.data.session == Some(id))
    {
      PlacesStep(w, s, id);
      assert Places(w, id) <= if id < w.data.created then 1 else 0;
    }
    if Overwrites(w, s) { assert Orphaned(w', w.data.session.value); }
    if id :| Orphaned(w, id) { assert Orphaned(w', id); }
  }

  predicate EverOverwrites(w: World, steps: seq<Step>)
    requires CanRun(w, steps)
    decreases |steps|
  {
    steps != [] && (Overwrites(w, steps[0]) || EverOverwrites(Do(w, steps[0]), steps[1..]))
  }

  lemma {:induction false} ConservedRun(w: World, steps: seq<Step>)
    requires CanRun(w, steps) && Conserved(w)
    ensures Conserved(After(w, steps))
    ensures AnyOrphan(After(w, steps)) <==> AnyOrphan(w) || EverOverwrites(w, steps)
    decreases |steps|
  {
    if steps != [] {
      ConservedStep(w, steps[0]);
      ConservedRun(Do(w, steps[0]), steps[1..]);
    }
  }

  lemma InitConserved()
    ensures Conserved(Init()) && !AnyOrphan(Init())
  {
    assert forall id: nat :: Places(Init(), id) == 0;
  }

  /** In every interleaving, a session is stopped at most once, and never while it is current or
      while another disconnect has it. */
  lemma StoppedAtMostOnce(steps: seq<Step>, id: nat)
    requires CanRun(Init(), steps)
    ensures var w := After(Init(), steps);
            && multiset(w.data.stopped)[id] <= 1
            && (id in w.data.stopped ==> w.data.session != Some(id) && id < w.data.created)
            && (forall i, j :: 0 <= i < j < |w.calls| && w.calls[i] == Stopping(id) ==>
                  w.calls[j] != Stopping(id))
            && (forall i :: 0 <= i < |w.calls| && w.calls[i] == Stopping(id) ==>
                  w.data.session != Some(id) && id !in w.data.stopped)
  {
    InitConserved();
    ConservedRun(Init(), steps);
    var w := After(Init(), steps);
    assert Places(w, id) <= 1;
    assert id in w.data.stopped <==> id in multiset(w.data.stopped);
    forall i | 0 <= i < |w.calls| && w.calls[i] == Stopping(id)
      ensures Sum(Holding(id), w.calls) >= 1
      ensures forall j :: i < j < |w.calls| ==> w.calls[j] != Stopping(id)
    {
      SumUpdate(Holding(id), w.calls, i, Returned);
      forall j | i < j < |w.calls| ensures w.calls[j] != Stopping(id) {
        SumUpdate(Holding(id), w.calls[i := Returned], j, Returned);
      }
    }
  }

  /** A session is orphaned in exactly the runs in which some connect installs its session over
      another one: the check at the start of `Connect` says nothing about the end of the dial. */
  lemma OrphanIffOverwritten(steps: seq<Step>)
    requires CanRun(Init(), steps)
    ensures AnyOrphan(After(Init(), steps)) <==> EverOverwrites(Init(), steps)
  {
    InitConserved();
    ConservedRun(Init(), steps);
  }

  /** An orphan stays one: no later call stops it. */
  lemma {:induction false} OrphanForever(w: World, steps: seq<Step>, id: nat)
    requires CanRun(w, steps) && Conserved(w) && Orphaned(w, id)
    ensures Orphaned(After(w, steps), id) && id !in After(w, steps).data.stopped
    decreases |steps|
  {
    if steps == [] {
      assert id in w.data.stopped <==> id in multiset(w.data.stopped);
    } else {
      PlacesStep(w, steps[0], id);
      ConservedStep(w, steps[0]);
      OrphanForever(Do(w, steps[0]), steps[1..], id);
    }
  }

  lemma {:induction false} Extend(w: World, steps: seq<Step>, s: Step)
    requires CanRun(w, steps) && Enabled(After(w, steps), s)
    ensures CanRun(w, steps + [s]) && After(w, steps + [s]) == Do(After(w, steps), s)
    decreases |steps|
  {
    if steps == [] {
      assert steps + [s] == [s] && [s][1..] == [];
    } else {
      assert (steps + [s])[0] == steps[0] && (steps + [s])[1..] == steps[1..] + [s];
      Extend(Do(w, steps[0]), steps[1..], s);
    }
  }

  /** Two connects that both pass the check: the first session is never stopped. */
  lemma TwoConnectsOrphan() returns (steps: seq<Step>)
    ensures CanRun(Init(), steps) && Orphaned(After(Init(), steps), 0)
  {
    var a, b := Advance(0, Succeeds), Advance(1, Succeeds);
    steps := [];
    Extend(Init(), steps, Begin(Connect)); steps := steps + [Begin(Connect)];
    Extend(Init(), steps, Begin(Connect)); steps := steps + [Begin(Connect)];
    Extend(Init(), steps, a); steps := steps + [a];
    Extend(Init(), steps, b); steps := steps + [b];
    Extend(Init(), steps, a); steps := steps + [a];
    Extend(Init(), steps, b); steps := steps + [b];
    Extend(Init(), steps, a); steps := steps + [a];
    Extend(Init(), steps, b); steps := steps + [b];
    SumAppend(Holding(0), [Returned], Returned);
    SumAppend(Holding(0), [], Returned);
    assert After(Init(), steps).calls == [Returned] + [Returned] && [] + [Returned] == [Returned];
  }

  // ---- the status and the session ----

  /** What a status says about the session. */
  datatype Claim = SaysConnected | SaysUsed | SaysNone

  /** The status makes the claim and the session gives it the lie. */
  predicate Lies(d: Data, claim: Claim) {
    match claim
    case SaysConnected => d.status.Connected? && d.session.None?
    case SaysUsed => d.status.UseFailed? && d.session.None?
    case SaysNone => (d.status.Idle? || d.status.ConnectFailed?) && d.session.Some?
  }

  /** The step is a critical section that writes the status. */
  predicate Writes(w: World, s: Step) {
    s.Advance? && s.i < |w.calls| &&
    match w.calls[s.i]
    case Called(Connect) => w.data.session.None?
    case Called(Disconnect) => true
    case Called(Use(_)) => false
    case Dialing => s.outcome.Fails?
    case Stopping(_) => false
    case Returned => false
    case _ => true
  }

  /** The step writes too late what was true when its call began: the answer of a request or ping
      whose session is gone, or the end of a disconnect, or of a failed dial, while there is again a
      session. */
  predicate Late(w: World, s: Step, claim: Claim) {
    s.Advance? && s.i < |w.calls| &&
    match claim
    case SaysConnected => w.calls[s.i].Using? && s.outcome.Succeeds? && w.data.session.None?
    case SaysUsed => w.calls[s.i].Using? && s.outcome.Fails? && w.data.session.None?
    case SaysNone =>
      w.data.session.Some? &&
      (w.calls[s.i].Halted? || w.calls[s.i].TookNone? || (w.calls[s.i].Dialing? && s.outcome.Fails?))
  }

  /** While a connect or a disconnect has shown its intermediate status it is still under way. */
  ghost predicate Underway(w: World) {
    && (w.data.status.Connecting? ==>
          w.data.session.None? && exists i :: 0 <= i < |w.calls| && (w.calls[i].Dialing? || w.calls[i].Installing?))
    && (w.data.status.Disconnecting? ==>
          w.data.session.None? &&
          exists i :: 0 <= i < |w.calls| && (w.calls[i].TookNone? || w.calls[i].Stopping? || w.calls[i].Halted?))
  }

  /** A claim becomes false by a late write and by nothing else, and stays so until the next write. */
  lemma LiesStep(w: World, s: Step, claim: Claim)
    requires Enabled(w, s) && Underway(w)
    ensures Lies(Do(w, s).data, claim) <==> Late(w, s, claim) || (Lies(w.data, claim) && !Writes(w, s))
  {
  }

  lemma UnderwayStep(w: World, s: Step)
    requires Enabled(w, s) && Underway(w)
    ensures Underway(Do(w, s))
  {
    var w' := Do(w, s);
    if s.Begin? {
      assert forall i :: 0 <= i < |w.calls| ==> w'.calls[i] == w.calls[i];
    } else {
      assert w'.calls[s.i] == Section(w.data, w.calls[s.i], s.outcome).1;
      assert forall i :: 0 <= i < |w.calls| && i != s.i ==> w'.calls[i] == w.calls[i];
    }
  }

  predicate NoWrites(w: World, steps: seq<Step>)
    requires CanRun(w, steps)
    decreases |steps|
  {
    steps == [] || (!Writes(w, steps[0]) && NoWrites(Do(w, steps[0]), steps[1..]))
  }

  /** The last write of the status in the run is a late one. */
  predicate LastWriteLate(w: World, steps: seq<Step>, claim: Claim)
    requires CanRun(w, steps)
    decreases |steps|
  {
    steps != [] &&
    ((Late(w, steps[0], claim) && NoWrites(Do(w, steps[0]), steps[1..])) ||
     LastWriteLate(Do(w, steps[0]), steps[1..], claim))
  }

  lemma {:induction false} LiesRun(w: World, steps: seq<Step>, claim: Claim)
    requires CanRun(w, steps) && Underway(w)
    ensures Underway(After(w, steps))
    ensures Lies(After(w, steps).data, claim) <==>
            LastWriteLate(w, steps, claim) || (Lies(w.data, claim) && NoWrites(w, steps))
    decreases |steps|
  {
    if steps != [] {
      LiesStep(w, steps[0], claim);
      UnderwayStep(w, steps[0]);
      LiesRun(Do(w, steps[0]), steps[1..], claim);
    }
  }

  /** After any interleaving, the status makes a false claim exactly when its last write was late. */
  lemma LiesIffLastWriteLate(steps: seq<Step>, claim: Claim)
    requires CanRun(Init(), steps)
    ensures Lies(After(Init(), steps).data, claim) <==> LastWriteLate(Init(), steps, claim)
  {
    LiesRun(Init(), steps, claim);
  }

  predicate Resting(w: World) { forall i :: 0 <= i < |w.calls| ==> w.calls[i].Returned? }

  /** Between calls: a session exists exactly when the status says so. */
  predicate Settled(d: Data) {
    && (d.session.Some? <==> d.status.Connected? || d.status.UseFailed?)
    && !d.status.Connecting? && !d.status.Disconnecting?
  }

  /** Once all calls have returned, the status and the session agree exactly when the last write of
      the status was not late. */
  lemma SettledIffLastWriteInTime(steps: seq<Step>)
    requires CanRun(Init(), steps) && Resting(After(Init(), steps))
    ensures Settled(After(Init(), steps).data) <==> forall claim :: !LastWriteLate(Init(), steps, claim)
  {
    var w := After(Init(), steps);
    LiesRun(Init(), steps, SaysConnected);
    LiesRun(Init(), steps, SaysUsed);
    LiesRun(Init(), steps, SaysNone);
    assert !w.data.status.Connecting? && !w.data.status.Disconnecting?;
    if Settled(w.data) {
      forall claim ensures !LastWriteLate(Init(), steps, claim) {
        LiesRun(Init(), steps, claim);
      }
    }
  }

  /** A request that answers after a disconnect: the client says "connected" with no session. */
  lemma ConnectedWithoutSession() returns (steps: seq<Step>)
    ensures CanRun(Init(), steps)
    ensures var w := After(Init(), steps);
            w.data.status == Connected && w.data.session.None? && Resting(w)
  {
    steps := [];
    var plan := [Begin(Connect), Advance(0, Succeeds), Advance(0, Succeeds), Advance(0, Succeeds),
                 Begin(Use(false)), Advance(1, Succeeds),
                 Begin(Disconnect), Advance(2, Succeeds), Advance(2, Succeeds), Advance(2, Succeeds),
                 Advance(1, Succeeds)];
    Extend(Init(), steps, plan[0]); steps := steps + [plan[0]];
    Extend(Init(), steps, plan[1]); steps := steps + [plan[1]];
    Extend(Init(), steps, plan[2]); steps := steps + [plan[2]];
    Extend(Init(), steps, plan[3]); steps := steps + [plan[3]];
    assert After(Init(), steps) == World(Data(Some(0), Connected, 1, []), [Returned]);
    Extend(Init(), steps, plan[4]); steps := steps + [plan[4]];
    Extend(Init(), steps, plan[5]); steps := steps + [plan[5]];
    Extend(Init(), steps, plan[6]); steps := steps + [plan[6]];
    Extend(Init(), steps, plan[7]); steps := steps + [plan[7]];
    assert After(Init(), steps) ==
           World(Data(None, Disconnecting, 1, []), [Returned, Using(false), Stopping(0)]);
    Extend(Init(), steps, plan[8]); steps := steps + [plan[8]];
    Extend(Init(), steps, plan[9]); steps := steps + [plan[9]];
    Extend(Init(), steps, plan[10]); steps := steps + [plan[10]];
  }

  /** A disconnect that ends after the next connect: the client says "idle" and has a session. */
  lemma IdleWithSession() returns (steps: seq<Step>)
    ensures CanRun(Init(), steps)
    ensures var w := After(Init(), steps); w.data.status == Idle && w.data.session.Some? && Resting(w)
  {
    steps := [];
    var plan := [Begin(Disconnect), Advance(0, Succeeds), Begin(Connect), Advance(1, Succeeds),
                 Advance(1, Succeeds), Advance(1, Succeeds), Advance(0, Succeeds)];
    Extend(Init(), steps, plan[0]); steps := steps + [plan[0]];
    Extend(Init(), steps, plan[1]); steps := steps + [plan[1]];
    Extend(Init(), steps, plan[2]); steps := steps + [plan[2]];
    Extend(Init(), steps, plan[3]); steps := steps + [plan[3]];
    Extend(Init(), steps, plan[4]); steps := steps + [plan[4]];
    Extend(Init(), steps, plan[5]); steps := steps + [plan[5]];
    assert After(Init(), steps) == World(Data(Some(0), Connected, 1, []), [TookNone, Returned]);
    Extend(Init(), steps, plan[6]); steps := steps + [plan[6]];
  }
}
