/** When the queue of 32 can overflow: an exact account of the updates still to come. */
module GuiCredit {
  import opened Sequences
  import opened GuiWorld
  import opened GuiExclusion

  /** How many updates goroutine `g` will still send while the UI thread does nothing. A waiter
      sends one only once its session was told to stop. */
  function Owes(stopRequested: set<nat>, g: Goroutine): nat {
    match g
    case Dialing(_) => 1
    case Handing(_, _) => 1
    case Waiting(id) => if id in stopRequested then 1 else 0
    case Requesting(_) => 1
    case Pinging(_) => 1
    case Exited => 0
  }

  function OwedBy(stopRequested: set<nat>, gos: seq<Goroutine>): nat {
    Sum(g => Owes(stopRequested, g), gos)
  }

  /** Updates queued plus updates still to come. */
  function Credit(w: World): nat { |w.queue| + OwedBy(w.stopRequested, w.gos) }

  /** What a click adds. */
  function Cost(w: World, s: Step): nat {
    match s
    case StartClicked => if w.ui.CanStart() then 1 else 0
    case StopClicked => if w.ui.session.None? || w.ui.stopping then 0 else 1
    case RequestClicked => if w.ui.vtun.None? || w.ui.requesting then 0 else 1
    case PingClicked => if w.ui.vtun.None? || w.ui.pinging then 0 else 1
    case _ => 0
  }

  lemma OwedUpdate(stopRequested: set<nat>, gos: seq<Goroutine>, i: nat, g: Goroutine)
    requires i < |gos|
    ensures OwedBy(stopRequested, gos) >= Owes(stopRequested, gos[i])
    ensures OwedBy(stopRequested, gos[i := g]) ==
            OwedBy(stopRequested, gos) - Owes(stopRequested, gos[i]) + Owes(stopRequested, g)
  {
    SumUpdate(h => Owes(stopRequested, h), gos, i, g);
  }

  lemma OwedAppend(stopRequested: set<nat>, gos: seq<Goroutine>, g: Goroutine)
    ensures OwedBy(stopRequested, gos + [g]) == OwedBy(stopRequested, gos) + Owes(stopRequested, g)
  {
    SumAppend(h => Owes(stopRequested, h), gos, g);
  }

  /** Telling one more session to stop makes at most the one lifecycle goroutine owe more. */
  lemma {:induction false} OwedStop(stopRequested: set<nat>, id: nat, gos: seq<Goroutine>)
    ensures OwedBy(stopRequested + {id}, gos) <= OwedBy(stopRequested, gos) + |Filter(IsLifer, gos)|
  {
    if gos != [] {
      OwedStop(stopRequested, id, gos[1..]);
      var f, f' := g => Owes(stopRequested, g), g => Owes(stopRequested + {id}, g);
      assert Sum(f, gos) == f(gos[0]) + Sum(f, gos[1..]);
      assert Sum(f', gos) == f'(gos[0]) + Sum(f', gos[1..]);
    }
  }

  lemma CreditClick(w: World, s: Step)
    requires Safe(w) && Enabled(w, s) && IsClick(s)
    ensures Credit(Do(w, s)) <= Credit(w) + Cost(w, s)
    ensures Credit(w) + Cost(w, s) <= QUEUE_CAPACITY ==> Do(w, s).drops == w.drops
  {
    match s {
      case StartClicked =>
        OwedAppend(w.stopRequested, w.gos, Dialing(w.ui.mode == ClientMode && w.ui.tunType == VTunOnly));
      case StopClicked =>
        if w.ui.session.Some? { OwedStop(w.stopRequested, w.ui.session.value, w.gos); }
      case RequestClicked =>
        if w.ui.vtun.Some? { OwedAppend(w.stopRequested, w.gos, Requesting(w.ui.vtun.value)); }
      case PingClicked =>
        if w.ui.vtun.Some? { OwedAppend(w.stopRequested, w.gos, Pinging(w.ui.vtun.value)); }
    }
  }

  lemma CreditBackground(w: World, s: Step)
    requires Safe(w) && Enabled(w, s) && IsBackground(s)
    ensures Credit(Do(w, s)) <= Credit(w)
    ensures Credit(w) <= QUEUE_CAPACITY ==> Do(w, s).drops == w.drops
  {
    match s {
      case DialFails(i, _) => OwedUpdate(w.stopRequested, w.gos, i, Exited);
      case DialSucceeds(i) => OwedUpdate(w.stopRequested, w.gos, i, Handing(w.nextId, w.gos[i].vtun));
      case HandsOver(i) =>
        ReplaceLifer(w, i, Exited);
        OwedUpdate(w.stopRequested, w.gos, i, Waiting(w.gos[i].id));
      case SessionEnds(_) =>
      case WaiterReports(i) =>
        ReplaceLifer(w, i, Exited);
        OwedUpdate(w.stopRequested, w.gos, i, Exited);
      case ToolReports(i, _, _) => OwedUpdate(w.stopRequested, w.gos, i, Exited);
    }
  }

  lemma CreditStep(w: World, s: Step)
    requires Safe(w) && Enabled(w, s)
    ensures Credit(Do(w, s)) <= Credit(w) + Cost(w, s)
    ensures Credit(w) + Cost(w, s) <= QUEUE_CAPACITY ==> Do(w, s).drops == w.drops
  {
    if IsClick(s) { CreditClick(w, s); } else if IsBackground(s) { CreditBackground(w, s); }
  }

  /** Every click of the run keeps the account within the queue's capacity. */
  predicate Budgeted(w: World, steps: seq<Step>)
    requires CanRun(w, steps)
    decreases |steps|
  {
    steps == [] ||
    ((IsClick(steps[0]) ==> Credit(w) + Cost(w, steps[0]) <= 32) &&
     Budgeted(Do(w, steps[0]), steps[1..]))
  }

  lemma {:induction false} BudgetedRunDropsNothing(w: World, steps: seq<Step>)
    requires Safe(w) && CanRun(w, steps) && Budgeted(w, steps) && Credit(w) <= QUEUE_CAPACITY
    ensures After(w, steps).drops == w.drops
    decreases |steps|
  {
    if steps != [] {
      SafeStep(w, steps[0]);
      CreditStep(w, steps[0]);
      BudgetedRunDropsNothing(Do(w, steps[0]), steps[1..]);
    }
  }

  /** A run whose clicks all keep to the budget never drops an update. */
  lemma BudgetPreventsDrops(steps: seq<Step>)
    requires CanRun(Init(), steps) && Budgeted(Init(), steps)
    ensures After(Init(), steps).drops == 0
  {
    BudgetedRunDropsNothing(Init(), steps);
  }

  // ---- exactness ----

  ghost predicate AllBackground(steps: seq<Step>) {
    forall k :: 0 <= k < |steps| ==> IsBackground(steps[k])
  }

  function Work(g: Goroutine): nat {
    match g
    case Dialing(_) => 4
    case Handing(_, _) => 2
    case Exited => 0
    case _ => 1
  }

  function Remaining(w: World): nat { Sum(Work, w.gos) + |w.live| }

  /** The step drops an update, or work gets less while the credit stays. */
  predicate Progress(w: World, w': World) {
    w'.drops > w.drops || (w'.drops == w.drops && Credit(w') == Credit(w) && Remaining(w') < Remaining(w))
  }

  lemma PayLifer(w: World, i: nat) returns (s: Step)
    requires Safe(w) && i < |w.gos| && IsLifer(w.gos[i]) && Owes(w.stopRequested, w.gos[i]) > 0
    ensures Enabled(w, s) && IsBackground(s) && Progress(w, Do(w, s))
  {
    match w.gos[i] {
      case Dialing(vtun) =>
        s := DialSucceeds(i);
        Pays(w, i, Handing(w.nextId, vtun));
      case Handing(id, _) =>
        s := HandsOver(i);
        Pays(w, i, Waiting(id));
      case Waiting(id) =>
        s := if id in w.live then SessionEnds(id) else WaiterReports(i);
        Pays(w, i, Exited);
    }
  }

  /** A background step that sends an owed update or prepares it. */
  lemma PayOne(w: World) returns (s: Step)
    requires Safe(w) && OwedBy(w.stopRequested, w.gos) > 0
    ensures Enabled(w, s) && IsBackground(s) && Progress(w, Do(w, s))
  {
    var i := PositiveTerm(g => Owes(w.stopRequested, g), w.gos);
    if IsLifer(w.gos[i]) {
      s := PayLifer(w, i);
    } else {
      s := ToolReports(i, "x", Ready);
      Pays(w, i, Exited);
    }
  }

  /** The accounts of a goroutine that goes on as `g`. */
  lemma Pays(w: World, i: nat, g: Goroutine)
    requires Safe(w) && i < |w.gos|
    ensures OwedBy(w.stopRequested, w.gos[i := g]) ==
            OwedBy(w.stopRequested, w.gos) - Owes(w.stopRequested, w.gos[i]) + Owes(w.stopRequested, g)
    ensures Sum(Work, w.gos[i := g]) == Sum(Work, w.gos) - Work(w.gos[i]) + Work(g)
    ensures w.gos[i].Handing? ==> w.gos[i].id !in w.stopRequested
  {
    if IsLifer(w.gos[i]) { ReplaceLifer(w, i, g); }
    SumUpdate(Work, w.gos, i, g);
    OwedUpdate(w.stopRequested, w.gos, i, g);
  }

  /** The background alone sends every update that is owed. */
  lemma {:induction false} SendEverything(w: World) returns (steps: seq<Step>)
    requires Safe(w) && Credit(w) > QUEUE_CAPACITY
    ensures CanRun(w, steps) && AllBackground(steps) && After(w, steps).drops > w.drops
    decreases Remaining(w)
  {
    var s := PayOne(w);
    var w' := Do(w, s);
    SafeStep(w, s);
    if w'.drops > w.drops {
      steps := [s];
      assert CanRun(w', steps[1..]);
    } else {
      var rest := SendEverything(w');
      steps := [s] + rest;
      assert steps[1..] == rest;
    }
  }

  ghost predicate BackgroundCanDrop(w: World) {
    exists steps :: CanRun(w, steps) && AllBackground(steps) && After(w, steps).drops > w.drops
  }

  lemma {:induction false} BackgroundIsFree(w: World, steps: seq<Step>)
    requires CanRun(w, steps) && AllBackground(steps)
    ensures Budgeted(w, steps)
    decreases |steps|
  {
    if steps != [] {
      assert IsBackground(steps[0]);
      BackgroundIsFree(Do(w, steps[0]), steps[1..]);
    }
  }

  /** The background can make the queue overflow exactly when more than 32 updates are queued or
      still to come. */
  lemma OverflowIffOverCredit(w: World)
    requires Safe(w)
    ensures BackgroundCanDrop(w) <==> Credit(w) > 32
  {
    if Credit(w) > QUEUE_CAPACITY {
      var steps := SendEverything(w);
      assert CanRun(w, steps) && AllBackground(steps) && After(w, steps).drops > w.drops;
    } else {
      forall steps | CanRun(w, steps) && AllBackground(steps) ensures After(w, steps).drops == w.drops {
        BackgroundIsFree(w, steps);
        BudgetedRunDropsNothing(w, steps);
      }
    }
  }
}
