/**
  The host program: startup, the per-frame dispatch with the simulation
  selector, and cleanup. Every call the host makes through a descriptor's
  operation reference is into code it cannot see, so the model records those
  calls, in order, as a trace of events.
*/
module Host {

  import opened Wrappers
  import opened Registry

  /** One call made through an operation reference. */
  datatype Event = Call(fn: Callback)

  /** The module behind registry id `id`. */
  function Owner(id: int): SimKind
    requires 0 <= id < SimCount
  {
    XSimulations[id].owner
  }

  /** The calls `if (sim && sim->op) sim->op()` makes: one, or none when either pointer is NULL. */
  function Invoke(d: Option<Descriptor>, op: Op): (t: seq<Event>)
    ensures |t| <= 1
    ensures t != [] <==> d.Some? && d.value.Handler(op).Some?
    ensures t != [] ==> t[0] == Call(d.value.Handler(op).value)
  {
    if d.Some? && d.value.Handler(op).Some? then [Call(d.value.Handler(op).value)] else []
  }

  /**
    `simulations_get(id)->name`, dereferenced without a NULL check: well
    defined exactly for the ids the registry holds.
  */
  function Label(id: int): string
    requires 0 <= id < SimCount
  {
    Get(id).value.name
  }

  /** What the UI reports during one frame: whether the combo box is open and which items were clicked. */
  datatype FrameInput = FrameInput(comboOpen: bool, clicked: seq<bool>)

  /** The calls the selector makes and the id selected afterwards. */
  datatype Selection = Selection(calls: seq<Event>, current: int)

  /**
    The selector loop from item i on: a clicked item destroys the outgoing
    simulation, makes itself current and initialises itself; the loop then
    goes on with the remaining items.
  */
  function Selector(current: int, clicked: seq<bool>, i: nat): Selection
    decreases |clicked| - i
  {
    if i >= |clicked| then Selection([], current)
    else if clicked[i] then
      var rest := Selector(i, clicked, i + 1);
      Selection(Invoke(Get(current), Destroy) + Invoke(Get(i), Init) + rest.calls, rest.current)
    else
      Selector(current, clicked, i + 1)
  }

  /** The selector panel: its items are only offered while the combo box is open. */
  function SelectorOf(current: int, input: FrameInput): Selection
  {
    if input.comboOpen then Selector(current, input.clicked, 0) else Selection([], current)
  }

  /**
    The calls of one frame: update on the simulation active when the frame
    starts, then the selector, then the parameter, plot and render panels on
    the simulation active after the selector.
  */
  function FrameCalls(current: int, input: FrameInput): seq<Event>
  {
    var s := SelectorOf(current, input);
    Invoke(Get(current), Update) + s.calls + Panels(s.current)
  }

  /** The parameter, plot and render panels, in that order, on simulation `id`. */
  function Panels(id: int): seq<Event>
  {
    Invoke(Get(id), ParamsUi) + Invoke(Get(id), PlotUi) + Invoke(Get(id), Render)
  }

  /** Every registry entry fills every operation reference, so each dispatch is one call to its own module. */
  lemma InvokeRegistered(id: int, op: Op)
    requires 0 <= id < SimCount
    ensures Invoke(Get(id), op) == [Call(Callback(Owner(id), op))]
  {
  }

  // ---------------------------------------------------------------------------
  // The lifecycle every simulation must follow
  // ---------------------------------------------------------------------------

  /** Whether some simulation is live (initialised and not yet destroyed), and which. */
  datatype Phase = Idle | Live(sim: SimKind)

  /**
    One call checked against the lifecycle: init only when nothing is live,
    destroy and every other operation only on the live simulation. None marks
    a violation.
  */
  function Step(p: Phase, e: Event): Option<Phase>
  {
    match e.fn.op
    case Init => if p == Idle then Some(Live(e.fn.owner)) else None
    case Destroy => if p == Live(e.fn.owner) then Some(Idle) else None
    case _ => if p == Live(e.fn.owner) then Some(p) else None
  }

  /** A whole trace checked against the lifecycle, from phase p. */
  function Replay(p: Phase, t: seq<Event>): Option<Phase>
    decreases t
  {
    if t == [] then Some(p)
    else match Step(p, t[0])
      case None => None
      case Some(q) => Replay(q, t[1..])
  }

  /** Checking a trace in two pieces is checking it whole. */
  lemma {:induction false} ReplayAppend(p: Phase, a: seq<Event>, b: seq<Event>)
    ensures Replay(p, a + b) == match Replay(p, a) case None => None case Some(q) => Replay(q, b)
    decreases a
  {
    if a == [] {
      assert a + b == b;
    } else {
      assert (a + b)[0] == a[0] && (a + b)[1..] == a[1..] + b;
      match Step(p, a[0])
      case None =>
      case Some(q) => ReplayAppend(q, a[1..], b);
    }
  }

  /** Three pieces, as a frame is built. */
  lemma ReplayThen(p: Phase, a: seq<Event>, q: Phase, b: seq<Event>, r: Phase)
    requires Replay(p, a) == Some(q) && Replay(q, b) == Some(r)
    ensures Replay(p, a + b) == Some(r)
  {
    ReplayAppend(p, a, b);
  }

  /** Every selector step tears down the live simulation before it brings up the next one. */
  lemma {:induction false} SelectorKeepsOneLive(current: int, clicked: seq<bool>, i: nat)
    requires 0 <= current < SimCount && |clicked| <= SimCount
    ensures 0 <= Selector(current, clicked, i).current < SimCount
    ensures Replay(Live(Owner(current)), Selector(current, clicked, i).calls)
         == Some(Live(Owner(Selector(current, clicked, i).current)))
    decreases |clicked| - i
  {
    if i < |clicked| {
      if clicked[i] {
        SelectorKeepsOneLive(i, clicked, i + 1);
        var rest := Selector(i, clicked, i + 1);
        var pair := Invoke(Get(current), Destroy) + Invoke(Get(i), Init);
        assert pair == [Call(Callback(Owner(current), Destroy)), Call(Callback(Owner(i), Init))];
        assert pair[1..][1..] == [];
        assert Replay(Live(Owner(current)), pair) == Replay(Idle, pair[1..]) == Some(Live(Owner(i)));
        ReplayThen(Live(Owner(current)), pair, Live(Owner(i)), rest.calls, Live(Owner(rest.current)));
      } else {
        SelectorKeepsOneLive(current, clicked, i + 1);
      }
    }
  }

  /** A frame starts and ends with exactly the current simulation live, and breaks no lifecycle rule. */
  lemma FrameKeepsOneLive(current: int, input: FrameInput)
    requires 0 <= current < SimCount && |input.clicked| == SimCount
    ensures 0 <= SelectorOf(current, input).current < SimCount
    ensures Replay(Live(Owner(current)), FrameCalls(current, input))
         == Some(Live(Owner(SelectorOf(current, input).current)))
  {
    var s := SelectorOf(current, input);
    if input.comboOpen {
      SelectorKeepsOneLive(current, input.clicked, 0);
    }
    var here, next := Live(Owner(current)), Live(Owner(s.current));
    var u := Invoke(Get(current), Update);
    InvokeRegistered(current, Update);
    assert Replay(here, u) == Some(here);
    PanelsStayLive(s.current);
    ReplayThen(here, u, here, s.calls, next);
    ReplayThen(here, u + s.calls, next, Panels(s.current), next);
  }

  /** The three panels break no lifecycle rule and leave their simulation live. */
  lemma PanelsStayLive(id: int)
    requires 0 <= id < SimCount
    ensures Replay(Live(Owner(id)), Panels(id)) == Some(Live(Owner(id)))
  {
    var p := Live(Owner(id));
    InvokeRegistered(id, ParamsUi);
    InvokeRegistered(id, PlotUi);
    InvokeRegistered(id, Render);
    var t := Panels(id);
    assert t == [Call(Callback(Owner(id), ParamsUi)), Call(Callback(Owner(id), PlotUi)), Call(Callback(Owner(id), Render))];
    assert t[1..][1..][1..] == [];
    assert Replay(p, t) == Replay(p, t[1..]) == Replay(p, t[1..][1..]) == Some(p);
  }

  // ---------------------------------------------------------------------------
  // The shape of one frame
  // ---------------------------------------------------------------------------

  /** Items the selector passes without a click change nothing. */
  lemma {:induction false} SkipUnclicked(current: int, clicked: seq<bool>, i: nat, j: nat)
    requires i <= j <= |clicked|
    requires forall k :: i <= k < j ==> !clicked[k]
    ensures Selector(current, clicked, i) == Selector(current, clicked, j)
    decreases j - i
  {
    if i < j {
      SkipUnclicked(current, clicked, i + 1, j);
    }
  }

  /** The click of exactly item i, as the UI reports it. */
  function OnlyClicked(i: int): (clicked: seq<bool>)
    ensures |clicked| == SimCount
    ensures forall k :: 0 <= k < SimCount ==> (clicked[k] <==> k == i)
  {
    seq(SimCount, k => k == i)
  }

  /** `update` is the first call of every frame, before any UI callback. */
  lemma UpdateComesFirst(current: int, input: FrameInput)
    requires 0 <= current < SimCount
    ensures |FrameCalls(current, input)| > 0
    ensures FrameCalls(current, input)[0] == Call(Callback(Owner(current), Update))
  {
  }

  /** params_ui, plot_ui and render close every frame, in that order, on the simulation active after the selector. */
  lemma PanelsComeLast(current: int, input: FrameInput)
    requires 0 <= current < SimCount && |input.clicked| == SimCount
    ensures var t, s := FrameCalls(current, input), SelectorOf(current, input).current;
      && 0 <= s < SimCount && |t| >= 4
      && t[|t| - 3..] == [Call(Callback(Owner(s), ParamsUi)), Call(Callback(Owner(s), PlotUi)), Call(Callback(Owner(s), Render))]
  {
    FrameKeepsOneLive(current, input);
    var s := SelectorOf(current, input).current;
    var t := FrameCalls(current, input);
    var panels := [Call(Callback(Owner(s), ParamsUi)), Call(Callback(Owner(s), PlotUi)), Call(Callback(Owner(s), Render))];
    assert t == Invoke(Get(current), Update) + SelectorOf(current, input).calls + panels;
  }

  /**
    Selecting item i runs, in this order: update on the outgoing simulation,
    its destroy, the incoming init, then the three panels on the incoming one.
  */
  lemma SwitchOrder(current: int, i: int)
    requires 0 <= current < SimCount && 0 <= i < SimCount
    ensures FrameCalls(current, FrameInput(true, OnlyClicked(i))) == [
      Call(Callback(Owner(current), Update)),
      Call(Callback(Owner(current), Destroy)),
      Call(Callback(Owner(i), Init)),
      Call(Callback(Owner(i), ParamsUi)),
      Call(Callback(Owner(i), PlotUi)),
      Call(Callback(Owner(i), Render))]
    ensures SelectorOf(current, FrameInput(true, OnlyClicked(i))).current == i
  {
    var clicked := OnlyClicked(i);
    SkipUnclicked(current, clicked, 0, i);
    SkipUnclicked(i, clicked, i + 1, SimCount);
    assert Selector(current, clicked, 0).calls
        == [Call(Callback(Owner(current), Destroy)), Call(Callback(Owner(i), Init))];
  }

  /**
    Clicking the item that is already active is not ignored: the simulation
    is destroyed and initialised again.
  */
  lemma ReselectRestarts(current: int)
    requires 0 <= current < SimCount
    ensures var t := FrameCalls(current, FrameInput(true, OnlyClicked(current)));
      |t| == 6 && t[1] == Call(Callback(Owner(current), Destroy)) && t[2] == Call(Callback(Owner(current), Init))
  {
    SwitchOrder(current, current);
  }

  /** With the combo box closed a frame is update and the three panels on the same simulation. */
  lemma ClosedSelectorKeepsSimulation(current: int, clicked: seq<bool>)
    requires 0 <= current < SimCount
    ensures SelectorOf(current, FrameInput(false, clicked)).current == current
    ensures FrameCalls(current, FrameInput(false, clicked)) == [
      Call(Callback(Owner(current), Update)),
      Call(Callback(Owner(current), ParamsUi)),
      Call(Callback(Owner(current), PlotUi)),
      Call(Callback(Owner(current), Render))]
  {
  }

  // ---------------------------------------------------------------------------
  // A whole run: init once, any number of frames, cleanup once
  // ---------------------------------------------------------------------------

  /** Every item list the UI reports has one entry per registry id. */
  predicate WellFormed(inputs: seq<FrameInput>)
  {
    forall k :: 0 <= k < |inputs| ==> |inputs[k].clicked| == SimCount
  }

  /** The calls of the frames in order, then cleanup's destroy, starting from id `current`. */
  function RunCalls(current: int, inputs: seq<FrameInput>): seq<Event>
    decreases |inputs|
  {
    if inputs == [] then Invoke(Get(current), Destroy)
    else FrameCalls(current, inputs[0]) + RunCalls(SelectorOf(current, inputs[0]).current, inputs[1..])
  }

  /** Peeling one frame off the remaining inputs. */
  lemma RunCallsStep(current: int, inputs: seq<FrameInput>, k: int)
    requires 0 <= k < |inputs|
    ensures RunCalls(current, inputs[k..])
            == FrameCalls(current, inputs[k]) + RunCalls(SelectorOf(current, inputs[k]).current, inputs[k + 1..])
  {
  }

  lemma AppendAssoc(a: seq<Event>, b: seq<Event>, c: seq<Event>)
    ensures (a + b) + c == a + (b + c)
  {
  }

  /** Every call of a program run: startup's init, the frames, cleanup's destroy. */
  function ProgramCalls(inputs: seq<FrameInput>): seq<Event>
  {
    Invoke(Get(SimNone), Init) + RunCalls(SimNone, inputs)
  }

  /** From the live current simulation, the frames and cleanup leave nothing live and break no rule. */
  lemma {:induction false} RunEndsIdle(current: int, inputs: seq<FrameInput>)
    requires 0 <= current < SimCount && WellFormed(inputs)
    ensures Replay(Live(Owner(current)), RunCalls(current, inputs)) == Some(Idle)
    decreases |inputs|
  {
    if inputs == [] {
      assert RunCalls(current, inputs) == [Call(Callback(Owner(current), Destroy))];
      assert RunCalls(current, inputs)[1..] == [];
    } else {
      var next := SelectorOf(current, inputs[0]).current;
      FrameKeepsOneLive(current, inputs[0]);
      assert WellFormed(inputs[1..]) by {
        forall k | 0 <= k < |inputs[1..]| ensures |inputs[1..][k].clicked| == SimCount {
          assert inputs[1..][k] == inputs[k + 1];
        }
      }
      RunEndsIdle(next, inputs[1..]);
      ReplayThen(Live(Owner(current)), FrameCalls(current, inputs[0]), Live(Owner(next)),
                 RunCalls(next, inputs[1..]), Idle);
    }
  }

  /**
    Over a whole run every init is matched by exactly one later destroy of
    the same simulation, at most one simulation is live at any time, and no
    operation reaches a simulation that is not live.
  */
  lemma ProgramIsBalanced(inputs: seq<FrameInput>)
    requires WellFormed(inputs)
    ensures Replay(Idle, ProgramCalls(inputs)) == Some(Idle)
  {
    var start := Invoke(Get(SimNone), Init);
    assert start == [Call(Callback(NoneSim, Init))] && start[1..] == [];
    RunEndsIdle(SimNone, inputs);
    ReplayThen(Idle, start, Live(NoneSim), RunCalls(SimNone, inputs), Idle);
  }

  // ---------------------------------------------------------------------------
  // The host's state and its three entry points
  // ---------------------------------------------------------------------------

  /** The host: the selected id, the descriptor pointer and the calls made so far. */
  class App {
    /** current_sim */
    var current: int
    /** state.sim */
    var sim: Option<Descriptor>
    /** Every call made through an operation reference, in order. */
    var trace: seq<Event>
    /** False once cleanup has run. */
    var running: bool

    /**
      The selected id is always a registry id, the pointer is its entry, and
      the trace has respected the lifecycle: the selected simulation is live
      while the program runs and nothing is live after cleanup.
    */
    predicate Valid()
      reads this
    {
      && 0 <= current < SimCount
      && sim == Get(current)
      && Replay(Idle, trace) == Some(if running then Live(Owner(current)) else Idle)
    }

    /** `if (state.sim && state.sim->op) state.sim->op();` */
    method Dispatch(op: Op)
      modifies this
      ensures trace == old(trace) + Invoke(sim, op)
      ensures current == old(current) && sim == old(sim) && running == old(running)
    {
      if sim.Some? && sim.value.Handler(op).Some? {
        trace := trace + [Call(sim.value.Handler(op).value)];
      }
    }

    /** Startup (init): select SIM_NONE, take its descriptor, and call its init once if present. */
    constructor ()
      ensures Valid() && running
      ensures current == SimNone && sim == Get(SimNone)
      ensures trace == Invoke(Get(SimNone), Init)
    {
      current := SimNone;
      sim := Get(SimNone);
      trace := [];
      running := true;
      new;
      InitRegistry();
      Dispatch(Init);
      assert trace == [Call(Callback(NoneSim, Init))] && trace[1..] == [];
    }

    /**
      One frame: update on the active simulation, then the selector (a clicked
      item, even the active one, destroys the outgoing simulation, switches and
      initialises the incoming one), then params_ui, plot_ui and render on
      whatever is active then.
    */
    method Frame(input: FrameInput)
      requires Valid() && running && |input.clicked| == SimCount
      modifies this
      ensures Valid() && running
      ensures trace == old(trace) + FrameCalls(old(current), input)
      ensures current == SelectorOf(old(current), input).current
    {
      Dispatch(Update);
      SelectorPanel(input);
      DrawPanels();
      assert trace == old(trace) + FrameCalls(old(current), input);
      FrameKeepsOneLive(old(current), input);
      ReplayThen(Idle, old(trace), Live(Owner(old(current))), FrameCalls(old(current), input), Live(Owner(current)));
    }

    /** params_ui, plot_ui and render on the active simulation. */
    method DrawPanels()
      requires sim == Get(current)
      modifies this
      ensures trace == old(trace) + Panels(current)
      ensures current == old(current) && sim == old(sim) && running == old(running)
    {
      Dispatch(ParamsUi);
      Dispatch(PlotUi);
      Dispatch(Render);
    }

    /**
      The selector panel of a frame. The source looks up the current name and
      each item's name without a NULL check; Valid() keeps both lookups in range.
    */
    method SelectorPanel(input: FrameInput)
      requires 0 <= current < SimCount && sim == Get(current) && |input.clicked| == SimCount
      modifies this
      ensures 0 <= current < SimCount && sim == Get(current) && running == old(running)
      ensures trace == old(trace) + SelectorOf(old(current), input).calls
      ensures current == SelectorOf(old(current), input).current
    {
      var currentName := Label(current);
      if input.comboOpen {
        var i := 0;
        while i < SimCount
          invariant 0 <= i <= SimCount
          invariant 0 <= current < SimCount && sim == Get(current) && running == old(running)
          invariant old(trace) + Selector(old(current), input.clicked, 0).calls == trace + Selector(current, input.clicked, i).calls
          invariant Selector(old(current), input.clicked, 0).current == Selector(current, input.clicked, i).current
        {
          Offer(i, input.clicked);
          i := i + 1;
        }
        assert Selector(current, input.clicked, SimCount) == Selection([], current);
        assert trace + [] == trace;
      }
    }

    /**
      One item of the selector loop: its name is looked up, and a click on it
      switches to it. The calls made, followed by what the rest of the loop
      makes, are what the loop makes from this item on.
    */
    method Offer(i: int, clicked: seq<bool>)
      requires 0 <= i < |clicked| && i < SimCount && 0 <= current < SimCount && sim == Get(current)
      modifies this
      ensures 0 <= current < SimCount && sim == Get(current) && running == old(running)
      ensures old(trace) + Selector(old(current), clicked, i).calls == trace + Selector(current, clicked, i + 1).calls
      ensures Selector(old(current), clicked, i).current == Selector(current, clicked, i + 1).current
      ensures clicked[i] ==> current == i
      ensures !clicked[i] ==> current == old(current) && trace == old(trace)
    {
      var itemName := Label(i);
      if clicked[i] {
        ghost var pair := Invoke(Get(current), Destroy) + Invoke(Get(i), Init);
        ghost var tail := Selector(i, clicked, i + 1);
        assert Selector(current, clicked, i) == Selection(pair + tail.calls, tail.current);
        Switch(i);
        assert old(trace) + (pair + tail.calls) == (old(trace) + pair) + tail.calls;
      }
    }

    /** Selecting item i: the outgoing destroy, then the switch of id and descriptor, then the incoming init. */
    method Switch(i: int)
      requires 0 <= i < SimCount
      modifies this
      ensures current == i && sim == Get(i) && running == old(running)
      ensures trace == old(trace) + Invoke(old(sim), Destroy) + Invoke(Get(i), Init)
    {
      Dispatch(Destroy);
      current := i;
      sim := Get(current);
      Dispatch(Init);
    }

    /** Cleanup: the active simulation's destroy, once, and the registry's shutdown hook. */
    method Cleanup()
      requires Valid() && running
      modifies this
      ensures Valid() && !running
      ensures current == old(current)
      ensures trace == old(trace) + Invoke(Get(current), Destroy)
    {
      Dispatch(Destroy);
      ShutdownRegistry();
      running := false;
      ReplayAppend(Idle, old(trace), Invoke(Get(current), Destroy));
    }
  }

  /**
    The application's callback order: init once, then one frame per input,
    then cleanup. The calls it makes are exactly those of ProgramCalls.
  */
  method Run(inputs: seq<FrameInput>) returns (trace: seq<Event>)
    requires WellFormed(inputs)
    ensures trace == ProgramCalls(inputs)
  {
    var app := new App();
    var k := 0;
    while k < |inputs|
      invariant 0 <= k <= |inputs|
      invariant app.Valid() && app.running
      invariant app.trace + RunCalls(app.current, inputs[k..]) == ProgramCalls(inputs)
    {
      ghost var before, from := app.trace, app.current;
      RunCallsStep(from, inputs, k);
      app.Frame(inputs[k]);
      AppendAssoc(before, FrameCalls(from, inputs[k]), RunCalls(app.current, inputs[k + 1..]));
      k := k + 1;
    }
    app.Cleanup();
    trace := app.trace;
  }
}
