/**
  The simulation registry: the X-macro list of simulations, the enum and the
  descriptor table generated from it, the bounds-checked lookup and the
  parameter-slider dispatch.
*/
module Registry {

  import opened Wrappers

  // ---------------------------------------------------------------------------
  // Operation references
  // ---------------------------------------------------------------------------

  /** The simulation modules whose functions a descriptor can refer to. */
  datatype SimKind = NoneSim | PendulumSim | McpiSim | IsingSim | GolSim

  /** The six lifecycle operations every simulation module exposes. */
  datatype Op = Init | Destroy | Update | ParamsUi | PlotUi | Render

  /** A reference to one operation function of one module, e.g. the pendulum's update. */
  datatype Callback = Callback(owner: SimKind, op: Op)

  // ---------------------------------------------------------------------------
  // Parameters and descriptors
  // ---------------------------------------------------------------------------

  /** The kind of a tunable parameter: exactly one of float or int. */
  datatype ParamKind = FloatParam | IntParam

  /**
    A tunable parameter: its label, its kind and the slider bounds of both
    kinds (only those of its own kind are used).
  */
  datatype Parameter = Parameter(name: string, kind: ParamKind, fMin: real, fMax: real, iMin: int, iMax: int)

  /**
    A registry entry: the display name, the six operation references (each may
    be NULL, i.e. None) and the parameter array with its count.
  */
  datatype Descriptor = Descriptor(
    name: string,
    initFn: Option<Callback>,
    destroyFn: Option<Callback>,
    updateFn: Option<Callback>,
    params: Option<seq<Parameter>>,
    paramCount: int,
    paramsUiFn: Option<Callback>,
    plotUiFn: Option<Callback>,
    renderFn: Option<Callback>)
  {
    /** The operation reference the descriptor holds for `op`. */
    function Handler(op: Op): Option<Callback>
    {
      match op
      case Init => initFn
      case Destroy => destroyFn
      case Update => updateFn
      case ParamsUi => paramsUiFn
      case PlotUi => plotUiFn
      case Render => renderFn
    }
  }

  // ---------------------------------------------------------------------------
  // The X-macro list and what the preprocessor generates from it
  // ---------------------------------------------------------------------------

  /** One line X(ID, DisplayName, Init, ..., Render): its enum constant, its name and the module of its six functions. */
  datatype XLine = XLine(id: string, displayName: string, owner: SimKind)

  /** The X-macro list, in order. Ising and Game of Life are not on it. */
  const XSimulations: seq<XLine> := [
    XLine("SIM_NONE", "None", NoneSim),
    XLine("SIM_PENDULUM", "Pendulum", PendulumSim),
    XLine("SIM_MCPI", "Monte Carlo Pi", McpiSim)
  ]

  /** The enum constants generated from the list, followed by the count constant. */
  function EnumConstants(): seq<string>
  {
    seq(|XSimulations|, i requires 0 <= i < |XSimulations| => XSimulations[i].id) + ["SIM_COUNT"]
  }

  /** The value C gives an enum constant without initialiser: its position among the constants. */
  function EnumValue(constants: seq<string>, name: string): (r: Option<int>)
    ensures r.Some? ==> 0 <= r.value < |constants| && constants[r.value] == name
    ensures r.Some? ==> forall k :: 0 <= k < r.value ==> constants[k] != name
    ensures r.None? <==> name !in constants
  {
    if |constants| == 0 then None
    else if constants[0] == name then Some(0)
    else match EnumValue(constants[1..], name)
      case None => None
      case Some(k) => Some(k + 1)
  }

  const SimNone := 0
  const SimPendulum := 1
  const SimMcpi := 2
  /** SIM_COUNT: the number of simulations on the list. */
  const SimCount := |XSimulations|

  /** The table entry one X line expands to: all six references set, no parameter array. */
  function Entry(line: XLine): (d: Descriptor)
    ensures d.name == line.displayName
    ensures d.params == None && d.paramCount == 0
    ensures forall op :: d.Handler(op) == Some(Callback(line.owner, op))
  {
    Descriptor(
      line.displayName,
      Some(Callback(line.owner, Init)),
      Some(Callback(line.owner, Destroy)),
      Some(Callback(line.owner, Update)),
      None, 0,
      Some(Callback(line.owner, ParamsUi)),
      Some(Callback(line.owner, PlotUi)),
      Some(Callback(line.owner, Render)))
  }

  /** The expansion of the list with the table's X definition: one entry per line, in order. */
  function Expand(lines: seq<XLine>): (t: seq<Descriptor>)
    ensures |t| == |lines|
    ensures forall i :: 0 <= i < |lines| ==> t[i] == Entry(lines[i])
  {
    if lines == [] then [] else [Entry(lines[0])] + Expand(lines[1..])
  }

  /** g_simulations: entry i is the expansion of the i-th X line. */
  const Table: seq<Descriptor> := Expand(XSimulations)

  /** simulations_get: the entry for an id in [0, SIM_COUNT), NULL for any other id. */
  function Get(id: int): (r: Option<Descriptor>)
    ensures r.Some? <==> 0 <= id < SimCount
    ensures r.Some? ==> r.value == Entry(XSimulations[id])
  {
    if 0 <= id < SimCount then Some(Table[id]) else None
  }

  /** The registry's startup hook: its body is empty, so it changes nothing. */
  method InitRegistry()
  {
  }

  /** The registry's shutdown hook: its body is empty, so it changes nothing. */
  method ShutdownRegistry()
  {
  }

  // ---------------------------------------------------------------------------
  // Properties of the generated enum and table
  // ---------------------------------------------------------------------------

  /** The enum assigns ids in list order and SIM_COUNT is the length of the list, 3. */
  lemma EnumFollowsList()
    ensures EnumValue(EnumConstants(), "SIM_NONE") == Some(SimNone)
    ensures EnumValue(EnumConstants(), "SIM_PENDULUM") == Some(SimPendulum)
    ensures EnumValue(EnumConstants(), "SIM_MCPI") == Some(SimMcpi)
    ensures EnumValue(EnumConstants(), "SIM_COUNT") == Some(SimCount)
    ensures SimCount == 3
  {
  }

  /** The names in id order are "None", "Pendulum", "Monte Carlo Pi", and none is empty. */
  lemma TableNames()
    ensures Get(SimNone).Some? && Get(SimNone).value.name == "None"
    ensures Get(SimPendulum).Some? && Get(SimPendulum).value.name == "Pendulum"
    ensures Get(SimMcpi).Some? && Get(SimMcpi).value.name == "Monte Carlo Pi"
    ensures forall id :: 0 <= id < SimCount ==> Get(id).Some? && |Get(id).value.name| > 0
  {
  }

  /** Every reference reachable through the registry belongs to the none, pendulum or Monte Carlo module. */
  lemma IsingAndLifeUnreachable(id: int, op: Op)
    requires Get(id).Some?
    ensures Get(id).value.Handler(op).Some?
    ensures Get(id).value.Handler(op).value.owner !in {IsingSim, GolSim}
  {
  }

  // ---------------------------------------------------------------------------
  // Parameter sliders
  // ---------------------------------------------------------------------------

  /** The C `int16_t` of a parameter count. */
  newtype int16 = x: int | -0x8000 <= x < 0x8000

  /** A slider the UI is asked to draw, with the bounds it is drawn with. */
  datatype Slider =
    | FloatSlider(caption: string, fLow: real, fHigh: real)
    | IntSlider(caption: string, iLow: int, iHigh: int)

  /** The slider one parameter is drawn as: the bounds of its own kind. */
  function SliderFor(p: Parameter): (s: Slider)
    ensures s.caption == p.name
    ensures s.FloatSlider? <==> p.kind == FloatParam
    ensures s.FloatSlider? ==> s.fLow == p.fMin && s.fHigh == p.fMax
    ensures s.IntSlider? ==> s.iLow == p.iMin && s.iHigh == p.iMax
  {
    match p.kind
    case FloatParam => FloatSlider(p.name, p.fMin, p.fMax)
    case IntParam => IntSlider(p.name, p.iMin, p.iMax)
  }

  /** A value the UI may leave in a parameter's storage: within the bounds of its slider. */
  predicate IntInBounds(p: Parameter, v: int)
  {
    p.kind == IntParam && p.iMin <= v <= p.iMax
  }

  predicate FloatInBounds(p: Parameter, v: real)
  {
    p.kind == FloatParam && p.fMin <= v <= p.fMax
  }

  /**
    simulations_draw_params: visits params[0 .. count-1] in order and asks for
    exactly one slider per parameter; a count of zero or less draws nothing.
  */
  method DrawParams(params: seq<Parameter>, count: int16) returns (sliders: seq<Slider>)
    requires count as int <= |params|
    ensures |sliders| == if count < 0 then 0 else count as int
    ensures forall k :: 0 <= k < |sliders| ==> sliders[k] == SliderFor(params[k])
  {
    sliders := [];
    var i: int16 := 0;
    while i < count
      invariant 0 <= i && (if count < 0 then i == 0 else i <= count)
      invariant i as int <= |params|
      invariant |sliders| == i as int
      invariant forall k :: 0 <= k < |sliders| ==> sliders[k] == SliderFor(params[k])
    {
      var p := params[i];
      match p.kind {
        case FloatParam => sliders := sliders + [FloatSlider(p.name, p.fMin, p.fMax)];
        case IntParam => sliders := sliders + [IntSlider(p.name, p.iMin, p.iMax)];
      }
      i := i + 1;
    }
  }
}
