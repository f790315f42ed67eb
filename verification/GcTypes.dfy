/** The data of the block interpreter: gcode.h, for three linear axes, one spindle,
    no tool table, no plugins and no auxiliary ports. Numbers are exact reals. */
module GcTypes {

  datatype Option<+T> = None | Some(value: T)

  // ---------------------------------------------------------------- vectors over the axes

  datatype Vec = Vec(x: real, y: real, z: real) {
    function At(i: nat): real
      requires i < 3
    {
      if i == 0 then x else if i == 1 then y else z
    }

    function Put(i: nat, v: real): Vec
      requires i < 3
    {
      if i == 0 then Vec(v, y, z) else if i == 1 then Vec(x, v, z) else Vec(x, y, v)
    }

    function Plus(o: Vec): Vec {
      Vec(x + o.x, y + o.y, z + o.z)
    }

    function Minus(o: Vec): Vec {
      Vec(x - o.x, y - o.y, z - o.z)
    }

    function Times(k: real): Vec {
      Vec(x * k, y * k, z * k)
    }

    function Mul(o: Vec): Vec {
      Vec(x * o.x, y * o.y, z * o.z)
    }
  }

  const ORIGIN := Vec(0.0, 0.0, 0.0)

  const ONES := Vec(1.0, 1.0, 1.0)

  /** A set of axes, as a bit mask. */
  datatype Axes = Axes(x: bool, y: bool, z: bool) {
    predicate Any() {
      x || y || z
    }

    predicate Has(i: nat)
      requires i < 3
    {
      if i == 0 then x else if i == 1 then y else z
    }
  }

  const NO_AXES := Axes(false, false, false)

  /** `a` on the named axes, `b` on the others. */
  function Pick(m: Axes, a: Vec, b: Vec): Vec {
    Vec(if m.x then a.x else b.x, if m.y then a.y else b.y, if m.z then a.z else b.z)
  }

  // ---------------------------------------------------------------- enumerations

  datatype Status =
    | Ok
    | ExpectedCommandLetter | BadNumberFormat | UnsupportedCommand | ModalGroupViolation | AxisCommandConflict
    | CommandValueNotInteger | WordRepeated | NegativeValue | IllegalToolTableEntry | InvalidLineNumber
    | UndefinedFeedRate | ValueOutOfRange | ValueWordMissing | NoAxisWords | NoAxisWordsInPlane
    | UnsupportedCoordSys | CoordSystemLocked | G53InvalidMotionMode | AxisWordsExist | InvalidTarget
    | ArcRadiusError | NoOffsetsInPlane | IllegalPlane | UnusedWords | InvalidJogCommand | TravelExceeded
    | G43DynamicAxisError | InvalidStatement | NonPositiveValue | InvalidRetractPosition

  /** The reasons to refuse a block. */
  type Refusal = s: Status | s != Ok witness ExpectedCommandLetter

  datatype NonModal =
    | NoAction | Dwell | SetCoordinateData | GoHome0 | SetHome0 | GoHome1 | SetHome1 | AbsoluteOverride
    | SetOffset | ResetOffset | ClearOffset | RestoreOffset

  datatype Motion =
    | Seek | Linear | CwArc | CcwArc | CubicSpline | QuadraticSpline | SpindleSync | Threading
    | ChipBreak | Canned81 | Canned82 | Canned83 | Canned85 | Canned86 | Canned89
    | ProbeToward | ProbeTowardNoError | ProbeAway | ProbeAwayNoError | NoMotion
  {
    predicate Arc() {
      CwArc? || CcwArc?
    }

    predicate Probe() {
      ProbeToward? || ProbeTowardNoError? || ProbeAway? || ProbeAwayNoError?
    }
  }

  datatype Plane = XY | ZX | YZ {
    function Axis0(): nat {
      match this case XY => 0 case ZX => 2 case YZ => 1
    }

    function Axis1(): nat {
      match this case XY => 1 case ZX => 0 case YZ => 2
    }

    function AxisLinear(): nat {
      match this case XY => 2 case ZX => 1 case YZ => 0
    }
  }

  datatype FeedMode = UnitsPerMin | InverseTime | UnitsPerRev

  datatype ToolMode = CancelTlo | DynamicTlo

  datatype Flow = Running | Paused | OptionalStop | CompletedM2 | CompletedM30 | CompletedM60

  datatype OverrideCmd = NoOverride | FeedSpeedEnable | FeedSpeedDisable | FeedRate | SpindleSpeed | FeedHold

  datatype AxisCmd = NoAxisCmd | NonModalCmd | MotionCmd | ToolLengthCmd | ScalingCmd

  datatype Group = G0 | G1 | G2 | G3 | G4 | G5 | G6 | G7 | G8 | G10 | G11 | G12 | G13 | M4 | M6 | M7 | M8 | M9

  // ---------------------------------------------------------------- state

  const MM_PER_INCH := 25.4
  const MAX_LINE_NUMBER := 10000000
  const MAX_TOOL_NUMBER := 2147483647
  const JOG_LINE_NUMBER := -2

  /** Work coordinate systems G54 to G59.3. */
  type CoordId = i: nat | i < 9

  const STORE_G28 := 9
  const STORE_G30 := 10
  const STORE_G92 := 11

  /** The coordinate data in non-volatile storage. Reads succeed. */
  type Store = s: seq<Vec> | |s| == 12 witness [ORIGIN, ORIGIN, ORIGIN, ORIGIN, ORIGIN, ORIGIN,
                                                ORIGIN, ORIGIN, ORIGIN, ORIGIN, ORIGIN, ORIGIN]

  const MAX_OFFSET_ENTRIES := 4

  type OffsetId = i: nat | i < 4

  type OffsetQueue = q: seq<Vec> | |q| == 4 witness [ORIGIN, ORIGIN, ORIGIN, ORIGIN]

  datatype Coolant = Coolant(mist: bool, flood: bool)

  datatype Spindle = Spindle(on: bool, ccw: bool, rpm: real)

  datatype OverrideCtrl = OverrideCtrl(feedOff: bool, holdOff: bool, rpmOff: bool)

  datatype CoordSystem = CoordSystem(id: CoordId, xyz: Vec)

  datatype Pq = Pq(p: real, q: real)

  datatype Modal = Modal(
    motion: Motion,
    feedMode: FeedMode,
    imperial: bool,
    incremental: bool,
    plane: Plane,
    toolMode: ToolMode,
    coord: CoordSystem,
    coolant: Coolant,
    spindle: Spindle,
    ctrl: OverrideCtrl,
    retractToR: bool,
    scaling: bool,
    canned: bool,
    splinePq: Pq
  )

  datatype Canned = Canned(xyz: Vec, delta: real, dwell: real, retract: real, rapidRetract: bool, spindleOff: bool)

  datatype Scale = Scale(xyz: Vec, ijk: Vec)

  datatype State = State(
    modal: Modal,
    canned: Canned,
    feedRate: real,
    position: Vec,
    lineNumber: int,
    toolPending: int,
    toolId: int,
    offsetId: OffsetId,
    offsetQueue: OffsetQueue,
    g92Applied: bool,
    g92: Vec,
    tlo: Vec,
    scale: Scale,
    store: Store
  )

  datatype Values = Values(
    d: real, e: real, f: real, h: int, l: int, n: int, o: int, p: real, q: real, r: real, s: real, t: int, dollar: int,
    ijk: Vec, xyz: Vec, abc: Vec, uvw: Vec
  )

  /** parser_block_t, with the flags that are set while its words are read. */
  datatype Block = Block(
    jog: bool,
    nonModal: NonModal,
    overrideCmd: OverrideCmd,
    modal: Modal,
    flow: Flow,
    spindleOn: bool,
    spindleCcw: bool,
    values: Values,
    words: set<char>,
    groups: set<Group>,
    axisCmd: AxisCmd,
    axisWords: Axes,
    ijkWords: Axes,
    setTool: bool,
    setCoolant: bool,
    cannedChange: bool
  )

  // ---------------------------------------------------------------- surroundings

  /** What the driver and the settings fix for all blocks. */
  datatype Machine = Machine(
    sqrt: real -> real,
    hasProbe: bool,
    hasMist: bool,
    reversible: bool,
    encoder: bool,              // the spindle reports its turns
    optionalStopOff: bool,
    g92Volatile: bool,
    offsetLock: set<nat>,
    jogLimit: (Vec, Vec) -> Option<Vec>   // where a jog ends, or that it is refused
  ) {
    function Root(x: real): real {
      sqrt(x)
    }

    function JogEnd(target: Vec, position: Vec): Option<Vec> {
      jogLimit(target, position)
    }
  }

  datatype ProbeResult = ProbeAtTarget | ProbeAtMachine(position: Vec) | ProbeNoUpdate

  /** What the machine answers while one block is executed. */
  datatype Env = Env(checkMode: bool, singleBlock: bool, probe: ProbeResult, drillEnd: Vec)

  /** A decoded word: a letter and the number behind it, if one could be read. */
  datatype Word = Word(letter: char, number: Option<real>)

  /** One line: its words, and whether it stood behind `$J=`. */
  datatype Line = Line(jog: bool, words: seq<Word>, env: Env)

  // ---------------------------------------------------------------- what reaches the motion layer

  /** plan_line_data_t, as far as the parser fills it in. */
  datatype Plan = Plan(feed: real, inverse: bool, perRev: bool, rapid: bool, offsetId: OffsetId, line: int) {
    /** What the planner takes the feed to be. */
    function Unit(): FeedMode {
      if inverse then InverseTime else if perRev then UnitsPerRev else UnitsPerMin
    }
  }

  datatype Event =
    | Move(target: Vec, plan: Plan)
    | ArcMove(target: Vec, start: Vec, offset: Vec, radius: real, plane: Plane, turns: int, plan: Plan)
    | Spline(target: Vec, start: Vec, first: Pq, second: Pq, plan: Plan)
    | Drill(motion: Motion, target: Vec, start: Vec, plane: Plane, repeats: int, canned: Canned, retractToR: bool, plan: Plan)
    | ProbeMove(motion: Motion, target: Vec, plan: Plan)
    | Jog(target: Vec, plan: Plan)
    | Pause(seconds: real)

  /** gc_get_block_offset on all axes, and the same with the committed coordinate system. */
  function BlockOffset(st: State, modal: Modal): Vec {
    modal.coord.xyz.Plus(st.g92).Plus(st.tlo)
  }

  /** The position as the operator reads it. */
  function WorkPosition(st: State): Vec {
    st.position.Minus(BlockOffset(st, st.modal))
  }

  // ---------------------------------------------------------------- numbers

  /** C truncation towards zero. */
  function Trunc(x: real): int {
    if x >= 0.0 then x.Floor else -((-x).Floor)
  }

  /** A conversion to an unsigned 32-bit number that saturates, as the target's instruction does. */
  function ToUint32(x: real): (n: nat)
    ensures n <= 0xFFFF_FFFF
  {
    if x <= 0.0 then 0 else if x.Floor > 0xFFFF_FFFF then 0xFFFF_FFFF else x.Floor
  }

  /** isintf. */
  predicate IsInt(x: real) {
    var d := x - (Trunc(x) as real);
    -0.001 < d < 0.001
  }
}
