/** STEP 2 of gc_execute_block: the words of a block are read one by one into the parser block. */
module Scanner {
  import opened GcTypes

  datatype Result<+T> = Reject(status: Refusal) | Accept(value: T) {
    predicate IsFailure() {
      Reject?
    }

    function PropagateFailure<U>(): Result<U>
      requires Reject?
    {
      Reject(status)
    }

    function Extract(): T
      requires Accept?
    {
      value
    }
  }

  // ---------------------------------------------------------------- what a word means by itself

  /** How a command treats the axis command of the block: claim it, or overwrite it unasked. */
  datatype Claim = NoClaim | Claims(cmd: AxisCmd) | Overwrites(cmd: AxisCmd)

  datatype Write =
    | Nothing
    | ToNonModal(nonModal: NonModal)
    | ToMotion(motion: Motion, canned: bool)
    | ToPlane(plane: Plane)
    | ToIncremental(incremental: bool)
    | ToFeedMode(feedMode: FeedMode)
    | ToImperial(imperial: bool)
    | ToToolMode(toolMode: ToolMode)
    | ToCoord(id: CoordId)
    | ToRetract(toR: bool)
    | ToScaling(scaling: bool)
    | ToFlow(flow: Flow)
    | ToSpindle(on: bool, ccw: bool)
    | MistOn
    | FloodOn
    | CoolantOff
    | ToOverride(cmd: OverrideCmd)
    | SetToolNow

  /** A G or M word: the checks it fails by itself come before (`Bad`) or after (`late`) the check of
      the axis command, the modal group is checked last. */
  datatype Command =
    | Bad(status: Refusal)
    | Command(group: Option<Group>, claim: Claim, late: Option<Refusal>, write: Write)

  /** The integer part of a command number and a hundred times its rest. */
  function IntPart(value: real): nat {
    ToUint32(value)
  }

  function Mantissa(value: real): nat {
    ToUint32(100.0 * (value - (IntPart(value) as real)) + 0.5)
  }

  function Plain(group: Group, mantissa: nat, write: Write): Command {
    if mantissa > 0 then Bad(CommandValueNotInteger) else Command(Some(group), NoClaim, None, write)
  }

  function MotionWord(mantissa: nat, motion: Motion, canned: bool): Command {
    Command(Some(G1), Claims(MotionCmd), if mantissa > 0 then Some(CommandValueNotInteger) else None, ToMotion(motion, canned))
  }

  function NonModalWord(mantissa: nat, int0: NonModal, int1: Option<NonModal>): Command {
    if mantissa == 0 then Command(Some(G0), Claims(NonModalCmd), None, ToNonModal(int0))
    else if mantissa == 10 && int1.Some? then Command(Some(G0), NoClaim, None, ToNonModal(int1.value))
    else Bad(UnsupportedCommand)
  }

  function DecodeG(m: Machine, code: nat, mantissa: nat): Command {
    match code
    case 4 => Plain(G0, mantissa, ToNonModal(Dwell))
    case 10 => if mantissa == 0 then NonModalWord(0, SetCoordinateData, None) else Bad(CommandValueNotInteger)
    case 28 => NonModalWord(mantissa, GoHome0, Some(SetHome0))
    case 30 => NonModalWord(mantissa, GoHome1, Some(SetHome1))
    case 53 => Plain(G0, mantissa, ToNonModal(AbsoluteOverride))
    case 92 =>
      if mantissa == 20 then Command(Some(G0), NoClaim, None, ToNonModal(ClearOffset))
      else if mantissa == 30 then Command(Some(G0), NoClaim, None, ToNonModal(RestoreOffset))
      else NonModalWord(mantissa, SetOffset, Some(ResetOffset))
    case 0 => MotionWord(mantissa, Seek, false)
    case 1 => MotionWord(mantissa, Linear, false)
    case 2 => MotionWord(mantissa, CwArc, false)
    case 3 => MotionWord(mantissa, CcwArc, false)
    case 5 =>
      if mantissa == 10 then MotionWord(0, QuadraticSpline, false)
      else if mantissa == 0 then MotionWord(0, CubicSpline, false)
      else Command(Some(G1), Claims(MotionCmd), Some(UnsupportedCommand), Nothing)
    case 33 => if mantissa == 0 then MotionWord(0, SpindleSync, false) else Bad(UnsupportedCommand)
    case 76 => if mantissa == 0 then MotionWord(0, Threading, false) else Bad(UnsupportedCommand)
    case 38 =>
      if !m.hasProbe then Bad(UnsupportedCommand)
      else if mantissa == 20 then MotionWord(0, ProbeToward, false)
      else if mantissa == 30 then MotionWord(0, ProbeTowardNoError, false)
      else if mantissa == 40 then MotionWord(0, ProbeAway, false)
      else if mantissa == 50 then MotionWord(0, ProbeAwayNoError, false)
      else Bad(UnsupportedCommand)
    case 80 => Plain(G1, mantissa, ToMotion(NoMotion, false))
    case 73 => MotionWord(mantissa, ChipBreak, true)
    case 81 => MotionWord(mantissa, Canned81, true)
    case 82 => MotionWord(mantissa, Canned82, true)
    case 83 => MotionWord(mantissa, Canned83, true)
    case 85 => MotionWord(mantissa, Canned85, true)
    case 86 => MotionWord(mantissa, Canned86, true)
    case 89 => MotionWord(mantissa, Canned89, true)
    case 17 => Plain(G2, mantissa, ToPlane(XY))
    case 18 => Plain(G2, mantissa, ToPlane(ZX))
    case 19 => Plain(G2, mantissa, ToPlane(YZ))
    case 90 => if mantissa == 0 then Plain(G3, 0, ToIncremental(false)) else Bad(UnsupportedCommand)
    case 91 =>
      if mantissa == 0 then Plain(G3, 0, ToIncremental(true))
      else if mantissa == 10 then Plain(G4, 0, Nothing)
      else Bad(UnsupportedCommand)
    case 93 => Plain(G5, mantissa, ToFeedMode(InverseTime))
    case 94 => Plain(G5, mantissa, ToFeedMode(UnitsPerMin))
    case 95 => Plain(G5, mantissa, ToFeedMode(UnitsPerRev))
    case 20 => Plain(G6, mantissa, ToImperial(true))
    case 21 => Plain(G6, mantissa, ToImperial(false))
    case 40 => Plain(G7, mantissa, Nothing)
    case 43 =>
      if mantissa == 10 then Command(Some(G8), Claims(ToolLengthCmd), None, ToToolMode(DynamicTlo))
      else Bad(UnsupportedCommand)
    case 49 => Plain(G8, 0, ToToolMode(CancelTlo))
    case 54 => Plain(G12, mantissa, ToCoord(0))
    case 55 => Plain(G12, mantissa, ToCoord(1))
    case 56 => Plain(G12, mantissa, ToCoord(2))
    case 57 => Plain(G12, mantissa, ToCoord(3))
    case 58 => Plain(G12, mantissa, ToCoord(4))
    case 59 =>
      if mantissa == 0 then Plain(G12, 0, ToCoord(5))
      else if mantissa == 10 then Plain(G12, 0, ToCoord(6))
      else if mantissa == 20 then Plain(G12, 0, ToCoord(7))
      else if mantissa == 30 then Plain(G12, 0, ToCoord(8))
      else Bad(UnsupportedCommand)
    case 61 => if mantissa == 0 then Plain(G13, 0, Nothing) else Bad(UnsupportedCommand)
    case 98 => Plain(G10, mantissa, ToRetract(false))
    case 99 => Plain(G10, mantissa, ToRetract(true))
    case 50 => ScalingWord(mantissa, false)
    case 51 => ScalingWord(mantissa, true)
    case _ => Bad(UnsupportedCommand)
  }

  function ScalingWord(mantissa: nat, on: bool): Command {
    if mantissa > 0 then Bad(CommandValueNotInteger)
    else Command(Some(G11), Overwrites(ScalingCmd), None, ToScaling(on))
  }

  function DecodeM(m: Machine, code: nat, mantissa: nat): Command {
    if code <= 99 && mantissa > 0 then Bad(CommandValueNotInteger)
    else
      match code
      case 0 => Plain(M4, 0, ToFlow(Paused))
      case 1 => Plain(M4, 0, if m.optionalStopOff then Nothing else ToFlow(OptionalStop))
      case 2 => Plain(M4, 0, ToFlow(CompletedM2))
      case 30 => Plain(M4, 0, ToFlow(CompletedM30))
      case 60 => Plain(M4, 0, ToFlow(CompletedM60))
      case 3 => Plain(M7, 0, ToSpindle(true, false))
      case 4 => Plain(M7, 0, ToSpindle(true, true))
      case 5 => Plain(M7, 0, ToSpindle(false, false))
      case 6 => Command(None, NoClaim, None, Nothing)
      case 7 => if m.hasMist then Plain(M8, 0, MistOn) else Bad(UnsupportedCommand)
      case 8 => Plain(M8, 0, FloodOn)
      case 9 => Plain(M8, 0, CoolantOff)
      case 48 => Plain(M9, 0, ToOverride(FeedSpeedEnable))
      case 49 => Plain(M9, 0, ToOverride(FeedSpeedDisable))
      case 50 => Plain(M9, 0, ToOverride(FeedRate))
      case 51 => Plain(M9, 0, ToOverride(SpindleSpeed))
      case 53 => Plain(M9, 0, ToOverride(FeedHold))
      case 61 => Plain(M6, 0, SetToolNow)
      case _ => Bad(UnsupportedCommand)
  }

  // ---------------------------------------------------------------- writing into the block

  function Perform(b: Block, base: Motion, write: Write): Block {
    match write
    case Nothing => b
    case ToNonModal(nonModal) => b.(nonModal := nonModal)
    case ToMotion(motion, canned) =>
      b.(modal := b.modal.(motion := motion, canned := canned),
         cannedChange := if canned then motion != base else b.cannedChange)
    case ToPlane(plane) => b.(modal := b.modal.(plane := plane))
    case ToIncremental(incremental) => b.(modal := b.modal.(incremental := incremental))
    case ToFeedMode(feedMode) => b.(modal := b.modal.(feedMode := feedMode))
    case ToImperial(imperial) => b.(modal := b.modal.(imperial := imperial))
    case ToToolMode(toolMode) => b.(modal := b.modal.(toolMode := toolMode))
    case ToCoord(id) => b.(modal := b.modal.(coord := b.modal.coord.(id := id)))
    case ToRetract(toR) => b.(modal := b.modal.(retractToR := toR))
    case ToScaling(scaling) => b.(modal := b.modal.(scaling := scaling))
    case ToFlow(flow) => b.(flow := flow)
    case ToSpindle(on, ccw) => b.(spindleOn := on, spindleCcw := ccw)
    case MistOn => b.(modal := b.modal.(coolant := b.modal.coolant.(mist := true)), setCoolant := true)
    case FloodOn => b.(modal := b.modal.(coolant := b.modal.coolant.(flood := true)), setCoolant := true)
    case CoolantOff => b.(modal := b.modal.(coolant := Coolant(false, false)), setCoolant := true)
    case ToOverride(cmd) => b.(overrideCmd := cmd)
    case SetToolNow => b.(setTool := true)
  }

  const VALUE_LETTERS: set<char> := {'A', 'B', 'C', 'D', 'E', 'F', 'H', 'I', 'J', 'K', 'L', 'N', 'O', 'P', 'Q', 'R',
                                     'S', 'T', 'U', 'V', 'W', 'X', 'Y', 'Z', '$'}

  const POSITIVE_ONLY: set<char> := {'D', 'F', 'H', 'N', 'O', 'T', 'S'}

  function PutValue(v: Values, letter: char, value: real): Values {
    match letter
    case 'A' => v.(abc := v.abc.(x := value))
    case 'B' => v.(abc := v.abc.(y := value))
    case 'C' => v.(abc := v.abc.(z := value))
    case 'D' => v.(d := value)
    case 'E' => v.(e := value)
    case 'F' => v.(f := value)
    case 'H' => v.(h := IntPart(value))
    case 'I' => v.(ijk := v.ijk.(x := value))
    case 'J' => v.(ijk := v.ijk.(y := value))
    case 'K' => v.(ijk := v.ijk.(z := value))
    case 'L' => v.(l := IntPart(value) % 256)
    case 'N' => v.(n := Trunc(value))
    case 'O' => v.(o := IntPart(value))
    case 'P' => v.(p := value)
    case 'Q' => v.(q := value)
    case 'R' => v.(r := value)
    case 'S' => v.(s := value)
    case 'T' => v.(t := IntPart(value))
    case 'U' => v.(uvw := v.uvw.(x := value))
    case 'V' => v.(uvw := v.uvw.(y := value))
    case 'W' => v.(uvw := v.uvw.(z := value))
    case 'X' => v.(xyz := v.xyz.(x := value))
    case 'Y' => v.(xyz := v.xyz.(y := value))
    case 'Z' => v.(xyz := v.xyz.(z := value))
    case '$' => v.(dollar := Trunc(value))
    case _ => v
  }

  function NameAxis(a: Axes, letter: char, x: char, y: char, z: char): Axes {
    if letter == x then a.(x := true)
    else if letter == y then a.(y := true)
    else if letter == z then a.(z := true)
    else a
  }

  function PutWord(b: Block, letter: char, value: real): Block {
    b.(values := PutValue(b.values, letter, value),
       words := b.words + {letter},
       axisWords := NameAxis(b.axisWords, letter, 'X', 'Y', 'Z'),
       ijkWords := NameAxis(b.ijkWords, letter, 'I', 'J', 'K'))
  }

  /** A value word by itself. An O word is a plain number and has no rest of its own: it is judged by
      `stale`, the rest that the word before it left behind. */
  function ValueCheck(letter: char, value: real, stale: nat): Option<Refusal> {
    var rest := if letter == 'O' then stale else Mantissa(value);
    if letter in {'H', 'L', 'O', 'T', '$'} && rest > 0 then Some(CommandValueNotInteger)
    else if letter == 'T' && IntPart(value) > MAX_TOOL_NUMBER then Some(IllegalToolTableEntry)
    else None
  }

  /** The block so far, and the rest of the last number. */
  datatype Scan = Scan(block: Block, stale: nat)

  function TakeAxes(b: Block, claim: Claim): Block {
    if claim.NoClaim? then b else b.(axisCmd := claim.cmd)
  }

  function Enter(b: Block, group: Option<Group>): Block {
    if group.Some? then b.(groups := b.groups + {group.value}) else b
  }

  function ScanCommand(b: Block, base: Motion, c: Command): Result<Block> {
    match c
    case Bad(status) => Reject(status)
    case Command(group, claim, late, write) =>
      if claim.Claims? && b.axisCmd != NoAxisCmd then Reject(AxisCommandConflict)
      else if late.Some? then Reject(late.value)
      else if group.Some? && group.value in b.groups then Reject(ModalGroupViolation)
      else
        Accept(Enter(Perform(TakeAxes(b, claim), base, write), group))
  }

  function ScanWord(m: Machine, base: Motion, s: Scan, w: Word): Result<Scan> {
    if (w.letter < 'A' && w.letter != '$') || w.letter > 'Z' then Reject(ExpectedCommandLetter)
    else if w.number.None? then Reject(BadNumberFormat)
    else
      var value := w.number.value;
      if w.letter == 'G' then
        var b :- ScanCommand(s.block, base, DecodeG(m, IntPart(value), Mantissa(value)));
        Accept(Scan(b, 0))
      else if w.letter == 'M' then
        var b :- ScanCommand(s.block, base, DecodeM(m, IntPart(value), Mantissa(value)));
        Accept(Scan(b, 0))
      else
        var check := ValueCheck(w.letter, value, s.stale);
        if check.Some? then Reject(check.value)
        else if w.letter in s.block.words then Reject(WordRepeated)
        else if w.letter in POSITIVE_ONLY && value < 0.0 then Reject(NegativeValue)
        else Accept(Scan(PutWord(s.block, w.letter, value), if w.letter == 'O' then s.stale else Mantissa(value)))
  }

  function ScanWords(m: Machine, base: Motion, s: Scan, words: seq<Word>): Result<Scan>
    decreases |words|
  {
    if words == [] then Accept(s)
    else
      var s1 :- ScanWord(m, base, s, words[0]);
      ScanWords(m, base, s1, words[1..])
  }

  const NO_VALUES := Values(0.0, 0.0, 0.0, 0, 0, 0, 0, 0.0, 0.0, 0.0, 0.0, 0, 0, ORIGIN, ORIGIN, ORIGIN, ORIGIN)

  /** STEP 1: an empty block with a copy of the modal state; a jog forces G1 and G94. */
  function NewBlock(st: State, jog: bool): Block {
    var modal := if jog then st.modal.(motion := Linear, feedMode := UnitsPerMin) else st.modal;
    var values := if jog then NO_VALUES.(n := JOG_LINE_NUMBER) else NO_VALUES;
    Block(jog, NoAction, NoOverride, modal, Running, false, false, values, {}, {}, NoAxisCmd, NO_AXES, NO_AXES,
          false, false, false)
  }

  function ScanLine(m: Machine, st: State, line: Line): Result<Block> {
    var s :- ScanWords(m, st.modal.motion, Scan(NewBlock(st, line.jog), 0), line.words);
    Accept(s.block)
  }
}
