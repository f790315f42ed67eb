/** STEP 3 of gc_execute_block: the checks, and the conversion of all values to machine millimetres.
    The parser state is passed along because some of these steps already write to it. */
module Validation {
  import opened GcTypes
  import G = Geometry

  /** The block under work, with the results that the checks leave for the execution step. */
  datatype Work = Work(
    st: State,
    b: Block,
    coordId: CoordId,
    coordData: Vec,
    turns: int
  )

  /** A step either stops the block, with the parser state as it then is, or lets it go on. */
  datatype Outcome = Stop(status: Refusal, st: State) | Go(w: Work) {
    predicate IsFailure() {
      Stop?
    }

    function PropagateFailure(): Outcome
      requires Stop?
    {
      this
    }

    function Extract(): Work
      requires Go?
    {
      w
    }
  }

  function Halt(w: Work, status: Refusal): Outcome {
    Stop(status, w.st)
  }

  function SetValues(w: Work, v: Values): Work {
    w.(b := w.b.(values := v))
  }

  function SetMode(w: Work, modal: Modal): Work {
    w.(b := w.b.(modal := modal))
  }

  function SetCtrl(w: Work, ctrl: OverrideCtrl): Work {
    SetMode(w, w.b.modal.(ctrl := ctrl))
  }

  function SetBlockScaling(w: Work, scaling: bool): Work {
    SetMode(w, w.b.modal.(scaling := scaling))
  }

  function SetCoordXyz(w: Work, xyz: Vec): Work {
    SetMode(w, w.b.modal.(coord := w.b.modal.coord.(xyz := xyz)))
  }

  /** Outside canned cycles G98 and G99 mean nothing. */
  function ForgetRetract(w: Work): Work {
    SetMode(w, w.b.modal.(retractToR := false))
  }

  function SetSpindle(w: Work, on: bool, ccw: bool): Work {
    w.(b := w.b.(spindleOn := on, spindleCcw := ccw))
  }

  function SetAxisCmd(w: Work, cmd: AxisCmd): Work {
    w.(b := w.b.(axisCmd := cmd))
  }

  function DropAxes(w: Work): Work {
    w.(b := w.b.(axisWords := NO_AXES))
  }

  function Consume(w: Work, letters: set<char>): Work {
    w.(b := w.b.(words := w.b.words - letters))
  }

  function SetTurns(w: Work, turns: int): Work {
    w.(turns := turns)
  }

  function SetCoordData(w: Work, id: CoordId, data: Vec): Work {
    w.(coordId := id, coordData := data)
  }

  function SetScale(w: Work, scale: Scale, active: bool): Work {
    w.(st := w.st.(scale := scale, modal := w.st.modal.(scaling := active)))
  }

  function SetSplinePq(w: Work, pq: Pq): Work {
    w.(st := w.st.(modal := w.st.modal.(splinePq := pq)))
  }

  function SetCanned(w: Work, canned: Canned): Work {
    w.(st := w.st.(canned := canned))
  }

  // ---------------------------------------------------------------- [0], [2] to [10]

  function CheckCommon(w: Work): Outcome {
    var w := if w.b.axisWords.Any() && w.b.axisCmd.NoAxisCmd? then SetAxisCmd(w, MotionCmd) else w;
    if 'N' in w.b.words && w.b.values.n > MAX_LINE_NUMBER then Halt(w, InvalidLineNumber) else Go(w)
  }

  function ToMillimetres(imperial: bool, x: real): real {
    if imperial then x * MM_PER_INCH else x
  }

  function CheckFeed(w: Work): Outcome {
    var b, f := w.b, w.b.values.f;
    if b.jog then
      if 'F' !in b.words then Halt(w, UndefinedFeedRate)
      else Go(SetValues(w, b.values.(f := ToMillimetres(b.modal.imperial, f))))
    else if b.modal.motion.SpindleSync? then
      Go(Consume(w, {'K'}))
    else if b.modal.feedMode.InverseTime? then
      if b.axisCmd.MotionCmd? && !b.modal.motion.NoMotion? && !b.modal.motion.Seek? && 'F' !in b.words
      then Halt(w, UndefinedFeedRate)
      else Go(w)
    else if 'F' in b.words then
      Go(SetValues(w, b.values.(f := ToMillimetres(b.modal.imperial, f))))
    else if b.modal.feedMode == w.st.modal.feedMode then
      Go(SetValues(w, b.values.(f := w.st.feedRate)))
    else Go(w)
  }

  predicate SingleSpindle(b: Block) {
    || 'S' in b.words
    || (G1 in b.groups && (b.modal.motion.SpindleSync? || b.modal.motion.Threading?))
    || (G5 in b.groups && b.modal.feedMode.UnitsPerRev?)
    || (M9 in b.groups && b.overrideCmd.SpindleSpeed?)
  }

  function CheckSpindle(m: Machine, w: Work): Outcome {
    var b := w.b;
    var addressed := '$' in b.words && (M7 in b.groups || SingleSpindle(b));
    var lowest := if SingleSpindle(b) then 0 else -1;
    if addressed && b.values.dollar < lowest then
      Halt(w, if SingleSpindle(b) then NegativeValue else ValueOutOfRange)
    else if addressed && b.values.dollar > 0 then Halt(w, ValueOutOfRange)
    else if b.modal.feedMode.UnitsPerRev? && !m.encoder then Halt(w, UnsupportedCommand)
    else
      var w := if addressed then Consume(w, {'$'}) else w;
      Go(if 'S' in b.words then w else SetValues(w, w.b.values.(s := w.st.modal.spindle.rpm)))
  }

  function CheckTool(w: Work): Outcome {
    var b := w.b;
    if b.setTool then
      if 'Q' !in b.words then Halt(w, ValueWordMissing)
      else if !IsInt(b.values.q) then Halt(w, CommandValueNotInteger)
      else if b.values.q > MAX_TOOL_NUMBER as real then Halt(w, IllegalToolTableEntry)
      else Go(Consume(SetValues(w, b.values.(t := ToUint32(b.values.q))), {'Q'}))
    else if 'T' in b.words then Go(w)
    else Go(SetValues(w, b.values.(t := w.st.toolPending)))
  }

  function CheckSpindleState(m: Machine, w: Work): Outcome {
    if M7 in w.b.groups then
      if w.b.spindleCcw && !m.reversible then Halt(w, UnsupportedCommand) else Go(w)
    else
      Go(SetSpindle(w, w.st.modal.spindle.on, w.st.modal.spindle.ccw))
  }

  function Overridden(c: OverrideCtrl, cmd: OverrideCmd, p: real): OverrideCtrl {
    match cmd
    case FeedSpeedEnable => c.(feedOff := false, rpmOff := false)
    case FeedSpeedDisable => c.(feedOff := true, rpmOff := true)
    case FeedRate => c.(feedOff := p == 0.0)
    case SpindleSpeed => c.(rpmOff := p == 0.0)
    case FeedHold => c.(holdOff := p == 0.0)
    case NoOverride => c
  }

  function CheckOverride(w: Work): Outcome {
    if M9 !in w.b.groups then Go(w)
    else if 'P' in w.b.words && w.b.values.p < 0.0 then Halt(w, NegativeValue)
    else
      var p := if 'P' in w.b.words then w.b.values.p else 1.0;
      var w := SetCtrl(w, Overridden(w.b.modal.ctrl, w.b.overrideCmd, p));
      Go(Consume(SetValues(w, w.b.values.(p := p)), {'P'}))
  }

  function CheckDwell(w: Work): Outcome {
    if !w.b.nonModal.Dwell? then Go(w)
    else if 'P' !in w.b.words then Halt(w, ValueWordMissing)
    else if w.b.values.p < 0.0 then Halt(w, NegativeValue)
    else Go(Consume(w, {'P'}))
  }

  // ---------------------------------------------------------------- [12] units and scaling

  function ConvertUnits(w: Work): Work {
    var v := w.b.values;
    if w.b.modal.imperial then
      SetValues(w, v.(xyz := Pick(w.b.axisWords, v.xyz.Times(MM_PER_INCH), v.xyz)))
    else w
  }

  const UNSCALED := Scale(ORIGIN, ONES)

  /** G50 and G51 act on the parser state at once. */
  function CheckScaling(w: Work): Outcome {
    if !w.b.axisCmd.ScalingCmd? then Go(w)
    else if !w.b.modal.scaling then Go(SetScale(w, UNSCALED, false))
    else if !w.b.axisWords.Any() then Halt(w, NoAxisWords)
    else
      var scale := w.st.scale.(ijk := Pick(w.b.axisWords, w.b.values.xyz, w.st.scale.ijk));
      var active := scale.xyz != ONES;
      Go(DropAxes(Consume(SetBlockScaling(SetScale(w, scale, active), active), {'X', 'Y', 'Z'})))
  }

  function ScaleAxes(w: Work): Work {
    if !w.st.modal.scaling then w
    else
      var v, k, c := w.b.values, w.st.scale.ijk, w.st.scale.xyz;
      var scaled := if w.b.modal.incremental then v.xyz.Mul(k) else v.xyz.Minus(c).Mul(k).Plus(c);
      SetValues(w, v.(xyz := Pick(w.b.axisWords, scaled, v.xyz)))
  }

  // ---------------------------------------------------------------- [14], [15]

  function CheckToolOffset(w: Work): Outcome {
    if G8 in w.b.groups && w.b.modal.toolMode.DynamicTlo? && !w.b.axisWords.Any()
    then Halt(w, G43DynamicAxisError)
    else Go(w)
  }

  function SelectCoord(w: Work): Work {
    var c := w.b.modal.coord;
    if G12 in w.b.groups && w.st.modal.coord.id != c.id then
      SetCoordXyz(w, w.st.store[c.id])
    else w
  }

  // ---------------------------------------------------------------- [19] non-modal actions

  /** The coordinate system that G10 writes: the active one for P0. */
  function WrittenCoord(b: Block): CoordId {
    var p := ToUint32(b.values.p) % 256;
    if p == 0 || p > 9 then b.modal.coord.id else p - 1
  }

  /** What it writes: L2 the axis words, L20 what makes the axis words the position. */
  function WrittenData(w: Work): Vec {
    var v, st := w.b.values, w.st;
    var here := st.position.Minus(v.xyz).Minus(st.g92).Minus(st.tlo);
    Pick(w.b.axisWords, if v.l == 20 then here else v.xyz, st.store[WrittenCoord(w.b)])
  }

  /** G10 L2 and L20. */
  function CheckCoordData(m: Machine, w: Work): Outcome {
    var b, v := w.b, w.b.values;
    if !(b.axisWords.Any() || (v.l != 20 && 'R' in b.words)) then Halt(w, NoAxisWords)
    else if 'P' !in b.words && 'L' !in b.words then Halt(w, ValueWordMissing)
    else if v.p < 0.0 then Halt(w, NegativeValue)
    else if v.l == 2 && 'R' in b.words then Halt(w, UnsupportedCommand)
    else if v.l != 2 && v.l != 20 then Halt(w, UnsupportedCommand)
    else if ToUint32(v.p) % 256 > 9 then Halt(w, UnsupportedCoordSys)
    else if 6 <= WrittenCoord(b) && WrittenCoord(b) - 6 in m.offsetLock then Halt(w, CoordSystemLocked)
    else Go(SetCoordData(Consume(w, {'L', 'P'}), WrittenCoord(b), WrittenData(w)))
  }

  /** G92. */
  function CheckSetOffset(w: Work): Outcome {
    var v, st := w.b.values, w.st;
    if !w.b.axisWords.Any() then Halt(w, NoAxisWords)
    else
      var here := st.position.Minus(w.b.modal.coord.xyz).Minus(v.xyz).Minus(st.tlo);
      Go(SetValues(w, v.(xyz := Pick(w.b.axisWords, here, st.g92))))
  }

  /** The target of a motion or of the intermediate move of G28 and G30. */
  function MoveTarget(w: Work): Vec {
    var v, st := w.b.values.xyz, w.st;
    var named :=
      if w.b.nonModal.AbsoluteOverride? then v
      else if w.b.modal.incremental then v.Plus(st.position)
      else v.Plus(BlockOffset(st, w.b.modal));
    Pick(w.b.axisWords, named, st.position)
  }

  function ComputeTarget(w: Work): Work {
    if (w.b.axisWords.Any() || w.b.modal.motion.Arc()) && !w.b.axisCmd.ToolLengthCmd? then
      SetValues(w, w.b.values.(xyz := MoveTarget(w)))
    else w
  }

  function CheckHome(w: Work, index: nat): Outcome
    requires index < 12
  {
    var home := w.st.store[index];
    if w.b.axisWords.Any() then Go(SetCoordData(w, 0, Pick(w.b.axisWords, home, w.st.position)))
    else Go(SetAxisCmd(SetCoordData(w, 0, home), NoAxisCmd))
  }

  function CheckNonModal(m: Machine, w: Work): Outcome {
    match w.b.nonModal
    case SetCoordinateData => CheckCoordData(m, w)
    case SetOffset => CheckSetOffset(w)
    case GoHome0 => CheckHome(ComputeTarget(w), STORE_G28)
    case GoHome1 => CheckHome(ComputeTarget(w), STORE_G30)
    case AbsoluteOverride =>
      if w.b.modal.motion.Seek? || w.b.modal.motion.Linear? then Go(ComputeTarget(w))
      else Halt(w, G53InvalidMotionMode)
    case _ => Go(ComputeTarget(w))
  }

  // ---------------------------------------------------------------- [20] motion modes

  /** A point of the selected plane. */
  datatype Planar = Planar(x: real, y: real)

  function PlaneOf(p: Plane, v: Vec): Planar {
    Planar(v.At(p.Axis0()), v.At(p.Axis1()))
  }

  function InPlane(p: Plane, a: Axes): bool {
    a.Has(p.Axis0()) || a.Has(p.Axis1())
  }

  function CheckTurns(w: Work): Outcome {
    if 'P' !in w.b.words then Go(SetTurns(w, 1))
    else if !IsInt(w.b.values.p) then Halt(w, CommandValueNotInteger)
    else if ToUint32(w.b.values.p) == 0 then Halt(w, ValueOutOfRange)
    else Go(SetTurns(Consume(w, {'P'}), ToUint32(w.b.values.p)))
  }

  function Larger(a: real, b: real): real {
    if a > b then a else b
  }

  /** The radius of an R word in millimetres, scaled by the larger factor of the plane. */
  function ProgrammedRadius(w: Work): real {
    var k, p := w.st.scale.ijk, w.b.modal.plane;
    var r := ToMillimetres(w.b.modal.imperial, w.b.values.r);
    if w.st.modal.scaling then r * Larger(k.At(p.Axis0()), k.At(p.Axis1())) else r
  }

  /** hypot_f. */
  function Hypot(m: Machine, x: real, y: real): real {
    m.Root(x * x + y * y)
  }

  /** The centre, seen from the start, of the arc to `end` with the radius `r`. */
  function RadiusCentre(m: Machine, ccw: bool, end: Planar, r: real): Planar {
    var x, y := end.x, end.y;
    var d := Hypot(m, x, y);
    var h := if d == 0.0 then 0.0 else G.CentreOffset(m.Root(G.FourHSquared(x, y, r)), d, ccw, r);
    Planar(G.CentreI(x, y, h), G.CentreJ(x, y, h))
  }

  function CheckRadiusArc(m: Machine, w: Work): Outcome {
    var v, plane, r := w.b.values, w.b.modal.plane, ProgrammedRadius(w);
    var end := PlaneOf(plane, v.xyz.Minus(w.st.position));
    if w.st.position == v.xyz then Halt(w, InvalidTarget)
    else if G.FourHSquared(end.x, end.y, r) < 0.0 then Halt(w, ArcRadiusError)
    else
      var centre := RadiusCentre(m, w.b.modal.motion.CcwArc?, end, r);
      var ijk := v.ijk.Put(plane.Axis0(), centre.x).Put(plane.Axis1(), centre.y);
      Go(Consume(SetValues(w, v.(ijk := ijk, r := G.Abs(r))), {'R'}))
  }

  function CentreOffsets(w: Work): Vec {
    var v := w.b.values;
    var ijk := if w.b.modal.imperial then Pick(w.b.ijkWords, v.ijk.Times(MM_PER_INCH), v.ijk) else v.ijk;
    if w.st.modal.scaling then Pick(w.b.ijkWords, ijk.Mul(w.st.scale.ijk), ijk) else ijk
  }

  /** The radii from the centre to both ends may differ by 5 micrometres, or by 0.1% of the radius up to half a millimetre. */
  predicate RadiiAgree(targetR: real, r: real) {
    var delta := G.Abs(targetR - r);
    delta <= 0.005 || (delta <= 0.5 && delta <= 0.001 * r)
  }

  function Distance(m: Machine, p: Planar, q: Planar): real {
    Hypot(m, p.x - q.x, p.y - q.y)
  }

  function CheckCentreArc(m: Machine, w: Work): Outcome {
    var b, v, plane := w.b, w.b.values, w.b.modal.plane;
    if !InPlane(plane, b.ijkWords) then Halt(w, NoOffsetsInPlane)
    else
      var ijk := CentreOffsets(w);
      var end, centre := PlaneOf(plane, v.xyz.Minus(w.st.position)), PlaneOf(plane, ijk);
      var r := Distance(m, centre, Planar(0.0, 0.0));
      if !RadiiAgree(Distance(m, end, centre), r) then Halt(w, InvalidTarget)
      else Go(Consume(SetValues(w, v.(ijk := ijk, r := r)), {'I', 'J', 'K'}))
  }

  function CheckArc(m: Machine, w: Work): Outcome {
    var b := w.b;
    if 'R' in b.words && !b.axisWords.Any() then Halt(w, NoAxisWords)
    else if 'R' in b.words && !InPlane(b.modal.plane, b.axisWords) then Halt(w, NoAxisWordsInPlane)
    else
      var w1 :- CheckTurns(w);
      if 'R' in w1.b.words then CheckRadiusArc(m, w1) else CheckCentreArc(m, w1)
  }

  /** A length along X or Y in millimetres, scaled if scaling is active. */
  function PlanarLength(w: Work, x: real, axis: nat): real
    requires axis < 2
  {
    var mm := ToMillimetres(w.b.modal.imperial, x);
    if w.st.modal.scaling then mm * w.st.scale.ijk.At(axis) else mm
  }

  function SplineOffset(w: Work, ijk: Vec): Vec {
    Vec(PlanarLength(w, ijk.x, 0), PlanarLength(w, ijk.y, 1), ijk.z)
  }

  /** Without I and J, the control offset is the one that P and Q mirror, as they are programmed. */
  function CubicOffset(w: Work): Vec {
    var v := w.b.values;
    if 'I' !in w.b.words && 'J' !in w.b.words then Vec(-v.p, -v.q, v.ijk.z) else SplineOffset(w, v.ijk)
  }

  function CheckCubic(w: Work): Outcome {
    var b, v := w.b, w.b.values;
    if !b.modal.plane.XY? then Halt(w, IllegalPlane)
    else if b.axisWords.z then Halt(w, AxisCommandConflict)
    else if 'P' !in b.words || 'Q' !in b.words then Halt(w, ValueWordMissing)
    else if b.modal.motion != w.st.modal.motion && ('I' !in b.words || 'J' !in b.words) then Halt(w, ValueWordMissing)
    else
      var p, q := PlanarLength(w, v.p, 0), PlanarLength(w, v.q, 1);
      var w := SetValues(w, v.(ijk := CubicOffset(w), p := p, q := q));
      Go(SetSplinePq(Consume(w, {'P', 'Q', 'I', 'J'}), Pq(p, q)))
  }

  function CheckQuadratic(w: Work): Outcome {
    var b, v := w.b, w.b.values;
    if !b.modal.plane.XY? then Halt(w, IllegalPlane)
    else if b.axisWords.z then Halt(w, AxisCommandConflict)
    else if 'I' !in b.words || 'J' !in b.words then Halt(w, ValueWordMissing)
    else if v.ijk.x == 0.0 then Halt(w, ValueOutOfRange)
    else Go(Consume(SetValues(w, v.(ijk := SplineOffset(w, v.ijk))), {'I', 'J'}))
  }

  function CheckProbe(w: Work): Outcome {
    if !w.b.axisWords.Any() then Halt(w, NoAxisWords)
    else if w.st.position == w.b.values.xyz then Halt(w, InvalidTarget)
    else Go(w)
  }

  // Canned drilling cycles write their data into the parser state while they are checked.

  /** The start of a new cycle. */
  function CannedReset(w: Work): Work {
    var p, c := w.b.modal.plane, w.st.canned;
    SetCanned(w, c.(dwell := 0.0, xyz := c.xyz.Put(p.Axis0(), 0.0).Put(p.Axis1(), 0.0),
                    rapidRetract := true, spindleOff := false))
  }

  function CannedRetract(w: Work): Work {
    var linear := w.b.modal.plane.AxisLinear();
    if 'R' !in w.b.words then w
    else
      var from := if w.b.modal.incremental then w.st.position else BlockOffset(w.st, w.b.modal);
      var retract := ToMillimetres(w.b.modal.imperial, w.b.values.r) + from.At(linear);
      SetCanned(w, w.st.canned.(retract := retract))
  }

  function CannedTarget(w: Work): Work {
    var linear, st, v := w.b.modal.plane.AxisLinear(), w.st, w.b.values.xyz;
    var relative := v.Minus(st.position);
    var depth := if w.b.modal.incremental then st.canned.retract + relative.At(linear) else v.At(linear);
    SetCanned(w, st.canned.(xyz := Pick(w.b.axisWords, relative.Put(linear, depth), st.canned.xyz)))
  }

  function CannedDwell(w: Work): Outcome {
    if 'P' in w.b.words then
      if w.b.values.p < 0.0 then Halt(w, NegativeValue)
      else Go(Consume(SetCanned(w, w.st.canned.(dwell := w.b.values.p)), {'P'}))
    else if w.b.cannedChange then Halt(w, ValueWordMissing)
    else Go(w)
  }

  function CannedDelta(w: Work): Work {
    var c := w.st.canned;
    var delta := -c.xyz.At(w.b.modal.plane.AxisLinear()) + c.retract;
    SetCanned(w, c.(delta := delta, rapidRetract := c.rapidRetract && !w.b.modal.motion.Canned85?))
  }

  function CannedPeck(w: Work): Outcome {
    if 'Q' in w.b.words then
      if w.b.values.q <= 0.0 then Halt(w, NegativeValue)
      else
        var delta := ToMillimetres(w.b.modal.imperial, w.b.values.q);
        Go(Consume(SetCanned(w, w.st.canned.(delta := delta, dwell := 0.25)), {'Q'}))
    else if w.b.cannedChange then Halt(w, ValueWordMissing)
    else Go(SetCanned(w, w.st.canned.(dwell := 0.25)))
  }

  /** What the spindle does at the bottom of G86 and G89. */
  function AtBottom(w: Work): Work {
    var c, motion := w.st.canned, w.b.modal.motion;
    if motion.Canned86? then SetCanned(w, c.(spindleOff := true, rapidRetract := true))
    else if motion.Canned89? then SetCanned(w, c.(spindleOff := false, rapidRetract := false))
    else w
  }

  function CheckDrill(w: Work): Outcome {
    var motion := w.b.modal.motion;
    if motion.Canned82? || motion.Canned86? || motion.Canned89? then
      var w1 :- CannedDwell(AtBottom(w));
      Go(CannedDelta(w1))
    else if motion.Canned81? || motion.Canned85? then Go(CannedDelta(w))
    else if motion.ChipBreak? || motion.Canned83? then CannedPeck(w)
    else Go(w)
  }

  function DefaultRepeats(w: Work): Work {
    if 'L' in w.b.words then w else SetValues(w, w.b.values.(l := 1))
  }

  function CheckCycle(w: Work): Outcome {
    var w1 := CannedTarget(CannedRetract(w));
    if w1.st.canned.retract < w1.st.canned.xyz.At(w.b.modal.plane.AxisLinear()) then Halt(w1, InvalidRetractPosition)
    else CheckDrill(Consume(w1, {'R', 'L'}))
  }

  function CheckCanned(w: Work): Outcome {
    var b := w.b;
    if b.cannedChange && w.st.modal.feedMode.InverseTime? then Halt(w, InvalidStatement)
    else if b.cannedChange && 'R' !in b.words then Halt(w, ValueWordMissing)
    else if b.cannedChange && !b.axisWords.Has(b.modal.plane.AxisLinear()) then Halt(w, ValueWordMissing)
    else
      var w1 := if b.cannedChange then CannedReset(w) else w;
      if 'L' in b.words && b.values.l == 0 then Halt(w1, NonPositiveValue) else CheckCycle(DefaultRepeats(w1))
  }

  function DropAxisCmd(w: Work): Work {
    if w.b.axisWords.Any() then w else SetAxisCmd(w, NoAxisCmd)
  }

  function CheckMode(m: Machine, w: Work): Outcome {
    var motion := w.b.modal.motion;
    if w.b.modal.canned then CheckCanned(w)
    else if motion.Linear? then Go(DropAxisCmd(w))
    else if motion.Arc() then CheckArc(m, w)
    else if motion.CubicSpline? then CheckCubic(w)
    else if motion.QuadraticSpline? then CheckQuadratic(w)
    else if motion.Probe() then CheckProbe(w)
    else Go(w)
  }

  function CheckFeedMotion(m: Machine, w: Work): Outcome {
    var w := if w.b.modal.canned then w else ForgetRetract(w);
    if w.b.modal.motion.SpindleSync? || w.b.modal.motion.Threading? then Halt(w, UnsupportedCommand)
    else if w.b.values.f == 0.0 then Halt(w, UndefinedFeedRate)
    else CheckMode(m, w)
  }

  function CheckMotion(m: Machine, w: Work): Outcome {
    if w.b.modal.motion.NoMotion? then
      if w.b.axisWords.Any() && !w.b.axisCmd.NonModalCmd? then Halt(w, AxisWordsExist)
      else Go(ForgetRetract(w))
    else if !w.b.axisCmd.MotionCmd? then Go(w)
    else if w.b.modal.motion.Seek? then Go(DropAxisCmd(w))
    else CheckFeedMotion(m, w)
  }

  /** [0] again: every word must have been used. */
  function CheckUnused(w: Work): Outcome {
    var w1 := Consume(w, if w.b.jog then {'N', 'F'} else {'N', 'F', 'S', 'T'});
    var w2 := if w1.b.axisCmd.NoAxisCmd? then w1 else Consume(w1, {'X', 'Y', 'Z'});
    if w2.b.words != {} then Halt(w2, UnusedWords) else Go(w2)
  }

  // ---------------------------------------------------------------- the whole step

  /** Up to the conversion of units: nothing here writes to the parser state. */
  function CheckWords(m: Machine, w: Work): Outcome {
    var w1 :- CheckCommon(w);
    var w2 :- CheckFeed(w1);
    var w3 :- CheckSpindle(m, w2);
    var w4 :- CheckTool(w3);
    var w5 :- CheckSpindleState(m, w4);
    var w6 :- CheckOverride(w5);
    CheckDwell(w6)
  }

  /** From there up to the motion modes. */
  function CheckAxes(m: Machine, w: Work): Outcome {
    var w1 :- CheckScaling(ConvertUnits(w));
    var w2 :- CheckToolOffset(ScaleAxes(w1));
    CheckNonModal(m, SelectCoord(w2))
  }

  function Validate(m: Machine, st: State, b: Block): Outcome {
    var w1 :- CheckWords(m, Work(st, b, 0, ORIGIN, 0));
    var w2 :- CheckAxes(m, w1);
    var w3 :- CheckMotion(m, w2);
    CheckUnused(w3)
  }
}
