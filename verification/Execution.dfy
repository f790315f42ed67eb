/** STEP 4 of gc_execute_block, the whole of it, gc_init, and runs of both. */
module Execution {
  import opened GcTypes
  import opened Scanner
  import opened Validation
  import G = Geometry

  /** What one block leaves behind. */
  datatype Executed = Executed(status: Status, st: State, events: seq<Event>)

  /** set_scaling with factor 1, as at the end of G28 and G30 and after a reset. */
  function ScalingOff(st: State): State {
    st.(scale := UNSCALED, modal := st.modal.(scaling := false))
  }

  // ---------------------------------------------------------------- [2] to [18]: modes

  function NewPlan(w: Work): Plan {
    Plan(w.b.values.f, w.b.modal.feedMode.InverseTime?, false, false, w.st.offsetId, w.b.values.n)
  }

  function CommitTool(w: Work, env: Env, st: State): State {
    if st.toolPending == w.b.values.t then st
    else st.(toolPending := w.b.values.t, toolId := if env.checkMode then st.toolId else w.b.values.t)
  }

  function CommitToolOffset(w: Work, st: State): State {
    if G8 !in w.b.groups then st
    else
      var tlo := if w.b.modal.toolMode.CancelTlo? then ORIGIN else Pick(w.b.axisWords, w.b.values.xyz, st.tlo);
      st.(modal := st.modal.(toolMode := w.b.modal.toolMode), tlo := tlo)
  }

  function CommitCoord(w: Work, st: State): State {
    if st.modal.coord.id != w.b.modal.coord.id then st.(modal := st.modal.(coord := w.b.modal.coord)) else st
  }

  /** Line number, feed, spindle, coolant, overrides, plane and units. */
  function CommitBasics(w: Work, st: State): State {
    var b, before := w.b, st.modal;
    var modal := before.(
      feedMode := b.modal.feedMode,
      spindle := Spindle(if M7 in b.groups then b.spindleOn else before.spindle.on,
                         if M7 in b.groups then b.spindleCcw else before.spindle.ccw,
                         b.values.s),
      coolant := if b.setCoolant then b.modal.coolant else before.coolant,
      ctrl := if M9 in b.groups then b.modal.ctrl else before.ctrl,
      plane := b.modal.plane,
      imperial := b.modal.imperial);
    st.(modal := modal, lineNumber := b.values.n, feedRate := b.values.f)
  }

  function CommitDistance(w: Work, st: State): State {
    st.(modal := st.modal.(incremental := w.b.modal.incremental, retractToR := w.b.modal.retractToR))
  }

  function CommitModes(w: Work, env: Env): State {
    CommitDistance(w, CommitCoord(w, CommitToolOffset(w, CommitTool(w, env, CommitBasics(w, w.st)))))
  }

  function DwellEvents(w: Work): seq<Event> {
    if w.b.nonModal.Dwell? then [Pause(w.b.values.p)] else []
  }

  // ---------------------------------------------------------------- [19] non-modal actions

  /** add_offset: the next slot of the ring takes the current G92 offset. */
  function AddOffset(st: State): State {
    var id := (st.offsetId + 1) % MAX_OFFSET_ENTRIES;
    st.(offsetId := id, offsetQueue := st.offsetQueue[id := st.g92])
  }

  function StoreCoord(w: Work, st: State): State {
    var st1 := st.(store := st.store[w.coordId := w.coordData]);
    if st1.modal.coord.id == w.coordId then
      st1.(modal := st1.modal.(coord := st1.modal.coord.(xyz := w.coordData)))
    else st1
  }

  function SetG92(m: Machine, st: State, offset: Vec, applied: bool): State {
    var store := if m.g92Volatile then st.store else st.store[STORE_G92 := offset];
    AddOffset(st.(g92 := offset, g92Applied := applied, store := store))
  }

  function CommitNonModal(m: Machine, w: Work, st: State): State {
    match w.b.nonModal
    case SetCoordinateData => StoreCoord(w, st)
    case GoHome0 => ScalingOff(st.(position := w.coordData))
    case GoHome1 => ScalingOff(st.(position := w.coordData))
    case SetHome0 => st.(store := st.store[STORE_G28 := st.position])
    case SetHome1 => st.(store := st.store[STORE_G30 := st.position])
    case SetOffset => SetG92(m, st, w.b.values.xyz, true)
    case ResetOffset => SetG92(m, st, ORIGIN, false)
    case ClearOffset => AddOffset(st.(g92 := ORIGIN, g92Applied := false))
    case RestoreOffset => AddOffset(st.(g92 := st.store[STORE_G92], g92Applied := true))
    case _ => st
  }

  function HomeEvents(w: Work): seq<Event> {
    if w.b.nonModal.GoHome0? || w.b.nonModal.GoHome1? then
      var plan := NewPlan(w).(rapid := true);
      (if w.b.axisCmd.NoAxisCmd? then [] else [Move(w.b.values.xyz, plan)]) + [Move(w.coordData, plan)]
    else []
  }

  // ---------------------------------------------------------------- [20] motion

  predicate Moves(w: Work) {
    !w.b.modal.motion.NoMotion? && w.b.axisCmd.MotionCmd?
  }

  /** The two inner control points of a cubic spline. */
  datatype Controls = Controls(first: Pq, second: Pq)

  function CubicControls(start: Vec, v: Values, pq: Pq): Controls {
    Controls(Pq(start.x + v.ijk.x, start.y + v.ijk.y), Pq(v.xyz.x + pq.p, v.xyz.y + pq.q))
  }

  function QuadraticControls(start: Vec, v: Values): Controls {
    Controls(Pq(G.FirstControl(start.x, v.ijk.x), G.FirstControl(start.y, v.ijk.y)),
             Pq(G.SecondControl(start.x, v.ijk.x, v.xyz.x), G.SecondControl(start.y, v.ijk.y, v.xyz.y)))
  }

  /** G95 is passed on for straight lines and arcs. */
  function PerTurn(w: Work, plan: Plan): Plan {
    plan.(perRev := w.b.modal.feedMode.UnitsPerRev?)
  }

  function MotionEvents(w: Work, st: State): seq<Event> {
    var v, motion, plan, start := w.b.values, w.b.modal.motion, NewPlan(w), st.position;
    if !Moves(w) then []
    else
      match motion
      case Linear => [Move(v.xyz, PerTurn(w, plan))]
      case Seek => [Move(v.xyz, plan.(rapid := true))]
      case CwArc => [ArcMove(v.xyz, start, v.ijk, v.r, w.b.modal.plane, -w.turns, PerTurn(w, plan))]
      case CcwArc => [ArcMove(v.xyz, start, v.ijk, v.r, w.b.modal.plane, w.turns, PerTurn(w, plan))]
      case CubicSpline =>
        var c := CubicControls(start, v, st.modal.splinePq);
        [Spline(v.xyz, start, c.first, c.second, plan)]
      case QuadraticSpline =>
        var c := QuadraticControls(start, v);
        [Spline(v.xyz, start, c.first, c.second, plan)]
      case ChipBreak => DrillEvents(w, st, plan)
      case Canned81 => DrillEvents(w, st, plan)
      case Canned82 => DrillEvents(w, st, plan)
      case Canned83 => DrillEvents(w, st, plan)
      case ProbeToward => [ProbeMove(motion, v.xyz, plan)]
      case ProbeTowardNoError => [ProbeMove(motion, v.xyz, plan)]
      case ProbeAway => [ProbeMove(motion, v.xyz, plan)]
      case ProbeAwayNoError => [ProbeMove(motion, v.xyz, plan)]
      case _ => []
  }

  function DrillEvents(w: Work, st: State, plan: Plan): seq<Event> {
    [Drill(w.b.modal.motion, w.b.values.xyz, st.position, w.b.modal.plane, w.b.values.l, st.canned, st.modal.retractToR, plan)]
  }

  /** Where the parser takes the tool to be afterwards. */
  function NewPosition(w: Work, env: Env, st: State): Vec {
    var motion := w.b.modal.motion;
    if !Moves(w) then st.position
    else if motion.ChipBreak? || motion.Canned81? || motion.Canned82? || motion.Canned83? then env.drillEnd
    else if motion.Probe() then
      match env.probe
      case ProbeAtTarget => w.b.values.xyz
      case ProbeAtMachine(position) => position
      case ProbeNoUpdate => st.position
    else w.b.values.xyz
  }

  function CommitMotion(w: Work, env: Env, st: State): State {
    st.(modal := st.modal.(motion := w.b.modal.motion, canned := w.b.modal.canned), position := NewPosition(w, env, st))
  }

  // ---------------------------------------------------------------- [21] program flow

  /** M2 and M30, unless the block is run in single-block mode. */
  predicate EndsProgram(w: Work, env: Env) {
    (w.b.flow.CompletedM2? || w.b.flow.CompletedM30?) && !env.singleBlock
  }

  function CommitFlow(w: Work, env: Env, st: State): State {
    if !EndsProgram(w, env) then st
    else
      var modal := st.modal.(
        motion := Linear,
        plane := XY,
        incremental := false,
        feedMode := UnitsPerMin,
        coord := st.modal.coord.(id := 0),
        coolant := Coolant(false, false),
        spindle := st.modal.spindle.(on := false, ccw := false),
        ctrl := st.modal.ctrl.(feedOff := false, rpmOff := false));
      if env.checkMode then st.(modal := modal)
      else st.(modal := modal.(coord := CoordSystem(0, st.store[0])), store := st.store[STORE_G92 := st.g92])
  }

  // ---------------------------------------------------------------- the whole block

  function CommitJog(m: Machine, w: Work): Executed {
    var b := w.b;
    if !(b.groups <= {G0, G3, G6}) then Executed(InvalidJogCommand, w.st, [])
    else if !b.nonModal.AbsoluteOverride? && !b.nonModal.NoAction? then Executed(InvalidJogCommand, w.st, [])
    else
      match m.JogEnd(b.values.xyz, w.st.position)
      case None => Executed(TravelExceeded, w.st, [])
      case Some(end) =>
        Executed(Ok, w.st.(position := end), [Jog(end, Plan(b.values.f, false, false, false, w.st.offsetId, b.values.n))])
  }

  function Commit(m: Machine, w: Work, env: Env): Executed {
    var st1 := CommitModes(w, env);
    var st2 := CommitNonModal(m, w, st1);
    var st3 := CommitFlow(w, env, CommitMotion(w, env, st2));
    Executed(Ok, st3, DwellEvents(w) + HomeEvents(w) + MotionEvents(w, st2))
  }

  function ExecuteBlock(m: Machine, st: State, b: Block, env: Env): Executed {
    match Validate(m, st, b)
    case Stop(status, st1) => Executed(status, st1, [])
    case Go(w) => if b.jog then CommitJog(m, w) else Commit(m, w, env)
  }

  function Execute(m: Machine, st: State, line: Line): Executed {
    if line.words == [] && !line.jog then Executed(Ok, st, [])
    else
      match ScanLine(m, st, line)
      case Reject(status) => Executed(status, st, [])
      case Accept(b) => ExecuteBlock(m, st, b, line.env)
  }

  // ---------------------------------------------------------------- gc_init

  const RESET_MODAL := Modal(Seek, UnitsPerMin, false, false, XY, CancelTlo, CoordSystem(0, ORIGIN), Coolant(false, false),
                             Spindle(false, false, 0.0), OverrideCtrl(false, false, false), false, false, false, Pq(0.0, 0.0))

  const RESET_CANNED := Canned(ORIGIN, 0.0, 0.0, 0.0, false, false)

  /** All fields in front of the G92 offset are cleared. */
  function Cleared(st: State): State {
    st.(modal := RESET_MODAL, canned := RESET_CANNED, feedRate := 0.0, position := ORIGIN, lineNumber := 0, toolPending := 0,
        offsetId := 0, offsetQueue := [ORIGIN, ORIGIN, ORIGIN, ORIGIN], g92Applied := false)
  }

  function LoadCoord(st: State): State {
    var c := st.modal.coord;
    st.(modal := st.modal.(coord := c.(xyz := st.store[c.id])))
  }

  /** A cold start. */
  function ColdInit(m: Machine, st: State): State {
    var st1 := Cleared(st).(g92 := ORIGIN, tlo := ORIGIN, toolId := 0);
    var st2 := LoadCoord(ScalingOff(st1));
    if m.g92Volatile then st2
    else st2.(g92 := st2.store[STORE_G92], offsetQueue := st2.offsetQueue[0 := st2.store[STORE_G92]])
  }

  /** A warm restart; `stop` keeps the selected coordinate system and the tool offset mode. */
  function WarmInit(st: State, stop: bool, ctrl: OverrideCtrl): State {
    var st1 := Cleared(st).(toolPending := st.toolId);
    var modal := st1.modal.(ctrl := ctrl);
    var kept := if stop then modal.(coord := modal.coord.(id := st.modal.coord.id), toolMode := st.modal.toolMode) else modal;
    LoadCoord(ScalingOff(st1.(modal := kept)))
  }

  // ---------------------------------------------------------------- runs

  datatype Op =
    | Block(line: Line)
    | Restart(stop: bool, ctrl: OverrideCtrl)
    | Sync(position: Vec)      // gc_sync_position, after a reset, a jog or a cancelled motion

  function Step(m: Machine, st: State, op: Op): Executed {
    match op
    case Block(line) => Execute(m, st, line)
    case Restart(stop, ctrl) => Executed(Ok, WarmInit(st, stop, ctrl), [])
    case Sync(position) => Executed(Ok, st.(position := position), [])
  }

  function Run(m: Machine, st: State, ops: seq<Op>): State
    decreases |ops|
  {
    if ops == [] then st else Run(m, Step(m, st, ops[0]).st, ops[1..])
  }

  /** Everything that a run hands to the motion layer. */
  function Trace(m: Machine, st: State, ops: seq<Op>): seq<Event>
    decreases |ops|
  {
    if ops == [] then []
    else
      var e := Step(m, st, ops[0]);
      e.events + Trace(m, e.st, ops[1..])
  }
}
