/** What the checks of a block leave alone, stage by stage. */
module Frames {
  import opened GcTypes
  import opened Scanner
  import opened Validation

  /** The part of a block that no check changes: what its G and M words asked for. */
  ghost function Asked(b: Block): Block {
    b.(modal := b.modal.(ctrl := OverrideCtrl(false, false, false), scaling := false, retractToR := false,
                         coord := CoordSystem(b.modal.coord.id, ORIGIN)),
       values := NO_VALUES, words := {}, axisCmd := NoAxisCmd, axisWords := NO_AXES, ijkWords := NO_AXES,
       spindleOn := false, spindleCcw := false)
  }

  lemma AskedMeans(b: Block, c: Block)
    requires Asked(b) == Asked(c)
    ensures b.jog == c.jog && b.nonModal == c.nonModal && b.flow == c.flow && b.groups == c.groups
    ensures b.setTool == c.setTool && b.setCoolant == c.setCoolant && b.cannedChange == c.cannedChange
    ensures b.overrideCmd == c.overrideCmd
    ensures b.modal == c.modal.(ctrl := b.modal.ctrl, scaling := b.modal.scaling, retractToR := b.modal.retractToR,
                                coord := CoordSystem(c.modal.coord.id, b.modal.coord.xyz))
  {
  }

  /** The block of a line before any check. */
  function Fresh(st: State, b: Block): Work {
    Work(st, b, 0, ORIGIN, 0)
  }

  ghost function StateOf(o: Outcome): State {
    if o.Stop? then o.st else o.w.st
  }

  /** The same but for numbers, unused words, axis command and override control. */
  ghost predicate Same(w: Work, w1: Work) {
    && w1.st == w.st && Asked(w1.b) == Asked(w.b) && w1.b.modal.coord == w.b.modal.coord
    && w1.b.modal.scaling == w.b.modal.scaling && w1.b.axisWords == w.b.axisWords && w1.b.ijkWords == w.b.ijkWords
    && w1.coordId == w.coordId && w1.coordData == w.coordData && w1.b.groups == w.b.groups
  }

  lemma Setters()
    ensures forall w, v {:trigger SetValues(w, v)} :: var w1 := SetValues(w, v);
              Same(w, w1) && w1.b.axisCmd == w.b.axisCmd && w1.b.values == v
              && w1.b.modal == w.b.modal && w1.b.words == w.b.words
    ensures forall w, l {:trigger Consume(w, l)} :: var w1 := Consume(w, l);
              Same(w, w1) && w1.b.axisCmd == w.b.axisCmd && w1.b.values == w.b.values
              && w1.b.modal == w.b.modal && w1.b.words == w.b.words - l
    ensures forall w, on, ccw {:trigger SetSpindle(w, on, ccw)} :: var w1 := SetSpindle(w, on, ccw);
              Same(w, w1) && w1.b.axisCmd == w.b.axisCmd && w1.b.values == w.b.values
    ensures forall w, c {:trigger SetCtrl(w, c)} :: var w1 := SetCtrl(w, c);
              Same(w, w1) && w1.b.axisCmd == w.b.axisCmd && w1.b.values == w.b.values && w1.b.words == w.b.words
    ensures forall w, t {:trigger SetTurns(w, t)} :: var w1 := SetTurns(w, t);
              Same(w, w1) && w1.b == w.b
    ensures forall w, c {:trigger SetAxisCmd(w, c)} :: var w1 := SetAxisCmd(w, c);
              Same(w, w1) && w1.b.axisCmd == c && w1.b.values == w.b.values
    ensures forall w {:trigger ForgetRetract(w)} :: var w1 := ForgetRetract(w);
              Same(w, w1) && w1.b.axisCmd == w.b.axisCmd && w1.b.values == w.b.values && w1.b.words == w.b.words
              && !w1.b.modal.retractToR
  {
  }

  // ---------------------------------------------------------------- [0], [2] to [10]

  /** As `Same`, and of the numbers only S, T and P may have got a default. */
  ghost predicate Kept(w: Work, w1: Work) {
    && Same(w, w1)
    && w1.b.values == w.b.values.(s := w1.b.values.s, t := w1.b.values.t, p := w1.b.values.p)
    && (M9 !in w.b.groups ==> w1.b.values.p == w.b.values.p)
  }

  ghost predicate Keeps(w: Work, o: Outcome) {
    match o
    case Stop(_, st1) => st1 == w.st
    case Go(w1) => Kept(w, w1) && w1.b.axisCmd == w.b.axisCmd
  }

  /** An axis word without a command of its own stands for a motion. */
  function ImpliedCmd(b: Block): AxisCmd {
    if b.axisWords.Any() && b.axisCmd.NoAxisCmd? then MotionCmd else b.axisCmd
  }

  lemma CommonKeeps(w: Work)
    ensures var o := CheckCommon(w);
            match o
            case Stop(_, st1) => st1 == w.st
            case Go(w1) => Kept(w, w1) && w1.b.axisCmd == ImpliedCmd(w.b)
  {
    hide SetAxisCmd, Asked;
    Setters();
  }

  /** The feed after the checks, in millimetres but for G93. */
  function FeedOf(st: State, b: Block): real {
    if b.jog then ToMillimetres(b.modal.imperial, b.values.f)
    else if b.modal.motion.SpindleSync? || b.modal.feedMode.InverseTime? then b.values.f
    else if 'F' in b.words then ToMillimetres(b.modal.imperial, b.values.f)
    else if b.modal.feedMode == st.modal.feedMode then st.feedRate
    else b.values.f
  }

  lemma FeedKeeps(w: Work)
    ensures var o := CheckFeed(w);
            match o
            case Stop(_, st1) => st1 == w.st
            case Go(w1) => && Same(w, w1) && w1.b.axisCmd == w.b.axisCmd
                           && w1.b.values == w.b.values.(f := FeedOf(w.st, w.b))
  {
    hide SetValues, Consume, Asked, ToMillimetres;
    Setters();
  }

  lemma SpindleKeeps(m: Machine, w: Work)
    ensures Keeps(w, CheckSpindle(m, w))
  {
    hide SetValues, Consume, Asked, SingleSpindle;
    Setters();
  }

  lemma ToolKeeps(w: Work)
    ensures Keeps(w, CheckTool(w))
  {
    hide SetValues, Consume, Asked, IsInt, ToUint32;
    Setters();
  }

  lemma SpindleStateKeeps(m: Machine, w: Work)
    ensures Keeps(w, CheckSpindleState(m, w))
  {
    hide SetSpindle, Asked;
    Setters();
  }

  lemma OverrideKeeps(w: Work)
    ensures Keeps(w, CheckOverride(w))
  {
    hide SetValues, Consume, Asked, SetCtrl, Overridden;
    Setters();
  }

  lemma DwellKeeps(w: Work)
    ensures Keeps(w, CheckDwell(w))
  {
    hide Consume, Asked;
    Setters();
  }

  lemma WordsKeep(m: Machine, w: Work)
    ensures var o := CheckWords(m, w);
            match o
            case Stop(_, st1) => st1 == w.st
            case Go(w1) => && Same(w, w1) && w1.b.axisCmd == ImpliedCmd(w.b)
                           && w1.b.values == w.b.values.(f := FeedOf(w.st, w.b), s := w1.b.values.s, t := w1.b.values.t,
                                                         p := w1.b.values.p)
                           && (M9 !in w.b.groups ==> w1.b.values.p == w.b.values.p)
  {
    hide CheckFeed, CheckSpindle, CheckTool, CheckSpindleState, CheckOverride, CheckDwell, ImpliedCmd, Asked;
    CommonKeeps(w);
    assert CheckCommon(w).Go? ==> FeedOf(w.st, CheckCommon(w).w.b) == FeedOf(w.st, w.b);
    hide CheckCommon, FeedOf;
    var o1 := CheckCommon(w);
    if o1.Go? {
      FeedKeeps(o1.w);
      var o2 := CheckFeed(o1.w);
      if o2.Go? {
        SpindleKeeps(m, o2.w);
        var o3 := CheckSpindle(m, o2.w);
        if o3.Go? {
          ToolKeeps(o3.w);
          var o4 := CheckTool(o3.w);
          if o4.Go? {
            SpindleStateKeeps(m, o4.w);
            var o5 := CheckSpindleState(m, o4.w);
            if o5.Go? {
              OverrideKeeps(o5.w);
              var o6 := CheckOverride(o5.w);
              if o6.Go? {
                DwellKeeps(o6.w);
              }
            }
          }
        }
      }
    }
  }

  // ---------------------------------------------------------------- [12] to [19]: axes

  /** Only the scaling of the state is written, and only by G50 and G51. */
  ghost predicate Scales(w: Work, st1: State) {
    && st1 == w.st.(scale := st1.scale, modal := w.st.modal.(scaling := st1.modal.scaling))
    && (!w.b.axisCmd.ScalingCmd? ==> st1 == w.st)
  }

  lemma ScalesMeans(w: Work, st1: State)
    requires Scales(w, st1)
    ensures st1.store == w.st.store && st1.position == w.st.position && st1.g92 == w.st.g92 && st1.tlo == w.st.tlo
    ensures st1.modal.coord == w.st.modal.coord
  {
  }

  /** The axis words of a block in millimetres. */
  function Millimetres(b: Block): Vec {
    if b.modal.imperial then Pick(b.axisWords, b.values.xyz.Times(MM_PER_INCH), b.values.xyz) else b.values.xyz
  }

  lemma ConvertKeeps(w: Work)
    ensures var w1 := ConvertUnits(w);
            && Same(w, w1) && w1.b.axisCmd == w.b.axisCmd && w1.b.modal == w.b.modal
            && w1.b.values == w.b.values.(xyz := Millimetres(w.b))
  {
    hide SetValues, Asked, Pick;
    Setters();
  }

  lemma ScalingKeeps(w: Work)
    ensures var o := CheckScaling(w);
            && Scales(w, StateOf(o))
            && (o.Go? ==>
              && Asked(o.w.b) == Asked(w.b) && o.w.b.modal.coord == w.b.modal.coord && o.w.b.axisCmd == w.b.axisCmd
              && o.w.b.values == w.b.values && (!w.b.axisCmd.ScalingCmd? ==> o.w == w))
  {
  }

  lemma ScaleAxesKeeps(w: Work)
    ensures var w1 := ScaleAxes(w);
            && Same(w, w1) && w1.b.axisCmd == w.b.axisCmd && w1.b.values == w.b.values.(xyz := w1.b.values.xyz)
            && w1.b.modal == w.b.modal && (!w.st.modal.scaling ==> w1 == w)
  {
    hide SetValues, Asked;
    Setters();
  }

  lemma SelectKeeps(w: Work)
    ensures var w1 := SelectCoord(w);
            && w1.st == w.st && Asked(w1.b) == Asked(w.b) && w1.b.axisCmd == w.b.axisCmd
            && w1.b.axisWords == w.b.axisWords && w1.b.values == w.b.values
  {
  }

  lemma TargetKeeps(w: Work)
    ensures var w1 := ComputeTarget(w);
            Same(w, w1) && w1.b.axisCmd == w.b.axisCmd && w1.b.values == w.b.values.(xyz := w1.b.values.xyz)
  {
    hide SetValues, Asked, MoveTarget;
    Setters();
  }

  /** What the checks of non-modal actions keep. */
  ghost predicate KeepsCoord(w: Work, o: Outcome) {
    match o
    case Stop(_, st1) => st1 == w.st
    case Go(w1) =>
      && w1.st == w.st && Asked(w1.b) == Asked(w.b) && w1.b.modal.coord == w.b.modal.coord
      && w1.b.axisWords == w.b.axisWords && w1.b.values == w.b.values.(xyz := w1.b.values.xyz)
      && (w1.b.axisCmd == w.b.axisCmd || w1.b.axisCmd.NoAxisCmd?)
  }

  lemma SetCoordDataKeeps(w: Work, i: CoordId, d: Vec)
    ensures var w1 := SetCoordData(w, i, d);
            w1.b == w.b && w1.st == w.st && w1.coordId == i && w1.coordData == d
  {
  }

  lemma CoordDataKeeps(m: Machine, w: Work)
    ensures KeepsCoord(w, CheckCoordData(m, w))
  {
    hide SetCoordData, Consume, Asked, WrittenData, WrittenCoord, ToUint32;
    Setters();
    SetCoordDataKeeps(Consume(w, {'L', 'P'}), WrittenCoord(w.b), WrittenData(w));
  }

  lemma SetOffsetKeeps(w: Work)
    ensures KeepsCoord(w, CheckSetOffset(w))
  {
    hide SetValues, Asked, Pick;
    Setters();
  }

  lemma HomeKeeps(w: Work, index: nat)
    requires index < 12
    ensures KeepsCoord(w, CheckHome(w, index))
  {
    hide SetCoordData, SetAxisCmd, Asked, Pick;
    Setters();
    SetCoordDataKeeps(w, 0, w.st.store[index]);
    SetCoordDataKeeps(w, 0, Pick(w.b.axisWords, w.st.store[index], w.st.position));
  }

  lemma NonModalKeeps(m: Machine, w: Work)
    ensures KeepsCoord(w, CheckNonModal(m, w))
  {
    hide CheckCoordData, CheckSetOffset, CheckHome, ComputeTarget, Asked;
    CoordDataKeeps(m, w);
    SetOffsetKeeps(w);
    TargetKeeps(w);
    HomeKeeps(ComputeTarget(w), STORE_G28);
    HomeKeeps(ComputeTarget(w), STORE_G30);
  }

  /** The coordinate system that the rest of the block works with. */
  ghost function SelectedCoord(w: Work): CoordSystem {
    var c := w.b.modal.coord;
    if G12 in w.b.groups && w.st.modal.coord.id != c.id then CoordSystem(c.id, w.st.store[c.id]) else c
  }

  lemma SelectedIs(w: Work)
    ensures SelectCoord(w).b.modal.coord == SelectedCoord(w)
  {
  }

  lemma AxesKeep(m: Machine, w: Work)
    ensures var o := CheckAxes(m, w);
            && Scales(w, StateOf(o))
            && (o.Go? ==>
              && Asked(o.w.b) == Asked(w.b) && o.w.b.modal.coord == SelectedCoord(w)
              && o.w.b.values == w.b.values.(xyz := o.w.b.values.xyz)
              && (!w.b.axisCmd.ScalingCmd? ==> o.w.b.axisWords == w.b.axisWords)
              && (o.w.b.axisCmd == w.b.axisCmd || o.w.b.axisCmd.NoAxisCmd?))
  {
    hide CheckScaling, ConvertUnits, ScaleAxes, CheckNonModal, SelectCoord, Asked, Scales, SelectedCoord;
    ConvertKeeps(w);
    var w0 := ConvertUnits(w);
    ScalingKeeps(w0);
    SameScales(w, w0, StateOf(CheckScaling(w0)));
    var o1 := CheckScaling(w0);
    if o1.Go? {
      ScaleAxesKeeps(o1.w);
      var w2 := ScaleAxes(o1.w);
      if CheckToolOffset(w2).Go? {
        SelectKeeps(w2);
        SelectedIs(w2);
        SameSelected(w, w2);
        NonModalKeeps(m, SelectCoord(w2));
      }
    }
  }

  lemma SameScales(w: Work, w0: Work, st1: State)
    requires w0.st == w.st && w0.b.axisCmd == w.b.axisCmd && Scales(w0, st1)
    ensures Scales(w, st1)
  {
  }

  lemma SameSelected(w: Work, w1: Work)
    requires Asked(w1.b) == Asked(w.b) && w1.b.modal.coord == w.b.modal.coord && Scales(w, w1.st)
    ensures SelectedCoord(w1) == SelectedCoord(w)
  {
    AskedMeans(w1.b, w.b);
    ScalesMeans(w, w1.st);
  }

  // ---------------------------------------------------------------- [20] motion

  /** The motion checks write only canned cycle data, and only in a cycle, or the control offset of G5. */
  ghost predicate Prepares(w: Work, st1: State) {
    && st1 == w.st.(canned := st1.canned, modal := w.st.modal.(splinePq := st1.modal.splinePq))
    && (!w.b.modal.canned ==> st1.canned == w.st.canned)
    && (!w.b.modal.motion.CubicSpline? ==> st1.modal.splinePq == w.st.modal.splinePq)
  }

  ghost predicate KeptMotion(w: Work, w1: Work) {
    && Asked(w1.b) == Asked(w.b) && w1.b.modal.coord == w.b.modal.coord
    && w1.b.values.xyz == w.b.values.xyz && w1.b.values.f == w.b.values.f && w1.b.axisWords == w.b.axisWords
    && (w1.b.axisCmd == w.b.axisCmd || w1.b.axisCmd.NoAxisCmd?)
    && w1.coordId == w.coordId && w1.coordData == w.coordData
  }

  ghost predicate KeepsMotion(w: Work, o: Outcome) {
    Prepares(w, StateOf(o)) && (o.Go? ==> KeptMotion(w, o.w))
  }

  ghost predicate KeptCanned(w: Work, w1: Work) {
    w1.st == w.st.(canned := w1.st.canned) && KeptMotion(w, w1)
  }

  ghost predicate KeepsCanned(w: Work, o: Outcome) {
    match o
    case Stop(_, st1) => st1 == w.st.(canned := st1.canned)
    case Go(w1) => KeptCanned(w, w1)
  }

  lemma SetCannedKeeps()
    ensures forall w, c {:trigger SetCanned(w, c)} :: var w1 := SetCanned(w, c);
              w1.b == w.b && w1.st == w.st.(canned := c) && w1.coordId == w.coordId && w1.coordData == w.coordData
  {
  }

  lemma CannedStepsKeep(w: Work)
    ensures KeptCanned(w, CannedReset(w))
    ensures KeptCanned(w, CannedRetract(w))
    ensures KeptCanned(w, CannedTarget(w))
    ensures KeptCanned(w, CannedDelta(w))
  {
    hide SetCanned, Asked, Pick;
    SetCannedKeeps();
  }

  lemma CannedDwellKeeps(w: Work)
    ensures KeepsCanned(w, CannedDwell(w))
    ensures KeepsCanned(w, CannedPeck(w))
  {
    hide SetCanned, Consume, Asked, ToMillimetres;
    SetCannedKeeps();
    Setters();
  }

  lemma CannedChain(w: Work, w1: Work, o: Outcome)
    requires KeptCanned(w, w1) && KeepsCanned(w1, o)
    ensures KeepsCanned(w, o)
  {
    hide Asked;
  }

  lemma DwellAndDelta(w: Work)
    ensures var o := CannedDwell(w);
            match o
            case Stop(_, st1) => KeepsCanned(w, o)
            case Go(w1) => KeepsCanned(w, Go(CannedDelta(w1)))
  {
    hide CannedDwell, CannedDelta, Asked;
    CannedDwellKeeps(w);
    if CannedDwell(w).Go? {
      CannedStepsKeep(CannedDwell(w).w);
    }
  }

  lemma DrillKeeps(w: Work)
    ensures KeepsCanned(w, CheckDrill(w))
  {
    hide CannedDwell, CannedPeck, CannedDelta, AtBottom, KeptCanned, KeepsCanned;
    BottomKeeps(w);
    CannedDwellKeeps(w);
    CannedStepsKeep(w);
    CannedAsOutcome(w, w);
    CannedAsOutcome(w, CannedDelta(w));
    var w1 := AtBottom(w);
    DwellAndDelta(w1);
    var o := CannedDwell(w1);
    CannedChain(w, w1, if o.Go? then Go(CannedDelta(o.w)) else o);
  }

  lemma BottomKeeps(w: Work)
    ensures KeptCanned(w, AtBottom(w))
  {
    hide SetCanned, Asked;
    SetCannedKeeps();
  }

  lemma CannedAsOutcome(w: Work, w1: Work)
    ensures KeptCanned(w, w1) ==> KeepsCanned(w, Go(w1))
    ensures KeptCanned(w, w)
    ensures forall s {:trigger Stop(s, w1.st)} :: KeptCanned(w, w1) ==> KeepsCanned(w, Stop(s, w1.st))
  {
  }

  lemma CycleKeeps(w: Work)
    ensures KeepsCanned(w, CheckCycle(w))
  {
    hide CannedRetract, CannedTarget, CheckDrill, Consume, KeptCanned, KeepsCanned;
    CannedStepsKeep(w);
    var w1 := CannedRetract(w);
    CannedStepsKeep(w1);
    var w2 := CannedTarget(w1);
    var w3 := Consume(w2, {'R', 'L'});
    CannedConsume(w2, {'R', 'L'});
    DrillKeeps(w3);
    CannedAsOutcome(w, w2);
    CannedAsOutcome(w1, w2);
    CannedAsGo();
    CannedChain(w, w1, Go(w2));
    CannedChain(w2, w3, CheckDrill(w3));
    CannedChain(w, w2, CheckDrill(w3));
  }

  lemma CannedKeeps(w: Work)
    ensures KeepsCanned(w, CheckCanned(w))
  {
    hide CannedReset, DefaultRepeats, CheckCycle, KeptCanned, KeepsCanned;
    CannedStepsKeep(w);
    var w1 := if w.b.cannedChange then CannedReset(w) else w;
    CannedAsOutcome(w, w);
    CannedAsOutcome(w, w1);
    RepeatsKeep(w1);
    var w2 := DefaultRepeats(w1);
    CycleKeeps(w2);
    CannedChain(w1, w2, CheckCycle(w2));
    CannedChain(w, w1, CheckCycle(w2));
  }

  lemma RepeatsKeep(w: Work)
    ensures KeptCanned(w, DefaultRepeats(w))
  {
    hide SetValues, Asked;
    Setters();
  }

  lemma CannedConsume(w: Work, l: set<char>)
    ensures KeptCanned(w, Consume(w, l))
  {
    hide Consume, Asked;
    Setters();
  }

  lemma CannedAsGo()
    ensures forall w, w1 :: KeepsCanned(w, Go(w1)) ==> KeptCanned(w, w1)
  {
  }

  /** A check that writes nothing to the state and keeps the frame of the motion checks. */
  ghost predicate KeepsStill(w: Work, o: Outcome) {
    match o
    case Stop(_, st1) => st1 == w.st
    case Go(w1) => w1.st == w.st && KeptMotion(w, w1)
  }

  lemma TurnsKeep(w: Work)
    ensures KeepsStill(w, CheckTurns(w))
    ensures CheckTurns(w).Go? ==> CheckTurns(w).w.b.values == w.b.values && CheckTurns(w).w.b.modal == w.b.modal
  {
    hide SetTurns, Consume, Asked, IsInt, ToUint32;
    Setters();
  }

  lemma RadiusArcKeeps(m: Machine, w: Work)
    ensures KeepsStill(w, CheckRadiusArc(m, w))
  {
    hide SetValues, Consume, Asked, ProgrammedRadius, RadiusCentre, G.FourHSquared, G.Abs, Vec.Put;
    Setters();
  }

  lemma CentreArcKeeps(m: Machine, w: Work)
    ensures KeepsStill(w, CheckCentreArc(m, w))
  {
    hide SetValues, Consume, Asked, CentreOffsets, RadiiAgree, Distance;
    Setters();
  }

  lemma ArcKeeps(m: Machine, w: Work)
    ensures KeepsStill(w, CheckArc(m, w))
  {
    hide CheckTurns, CheckRadiusArc, CheckCentreArc, Asked;
    TurnsKeep(w);
    if CheckTurns(w).Go? {
      RadiusArcKeeps(m, CheckTurns(w).w);
      CentreArcKeeps(m, CheckTurns(w).w);
    }
  }

  ghost predicate KeepsOffset(w: Work, o: Outcome) {
    match o
    case Stop(_, st1) => st1 == w.st
    case Go(w1) => w1.st == w.st.(modal := w.st.modal.(splinePq := w1.st.modal.splinePq)) && KeptMotion(w, w1)
  }

  lemma CubicKeeps(w: Work)
    ensures KeepsOffset(w, CheckCubic(w))
  {
    hide SetValues, Consume, Asked, CubicOffset, PlanarLength;
    Setters();
  }

  lemma QuadraticKeeps(w: Work)
    ensures KeepsStill(w, CheckQuadratic(w))
  {
    hide SetValues, Consume, Asked, SplineOffset;
    Setters();
  }

  lemma DropKeeps(w: Work)
    ensures KeepsStill(w, Go(DropAxisCmd(w)))
  {
    hide SetAxisCmd, Asked;
    Setters();
  }

  lemma AsMotion(w: Work, w1: Work, o: Outcome)
    requires w1.st == w.st && KeptMotion(w, w1) && w1.b.axisCmd == w.b.axisCmd
    ensures KeepsMotion(w, Go(w1))
    ensures forall s {:trigger Stop(s, w.st)} :: KeepsMotion(w, Stop(s, w.st))
    ensures KeepsStill(w1, o) ==> KeepsMotion(w, o)
    ensures w.b.modal.canned && KeepsCanned(w1, o) ==> KeepsMotion(w, o)
    ensures w.b.modal.motion.CubicSpline? && KeepsOffset(w1, o) ==> KeepsMotion(w, o)
  {
    hide Asked;
  }

  lemma ForgetKeeps(w: Work)
    ensures KeepsStill(w, Go(w)) && KeepsStill(w, Go(ForgetRetract(w)))
    ensures forall s {:trigger Stop(s, w.st)} :: KeepsStill(w, Stop(s, w.st))
    ensures KeptMotion(w, w)
  {
    hide ForgetRetract, Asked;
    Setters();
  }

  lemma StillMeans(w: Work, o: Outcome)
    requires KeepsStill(w, o) || KeepsCanned(w, o) || KeepsOffset(w, o)
    ensures o.Go? ==> o.w.b.values.f == w.b.values.f
  {
    hide Asked;
  }

  lemma ModeKeeps(m: Machine, w: Work)
    ensures KeepsMotion(w, CheckMode(m, w))
    ensures var o := CheckMode(m, w); o.Go? ==> o.w.b.values.f == w.b.values.f
  {
    hide CheckCanned, CheckArc, CheckCubic, CheckQuadratic, DropAxisCmd, KeptMotion, KeepsMotion, KeepsStill, KeepsCanned,
         KeepsOffset;
    ForgetKeeps(w);
    AsMotion(w, w, CheckMode(m, w));
    CannedKeeps(w);
    ArcKeeps(m, w);
    CubicKeeps(w);
    QuadraticKeeps(w);
    DropKeeps(w);
    StillMeans(w, CheckMode(m, w));
  }

  lemma FeedMotionKeeps(m: Machine, w: Work)
    ensures KeepsMotion(w, CheckFeedMotion(m, w))
    ensures var o := CheckFeedMotion(m, w); o.Go? ==> o.w.b.values.f != 0.0
  {
    hide CheckMode, ForgetRetract, Asked;
    Setters();
    var w1 := if w.b.modal.canned then w else ForgetRetract(w);
    AskedMeans(w1.b, w.b);
    ModeKeeps(m, w1);
  }

  lemma MotionKeeps(m: Machine, w: Work)
    ensures KeepsMotion(w, CheckMotion(m, w))
    ensures var o := CheckMotion(m, w);
            o.Go? && w.b.axisCmd.MotionCmd? && !w.b.modal.motion.NoMotion? && !w.b.modal.motion.Seek? ==> o.w.b.values.f != 0.0
  {
    hide CheckFeedMotion, ForgetRetract, DropAxisCmd, KeptMotion, KeepsMotion, KeepsStill;
    FeedMotionKeeps(m, w);
    DropKeeps(w);
    ForgetKeeps(w);
    var o := CheckMotion(m, w);
    AsMotion(w, w, o);
  }

  lemma UnusedKeeps(w: Work)
    ensures var o := CheckUnused(w);
            match o
            case Stop(_, st1) => st1 == w.st
            case Go(w1) => w1 == w.(b := w.b.(words := {}))
  {
    hide Consume;
    ConsumeIs(w, if w.b.jog then {'N', 'F'} else {'N', 'F', 'S', 'T'});
    var w1 := Consume(w, if w.b.jog then {'N', 'F'} else {'N', 'F', 'S', 'T'});
    ConsumeIs(w1, {'X', 'Y', 'Z'});
  }

  lemma ConsumeIs(w: Work, l: set<char>)
    ensures Consume(w, l) == w.(b := w.b.(words := w.b.words - l))
  {
  }
}
