/** What exactly the checks of a block leave in the parser state. This is what a refused block leaves behind, and what
    the execution step of an accepted one starts from. */
module Refusals {
  import opened GcTypes
  import opened Scanner
  import opened Validation
  import opened Execution
  import opened Frames
  import opened ScanFacts
  import Atomicity
  import opened Targets

  // ---------------------------------------------------------------- which words are left

  /** The words that the checks before the motion checks use up, but for the axis words. */
  ghost function WordsUsed(b: Block): set<char> {
    (if !b.jog && b.modal.motion.SpindleSync? then {'K'} else {}) +
    (if '$' in b.words && (M7 in b.groups || SingleSpindle(b)) then {'$'} else {}) +
    (if b.setTool then {'Q'} else {}) +
    (if M9 in b.groups || b.nonModal.Dwell? then {'P'} else {})
  }

  /** A stage of the word checks that uses up these words. */
  ghost predicate Uses(w: Work, o: Outcome, used: set<char>) {
    o.Go? ==> Asked(o.w.b) == Asked(w.b) && o.w.b.words == w.b.words - used && o.w.b.jog == w.b.jog
  }

  lemma CommonUses(w: Work)
    ensures Uses(w, CheckCommon(w), {})
  {
    hide Asked;
    Setters();
    if CheckCommon(w).Go? {
      AxisCmdKeepsWords(w, MotionCmd);
    }
    hide SetAxisCmd;
  }

  lemma AxisCmdKeepsWords(w: Work, cmd: AxisCmd)
    ensures SetAxisCmd(w, cmd).b == w.b.(axisCmd := cmd)
  {
  }

  lemma FeedUses(w: Work)
    ensures Uses(w, CheckFeed(w), if !w.b.jog && w.b.modal.motion.SpindleSync? then {'K'} else {})
  {
    hide SetValues, Consume, Asked, ToMillimetres;
    Setters();
    if CheckFeed(w).Go? {
      AskedMeans(CheckFeed(w).w.b, w.b);
    }
  }

  lemma SpindleUses(m: Machine, w: Work)
    ensures Uses(w, CheckSpindle(m, w), if '$' in w.b.words && (M7 in w.b.groups || SingleSpindle(w.b)) then {'$'} else {})
  {
    hide SetValues, Consume, Asked, SingleSpindle;
    Setters();
    if CheckSpindle(m, w).Go? {
      AskedMeans(CheckSpindle(m, w).w.b, w.b);
    }
  }

  lemma ToolUses(w: Work)
    ensures Uses(w, CheckTool(w), if w.b.setTool then {'Q'} else {})
  {
    hide SetValues, Consume, Asked, IsInt, ToUint32;
    Setters();
    if CheckTool(w).Go? {
      AskedMeans(CheckTool(w).w.b, w.b);
    }
  }

  lemma SpindleStateUses(m: Machine, w: Work)
    ensures Uses(w, CheckSpindleState(m, w), {})
  {
  }

  lemma OverrideUses(w: Work)
    ensures Uses(w, CheckOverride(w), if M9 in w.b.groups then {'P'} else {})
  {
    hide SetValues, Consume, Asked, SetCtrl, Overridden;
    Setters();
    if CheckOverride(w).Go? {
      AskedMeans(CheckOverride(w).w.b, w.b);
    }
  }

  lemma DwellUses(w: Work)
    ensures Uses(w, CheckDwell(w), if w.b.nonModal.Dwell? then {'P'} else {})
  {
    hide Consume, Asked;
    Setters();
    if CheckDwell(w).Go? {
      AskedMeans(CheckDwell(w).w.b, w.b);
    }
  }

  lemma SameSpindle(b: Block, c: Block)
    requires Asked(b) == Asked(c) && ('S' in b.words <==> 'S' in c.words)
    ensures SingleSpindle(b) == SingleSpindle(c)
  {
  }

  lemma WordsUse(m: Machine, w: Work)
    requires CheckWords(m, w).Go?
    ensures CheckWords(m, w).w.b.words == w.b.words - WordsUsed(w.b)
  {
    hide CheckCommon, CheckFeed, CheckSpindle, CheckTool, CheckSpindleState, CheckOverride, CheckDwell, Asked, SingleSpindle;
    CommonUses(w);
    var w1 := CheckCommon(w).w;
    FeedUses(w1);
    var w2 := CheckFeed(w1).w;
    SpindleUses(m, w2);
    var w3 := CheckSpindle(m, w2).w;
    ToolUses(w3);
    var w4 := CheckTool(w3).w;
    SpindleStateUses(m, w4);
    var w5 := CheckSpindleState(m, w4).w;
    OverrideUses(w5);
    var w6 := CheckOverride(w5).w;
    DwellUses(w6);
    AskedMeans(w1.b, w.b);
    AskedMeans(w2.b, w.b);
    AskedMeans(w3.b, w.b);
    AskedMeans(w5.b, w.b);
    AskedMeans(w6.b, w.b);
    SameSpindle(w2.b, w.b);
  }

  lemma NonModalUses(m: Machine, w: Work)
    requires CheckNonModal(m, w).Go? && !w.b.nonModal.SetCoordinateData?
    ensures CheckNonModal(m, w).w.b.words == w.b.words
    ensures !w.b.nonModal.GoHome0? && !w.b.nonModal.GoHome1? ==> CheckNonModal(m, w).w.b.axisCmd == w.b.axisCmd
  {
    hide SetValues, SetCoordData, Asked, MoveTarget, Pick;
    Setters();
    TargetKeeps(w);
    forall v: Work, i, d ensures SetCoordData(v, i, d).b == v.b {
      SetCoordDataKeeps(v, i, d);
    }
  }

  lemma ScaleAxesUses(w: Work)
    ensures ScaleAxes(w).b.words == w.b.words && SelectCoord(w).b.words == w.b.words && ConvertUnits(w).b.words == w.b.words
  {
    hide SetValues, Asked, Pick;
    Setters();
  }

  /** What a block still has when its motion is checked. */
  lemma AxesUse(m: Machine, w: Work)
    requires CheckAxes(m, w).Go? && !w.b.axisCmd.ScalingCmd? && !w.b.nonModal.SetCoordinateData?
    ensures CheckAxes(m, w).w.b.words == w.b.words
    ensures !w.b.nonModal.GoHome0? && !w.b.nonModal.GoHome1? ==> CheckAxes(m, w).w.b.axisCmd == w.b.axisCmd
  {
    hide CheckScaling, ConvertUnits, ScaleAxes, CheckNonModal, SelectCoord, Asked;
    ConvertKeeps(w);
    var w0 := ConvertUnits(w);
    ScaleAxesUses(w);
    ScalingKeeps(w0);
    ScaleAxesKeeps(w0);
    ScaleAxesUses(w0);
    var w2 := ScaleAxes(w0);
    SelectKeeps(w2);
    ScaleAxesUses(w2);
    AskedMeans(SelectCoord(w2).b, w.b);
    NonModalUses(m, SelectCoord(w2));
  }

  // ---------------------------------------------------------------- what the motion checks write

  /** Motion that is checked for a feed: everything but G0, G80 and what is not supported. */
  ghost predicate FedMotion(w: Work) {
    && w.b.axisCmd.MotionCmd? && Atomicity.CutsOrProbes(w.b) && !w.b.modal.motion.SpindleSync? && !w.b.modal.motion.Threading?
    && w.b.values.f != 0.0
  }

  /** G5 with all that it needs. */
  ghost predicate WholeCubic(w: Work) {
    && w.b.modal.plane.XY? && !w.b.axisWords.z && 'P' in w.b.words && 'Q' in w.b.words
    && (w.b.modal.motion == w.st.modal.motion || ('I' in w.b.words && 'J' in w.b.words))
  }

  ghost function ControlOffset(w: Work): Pq {
    Pq(PlanarLength(w, w.b.values.p, 0), PlanarLength(w, w.b.values.q, 1))
  }

  lemma CubicWrites(w: Work)
    ensures StateOf(CheckCubic(w)) == if WholeCubic(w) then w.st.(modal := w.st.modal.(splinePq := ControlOffset(w))) else w.st
  {
    hide SetValues, Consume, Asked, CubicOffset, PlanarLength;
    Setters();
  }

  lemma CannedWrites(w: Work)
    ensures StateOf(CheckCanned(w)) == w.st.(canned := StateOf(CheckCanned(w)).canned)
  {
    hide CheckCanned, KeptCanned;
    CannedKeeps(w);
    CannedMeans(w, CheckCanned(w));
  }

  lemma CannedMeans(w: Work, o: Outcome)
    requires KeepsCanned(w, o)
    ensures StateOf(o) == w.st.(canned := StateOf(o).canned)
  {
    hide KeptMotion;
  }

  lemma ForgetIs(w: Work)
    ensures var w1 := ForgetRetract(w);
            && w1.st == w.st && w1.b.words == w.b.words && w1.b.values == w.b.values && w1.b.axisWords == w.b.axisWords
            && w1.b.axisCmd == w.b.axisCmd && w1.b.modal == w.b.modal.(retractToR := false)
  {
  }

  lemma SameCubic(w: Work, w1: Work)
    requires w1.st == w.st && w1.b.words == w.b.words && w1.b.values == w.b.values && w1.b.axisWords == w.b.axisWords
    requires w1.b.modal == w.b.modal.(retractToR := w1.b.modal.retractToR)
    ensures WholeCubic(w1) == WholeCubic(w) && ControlOffset(w1) == ControlOffset(w)
  {
  }

  lemma MotionWrites(m: Machine, w: Work)
    ensures StateOf(CheckMotion(m, w)) ==
              if !FedMotion(w) then w.st
              else if w.b.modal.canned then w.st.(canned := StateOf(CheckCanned(w)).canned)
              else if w.b.modal.motion.CubicSpline? && WholeCubic(w) then w.st.(modal := w.st.modal.(splinePq := ControlOffset(w)))
              else w.st
  {
    hide CheckCanned, CheckArc, CheckCubic, CheckQuadratic, DropAxisCmd, WholeCubic, ControlOffset, ForgetRetract, KeptMotion;
    CannedWrites(w);
    ForgetIs(w);
    var w1 := ForgetRetract(w);
    SameCubic(w, w1);
    CubicWrites(w1);
    QuadraticKeeps(w1);
    ArcKeeps(m, w1);
    DropKeeps(w);
    DropKeeps(w1);
  }

  // ---------------------------------------------------------------- when they are reached

  ghost predicate WordsPass(m: Machine, st: State, b: Block) {
    CheckWords(m, Fresh(st, b)).Go?
  }

  ghost predicate AxesPass(m: Machine, st: State, b: Block) {
    WordsPass(m, st, b) && CheckAxes(m, CheckWords(m, Fresh(st, b)).w).Go?
  }

  /** G50, or G51 with axis words, behind words that are right. */
  ghost predicate ScalingReached(m: Machine, st: State, b: Block) {
    b.axisCmd.ScalingCmd? && WordsPass(m, st, b) && (b.modal.scaling ==> b.axisWords.Any())
  }

  /** A motion with a feed, behind words and axes that are right. */
  ghost predicate MotionReached(m: Machine, st: State, b: Block) {
    && AxesPass(m, st, b) && ImpliedCmd(b).MotionCmd? && Atomicity.CutsOrProbes(b)
    && !b.modal.motion.SpindleSync? && !b.modal.motion.Threading? && FeedOf(st, b) != 0.0
  }

  ghost predicate CycleReached(m: Machine, st: State, b: Block) {
    MotionReached(m, st, b) && b.modal.canned
  }

  /** G5 in the right plane, with its P and Q not taken by other words of the line, and with I and J unless G5 goes on. */
  ghost predicate SplineReached(m: Machine, st: State, b: Block) {
    && MotionReached(m, st, b) && !b.modal.canned && b.modal.motion.CubicSpline? && b.modal.plane.XY? && !b.axisWords.z
    && 'P' in b.words && M9 !in b.groups && !b.nonModal.Dwell? && 'Q' in b.words && !b.setTool
    && (b.modal.motion == st.modal.motion || ('I' in b.words && 'J' in b.words))
  }

  // ---------------------------------------------------------------- what is written

  ghost function ScaleWritten(st: State, b: Block): Scale {
    if b.modal.scaling then st.scale.(ijk := Pick(b.axisWords, Millimetres(b), st.scale.ijk)) else UNSCALED
  }

  predicate ScalingFlag(st: State, b: Block) {
    b.modal.scaling && st.scale.xyz != ONES
  }

  /** The block as the motion checks get it. */
  ghost function AtMotion(m: Machine, st: State, b: Block): Work
    requires AxesPass(m, st, b)
  {
    CheckAxes(m, CheckWords(m, Fresh(st, b)).w).w
  }

  ghost function OffsetWritten(st: State, b: Block): Pq {
    ControlOffset(Fresh(st, b))
  }

  /** The data before R and the axis words are looked at. */
  ghost function CycleBefore(st: State, b: Block): Canned {
    if b.cannedChange
    then st.canned.(dwell := 0.0, xyz := st.canned.xyz.Put(b.modal.plane.Axis0(), 0.0).Put(b.modal.plane.Axis1(), 0.0),
                    rapidRetract := true, spindleOff := false)
    else st.canned
  }

  ghost function RetractOpened(st: State, b: Block): real {
    var from := if b.modal.incremental then st.position else SelectedCoord(Fresh(st, b)).xyz.Plus(st.g92).Plus(st.tlo);
    if 'R' in b.words then ToMillimetres(b.modal.imperial, b.values.r) + from.At(b.modal.plane.AxisLinear()) else st.canned.retract
  }

  /** The data of the cycle as a line opens it: a new cycle starts afresh, R and the axis words replace what was there. */
  ghost function CycleOpened(st: State, b: Block): Canned {
    var linear, v, retract := b.modal.plane.AxisLinear(), Placed(Fresh(st, b)), RetractOpened(st, b);
    var travel := v.Minus(st.position);
    var depth := if b.modal.incremental then retract + travel.At(linear) else v.At(linear);
    var c := CycleBefore(st, b);
    c.(retract := retract, xyz := Pick(b.axisWords, travel.Put(linear, depth), c.xyz))
  }

  /** A hole that is above its retract position. */
  ghost predicate RetractsBelow(st: State, b: Block) {
    var c := CycleOpened(st, b); c.retract < c.xyz.At(b.modal.plane.AxisLinear())
  }

  /** The line says enough for its cycle: not in G93, R and the depth if it is new, and L not zero. */
  predicate CycleIsWhole(st: State, b: Block) {
    && (b.cannedChange ==> !st.modal.feedMode.InverseTime? && 'R' in b.words && b.axisWords.Has(b.modal.plane.AxisLinear()))
    && ('L' in b.words ==> b.values.l != 0)
  }

  /** P is the dwell of the cycle, and Q its peck, unless another word of the line has taken them. */
  predicate TakesP(b: Block) {
    'P' in b.words && M9 !in b.groups && !b.nonModal.Dwell?
  }

  predicate TakesQ(b: Block) {
    'Q' in b.words && !b.setTool
  }

  /** The whole hole in one go; G85 feeds back out of it. */
  function InOneGo(b: Block, c: Canned): Canned {
    c.(delta := c.retract - c.xyz.At(b.modal.plane.AxisLinear()), rapidRetract := c.rapidRetract && !b.modal.motion.Canned85?)
  }

  /** What G86 and G89 do at the bottom. */
  function BottomOf(motion: Motion, c: Canned): Canned {
    if motion.Canned86? then c.(spindleOff := true, rapidRetract := true)
    else if motion.Canned89? then c.(spindleOff := false, rapidRetract := false)
    else c
  }

  /** The data of an open cycle after the words of its own, as far as these are right. */
  function CycleDrilled(b: Block, c: Canned): Canned {
    var motion, bottom := b.modal.motion, BottomOf(b.modal.motion, c);
    if motion.Canned82? || motion.Canned86? || motion.Canned89? then
      if TakesP(b) then (if b.values.p < 0.0 then bottom else InOneGo(b, bottom.(dwell := b.values.p)))
      else if b.cannedChange then bottom
      else InOneGo(b, bottom)
    else if motion.Canned81? || motion.Canned85? then InOneGo(b, c)
    else if motion.ChipBreak? || motion.Canned83? then
      if TakesQ(b) then
        (if b.values.q <= 0.0 then c else c.(delta := ToMillimetres(b.modal.imperial, b.values.q), dwell := 0.25))
      else if b.cannedChange then c
      else c.(dwell := 0.25)
    else c
  }

  /** The data that a cycle line leaves, from the state and the words of the line. */
  ghost function CycleFinal(st: State, b: Block): Canned {
    if b.cannedChange && (st.modal.feedMode.InverseTime? || 'R' !in b.words || !b.axisWords.Has(b.modal.plane.AxisLinear()))
    then st.canned
    else if 'L' in b.words && b.values.l == 0 then CycleBefore(st, b)
    else if RetractsBelow(st, b) then CycleOpened(st, b)
    else CycleDrilled(b, CycleOpened(st, b))
  }

  /** The state when the checks end, wherever they end. */
  ghost function AfterChecks(m: Machine, st: State, b: Block): State {
    if ScalingReached(m, st, b) then st.(scale := ScaleWritten(st, b), modal := st.modal.(scaling := ScalingFlag(st, b)))
    else if CycleReached(m, st, b) then st.(canned := CycleFinal(st, b))
    else if SplineReached(m, st, b) then st.(modal := st.modal.(splinePq := OffsetWritten(st, b)))
    else st
  }

  /** The stages of the checks pass the state on. */
  lemma StagesState(m: Machine, st: State, b: Block)
    ensures var w, o := Fresh(st, b), StateOf(Validate(m, st, b));
            if !WordsPass(m, st, b) then o == st
            else if !AxesPass(m, st, b) then o == StateOf(CheckAxes(m, CheckWords(m, w).w))
            else o == StateOf(CheckMotion(m, AtMotion(m, st, b)))
  {
    hide CheckWords, CheckAxes, CheckMotion, CheckUnused, Asked;
    var o1 := CheckWords(m, Fresh(st, b));
    WordsKeep(m, Fresh(st, b));
    if o1.Go? {
      var o2 := CheckAxes(m, o1.w);
      if o2.Go? {
        var o3 := CheckMotion(m, o2.w);
        if o3.Go? {
          UnusedKeeps(o3.w);
        }
      }
    }
  }

  lemma ScalingWrites(m: Machine, w: Work)
    requires w.b.axisCmd.ScalingCmd?
    ensures StateOf(CheckAxes(m, w)) ==
              if w.b.modal.scaling && !w.b.axisWords.Any() then w.st
              else w.st.(scale := ScaleWritten(w.st, w.b), modal := w.st.modal.(scaling := ScalingFlag(w.st, w.b)))
  {
    var w0 := ConvertUnits(w);
    hide ScaleAxes, CheckNonModal, SelectCoord, Asked, Pick, ConvertUnits, Millimetres;
    ConvertKeeps(w);
    AskedMeans(w0.b, w.b);
    var o1 := CheckScaling(w0);
    assert StateOf(o1) == if w.b.modal.scaling && !w.b.axisWords.Any() then w.st
                          else w.st.(scale := ScaleWritten(w.st, w.b), modal := w.st.modal.(scaling := ScalingFlag(w.st, w.b)));
    hide CheckScaling, ScaleWritten, ScalingFlag;
    if o1.Go? {
      ScaleAxesKeeps(o1.w);
      var w2 := ScaleAxes(o1.w);
      if CheckToolOffset(w2).Go? {
        SelectKeeps(w2);
        NonModalKeeps(m, SelectCoord(w2));
      }
    }
  }

  lemma SameMillimetres(w: Work, w1: Work)
    requires Same(w, w1) && w1.b.values.xyz == w.b.values.xyz
    ensures Millimetres(w1.b) == Millimetres(w.b)
  {
    AskedMeans(w1.b, w.b);
  }

  lemma SameScaling(st: State, b: Block, w1: Work)
    requires Same(Fresh(st, b), w1) && w1.b.values.xyz == b.values.xyz
    ensures ScaleWritten(w1.st, w1.b) == ScaleWritten(st, b) && ScalingFlag(w1.st, w1.b) == ScalingFlag(st, b)
  {
    hide Asked, Pick, Millimetres;
    SameMillimetres(Fresh(st, b), w1);
  }

  /** Behind the axes the block is still the one that was read. */
  lemma MotionBlock(m: Machine, st: State, b: Block)
    requires AxesPass(m, st, b) && Covered(b) && ImpliedCmd(b).MotionCmd?
    ensures var w := AtMotion(m, st, b);
            && w.st == st && w.b.axisCmd.MotionCmd? && w.b.axisWords == b.axisWords && w.b.modal.motion == b.modal.motion
            && w.b.modal.canned == b.modal.canned && w.b.modal.plane == b.modal.plane && w.b.modal.imperial == b.modal.imperial
            && w.b.modal.incremental == b.modal.incremental && w.b.cannedChange == b.cannedChange
            && w.b.values == b.values.(f := FeedOf(st, b), s := w.b.values.s, t := w.b.values.t, p := PLeft(b), xyz := Placed(Fresh(st, b)))
            && w.b.modal.coord == SelectedCoord(Fresh(st, b)) && w.b.words == b.words - WordsUsed(b)
  {
    hide CheckWords, CheckAxes, Asked, FeedOf, PLeft, Placed, SelectedCoord, WordsUsed;
    var w0 := Fresh(st, b);
    WordsKeep(m, w0);
    WordsLeaveP(m, w0);
    WordsUse(m, w0);
    var w1 := CheckWords(m, w0).w;
    AskedMeans(w1.b, b);
    AxesKeep(m, w1);
    AxesUse(m, w1);
    AxesPlaced(m, w1);
    PlacedSame(w0, w1);
    SelectedSame(w0, w1);
    AskedMeans(AtMotion(m, st, b).b, w1.b);
  }

  lemma SameControl(st: State, b: Block, w: Work)
    requires w.st == st && w.b.modal.imperial == b.modal.imperial && w.b.values.q == b.values.q
    requires w.b.values.p == b.values.p
    ensures ControlOffset(w) == OffsetWritten(st, b)
  {
  }

  lemma StillMotion(m: Machine, st: State, b: Block)
    requires AxesPass(m, st, b) && Covered(b) && ImpliedCmd(b).MotionCmd?
    ensures FedMotion(AtMotion(m, st, b)) <==> MotionReached(m, st, b)
    ensures SplineReached(m, st, b) <==>
              MotionReached(m, st, b) && !b.modal.canned && b.modal.motion.CubicSpline? && WholeCubic(AtMotion(m, st, b))
    ensures M9 !in b.groups ==> ControlOffset(AtMotion(m, st, b)) == OffsetWritten(st, b)
  {
    MotionBlock(m, st, b);
    hide AxesPass, Asked, FeedOf, Placed, SelectedCoord, AtMotion, ControlOffset, OffsetWritten;
    var w := AtMotion(m, st, b);
    if M9 !in b.groups {
      SameControl(st, b, w);
    }
  }

  /** A block that does not move at a feed keeps the state in the motion checks. */
  lemma NoFedMotion(m: Machine, st: State, b: Block)
    requires AxesPass(m, st, b) && !ImpliedCmd(b).MotionCmd?
    ensures !FedMotion(AtMotion(m, st, b))
    ensures !b.axisCmd.ScalingCmd? ==> AtMotion(m, st, b).st == st
  {
    hide CheckWords, CheckAxes, Asked, FeedOf, SelectedCoord;
    WordsKeep(m, Fresh(st, b));
    AxesKeep(m, CheckWords(m, Fresh(st, b)).w);
  }

  lemma ScalingLeaves(m: Machine, st: State, b: Block)
    requires b.axisCmd.ScalingCmd? && WordsPass(m, st, b)
    ensures var st1 := StateOf(CheckAxes(m, CheckWords(m, Fresh(st, b)).w));
            st1 == if b.modal.scaling && !b.axisWords.Any() then st
                   else st.(scale := ScaleWritten(st, b), modal := st.modal.(scaling := ScalingFlag(st, b)))
  {
    hide CheckWords, CheckAxes, ScaleWritten, ScalingFlag, FeedOf, Asked;
    WordsKeep(m, Fresh(st, b));
    var w1 := CheckWords(m, Fresh(st, b)).w;
    AskedMeans(w1.b, b);
    ScalingWrites(m, w1);
    SameScaling(st, b, w1);
  }

  lemma AxesLeave(m: Machine, st: State, b: Block)
    requires !b.axisCmd.ScalingCmd? && WordsPass(m, st, b)
    ensures StateOf(CheckAxes(m, CheckWords(m, Fresh(st, b)).w)) == st
  {
    hide CheckWords, CheckAxes, FeedOf, Asked;
    WordsKeep(m, Fresh(st, b));
    AxesKeep(m, CheckWords(m, Fresh(st, b)).w);
  }

  /** What the motion checks leave, if they are reached. */
  lemma MotionLeaves(m: Machine, st: State, b: Block)
    requires Covered(b) && AxesPass(m, st, b)
    ensures StateOf(CheckMotion(m, AtMotion(m, st, b))) ==
              if CycleReached(m, st, b) then st.(canned := CycleFinal(st, b))
              else if SplineReached(m, st, b) then st.(modal := st.modal.(splinePq := OffsetWritten(st, b)))
              else AtMotion(m, st, b).st
  {
    hide CheckMotion, AxesPass, FeedOf, AtMotion, Covered, FedMotion, WholeCubic, ControlOffset, OffsetWritten, Placed,
         SelectedCoord, WordsUsed, PLeft;
    MotionWrites(m, AtMotion(m, st, b));
    if ImpliedCmd(b).MotionCmd? {
      MotionBlock(m, st, b);
      StillMotion(m, st, b);
    } else {
      NoFedMotion(m, st, b);
    }
    if CycleReached(m, st, b) {
      CycleIsWritten(m, st, b);
    }
  }

  /** What the checks leave in the state, for every block that has been read. */
  lemma ChecksLeave(m: Machine, st: State, b: Block)
    requires Covered(b)
    ensures StateOf(Validate(m, st, b)) == AfterChecks(m, st, b)
  {
    assert ScalingReached(m, st, b) ==> !CycleReached(m, st, b) && !SplineReached(m, st, b);
    assert AxesPass(m, st, b) ==> AtMotion(m, st, b).st == StateOf(CheckAxes(m, CheckWords(m, Fresh(st, b)).w));
    hide Validate, CheckWords, CheckAxes, CheckMotion, ScaleWritten, ScalingFlag, OffsetWritten, CycleFinal, FeedOf, AtMotion;
    StagesState(m, st, b);
    if WordsPass(m, st, b) {
      if b.axisCmd.ScalingCmd? {
        ScalingLeaves(m, st, b);
      } else {
        AxesLeave(m, st, b);
      }
      if AxesPass(m, st, b) {
        MotionLeaves(m, st, b);
      }
    }
  }

  // ---------------------------------------------------------------- refused lines

  /** The state that a refused line leaves. */
  lemma RefusedLeaves(m: Machine, st: State, line: Line)
    requires ScanLine(m, st, line).Accept? && Execute(m, st, line).status != Ok
    ensures Execute(m, st, line).st == AfterChecks(m, st, ScanLine(m, st, line).value)
  {
    hide ScanLine, Validate, AfterChecks, Commit, Read, ReadValues;
    LineReads(m, st, line);
    var b := ScanLine(m, st, line).value;
    ReadCovers(st, line.jog, b);
    ChecksLeave(m, st, b);
    if Validate(m, st, b).Go? {
      CommitSucceeds(m, Validate(m, st, b).w, line.env);
    }
  }

  /** And the state that a jog leaves, accepted or refused, but for the position. */
  lemma JogLeaves(m: Machine, st: State, line: Line)
    requires line.jog && ScanLine(m, st, line).Accept?
    ensures var e := Execute(m, st, line);
            e.st == AfterChecks(m, st, ScanLine(m, st, line).value).(position := e.st.position)
  {
    hide ScanLine, Validate, AfterChecks, Commit, Read, ReadValues, Covered;
    LineReads(m, st, line);
    var b := ScanLine(m, st, line).value;
    ReadCovers(st, line.jog, b);
    JogRead(st, b);
    ChecksLeave(m, st, b);
    hide CommitJog;
    if Validate(m, st, b).Go? {
      JogMoves(m, Validate(m, st, b).w);
    }
  }

  lemma JogRead(st: State, b: Block)
    requires Read(NewBlock(st, true), b)
    ensures b.jog
  {
    hide SlotOf, Claimed;
  }

  lemma JogMoves(m: Machine, w: Work)
    ensures CommitJog(m, w).st == w.st.(position := CommitJog(m, w).st.position)
  {
  }

  lemma ReadCovers(st: State, jog: bool, b: Block)
    requires Read(NewBlock(st, jog), b)
    ensures Covered(b)
  {
    hide SlotOf, Covered;
  }

  lemma LineCovers(m: Machine, st: State, line: Line)
    requires ScanLine(m, st, line).Accept?
    ensures Covered(ScanLine(m, st, line).value)
  {
    hide ScanLine, Read, ReadValues, Covered;
    LineReads(m, st, line);
    ReadCovers(st, line.jog, ScanLine(m, st, line).value);
  }

  lemma CommitSucceeds(m: Machine, w: Work, env: Env)
    ensures Commit(m, w, env).status == Ok
  {
    hide CommitModes, CommitNonModal, CommitMotion, CommitFlow;
  }

  /** A refused line leaves the state as it was exactly if each of the three early writes is not reached, or writes what
      was there before. */
  lemma RefusedUnchangedIff(m: Machine, st: State, line: Line)
    requires ScanLine(m, st, line).Accept? && Execute(m, st, line).status != Ok
    ensures var b := ScanLine(m, st, line).value;
            Execute(m, st, line).st == st <==>
              && (ScalingReached(m, st, b) ==> ScaleWritten(st, b) == st.scale && ScalingFlag(st, b) == st.modal.scaling)
              && (CycleReached(m, st, b) ==> CycleFinal(st, b) == st.canned)
              && (SplineReached(m, st, b) ==> OffsetWritten(st, b) == st.modal.splinePq)
  {
    RefusedLeaves(m, st, line);
    var b := ScanLine(m, st, line).value;
    hide ScanLine, Execute, ScaleWritten, ScalingFlag, CycleFinal, OffsetWritten, AxesPass, FeedOf;
    assert !(ScalingReached(m, st, b) && CycleReached(m, st, b));
    assert !(ScalingReached(m, st, b) && SplineReached(m, st, b));
    assert !(CycleReached(m, st, b) && SplineReached(m, st, b));
    hide ScalingReached, CycleReached, SplineReached;
  }

  /** Once the plain words are checked, G50 and G51 with axis words take effect whatever becomes of the rest of the
      block; before that, nothing does. */
  lemma ScalingActsAtOnce(m: Machine, st: State, b: Block)
    requires b.axisCmd.ScalingCmd? && Covered(b)
    ensures StateOf(Validate(m, st, b)) ==
              if !WordsPass(m, st, b) || (b.modal.scaling && !b.axisWords.Any()) then st
              else st.(scale := ScaleWritten(st, b), modal := st.modal.(scaling := ScalingFlag(st, b)))
  {
    hide Validate, WordsPass, AxesPass, FeedOf, ScaleWritten, ScalingFlag, CycleFinal, OffsetWritten, Covered;
    ChecksLeave(m, st, b);
  }

  lemma OffsetNeedsAxes(m: Machine, w: Work)
    requires w.b.axisCmd.ScalingCmd? && w.b.modal.scaling && w.b.axisWords.Any() && G8 in w.b.groups
             && w.b.modal.toolMode.DynamicTlo?
    ensures CheckAxes(m, w).Stop? && CheckAxes(m, w).status == G43DynamicAxisError
  {
    hide ScaleAxes, CheckNonModal, SelectCoord, Asked, Pick, ConvertUnits, Millimetres, CheckScaling;
    ConvertKeeps(w);
    var w0 := ConvertUnits(w);
    AskedMeans(w0.b, w.b);
    ScalingKeeps(w0);
    GrabsAxes(w0);
    var w1 := CheckScaling(w0).w;
    ScaleAxesKeeps(w1);
    AskedMeans(ScaleAxes(w1).b, w.b);
  }

  lemma GrabsAxes(w: Work)
    requires w.b.axisCmd.ScalingCmd? && w.b.modal.scaling && w.b.axisWords.Any()
    ensures CheckScaling(w).Go? && !CheckScaling(w).w.b.axisWords.Any()
  {
    hide Pick;
  }

  /** A line with both G43.1 and G51 is refused, and yet has changed the scaling. */
  lemma RefusedButScaled(m: Machine, st: State, line: Line)
    requires (line.words != [] || line.jog) && ScanLine(m, st, line).Accept?
    requires var b := ScanLine(m, st, line).value;
             && b.axisCmd.ScalingCmd? && b.modal.scaling && b.axisWords.Any() && WordsPass(m, st, b)
             && G8 in b.groups && b.modal.toolMode.DynamicTlo?
    ensures var b, e := ScanLine(m, st, line).value, Execute(m, st, line);
            && e.status == G43DynamicAxisError
            && e.st == st.(scale := ScaleWritten(st, b), modal := st.modal.(scaling := ScalingFlag(st, b)))
            && e.st.scale.ijk == Pick(b.axisWords, Millimetres(b), st.scale.ijk)
  {
    hide ScanLine, CheckWords, CheckAxes, CheckMotion, CheckUnused, Asked, Pick, Millimetres, FeedOf, Covered, Read, ReadValues;
    LineReads(m, st, line);
    var b := ScanLine(m, st, line).value;
    ReadCovers(st, line.jog, b);
    var w := Fresh(st, b);
    WordsKeep(m, w);
    var w1 := CheckWords(m, w).w;
    AskedMeans(w1.b, b);
    OffsetNeedsAxes(m, w1);
    ScalingActsAtOnce(m, st, b);
  }

  // ---------------------------------------------------------------- words that nothing uses

  /** The letters that are read and that no command of this configuration uses. */
  const FOREIGN: set<char> := {'A', 'B', 'C', 'D', 'E', 'H', 'O', 'U', 'V', 'W'}

  ghost predicate Leaves(w: Work, o: Outcome, l: char) {
    o.Go? && l in w.b.words ==> l in o.w.b.words
  }

  lemma NonModalLeaves(m: Machine, w: Work, l: char)
    requires l in FOREIGN
    ensures Leaves(w, CheckNonModal(m, w), l)
  {
    hide SetCoordData, MoveTarget, WrittenData, WrittenCoord, ToUint32, Pick;
    if w.b.nonModal.SetCoordinateData? && CheckNonModal(m, w).Go? {
      var w1 := Consume(w, {'L', 'P'});
      SetCoordDataKeeps(w1, WrittenCoord(w.b), WrittenData(w));
      assert l in w.b.words ==> l in w1.b.words;
    } else if !w.b.nonModal.SetCoordinateData? && CheckNonModal(m, w).Go? {
      NonModalUses(m, w);
    }
  }

  lemma ScalingLeavesWord(w: Work, l: char)
    requires l in FOREIGN
    ensures Leaves(w, CheckScaling(w), l)
  {
    hide Pick;
  }

  lemma AxesLeaveWord(m: Machine, w: Work, l: char)
    requires l in FOREIGN
    ensures Leaves(w, CheckAxes(m, w), l)
  {
    hide ConvertUnits, CheckScaling, ScaleAxes, CheckNonModal, SelectCoord;
    ScaleAxesUses(w);
    ScalingLeavesWord(ConvertUnits(w), l);
    var o := CheckScaling(ConvertUnits(w));
    if o.Go? {
      ScaleAxesUses(o.w);
      ScaleAxesUses(ScaleAxes(o.w));
      NonModalLeaves(m, SelectCoord(ScaleAxes(o.w)), l);
    }
  }

  lemma RadiusLeavesWord(m: Machine, w: Work, l: char)
    requires l in FOREIGN
    ensures Leaves(w, CheckRadiusArc(m, w), l)
  {
    hide ProgrammedRadius, RadiusCentre, Vec.Put;
  }

  lemma CentreLeavesWord(m: Machine, w: Work, l: char)
    requires l in FOREIGN
    ensures Leaves(w, CheckCentreArc(m, w), l)
  {
    hide CentreOffsets, RadiiAgree, Distance;
  }

  lemma TurnsLeaveWord(w: Work, l: char)
    requires l in FOREIGN
    ensures Leaves(w, CheckTurns(w), l)
  {
    hide IsInt, ToUint32;
  }

  lemma ArcLeaves(m: Machine, w: Work, l: char)
    requires l in FOREIGN
    ensures Leaves(w, CheckArc(m, w), l)
  {
    hide CheckTurns, CheckRadiusArc, CheckCentreArc;
    TurnsLeaveWord(w, l);
    if CheckTurns(w).Go? {
      RadiusLeavesWord(m, CheckTurns(w).w, l);
      CentreLeavesWord(m, CheckTurns(w).w, l);
    }
  }

  lemma SplinesLeave(w: Work, l: char)
    requires l in FOREIGN
    ensures Leaves(w, CheckCubic(w), l) && Leaves(w, CheckQuadratic(w), l)
  {
    hide CubicOffset, PlanarLength, SplineOffset;
  }

  lemma CannedLeaves(w: Work, l: char)
    requires l in FOREIGN
    ensures Leaves(w, CheckCanned(w), l)
  {
    hide ToMillimetres, Vec.Put, Vec.At, Pick;
    var w0 := if w.b.cannedChange then CannedReset(w) else w;
    var w3 := Consume(CannedTarget(CannedRetract(DefaultRepeats(w0))), {'R', 'L'});
    assert l in w.b.words ==> l in w3.b.words;
    DrillLeaves(w3, l);
    hide CannedReset, CannedTarget, CannedRetract, DefaultRepeats, Consume, CheckDrill;
  }

  lemma DrillLeaves(w: Work, l: char)
    requires l in FOREIGN
    ensures Leaves(w, CheckDrill(w), l)
  {
    hide ToMillimetres, Vec.At;
  }

  lemma ModeLeavesWord(m: Machine, w: Work, l: char)
    requires l in FOREIGN
    ensures Leaves(w, CheckMode(m, w), l)
  {
    CannedLeaves(w, l);
    ArcLeaves(m, w, l);
    SplinesLeave(w, l);
    hide CheckCanned, CheckArc, CheckCubic, CheckQuadratic;
  }

  lemma MotionLeavesWord(m: Machine, w: Work, l: char)
    requires l in FOREIGN
    ensures Leaves(w, CheckMotion(m, w), l)
  {
    ForgetIs(w);
    ModeLeavesWord(m, w, l);
    ModeLeavesWord(m, ForgetRetract(w), l);
    hide CheckMode, ForgetRetract;
  }

  lemma UnusedStops(w: Work, l: char)
    requires l in w.b.words && l !in {'N', 'F', 'S', 'T', 'X', 'Y', 'Z'}
    ensures CheckUnused(w) == Stop(UnusedWords, w.st)
  {
    hide Consume;
    ConsumeIs(w, if w.b.jog then {'N', 'F'} else {'N', 'F', 'S', 'T'});
    var w1 := Consume(w, if w.b.jog then {'N', 'F'} else {'N', 'F', 'S', 'T'});
    ConsumeIs(w1, {'X', 'Y', 'Z'});
    assert l in w1.b.words && l in Consume(w1, {'X', 'Y', 'Z'}).b.words;
  }

  lemma ForeignIsRefused(m: Machine, st: State, b: Block, l: char)
    requires l in FOREIGN && l in b.words
    ensures Validate(m, st, b).Stop?
  {
    hide CheckWords, CheckAxes, CheckMotion, CheckUnused, WordsUsed;
    var w := Fresh(st, b);
    if CheckWords(m, w).Go? {
      WordsUse(m, w);
      ForeignIsLeft(b, l);
      var w1 := CheckWords(m, w).w;
      AxesLeaveWord(m, w1, l);
      if CheckAxes(m, w1).Go? {
        var w2 := CheckAxes(m, w1).w;
        MotionLeavesWord(m, w2, l);
        if CheckMotion(m, w2).Go? {
          UnusedStops(CheckMotion(m, w2).w, l);
        }
      }
    }
  }

  lemma ForeignIsLeft(b: Block, l: char)
    requires l in FOREIGN
    ensures l !in WordsUsed(b)
  {
  }

  /** A line with such a word is refused, whatever else it says. */
  lemma ForeignLineIsRefused(m: Machine, st: State, line: Line, l: char)
    requires (line.words != [] || line.jog) && ScanLine(m, st, line).Accept?
    requires l in FOREIGN && l in ScanLine(m, st, line).value.words
    ensures Execute(m, st, line).status != Ok
  {
    hide *;
    ForeignIsRefused(m, st, ScanLine(m, st, line).value, l);
    Stopped(m, st, line);
    StopIsRefusal(Validate(m, st, ScanLine(m, st, line).value));
  }

  lemma StopIsRefusal(o: Outcome)
    ensures o.Stop? ==> o.status != Ok
  {
  }

  // ---------------------------------------------------------------- refused cycles

  ghost predicate SamePq(w: Work, b: Block) {
    && ('P' in w.b.words <==> TakesP(b)) && ('Q' in w.b.words <==> TakesQ(b))
    && (TakesP(b) ==> w.b.values.p == b.values.p) && w.b.values.q == b.values.q
    && w.b.modal.motion == b.modal.motion && w.b.modal.plane == b.modal.plane && w.b.modal.imperial == b.modal.imperial
    && w.b.cannedChange == b.cannedChange
  }

  lemma DwellWrites(w: Work, b: Block)
    requires SamePq(w, b) && (b.modal.motion.Canned82? || b.modal.motion.Canned86? || b.modal.motion.Canned89?)
    ensures StateOf(CheckDrill(w)).canned == CycleDrilled(b, w.st.canned)
  {
    hide Consume, Vec.At, TakesP, TakesQ;
    ConsumeKeepsState(w);
    assert AtBottom(w).st.canned == BottomOf(b.modal.motion, w.st.canned) && AtBottom(w).b == w.b;
    hide AtBottom, BottomOf;
  }

  lemma PeckWrites(w: Work, b: Block)
    requires SamePq(w, b) && (b.modal.motion.ChipBreak? || b.modal.motion.Canned83?)
    ensures StateOf(CheckDrill(w)).canned == CycleDrilled(b, w.st.canned)
  {
    hide ToMillimetres, Consume, Vec.At, TakesP, TakesQ;
    ConsumeKeepsState(w);
  }

  lemma DrillWrites(w: Work, b: Block)
    requires SamePq(w, b)
    ensures StateOf(CheckDrill(w)).canned == CycleDrilled(b, w.st.canned)
  {
    var motion := b.modal.motion;
    if motion.Canned82? || motion.Canned86? || motion.Canned89? {
      DwellWrites(w, b);
    } else if motion.ChipBreak? || motion.Canned83? {
      PeckWrites(w, b);
    }
    hide CannedDwell, CannedPeck, TakesP, TakesQ, Vec.At;
  }

  ghost predicate SameCycle(w: Work, st: State, b: Block) {
    && w.st == st.(canned := w.st.canned)
    && w.b.axisWords == b.axisWords && w.b.modal.plane == b.modal.plane && w.b.modal.imperial == b.modal.imperial
    && w.b.modal.incremental == b.modal.incremental && w.b.cannedChange == b.cannedChange && w.b.values.r == b.values.r
    && w.b.values.xyz == Placed(Fresh(st, b)) && w.b.modal.coord == SelectedCoord(Fresh(st, b))
    && ('R' in w.b.words <==> 'R' in b.words) && ('L' in w.b.words <==> 'L' in b.words) && w.b.modal.motion == b.modal.motion
  }

  lemma CycleStarts(w: Work, st: State, b: Block)
    requires w.st == st && SameCycle(w, st, b)
    ensures var w1 := DefaultRepeats(if b.cannedChange then CannedReset(w) else w);
            SameCycle(w1, st, b) && w1.st.canned == CycleBefore(st, b)
  {
    hide Placed, SelectedCoord, Vec.Put;
  }

  lemma CycleRetracts(w: Work, st: State, b: Block)
    requires SameCycle(w, st, b) && w.st.canned.retract == st.canned.retract
    ensures var w1 := CannedRetract(w);
            SameCycle(w1, st, b) && w1.st.canned == w.st.canned.(retract := RetractOpened(st, b))
  {
    hide Placed, SelectedCoord, Vec.Plus, ToMillimetres, Vec.At;
  }

  lemma CycleTargets(w: Work, st: State, b: Block)
    requires SameCycle(w, st, b) && w.st.canned == CycleBefore(st, b).(retract := RetractOpened(st, b))
    ensures var w1 := CannedTarget(w);
            SameCycle(w1, st, b) && w1.st.canned == CycleOpened(st, b)
  {
    hide Placed, SelectedCoord, Pick, Vec.Put, Vec.Minus, RetractOpened, Vec.At, CycleBefore;
  }

  lemma StepsKeepPq(w: Work, b: Block)
    requires SamePq(w, b)
    ensures SamePq(CannedReset(w), b) && SamePq(CannedRetract(w), b) && SamePq(CannedTarget(w), b)
    ensures SamePq(DefaultRepeats(w), b) && SamePq(Consume(w, {'R', 'L'}), b)
  {
    hide Vec.Put, Pick, ToMillimetres, TakesP, TakesQ;
  }

  lemma PqOpens(w: Work, b: Block)
    requires SamePq(w, b)
    ensures SamePq(Consume(CannedTarget(CannedRetract(DefaultRepeats(if b.cannedChange then CannedReset(w) else w))), {'R', 'L'}), b)
  {
    hide *;
    var w0 := if b.cannedChange then CannedReset(w) else w;
    StepsKeepPq(w, b);
    StepsKeepPq(w0, b);
    StepsKeepPq(DefaultRepeats(w0), b);
    StepsKeepPq(CannedRetract(DefaultRepeats(w0)), b);
    StepsKeepPq(CannedTarget(CannedRetract(DefaultRepeats(w0))), b);
  }

  lemma CycleOpens(w: Work, st: State, b: Block)
    requires w.st == st && SameCycle(w, st, b)
    ensures var w1 := DefaultRepeats(if b.cannedChange then CannedReset(w) else w);
            var w2 := CannedTarget(CannedRetract(w1));
            SameCycle(w1, st, b) && SameCycle(w2, st, b) && w2.st.canned == CycleOpened(st, b)
  {
    BeforeRetract(st, b);
    hide *;
    var w1 := DefaultRepeats(if b.cannedChange then CannedReset(w) else w);
    CycleStarts(w, st, b);
    CycleRetracts(w1, st, b);
    CycleTargets(CannedRetract(w1), st, b);
  }

  lemma BeforeRetract(st: State, b: Block)
    ensures CycleBefore(st, b).retract == st.canned.retract
  {
  }

  lemma DrillNeverRetracts(w: Work)
    ensures CheckDrill(w).Stop? ==> CheckDrill(w).status != InvalidRetractPosition
  {
    hide SetCanned, CannedDelta, ToMillimetres, Consume;
  }

  lemma ConsumeKeepsState(w: Work)
    ensures forall w: Work, l {:trigger Consume(w, l)} :: Consume(w, l).st == w.st && Consume(w, l).b.modal == w.b.modal
  {
  }

  lemma CycleChecked(w: Work, st: State, b: Block)
    requires w.st == st && SameCycle(w, st, b) && SamePq(w, b) && w.b.values.l == b.values.l
    ensures var o := CheckCanned(w);
            && StateOf(o).canned == CycleFinal(st, b)
            && (o.Stop? && o.status == InvalidRetractPosition <==> CycleIsWhole(st, b) && RetractsBelow(st, b))
  {
    hide CannedReset, CannedRetract, CannedTarget, CheckDrill, Consume, DefaultRepeats, CycleOpened, CycleBefore, Placed,
         SelectedCoord, SamePq, CycleDrilled;
    var w0 := if b.cannedChange then CannedReset(w) else w;
    ResetIs(w, st, b);
    var w1 := DefaultRepeats(w0);
    CycleOpens(w, st, b);
    PqOpens(w, b);
    ConsumeKeepsState(w);
    var w3 := Consume(CannedTarget(CannedRetract(w1)), {'R', 'L'});
    DrillNeverRetracts(w3);
    DrillWrites(w3, b);
  }

  lemma ResetIs(w: Work, st: State, b: Block)
    requires w.st == st && SameCycle(w, st, b)
    ensures (if b.cannedChange then CannedReset(w) else w).st.canned == CycleBefore(st, b)
  {
    hide Vec.Put, Placed, SelectedCoord;
  }

  lemma CycleLetters(b: Block)
    ensures forall l <- {'R', 'L', 'I', 'J', 'X', 'Y', 'Z', 'D', 'F', 'N'} :: l !in WordsUsed(b)
  {
  }

  lemma PqLetters(b: Block)
    ensures ('P' in b.words - WordsUsed(b) <==> TakesP(b)) && ('Q' in b.words - WordsUsed(b) <==> TakesQ(b))
    ensures TakesP(b) ==> PLeft(b) == b.values.p
  {
  }

  lemma CycleAtMotion(m: Machine, st: State, b: Block)
    requires CycleReached(m, st, b) && Covered(b)
    ensures var w := AtMotion(m, st, b); w.st == st && SameCycle(w, st, b) && SamePq(w, b) && w.b.values.l == b.values.l
  {
    MotionBlock(m, st, b);
    CycleLetters(b);
    PqLetters(b);
    hide AxesPass, Asked, FeedOf, Placed, SelectedCoord, AtMotion, WordsUsed, PLeft, Covered;
  }

  lemma CannedStops(m: Machine, w: Work)
    requires FedMotion(w) && w.b.modal.canned
    ensures CheckMotion(m, w) == CheckCanned(w)
  {
    hide CheckCanned;
  }

  lemma PassesOn(m: Machine, st: State, b: Block)
    requires AxesPass(m, st, b) && CheckMotion(m, AtMotion(m, st, b)).Go?
    ensures Validate(m, st, b) == CheckUnused(CheckMotion(m, AtMotion(m, st, b)).w)
  {
    hide CheckWords, CheckAxes, CheckMotion, CheckUnused;
  }

  lemma StopsInMotion(m: Machine, st: State, b: Block, status: Refusal)
    requires AxesPass(m, st, b) && CheckMotion(m, AtMotion(m, st, b)).Stop? && CheckMotion(m, AtMotion(m, st, b)).status == status
    ensures Validate(m, st, b).Stop? && Validate(m, st, b).status == status
  {
    hide CheckWords, CheckAxes, CheckMotion, CheckUnused;
  }

  /** What a cycle line writes, refused or not: nothing if it is new in G93 or lacks its R or depth, only the fresh start for
      L0, the open cycle if the hole is above its retract position, and otherwise the cycle with the words of its own. */
  lemma CycleIsWritten(m: Machine, st: State, b: Block)
    requires CycleReached(m, st, b) && Covered(b)
    ensures StateOf(CheckCanned(AtMotion(m, st, b))).canned == CycleFinal(st, b)
  {
    CycleAtMotion(m, st, b);
    hide AxesPass, AtMotion, CheckCanned, SameCycle, SamePq, CycleFinal, CycleIsWhole, FeedOf, RetractsBelow;
    CycleChecked(AtMotion(m, st, b), st, b);
  }

  lemma WholeOpened(st: State, b: Block)
    requires CycleIsWhole(st, b) && RetractsBelow(st, b)
    ensures CycleFinal(st, b) == CycleOpened(st, b)
  {
    hide CycleOpened, RetractsBelow;
  }

  /** In a whole cycle the hole and the retract position are those that the line names. */
  lemma WholeHole(st: State, b: Block)
    requires CycleIsWhole(st, b)
    ensures CycleFinal(st, b).xyz == CycleOpened(st, b).xyz && CycleFinal(st, b).retract == CycleOpened(st, b).retract
  {
    hide CycleOpened, RetractsBelow, ToMillimetres, Vec.At;
  }

  /** A cycle that would retract below its hole is refused, and kept for the next line. */
  lemma RefusedCycleIsKept(m: Machine, st: State, line: Line)
    requires (line.words != [] || line.jog) && ScanLine(m, st, line).Accept?
    requires var b := ScanLine(m, st, line).value; CycleReached(m, st, b) && CycleIsWhole(st, b) && RetractsBelow(st, b)
    ensures var b, e := ScanLine(m, st, line).value, Execute(m, st, line);
            && e.status == InvalidRetractPosition && e.st == st.(canned := CycleOpened(st, b))
            && (e.st == st <==> CycleOpened(st, b) == st.canned)
  {
    hide *;
    var b := ScanLine(m, st, line).value;
    LineCovers(m, st, line);
    CycleStops(m, st, b);
    Stopped(m, st, line);
    RefusedLeaves(m, st, line);
    CycleNotScaling(m, st, b);
    WholeOpened(st, b);
    SameBut(st, CycleOpened(st, b));
  }

  lemma SameBut(st: State, c: Canned)
    ensures st.(canned := c) == st <==> c == st.canned
  {
  }

  lemma CycleStops(m: Machine, st: State, b: Block)
    requires CycleReached(m, st, b) && Covered(b) && CycleIsWhole(st, b) && RetractsBelow(st, b)
    ensures Validate(m, st, b).Stop? && Validate(m, st, b).status == InvalidRetractPosition
  {
    assert CycleReached(m, st, b) ==> MotionReached(m, st, b) && AxesPass(m, st, b) && ImpliedCmd(b).MotionCmd? && b.modal.canned;
    hide *;
    CycleAtMotion(m, st, b);
    CycleChecked(AtMotion(m, st, b), st, b);
    StillMotion(m, st, b);
    MotionBlock(m, st, b);
    CannedStops(m, AtMotion(m, st, b));
    StopsInMotion(m, st, b, InvalidRetractPosition);
  }

  lemma Stopped(m: Machine, st: State, line: Line)
    requires (line.words != [] || line.jog) && ScanLine(m, st, line).Accept? && Validate(m, st, ScanLine(m, st, line).value).Stop?
    ensures Execute(m, st, line).status == Validate(m, st, ScanLine(m, st, line).value).status
  {
    hide ScanLine, Validate;
  }

  lemma CycleNotScaling(m: Machine, st: State, b: Block)
    requires CycleReached(m, st, b)
    ensures AfterChecks(m, st, b) == st.(canned := CycleFinal(st, b))
  {
    hide AxesPass, FeedOf, CycleFinal;
  }

  /** A G5 line that gets as far as its P and Q leaves them to the next G5, even if it is refused. */
  lemma RefusedSplineIsKept(m: Machine, st: State, line: Line)
    requires ScanLine(m, st, line).Accept? && Execute(m, st, line).status != Ok
    requires SplineReached(m, st, ScanLine(m, st, line).value)
    ensures Execute(m, st, line).st == st.(modal := st.modal.(splinePq := OffsetWritten(st, ScanLine(m, st, line).value)))
  {
    hide ScanLine, Execute, AxesPass, FeedOf, OffsetWritten, ScaleWritten, ScalingFlag, CycleFinal;
    RefusedLeaves(m, st, line);
  }
}
