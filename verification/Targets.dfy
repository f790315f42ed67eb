/** Which machine coordinates the axis words of a block come to, and which coordinate system G10 writes. */
module Targets {
  import opened GcTypes
  import opened Scanner
  import opened Validation
  import opened Frames

  lemma SelectedWork(w: Work)
    ensures var w1 := SelectCoord(ConvertUnits(w));
            && w1.st == w.st && Asked(w1.b) == Asked(w.b) && w1.b.axisCmd == w.b.axisCmd && w1.b.axisWords == w.b.axisWords
            && w1.b.modal.coord == SelectedCoord(w) && w1.b.values == w.b.values.(xyz := Millimetres(w.b))
  {
    hide ConvertUnits, SelectCoord, Asked, SelectedCoord;
    ConvertKeeps(w);
    var w0 := ConvertUnits(w);
    SelectKeeps(w0);
    SelectedIs(w0);
    SelectedSame(w, w0);
  }

  lemma SelectedSame(w: Work, w0: Work)
    requires w0.st == w.st && Asked(w0.b) == Asked(w.b) && w0.b.modal.coord == w.b.modal.coord
    ensures SelectedCoord(w0) == SelectedCoord(w)
  {
    AskedMeans(w0.b, w.b);
  }

  lemma TargetPlaced(w: Work)
    ensures var w1 := ComputeTarget(w);
            w1.b.values == w.b.values.(xyz := if (w.b.axisWords.Any() || w.b.modal.motion.Arc()) && !w.b.axisCmd.ToolLengthCmd?
                                              then MoveTarget(w) else w.b.values.xyz)
  {
    hide SetValues, MoveTarget;
    Setters();
  }

  lemma NonModalPlaced(m: Machine, w: Work)
    ensures var o := CheckNonModal(m, w);
            o.Go? ==> o.w.b.values == w.b.values.(xyz :=
              match w.b.nonModal
              case SetCoordinateData => w.b.values.xyz
              case SetOffset => Pick(w.b.axisWords, w.st.position.Minus(w.b.modal.coord.xyz).Minus(w.b.values.xyz).Minus(w.st.tlo), w.st.g92)
              case _ => ComputeTarget(w).b.values.xyz)
  {
    hide ComputeTarget, SetValues, SetAxisCmd, Pick, SetCoordData, Consume, ToUint32;
    Setters();
    TargetPlaced(w);
    forall v: Work, i, d ensures SetCoordData(v, i, d).b == v.b {
      SetCoordDataKeeps(v, i, d);
    }
  }

  /** The checks after the axes keep their results. */
  lemma ChecksReached(m: Machine, st: State, b: Block, w: Work) returns (w1: Work, w2: Work)
    requires Validate(m, st, b) == Go(w)
    ensures CheckWords(m, Fresh(st, b)) == Go(w1) && CheckAxes(m, w1) == Go(w2)
    ensures Same(Fresh(st, b), w1) && w1.b.axisCmd == ImpliedCmd(b)
    ensures w1.b.values == b.values.(f := FeedOf(st, b), s := w1.b.values.s, t := w1.b.values.t, p := w1.b.values.p)
    ensures M9 !in b.groups ==> w1.b.values.p == b.values.p
    ensures Asked(w2.b) == Asked(b) && Asked(w.b) == Asked(b)
    ensures w.b.values.xyz == w2.b.values.xyz && w.b.axisWords == w2.b.axisWords
    ensures w.coordId == w2.coordId && w.coordData == w2.coordData && w.b.modal.coord == w2.b.modal.coord
    ensures w.b.axisCmd == w2.b.axisCmd || w.b.axisCmd.NoAxisCmd?
  {
    hide CheckWords, CheckAxes, CheckMotion, CheckUnused, FeedOf, ImpliedCmd;
    WordsKeep(m, Fresh(st, b));
    w1 := CheckWords(m, Fresh(st, b)).w;
    AxesKeep(m, w1);
    w2 := CheckAxes(m, w1).w;
    MotionKeeps(m, w2);
    UnusedKeeps(CheckMotion(m, w2).w);
  }

  // ---------------------------------------------------------------- scaling

  /** The axis words in millimetres, scaled if scaling is on and not being changed. */
  ghost function AxisNumbers(st: State, b: Block): Vec {
    var mm, k, c := Millimetres(b), st.scale.ijk, st.scale.xyz;
    if b.axisCmd.ScalingCmd? || !st.modal.scaling then mm
    else Pick(b.axisWords, if b.modal.incremental then mm.Mul(k) else mm.Minus(c).Mul(k).Plus(c), mm)
  }

  /** G51 uses up the axis words. */
  function AxesLeft(b: Block): Axes {
    if b.axisCmd.ScalingCmd? && b.modal.scaling then NO_AXES else b.axisWords
  }

  lemma ScalingNumbers(w: Work)
    ensures var o := CheckScaling(w);
            o.Go? ==> o.w.b.axisWords == AxesLeft(w.b) && o.w.st.modal.scaling == (if !w.b.axisCmd.ScalingCmd? then w.st.modal.scaling
                                                                                else w.b.modal.scaling && w.st.scale.xyz != ONES)
  {
    hide Pick;
  }

  lemma ScaleAxesNumbers(w: Work)
    ensures var v, k, c := w.b.values.xyz, w.st.scale.ijk, w.st.scale.xyz;
            ScaleAxes(w).b.values.xyz == if !w.st.modal.scaling then v
              else Pick(w.b.axisWords, if w.b.modal.incremental then v.Mul(k) else v.Minus(c).Mul(k).Plus(c), v)
  {
    hide Vec.Mul, Vec.Plus, Vec.Minus, Pick;
  }

  lemma PickNone(u: Vec, v: Vec)
    ensures Pick(NO_AXES, u, v) == v
  {
  }

  /** The numbers that the non-modal actions see. */
  lemma NumbersSeen(m: Machine, w: Work) returns (w3: Work)
    requires CheckAxes(m, w).Go?
    ensures CheckAxes(m, w) == CheckNonModal(m, w3) && Asked(w3.b) == Asked(w.b) && w3.b.axisCmd == w.b.axisCmd
    ensures w3.b.values == w.b.values.(xyz := AxisNumbers(w.st, w.b)) && w3.b.axisWords == AxesLeft(w.b)
    ensures w3.st.position == w.st.position && w3.st.g92 == w.st.g92 && w3.st.tlo == w.st.tlo && w3.st.store == w.st.store
    ensures w3.b.modal.coord == SelectedCoord(w)
  {
    hide CheckScaling, ConvertUnits, ScaleAxes, CheckNonModal, SelectCoord, Asked, SelectedCoord, Pick, Millimetres,
         Vec.Mul, Vec.Plus, Vec.Minus;
    ConvertKeeps(w);
    var w0 := ConvertUnits(w);
    ScalingKeeps(w0);
    ScalingNumbers(w0);
    SameScales(w, w0, StateOf(CheckScaling(w0)));
    var w1 := CheckScaling(w0).w;
    ScalesMeans(w, w1.st);
    ScaleAxesKeeps(w1);
    ScaleAxesNumbers(w1);
    PickNone(w1.b.values.xyz.Mul(w1.st.scale.ijk), w1.b.values.xyz);
    PickNone(w1.b.values.xyz.Minus(w1.st.scale.xyz).Mul(w1.st.scale.ijk).Plus(w1.st.scale.xyz), w1.b.values.xyz);
    var w2 := ScaleAxes(w1);
    AskedMeans(w0.b, w.b);
    AskedMeans(w1.b, w.b);
    SelectKeeps(w2);
    SelectedIs(w2);
    SameSelected(w, w2);
    w3 := SelectCoord(w2);
  }

  // ---------------------------------------------------------------- targets

  /** The point that the axis words name. */
  ghost function Named(w: Work): Vec {
    var xyz := AxisNumbers(w.st, w.b);
    if w.b.nonModal.AbsoluteOverride? then xyz
    else if w.b.modal.incremental then xyz.Plus(w.st.position)
    else xyz.Plus(SelectedCoord(w).xyz.Plus(w.st.g92).Plus(w.st.tlo))
  }

  /** The axis numbers after the checks. */
  ghost function Placed(w: Work): Vec {
    var xyz, axes := AxisNumbers(w.st, w.b), AxesLeft(w.b);
    match w.b.nonModal
    case SetCoordinateData => xyz
    case SetOffset => Pick(axes, w.st.position.Minus(SelectedCoord(w).xyz).Minus(xyz).Minus(w.st.tlo), w.st.g92)
    case _ =>
      if (axes.Any() || w.b.modal.motion.Arc()) && !w.b.axisCmd.ToolLengthCmd? then Pick(axes, Named(w), w.st.position) else xyz
  }

  /** The checks place the axis numbers as the modes say. */
  lemma AxesPlaced(m: Machine, w: Work)
    ensures var o := CheckAxes(m, w); o.Go? ==> o.w.b.values == w.b.values.(xyz := Placed(w))
  {
    if CheckAxes(m, w).Go? {
      hide CheckAxes, Asked, SelectedCoord, AxisNumbers, AxesLeft, CheckNonModal, ComputeTarget;
      var w3 := NumbersSeen(m, w);
      AskedMeans(w3.b, w.b);
      NonModalPlaced(m, w3);
      TargetPlaced(w3);
      hide Pick;
      assert MoveTarget(w3) == Pick(AxesLeft(w.b), Named(w), w.st.position);
    }
  }

  lemma PlacedSame(w0: Work, w1: Work)
    requires Same(w0, w1) && w1.b.axisCmd == ImpliedCmd(w0.b) && w1.b.values.xyz == w0.b.values.xyz
    ensures Placed(w1) == Placed(w0)
  {
    AskedMeans(w1.b, w0.b);
    SelectedSame(w0, w1);
    AxesSame(w0, w1);
    hide Pick, SelectedCoord, AxisNumbers, AxesLeft;
  }

  // ---------------------------------------------------------------- G10

  /** P as the checks leave it: an override without P makes it 1. */
  function PLeft(b: Block): real {
    if M9 in b.groups && 'P' !in b.words then 1.0 else b.values.p
  }

  ghost predicate SameP(b: Block, o: Outcome) {
    o.Go? ==> ('P' in o.w.b.words <==> 'P' in b.words) && o.w.b.values.p == b.values.p && o.w.b.groups == b.groups
  }

  lemma FirstKeepP(m: Machine, w: Work)
    ensures SameP(w.b, CheckFeed(w)) && SameP(w.b, CheckSpindle(m, w))
  {
    hide SetValues, Asked, Consume, SingleSpindle, ToMillimetres;
    Setters();
  }

  lemma NextKeepP(m: Machine, w: Work)
    ensures SameP(w.b, CheckCommon(w)) && SameP(w.b, CheckSpindleState(m, w))
  {
  }

  lemma ToolKeepsP(w: Work)
    ensures SameP(w.b, CheckTool(w))
    ensures CheckDwell(w).Go? ==> CheckDwell(w).w.b.values.p == w.b.values.p
  {
    hide SetValues, Asked, Consume, IsInt, ToUint32;
    Setters();
  }

  lemma OverrideLeavesP(w: Work)
    ensures CheckOverride(w).Go? ==> CheckOverride(w).w.b.values.p == PLeft(w.b)
  {
    hide SetValues, Asked, Consume, SetCtrl, Overridden;
    Setters();
  }

  lemma WordsLeaveP(m: Machine, w: Work)
    requires CheckWords(m, w).Go?
    ensures CheckWords(m, w).w.b.values.p == PLeft(w.b)
  {
    hide CheckCommon, CheckFeed, CheckSpindle, CheckTool, CheckSpindleState, CheckOverride, CheckDwell;
    var w1 := CheckCommon(w).w;
    NextKeepP(m, w);
    var w2 := CheckFeed(w1).w;
    FirstKeepP(m, w1);
    var w3 := CheckSpindle(m, w2).w;
    FirstKeepP(m, w2);
    var w4 := CheckTool(w3).w;
    ToolKeepsP(w3);
    var w5 := CheckSpindleState(m, w4).w;
    NextKeepP(m, w4);
    OverrideLeavesP(w5);
    ToolKeepsP(CheckOverride(w5).w);
  }

  /** The coordinate system that a G10 block writes. */
  function G10System(b: Block): CoordId {
    if M9 in b.groups && 'P' !in b.words then 0 else WrittenCoord(b)
  }

  /** The data that it writes there. */
  ghost function G10Data(st: State, b: Block): Vec {
    var xyz := AxisNumbers(st, b);
    Pick(AxesLeft(b), if b.values.l == 20 then st.position.Minus(xyz).Minus(st.g92).Minus(st.tlo) else xyz, st.store[G10System(b)])
  }

  lemma SystemIs(b: Block, c: Block)
    requires c.values.p == PLeft(b) && c.modal.coord.id == b.modal.coord.id
    ensures WrittenCoord(c) == G10System(b)
  {
    assert ToUint32(1.0) == 1;
    hide ToUint32;
  }

  lemma DataChecked(m: Machine, w: Work)
    requires CheckCoordData(m, w).Go?
    ensures var w1 := CheckCoordData(m, w).w;
            w1.coordId == WrittenCoord(w.b) && w1.coordData == WrittenData(w) && (w.b.values.l == 2 || w.b.values.l == 20)
  {
    hide Pick, ToUint32, WrittenCoord, WrittenData;
  }

  /** What a checked G10 block will write, and where. */
  lemma CheckedG10(m: Machine, st: State, b: Block, w: Work)
    requires Validate(m, st, b) == Go(w) && b.nonModal.SetCoordinateData?
    ensures w.coordId == G10System(b) && w.coordData == G10Data(st, b) && (b.values.l == 2 || b.values.l == 20)
  {
    var w1, w2 := ChecksReached(m, st, b, w);
    WordsLeaveP(m, Fresh(st, b));
    AskedMeans(w1.b, b);
    AxesSame(Fresh(st, b), w1);
    hide *;
    var w3 := NumbersSeen(m, w1);
    AskedMeans(w3.b, b);
    NonModalG10(m, w3);
    DataChecked(m, w3);
    SystemIs(b, w3.b);
    DataSame(st, b, w1, w3);
  }

  lemma NonModalG10(m: Machine, w: Work)
    ensures w.b.nonModal.SetCoordinateData? ==> CheckNonModal(m, w) == CheckCoordData(m, w)
  {
  }

  lemma AxesSame(w: Work, w1: Work)
    requires Same(w, w1) && w1.b.axisCmd == ImpliedCmd(w.b) && w1.b.values.xyz == w.b.values.xyz
    ensures AxisNumbers(w1.st, w1.b) == AxisNumbers(w.st, w.b) && AxesLeft(w1.b) == AxesLeft(w.b)
  {
    AskedMeans(w1.b, w.b);
    hide Pick, Vec.Mul, Vec.Plus, Vec.Minus;
  }

  lemma DataSame(st: State, b: Block, w1: Work, w3: Work)
    requires w1.st == st && AxisNumbers(w1.st, w1.b) == AxisNumbers(st, b) && AxesLeft(w1.b) == AxesLeft(b)
    requires w3.b.values.xyz == AxisNumbers(w1.st, w1.b) && w3.b.axisWords == AxesLeft(w1.b) && w3.b.values.l == b.values.l
    requires w3.st.position == st.position && w3.st.g92 == st.g92 && w3.st.tlo == st.tlo && w3.st.store == st.store
    requires WrittenCoord(w3.b) == G10System(b)
    ensures WrittenData(w3) == G10Data(st, b)
  {
    hide Pick, WrittenCoord, G10System, AxisNumbers;
  }
}
