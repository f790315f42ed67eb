/** Twin blocks from the axes to the end: they are accepted alike, move alike and leave alike states. */
module SameMeaning {
  import opened GcTypes
  import opened Scanner
  import opened Validation
  import opened Execution
  import opened Frames
  import opened ScanFacts
  import WordOrder
  import Offsets
  import opened Meaning

  // ---------------------------------------------------------------- scaling

  lemma ConvertTwins(k: Lengths, w: Work, u: Work)
    requires Twins(k, w, u) && Millimetres(u.b) == Millimetres(w.b)
    ensures Twins(k.(sameAxes := true), ConvertUnits(w), ConvertUnits(u))
  {
    ConvertPuts(w);
    ConvertPuts(u);
    PutAxes(k, w, u, Millimetres(w.b));
  }

  lemma ConvertPuts(w: Work)
    ensures ConvertUnits(w) == SetValues(w, w.b.values.(xyz := Millimetres(w.b)))
  {
    hide Pick;
  }

  /** The state and the block after G51. */
  lemma TwinScale(k: Lengths, w: Work, u: Work, scale: Scale, active: bool)
    requires Twins(k, w, u) && w.b.axisCmd.ScalingCmd?
    ensures Twins(k, SetScale(w, scale, active), SetScale(u, scale, active))
    ensures Twins(k, SetBlockScaling(w, active), SetBlockScaling(u, active))
    ensures SetBlockScaling(w, active).b.axisCmd.ScalingCmd? && SetScale(w, scale, active).b.axisCmd.ScalingCmd?
  {
    hide SameNumbers, Fits;
    assert ViewOf(SetBlockScaling(w, active).b) == ViewOf(w.b) && ViewOf(SetBlockScaling(u, active).b) == ViewOf(u.b);
  }

  lemma TwinDrop(k: Lengths, w: Work, u: Work)
    requires Twins(k, w, u) && w.b.axisCmd.ScalingCmd?
    ensures Twins(k, DropAxes(w), DropAxes(u))
  {
    TwinBlocks(w, u);
    hide SameNumbers, Fits;
    assert ViewOf(DropAxes(w).b) == ViewOf(w.b) && ViewOf(DropAxes(u).b) == ViewOf(u.b);
  }

  lemma ScalingTwins(k: Lengths, w: Work, u: Work)
    requires Twins(k, w, u) && !k.done && k.sameAxes
    ensures TwinOutcomes(k, CheckScaling(w), CheckScaling(u))
  {
    TwinsMean(k, w, u);
    TwinMeans(w, u);
    hide Twin, Twins, TwinOutcomes, SetScale, SetBlockScaling, DropAxes, Consume, Pick, Fits;
    StopTwins(k, w, u);
    GoTwins(k, w, u);
    if w.b.axisCmd.ScalingCmd? {
      TwinScale(k, w, u, UNSCALED, false);
      GoTwins(k, SetScale(w, UNSCALED, false), SetScale(u, UNSCALED, false));
      var scale := w.st.scale.(ijk := Pick(w.b.axisWords, w.b.values.xyz, w.st.scale.ijk));
      var active := scale.xyz != ONES;
      TwinScale(k, w, u, scale, active);
      var w1, u1 := SetScale(w, scale, active), SetScale(u, scale, active);
      TwinScale(k, w1, u1, scale, active);
      var w2, u2 := SetBlockScaling(w1, active), SetBlockScaling(u1, active);
      ConsumeTwins(k, w2, u2, {'X', 'Y', 'Z'});
      var w3, u3 := Consume(w2, {'X', 'Y', 'Z'}), Consume(u2, {'X', 'Y', 'Z'});
      Setters();
      TwinDrop(k, w3, u3);
      GoTwins(k, DropAxes(w3), DropAxes(u3));
    }
  }

  lemma ScaleAxesTwins(k: Lengths, w: Work, u: Work)
    requires Twins(k, w, u) && k.sameAxes && u.b.modal.incremental == w.b.modal.incremental
    ensures Twins(k, ScaleAxes(w), ScaleAxes(u))
  {
    TwinsMean(k, w, u);
    TwinMeans(w, u);
    hide Twin, Twins, SetValues, Pick, Fits;
    if w.st.modal.scaling {
      var v, c := w.b.values, w.st.scale.xyz;
      var scaled := if w.b.modal.incremental then v.xyz.Mul(w.st.scale.ijk) else v.xyz.Minus(c).Mul(w.st.scale.ijk).Plus(c);
      PutAxes(k, w, u, Pick(w.b.axisWords, scaled, v.xyz));
      assert k.(sameAxes := true) == k;
    }
  }

  lemma SelectTwins(k: Lengths, w: Work, u: Work)
    requires Twins(k, w, u)
    ensures Twins(k, SelectCoord(w), SelectCoord(u)) && SelectCoord(w).b.values == w.b.values
  {
    TwinsMean(k, w, u);
    TwinMeans(w, u);
    TwinModals();
    SetterViews();
    hide Twin, SetCoordXyz, SameNumbers, Fits, ViewOf;
  }

  // ---------------------------------------------------------------- non-modal actions

  predicate HasTarget(b: Block) {
    (b.axisWords.Any() || b.modal.motion.Arc()) && !b.axisCmd.ToolLengthCmd?
  }

  /** The axis words come to the same. */
  ghost predicate SameAxes(w: Work, u: Work) {
    if w.b.nonModal.SetCoordinateData? || w.b.nonModal.SetOffset? || !HasTarget(w.b) then u.b.values.xyz == w.b.values.xyz
    else MoveTarget(u) == MoveTarget(w)
  }

  lemma TargetTwins(k: Lengths, w: Work, u: Work)
    requires Twins(k, w, u) && SameAxes(w, u) && !w.b.nonModal.SetCoordinateData? && !w.b.nonModal.SetOffset?
    ensures var k1, w1, u1 := k.(sameAxes := true), ComputeTarget(w), ComputeTarget(u);
            Twins(k1, w1, u1) && w1.b.axisWords == w.b.axisWords && w1.b.nonModal == w.b.nonModal
  {
    TwinsMean(k, w, u);
    TwinBlocks(w, u);
    TwinModes(w, u);
    hide Twin, Twins, MoveTarget, SetValues, Fits;
    TargetKeeps(w);
    AskedMeans(ComputeTarget(w).b, w.b);
    if HasTarget(w.b) {
      PutAxes(k, w, u, MoveTarget(w));
    } else {
      AxesAgree(k, w, u);
    }
  }

  lemma PutData(k: Lengths, w: Work, u: Work, i: CoordId, d: Vec)
    requires Twins(k, w, u)
    ensures Twins(k, SetCoordData(w, i, d), SetCoordData(u, i, d)) && SetCoordData(w, i, d).b == w.b
  {
    TwinOthers();
    hide Twin, SameNumbers, Fits, ViewOf;
    SetterViews();
  }

  lemma NoCommand(k: Lengths, w: Work, u: Work)
    requires Twins(k, w, u) && !w.b.axisWords.Any()
    ensures Twins(k, SetAxisCmd(w, NoAxisCmd), SetAxisCmd(u, NoAxisCmd))
  {
    TwinOthers();
    TwinBlocks(w, u);
    NothingImplied(w);
    NothingImplied(u);
    hide Twin, SameNumbers, Fits, SetAxisCmd, ImpliedCmd, ViewOf;
    SetterViews();
    Setters();
    WithoutCommand(k, ViewOf(w.b), ViewOf(u.b), w.b.values, u.b.values);
  }

  lemma NothingImplied(w: Work)
    requires !w.b.axisWords.Any()
    ensures ImpliedCmd(SetAxisCmd(w, NoAxisCmd).b) == NoAxisCmd
  {
  }

  lemma WithoutCommand(k: Lengths, a: View, c: View, v: Values, y: Values)
    ensures SameNumbers(k, a, c, v, y) ==> SameNumbers(k, a.(cmd := NoAxisCmd), c.(cmd := NoAxisCmd), v, y)
    ensures Fits(k, a, c) ==> Fits(k, a.(cmd := NoAxisCmd), c.(cmd := NoAxisCmd))
  {
    hide Measures;
  }

  lemma HomeTwins(k: Lengths, w: Work, u: Work, index: nat)
    requires Twins(k, w, u) && index < 12
    ensures TwinOutcomes(k, CheckHome(w, index), CheckHome(u, index))
  {
    TwinsMean(k, w, u);
    TwinMeans(w, u);
    hide Twin, Twins, TwinOutcomes, SetCoordData, SetAxisCmd, Pick, Fits;
    var home := w.st.store[index];
    var part := Pick(w.b.axisWords, home, w.st.position);
    PutData(k, w, u, 0, part);
    GoTwins(k, SetCoordData(w, 0, part), SetCoordData(u, 0, part));
    PutData(k, w, u, 0, home);
    if !w.b.axisWords.Any() {
      var w1, u1 := SetCoordData(w, 0, home), SetCoordData(u, 0, home);
      NoCommand(k, w1, u1);
      GoTwins(k, SetAxisCmd(w1, NoAxisCmd), SetAxisCmd(u1, NoAxisCmd));
    }
  }

  /** Why G10 is refused, if it is. */
  function DataFault(m: Machine, b: Block): Option<Refusal> {
    var v := b.values;
    if !(b.axisWords.Any() || (v.l != 20 && 'R' in b.words)) then Some(NoAxisWords)
    else if 'P' !in b.words && 'L' !in b.words then Some(ValueWordMissing)
    else if v.p < 0.0 then Some(NegativeValue)
    else if v.l == 2 && 'R' in b.words then Some(UnsupportedCommand)
    else if v.l != 2 && v.l != 20 then Some(UnsupportedCommand)
    else if ToUint32(v.p) % 256 > 9 then Some(UnsupportedCoordSys)
    else if 6 <= WrittenCoord(b) && WrittenCoord(b) - 6 in m.offsetLock then Some(CoordSystemLocked)
    else None
  }

  function DataPassed(w: Work): Work {
    SetCoordData(Consume(w, {'L', 'P'}), WrittenCoord(w.b), WrittenData(w))
  }

  lemma DataChecked(m: Machine, w: Work)
    ensures CheckCoordData(m, w) == var fault := DataFault(m, w.b); if fault.Some? then Stop(fault.value, w.st) else Go(DataPassed(w))
  {
    hide SetCoordData, Consume, WrittenData, WrittenCoord, ToUint32;
  }

  lemma DataPasses(k: Lengths, w: Work, u: Work)
    requires Twins(k, w, u) && !k.done && w.b.nonModal.SetCoordinateData? && u.b.values.xyz == w.b.values.xyz
    ensures Twins(k.(sameAxes := true), DataPassed(w), DataPassed(u)) && Twin(w, u)
    ensures forall m :: DataFault(m, u.b) == DataFault(m, w.b)
  {
    TwinsMean(k, w, u);
    TwinMeans(w, u);
    DataP(k, w, u);
    var k1 := k.(sameAxes := true);
    SameData(w, u);
    hide Twin, Twins, SetCoordData, Consume, WrittenData, WrittenCoord, Fits, ToUint32;
    AxesAgree(k, w, u);
    ConsumeTwins(k1, w, u, {'L', 'P'});
    PutData(k1, Consume(w, {'L', 'P'}), Consume(u, {'L', 'P'}), WrittenCoord(w.b), WrittenData(w));
  }

  lemma DataTwins(m: Machine, k: Lengths, w: Work, u: Work)
    requires Twins(k, w, u) && !k.done && w.b.nonModal.SetCoordinateData? && u.b.values.xyz == w.b.values.xyz
    ensures TwinOutcomes(k.(sameAxes := true), CheckCoordData(m, w), CheckCoordData(m, u))
  {
    hide *;
    var k1 := k.(sameAxes := true);
    DataPasses(k, w, u);
    assert DataFault(m, u.b) == DataFault(m, w.b);
    DataChecked(m, w);
    DataChecked(m, u);
    StopTwins(k1, w, u);
    GoTwins(k1, DataPassed(w), DataPassed(u));
  }

  lemma SameData(w: Work, u: Work)
    requires Twin(w, u) && u.b.values.xyz == w.b.values.xyz && u.b.values.p == w.b.values.p && u.b.values.l == w.b.values.l
    ensures WrittenCoord(u.b) == WrittenCoord(w.b) && WrittenData(u) == WrittenData(w)
  {
    TwinMeans(w, u);
    hide Twin, Pick, ToUint32;
  }

  lemma DataP(k: Lengths, w: Work, u: Work)
    requires Twins(k, w, u) && !k.done && w.b.nonModal.SetCoordinateData?
    ensures !k.p
  {
  }

  lemma AxesAgree(k: Lengths, w: Work, u: Work)
    requires Twins(k, w, u) && u.b.values.xyz == w.b.values.xyz
    ensures Twins(k.(sameAxes := true), w, u)
  {
  }

  lemma SetOffsetTwins(k: Lengths, w: Work, u: Work)
    requires Twins(k, w, u) && u.b.values.xyz == w.b.values.xyz
    ensures TwinOutcomes(k.(sameAxes := true), CheckSetOffset(w), CheckSetOffset(u))
  {
    TwinsMean(k, w, u);
    TwinMeans(w, u);
    hide Twin, Twins, TwinOutcomes, SetValues, Pick, Fits;
    var k1 := k.(sameAxes := true);
    StopTwins(k1, w, u);
    var here := w.st.position.Minus(w.b.modal.coord.xyz).Minus(w.b.values.xyz).Minus(w.st.tlo);
    var x := Pick(w.b.axisWords, here, w.st.g92);
    PutAxes(k, w, u, x);
    GoTwins(k1, SetValues(w, w.b.values.(xyz := x)), SetValues(u, u.b.values.(xyz := x)));
  }

  /** The checks of the non-modal actions without axis data of their own. */
  lemma OtherActions(m: Machine, w: Work)
    requires !w.b.nonModal.SetCoordinateData? && !w.b.nonModal.SetOffset?
    ensures CheckNonModal(m, w) ==
            if w.b.nonModal.AbsoluteOverride? && !w.b.modal.motion.Seek? && !w.b.modal.motion.Linear? then Stop(G53InvalidMotionMode, w.st)
            else if w.b.nonModal.GoHome0? then CheckHome(ComputeTarget(w), STORE_G28)
            else if w.b.nonModal.GoHome1? then CheckHome(ComputeTarget(w), STORE_G30)
            else Go(ComputeTarget(w))
  {
    hide ComputeTarget, CheckHome;
  }

  lemma HomesTwins(m: Machine, k: Lengths, w: Work, u: Work)
    requires Twins(k, w, u) && SameAxes(w, u) && !w.b.nonModal.SetCoordinateData? && !w.b.nonModal.SetOffset?
    ensures TwinOutcomes(k.(sameAxes := true), CheckNonModal(m, w), CheckNonModal(m, u))
  {
    assert 0 <= STORE_G28 < 12 && 0 <= STORE_G30 < 12;
    hide *;
    TwinsMean(k, w, u);
    TwinBlocks(w, u);
    TwinModes(w, u);
    OtherActions(m, w);
    OtherActions(m, u);
    var k1 := k.(sameAxes := true);
    StopTwins(k1, w, u);
    TargetTwins(k, w, u);
    var w1, u1 := ComputeTarget(w), ComputeTarget(u);
    GoTwins(k1, w1, u1);
    HomeTwins(k1, w1, u1, STORE_G28);
    HomeTwins(k1, w1, u1, STORE_G30);
  }

  lemma NonModalTwins(m: Machine, k: Lengths, w: Work, u: Work)
    requires Twins(k, w, u) && !k.done && SameAxes(w, u)
    ensures TwinOutcomes(k.(sameAxes := true), CheckNonModal(m, w), CheckNonModal(m, u))
  {
    var x, y := w.b.nonModal, u.b.nonModal;
    assert x.SetCoordinateData? ==> CheckNonModal(m, w) == CheckCoordData(m, w);
    assert y.SetCoordinateData? ==> CheckNonModal(m, u) == CheckCoordData(m, u);
    assert x.SetOffset? ==> CheckNonModal(m, w) == CheckSetOffset(w);
    assert y.SetOffset? ==> CheckNonModal(m, u) == CheckSetOffset(u);
    AxesGiven(w, u);
    hide *;
    TwinsMean(k, w, u);
    TwinBlocks(w, u);
    if x.SetCoordinateData? {
      DataTwins(m, k, w, u);
    } else if x.SetOffset? {
      SetOffsetTwins(k, w, u);
    } else {
      HomesTwins(m, k, w, u);
    }
  }

  lemma AxesGiven(w: Work, u: Work)
    requires SameAxes(w, u)
    ensures w.b.nonModal.SetCoordinateData? || w.b.nonModal.SetOffset? ==> u.b.values.xyz == w.b.values.xyz
  {
    hide MoveTarget;
  }

  // ---------------------------------------------------------------- the whole block

  ghost predicate Alike(e: Executed, f: Executed) {
    f.status == e.status && f.events == e.events && AlikeStates(e.st, f.st)
  }

  lemma CyclesChecked(st: State, b: Block, w: Work)
    requires Asked(w.b) == Asked(b) && Cycles(b.modal)
    ensures Cycles(w.b.modal) && w.b.jog == b.jog
  {
    AskedMeans(w.b, b);
  }

  /** From the motion checks to the end. */
  ghost function Finished(m: Machine, w: Work, jog: bool, env: Env): Executed {
    var o := CheckMotion(m, w);
    var p := if o.Go? then CheckUnused(o.w) else o;
    match p
    case Stop(status, st) => Executed(status, st, [])
    case Go(w1) => if jog then CommitJog(m, w1) else Commit(m, w1, env)
  }

  lemma FinishedTwins(m: Machine, k: Lengths, w: Work, u: Work, jog: bool, env: Env)
    requires Twins(k, w, u) && !k.done && k.worded && k.sameFeed && k.sameAxes && Cycles(w.b.modal)
    ensures Alike(Finished(m, w, jog, env), Finished(m, u, jog, env))
  {
    hide Twins, CheckMotion, CheckUnused, AlikeStates, Agreed, Commit, CommitJog, Cycles, Asked, KeptMotion;
    MotionTwins(m, k, w, u);
    MotionKeeps(m, w);
    var o, p := CheckMotion(m, w), CheckMotion(m, u);
    if o.Go? {
      UnusedTwins(k.(done := true), o.w, p.w);
      UnusedKeeps(o.w);
      var o1, p1 := CheckUnused(o.w), CheckUnused(p.w);
      if o1.Go? {
        StillCycles(w, o.w);
        JogTwins(m, o1.w, p1.w);
        CommitTwins(m, o1.w, p1.w, env);
      }
    }
  }

  lemma StillCycles(w: Work, w1: Work)
    requires KeptMotion(w, w1) && Cycles(w.b.modal)
    ensures Cycles(w1.b.modal)
  {
    AskedMeans(w1.b, w.b);
  }

  /** Blocks that are twins and whose axis words come to the same are executed alike. */
  lemma BlockTwins(m: Machine, k: Lengths, st: State, tt: State, b: Block, c: Block, env: Env)
    requires Twins(k, Fresh(st, b), Fresh(tt, c)) && !k.done && SameFeed(Fresh(st, b), Fresh(tt, c)) && Cycles(b.modal)
    requires var o, p := CheckWords(m, Fresh(st, b)), CheckWords(m, Fresh(tt, c));
             o.Go? && p.Go? ==> TwinOutcomes(k.(sameFeed := true, worded := true, sameAxes := true), CheckAxes(m, o.w), CheckAxes(m, p.w))
    ensures Alike(ExecuteBlock(m, st, b, env), ExecuteBlock(m, tt, c, env))
  {
    TwinBlocks(Fresh(st, b), Fresh(tt, c));
    hide Twins, CheckWords, CheckAxes, CheckMotion, CheckUnused, AlikeStates, Commit, CommitJog, SameFeed, FeedOf, Cycles;
    WordsTwins(m, k, Fresh(st, b), Fresh(tt, c));
    WordsKeep(m, Fresh(st, b));
    var o1, p1 := CheckWords(m, Fresh(st, b)), CheckWords(m, Fresh(tt, c));
    if o1.Go? {
      var o2, p2 := CheckAxes(m, o1.w), CheckAxes(m, p1.w);
      AxesKeep(m, o1.w);
      if o2.Go? {
        CyclesChecked(st, b, o2.w);
        FinishedTwins(m, k.(sameFeed := true, worded := true, sameAxes := true), o2.w, p2.w, b.jog, env);
      }
    }
    WholeBlock(m, st, b, env);
    WholeBlock(m, tt, c, env);
  }

  lemma WholeBlock(m: Machine, st: State, b: Block, env: Env)
    ensures var o := CheckWords(m, Fresh(st, b));
            ExecuteBlock(m, st, b, env) ==
              match o
              case Stop(status, st1) => Executed(status, st1, [])
              case Go(w) =>
                match CheckAxes(m, w)
                case Stop(status, st1) => Executed(status, st1, [])
                case Go(w1) => Finished(m, w1, b.jog, env)
  {
    hide CheckWords, CheckAxes, CheckMotion, CheckUnused, Commit, CommitJog;
  }

  // ---------------------------------------------------------------- canned cycles stay canned cycles

  lemma CannedWord(m: Machine, w: Word)
    requires WordOrder.IsCommand(w)
    ensures var c := WordOrder.CommandOf(m, w);
            c.Command? && c.write.ToMotion? && c.write.canned
            ==> !c.write.motion.Arc() && !c.write.motion.CubicSpline? && !c.write.motion.QuadraticSpline?
  {
    hide IntPart, Mantissa;
  }

  lemma CommandCycles(b: Block, base: Motion, c: Command)
    requires Cycles(b.modal) && ScanCommand(b, base, c).Accept?
    requires c.Command? && c.write.ToMotion? && c.write.canned
             ==> !c.write.motion.Arc() && !c.write.motion.CubicSpline? && !c.write.motion.QuadraticSpline?
    ensures Cycles(ScanCommand(b, base, c).value.modal)
  {
    Admitted(b, base, c);
    var d := ScanCommand(b, base, c).value;
    hide ScanCommand, Rest, SlotOf;
    CommandWrites(b, base, c, G1);
    SlotFields(b);
    SlotFields(d);
    MotionWritten(base, c.write, SlotOf(b, G1));
    hide Written, GroupOf;
  }

  lemma MotionWritten(base: Motion, write: Write, s: Slot)
    ensures GroupOf(write) == Some(G1) ==> write.ToMotion? && Written(base, write, s).MotionSlot?
                                           && Written(base, write, s).motion == write.motion
                                           && Written(base, write, s).canned == write.canned
  {
  }

  lemma PutCycles(b: Block, letter: char, value: real)
    ensures PutWord(b, letter, value).modal == b.modal
  {
    hide PutValue, NameAxis;
  }

  lemma {:induction false} WordsCycle(m: Machine, base: Motion, s: Scan, words: seq<Word>)
    requires Cycles(s.block.modal) && ScanWords(m, base, s, words).Accept?
    ensures Cycles(ScanWords(m, base, s, words).value.block.modal)
    decreases |words|
  {
    if words != [] {
      var w := words[0];
      hide Cycles, ScanCommand, PutWord, DecodeG, DecodeM, ValueCheck, IntPart, Mantissa;
      if WordOrder.IsCommand(w) {
        CannedWord(m, w);
        CommandCycles(s.block, base, WordOrder.CommandOf(m, w));
      } else {
        ScanLetters(m, base, s, w);
        PutCycles(s.block, w.letter, w.number.value);
      }
      WordsCycle(m, base, ScanWord(m, base, s, w).value, words[1..]);
    }
  }

  lemma LineCycles(m: Machine, st: State, line: Line)
    requires Cycles(st.modal) && ScanLine(m, st, line).Accept?
    ensures Cycles(ScanLine(m, st, line).value.modal)
  {
    hide ScanWords;
    WordsCycle(m, st.modal.motion, Scan(NewBlock(st, line.jog), 0), line.words);
  }

  lemma StepCycles(m: Machine, st: State, op: Op)
    requires Cycles(st.modal)
    ensures Cycles(Step(m, st, op).st.modal)
  {
    hide ScanLine, ExecuteBlock;
    if op.Block? && ScanLine(m, st, op.line).Accept? {
      LineCycles(m, st, op.line);
      Offsets.ExecutedModes(m, st, ScanLine(m, st, op.line).value, op.line.env);
    }
  }

  lemma ColdStartCycles(m: Machine, st: State)
    ensures Cycles(ColdInit(m, st).modal)
  {
  }

  /** What alike results have in common with the modes of their blocks. */
  lemma AlikeModes(m: Machine, st: State, tt: State, b: Block, c: Block, env: Env)
    requires Alike(ExecuteBlock(m, st, b, env), ExecuteBlock(m, tt, c, env)) && c.jog == b.jog && c.flow == b.flow
    ensures var e, f := ExecuteBlock(m, st, b, env), ExecuteBlock(m, tt, c, env);
            if e.status == Ok && !b.jog then
              f.st == e.st.(modal := e.st.modal.(imperial := c.modal.imperial, incremental := c.modal.incremental
                && !Offsets.EndsWith(b, env)))
            else
              f.st == e.st.(modal := e.st.modal.(imperial := tt.modal.imperial, incremental := tt.modal.incremental))
  {
    hide ExecuteBlock;
    Offsets.ExecutedModes(m, st, b, env);
    Offsets.ExecutedModes(m, tt, c, env);
  }

  // ---------------------------------------------------------------- lines that are refused while they are read

  /** The block as it would be with other units and another distance mode before the line. */
  function ReadFrom(modal: Modal, b: Block): Block {
    b.(modal := b.modal.(imperial := if G6 in b.groups then b.modal.imperial else modal.imperial,
                         incremental := if G3 in b.groups then b.modal.incremental else modal.incremental))
  }

  lemma ReadFromMeans(modal: Modal, b: Block, h: Group)
    ensures ReadFrom(modal, b).words == b.words && ReadFrom(modal, b).axisCmd == b.axisCmd && ReadFrom(modal, b).groups == b.groups
    ensures Rest(ReadFrom(modal, b)) == Rest(b)
    ensures SlotOf(ReadFrom(modal, b), h)
            == if h == G6 && G6 !in b.groups then UnitSlot(modal.imperial)
               else if h == G3 && G3 !in b.groups then DistanceSlot(modal.incremental)
               else SlotOf(b, h)
  {
  }

  lemma ReadFromPut(modal: Modal, b: Block, letter: char, x: real)
    ensures ReadFrom(modal, PutWord(b, letter, x)) == PutWord(ReadFrom(modal, b), letter, x)
  {
    hide PutValue, NameAxis;
  }

  /** A write to the units or the distance mode does not look at what was there. */
  lemma FreshWrites(base: Motion, c: Command, s: Slot, t: Slot)
    requires WellGrouped(c) && c.Command?
    ensures GroupOf(c.write) == Some(G6) || GroupOf(c.write) == Some(G3) ==>
              c.group == GroupOf(c.write) && Written(base, c.write, s) == Written(base, c.write, t)
    ensures c.late.None? && (c.group == Some(G6) || c.group == Some(G3)) ==> GroupOf(c.write) == c.group
  {
  }

  lemma ReadFromCommand(modal: Modal, b: Block, base: Motion, c: Command)
    requires WellGrouped(c)
    ensures var r, q := ScanCommand(b, base, c), ScanCommand(ReadFrom(modal, b), base, c);
            if r.Reject? then q == r else q == Accept(ReadFrom(modal, r.value))
  {
    ReadFromMeans(modal, b, G0);
    var r, q := ScanCommand(b, base, c), ScanCommand(ReadFrom(modal, b), base, c);
    if r.Accept? {
      Admitted(b, base, c);
      assert q.Accept?;
      hide *;
      var x, y := ReadFrom(modal, r.value), q.value;
      forall h: Group ensures SlotOf(x, h) == SlotOf(y, h) {
        CommandWrites(b, base, c, h);
        CommandWrites(ReadFrom(modal, b), base, c, h);
        ReadFromMeans(modal, b, h);
        ReadFromMeans(modal, r.value, h);
        FreshWrites(base, c, SlotOf(b, h), SlotOf(ReadFrom(modal, b), h));
      }
      CommandWrites(b, base, c, G0);
      CommandWrites(ReadFrom(modal, b), base, c, G0);
      ReadFromMeans(modal, r.value, G0);
      SlotsDetermine(x, y);
    }
  }

  lemma ReadFromWord(m: Machine, modal: Modal, base: Motion, s: Scan, w: Word)
    ensures var r, q := ScanWord(m, base, s, w), ScanWord(m, base, s.(block := ReadFrom(modal, s.block)), w);
            if r.Reject? then q == r else q == Accept(r.value.(block := ReadFrom(modal, r.value.block)))
  {
    hide WordOrder.CommandOf, ScanCommand, ReadFrom, PutWord, ValueCheck, DecodeG, DecodeM, IntPart, Mantissa;
    ReadFromMeans(modal, s.block, G0);
    if WordOrder.IsCommand(w) {
      WordOrder.CommandIsGrouped(m, w);
      ReadFromCommand(modal, s.block, base, WordOrder.CommandOf(m, w));
      DecodedOf(m, w);
    } else if w.number.Some? {
      ReadFromPut(modal, s.block, w.letter, w.number.value);
    }
  }

  lemma DecodedOf(m: Machine, w: Word)
    requires WordOrder.IsCommand(w)
    ensures var i, n := IntPart(w.number.value), Mantissa(w.number.value);
            WordOrder.CommandOf(m, w) == if w.letter == 'G' then DecodeG(m, i, n) else DecodeM(m, i, n)
  {
    hide DecodeG, DecodeM;
  }

  lemma {:induction false} ReadFromWords(m: Machine, modal: Modal, base: Motion, s: Scan, words: seq<Word>)
    ensures var r, q := ScanWords(m, base, s, words), ScanWords(m, base, s.(block := ReadFrom(modal, s.block)), words);
            if r.Reject? then q == r else q == Accept(r.value.(block := ReadFrom(modal, r.value.block)))
    decreases |words|
  {
    hide ScanWord, ReadFrom;
    if words != [] {
      ReadFromWord(m, modal, base, s, words[0]);
      var r := ScanWord(m, base, s, words[0]);
      if r.Accept? {
        ReadFromWords(m, modal, base, r.value, words[1..]);
      }
    }
  }

  /** Units and distance mode decide nothing while a line is read. */
  lemma RefusedLine(m: Machine, st: State, tt: State, line: Line)
    requires AlikeStates(st, tt)
    ensures ScanLine(m, st, line).Reject? ==> ScanLine(m, tt, line) == ScanLine(m, st, line)
    ensures ScanLine(m, st, line).Accept? ==> ScanLine(m, tt, line).Accept?
  {
    hide ScanWords;
    ReadFromWords(m, tt.modal, st.modal.motion, Scan(NewBlock(st, line.jog), 0), line.words);
    assert ReadFrom(tt.modal, NewBlock(st, line.jog)) == NewBlock(tt, line.jog);
  }
}
