/** Lines after a cold start that are refused and yet change the state. */
module RefusedCases {
  import opened GcTypes
  import opened Scanner
  import opened Validation
  import opened Execution
  import Frames
  import ScanFacts
  import Atomicity
  import Targets
  import Offsets
  import opened WordOrder
  import opened Refusals
  import Quirks
  import FeedSafety
  import opened CaseTools

  // ---------------------------------------------------------------- a refused line that scales

  const SCALE_AND_OFFSET: seq<Word> := [GWord(43.1), GWord(51.0), ValueWord('X', 2.0)]

  function ScaledBlock(b: Block, base: Motion): Block {
    PutWord(After(After(b, base, G43_1), base, G51), 'X', 2.0)
  }

  lemma ScaledBlockIs(b: Block, base: Motion)
    requires b.groups == {} && b.words == {} && b.axisCmd.NoAxisCmd?
    ensures var b1 := After(b, base, G43_1);
            var b2 := After(b1, base, G51);
            Admits(b, G43_1) && Admits(b1, G51) && b2.words == {}
    ensures var c := ScaledBlock(b, base);
            && c.groups == {G8, G11} && c.words == {'X'} && c.axisCmd.ScalingCmd? && c.axisWords == b.axisWords.(x := true)
            && c.modal == b.modal.(toolMode := DynamicTlo, scaling := true) && c.values.xyz.x == 2.0 && c.jog == b.jog
            && c.nonModal == b.nonModal && c.setTool == b.setTool
  {
  }

  lemma ScaledRead(m: Machine, st: State, line: Line)
    requires line.words == SCALE_AND_OFFSET
    ensures ScanLine(m, st, line) == Accept(ScaledBlock(NewBlock(st, line.jog), st.modal.motion))
  {
    var b, base := NewBlock(st, line.jog), st.modal.motion;
    assert SCALE_AND_OFFSET == [GWord(43.1)] + ([GWord(51.0)] + ([ValueWord('X', 2.0)] + []));
    assert IsCommand(GWord(43.1)) && IsCommand(GWord(51.0));
    assert forall w <- line.words :: w.letter != 'O';
    assert 'X' !in POSITIVE_ONLY;
    Codes(m);
    Empty(st, line.jog);
    ScaledBlockIs(b, base);
    assert ScaledBlock(b, base) == PutWord(After(After(b, base, G43_1), base, G51), 'X', 2.0);
    hide *;
    ReadsC(m, base, b, GWord(43.1), [GWord(51.0)] + ([ValueWord('X', 2.0)] + []), G43_1);
    ReadsC(m, base, After(b, base, G43_1), GWord(51.0), [ValueWord('X', 2.0)] + [], G51);
    ReadsV(m, base, After(After(b, base, G43_1), base, G51), 'X', 2.0, []);
    ReadsAll(m, st, line, ScaledBlock(b, base));
  }

  lemma ScaledReached(m: Machine, st: State, b: Block)
    requires Cold(st) && b == ScaledBlock(NewBlock(st, false), Seek)
    ensures WordsPass(m, st, b)
    ensures b.axisCmd.ScalingCmd? && b.modal.scaling && b.axisWords.Any() && G8 in b.groups && b.modal.toolMode.DynamicTlo?
    ensures ScaleWritten(st, b) == Scale(ORIGIN, Vec(2.0, 1.0, 1.0)) && ScalingFlag(st, b)
  {
    hide WordsPass, ScaledBlock, NewBlock;
    Empty(st, false);
    ScaledBlockIs(NewBlock(st, false), Seek);
    SimpleWordsPass(m, st, b);
  }

  /** G43.1 G51 X2 after a cold start: refused, and X is scaled by two from now on. */
  lemma ScalingIsKept(m: Machine, start: State, env: Env)
    ensures var st := ColdInit(m, start);
            var e := Execute(m, st, Line(false, SCALE_AND_OFFSET, env));
            && e.status == G43DynamicAxisError && e.st != st
            && e.st == st.(scale := Scale(ORIGIN, Vec(2.0, 1.0, 1.0)), modal := st.modal.(scaling := true))
  {
    var st, line := ColdInit(m, start), Line(false, SCALE_AND_OFFSET, env);
    assert |SCALE_AND_OFFSET| == 3;
    ColdIs(m, start);
    assert Cold(st) ==> !st.modal.scaling && st.modal.motion.Seek?;
    hide *;
    ScaledRead(m, st, line);
    ScaledReached(m, st, ScaledBlock(NewBlock(st, false), Seek));
    RefusedButScaled(m, st, line);
  }

  // ---------------------------------------------------------------- drilling cycles

  /** A cycle with a depth, a retract position and a feed. */
  function DrillLine(code: real, z: real, r: real): seq<Word> {
    [GWord(code), ValueWord('Z', z), ValueWord('R', r), ValueWord('F', 100.0)]
  }

  function DrillBlock(b: Block, base: Motion, motion: Motion, z: real, r: real): Block {
    PutWord(PutWord(PutWord(After(b, base, Cycle(motion)), 'Z', z), 'R', r), 'F', 100.0)
  }

  lemma DrillBlockIs(b: Block, base: Motion, motion: Motion, z: real, r: real)
    requires b.groups == {} && b.words == {} && b.axisCmd.NoAxisCmd? && base != motion
    ensures var b1 := After(b, base, Cycle(motion));
            var b2 := PutWord(b1, 'Z', z);
            Admits(b, Cycle(motion)) && b1.words == {} && b2.words == {'Z'} && PutWord(b2, 'R', r).words == {'Z', 'R'}
    ensures var c := DrillBlock(b, base, motion, z, r);
            && c.groups == {G1} && c.words == {'Z', 'R', 'F'} && c.axisCmd.MotionCmd? && c.axisWords == b.axisWords.(z := true)
            && c.modal == b.modal.(motion := motion, canned := true) && c.cannedChange && c.jog == b.jog
            && c.nonModal == b.nonModal
            && c.setTool == b.setTool && c.flow == b.flow
            && c.values.xyz == b.values.xyz.(z := z) && c.values.r == r && c.values.f == 100.0
  {
    DrillingBegun(b, base, motion);
    hide After;
  }

  lemma DrillingBegun(b: Block, base: Motion, motion: Motion)
    requires b.groups == {} && b.axisCmd.NoAxisCmd? && base != motion
    ensures Admits(b, Cycle(motion))
    ensures After(b, base, Cycle(motion))
            == b.(modal := b.modal.(motion := motion, canned := true), cannedChange := true, groups := {G1}, axisCmd := MotionCmd)
  {
  }

  lemma DrillRead(m: Machine, st: State, line: Line, code: real, motion: Motion, z: real, r: real)
    requires line.words == DrillLine(code, z, r) && st.modal.motion != motion && CommandOf(m, GWord(code)) == Cycle(motion)
    ensures ScanLine(m, st, line) == Accept(DrillBlock(NewBlock(st, line.jog), st.modal.motion, motion, z, r))
  {
    var b, base := NewBlock(st, line.jog), st.modal.motion;
    assert DrillLine(code, z, r) == [GWord(code)] + ([ValueWord('Z', z)] + ([ValueWord('R', r)] + ([ValueWord('F', 100.0)] + [])));
    assert IsCommand(GWord(code));
    assert forall w <- line.words :: w.letter != 'O';
    assert 'Z' !in POSITIVE_ONLY && 'R' !in POSITIVE_ONLY;
    Empty(st, line.jog);
    DrillBlockIs(b, base, motion, z, r);
    var b1 := After(b, base, Cycle(motion));
    var b2 := PutWord(b1, 'Z', z);
    var b3 := PutWord(b2, 'R', r);
    assert DrillBlock(b, base, motion, z, r) == PutWord(b3, 'F', 100.0);
    hide *;
    ReadsC(m, base, b, GWord(code), [ValueWord('Z', z)] + ([ValueWord('R', r)] + ([ValueWord('F', 100.0)] + [])), Cycle(motion));
    ReadsV(m, base, b1, 'Z', z, [ValueWord('R', r)] + ([ValueWord('F', 100.0)] + []));
    ReadsV(m, base, b2, 'R', r, [ValueWord('F', 100.0)] + []);
    ReadsV(m, base, b3, 'F', 100.0, []);
    ReadsAll(m, st, line, DrillBlock(b, base, motion, z, r));
  }

  lemma DrillReached(m: Machine, st: State, b: Block, motion: Motion, z: real, r: real)
    requires Cold(st) && b == DrillBlock(NewBlock(st, false), Seek, motion, z, r) && (motion.Canned81? || motion.Canned85?)
    ensures CycleReached(m, st, b) && CycleIsWhole(st, b)
    ensures RetractsBelow(st, b) <==> r < z
    ensures var c := CycleOpened(st, b); c.xyz.x == 0.0 && c.xyz.z - c.retract == z - r
    ensures Targets.Placed(Frames.Fresh(st, b)) == Vec(0.0, 0.0, z + st.store[0].z + st.g92.z)
  {
    hide WordsPass, AxesPass, DrillBlock, NewBlock, Vec.Plus, Vec.Minus;
    Empty(st, false);
    DrillBlockIs(NewBlock(st, false), Seek, motion, z, r);
    SimpleWordsPass(m, st, b);
    PlainAxesPass(m, st, b);
    DrillOpens(st, b, z, r);
  }

  lemma DrillOpens(st: State, b: Block, z: real, r: real)
    requires Cold(st) && b.modal == st.modal.(motion := b.modal.motion, canned := true) && b.nonModal.NoAction?
             && b.groups == {G1} && b.cannedChange
    requires b.axisCmd.MotionCmd? && b.axisWords == Axes(false, false, true) && b.words == {'Z', 'R', 'F'}
    requires b.values.xyz == ORIGIN.(z := z) && b.values.r == r
    ensures var c := CycleOpened(st, b); c.xyz.x == 0.0 && c.xyz.z - c.retract == z - r
    ensures Targets.Placed(Frames.Fresh(st, b)) == Vec(0.0, 0.0, z + st.store[0].z + st.g92.z)
  {
  }

  /** G81 Z5 R1 F100 after a cold start: refused, as the hole is above the retract position, and kept. */
  lemma CycleIsKept(m: Machine, start: State, env: Env)
    ensures var st := ColdInit(m, start);
            var e := Execute(m, st, Line(false, DrillLine(81.0, 5.0, 1.0), env));
            && e.status == InvalidRetractPosition && e.st != st && e.st == st.(canned := e.st.canned)
            && e.st.canned.xyz.z - e.st.canned.retract == 4.0
  {
    var st, line := ColdInit(m, start), Line(false, DrillLine(81.0, 5.0, 1.0), env);
    hide ColdInit, Execute, ScanLine, NewBlock, DrillBlock, CycleReached, CycleIsWhole, RetractsBelow, CycleOpened;
    ColdIs(m, start);
    Codes(m);
    DrillRead(m, st, line, 81.0, Canned81, 5.0, 1.0);
    var b := DrillBlock(NewBlock(st, false), Seek, Canned81, 5.0, 1.0);
    DrillReached(m, st, b, Canned81, 5.0, 1.0);
    RefusedCycleIsKept(m, st, line);
  }

  // ---------------------------------------------------------------- lines that are carried out

  /** A whole G81 or G85 passes. */
  lemma DrillGoes(w: Work, st: State, b: Block)
    requires w.st == st && SameCycle(w, st, b) && w.b.values.l == b.values.l
    requires (b.modal.motion.Canned81? || b.modal.motion.Canned85?) && CycleIsWhole(st, b) && !RetractsBelow(st, b)
    ensures CheckCanned(w).Go? && CheckCanned(w).w.b.words == w.b.words - {'R', 'L'}
  {
    CycleOpens(w, st, b);
    var w1 := DefaultRepeats(if b.cannedChange then CannedReset(w) else w);
    StepsKeepWords(w);
    StepsKeepWords(if b.cannedChange then CannedReset(w) else w);
    StepsKeepWords(w1);
    StepsKeepWords(CannedRetract(w1));
    var w2 := CannedTarget(CannedRetract(w1));
    Frames.ConsumeIs(w2, {'R', 'L'});
    StepsKeepWords(Consume(w2, {'R', 'L'}));
    hide CannedReset, CannedRetract, CannedTarget, CannedDelta, Consume, DefaultRepeats, CycleOpened, CycleBefore, Targets.Placed,
         Frames.SelectedCoord, CannedPeck, CannedDwell;
  }

  lemma StepsKeepWords(w: Work)
    ensures CannedReset(w).b == w.b && CannedRetract(w).b == w.b && CannedTarget(w).b == w.b && CannedDelta(w).b == w.b
    ensures DefaultRepeats(w).b.words == w.b.words
  {
    hide Vec.Put, Pick, ToMillimetres;
  }

  lemma PlaneCommits(m: Machine, w: Work, env: Env)
    ensures Commit(m, w, env).st.modal.plane == if EndsProgram(w, env) then XY else w.b.modal.plane
  {
    Offsets.CommitIs(m, w, env);
    PlaneSet(w, env);
    hide CommitModes, Commit, NewPosition;
  }

  lemma PlaneSet(w: Work, env: Env)
    ensures CommitModes(w, env).modal.plane == w.b.modal.plane
  {
    hide Pick;
  }

  lemma DrillMotion(m: Machine, st: State, b: Block)
    requires CycleReached(m, st, b) && ScanFacts.Covered(b) && CycleIsWhole(st, b) && !RetractsBelow(st, b)
    requires b.modal.motion.Canned81? || b.modal.motion.Canned85?
    ensures var o := CheckMotion(m, AtMotion(m, st, b));
            o.Go? && o.w.b.words == b.words - WordsUsed(b) - {'R', 'L'} && o.w.b.axisCmd.MotionCmd?
  {
    CycleAtMotion(m, st, b);
    MotionBlock(m, st, b);
    StillMotion(m, st, b);
    assert CycleReached(m, st, b) ==> MotionReached(m, st, b) && b.modal.canned;
    hide *;
    var w := AtMotion(m, st, b);
    DrillGoes(w, st, b);
    CannedStops(m, w);
    Quirks.CannedKeepsCmd(w);
  }

  /** A whole G81 with no other words passes the checks, and has written its data. */
  lemma DrillPasses(m: Machine, st: State, b: Block)
    requires CycleReached(m, st, b) && ScanFacts.Covered(b) && CycleIsWhole(st, b) && !RetractsBelow(st, b)
    requires b.modal.motion.Canned81? || b.modal.motion.Canned85?
    requires b.words == {'Z', 'R', 'F'}
    ensures var o := Validate(m, st, b); o.Go? && o.w.st == st.(canned := CycleFinal(st, b))
  {
    DrillMotion(m, st, b);
    assert CycleReached(m, st, b) ==> AxesPass(m, st, b);
    CycleNotScaling(m, st, b);
    ChecksLeave(m, st, b);
    hide *;
    NothingUnused(CheckMotion(m, AtMotion(m, st, b)).w);
    PassesOn(m, st, b);
  }

  /** G81 or G85 with the hole below the retract position, after a cold start: carried out, and the cycle is active. */
  lemma DrillIsAccepted(m: Machine, st: State, line: Line, code: real, motion: Motion, z: real, r: real)
    requires Cold(st) && line.words == DrillLine(code, z, r) && !line.jog && r >= z
    requires CommandOf(m, GWord(code)) == Cycle(motion) && (motion.Canned81? || motion.Canned85?)
    ensures Offsets.Accepted(m, st, line) && ScanLine(m, st, line) == Accept(DrillBlock(NewBlock(st, false), Seek, motion, z, r))
    ensures var tt := Execute(m, st, line).st;
            && tt.modal.canned && tt.canned.xyz.x == 0.0 && !tt.modal.scaling && !tt.modal.imperial && !tt.modal.incremental
            && tt.modal.plane.XY? && tt.modal.motion == motion && tt.modal.feedMode.UnitsPerMin?
  {
    assert |DrillLine(code, z, r)| == 4;
    var b := DrillBlock(NewBlock(st, false), Seek, motion, z, r);
    DrillColdly(m, st, b, motion, z, r);
    hide *;
    DrillRead(m, st, line, code, motion, z, r);
    LineCovers(m, st, line);
    DrillPasses(m, st, b);
    WholeHole(st, b);
    Atomicity.ValidateKeeps(m, st, b);
    BlockIsAccepted(m, st, line);
    var w := Validate(m, st, b).w;
    Quirks.CommitKeepsEarly(m, w, line.env);
    Offsets.CommitsModes(m, w, line.env);
    FeedSafety.CommitFeeds(m, w, line.env);
    PlaneCommits(m, w, line.env);
    CheckedModes(st, b, w);
    Running(w, line.env);
  }

  lemma DrillColdly(m: Machine, st: State, b: Block, motion: Motion, z: real, r: real)
    requires Cold(st) && b == DrillBlock(NewBlock(st, false), Seek, motion, z, r) && r >= z && (motion.Canned81? || motion.Canned85?)
    ensures CycleReached(m, st, b) && CycleIsWhole(st, b) && !RetractsBelow(st, b) && b.words == {'Z', 'R', 'F'}
    ensures b.modal.motion == motion && b.modal.canned && !b.modal.imperial && !b.modal.incremental && b.modal.plane.XY?
    ensures b.modal.feedMode.UnitsPerMin? && b.flow.Running? && b.nonModal.NoAction? && CycleOpened(st, b).xyz.x == 0.0
    ensures !st.modal.scaling && st.modal.motion.Seek?
  {
    hide CycleReached, CycleIsWhole, RetractsBelow, DrillBlock, NewBlock, CycleOpened;
    Empty(st, false);
    DrillBlockIs(NewBlock(st, false), Seek, motion, z, r);
    DrillReached(m, st, b, motion, z, r);
  }

  lemma CheckedModes(st: State, b: Block, w: Work)
    requires Atomicity.Checked(st, b, w)
    ensures w.b.modal.canned == b.modal.canned && w.b.modal.imperial == b.modal.imperial
            && w.b.modal.incremental == b.modal.incremental
    ensures w.b.modal.motion == b.modal.motion && w.b.modal.feedMode == b.modal.feedMode
    ensures w.b.modal.plane == b.modal.plane && w.b.flow == b.flow && w.b.nonModal == b.nonModal && w.b.groups == b.groups
  {
    hide Frames.FeedOf, Frames.SelectedCoord;
    Frames.AskedMeans(w.b, b);
  }

  lemma Running(w: Work, env: Env)
    requires w.b.flow.Running? && w.b.nonModal.NoAction?
    ensures !EndsProgram(w, env) && !Quirks.GoesHome(w.b)
  {
  }

  // ---------------------------------------------------------------- a jog in a cycle

  const STEP_X: seq<Word> := [GWord(91.0), ValueWord('X', 1.0), ValueWord('F', 100.0)]

  function StepBlock(b: Block, base: Motion): Block {
    PutWord(PutWord(After(b, base, G91), 'X', 1.0), 'F', 100.0)
  }

  lemma StepBlockIs(b: Block, base: Motion)
    requires b.groups == {} && b.words == {} && b.axisCmd.NoAxisCmd?
    ensures var b1 := After(b, base, G91);
            Admits(b, G91) && b1.words == {} && PutWord(b1, 'X', 1.0).words == {'X'}
    ensures var c := StepBlock(b, base);
            && c.groups == {G3} && c.words == {'X', 'F'} && c.axisCmd.NoAxisCmd? && c.axisWords == b.axisWords.(x := true)
            && c.modal == b.modal.(incremental := true) && c.cannedChange == b.cannedChange && c.jog == b.jog
            && c.nonModal == b.nonModal
            && c.setTool == b.setTool && c.values.xyz == b.values.xyz.(x := 1.0) && c.values.f == 100.0
  {
  }

  lemma StepRead(m: Machine, st: State, line: Line)
    requires line.words == STEP_X
    ensures ScanLine(m, st, line) == Accept(StepBlock(NewBlock(st, line.jog), st.modal.motion))
  {
    var b, base := NewBlock(st, line.jog), st.modal.motion;
    assert STEP_X == [GWord(91.0)] + ([ValueWord('X', 1.0)] + ([ValueWord('F', 100.0)] + []));
    assert IsCommand(GWord(91.0));
    assert forall w <- line.words :: w.letter != 'O';
    assert 'X' !in POSITIVE_ONLY;
    Codes(m);
    Empty(st, line.jog);
    StepBlockIs(b, base);
    var b1 := After(b, base, G91);
    var b2 := PutWord(b1, 'X', 1.0);
    assert StepBlock(b, base) == PutWord(b2, 'F', 100.0);
    hide *;
    ReadsC(m, base, b, GWord(91.0), [ValueWord('X', 1.0)] + ([ValueWord('F', 100.0)] + []), G91);
    ReadsV(m, base, b1, 'X', 1.0, [ValueWord('F', 100.0)] + []);
    ReadsV(m, base, b2, 'F', 100.0, []);
    ReadsAll(m, st, line, StepBlock(b, base));
  }

  lemma StepReached(m: Machine, st: State, b: Block)
    requires b == StepBlock(NewBlock(st, true), st.modal.motion)
    requires st.modal.canned && !st.modal.scaling && !st.modal.imperial && st.modal.plane.XY?
    ensures CycleReached(m, st, b) && CycleIsWhole(st, b) && CycleOpened(st, b).xyz.x == 1.0
  {
    hide WordsPass, AxesPass, StepBlock, NewBlock;
    Empty(st, true);
    StepBlockIs(NewBlock(st, true), st.modal.motion);
    SimpleWordsPass(m, st, b);
    PlainAxesPass(m, st, b);
  }

  /** G81 Z-1 R1 F100 after a cold start, and then $J=G91 X1 F100: whether it is in the limits or not, the jog has
      moved the hole of the cycle. */
  lemma JogMovesHole(m: Machine, start: State, env: Env, env1: Env)
    ensures var drill, jog := Line(false, DrillLine(81.0, -1.0, 1.0), env), Line(true, STEP_X, env1);
            var tt := Execute(m, ColdInit(m, start), drill).st;
            && Offsets.Accepted(m, ColdInit(m, start), drill)
            && tt.canned.xyz.x == 0.0 && Execute(m, tt, jog).st.canned.xyz.x == 1.0
  {
    hide *;
    var drill, jog := Line(false, DrillLine(81.0, -1.0, 1.0), env), Line(true, STEP_X, env1);
    ColdIs(m, start);
    Codes(m);
    DrillIsAccepted(m, ColdInit(m, start), drill, 81.0, Canned81, -1.0, 1.0);
    var tt := Execute(m, ColdInit(m, start), drill).st;
    StepRead(m, tt, jog);
    var b := StepBlock(NewBlock(tt, true), tt.modal.motion);
    StepReached(m, tt, b);
    ScanFacts.LineReads(m, tt, jog);
    ReadCovers(tt, true, b);
    WholeHole(tt, b);
    CycleNotScaling(m, tt, b);
    JogLeaves(m, tt, jog);
  }

  // ---------------------------------------------------------------- splines

  const CURVE: seq<Word> :=
    [GWord(5.0), ValueWord('X', 1.0), ValueWord('I', 1.0), ValueWord('J', 1.0), ValueWord('P', 1.0), ValueWord('Q', 1.0), ValueWord('F', 100.0), ValueWord('D', 1.0)]

  function CurveStart(b: Block): Block {
    PutWord(PutWord(PutWord(b, 'X', 1.0), 'I', 1.0), 'J', 1.0)
  }

  function CurveEnd(b: Block): Block {
    PutWord(PutWord(PutWord(PutWord(b, 'P', 1.0), 'Q', 1.0), 'F', 100.0), 'D', 1.0)
  }

  lemma CurveBegun(b: Block, base: Motion)
    requires b.groups == {} && b.axisCmd.NoAxisCmd?
    ensures Admits(b, G5_0)
    ensures After(b, base, G5_0)
            == b.(modal := b.modal.(motion := CubicSpline, canned := false), groups := {G1}, axisCmd := MotionCmd)
  {
  }

  lemma CurveStarts(b: Block)
    requires b.words == {}
    ensures var b1 := PutWord(b, 'X', 1.0);
            b1.words == {'X'} && PutWord(b1, 'I', 1.0).words == {'X', 'I'}
    ensures var c := CurveStart(b);
            && c.words == {'X', 'I', 'J'} && c.axisWords == b.axisWords.(x := true)
            && c.values == b.values.(xyz := c.values.xyz, ijk := c.values.ijk)
            && c.modal == b.modal && c.groups == b.groups && c.axisCmd == b.axisCmd && c.jog == b.jog && c.nonModal == b.nonModal
            && c.setTool == b.setTool
  {
  }

  lemma CurveEnds(b: Block)
    requires b.words == {'X', 'I', 'J'}
    ensures var b1 := PutWord(b, 'P', 1.0);
            var b2 := PutWord(b1, 'Q', 1.0);
            b1.words == {'X', 'I', 'J', 'P'} && b2.words == {'X', 'I', 'J', 'P', 'Q'}
              && PutWord(b2, 'F', 100.0).words == {'X', 'I', 'J', 'P', 'Q', 'F'}
    ensures var c := CurveEnd(b);
            && c.words == {'X', 'I', 'J', 'P', 'Q', 'F', 'D'} && c.axisWords == b.axisWords
            && c.values == b.values.(p := 1.0, q := 1.0, f := 100.0, d := 1.0)
            && c.modal == b.modal && c.groups == b.groups && c.axisCmd == b.axisCmd && c.jog == b.jog && c.nonModal == b.nonModal
            && c.setTool == b.setTool
  {
  }

  lemma CurveStartRead(m: Machine, base: Motion, b: Block, rest: seq<Word>)
    requires b.words == {}
    ensures TakeAll(m, base, b, [ValueWord('X', 1.0)] + ([ValueWord('I', 1.0)] + ([ValueWord('J', 1.0)] + rest))) == TakeAll(m, base, CurveStart(b), rest)
  {
    assert 'X' !in POSITIVE_ONLY && 'I' !in POSITIVE_ONLY && 'J' !in POSITIVE_ONLY;
    CurveStarts(b);
    var b1 := PutWord(b, 'X', 1.0);
    var b2 := PutWord(b1, 'I', 1.0);
    assert CurveStart(b) == PutWord(b2, 'J', 1.0);
    hide *;
    ReadsV(m, base, b, 'X', 1.0, [ValueWord('I', 1.0)] + ([ValueWord('J', 1.0)] + rest));
    ReadsV(m, base, b1, 'I', 1.0, [ValueWord('J', 1.0)] + rest);
    ReadsV(m, base, b2, 'J', 1.0, rest);
  }

  lemma CurveEndRead(m: Machine, base: Motion, b: Block)
    requires b.words == {'X', 'I', 'J'}
    ensures TakeAll(m, base, b, [ValueWord('P', 1.0)] + ([ValueWord('Q', 1.0)] + ([ValueWord('F', 100.0)] + ([ValueWord('D', 1.0)] + [])))) == TakeAll(m, base, CurveEnd(b), [])
  {
    assert 'P' !in POSITIVE_ONLY && 'Q' !in POSITIVE_ONLY;
    CurveEnds(b);
    var b1 := PutWord(b, 'P', 1.0);
    var b2 := PutWord(b1, 'Q', 1.0);
    var b3 := PutWord(b2, 'F', 100.0);
    assert CurveEnd(b) == PutWord(b3, 'D', 1.0);
    hide *;
    ReadsV(m, base, b, 'P', 1.0, [ValueWord('Q', 1.0)] + ([ValueWord('F', 100.0)] + ([ValueWord('D', 1.0)] + [])));
    ReadsV(m, base, b1, 'Q', 1.0, [ValueWord('F', 100.0)] + ([ValueWord('D', 1.0)] + []));
    ReadsV(m, base, b2, 'F', 100.0, [ValueWord('D', 1.0)] + []);
    ReadsV(m, base, b3, 'D', 1.0, []);
  }

  function CurveBlock(b: Block, base: Motion): Block {
    CurveEnd(CurveStart(After(b, base, G5_0)))
  }

  lemma CurveRead(m: Machine, st: State, line: Line)
    requires line.words == CURVE && !line.jog
    ensures ScanLine(m, st, line) == Accept(CurveBlock(NewBlock(st, false), st.modal.motion))
  {
    var b, base := NewBlock(st, false), st.modal.motion;
    var rest := [ValueWord('P', 1.0)] + ([ValueWord('Q', 1.0)] + ([ValueWord('F', 100.0)] + ([ValueWord('D', 1.0)] + [])));
    var words := [ValueWord('X', 1.0)] + ([ValueWord('I', 1.0)] + ([ValueWord('J', 1.0)] + rest));
    assert CURVE == [GWord(5.0)] + words;
    assert IsCommand(GWord(5.0));
    assert forall w <- line.words :: w.letter != 'O';
    Codes(m);
    Empty(st, false);
    CurveBegun(b, base);
    var b1 := After(b, base, G5_0);
    CurveStarts(b1);
    assert CurveBlock(b, base) == CurveEnd(CurveStart(b1));
    hide *;
    ReadsC(m, base, b, GWord(5.0), words, G5_0);
    CurveStartRead(m, base, b1, rest);
    CurveEndRead(m, base, CurveStart(b1));
    ReadsAll(m, st, line, CurveBlock(b, base));
  }

  lemma CurveBlockIs(b: Block, base: Motion)
    requires b.groups == {} && b.words == {} && b.axisCmd.NoAxisCmd?
    ensures var c := CurveBlock(b, base);
            && c.words == {'X', 'I', 'J', 'P', 'Q', 'F', 'D'} && c.axisWords == b.axisWords.(x := true) && c.values.p == 1.0
            && c.values.q == 1.0 && c.values.f == 100.0 && c.modal == b.modal.(motion := CubicSpline, canned := false)
            && c.groups == {G1}
            && c.axisCmd.MotionCmd? && c.jog == b.jog && c.nonModal == b.nonModal && c.setTool == b.setTool
  {
    hide After, CurveStart, CurveEnd;
    CurveBegun(b, base);
    CurveStarts(After(b, base, G5_0));
    CurveEnds(CurveStart(After(b, base, G5_0)));
  }

  lemma CurveReached(m: Machine, st: State, b: Block)
    requires Cold(st) && b == CurveBlock(NewBlock(st, false), Seek)
    ensures SplineReached(m, st, b) && OffsetWritten(st, b) == Pq(1.0, 1.0) && 'D' in b.words
  {
    hide WordsPass, AxesPass, NewBlock, CurveBlock;
    Empty(st, false);
    CurveBlockIs(NewBlock(st, false), Seek);
    SimpleWordsPass(m, st, b);
    PlainAxesPass(m, st, b);
  }

  lemma CubicGoes(m: Machine, w: Work)
    requires FedMotion(w) && !w.b.modal.canned && w.b.modal.motion.CubicSpline? && WholeCubic(w)
    ensures CheckMotion(m, w).Go? && CheckMotion(m, w).w.b.words == w.b.words - {'P', 'Q', 'I', 'J'}
  {
    hide CubicOffset, PlanarLength;
  }

  lemma StopsUnused(m: Machine, st: State, b: Block)
    requires AxesPass(m, st, b) && CheckMotion(m, AtMotion(m, st, b)).Go? && 'D' in CheckMotion(m, AtMotion(m, st, b)).w.b.words
    ensures Validate(m, st, b).Stop? && Validate(m, st, b).status == UnusedWords
  {
    UnusedStops(CheckMotion(m, AtMotion(m, st, b)).w, 'D');
    hide CheckWords, CheckAxes, CheckMotion, CheckUnused;
  }

  lemma CurveStops(m: Machine, st: State, b: Block)
    requires SplineReached(m, st, b) && ScanFacts.Covered(b) && 'D' in b.words
    ensures Validate(m, st, b).Stop? && Validate(m, st, b).status == UnusedWords
  {
    assert SplineReached(m, st, b) ==> MotionReached(m, st, b) && AxesPass(m, st, b) && Frames.ImpliedCmd(b).MotionCmd?
                                       && !b.modal.canned && b.modal.motion.CubicSpline?;
    CycleLetters(b);
    hide *;
    MotionBlock(m, st, b);
    StillMotion(m, st, b);
    CubicGoes(m, AtMotion(m, st, b));
    StopsUnused(m, st, b);
  }

  /** G5 X1 I1 J1 P1 Q1 F100 D1 after a cold start: refused for its D, and the next G5 mirrors its P and Q. */
  lemma CurveIsKept(m: Machine, start: State, env: Env)
    ensures var st := ColdInit(m, start);
            var e := Execute(m, st, Line(false, CURVE, env));
            e.status == UnusedWords && e.st != st && e.st == st.(modal := st.modal.(splinePq := Pq(1.0, 1.0)))
  {
    var st, line := ColdInit(m, start), Line(false, CURVE, env);
    assert |CURVE| == 8;
    ColdIs(m, start);
    assert Cold(st) ==> st.modal.motion.Seek? && st.modal.splinePq == Pq(0.0, 0.0);
    hide *;
    CurveRead(m, st, line);
    var b := CurveBlock(NewBlock(st, false), Seek);
    CurveReached(m, st, b);
    ScanFacts.LineReads(m, st, line);
    ReadCovers(st, false, b);
    CurveStops(m, st, b);
    Stopped(m, st, line);
    RefusedSplineIsKept(m, st, line);
  }
}
