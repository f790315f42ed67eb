/** Lines after a cold start that show the other exceptions of the theorems at work. */
module Cases {
  import opened GcTypes
  import opened Scanner
  import opened Validation
  import opened Execution
  import opened Frames
  import ScanFacts
  import Atomicity
  import opened Targets
  import opened Offsets
  import opened WordOrder
  import opened Refusals
  import Quirks
  import FeedSafety
  import WorkPositions
  import Curves
  import Units
  import opened CaseTools
  import RefusedCases

  // ---------------------------------------------------------------- the end of a program

  const SELECT_AND_END: seq<Word> := [GWord(55.0), MWord(2.0)]

  function EndBlock(b: Block, base: Motion): Block {
    After(After(b, base, G55), base, M2)
  }

  lemma EndBlockIs(b: Block, base: Motion)
    requires b.groups == {}
    ensures Admits(b, G55) && Admits(After(b, base, G55), M2)
    ensures EndBlock(b, base)
            == b.(modal := b.modal.(coord := b.modal.coord.(id := 1)), flow := CompletedM2, groups := {G12, M4})
  {
  }

  lemma EndRead(m: Machine, st: State, line: Line)
    requires line.words == SELECT_AND_END && !line.jog
    ensures ScanLine(m, st, line) == Accept(EndBlock(NewBlock(st, false), st.modal.motion))
  {
    var b, base := NewBlock(st, false), st.modal.motion;
    assert SELECT_AND_END == [GWord(55.0)] + ([MWord(2.0)] + []);
    assert IsCommand(GWord(55.0)) && IsCommand(MWord(2.0));
    assert forall w <- line.words :: w.letter != 'O';
    Codes(m);
    Empty(st, false);
    EndBlockIs(b, base);
    assert EndBlock(b, base) == After(After(b, base, G55), base, M2);
    hide *;
    ReadsC(m, base, b, GWord(55.0), [MWord(2.0)] + [], G55);
    ReadsC(m, base, After(b, base, G55), MWord(2.0), [], M2);
    ReadsAll(m, st, line, EndBlock(b, base));
  }

  lemma EndPasses(m: Machine, st: State, b: Block)
    requires Cold(st) && b == EndBlock(NewBlock(st, false), Seek)
    ensures Validate(m, st, b).Go?
    ensures b.nonModal.NoAction? && b.modal.coord.id == 1 && b.flow.CompletedM2?
  {
    hide WordsPass, AxesPass, EndBlock, NewBlock, Validate;
    Empty(st, false);
    EndBlockIs(NewBlock(st, false), Seek);
    SimpleWordsPass(m, st, b);
    PlainAxesPass(m, st, b);
    QuietPasses(m, st, b);
  }

  lemma EndIsStale(st: State, b: Block, env: Env)
    requires b.nonModal.NoAction? && b.modal.coord.id == 1 && b.flow.CompletedM2?
    requires env.checkMode && !env.singleBlock && st.store[1] != st.store[0]
    ensures LeavesStale(st, b, env)
  {
  }

  /** G55 M2 in check mode after a cold start: carried out, and G54 has the data of G55. */
  lemma CheckModeLeavesStale(m: Machine, start: State, env: Env)
    requires env.checkMode && !env.singleBlock && start.store[1] != start.store[0]
    ensures var st, line := ColdInit(m, start), Line(false, SELECT_AND_END, env);
            Cached(st) && Accepted(m, st, line) && !Cached(Execute(m, st, line).st)
  {
    var st, line := ColdInit(m, start), Line(false, SELECT_AND_END, env);
    assert |SELECT_AND_END| == 2;
    ColdIs(m, start);
    ColdStartCached(m, start);
    assert Cold(st) ==> st.modal.motion.Seek?;
    hide *;
    EndRead(m, st, line);
    var b := EndBlock(NewBlock(st, false), Seek);
    EndPasses(m, st, b);
    BlockIsAccepted(m, st, line);
    EndIsStale(st, b, env);
    LineCached(m, st, line);
  }

  const FEED_AND_END: seq<Word> := [GWord(95.0), ValueWord('F', 100.0), MWord(2.0)]

  function FeedBlock(b: Block, base: Motion): Block {
    After(PutWord(After(b, base, G95), 'F', 100.0), base, M2)
  }

  lemma FeedBlockIs(b: Block, base: Motion)
    requires b.groups == {} && b.words == {}
    ensures var b1 := After(b, base, G95);
            Admits(b, G95) && b1.words == {} && Admits(PutWord(b1, 'F', 100.0), M2)
    ensures var c := FeedBlock(b, base);
            && c.groups == {G5, M4} && c.words == {'F'} && c.axisWords == b.axisWords && c.values.f == 100.0
            && c.axisCmd == b.axisCmd
            && c.modal == b.modal.(feedMode := UnitsPerRev) && c.flow.CompletedM2? && c.jog == b.jog && c.nonModal == b.nonModal
            && c.setTool == b.setTool
  {
  }

  lemma FeedRead(m: Machine, st: State, line: Line)
    requires line.words == FEED_AND_END && !line.jog
    ensures ScanLine(m, st, line) == Accept(FeedBlock(NewBlock(st, false), st.modal.motion))
  {
    var b, base := NewBlock(st, false), st.modal.motion;
    assert FEED_AND_END == [GWord(95.0)] + ([ValueWord('F', 100.0)] + ([MWord(2.0)] + []));
    assert IsCommand(GWord(95.0)) && IsCommand(MWord(2.0));
    assert forall w <- line.words :: w.letter != 'O';
    Codes(m);
    Empty(st, false);
    FeedBlockIs(b, base);
    var b1 := After(b, base, G95);
    assert FeedBlock(b, base) == After(PutWord(b1, 'F', 100.0), base, M2);
    hide *;
    ReadsC(m, base, b, GWord(95.0), [ValueWord('F', 100.0)] + ([MWord(2.0)] + []), G95);
    ReadsV(m, base, b1, 'F', 100.0, [MWord(2.0)] + []);
    ReadsC(m, base, PutWord(b1, 'F', 100.0), MWord(2.0), [], M2);
    ReadsAll(m, st, line, FeedBlock(b, base));
  }

  lemma FeedPasses(m: Machine, st: State, b: Block, env: Env)
    requires Cold(st) && b == FeedBlock(NewBlock(st, false), Seek) && m.encoder && !env.singleBlock
    ensures Validate(m, st, b).Go? && FeedSafety.KeepsForeignFeed(st, b, env)
  {
    hide WordsPass, AxesPass, FeedBlock, NewBlock, Validate;
    Empty(st, false);
    FeedBlockIs(NewBlock(st, false), Seek);
    SimpleWordsPass(m, st, b);
    PlainAxesPass(m, st, b);
    QuietPasses(m, st, b);
  }

  /** G95 F100 M2 after a cold start, on a spindle with an encoder: carried out, and the next G1 may go on at the feed
      of 100 per turn as one of 100 per minute. */
  lemma EndKeepsFeed(m: Machine, start: State, env: Env)
    requires m.encoder && !env.singleBlock
    ensures var st, line := ColdInit(m, start), Line(false, FEED_AND_END, env);
            && FeedSafety.Belongs(st, UnitsPerMin) && Accepted(m, st, line)
            && !FeedSafety.Belongs(Execute(m, st, line).st, FeedSafety.GivenAfter(m, st, line, UnitsPerMin))
  {
    var st, line := ColdInit(m, start), Line(false, FEED_AND_END, env);
    assert |FEED_AND_END| == 3;
    ColdIs(m, start);
    assert Cold(st) ==> st.modal.motion.Seek? && FeedSafety.Belongs(st, UnitsPerMin);
    hide *;
    FeedRead(m, st, line);
    var b := FeedBlock(NewBlock(st, false), Seek);
    FeedPasses(m, st, b, env);
    BlockIsAccepted(m, st, line);
    FeedSafety.LineKeepsFeedMode(m, st, line, UnitsPerMin);
  }

  // ---------------------------------------------------------------- G92 beside G49

  const SET_AND_CANCEL: seq<Word> := [GWord(92.0), ValueWord('X', 1.0), GWord(49.0)]

  function SetBlock(b: Block, base: Motion): Block {
    After(PutWord(After(b, base, G92), 'X', 1.0), base, G49)
  }

  lemma SetBlockIs(b: Block, base: Motion)
    requires b.groups == {} && b.words == {} && b.axisCmd.NoAxisCmd?
    ensures var b1 := After(b, base, G92);
            Admits(b, G92) && b1.words == {} && Admits(PutWord(b1, 'X', 1.0), G49)
    ensures var c := SetBlock(b, base);
            && c.groups == {G0, G8} && c.words == {'X'} && c.axisWords == b.axisWords.(x := true) && c.axisCmd.NonModalCmd?
            && c.modal == b.modal.(toolMode := CancelTlo) && c.flow == b.flow && c.jog == b.jog && c.nonModal.SetOffset?
            && c.setTool == b.setTool
  {
  }

  lemma SetRead(m: Machine, st: State, line: Line)
    requires line.words == SET_AND_CANCEL && !line.jog
    ensures ScanLine(m, st, line) == Accept(SetBlock(NewBlock(st, false), st.modal.motion))
  {
    var b, base := NewBlock(st, false), st.modal.motion;
    assert SET_AND_CANCEL == [GWord(92.0)] + ([ValueWord('X', 1.0)] + ([GWord(49.0)] + []));
    assert IsCommand(GWord(92.0)) && IsCommand(GWord(49.0)) && 'X' !in POSITIVE_ONLY;
    assert forall w <- line.words :: w.letter != 'O';
    Codes(m);
    Empty(st, false);
    SetBlockIs(b, base);
    var b1 := After(b, base, G92);
    assert SetBlock(b, base) == After(PutWord(b1, 'X', 1.0), base, G49);
    hide *;
    ReadsC(m, base, b, GWord(92.0), [ValueWord('X', 1.0)] + ([GWord(49.0)] + []), G92);
    ReadsV(m, base, b1, 'X', 1.0, [GWord(49.0)] + []);
    ReadsC(m, base, PutWord(b1, 'X', 1.0), GWord(49.0), [], G49);
    ReadsAll(m, st, line, SetBlock(b, base));
  }

  lemma SetPasses(m: Machine, st: State, b: Block, env: Env)
    requires st.modal.motion.Seek? && st.modal.feedMode.UnitsPerMin? && b == SetBlock(NewBlock(st, false), Seek) && st.tlo.x != 0.0
    ensures Validate(m, st, b).Go? && b.nonModal.SetOffset? && !EndsWith(b, env) && G8 in b.groups
    ensures !WorkPositions.AgreeOn(AxesLeft(b), st.tlo, ORIGIN)
  {
    hide WordsPass, AxesPass, SetBlock, NewBlock, Validate;
    Empty(st, false);
    SetBlockIs(NewBlock(st, false), Seek);
    SimpleWordsPass(m, st, b);
    PlainAxesPass(m, st, b);
    QuietPasses(m, st, b);
  }

  /** G92 X1 G49 with a tool offset along X, after a cold start: carried out, and the operator does not read 1. */
  lemma SetOffsetIsOff(m: Machine, start: State, offset: real, env: Env)
    requires offset != 0.0
    ensures var st, line := ColdInit(m, start).(tlo := Vec(offset, 0.0, 0.0)), Line(false, SET_AND_CANCEL, env);
            var b := ScanLine(m, st, line);
            && Accepted(m, st, line) && b.Accept?
            && !WorkPositions.AgreeOn(AxesLeft(b.value), AxisNumbers(st, b.value), WorkPosition(Execute(m, st, line).st))
  {
    var st, line := ColdInit(m, start).(tlo := Vec(offset, 0.0, 0.0)), Line(false, SET_AND_CANCEL, env);
    assert |SET_AND_CANCEL| == 3;
    ColdIs(m, start);
    assert Cold(ColdInit(m, start)) ==> st.modal.motion.Seek? && st.modal.feedMode.UnitsPerMin?;
    hide *;
    SetRead(m, st, line);
    SetPasses(m, st, SetBlock(NewBlock(st, false), Seek), env);
    BlockIsAccepted(m, st, line);
    WorkPositions.SetOffsetIsExact(m, st, line);
  }

  // ---------------------------------------------------------------- an arc that goes nowhere in the plane

  const RISING_ARC: seq<Word> := [GWord(91.0), GWord(2.0), ValueWord('X', 0.0), ValueWord('Z', 1.0), ValueWord('R', 1.0), ValueWord('F', 100.0)]

  function RisingStart(b: Block, base: Motion): Block {
    After(After(b, base, G91), base, G2_0)
  }

  function RisingEnd(b: Block): Block {
    PutWord(PutWord(PutWord(PutWord(b, 'X', 0.0), 'Z', 1.0), 'R', 1.0), 'F', 100.0)
  }

  lemma RisingStarts(b: Block, base: Motion)
    requires b.groups == {} && b.axisCmd.NoAxisCmd?
    ensures Admits(b, G91) && Admits(After(b, base, G91), G2_0)
    ensures RisingStart(b, base)
            == b.(modal := b.modal.(incremental := true, motion := CwArc, canned := false), groups := {G3, G1}, axisCmd := MotionCmd)
  {
  }

  lemma RisingEnds(b: Block)
    requires b.words == {}
    ensures var b1 := PutWord(b, 'X', 0.0);
            var b2 := PutWord(b1, 'Z', 1.0);
            b1.words == {'X'} && b2.words == {'X', 'Z'} && PutWord(b2, 'R', 1.0).words == {'X', 'Z', 'R'}
    ensures var c := RisingEnd(b);
            && c.words == {'X', 'Z', 'R', 'F'} && c.axisWords == b.axisWords.(x := true, z := true)
            && c.values == b.values.(xyz := b.values.xyz.(x := 0.0, z := 1.0), r := 1.0, f := 100.0)
            && c.modal == b.modal && c.groups == b.groups && c.axisCmd == b.axisCmd && c.jog == b.jog && c.nonModal == b.nonModal
            && c.setTool == b.setTool
  {
  }

  lemma RisingEndRead(m: Machine, base: Motion, b: Block)
    requires b.words == {}
    ensures TakeAll(m, base, b, [ValueWord('X', 0.0)] + ([ValueWord('Z', 1.0)] + ([ValueWord('R', 1.0)] + ([ValueWord('F', 100.0)] + [])))) == TakeAll(m, base, RisingEnd(b), [])
  {
    assert 'X' !in POSITIVE_ONLY && 'Z' !in POSITIVE_ONLY && 'R' !in POSITIVE_ONLY;
    RisingEnds(b);
    var b1 := PutWord(b, 'X', 0.0);
    var b2 := PutWord(b1, 'Z', 1.0);
    var b3 := PutWord(b2, 'R', 1.0);
    assert RisingEnd(b) == PutWord(b3, 'F', 100.0);
    hide *;
    ReadsV(m, base, b, 'X', 0.0, [ValueWord('Z', 1.0)] + ([ValueWord('R', 1.0)] + ([ValueWord('F', 100.0)] + [])));
    ReadsV(m, base, b1, 'Z', 1.0, [ValueWord('R', 1.0)] + ([ValueWord('F', 100.0)] + []));
    ReadsV(m, base, b2, 'R', 1.0, [ValueWord('F', 100.0)] + []);
    ReadsV(m, base, b3, 'F', 100.0, []);
  }

  lemma RisingRead(m: Machine, st: State, line: Line)
    requires line.words == RISING_ARC && !line.jog
    ensures ScanLine(m, st, line) == Accept(RisingEnd(RisingStart(NewBlock(st, false), st.modal.motion)))
  {
    var b, base := NewBlock(st, false), st.modal.motion;
    var words := [ValueWord('X', 0.0)] + ([ValueWord('Z', 1.0)] + ([ValueWord('R', 1.0)] + ([ValueWord('F', 100.0)] + [])));
    assert RISING_ARC == [GWord(91.0)] + ([GWord(2.0)] + words);
    assert IsCommand(GWord(91.0)) && IsCommand(GWord(2.0));
    assert forall w <- line.words :: w.letter != 'O';
    Codes(m);
    Empty(st, false);
    RisingStarts(b, base);
    var b1 := After(b, base, G91);
    var b2 := RisingStart(b, base);
    assert b2 == After(b1, base, G2_0);
    hide *;
    ReadsC(m, base, b, GWord(91.0), [GWord(2.0)] + words, G91);
    ReadsC(m, base, b1, GWord(2.0), words, G2_0);
    RisingEndRead(m, base, b2);
    ReadsAll(m, st, line, RisingEnd(b2));
  }

  lemma RisingIs(st: State, b: Block)
    requires Cold(st) && b == RisingEnd(RisingStart(NewBlock(st, false), Seek))
    ensures Simple(b) && !b.jog && b.modal == st.modal.(incremental := true, motion := CwArc, canned := false)
            && b.axisCmd.MotionCmd?
    ensures b.words == {'X', 'Z', 'R', 'F'} && b.axisWords == Axes(true, false, true) && b.nonModal.NoAction?
            && b.groups == {G1, G3}
    ensures b.values.xyz == Vec(0.0, 0.0, 1.0) && b.values.r == 1.0 && b.values.f == 100.0 && Curves.ByRadius(b)
            && ImpliedCmd(b).MotionCmd?
  {
    hide RisingEnd, RisingStart, NewBlock;
    Empty(st, false);
    RisingStarts(NewBlock(st, false), Seek);
    RisingEnds(RisingStart(NewBlock(st, false), Seek));
  }

  lemma RisingPlaced(st: State, b: Block)
    requires Cold(st) && b.modal.incremental && b.axisWords == Axes(true, false, true) && b.nonModal.NoAction?
             && b.axisCmd.MotionCmd?
    requires b.values.xyz == Vec(0.0, 0.0, 1.0) && !b.modal.imperial
    ensures Placed(Fresh(st, b)) == Vec(0.0, 0.0, 1.0)
  {
  }

  /** A radius arc that does not come to a stop uses up its R. */
  lemma RadiusGoes(m: Machine, w: Work)
    requires w.st.position != w.b.values.xyz && Curves.Chord(w) == Planar(0.0, 0.0)
    ensures CheckRadiusArc(m, w).Go? && CheckRadiusArc(m, w).w.b.words == w.b.words - {'R'}
  {
    var r := ProgrammedRadius(w);
    Curves.SquaresAdd(r, 0.0, r * r, 0.0);
    assert PlaneOf(w.b.modal.plane, w.b.values.xyz.Minus(w.st.position)) == Planar(0.0, 0.0);
    hide ProgrammedRadius, RadiusCentre, Vec.Put, PlaneOf, Vec.Minus;
  }

  lemma RisingArc(m: Machine, w: Work)
    requires Atomicity.CutsOrProbes(w.b) && w.b.axisCmd.MotionCmd? && w.b.values.f != 0.0 && w.b.modal.motion.CwArc?
             && !w.b.modal.canned
    requires w.b.words == {'X', 'Z', 'R', 'F'} && w.b.modal.plane.XY?
    requires w.b.axisWords == Axes(true, false, true) && w.st.position == ORIGIN && w.b.values.xyz == Vec(0.0, 0.0, 1.0)
    ensures CheckMotion(m, w).Go? && CheckMotion(m, w).w.b.words == {'X', 'Z', 'F'}
  {
    ForgetIs(w);
    var w1 := ForgetRetract(w);
    var w2 := SetTurns(w1, 1);
    RadiusGoes(m, w2);
    assert CheckTurns(w1) == Go(w2);
    assert CheckArc(m, w1) == CheckRadiusArc(m, w2);
    hide CheckArc, CheckRadiusArc, ForgetRetract, SetTurns, CheckTurns;
    assert CheckMotion(m, w) == CheckArc(m, w1);
  }

  lemma RisingMotion(m: Machine, st: State, b: Block)
    requires AxesPass(m, st, b) && ScanFacts.Covered(b) && Cold(st) && b == RisingEnd(RisingStart(NewBlock(st, false), Seek))
    ensures var o := CheckMotion(m, AtMotion(m, st, b)); o.Go? && o.w.b.words == {'X', 'Z', 'F'} && o.w.b.axisCmd.MotionCmd?
  {
    RisingIs(st, b);
    RisingPlaced(st, b);
    MotionBlock(m, st, b);
    CycleLetters(b);
    var w := AtMotion(m, st, b);
    assert st.position == ORIGIN && FeedOf(st, b) == 100.0;
    assert w.b.words == {'X', 'Z', 'R', 'F'};
    assert b.words == w.b.words && Atomicity.CutsOrProbes(w.b);
    hide *;
    RisingArc(m, w);
    Curves.MotionIsArc(m, w);
    ForgetIs(w);
    Quirks.ArcKeepsCmd(m, ForgetRetract(w));
  }

  lemma RisingPasses(m: Machine, st: State, b: Block)
    requires Cold(st) && b == RisingEnd(RisingStart(NewBlock(st, false), Seek))
    ensures Validate(m, st, b).Go? && Curves.ByRadius(b) && Placed(Fresh(st, b)) == Vec(0.0, 0.0, 1.0) && b.modal.plane.XY?
  {
    RisingIs(st, b);
    RisingPlaced(st, b);
    assert Cold(st) ==> st.modal.feedMode.UnitsPerMin? && st.modal.plane.XY?;
    assert ScanFacts.Covered(b);
    hide *;
    SimpleWordsPass(m, st, b);
    PlainAxesPass(m, st, b);
    RisingMotion(m, st, b);
    NothingUnused(CheckMotion(m, AtMotion(m, st, b)).w);
    PassesOn(m, st, b);
  }

  /** G91 G2 X0 Z1 R1 F100 after a cold start: carried out, as an arc whose centre is not on any circle through its ends. */
  lemma RisingArcIsAccepted(m: Machine, start: State, env: Env)
    requires Curves.ExactRoots(m)
    ensures var st, line := ColdInit(m, start), Line(false, RISING_ARC, env);
            var events := Execute(m, st, line).events;
            && Accepted(m, st, line) && |events| > 0
            && var e := events[|events| - 1];
               e.ArcMove? && Curves.Degenerate(PlaneOf(e.plane, e.target.Minus(e.start)), PlaneOf(e.plane, e.offset))
  {
    var st, line := ColdInit(m, start), Line(false, RISING_ARC, env);
    assert |RISING_ARC| == 6;
    ColdIs(m, start);
    assert Cold(st) ==> st.modal.motion.Seek? && st.position == ORIGIN;
    assert PlaneOf(XY, Vec(0.0, 0.0, 1.0)) == PlaneOf(XY, ORIGIN);
    hide *;
    RisingRead(m, st, line);
    RisingPasses(m, st, RisingEnd(RisingStart(NewBlock(st, false), Seek)));
    BlockIsAccepted(m, st, line);
    Curves.DegenerateIff(m, st, line);
  }

  // ---------------------------------------------------------------- a quadratic spline with J0

  const BEND: seq<Word> := [GWord(5.1), ValueWord('X', 1.0), ValueWord('I', 1.0), ValueWord('J', 0.0), ValueWord('F', 100.0)]

  function BendEnd(b: Block): Block {
    PutWord(PutWord(PutWord(PutWord(b, 'X', 1.0), 'I', 1.0), 'J', 0.0), 'F', 100.0)
  }

  function BendBlock(b: Block, base: Motion): Block {
    BendEnd(After(b, base, G5_1))
  }

  lemma BendBegun(b: Block, base: Motion)
    requires b.groups == {} && b.axisCmd.NoAxisCmd?
    ensures Admits(b, G5_1)
    ensures After(b, base, G5_1)
            == b.(modal := b.modal.(motion := QuadraticSpline, canned := false), groups := {G1}, axisCmd := MotionCmd)
  {
  }

  lemma BendEnds(b: Block)
    requires b.words == {}
    ensures var b1 := PutWord(b, 'X', 1.0);
            var b2 := PutWord(b1, 'I', 1.0);
            b1.words == {'X'} && b2.words == {'X', 'I'} && PutWord(b2, 'J', 0.0).words == {'X', 'I', 'J'}
    ensures var c := BendEnd(b);
            && c.words == {'X', 'I', 'J', 'F'} && c.axisWords == b.axisWords.(x := true)
            && c.values.ijk == b.values.ijk.(x := 1.0, y := 0.0)
            && c.values.f == 100.0 && c.modal == b.modal && c.groups == b.groups && c.axisCmd == b.axisCmd && c.jog == b.jog
            && c.nonModal == b.nonModal && c.setTool == b.setTool
  {
  }

  lemma BendEndRead(m: Machine, base: Motion, b: Block)
    requires b.words == {}
    ensures TakeAll(m, base, b, [ValueWord('X', 1.0)] + ([ValueWord('I', 1.0)] + ([ValueWord('J', 0.0)] + ([ValueWord('F', 100.0)] + [])))) == TakeAll(m, base, BendEnd(b), [])
  {
    assert 'X' !in POSITIVE_ONLY && 'I' !in POSITIVE_ONLY && 'J' !in POSITIVE_ONLY;
    BendEnds(b);
    var b1 := PutWord(b, 'X', 1.0);
    var b2 := PutWord(b1, 'I', 1.0);
    var b3 := PutWord(b2, 'J', 0.0);
    assert BendEnd(b) == PutWord(b3, 'F', 100.0);
    hide *;
    ReadsV(m, base, b, 'X', 1.0, [ValueWord('I', 1.0)] + ([ValueWord('J', 0.0)] + ([ValueWord('F', 100.0)] + [])));
    ReadsV(m, base, b1, 'I', 1.0, [ValueWord('J', 0.0)] + ([ValueWord('F', 100.0)] + []));
    ReadsV(m, base, b2, 'J', 0.0, [ValueWord('F', 100.0)] + []);
    ReadsV(m, base, b3, 'F', 100.0, []);
  }

  lemma BendRead(m: Machine, st: State, line: Line)
    requires line.words == BEND && !line.jog
    ensures ScanLine(m, st, line) == Accept(BendBlock(NewBlock(st, false), st.modal.motion))
  {
    var b, base := NewBlock(st, false), st.modal.motion;
    var words := [ValueWord('X', 1.0)] + ([ValueWord('I', 1.0)] + ([ValueWord('J', 0.0)] + ([ValueWord('F', 100.0)] + [])));
    assert BEND == [GWord(5.1)] + words;
    assert IsCommand(GWord(5.1));
    assert forall w <- line.words :: w.letter != 'O';
    Codes(m);
    Empty(st, false);
    BendBegun(b, base);
    var b1 := After(b, base, G5_1);
    assert BendBlock(b, base) == BendEnd(b1);
    hide *;
    ReadsC(m, base, b, GWord(5.1), words, G5_1);
    BendEndRead(m, base, b1);
    ReadsAll(m, st, line, BendBlock(b, base));
  }

  lemma QuadraticGoes(m: Machine, w: Work)
    requires w.b.axisCmd.MotionCmd? && w.b.modal.motion.QuadraticSpline? && !w.b.modal.canned && w.b.values.f != 0.0
    requires w.b.modal.plane.XY? && !w.b.axisWords.z && 'I' in w.b.words && 'J' in w.b.words && w.b.values.ijk.x != 0.0
    ensures CheckMotion(m, w).Go? && CheckMotion(m, w).w.b.words == w.b.words - {'I', 'J'}
            && CheckMotion(m, w).w.b.axisCmd.MotionCmd?
  {
    hide SplineOffset;
  }

  lemma BendPasses(m: Machine, st: State, b: Block)
    requires Cold(st) && b == BendBlock(NewBlock(st, false), Seek)
    ensures Validate(m, st, b).Go?
  {
    hide NewBlock, AtMotion, Placed, SelectedCoord, PLeft, WordsUsed, Validate, CheckMotion, CheckUnused, WordsPass,
         AxesPass, Millimetres;
    Empty(st, false);
    BendBegun(NewBlock(st, false), Seek);
    BendEnds(After(NewBlock(st, false), Seek, G5_1));
    assert b == BendEnd(After(NewBlock(st, false), Seek, G5_1));
    hide After, BendEnd;
    SimpleWordsPass(m, st, b);
    PlainAxesPass(m, st, b);
    MotionBlock(m, st, b);
    CycleLetters(b);
    QuadraticGoes(m, AtMotion(m, st, b));
    NothingUnused(CheckMotion(m, AtMotion(m, st, b)).w);
    PassesOn(m, st, b);
  }

  /** G5.1 X1 I1 J0 F100 after a cold start: carried out. */
  lemma BendIsAccepted(m: Machine, start: State, env: Env)
    ensures Accepted(m, ColdInit(m, start), Line(false, BEND, env))
  {
    var st, line := ColdInit(m, start), Line(false, BEND, env);
    assert |BEND| == 5;
    ColdIs(m, start);
    assert Cold(st) ==> st.modal.motion.Seek?;
    hide *;
    BendRead(m, st, line);
    BendPasses(m, st, BendBlock(NewBlock(st, false), Seek));
    BlockIsAccepted(m, st, line);
  }

  // ---------------------------------------------------------------- an O word

  function OBlock(b: Block): Block {
    PutWord(PutWord(b, 'X', 1.0), 'O', 10.0)
  }

  lemma OBlockIs(b: Block)
    requires b.words == {} && b.axisCmd.NoAxisCmd?
    ensures var c := OBlock(b);
            && c.words == {'X', 'O'} && c.axisWords == b.axisWords.(x := true) && c.modal == b.modal && c.groups == b.groups
            && c.axisCmd == b.axisCmd && c.jog == b.jog && c.nonModal == b.nonModal && c.setTool == b.setTool
  {
  }

  lemma SeekGoes(m: Machine, w: Work)
    requires w.b.axisCmd.MotionCmd? && w.b.modal.motion.Seek? && w.b.axisWords.Any()
    ensures CheckMotion(m, w) == Go(w)
  {
  }

  lemma OStops(m: Machine, st: State, b: Block)
    requires st.modal.motion.Seek? && st.modal.feedMode.UnitsPerMin? && b == OBlock(NewBlock(st, false))
    ensures Validate(m, st, b) == Stop(UnusedWords, st)
  {
    hide OBlock, NewBlock, AtMotion, Placed, SelectedCoord, PLeft, WordsUsed, Validate, CheckMotion, CheckUnused, WordsPass,
         AxesPass, Millimetres;
    Empty(st, false);
    OBlockIs(NewBlock(st, false));
    SimpleWordsPass(m, st, b);
    PlainAxesPass(m, st, b);
    MotionBlock(m, st, b);
    ForeignIsLeft(b, 'O');
    var w := AtMotion(m, st, b);
    SeekGoes(m, w);
    UnusedStops(w, 'O');
    PassesOn(m, st, b);
  }

  /** X1 O10 in inches after a cold start is refused for its unused O; translated to X25.4 O10 it is refused for the
      fraction in front of the O. */
  lemma NeighbourOfO(m: Machine, start: State, env: Env)
    ensures var cold := ColdInit(m, start);
            var st := cold.(modal := cold.modal.(imperial := true));
            var line := Line(false, [ValueWord('X', 1.0), ValueWord('O', 10.0)], env);
            && Execute(m, st, line) == Executed(UnusedWords, st, [])
            && Units.TranslateLine(m, st, line).words == [ValueWord('X', 25.4), ValueWord('O', 10.0)]
            && Execute(m, Units.MetricState(st), Units.TranslateLine(m, st, line))
               == Executed(CommandValueNotInteger, Units.MetricState(st), [])
  {
    var cold := ColdInit(m, start);
    var st := cold.(modal := cold.modal.(imperial := true));
    var line := Line(false, [ValueWord('X', 1.0), ValueWord('O', 10.0)], env);
    ColdIs(m, start);
    assert Cold(cold) ==> st.modal.motion.Seek? && st.modal.feedMode.UnitsPerMin?;
    assert Mantissa(1.0) == 0 && Mantissa(25.4) == 40;
    assert OBlock(NewBlock(st, false)) == PutWord(PutWord(NewBlock(st, false), 'X', 1.0), 'O', 10.0);
    hide ColdInit, Cold, Mantissa, ScanLine, Validate, OBlock, NewBlock, PutWord, Units.TranslateLine, Commit, CommitJog;
    Units.XAndO(m, st, line, 1.0);
    Units.XAndOTranslate(m, st, env);
    Units.XAndO(m, Units.MetricState(st), Units.TranslateLine(m, st, line), 25.4);
    OStops(m, st, OBlock(NewBlock(st, false)));
  }

  // ---------------------------------------------------------------- motions that do not happen

  /** G85 Z-1 R1 F100 after a cold start: carried out without a motion, and the parser takes the tool to be in the hole. */
  lemma BoringStandsStill(m: Machine, start: State, env: Env)
    ensures var st, line := ColdInit(m, start), Line(false, RefusedCases.DrillLine(85.0, -1.0, 1.0), env);
            var e := Execute(m, st, line);
            && Accepted(m, st, line) && (forall x <- e.events :: x.Pause?)
            && e.st.position == Vec(0.0, 0.0, -1.0 + st.store[0].z + st.g92.z)
  {
    hide *;
    ColdIs(m, start);
    G85Line(m, ColdInit(m, start), Line(false, RefusedCases.DrillLine(85.0, -1.0, 1.0), env));
  }

  lemma G85Line(m: Machine, st: State, line: Line)
    requires Cold(st) && line.words == RefusedCases.DrillLine(85.0, -1.0, 1.0) && !line.jog
    ensures var e := Execute(m, st, line);
            && Accepted(m, st, line) && (forall x <- e.events :: x.Pause?)
            && e.st.position == Vec(0.0, 0.0, -1.0 + st.store[0].z + st.g92.z)
  {
    var b := RefusedCases.DrillBlock(NewBlock(st, false), Seek, Canned85, -1.0, 1.0);
    assert Quirks.Boring(Canned85);
    hide *;
    DrillAxes(st, b, Canned85, -1.0, 1.0);
    MoreCodes(m);
    RefusedCases.DrillIsAccepted(m, st, line, 85.0, Canned85, -1.0, 1.0);
    RefusedCases.DrillReached(m, st, b, Canned85, -1.0, 1.0);
    BoringLine(m, st, line, b);
  }

  lemma BoringLine(m: Machine, st: State, line: Line, b: Block)
    requires Accepted(m, st, line) && !line.jog && ScanLine(m, st, line) == Accept(b)
    requires ImpliedCmd(b).MotionCmd? && b.axisWords.Any() && Quirks.Boring(b.modal.motion)
    ensures var e := Execute(m, st, line); (forall x <- e.events :: x.Pause?) && e.st.position == Placed(Fresh(st, b))
  {
    hide *;
    Quirks.OnlyBoringStandsStill(m, st, line);
  }

  lemma DrillAxes(st: State, b: Block, motion: Motion, z: real, r: real)
    requires Cold(st) && b == RefusedCases.DrillBlock(NewBlock(st, false), Seek, motion, z, r) && motion != Seek
    ensures ImpliedCmd(b).MotionCmd? && b.axisWords.Any() && b.modal.motion == motion
  {
    hide RefusedCases.DrillBlock, NewBlock;
    Empty(st, false);
    RefusedCases.DrillBlockIs(NewBlock(st, false), Seek, motion, z, r);
  }

  /** $J=F100 with the tool anywhere: if the limits let it, it goes to the origin of the machine. */
  lemma BareJogGoesHome(m: Machine, start: State, position: Vec, env: Env)
    requires m.JogEnd(ORIGIN, position) == Some(ORIGIN)
    ensures var st := ColdInit(m, start).(position := position);
            var e := Execute(m, st, Line(true, [ValueWord('F', 100.0)], env));
            e.status == Ok && e.st.position == ORIGIN && exists plan :: e.events == [Jog(ORIGIN, plan)]
  {
    var st := ColdInit(m, start).(position := position);
    var line := Line(true, [ValueWord('F', 100.0)], env);
    var b := PutWord(NewBlock(st, true), 'F', 100.0);
    ColdIs(m, start);
    BareJogIs(st, b);
    assert ColdInit(m, start).modal == st.modal;
    BareJogRead(m, st, line);
    hide *;
    BareJogPasses(m, st, b);
    ScanFacts.LineReads(m, st, line);
    var w := Validate(m, st, b).w;
    NowReaches(m, st, line, w);
    ReachedCoord(m, st, line, w);
    EarlyIsCached(st, b, w.st);
    WorkPositions.LinePlaced(m, st, line, w);
    Quirks.JogBlock(st, b);
    JogSucceeds(m, w);
    JogRuns(m, st, line, w);
  }

  lemma BareJogIs(st: State, b: Block)
    requires b == PutWord(NewBlock(st, true), 'F', 100.0)
    ensures b.words == {'F'} && b.groups == {} && b.axisCmd.NoAxisCmd? && !b.axisWords.Any() && b.nonModal.NoAction? && b.jog
    ensures !b.setTool && b.modal == st.modal.(motion := Linear, feedMode := UnitsPerMin)
  {
  }

  lemma BareJogRead(m: Machine, st: State, line: Line)
    requires line.words == [ValueWord('F', 100.0)] && line.jog
    ensures ScanLine(m, st, line) == Accept(PutWord(NewBlock(st, true), 'F', 100.0))
  {
    var b, base := NewBlock(st, true), st.modal.motion;
    assert [ValueWord('F', 100.0)] == [ValueWord('F', 100.0)] + [];
    assert forall w <- line.words :: w.letter != 'O';
    Empty(st, true);
    hide *;
    ReadsV(m, base, b, 'F', 100.0, []);
    ReadsAll(m, st, line, PutWord(b, 'F', 100.0));
  }

  lemma BareJogPasses(m: Machine, st: State, b: Block)
    requires b.words == {'F'} && b.groups == {} && b.axisCmd.NoAxisCmd? && !b.axisWords.Any() && b.nonModal.NoAction? && b.jog
    requires !b.setTool && b.modal == st.modal.(motion := Linear, feedMode := UnitsPerMin)
    ensures Validate(m, st, b).Go?
  {
    hide WordsPass, AxesPass, Validate;
    SimpleWordsPass(m, st, b);
    PlainAxesPass(m, st, b);
    QuietPasses(m, st, b);
  }

  lemma NowReaches(m: Machine, st: State, line: Line, w: Work)
    requires (line.words != [] || line.jog) && ScanLine(m, st, line).Accept? && Validate(m, st, ScanLine(m, st, line).value) == Go(w)
    ensures Reaches(m, st, line, w)
  {
  }

  lemma JogSucceeds(m: Machine, w: Work)
    requires w.b.groups == {} && w.b.nonModal.NoAction? && m.JogEnd(w.b.values.xyz, w.st.position) == Some(ORIGIN)
    ensures var e := CommitJog(m, w); e.status == Ok && e.st.position == ORIGIN && exists plan :: e.events == [Jog(ORIGIN, plan)]
  {
  }

  lemma JogRuns(m: Machine, st: State, line: Line, w: Work)
    requires Reaches(m, st, line, w) && w.b.jog && ScanLine(m, st, line).value.jog
    ensures Execute(m, st, line) == CommitJog(m, w)
  {
    hide ScanLine, Validate, CommitJog;
  }

  // ---------------------------------------------------------------- ends that are none

  lemma BareEndIs(b: Block, base: Motion)
    requires b.groups == {}
    ensures Admits(b, M2) && After(b, base, M2) == b.(flow := CompletedM2, groups := {M4})
  {
  }

  lemma BareEndRead(m: Machine, st: State, line: Line)
    requires line.words == [MWord(2.0)] && !line.jog
    ensures ScanLine(m, st, line) == Accept(After(NewBlock(st, false), st.modal.motion, M2))
  {
    var b, base := NewBlock(st, false), st.modal.motion;
    assert [MWord(2.0)] == [MWord(2.0)] + [];
    assert IsCommand(MWord(2.0));
    assert forall w <- line.words :: w.letter != 'O';
    Codes(m);
    Empty(st, false);
    BareEndIs(b, base);
    hide *;
    ReadsC(m, base, b, MWord(2.0), [], M2);
    ReadsAll(m, st, line, After(b, base, M2));
  }

  lemma BareEndPasses(m: Machine, st: State, b: Block)
    requires b == After(NewBlock(st, false), st.modal.motion, M2) && st.modal.feedMode.UnitsPerMin? && !st.modal.motion.NoMotion?
    requires !st.modal.motion.SpindleSync?
    ensures Validate(m, st, b).Go? && b.flow.CompletedM2? && b.modal == st.modal
  {
    hide WordsPass, AxesPass, NewBlock, Validate, After;
    Empty(st, false);
    BareEndIs(NewBlock(st, false), st.modal.motion);
    SimpleWordsPass(m, st, b);
    PlainAxesPass(m, st, b);
    QuietPasses(m, st, b);
  }

  lemma EndsNow(b: Block, env: Env)
    requires b.flow.CompletedM2?
    ensures EndsWith(b, env) <==> !env.singleBlock
  {
  }

  /** G81 Z-1 R1 F100 after a cold start, and then M2: G1 is the motion again, and the cycle is still active. */
  lemma CycleOutlivesProgram(m: Machine, start: State, env: Env, env1: Env)
    requires !env1.singleBlock
    ensures var drill, end := Line(false, RefusedCases.DrillLine(81.0, -1.0, 1.0), env), Line(false, [MWord(2.0)], env1);
            var tt := Execute(m, ColdInit(m, start), drill).st;
            && Accepted(m, ColdInit(m, start), drill) && Accepted(m, tt, end)
            && Execute(m, tt, end).st.modal.motion.Linear? && Execute(m, tt, end).st.modal.canned
  {
    hide *;
    var drill, end := Line(false, RefusedCases.DrillLine(81.0, -1.0, 1.0), env), Line(false, [MWord(2.0)], env1);
    ColdIs(m, start);
    Codes(m);
    RefusedCases.DrillIsAccepted(m, ColdInit(m, start), drill, 81.0, Canned81, -1.0, 1.0);
    var tt := Execute(m, ColdInit(m, start), drill).st;
    BareEndRead(m, tt, end);
    var b := After(NewBlock(tt, false), tt.modal.motion, M2);
    BareEndPasses(m, tt, b);
    BlockIsAccepted(m, tt, end);
    EndsNow(b, env1);
    Quirks.EndKeepsCycle(m, tt, end);
  }

  /** G55 M2 in single-block mode after a cold start: carried out, and neither the motion mode nor the system is reset. */
  lemma SingleBlockGoesOn(m: Machine, start: State, env: Env)
    requires env.singleBlock
    ensures var st, line := ColdInit(m, start), Line(false, SELECT_AND_END, env);
            Accepted(m, st, line) && Execute(m, st, line).st.modal.motion.Seek? && Execute(m, st, line).st.modal.coord.id == 1
  {
    var st, line := ColdInit(m, start), Line(false, SELECT_AND_END, env);
    assert |SELECT_AND_END| == 2;
    ColdIs(m, start);
    assert Cold(st) ==> st.modal.motion.Seek? && st.modal.coord.id == 0;
    hide *;
    EndRead(m, st, line);
    var b := EndBlock(NewBlock(st, false), Seek);
    EndPasses(m, st, b);
    BlockIsAccepted(m, st, line);
    EndsNow(b, env);
    EndIsQuiet(st, b);
    SelectsNow(m, st, line, b);
    ColdStartCached(m, start);
    WorkPositions.SelectionReads(m, st, line, 1);
    RunsBlock(m, st, line);
    ExecutedModes(m, st, b, env);
  }

  lemma EndIsQuiet(st: State, b: Block)
    requires b == EndBlock(NewBlock(st, false), Seek) && Cold(st)
    ensures !ImpliedCmd(b).MotionCmd? && G8 !in b.groups && b.nonModal.NoAction? && b.modal.coord.id == 1 && b.modal.motion.Seek? && !b.jog
  {
    hide NewBlock, EndBlock;
    Empty(st, false);
    EndBlockIs(NewBlock(st, false), Seek);
  }

  lemma SelectsNow(m: Machine, st: State, line: Line, b: Block)
    requires Accepted(m, st, line) && !line.jog && ScanLine(m, st, line) == Accept(b)
    requires !ImpliedCmd(b).MotionCmd? && G8 !in b.groups && b.nonModal.NoAction? && !EndsWith(b, line.env)
    ensures WorkPositions.Selects(m, st, line, b.modal.coord.id)
  {
  }

  lemma RunsBlock(m: Machine, st: State, line: Line)
    requires line.words != [] && ScanLine(m, st, line).Accept?
    ensures Execute(m, st, line) == ExecuteBlock(m, st, ScanLine(m, st, line).value, line.env)
  {
    hide ScanLine, ExecuteBlock;
  }

  // ---------------------------------------------------------------- G10 beside an override

  const DATA_AND_OVERRIDE: seq<Word> := [GWord(55.0), GWord(10.0), ValueWord('L', 2.0), ValueWord('X', 5.0), MWord(48.0)]

  function DataStart(b: Block, base: Motion): Block {
    After(After(b, base, G55), base, G10_0)
  }

  function DataBlock(b: Block, base: Motion): Block {
    After(PutWord(PutWord(DataStart(b, base), 'L', 2.0), 'X', 5.0), base, M48)
  }

  lemma DataStarts(b: Block, base: Motion)
    requires b.groups == {} && b.axisCmd.NoAxisCmd?
    ensures Admits(b, G55) && Admits(After(b, base, G55), G10_0)
    ensures DataStart(b, base)
            == b.(modal := b.modal.(coord := b.modal.coord.(id := 1)), nonModal := SetCoordinateData, groups := {G12, G0},
                  axisCmd := NonModalCmd)
  {
  }

  lemma DataEnds(b: Block, base: Motion)
    requires b.groups == {G12, G0} && b.words == {}
    ensures var b1 := PutWord(b, 'L', 2.0);
            var b2 := PutWord(b1, 'X', 5.0);
            b1.words == {'L'} && b2.words == {'L', 'X'} && Admits(b2, M48)
            && var c := After(b2, base, M48);
            && c.words == {'L', 'X'} && c.groups == {G12, G0, M9} && c.axisWords == b.axisWords.(x := true) && c.modal == b.modal
            && c.values == b.values.(l := 2, xyz := b.values.xyz.(x := 5.0)) && c.axisCmd == b.axisCmd && c.nonModal == b.nonModal
            && c.setTool == b.setTool && c.jog == b.jog && c.flow == b.flow && c.overrideCmd.FeedSpeedEnable?
  {
    assert IntPart(2.0) == 2;
    hide IntPart;
  }

  lemma DataRead(m: Machine, st: State, line: Line)
    requires line.words == DATA_AND_OVERRIDE && !line.jog
    ensures ScanLine(m, st, line) == Accept(DataBlock(NewBlock(st, false), st.modal.motion))
  {
    var b, base := NewBlock(st, false), st.modal.motion;
    var words := [ValueWord('L', 2.0)] + ([ValueWord('X', 5.0)] + ([MWord(48.0)] + []));
    assert DATA_AND_OVERRIDE == [GWord(55.0)] + ([GWord(10.0)] + words);
    assert IsCommand(GWord(55.0)) && IsCommand(GWord(10.0)) && IsCommand(MWord(48.0)) && 'X' !in POSITIVE_ONLY && 'L' !in POSITIVE_ONLY;
    assert forall w <- line.words :: w.letter != 'O';
    Codes(m);
    MoreCodes(m);
    Empty(st, false);
    DataStarts(b, base);
    var b1 := After(b, base, G55);
    var b2 := DataStart(b, base);
    assert b2 == After(b1, base, G10_0);
    DataEnds(b2, base);
    var b3 := PutWord(b2, 'L', 2.0);
    var b4 := PutWord(b3, 'X', 5.0);
    assert DataBlock(b, base) == After(b4, base, M48);
    hide *;
    ReadsC(m, base, b, GWord(55.0), [GWord(10.0)] + words, G55);
    ReadsC(m, base, b1, GWord(10.0), words, G10_0);
    ReadsV(m, base, b2, 'L', 2.0, [ValueWord('X', 5.0)] + ([MWord(48.0)] + []));
    ReadsV(m, base, b3, 'X', 5.0, [MWord(48.0)] + []);
    ReadsC(m, base, b4, MWord(48.0), [], M48);
    ReadsAll(m, st, line, DataBlock(b, base));
  }

  lemma DataIs(st: State, b: Block)
    requires Cold(st) && b == DataBlock(NewBlock(st, false), Seek)
    ensures b.words == {'L', 'X'} && b.groups == {G12, G0, M9} && b.axisWords == Axes(true, false, false) && b.axisCmd.NonModalCmd?
    ensures b.nonModal.SetCoordinateData? && !b.setTool && !b.jog && b.flow.Running?
    ensures b.modal == st.modal.(coord := b.modal.coord) && b.modal.coord.id == 1 && b.values.l == 2 && b.values.xyz == Vec(5.0, 0.0, 0.0)
  {
    hide NewBlock, DataStart;
    Empty(st, false);
    DataStarts(NewBlock(st, false), Seek);
    DataEnds(DataStart(NewBlock(st, false), Seek), Seek);
  }

  /** What G10 L2 needs to pass. */
  lemma DataGoes(m: Machine, w: Work)
    requires w.b.nonModal.SetCoordinateData? && w.b.axisWords.Any() && 'L' in w.b.words && 'R' !in w.b.words
    requires w.b.values.l == 2 || w.b.values.l == 20
    requires w.b.values.p == 1.0
    ensures CheckNonModal(m, w).Go? && CheckNonModal(m, w).w.b.words == w.b.words - {'L', 'P'}
    ensures CheckNonModal(m, w).w.b.axisCmd == w.b.axisCmd
  {
    assert ToUint32(1.0) == 1;
    hide ToUint32, WrittenData;
  }

  lemma DataAxes(m: Machine, w: Work)
    requires w.b.nonModal.SetCoordinateData? && w.b.axisWords.Any() && 'L' in w.b.words && 'R' !in w.b.words
    requires w.b.values.l == 2 || w.b.values.l == 20
    requires w.b.values.p == 1.0 && w.b.axisCmd.NonModalCmd? && !w.b.modal.toolMode.DynamicTlo?
    ensures CheckAxes(m, w).Go? && CheckAxes(m, w).w.b.words == w.b.words - {'L', 'P'}
    ensures CheckAxes(m, w).w.b.axisCmd.NonModalCmd? && Asked(CheckAxes(m, w).w.b) == Asked(w.b)
  {
    hide ConvertUnits, ScaleAxes, CheckNonModal, SelectCoord, Asked, Millimetres;
    AxesKeep(m, w);
    ConvertKeeps(w);
    var w0 := ConvertUnits(w);
    ScaleAxesUses(w);
    ScalingKeeps(w0);
    ScaleAxesKeeps(w0);
    ScaleAxesUses(w0);
    var w2 := ScaleAxes(w0);
    SelectKeeps(w2);
    ScaleAxesUses(w2);
    AskedMeans(w0.b, w.b);
    AskedMeans(w2.b, w.b);
    AskedMeans(SelectCoord(w2).b, w.b);
    DataGoes(m, SelectCoord(w2));
  }

  /** What is left of it behind the word checks. */
  lemma DataWords(m: Machine, st: State, b: Block)
    requires Cold(st) && b == DataBlock(NewBlock(st, false), Seek)
    ensures var o := CheckWords(m, Fresh(st, b));
            && o.Go? && Asked(o.w.b) == Asked(b) && o.w.b.words == {'L', 'X'} && o.w.b.values.p == 1.0 && o.w.b.values.l == 2
            && o.w.b.axisWords.Any() && o.w.b.axisCmd.NonModalCmd?
  {
    DataIs(st, b);
    SimpleWordsPass(m, st, b);
    WordsGoOn(m, st, b);
    assert WordsUsed(b) == {'P'} && PLeft(b) == 1.0;
    hide CheckWords, WordsUsed, PLeft, FeedOf, DataBlock, NewBlock, Asked, WordsPass;
    WordsKeep(m, Fresh(st, b));
    WordsUse(m, Fresh(st, b));
    WordsLeaveP(m, Fresh(st, b));
  }

  lemma DataPasses(m: Machine, st: State, b: Block)
    requires Cold(st) && b == DataBlock(NewBlock(st, false), Seek)
    ensures Validate(m, st, b).Go?
  {
    DataIs(st, b);
    DataWords(m, st, b);
    var w1 := CheckWords(m, Fresh(st, b)).w;
    hide CheckWords, CheckAxes, CheckMotion, CheckUnused, DataBlock, NewBlock, Asked;
    AskedMeans(w1.b, b);
    DataAxes(m, w1);
    var w2 := CheckAxes(m, w1).w;
    AskedMeans(w2.b, w1.b);
    NoMotionGoes(m, w2);
    NothingUnused(w2);
  }

  lemma DataMeans(st: State, b: Block)
    requires Cold(st) && b == DataBlock(NewBlock(st, false), Seek)
    ensures G10Data(st, b).x == 5.0 && b.nonModal.SetCoordinateData? && M9 in b.groups && 'P' !in b.words
    ensures st.modal.motion.Seek? && DATA_AND_OVERRIDE != []
  {
    DataIs(st, b);
    hide NewBlock, DataBlock;
  }

  /** G55 G10 L2 X5 M48 after a cold start: carried out with G55 active, and it is G54 that gets the 5. */
  lemma OverrideWritesG54(m: Machine, start: State, env: Env)
    ensures var st, line := ColdInit(m, start), Line(false, DATA_AND_OVERRIDE, env);
            var e := Execute(m, st, line);
            && Accepted(m, st, line) && e.st.store[0].x == 5.0 && e.st.store[1] == start.store[1]
  {
    hide *;
    ColdIs(m, start);
    DataLine(m, ColdInit(m, start), Line(false, DATA_AND_OVERRIDE, env));
  }

  lemma DataLine(m: Machine, st: State, line: Line)
    requires Cold(st) && line.words == DATA_AND_OVERRIDE && !line.jog
    ensures Accepted(m, st, line) && Execute(m, st, line).st.store[0].x == 5.0 && Execute(m, st, line).st.store[1] == st.store[1]
  {
    var b := DataBlock(NewBlock(st, false), Seek);
    hide *;
    DataMeans(st, b);
    DataRead(m, st, line);
    DataPasses(m, st, b);
    BlockIsAccepted(m, st, line);
    TwoSystems(m, st, line, b);
  }

  lemma TwoSystems(m: Machine, st: State, line: Line, b: Block)
    requires Accepted(m, st, line) && !line.jog && ScanLine(m, st, line) == Accept(b)
    requires b.nonModal.SetCoordinateData? && M9 in b.groups && 'P' !in b.words
    ensures var e := Execute(m, st, line); e.st.store[0] == G10Data(st, b) && e.st.store[1] == st.store[1]
  {
    hide *;
    Quirks.OverrideRedirectsG10(m, st, line);
  }

  // ---------------------------------------------------------------- G10 L20 beside G49

  const L20_AND_CANCEL: seq<Word> := [GWord(10.0), ValueWord('L', 20.0), ValueWord('P', 1.0), ValueWord('X', 1.0), GWord(49.0)]

  function L20Values(b: Block): Block {
    PutWord(PutWord(PutWord(b, 'L', 20.0), 'P', 1.0), 'X', 1.0)
  }

  function L20Block(b: Block, base: Motion): Block {
    After(L20Values(After(b, base, G10_0)), base, G49)
  }

  lemma L20Starts(b: Block, base: Motion)
    requires b.groups == {} && b.axisCmd.NoAxisCmd?
    ensures Admits(b, G10_0)
    ensures After(b, base, G10_0) == b.(nonModal := SetCoordinateData, groups := {G0}, axisCmd := NonModalCmd)
  {
  }

  lemma L20ValuesAre(b: Block)
    requires b.words == {}
    ensures var b1 := PutWord(b, 'L', 20.0);
            b1.words == {'L'} && PutWord(b1, 'P', 1.0).words == {'L', 'P'}
    ensures var c := L20Values(b);
            && c.words == {'L', 'P', 'X'} && c.axisWords == b.axisWords.(x := true) && c.modal == b.modal && c.groups == b.groups
            && c.values.l == 20 && c.values.p == 1.0 && c.axisCmd == b.axisCmd && c.nonModal == b.nonModal
            && c.setTool == b.setTool && c.jog == b.jog && c.flow == b.flow
  {
    assert IntPart(20.0) == 20;
    hide IntPart;
  }

  lemma L20Ends(b: Block, base: Motion)
    requires b.groups == {G0}
    ensures Admits(b, G49) && After(b, base, G49) == b.(modal := b.modal.(toolMode := CancelTlo), groups := {G0, G8})
  {
  }

  lemma L20ValuesRead(m: Machine, base: Motion, b: Block, rest: seq<Word>)
    requires b.words == {}
    ensures TakeAll(m, base, b, [ValueWord('L', 20.0)] + ([ValueWord('P', 1.0)] + ([ValueWord('X', 1.0)] + rest))) == TakeAll(m, base, L20Values(b), rest)
  {
    assert 'X' !in POSITIVE_ONLY && 'L' !in POSITIVE_ONLY && 'P' !in POSITIVE_ONLY;
    L20ValuesAre(b);
    var b1 := PutWord(b, 'L', 20.0);
    var b2 := PutWord(b1, 'P', 1.0);
    assert L20Values(b) == PutWord(b2, 'X', 1.0);
    hide *;
    MoreCodes(m);
    ReadsV(m, base, b, 'L', 20.0, [ValueWord('P', 1.0)] + ([ValueWord('X', 1.0)] + rest));
    ReadsV(m, base, b1, 'P', 1.0, [ValueWord('X', 1.0)] + rest);
    ReadsV(m, base, b2, 'X', 1.0, rest);
  }

  lemma L20Read(m: Machine, st: State, line: Line)
    requires line.words == L20_AND_CANCEL && !line.jog
    ensures ScanLine(m, st, line) == Accept(L20Block(NewBlock(st, false), st.modal.motion))
  {
    var b, base := NewBlock(st, false), st.modal.motion;
    var rest := [GWord(49.0)] + [];
    var words := [ValueWord('L', 20.0)] + ([ValueWord('P', 1.0)] + ([ValueWord('X', 1.0)] + rest));
    assert L20_AND_CANCEL == [GWord(10.0)] + words;
    assert IsCommand(GWord(10.0)) && IsCommand(GWord(49.0));
    assert forall w <- line.words :: w.letter != 'O';
    Empty(st, false);
    L20Starts(b, base);
    var b1 := After(b, base, G10_0);
    L20ValuesAre(b1);
    L20Ends(L20Values(b1), base);
    assert L20Block(b, base) == After(L20Values(b1), base, G49);
    hide *;
    Codes(m);
    MoreCodes(m);
    ReadsC(m, base, b, GWord(10.0), words, G10_0);
    L20ValuesRead(m, base, b1, rest);
    ReadsC(m, base, L20Values(b1), GWord(49.0), [], G49);
    ReadsAll(m, st, line, L20Block(b, base));
  }

  lemma L20Is(st: State, b: Block)
    requires st.modal.motion.Seek? && st.modal.feedMode.UnitsPerMin? && b == L20Block(NewBlock(st, false), Seek)
    ensures Simple(b) && !b.jog && b.words == {'L', 'P', 'X'} && b.groups == {G0, G8} && b.axisWords.Any() && b.axisCmd.NonModalCmd?
    ensures b.nonModal.SetCoordinateData? && b.modal == st.modal.(toolMode := CancelTlo) && b.values.l == 20 && b.values.p == 1.0
    ensures b.axisWords.x && b.flow.Running?
  {
    hide NewBlock, After, L20Values;
    Empty(st, false);
    L20Starts(NewBlock(st, false), Seek);
    L20ValuesAre(After(NewBlock(st, false), Seek, G10_0));
    L20Ends(L20Values(After(NewBlock(st, false), Seek, G10_0)), Seek);
  }

  lemma L20Words(m: Machine, st: State, b: Block)
    requires st.modal.motion.Seek? && st.modal.feedMode.UnitsPerMin? && b == L20Block(NewBlock(st, false), Seek)
    ensures var o := CheckWords(m, Fresh(st, b));
            && o.Go? && Asked(o.w.b) == Asked(b) && o.w.b.words == {'L', 'P', 'X'} && o.w.b.values.p == 1.0 && o.w.b.values.l == 20
            && o.w.b.axisWords.Any() && o.w.b.axisCmd.NonModalCmd?
  {
    L20Is(st, b);
    SimpleWordsPass(m, st, b);
    WordsGoOn(m, st, b);
    assert WordsUsed(b) == {};
    hide CheckWords, WordsUsed, FeedOf, L20Block, NewBlock, Asked, WordsPass, Simple;
    WordsKeep(m, Fresh(st, b));
    WordsUse(m, Fresh(st, b));
  }

  lemma L20Passes(m: Machine, st: State, b: Block)
    requires st.modal.motion.Seek? && st.modal.feedMode.UnitsPerMin? && b == L20Block(NewBlock(st, false), Seek)
    ensures Validate(m, st, b).Go?
  {
    L20Is(st, b);
    L20Words(m, st, b);
    var w1 := CheckWords(m, Fresh(st, b)).w;
    hide CheckWords, CheckAxes, CheckMotion, CheckUnused, L20Block, NewBlock, Asked, Simple;
    AskedMeans(w1.b, b);
    DataAxes(m, w1);
    var w2 := CheckAxes(m, w1).w;
    AskedMeans(w2.b, w1.b);
    NoMotionGoes(m, w2);
    NothingUnused(w2);
  }

  lemma L20Means(st: State, b: Block, env: Env)
    requires st.modal.motion.Seek? && st.modal.feedMode.UnitsPerMin? && b == L20Block(NewBlock(st, false), Seek) && st.tlo.x != 0.0
    ensures b.nonModal.SetCoordinateData? && b.values.l == 20 && !EndsWith(b, env) && G8 in b.groups && G10System(b) == 0
    ensures !WorkPositions.AgreeOn(AxesLeft(b), st.tlo, ORIGIN) && L20_AND_CANCEL != []
  {
    L20Is(st, b);
    hide NewBlock, L20Block, Simple;
    assert ToUint32(1.0) == 1;
  }

  /** G10 L20 P1 X1 G49 with a tool offset along X, after a cold start: carried out, and G54 does not read 1. */
  lemma CoordDataIsOff(m: Machine, start: State, offset: real, env: Env)
    requires offset != 0.0
    ensures var st, line := ColdInit(m, start).(tlo := Vec(offset, 0.0, 0.0)), Line(false, L20_AND_CANCEL, env);
            var b := ScanLine(m, st, line);
            && Accepted(m, st, line) && b.Accept? && G10System(b.value) == 0
            && !WorkPositions.AgreeOn(AxesLeft(b.value), AxisNumbers(st, b.value), WorkPositions.ReadIn(Execute(m, st, line).st, 0))
  {
    var st, line := ColdInit(m, start).(tlo := Vec(offset, 0.0, 0.0)), Line(false, L20_AND_CANCEL, env);
    ColdIs(m, start);
    assert Cold(ColdInit(m, start)) ==> st.modal.motion.Seek? && st.modal.feedMode.UnitsPerMin?;
    hide *;
    var b := L20Block(NewBlock(st, false), Seek);
    L20Means(st, b, env);
    L20Read(m, st, line);
    L20Passes(m, st, b);
    BlockIsAccepted(m, st, line);
    WorkPositions.CoordDataIsExact(m, st, line);
  }

  // ---------------------------------------------------------------- the order of words

  const SCALE_LAST: seq<Word> := [GWord(0.0), GWord(51.0), ValueWord('X', 2.0)]

  const SCALE_FIRST: seq<Word> := [GWord(51.0), GWord(0.0), ValueWord('X', 2.0)]

  function SeekBlock(b: Block, base: Motion): Block {
    PutWord(After(After(b, base, G0_0), base, G51), 'X', 2.0)
  }

  lemma SeekBlockIs(b: Block, base: Motion)
    requires b.groups == {} && b.words == {} && b.axisCmd.NoAxisCmd?
    ensures var b1 := After(b, base, G0_0);
            Admits(b, G0_0) && Admits(b1, G51) && After(b1, base, G51).words == {}
    ensures var c := SeekBlock(b, base);
            && c.groups == {G1, G11} && c.words == {'X'} && c.axisCmd.ScalingCmd? && c.axisWords == b.axisWords.(x := true)
            && c.modal == b.modal.(motion := Seek, canned := false, scaling := true) && c.jog == b.jog
            && c.nonModal == b.nonModal && c.setTool == b.setTool && c.flow == b.flow
  {
  }

  lemma ScaleLastRead(m: Machine, st: State, line: Line)
    requires line.words == SCALE_LAST && !line.jog
    ensures ScanLine(m, st, line) == Accept(SeekBlock(NewBlock(st, false), st.modal.motion))
  {
    var b, base := NewBlock(st, false), st.modal.motion;
    assert SCALE_LAST == [GWord(0.0)] + ([GWord(51.0)] + ([ValueWord('X', 2.0)] + []));
    assert IsCommand(GWord(0.0)) && IsCommand(GWord(51.0)) && 'X' !in POSITIVE_ONLY;
    assert forall w <- line.words :: w.letter != 'O';
    Codes(m);
    MoreCodes(m);
    Empty(st, false);
    SeekBlockIs(b, base);
    var b1 := After(b, base, G0_0);
    var b2 := After(b1, base, G51);
    assert SeekBlock(b, base) == PutWord(b2, 'X', 2.0);
    hide *;
    ReadsC(m, base, b, GWord(0.0), [GWord(51.0)] + ([ValueWord('X', 2.0)] + []), G0_0);
    ReadsC(m, base, b1, GWord(51.0), [ValueWord('X', 2.0)] + [], G51);
    ReadsV(m, base, b2, 'X', 2.0, []);
    ReadsAll(m, st, line, SeekBlock(b, base));
  }

  lemma ScalingGoes(m: Machine, w: Work)
    requires w.b.axisCmd.ScalingCmd? && w.b.modal.scaling && w.b.axisWords.Any() && w.b.nonModal.NoAction? && G8 !in w.b.groups
    ensures CheckAxes(m, w).Go? && CheckAxes(m, w).w.b.words <= w.b.words && CheckAxes(m, w).w.b.axisCmd.ScalingCmd?
    ensures Asked(CheckAxes(m, w).w.b) == Asked(w.b)
  {
    hide ConvertUnits, ScaleAxes, CheckNonModal, SelectCoord, Asked, Millimetres;
    ConvertKeeps(w);
    var w0 := ConvertUnits(w);
    ScaleAxesUses(w);
    AskedMeans(w0.b, w.b);
    ScalingKeeps(w0);
    ScalingLets(w0);
    var w1 := CheckScaling(w0).w;
    AskedMeans(w1.b, w.b);
    ScaleAxesKeeps(w1);
    ScaleAxesUses(w1);
    var w2 := ScaleAxes(w1);
    AskedMeans(w2.b, w.b);
    SelectKeeps(w2);
    ScaleAxesUses(w2);
    AskedMeans(SelectCoord(w2).b, w.b);
    NoActionGoes(m, SelectCoord(w2));
    NonModalUses(m, SelectCoord(w2));
    NonModalKeeps(m, SelectCoord(w2));
  }

  lemma NoActionGoes(m: Machine, w: Work)
    requires w.b.nonModal.NoAction?
    ensures CheckNonModal(m, w).Go?
  {
  }

  lemma ScalingLets(w: Work)
    requires w.b.axisCmd.ScalingCmd? && w.b.modal.scaling && w.b.axisWords.Any()
    ensures CheckScaling(w).Go? && CheckScaling(w).w.b.words <= w.b.words && CheckScaling(w).w.b.groups == w.b.groups
  {
    hide Pick;
  }

  lemma ScaleLastPasses(m: Machine, st: State, b: Block)
    requires Cold(st) && b == SeekBlock(NewBlock(st, false), Seek)
    ensures Validate(m, st, b).Go?
  {
    hide NewBlock, SeekBlock, WordsPass, CheckWords, CheckAxes, CheckMotion, CheckUnused, WordsUsed, FeedOf, Asked;
    Empty(st, false);
    SeekBlockIs(NewBlock(st, false), Seek);
    SimpleWordsPass(m, st, b);
    WordsGoOn(m, st, b);
    WordsKeep(m, Fresh(st, b));
    WordsUse(m, Fresh(st, b));
    var w1 := CheckWords(m, Fresh(st, b)).w;
    AskedMeans(w1.b, b);
    ScalingGoes(m, w1);
    var w2 := CheckAxes(m, w1).w;
    AskedMeans(w2.b, b);
    NoMotionGoes(m, w2);
    NothingUnused(w2);
  }

  lemma SameWords()
    ensures multiset(SCALE_FIRST) == multiset(SCALE_LAST)
  {
    assert multiset(SCALE_FIRST) == multiset{GWord(51.0), GWord(0.0), ValueWord('X', 2.0)};
    assert multiset(SCALE_LAST) == multiset{GWord(0.0), GWord(51.0), ValueWord('X', 2.0)};
  }

  lemma GrabsFirstLine(m: Machine)
    ensures Clash(m, GWord(51.0), GWord(0.0))
  {
    Codes(m);
    MoreCodes(m);
    hide CommandOf;
  }

  /** G0 G51 X2 after a cold start is carried out, and the same words as G51 G0 X2 are refused. */
  lemma OrderMatters(m: Machine, start: State, env: Env)
    ensures multiset(SCALE_FIRST) == multiset(SCALE_LAST)
    ensures var st := ColdInit(m, start);
            Accepted(m, st, Line(false, SCALE_LAST, env)) && Execute(m, st, Line(false, SCALE_FIRST, env)).status != Ok
  {
    var st, last, first := ColdInit(m, start), Line(false, SCALE_LAST, env), Line(false, SCALE_FIRST, env);
    assert |SCALE_LAST| == 3 && SCALE_FIRST == [GWord(51.0), GWord(0.0)] + [ValueWord('X', 2.0)];
    ColdIs(m, start);
    assert Cold(st) ==> st.modal.motion.Seek?;
    SameWords();
    GrabsFirstLine(m);
    hide *;
    ScaleLastRead(m, st, last);
    ScaleLastPasses(m, st, SeekBlock(NewBlock(st, false), Seek));
    BlockIsAccepted(m, st, last);
    ClashingLine(m, st, first, GWord(51.0), GWord(0.0), [ValueWord('X', 2.0)]);
    RejectIsRefusal(m, st, first);
  }

  lemma RejectIsRefusal(m: Machine, st: State, line: Line)
    requires (line.words != [] || line.jog) && ScanLine(m, st, line).Reject?
    ensures Execute(m, st, line).status != Ok
  {
    hide ScanLine;
  }
}
