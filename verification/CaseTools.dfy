/** Reading a line word by word, and the checks that a line without special words passes. */
module CaseTools {
  import opened GcTypes
  import opened Scanner
  import opened Validation
  import opened Execution
  import opened Frames
  import ScanFacts
  import Offsets
  import opened WordOrder
  import opened Refusals

  // ---------------------------------------------------------------- reading words one by one

  function GWord(code: real): Word {
    Word('G', Some(code))
  }

  function MWord(code: real): Word {
    Word('M', Some(code))
  }

  function ValueWord(letter: char, value: real): Word {
    Word(letter, Some(value))
  }

  const G51 := Command(Some(G11), Overwrites(ScalingCmd), None, ToScaling(true))

  const G43_1 := Command(Some(G8), Claims(ToolLengthCmd), None, ToToolMode(DynamicTlo))

  /** G81 and G85. */
  function Cycle(motion: Motion): Command {
    Command(Some(G1), Claims(MotionCmd), None, ToMotion(motion, true))
  }

  const G5_0 := Command(Some(G1), Claims(MotionCmd), None, ToMotion(CubicSpline, false))

  const G5_1 := Command(Some(G1), Claims(MotionCmd), None, ToMotion(QuadraticSpline, false))

  const G2_0 := Command(Some(G1), Claims(MotionCmd), None, ToMotion(CwArc, false))

  const G91 := Command(Some(G3), NoClaim, None, ToIncremental(true))

  const G92 := Command(Some(G0), Claims(NonModalCmd), None, ToNonModal(SetOffset))

  const G49 := Command(Some(G8), NoClaim, None, ToToolMode(CancelTlo))

  const G55 := Command(Some(G12), NoClaim, None, ToCoord(1))

  const G95 := Command(Some(G5), NoClaim, None, ToFeedMode(UnitsPerRev))

  const M2 := Command(Some(M4), NoClaim, None, ToFlow(CompletedM2))

  lemma Codes(m: Machine)
    ensures CommandOf(m, GWord(51.0)) == G51 && CommandOf(m, GWord(43.1)) == G43_1 && CommandOf(m, GWord(81.0)) == Cycle(Canned81)
    ensures CommandOf(m, GWord(5.0)) == G5_0 && CommandOf(m, GWord(5.1)) == G5_1 && CommandOf(m, GWord(2.0)) == G2_0
    ensures CommandOf(m, GWord(91.0)) == G91 && CommandOf(m, GWord(92.0)) == G92 && CommandOf(m, GWord(49.0)) == G49
    ensures CommandOf(m, GWord(55.0)) == G55 && CommandOf(m, GWord(95.0)) == G95 && CommandOf(m, MWord(2.0)) == M2
  {
    assert IntPart(51.0) == 51 && Mantissa(51.0) == 0;
    assert IntPart(43.1) == 43 && Mantissa(43.1) == 10;
    assert IntPart(81.0) == 81 && Mantissa(81.0) == 0;
    assert IntPart(5.0) == 5 && Mantissa(5.0) == 0;
    assert IntPart(5.1) == 5 && Mantissa(5.1) == 10;
    assert IntPart(2.0) == 2 && Mantissa(2.0) == 0;
    assert IntPart(91.0) == 91 && Mantissa(91.0) == 0;
    assert IntPart(92.0) == 92 && Mantissa(92.0) == 0;
    assert IntPart(49.0) == 49 && Mantissa(49.0) == 0;
    assert IntPart(55.0) == 55 && Mantissa(55.0) == 0;
    assert IntPart(95.0) == 95 && Mantissa(95.0) == 0;
    hide IntPart, Mantissa;
  }

  const G0_0 := Command(Some(G1), Claims(MotionCmd), None, ToMotion(Seek, false))

  const G10_0 := Command(Some(G0), Claims(NonModalCmd), None, ToNonModal(SetCoordinateData))

  const M48 := Command(Some(M9), NoClaim, None, ToOverride(FeedSpeedEnable))

  lemma MoreCodes(m: Machine)
    ensures CommandOf(m, GWord(85.0)) == Cycle(Canned85) && CommandOf(m, GWord(0.0)) == G0_0 && CommandOf(m, GWord(10.0)) == G10_0
    ensures CommandOf(m, MWord(48.0)) == M48 && Mantissa(2.0) == 0 && Mantissa(20.0) == 0
  {
    assert IntPart(85.0) == 85 && Mantissa(85.0) == 0;
    assert IntPart(0.0) == 0 && Mantissa(0.0) == 0;
    assert IntPart(10.0) == 10 && Mantissa(10.0) == 0;
    assert IntPart(48.0) == 48 && Mantissa(48.0) == 0;
    assert Mantissa(2.0) == 0 && Mantissa(20.0) == 0;
    hide IntPart, Mantissa;
  }

  lemma Next(m: Machine, base: Motion, b: Block, w: Word, rest: seq<Word>, c: Block)
    requires Take(m, base, b, w) == Accept(c)
    ensures TakeAll(m, base, b, [w] + rest) == TakeAll(m, base, c, rest)
  {
    hide Take;
    assert ([w] + rest)[1..] == rest;
  }

  /** Reading a command. */
  lemma ReadsC(m: Machine, base: Motion, b: Block, w: Word, rest: seq<Word>, c: Command)
    requires IsCommand(w) && CommandOf(m, w) == c && Admits(b, c)
    ensures TakeAll(m, base, b, [w] + rest) == TakeAll(m, base, After(b, base, c), rest)
  {
    hide CommandOf, After, Admits, Take, TakeAll;
    TakeMeans(m, base, b, w);
    Next(m, base, b, w, rest, After(b, base, c));
  }

  /** Reading a value word. */
  lemma ReadsV(m: Machine, base: Motion, b: Block, letter: char, value: real, rest: seq<Word>)
    requires letter in {'X', 'Y', 'Z', 'I', 'J', 'K', 'L', 'P', 'Q', 'R', 'D', 'F'} && letter !in b.words
    requires letter == 'L' ==> Mantissa(value) == 0
    requires letter in POSITIVE_ONLY ==> value >= 0.0
    ensures TakeAll(m, base, b, [ValueWord(letter, value)] + rest) == TakeAll(m, base, PutWord(b, letter, value), rest)
  {
    hide PutWord, Take, TakeAll, Mantissa, IntPart;
    TakeMeans(m, base, b, ValueWord(letter, value));
    Next(m, base, b, ValueWord(letter, value), rest, PutWord(b, letter, value));
  }

  lemma ReadsAll(m: Machine, st: State, line: Line, b: Block)
    requires (forall w <- line.words :: w.letter != 'O')
    requires TakeAll(m, st.modal.motion, NewBlock(st, line.jog), line.words) == TakeAll(m, st.modal.motion, b, [])
    ensures ScanLine(m, st, line) == Accept(b)
  {
    hide ScanWords, NewBlock, Take;
    ScanTakesAll(m, st.modal.motion, Scan(NewBlock(st, line.jog), 0), line.words);
  }

  // ---------------------------------------------------------------- words and axes that pass

  /** A block with none of the words that the word checks look at, but for F. */
  ghost predicate Simple(b: Block) {
    && !b.setTool && M7 !in b.groups && (M9 in b.groups ==> 'P' !in b.words) && !b.nonModal.Dwell? && 'N' !in b.words && '$' !in b.words
    && !b.modal.motion.SpindleSync?
  }

  lemma SimpleTail(m: Machine, w: Work)
    requires Simple(w.b) && (w.b.modal.feedMode.UnitsPerRev? ==> m.encoder)
    ensures CheckSpindle(m, w).Go? && CheckTool(w).Go? && CheckSpindleState(m, w).Go? && CheckOverride(w).Go? && CheckDwell(w).Go?
  {
    hide SetValues, Consume, SetSpindle;
  }

  lemma SimpleHead(m: Machine, w: Work)
    requires Simple(w.b) && (w.b.jog ==> 'F' in w.b.words) && (w.b.modal.feedMode.UnitsPerRev? ==> m.encoder)
    requires !w.b.modal.feedMode.InverseTime?
    ensures CheckCommon(w).Go? && CheckFeed(w).Go?
  {
    hide SetValues, Consume;
  }

  lemma SimpleStays(b: Block, c: Block)
    requires Simple(b) && Asked(c) == Asked(b) && c.words <= b.words && c.groups == b.groups
    ensures Simple(c)
  {
  }

  lemma SimpleWordsPass(m: Machine, st: State, b: Block)
    requires Simple(b) && (b.jog ==> 'F' in b.words) && !b.modal.feedMode.InverseTime?
    requires b.modal.feedMode.UnitsPerRev? ==> m.encoder
    ensures WordsPass(m, st, b)
  {
    hide CheckCommon, CheckFeed, CheckSpindle, CheckTool, CheckSpindleState, CheckOverride, CheckDwell, Asked, Simple,
         SingleSpindle;
    var w := Fresh(st, b);
    SimpleHead(m, w);
    CommonUses(w);
    var w1 := CheckCommon(w).w;
    CommonKeeps(w);
    AskedMeans(w1.b, b);
    SimpleStays(b, w1.b);
    SimpleHead(m, w1);
    FeedUses(w1);
    FeedKeeps(w1);
    var w2 := CheckFeed(w1).w;
    AskedMeans(w2.b, b);
    SimpleStays(b, w2.b);
    SimpleTail(m, w2);
    SpindleUses(m, w2);
    var w3 := CheckSpindle(m, w2).w;
    AskedMeans(w3.b, b);
    SimpleStays(b, w3.b);
    SimpleTail(m, w3);
    ToolUses(w3);
    var w4 := CheckTool(w3).w;
    AskedMeans(w4.b, b);
    SimpleStays(b, w4.b);
    SimpleTail(m, w4);
    SpindleStateUses(m, w4);
    var w5 := CheckSpindleState(m, w4).w;
    AskedMeans(w5.b, b);
    SimpleStays(b, w5.b);
    SimpleTail(m, w5);
    OverrideUses(w5);
    var w6 := CheckOverride(w5).w;
    AskedMeans(w6.b, b);
    SimpleStays(b, w6.b);
    SimpleTail(m, w6);
  }

  lemma PlainAxesPass(m: Machine, st: State, b: Block)
    requires WordsPass(m, st, b) && !b.axisCmd.ScalingCmd?
    requires b.nonModal.NoAction? || (b.nonModal.SetOffset? && b.axisWords.Any())
    requires G8 in b.groups && b.modal.toolMode.DynamicTlo? ==> b.axisWords.Any()
    ensures AxesPass(m, st, b)
  {
    hide CheckWords, ConvertUnits, ScaleAxes, SelectCoord, Asked, FeedOf, ComputeTarget;
    WordsKeep(m, Fresh(st, b));
    var w1 := CheckWords(m, Fresh(st, b)).w;
    AskedMeans(w1.b, b);
    ConvertKeeps(w1);
    var w0 := ConvertUnits(w1);
    ScaleAxesKeeps(w0);
    var w2 := ScaleAxes(w0);
    AskedMeans(w2.b, b);
    SelectKeeps(w2);
    AskedMeans(SelectCoord(w2).b, b);
  }

  // ---------------------------------------------------------------- the state after a cold start

  ghost predicate Cold(st: State) {
    && st.modal.motion.Seek? && st.modal.feedMode.UnitsPerMin? && !st.modal.imperial && !st.modal.incremental && st.modal.plane.XY?
    && !st.modal.scaling && !st.modal.canned && st.modal.coord == CoordSystem(0, st.store[0]) && st.modal.splinePq == Pq(0.0, 0.0)
    && st.modal.toolMode.CancelTlo?
    && st.scale == UNSCALED && st.canned == RESET_CANNED && st.position == ORIGIN && st.feedRate == 0.0 && st.tlo == ORIGIN
  }

  lemma ColdIs(m: Machine, st: State)
    ensures Cold(ColdInit(m, st)) && ColdInit(m, st).store == st.store
  {
  }

  lemma Empty(st: State, jog: bool)
    ensures var b := NewBlock(st, jog);
            && b.jog == jog && b.groups == {} && b.words == {} && b.axisCmd.NoAxisCmd? && !b.axisWords.Any() && !b.ijkWords.Any()
            && b.nonModal.NoAction? && b.flow.Running? && !b.setTool && !b.cannedChange && b.values.xyz == ORIGIN
            && b.modal == (if jog then st.modal.(motion := Linear, feedMode := UnitsPerMin) else st.modal)
  {
  }

  // ---------------------------------------------------------------- lines that are carried out

  lemma NothingUnused(w: Work)
    requires w.b.words <= (if w.b.axisCmd.NoAxisCmd? then {'F'} else {'F', 'X', 'Y', 'Z'})
    ensures CheckUnused(w).Go?
  {
  }

  lemma BlockIsAccepted(m: Machine, st: State, line: Line)
    requires line.words != [] && !line.jog && ScanLine(m, st, line).Accept? && Validate(m, st, ScanLine(m, st, line).value).Go?
    ensures Offsets.Accepted(m, st, line)
    ensures Execute(m, st, line) == Commit(m, Validate(m, st, ScanLine(m, st, line).value).w, line.env)
  {
    hide ScanLine, Validate, Commit, CommitJog, ScanFacts.Read, ScanFacts.ReadValues;
    ScanFacts.LineReads(m, st, line);
    Offsets.JogIs(st, line.jog, ScanLine(m, st, line).value);
    CommitSucceeds(m, Validate(m, st, ScanLine(m, st, line).value).w, line.env);
  }

  /** A block without a motion passes if it has no foreign words. */
  lemma QuietPasses(m: Machine, st: State, b: Block)
    requires AxesPass(m, st, b) && !b.axisCmd.ScalingCmd? && !ImpliedCmd(b).MotionCmd? && !b.modal.motion.NoMotion?
    requires b.nonModal.NoAction? || b.nonModal.SetOffset?
    requires b.words <= if ImpliedCmd(b).NoAxisCmd? then {'F'} else {'F', 'X', 'Y', 'Z'}
    ensures Validate(m, st, b).Go?
  {
    hide CheckWords, CheckAxes, CheckMotion, CheckUnused, Asked, FeedOf, WordsUsed, SelectedCoord;
    WordsKeep(m, Fresh(st, b));
    WordsUse(m, Fresh(st, b));
    var w1 := CheckWords(m, Fresh(st, b)).w;
    AskedMeans(w1.b, b);
    AxesKeep(m, w1);
    AxesUse(m, w1);
    var w2 := CheckAxes(m, w1).w;
    AskedMeans(w2.b, w1.b);
    NoMotionGoes(m, w2);
    NothingUnused(w2);
  }

  lemma NoMotionGoes(m: Machine, w: Work)
    requires !w.b.axisCmd.MotionCmd? && !w.b.modal.motion.NoMotion?
    ensures CheckMotion(m, w) == Go(w)
  {
  }

  lemma WordsGoOn(m: Machine, st: State, b: Block)
    requires WordsPass(m, st, b)
    ensures CheckWords(m, Fresh(st, b)).Go?
  {
  }
}
