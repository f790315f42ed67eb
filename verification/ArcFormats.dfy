/** The two formats of an arc: a block that gives its radius can be rewritten to give its centre, and does the same. */
module ArcFormats {
  import opened GcTypes
  import opened Scanner
  import opened Validation
  import opened Execution
  import opened Frames
  import ScanFacts
  import Targets
  import Offsets
  import opened Refusals
  import Quirks
  import opened Curves
  import W = WordOrder

  /** Words I, J and K with their numbers. */
  datatype Centre = Centre(letters: set<char>, axes: Axes, ijk: Vec)

  ghost predicate Valid(c: Centre) {
    && c.letters <= {'I', 'J', 'K'}
    && c.axes == Axes('I' in c.letters, 'J' in c.letters, 'K' in c.letters)
  }

  /** The block with these words for its R. */
  function Recentred(b: Block, c: Centre): Block {
    b.(words := b.words - {'R'} + c.letters, values := b.values.(ijk := c.ijk, r := 0.0), ijkWords := c.axes)
  }

  function Swap(w: Work, c: Centre): Work {
    w.(b := Recentred(w.b, c))
  }

  ghost function Swapped(o: Outcome, c: Centre): Outcome {
    if o.Stop? then o else Go(Swap(o.w, c))
  }

  lemma SwapConsume(w: Work, c: Centre, l: set<char>)
    requires l !! c.letters
    ensures Consume(Swap(w, c), l) == Swap(Consume(w, l), c)
  {
    assert w.b.words - {'R'} + c.letters - l == w.b.words - l - {'R'} + c.letters;
  }

  lemma SwapCommon(w: Work, c: Centre)
    requires Valid(c)
    ensures CheckCommon(Swap(w, c)) == Swapped(CheckCommon(w), c)
  {
  }

  lemma SwapF(w: Work, c: Centre, f: real)
    ensures SetValues(Swap(w, c), Swap(w, c).b.values.(f := f)) == Swap(SetValues(w, w.b.values.(f := f)), c)
  {
  }

  /** What a block with a centre has in common with the block with a radius. */
  lemma SwapFrame(w: Work, c: Centre)
    ensures var b, d := w.b, Swap(w, c).b;
            && d == b.(words := d.words, values := d.values, ijkWords := d.ijkWords)
            && Swap(w, c) == w.(b := d) && d.values == b.values.(ijk := d.values.ijk, r := d.values.r)
    ensures Valid(c) ==> ('F' in Swap(w, c).b.words <==> 'F' in w.b.words)
  {
  }

  lemma SwapFeed(w: Work, c: Centre)
    requires Valid(c) && !w.b.modal.motion.SpindleSync?
    ensures CheckFeed(Swap(w, c)) == Swapped(CheckFeed(w), c)
  {
    hide Swap, SetValues, Valid, ToMillimetres;
    SwapFrame(w, c);
    SwapF(w, c, ToMillimetres(w.b.modal.imperial, w.b.values.f));
    SwapF(w, c, w.st.feedRate);
  }

  predicate Addressed(b: Block) {
    '$' in b.words && (M7 in b.groups || SingleSpindle(b))
  }

  /** Why the spindle words are refused, if they are. */
  function SpindleFault(m: Machine, b: Block): Option<Refusal> {
    if Addressed(b) && b.values.dollar < (if SingleSpindle(b) then 0 else -1) then
      Some(if SingleSpindle(b) then NegativeValue else ValueOutOfRange)
    else if Addressed(b) && b.values.dollar > 0 then Some(ValueOutOfRange)
    else if b.modal.feedMode.UnitsPerRev? && !m.encoder then Some(UnsupportedCommand)
    else None
  }

  function SpindlePassed(w: Work): Work {
    var w1 := if Addressed(w.b) then Consume(w, {'$'}) else w;
    if 'S' in w.b.words then w1 else SetValues(w1, w1.b.values.(s := w1.st.modal.spindle.rpm))
  }

  lemma SpindleChecked(m: Machine, w: Work)
    ensures CheckSpindle(m, w) == var fault := SpindleFault(m, w.b); if fault.Some? then Stop(fault.value, w.st) else Go(SpindlePassed(w))
  {
    hide SingleSpindle, SetValues, Consume;
    Setters();
  }

  lemma SwapFault(m: Machine, w: Work, c: Centre)
    requires Valid(c)
    ensures SpindleFault(m, Swap(w, c).b) == SpindleFault(m, w.b)
  {
  }

  lemma SwapPassed(w: Work, c: Centre)
    requires Valid(c)
    ensures SpindlePassed(Swap(w, c)) == Swap(SpindlePassed(w), c)
  {
    hide Consume;
    SwapConsume(w, c, {'$'});
  }

  lemma SwapSpindle(m: Machine, w: Work, c: Centre)
    requires Valid(c)
    ensures CheckSpindle(m, Swap(w, c)) == Swapped(CheckSpindle(m, w), c)
  {
    SpindleChecked(m, w);
    SpindleChecked(m, Swap(w, c));
    SwapFault(m, w, c);
    SwapPassed(w, c);
    assert Swap(w, c).st == w.st;
    hide CheckSpindle, SpindleFault, SpindlePassed, Swap, Valid;
  }

  lemma SwapTool(w: Work, c: Centre)
    requires Valid(c)
    ensures CheckTool(Swap(w, c)) == Swapped(CheckTool(w), c)
  {
    hide IsInt, ToUint32, Consume;
    SwapConsume(SetValues(w, w.b.values.(t := ToUint32(w.b.values.q))), c, {'Q'});
  }

  lemma SwapSpindleState(m: Machine, w: Work, c: Centre)
    ensures CheckSpindleState(m, Swap(w, c)) == Swapped(CheckSpindleState(m, w), c)
  {
  }

  lemma SwapOverride(w: Work, c: Centre)
    requires Valid(c)
    ensures CheckOverride(Swap(w, c)) == Swapped(CheckOverride(w), c)
  {
    hide Overridden, Consume;
    var p := if 'P' in w.b.words then w.b.values.p else 1.0;
    var w1 := SetCtrl(w, Overridden(w.b.modal.ctrl, w.b.overrideCmd, p));
    SwapConsume(SetValues(w1, w1.b.values.(p := p)), c, {'P'});
  }

  lemma SwapDwell(w: Work, c: Centre)
    requires Valid(c)
    ensures CheckDwell(Swap(w, c)) == Swapped(CheckDwell(w), c)
  {
    SwapConsume(w, c, {'P'});
    hide Consume;
  }

  lemma SwapUnits(w: Work, c: Centre)
    ensures ConvertUnits(Swap(w, c)) == Swap(ConvertUnits(w), c)
    ensures ScaleAxes(Swap(w, c)) == Swap(ScaleAxes(w), c)
  {
    hide Pick, Vec.Mul, Vec.Plus, Vec.Minus, Vec.Times;
  }

  lemma SwapTarget(w: Work, c: Centre)
    ensures SelectCoord(Swap(w, c)) == Swap(SelectCoord(w), c)
    ensures ComputeTarget(Swap(w, c)) == Swap(ComputeTarget(w), c)
    ensures ForgetRetract(Swap(w, c)) == Swap(ForgetRetract(w), c)
  {
    hide Pick, Vec.Mul, Vec.Plus, Vec.Minus, Vec.Times;
  }

  lemma SwapWords(m: Machine, w: Work, c: Centre)
    requires Valid(c) && !w.b.modal.motion.SpindleSync?
    ensures CheckWords(m, Swap(w, c)) == Swapped(CheckWords(m, w), c)
  {
    hide CheckCommon, CheckFeed, CheckSpindle, CheckTool, CheckSpindleState, CheckOverride, CheckDwell, Swap;
    SwapCommon(w, c);
    if CheckCommon(w).Go? {
      var w1 := CheckCommon(w).w;
      CommonMotion(w);
      SwapFeed(w1, c);
      if CheckFeed(w1).Go? {
        var w2 := CheckFeed(w1).w;
        SwapSpindle(m, w2, c);
        if CheckSpindle(m, w2).Go? {
          var w3 := CheckSpindle(m, w2).w;
          SwapTool(w3, c);
          if CheckTool(w3).Go? {
            var w4 := CheckTool(w3).w;
            SwapSpindleState(m, w4, c);
            if CheckSpindleState(m, w4).Go? {
              var w5 := CheckSpindleState(m, w4).w;
              SwapOverride(w5, c);
              if CheckOverride(w5).Go? {
                SwapDwell(CheckOverride(w5).w, c);
              }
            }
          }
        }
      }
    }
  }

  lemma CommonMotion(w: Work)
    ensures CheckCommon(w).Go? ==> CheckCommon(w).w.b.modal == w.b.modal
  {
  }

  lemma SwapNonModal(m: Machine, w: Work, c: Centre)
    requires !ScanFacts.NeedsAxes(w.b.nonModal)
    ensures CheckNonModal(m, Swap(w, c)) == Swapped(CheckNonModal(m, w), c)
  {
    SwapTarget(w, c);
    hide ComputeTarget, Recentred;
    SwapFrame(w, c);
    hide Swap;
  }

  /** Without scaling commands and home positions. */
  lemma SwapAxes(m: Machine, w: Work, c: Centre)
    requires !w.b.axisCmd.ScalingCmd? && !ScanFacts.NeedsAxes(w.b.nonModal)
    ensures CheckAxes(m, Swap(w, c)) == Swapped(CheckAxes(m, w), c)
  {
    hide ConvertUnits, ScaleAxes, SelectCoord, CheckNonModal, Asked, Recentred;
    SwapUnits(w, c);
    SwapFrame(w, c);
    ConvertKeeps(w);
    var w0 := ConvertUnits(w);
    AskedMeans(w0.b, w.b);
    SwapUnits(w0, c);
    SwapFrame(w0, c);
    ScaleAxesKeeps(w0);
    var w2 := ScaleAxes(w0);
    AskedMeans(w2.b, w.b);
    SwapTarget(w2, c);
    SwapFrame(w2, c);
    SelectKeeps(w2);
    AskedMeans(SelectCoord(w2).b, w.b);
    SwapNonModal(m, SelectCoord(w2), c);
    hide Swap;
  }

  // ---------------------------------------------------------------- the arc

  lemma SwapTurns(w: Work, c: Centre)
    requires Valid(c)
    ensures CheckTurns(Swap(w, c)) == Swapped(CheckTurns(w), c)
  {
    hide IsInt, ToUint32, Consume;
    SwapConsume(w, c, {'P'});
  }

  /** The same arc with other marks for I, J and K. */
  lemma SwapArc(m: Machine, w: Work, c: Centre)
    requires ExactRoots(m) && CheckArc(m, w).Go? && 'R' in w.b.words && w.b.words !! {'I', 'J', 'K'}
    requires Chord(CheckArc(m, w).w) != Planar(0.0, 0.0)
    requires Valid(c) && InPlane(w.b.modal.plane, c.axes) && CentreOffsets(Swap(w, c)) == CheckArc(m, w).w.b.values.ijk
    ensures CheckArc(m, Swap(w, c)) == Go(Quirks.Retold(CheckArc(m, w).w, w.b.flow, c.axes))
  {
    SwapTurns(w, c);
    TurnsKeep(w);
    TurnsLeave(w);
    var w1 := CheckTurns(w).w;
    assert w1.b.flow == w.b.flow && w1.b.words <= w.b.words;
    SwapFrame(w, c);
    assert 'R' !in Swap(w1, c).b.words && 'R' !in Swap(w, c).b.words;
    OffsetsOf(w, w1, c);
    hide CheckTurns, CheckRadiusArc, CheckCentreArc, Swap, ExactRoots, InPlane, Chord, PlaneOf, CentreOffsets;
    SwapRadius(m, w1, c);
  }

  lemma OffsetsOf(w: Work, w1: Work, c: Centre)
    requires w1.st == w.st && w1.b.modal.imperial == w.b.modal.imperial
    ensures CentreOffsets(Swap(w1, c)) == CentreOffsets(Swap(w, c))
  {
  }

  lemma CentreArcIs(m: Machine, u: Work)
    requires CheckCentreArc(m, u).Go?
    ensures var u1 := CheckCentreArc(m, u).w;
            u1 == u.(b := u.b.(values := u.b.values.(ijk := u1.b.values.ijk, r := u1.b.values.r), words := u.b.words - {'I', 'J', 'K'}))
  {
    hide CentreOffsets, RadiiAgree, Distance;
  }

  lemma RadiusArcIs(m: Machine, w: Work)
    requires CheckRadiusArc(m, w).Go?
    ensures var w1 := CheckRadiusArc(m, w).w;
            w1 == w.(b := w.b.(values := w.b.values.(ijk := w1.b.values.ijk, r := w1.b.values.r), words := w.b.words - {'R'}))
  {
    hide ProgrammedRadius, RadiusCentre, Vec.Put;
  }

  lemma LettersGone(words: set<char>, c: Centre)
    requires Valid(c) && words !! {'I', 'J', 'K'}
    ensures words - {'R'} + c.letters - {'I', 'J', 'K'} == words - {'R'}
  {
  }

  lemma SwapRadius(m: Machine, w: Work, c: Centre)
    requires ExactRoots(m) && CheckRadiusArc(m, w).Go? && 'R' in w.b.words && w.b.words !! {'I', 'J', 'K'}
    requires Chord(CheckRadiusArc(m, w).w) != Planar(0.0, 0.0)
    requires Valid(c) && InPlane(w.b.modal.plane, c.axes) && CentreOffsets(Swap(w, c)) == CheckRadiusArc(m, w).w.b.values.ijk
    ensures CheckCentreArc(m, Swap(w, c)) == Go(Quirks.Retold(CheckRadiusArc(m, w).w, w.b.flow, c.axes))
  {
    RadiusKeepsEnds(m, w);
    SwapFrame(w, c);
    CentreFormatAgrees(m, w, Swap(w, c));
    CentreArcIs(m, Swap(w, c));
    RadiusArcIs(m, w);
    LettersGone(w.b.words, c);
    hide CheckCentreArc, CheckRadiusArc, ExactRoots, CentreOffsets, Chord, InPlane, Valid;
  }

  // ---------------------------------------------------------------- blocks and lines

  /** An arc by radius that passes has no I, J or K. */
  lemma NoCentreWords(m: Machine, w: Work)
    requires CheckArc(m, w).Go? && 'R' in w.b.words && CheckUnused(CheckArc(m, w).w).Go?
    ensures w.b.words !! {'I', 'J', 'K'}
  {
    TurnsLeave(w);
    var w1 := CheckTurns(w).w;
    RadiusArcIs(m, w1);
    var w2 := CheckArc(m, w).w;
    TurnsWords(w);
    forall l <- {'I', 'J', 'K'}
      ensures l !in w.b.words
    {
      if l in w.b.words {
        assert l in w2.b.words;
        UnusedStops(w2, l);
      }
    }
    hide CheckTurns, CheckRadiusArc, CheckCentreArc, CheckUnused;
  }

  lemma TurnsWords(w: Work)
    requires CheckTurns(w).Go?
    ensures w.b.words - {'P'} <= CheckTurns(w).w.b.words
  {
    hide IsInt, ToUint32;
  }

  lemma UnusedRetold(w: Work, axes: Axes)
    requires CheckUnused(w).Go?
    ensures CheckUnused(Quirks.Retold(w, w.b.flow, axes)) == Go(Quirks.Retold(CheckUnused(w).w, w.b.flow, axes))
  {
  }

  /** Numbers for I, J and K that mean the centre of the arc `w`, in the units and the scaling of the block. */
  ghost predicate Means(st: State, b: Block, c: Centre, w: Work) {
    && Valid(c) && InPlane(b.modal.plane, c.axes) && CentreOffsets(Swap(Fresh(st, b), c)) == w.b.values.ijk
  }

  /** The motion checks of the block with a centre. */
  lemma CentreMotion(m: Machine, w: Work, c: Centre)
    requires ExactRoots(m) && w.b.axisCmd.MotionCmd? && w.b.modal.motion.Arc() && !w.b.modal.canned && 'R' in w.b.words
    requires CheckMotion(m, w).Go? && CheckUnused(CheckMotion(m, w).w).Go? && Chord(CheckMotion(m, w).w) != Planar(0.0, 0.0)
    requires Valid(c) && InPlane(w.b.modal.plane, c.axes) && CentreOffsets(Swap(w, c)) == CheckMotion(m, w).w.b.values.ijk
    ensures CheckMotion(m, Swap(w, c)) == Go(Quirks.Retold(CheckMotion(m, w).w, w.b.flow, c.axes))
  {
    MotionIsArc(m, w);
    ForgetIs(w);
    ForgetFlow(w);
    var w1 := ForgetRetract(w);
    assert w1.b.flow == w.b.flow;
    SwapTarget(w, c);
    OffsetsOf(w, w1, c);
    FedArc(m, Swap(w, c));
    SwapFed(m, w, c);
    hide *;
    NoCentreWords(m, w1);
    SwapArc(m, w1, c);
  }

  lemma ForgetFlow(w: Work)
    ensures ForgetRetract(w).b.flow == w.b.flow
  {
  }

  lemma SwapFed(m: Machine, w: Work, c: Centre)
    requires w.b.axisCmd.MotionCmd? && w.b.modal.motion.Arc() && CheckMotion(m, w).Go?
    ensures Swap(w, c).b.values.f != 0.0
  {
    hide CheckMode;
  }

  lemma FreshSwaps(st: State, b: Block, c: Centre)
    ensures Fresh(st, Recentred(b, c)) == Swap(Fresh(st, b), c)
  {
  }

  /** The checks before the motion. */
  lemma CentreReached(m: Machine, st: State, b: Block, c: Centre)
    requires Valid(c) && AxesPass(m, st, b) && ScanFacts.Covered(b) && ByRadius(b)
    ensures AxesPass(m, st, Recentred(b, c)) && AtMotion(m, st, Recentred(b, c)) == Swap(AtMotion(m, st, b), c)
  {
    hide CheckWords, CheckAxes, Swap, Recentred, Asked, FeedOf;
    var w := Fresh(st, b);
    FreshSwaps(st, b, c);
    SwapWords(m, w, c);
    WordsKeep(m, w);
    var w1 := CheckWords(m, w).w;
    AskedMeans(w1.b, b);
    SwapAxes(m, w1, c);
  }

  lemma ByRadiusAtMotion(m: Machine, st: State, b: Block, c: Centre)
    requires AxesPass(m, st, b) && ScanFacts.Covered(b) && ByRadius(b)
    ensures var w := AtMotion(m, st, b);
            && w.b.axisCmd.MotionCmd? && w.b.modal.motion.Arc() && !w.b.modal.canned && 'R' in w.b.words
            && w.b.modal.plane == b.modal.plane && w.st == st && CentreOffsets(Swap(w, c)) == CentreOffsets(Swap(Fresh(st, b), c))
  {
    MotionBlock(m, st, b);
    CycleLetters(b);
    hide AxesPass, AtMotion, Swap, CentreOffsets, WordsUsed, Targets.Placed, Targets.PLeft, FeedOf, SelectedCoord;
    OffsetsOf(Fresh(st, b), AtMotion(m, st, b), c);
  }

  /** The checks of the block with a centre end as those of the block with a radius. */
  lemma CentreValidates(m: Machine, st: State, b: Block, c: Centre, w: Work)
    requires ExactRoots(m) && ScanFacts.Covered(b) && ByRadius(b) && Validate(m, st, b) == Go(w)
    requires Chord(w) != Planar(0.0, 0.0) && Means(st, b, c, w)
    ensures Validate(m, st, Recentred(b, c)) == Go(Quirks.Retold(w, w.b.flow, c.axes))
  {
    assert Means(st, b, c, w) ==> Valid(c) && InPlane(b.modal.plane, c.axes) && CentreOffsets(Swap(Fresh(st, b), c)) == w.b.values.ijk;
    Quirks.ValidatedIs(m, st, b, w);
    var w2 := AtMotion(m, st, b);
    var w3 := CheckMotion(m, w2).w;
    UnusedKeeps(w3);
    WordsForgotten(w3);
    assert w.b.flow == w3.b.flow && w.b.values == w3.b.values;
    hide *;
    CentreReached(m, st, b, c);
    ByRadiusAtMotion(m, st, b, c);
    MotionKeepsFlow(m, w2);
    CentreMotion(m, w2, c);
    UnusedRetold(w3, c.axes);
    PassesOn(m, st, Recentred(b, c));
  }

  lemma MotionKeepsFlow(m: Machine, w: Work)
    requires CheckMotion(m, w).Go?
    ensures CheckMotion(m, w).w.b.flow == w.b.flow
  {
    MotionKeeps(m, w);
    hide CheckMotion, Asked;
    AskedMeans(CheckMotion(m, w).w.b, w.b);
  }

  /** An accepted arc by radius that goes somewhere in the plane: the line with I, J and K instead, in numbers that mean
      its centre, is carried out alike, with the same motions and the same state. */
  lemma RadiusAsCentre(m: Machine, st: State, line: Line, other: Line, c: Centre, w: Work)
    requires ExactRoots(m) && Offsets.Reaches(m, st, line, w) && !line.jog && ByRadius(ScanLine(m, st, line).value)
    requires PlaneOf(w.b.modal.plane, w.b.values.xyz) != PlaneOf(w.b.modal.plane, st.position)
    requires Means(st, ScanLine(m, st, line).value, c, w)
    requires ScanLine(m, st, other) == Accept(Recentred(ScanLine(m, st, line).value, c)) && !other.jog
             && other.env == line.env && other.words != []
    ensures Execute(m, st, other) == Execute(m, st, line)
  {
    var b := ScanLine(m, st, line).value;
    assert Offsets.Reaches(m, st, line, w) ==> ScanLine(m, st, line).Accept? && Validate(m, st, b) == Go(w);
    hide *;
    LineCovers(m, st, line);
    Offsets.ReachedCoord(m, st, line, w);
    Offsets.EarlyIsCached(st, b, w.st);
    ChordIs(w, w.b.modal.plane, w.b.values.xyz, st.position);
    CentreValidates(m, st, b, c, w);
    Quirks.CommitRetold(m, w, w.b.flow, c.axes, line.env);
    Offsets.Carried(m, st, line, w);
    ReachesBy(m, st, other, Quirks.Retold(w, w.b.flow, c.axes));
    Offsets.Carried(m, st, other, Quirks.Retold(w, w.b.flow, c.axes));
  }

  lemma ReachesBy(m: Machine, st: State, line: Line, w: Work)
    requires line.words != [] && ScanLine(m, st, line).Accept? && Validate(m, st, ScanLine(m, st, line).value) == Go(w)
    ensures Offsets.Reaches(m, st, line, w)
  {
  }

  /** With scaling off there always are such numbers: the centre, or the centre in inches. */
  lemma CentreCanBeGiven(st: State, b: Block, w: Work)
    requires !st.modal.scaling
    ensures var ijk := w.b.values.ijk;
            Means(st, b, FullCentre(if b.modal.imperial then ijk.Times(1.0 / MM_PER_INCH) else ijk), w)
  {
    var ijk := w.b.values.ijk;
    var c := FullCentre(if b.modal.imperial then ijk.Times(1.0 / MM_PER_INCH) else ijk);
    InAndOut(ijk);
    GivenOffsets(st, b, c);
    assert Valid(c) && InPlane(b.modal.plane, c.axes);
    hide Vec.Times, CentreOffsets, Swap, Valid, InPlane;
  }

  lemma GivenOffsets(st: State, b: Block, c: Centre)
    requires !st.modal.scaling && c.axes == Axes(true, true, true)
    ensures CentreOffsets(Swap(Fresh(st, b), c)) == if b.modal.imperial then c.ijk.Times(MM_PER_INCH) else c.ijk
  {
  }

  lemma InAndOut(v: Vec)
    ensures v.Times(1.0 / MM_PER_INCH).Times(MM_PER_INCH) == v
  {
  }

  // ---------------------------------------------------------------- the words

  function R(r: real): Word {
    Word('R', Some(r))
  }

  /** I, J and K with the numbers of a vector. */
  function CentreWords(v: Vec): seq<Word> {
    [Word('I', Some(v.x)), Word('J', Some(v.y)), Word('K', Some(v.z))]
  }

  function FullCentre(v: Vec): Centre {
    Centre({'I', 'J', 'K'}, Axes(true, true, true), v)
  }

  /** A line without its R word. */
  lemma WithoutR(m: Machine, base: Motion, b0: Block, pre: seq<Word>, r: real, post: seq<Word>, b: Block) returns (c: Block)
    requires W.TakeAll(m, base, b0, pre + [R(r)] + post) == Accept(b)
    ensures W.TakeAll(m, base, b0, pre + post) == Accept(c) && 'R' !in c.words && b == PutWord(c, 'R', r)
  {
    hide W.TakeAll, W.Take, PutWord, W.CommandOf;
    assert pre + [R(r)] + post == pre + ([R(r)] + post) && pre + post + [R(r)] == pre + (post + [R(r)]);
    W.TakeConcat(m, base, b0, pre, [R(r)] + post);
    W.TakeConcat(m, base, b0, pre, post + [R(r)]);
    assert !W.IsCommand(R(r));
    W.QuietToBack(m, base, W.TakeAll(m, base, b0, pre).value, R(r), post);
    W.TakeConcat(m, base, b0, pre + post, [R(r)]);
    c := W.TakeAll(m, base, b0, pre + post).value;
    W.TakeOne(m, base, c, R(r));
    W.TakeMeans(m, base, c, R(r));
  }

  lemma TakesNumber(m: Machine, base: Motion, b: Block, letter: char, x: real)
    requires letter in {'I', 'J', 'K'} && letter !in b.words
    ensures W.Take(m, base, b, Word(letter, Some(x))) == Accept(PutWord(b, letter, x))
  {
    hide PutWord, W.Take, Mantissa, IntPart;
    W.TakeMeans(m, base, b, Word(letter, Some(x)));
  }

  /** And with the words of a centre behind it. */
  lemma WithCentre(m: Machine, base: Motion, c: Block, v: Vec)
    requires c.words !! {'I', 'J', 'K'}
    ensures W.TakeAll(m, base, c, CentreWords(v)) == Accept(PutWord(PutWord(PutWord(c, 'I', v.x), 'J', v.y), 'K', v.z))
  {
    var words := CentreWords(v);
    var c1 := PutWord(c, 'I', v.x);
    var c2 := PutWord(c1, 'J', v.y);
    assert c1.words == c.words + {'I'} && c2.words == c.words + {'I', 'J'};
    assert words == [Word('I', Some(v.x))] + ([Word('J', Some(v.y))] + [Word('K', Some(v.z))]);
    hide W.TakeAll, W.Take, PutWord, CentreWords;
    W.TakeConcat(m, base, c, [Word('I', Some(v.x))], [Word('J', Some(v.y))] + [Word('K', Some(v.z))]);
    W.TakeOne(m, base, c, Word('I', Some(v.x)));
    TakesNumber(m, base, c, 'I', v.x);
    W.TakeConcat(m, base, c1, [Word('J', Some(v.y))], [Word('K', Some(v.z))]);
    W.TakeOne(m, base, c1, Word('J', Some(v.y)));
    TakesNumber(m, base, c1, 'J', v.y);
    W.TakeOne(m, base, c2, Word('K', Some(v.z)));
    TakesNumber(m, base, c2, 'K', v.z);
  }

  lemma RecentredIs(c: Block, r: real, v: Vec)
    requires 'R' !in c.words && c.words !! {'I', 'J', 'K'} && c.values.r == 0.0
    ensures PutWord(PutWord(PutWord(c, 'I', v.x), 'J', v.y), 'K', v.z) == Recentred(PutWord(c, 'R', r), FullCentre(v))
  {
    assert c.words + {'R'} - {'R'} + {'I', 'J', 'K'} == c.words + {'I'} + {'J'} + {'K'};
  }

  /** The line without its R, read. */
  lemma WithoutRRead(m: Machine, st: State, line: Line, words: seq<Word>, c: Block)
    requires (forall w <- words :: w.letter != 'O') && W.TakeAll(m, st.modal.motion, NewBlock(st, line.jog), words) == Accept(c)
    requires 'R' !in c.words
    ensures c.values.r == 0.0
  {
    var other := line.(words := words);
    hide ScanWords, W.TakeAll, NewBlock, ScanFacts.Read;
    W.ScanTakesAll(m, st.modal.motion, Scan(NewBlock(st, line.jog), 0), words);
    ScanFacts.LineReads(m, st, other);
    RadiusUnread(st, line.jog, c);
  }

  lemma RadiusUnread(st: State, jog: bool, c: Block)
    requires ScanFacts.ReadValues(NewBlock(st, jog), c) && 'R' !in c.words
    ensures c.values.r == 0.0
  {
    assert ScanFacts.NumberOf(c.values, 'R') == ScanFacts.NumberOf(NewBlock(st, jog).values, 'R');
  }

  /** The line with I, J and K for its R reads as the block with a centre. */
  lemma RewrittenReads(m: Machine, st: State, line: Line, pre: seq<Word>, r: real, post: seq<Word>, v: Vec)
    requires line.words == pre + [R(r)] + post && (forall w <- line.words :: w.letter != 'O')
    requires ScanLine(m, st, line).Accept? && ScanLine(m, st, line).value.words !! {'I', 'J', 'K'}
    ensures ScanLine(m, st, line.(words := pre + post + CentreWords(v))) == Accept(Recentred(ScanLine(m, st, line).value, FullCentre(v)))
  {
    var b, base, b0 := ScanLine(m, st, line).value, st.modal.motion, NewBlock(st, line.jog);
    var other := line.(words := pre + post + CentreWords(v));
    assert forall w <- pre + post :: w in line.words;
    assert forall w <- other.words :: w.letter != 'O';
    hide W.TakeAll, ScanWords, NewBlock, PutWord, Recentred;
    W.ScanTakesAll(m, base, Scan(b0, 0), line.words);
    W.ScanTakesAll(m, base, Scan(b0, 0), other.words);
    var c := WithoutR(m, base, b0, pre, r, post, b);
    WithoutRRead(m, st, line, pre + post, c);
    PutRadius(c, r);
    W.TakeConcat(m, base, b0, pre + post, CentreWords(v));
    WithCentre(m, base, c, v);
    RecentredIs(c, r, v);
  }

  lemma PutRadius(c: Block, r: real)
    ensures PutWord(c, 'R', r).words == c.words + {'R'}
  {
  }

  lemma NoCentreRead(m: Machine, st: State, b: Block, w: Work)
    requires Validate(m, st, b) == Go(w) && ScanFacts.Covered(b) && ByRadius(b)
    ensures b.words !! {'I', 'J', 'K'}
  {
    assert ByRadius(b) ==> ImpliedCmd(b).MotionCmd? && b.modal.motion.Arc() && !b.modal.canned && 'R' in b.words;
    Quirks.ValidatedIs(m, st, b, w);
    MotionBlock(m, st, b);
    CycleLetters(b);
    KIsLeft(b);
    hide *;
    var w2 := AtMotion(m, st, b);
    MotionIsArc(m, w2);
    ForgetIs(w2);
    NoCentreWords(m, ForgetRetract(w2));
    StillDisjoint(b.words, WordsUsed(b));
  }

  lemma KIsLeft(b: Block)
    requires b.modal.motion.Arc()
    ensures WordsUsed(b) !! {'I', 'J', 'K'}
  {
  }

  lemma StillDisjoint(words: set<char>, used: set<char>)
    requires words - used !! {'I', 'J', 'K'} && used !! {'I', 'J', 'K'}
    ensures words !! {'I', 'J', 'K'}
  {
    forall l <- {'I', 'J', 'K'}
      ensures l !in words
    {
      assert l !in used && l !in words - used;
    }
  }

  /** An accepted arc by radius that goes somewhere in the plane, written with I, J and K for its R, in numbers that mean its
      centre: the line is carried out with the same answer, the same motions and the same state. */
  lemma RewrittenArc(m: Machine, st: State, line: Line, w: Work, pre: seq<Word>, r: real, post: seq<Word>, v: Vec)
    requires ExactRoots(m) && Offsets.Reaches(m, st, line, w) && !line.jog && ByRadius(ScanLine(m, st, line).value)
    requires PlaneOf(w.b.modal.plane, w.b.values.xyz) != PlaneOf(w.b.modal.plane, st.position)
    requires line.words == pre + [R(r)] + post && Means(st, ScanLine(m, st, line).value, FullCentre(v), w)
    ensures Execute(m, st, line.(words := pre + post + CentreWords(v))) == Execute(m, st, line)
  {
    var b := ScanLine(m, st, line).value;
    assert Offsets.Reaches(m, st, line, w) ==> ScanLine(m, st, line).Accept? && Validate(m, st, b) == Go(w);
    assert |CentreWords(v)| == 3;
    hide *;
    LineCovers(m, st, line);
    NoCentreRead(m, st, b, w);
    ReachedOk(m, st, line, w);
    W.OWordIsRefused(m, st, line);
    RewrittenReads(m, st, line, pre, r, post, v);
    RadiusAsCentre(m, st, line, line.(words := pre + post + CentreWords(v)), FullCentre(v), w);
  }

  lemma ReachedOk(m: Machine, st: State, line: Line, w: Work)
    requires Offsets.Reaches(m, st, line, w) && !line.jog
    ensures Execute(m, st, line).status == Ok
  {
    hide Offsets.Reaches, Execute, Commit;
    Offsets.Carried(m, st, line, w);
    CommitSucceeds(m, w, line.env);
  }
}
