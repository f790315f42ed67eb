/** In single-block mode M2 and M30 are no ends: a line does what it does without them. */
module SingleBlock {
  import opened GcTypes
  import opened Scanner
  import opened Validation
  import opened Execution
  import Frames
  import ScanFacts
  import Offsets
  import Quirks
  import W = WordOrder
  import G = Geometry

  /** The block with a word of group M4. */
  function Marked(b: Block, flow: Flow): Block {
    b.(flow := flow, groups := b.groups + {M4})
  }

  function Mark(w: Work, flow: Flow): Work {
    w.(b := Marked(w.b, flow))
  }

  ghost function MarkedOutcome(o: Outcome, flow: Flow): Outcome {
    if o.Stop? then o else Go(Mark(o.w, flow))
  }

  /** What the checks see of such a block. */
  lemma MarkSeen(w: Work, f: Flow)
    ensures var b, c := w.b, Mark(w, f).b;
            && c.jog == b.jog && c.nonModal == b.nonModal && c.overrideCmd == b.overrideCmd && c.modal == b.modal
            && c.spindleOn == b.spindleOn && c.spindleCcw == b.spindleCcw && c.values == b.values && c.words == b.words
            && c.axisCmd == b.axisCmd && c.axisWords == b.axisWords && c.ijkWords == b.ijkWords && c.setTool == b.setTool
            && c.cannedChange == b.cannedChange
    ensures Mark(w, f).st == w.st
    ensures forall g: Group :: g != M4 ==> (g in Mark(w, f).b.groups <==> g in w.b.groups)
    ensures SingleSpindle(Mark(w, f).b) == SingleSpindle(w.b)
  {
  }

  lemma MarkSetters(f: Flow)
    ensures forall w, v {:trigger SetValues(Mark(w, f), v)} :: SetValues(Mark(w, f), v) == Mark(SetValues(w, v), f)
    ensures forall w, l {:trigger Consume(Mark(w, f), l)} :: Consume(Mark(w, f), l) == Mark(Consume(w, l), f)
  {
  }

  lemma MarkModeSetters(f: Flow)
    ensures forall w, c {:trigger SetCtrl(Mark(w, f), c)} :: SetCtrl(Mark(w, f), c) == Mark(SetCtrl(w, c), f)
    ensures forall w, x, y {:trigger SetSpindle(Mark(w, f), x, y)} :: SetSpindle(Mark(w, f), x, y) == Mark(SetSpindle(w, x, y), f)
  {
  }

  lemma MarkMotionSetters(f: Flow)
    ensures forall w, c {:trigger SetAxisCmd(Mark(w, f), c)} :: SetAxisCmd(Mark(w, f), c) == Mark(SetAxisCmd(w, c), f)
    ensures forall w, t {:trigger SetTurns(Mark(w, f), t)} :: SetTurns(Mark(w, f), t) == Mark(SetTurns(w, t), f)
    ensures forall w {:trigger ForgetRetract(Mark(w, f))} :: ForgetRetract(Mark(w, f)) == Mark(ForgetRetract(w), f)
  {
  }

  lemma MarkStateSetters(f: Flow)
    ensures forall w, c {:trigger SetCanned(Mark(w, f), c)} :: SetCanned(Mark(w, f), c) == Mark(SetCanned(w, c), f)
    ensures forall w, p {:trigger SetSplinePq(Mark(w, f), p)} :: SetSplinePq(Mark(w, f), p) == Mark(SetSplinePq(w, p), f)
    ensures forall w, i, d {:trigger SetCoordData(Mark(w, f), i, d)} :: SetCoordData(Mark(w, f), i, d) == Mark(SetCoordData(w, i, d), f)
    ensures forall w, x {:trigger SetCoordXyz(Mark(w, f), x)} :: SetCoordXyz(Mark(w, f), x) == Mark(SetCoordXyz(w, x), f)
  {
  }

  lemma MarkCommon(w: Work, f: Flow)
    ensures CheckCommon(Mark(w, f)) == MarkedOutcome(CheckCommon(w), f)
  {
    MarkSeen(w, f);
    MarkMotionSetters(f);
    var w1 := if w.b.axisWords.Any() && w.b.axisCmd.NoAxisCmd? then SetAxisCmd(w, MotionCmd) else w;
    MarkSeen(w1, f);
    hide Mark, SetAxisCmd;
  }

  lemma MarkFeed(w: Work, f: Flow)
    ensures CheckFeed(Mark(w, f)) == MarkedOutcome(CheckFeed(w), f)
  {
    MarkSeen(w, f);
    MarkSetters(f);
    hide Mark, SetValues, Consume, ToMillimetres;
  }

  lemma MarkSpindle(m: Machine, w: Work, f: Flow)
    ensures CheckSpindle(m, Mark(w, f)) == MarkedOutcome(CheckSpindle(m, w), f)
  {
    MarkSeen(w, f);
    MarkSetters(f);
    var w1 := Consume(w, {'$'});
    MarkSeen(w1, f);
    hide Mark, SetValues, Consume, SingleSpindle;
  }

  lemma MarkTool(w: Work, f: Flow)
    ensures CheckTool(Mark(w, f)) == MarkedOutcome(CheckTool(w), f)
    ensures CheckDwell(Mark(w, f)) == MarkedOutcome(CheckDwell(w), f)
  {
    MarkSeen(w, f);
    MarkSetters(f);
    hide Mark, SetValues, Consume, IsInt, ToUint32;
  }

  lemma MarkOverride(w: Work, f: Flow)
    ensures CheckOverride(Mark(w, f)) == MarkedOutcome(CheckOverride(w), f)
  {
    MarkSeen(w, f);
    MarkSetters(f);
    MarkModeSetters(f);
    var p := if 'P' in w.b.words then w.b.values.p else 1.0;
    MarkSeen(SetCtrl(w, Overridden(w.b.modal.ctrl, w.b.overrideCmd, p)), f);
    hide Mark, SetValues, Consume, SetCtrl, Overridden;
  }

  lemma MarkSpindleState(m: Machine, w: Work, f: Flow)
    ensures CheckSpindleState(m, Mark(w, f)) == MarkedOutcome(CheckSpindleState(m, w), f)
  {
    MarkSeen(w, f);
    MarkModeSetters(f);
    hide Mark, SetSpindle;
  }

  lemma MarkUnits(w: Work, f: Flow)
    ensures ConvertUnits(Mark(w, f)) == Mark(ConvertUnits(w), f)
    ensures ScaleAxes(Mark(w, f)) == Mark(ScaleAxes(w), f)
  {
    hide Pick, Vec.Mul, Vec.Plus, Vec.Minus, Vec.Times;
  }

  lemma MarkScaling(w: Work, f: Flow)
    ensures CheckScaling(Mark(w, f)) == MarkedOutcome(CheckScaling(w), f)
  {
    hide Pick;
  }

  lemma MarkTarget(w: Work, f: Flow)
    ensures SelectCoord(Mark(w, f)) == Mark(SelectCoord(w), f)
    ensures ComputeTarget(Mark(w, f)) == Mark(ComputeTarget(w), f)
  {
    hide Pick, Vec.Plus;
  }

  lemma MarkToolOffset(w: Work, f: Flow)
    ensures CheckToolOffset(Mark(w, f)) == MarkedOutcome(CheckToolOffset(w), f)
  {
    MarkSeen(w, f);
    hide Mark;
  }

  lemma MarkWritten(w: Work, f: Flow)
    ensures WrittenCoord(Mark(w, f).b) == WrittenCoord(w.b) && WrittenData(Mark(w, f)) == WrittenData(w)
  {
    hide Pick, Vec.Minus, ToUint32;
  }

  lemma MarkData(m: Machine, w: Work, f: Flow)
    ensures CheckCoordData(m, Mark(w, f)) == MarkedOutcome(CheckCoordData(m, w), f)
  {
    MarkSeen(w, f);
    MarkWritten(w, f);
    MarkSetters(f);
    MarkStateSetters(f);
    hide Mark, WrittenCoord, WrittenData, Consume, SetCoordData, ToUint32;
  }

  lemma MarkOffset(w: Work, f: Flow)
    ensures CheckSetOffset(Mark(w, f)) == MarkedOutcome(CheckSetOffset(w), f)
    ensures CheckHome(Mark(w, f), STORE_G28) == MarkedOutcome(CheckHome(w, STORE_G28), f)
    ensures CheckHome(Mark(w, f), STORE_G30) == MarkedOutcome(CheckHome(w, STORE_G30), f)
  {
    hide Pick, Vec.Plus, Vec.Minus;
  }

  lemma MarkNonModal(m: Machine, w: Work, f: Flow)
    ensures CheckNonModal(m, Mark(w, f)) == MarkedOutcome(CheckNonModal(m, w), f)
  {
    MarkSeen(w, f);
    MarkTarget(w, f);
    if w.b.nonModal.SetCoordinateData? {
      MarkData(m, w, f);
    } else if w.b.nonModal.SetOffset? {
      MarkOffset(w, f);
    } else {
      MarkOffset(ComputeTarget(w), f);
    }
    hide Mark, ComputeTarget, CheckCoordData, CheckSetOffset, CheckHome;
  }

  lemma MarkWords(m: Machine, w: Work, f: Flow)
    ensures CheckWords(m, Mark(w, f)) == MarkedOutcome(CheckWords(m, w), f)
  {
    hide CheckCommon, CheckFeed, CheckSpindle, CheckTool, CheckSpindleState, CheckOverride, CheckDwell, Mark;
    MarkCommon(w, f);
    if CheckCommon(w).Go? {
      var w1 := CheckCommon(w).w;
      MarkFeed(w1, f);
      if CheckFeed(w1).Go? {
        var w2 := CheckFeed(w1).w;
        MarkSpindle(m, w2, f);
        if CheckSpindle(m, w2).Go? {
          var w3 := CheckSpindle(m, w2).w;
          MarkTool(w3, f);
          if CheckTool(w3).Go? {
            var w4 := CheckTool(w3).w;
            MarkSpindleState(m, w4, f);
            if CheckSpindleState(m, w4).Go? {
              var w5 := CheckSpindleState(m, w4).w;
              MarkOverride(w5, f);
              if CheckOverride(w5).Go? {
                MarkTool(CheckOverride(w5).w, f);
              }
            }
          }
        }
      }
    }
  }

  lemma MarkAxes(m: Machine, w: Work, f: Flow)
    ensures CheckAxes(m, Mark(w, f)) == MarkedOutcome(CheckAxes(m, w), f)
  {
    hide ConvertUnits, CheckScaling, ScaleAxes, CheckToolOffset, SelectCoord, CheckNonModal, Mark;
    MarkUnits(w, f);
    MarkScaling(ConvertUnits(w), f);
    if CheckScaling(ConvertUnits(w)).Go? {
      var w1 := CheckScaling(ConvertUnits(w)).w;
      MarkUnits(w1, f);
      MarkToolOffset(ScaleAxes(w1), f);
      if CheckToolOffset(ScaleAxes(w1)).Go? {
        var w2 := CheckToolOffset(ScaleAxes(w1)).w;
        MarkTarget(w2, f);
        MarkNonModal(m, SelectCoord(w2), f);
      }
    }
  }

  // ---------------------------------------------------------------- motion

  lemma MarkTurns(w: Work, f: Flow)
    ensures CheckTurns(Mark(w, f)) == MarkedOutcome(CheckTurns(w), f)
  {
    MarkSeen(w, f);
    MarkSetters(f);
    MarkMotionSetters(f);
    hide Mark, SetTurns, Consume, IsInt, ToUint32;
  }

  lemma MarkRadius(m: Machine, w: Work, f: Flow)
    ensures CheckRadiusArc(m, Mark(w, f)) == MarkedOutcome(CheckRadiusArc(m, w), f)
  {
    MarkSeen(w, f);
    MarkSetters(f);
    assert ProgrammedRadius(Mark(w, f)) == ProgrammedRadius(w);
    hide Mark, SetValues, Consume, ProgrammedRadius, RadiusCentre, G.FourHSquared, Vec.Put, G.Abs;
  }

  lemma MarkCentre(m: Machine, w: Work, f: Flow)
    ensures CheckCentreArc(m, Mark(w, f)) == MarkedOutcome(CheckCentreArc(m, w), f)
  {
    MarkSeen(w, f);
    MarkSetters(f);
    assert CentreOffsets(Mark(w, f)) == CentreOffsets(w);
    hide Mark, SetValues, Consume, CentreOffsets, RadiiAgree, Distance;
  }

  lemma MarkArc(m: Machine, w: Work, f: Flow)
    ensures CheckArc(m, Mark(w, f)) == MarkedOutcome(CheckArc(m, w), f)
  {
    MarkSeen(w, f);
    MarkTurns(w, f);
    if CheckTurns(w).Go? {
      MarkSeen(CheckTurns(w).w, f);
      MarkRadius(m, CheckTurns(w).w, f);
      MarkCentre(m, CheckTurns(w).w, f);
    }
    hide Mark, CheckTurns, CheckRadiusArc, CheckCentreArc;
  }

  lemma MarkLengths(w: Work, f: Flow)
    ensures CubicOffset(Mark(w, f)) == CubicOffset(w) && SplineOffset(Mark(w, f), w.b.values.ijk) == SplineOffset(w, w.b.values.ijk)
    ensures PlanarLength(Mark(w, f), w.b.values.p, 0) == PlanarLength(w, w.b.values.p, 0)
    ensures PlanarLength(Mark(w, f), w.b.values.q, 1) == PlanarLength(w, w.b.values.q, 1)
  {
  }

  lemma MarkSplines(w: Work, f: Flow)
    ensures CheckCubic(Mark(w, f)) == MarkedOutcome(CheckCubic(w), f)
    ensures CheckQuadratic(Mark(w, f)) == MarkedOutcome(CheckQuadratic(w), f)
  {
    MarkSeen(w, f);
    MarkLengths(w, f);
    MarkSetters(f);
    MarkStateSetters(f);
    hide Mark, SetValues, Consume, SetSplinePq, CubicOffset, SplineOffset, PlanarLength;
  }

  lemma MarkCannedSteps(w: Work, f: Flow)
    ensures CannedReset(Mark(w, f)) == Mark(CannedReset(w), f)
    ensures CannedRetract(Mark(w, f)) == Mark(CannedRetract(w), f)
    ensures CannedTarget(Mark(w, f)) == Mark(CannedTarget(w), f)
    ensures CannedDelta(Mark(w, f)) == Mark(CannedDelta(w), f)
    ensures AtBottom(Mark(w, f)) == Mark(AtBottom(w), f)
    ensures DefaultRepeats(Mark(w, f)) == Mark(DefaultRepeats(w), f)
  {
    MarkSeen(w, f);
    MarkSetters(f);
    MarkStateSetters(f);
    hide Mark, SetCanned, SetValues, Pick, Vec.Put, Vec.At, Vec.Minus, Vec.Plus, ToMillimetres;
  }

  lemma MarkDwell(w: Work, f: Flow)
    ensures CannedDwell(Mark(w, f)) == MarkedOutcome(CannedDwell(w), f)
    ensures CannedPeck(Mark(w, f)) == MarkedOutcome(CannedPeck(w), f)
  {
    MarkSeen(w, f);
    MarkSetters(f);
    MarkStateSetters(f);
    hide Mark, SetCanned, Consume, ToMillimetres;
  }

  lemma MarkBottom(w: Work, f: Flow)
    requires w.b.modal.motion.Canned82? || w.b.modal.motion.Canned86? || w.b.modal.motion.Canned89?
    ensures CheckDrill(Mark(w, f)) == MarkedOutcome(CheckDrill(w), f)
  {
    MarkSeen(w, f);
    MarkCannedSteps(w, f);
    MarkDwell(AtBottom(w), f);
    if CannedDwell(AtBottom(w)).Go? {
      MarkCannedSteps(CannedDwell(AtBottom(w)).w, f);
    }
    hide Mark, CannedDwell, CannedPeck, CannedDelta, AtBottom;
  }

  lemma MarkPecking(w: Work, f: Flow)
    requires w.b.modal.motion.ChipBreak? || w.b.modal.motion.Canned83?
    ensures CheckDrill(Mark(w, f)) == MarkedOutcome(CheckDrill(w), f)
  {
    MarkSeen(w, f);
    MarkDwell(w, f);
    hide Mark, CannedPeck;
  }

  lemma MarkOneGo(w: Work, f: Flow)
    requires w.b.modal.motion.Canned81? || w.b.modal.motion.Canned85?
    ensures CheckDrill(Mark(w, f)) == MarkedOutcome(CheckDrill(w), f)
  {
    MarkSeen(w, f);
    MarkCannedSteps(w, f);
    hide Mark, CannedDelta;
  }

  lemma MarkDrill(w: Work, f: Flow)
    ensures CheckDrill(Mark(w, f)) == MarkedOutcome(CheckDrill(w), f)
  {
    var motion := w.b.modal.motion;
    MarkSeen(w, f);
    if motion.Canned82? || motion.Canned86? || motion.Canned89? {
      MarkBottom(w, f);
    } else if motion.ChipBreak? || motion.Canned83? {
      MarkPecking(w, f);
    } else if motion.Canned81? || motion.Canned85? {
      MarkOneGo(w, f);
    } else {
      hide Mark;
    }
  }

  lemma MarkCycle(w: Work, f: Flow)
    ensures CheckCycle(Mark(w, f)) == MarkedOutcome(CheckCycle(w), f)
  {
    MarkSeen(w, f);
    MarkCannedSteps(w, f);
    MarkCannedSteps(CannedRetract(w), f);
    var w1 := CannedTarget(CannedRetract(w));
    MarkSeen(w1, f);
    MarkSetters(f);
    MarkDrill(Consume(w1, {'R', 'L'}), f);
    hide Mark, CannedRetract, CannedTarget, CheckDrill, Consume;
  }

  lemma MarkCanned(w: Work, f: Flow)
    ensures CheckCanned(Mark(w, f)) == MarkedOutcome(CheckCanned(w), f)
  {
    MarkSeen(w, f);
    MarkCannedSteps(w, f);
    var w1 := if w.b.cannedChange then CannedReset(w) else w;
    MarkCannedSteps(w1, f);
    MarkSeen(w1, f);
    MarkCycle(DefaultRepeats(w1), f);
    hide Mark, CannedReset, DefaultRepeats, CheckCycle;
  }

  lemma MarkMode(m: Machine, w: Work, f: Flow)
    ensures CheckMode(m, Mark(w, f)) == MarkedOutcome(CheckMode(m, w), f)
  {
    MarkSeen(w, f);
    MarkMotionSetters(f);
    MarkCanned(w, f);
    MarkArc(m, w, f);
    MarkSplines(w, f);
    hide Mark, CheckCanned, CheckArc, CheckCubic, CheckQuadratic, SetAxisCmd;
  }

  lemma MarkMotion(m: Machine, w: Work, f: Flow)
    ensures CheckMotion(m, Mark(w, f)) == MarkedOutcome(CheckMotion(m, w), f)
  {
    MarkSeen(w, f);
    MarkMotionSetters(f);
    var w1 := if w.b.modal.canned then w else ForgetRetract(w);
    MarkSeen(w1, f);
    MarkMode(m, w1, f);
    hide Mark, CheckMode, ForgetRetract, SetAxisCmd;
  }

  lemma MarkUnused(w: Work, f: Flow)
    ensures CheckUnused(Mark(w, f)) == MarkedOutcome(CheckUnused(w), f)
  {
    MarkSeen(w, f);
    MarkSetters(f);
    var w1 := Consume(w, if w.b.jog then {'N', 'F'} else {'N', 'F', 'S', 'T'});
    MarkSeen(w1, f);
    MarkSeen(if w1.b.axisCmd.NoAxisCmd? then w1 else Consume(w1, {'X', 'Y', 'Z'}), f);
    hide Mark, Consume;
  }

  lemma FreshMarks(st: State, b: Block, f: Flow)
    ensures Frames.Fresh(st, Marked(b, f)) == Mark(Frames.Fresh(st, b), f)
  {
  }

  /** No check looks at M2 and M30. */
  lemma MarkValidates(m: Machine, st: State, b: Block, f: Flow)
    ensures Validate(m, st, Marked(b, f)) == MarkedOutcome(Validate(m, st, b), f)
  {
    hide CheckWords, CheckAxes, CheckMotion, CheckUnused, Mark, Marked;
    FreshMarks(st, b, f);
    MarkWords(m, Frames.Fresh(st, b), f);
    if CheckWords(m, Frames.Fresh(st, b)).Go? {
      var w1 := CheckWords(m, Frames.Fresh(st, b)).w;
      MarkAxes(m, w1, f);
      if CheckAxes(m, w1).Go? {
        var w2 := CheckAxes(m, w1).w;
        MarkMotion(m, w2, f);
        if CheckMotion(m, w2).Go? {
          MarkUnused(CheckMotion(m, w2).w, f);
        }
      }
    }
  }

  // ---------------------------------------------------------------- execution

  lemma MarkBasics(w: Work, f: Flow, env: Env, st: State)
    ensures CommitBasics(Mark(w, f), st) == CommitBasics(w, st)
    ensures CommitTool(Mark(w, f), env, st) == CommitTool(w, env, st)
    ensures CommitToolOffset(Mark(w, f), st) == CommitToolOffset(w, st)
  {
    hide Pick;
  }

  lemma MarkSystems(w: Work, f: Flow, st: State)
    ensures CommitCoord(Mark(w, f), st) == CommitCoord(w, st) && CommitDistance(Mark(w, f), st) == CommitDistance(w, st)
  {
  }

  lemma MarkModes(w: Work, f: Flow, env: Env)
    ensures CommitModes(Mark(w, f), env) == CommitModes(w, env)
  {
    assert Mark(w, f).st == w.st;
    hide *;
    Quirks.ModesAre(w, env);
    Quirks.ModesAre(Mark(w, f), env);
    MarkBasics(w, f, env, w.st);
    var st1 := CommitBasics(w, w.st);
    MarkBasics(w, f, env, st1);
    var st2 := CommitTool(w, env, st1);
    MarkBasics(w, f, env, st2);
    var st3 := CommitToolOffset(w, st2);
    MarkSystems(w, f, st3);
    MarkSystems(w, f, CommitCoord(w, st3));
  }

  lemma MarkActions(m: Machine, w: Work, f: Flow, env: Env, st: State)
    ensures CommitNonModal(m, Mark(w, f), st) == CommitNonModal(m, w, st)
    ensures CommitMotion(Mark(w, f), env, st) == CommitMotion(w, env, st)
    ensures DwellEvents(Mark(w, f)) == DwellEvents(w) && HomeEvents(Mark(w, f)) == HomeEvents(w)
  {
  }

  lemma MarkEvents(w: Work, f: Flow, st: State)
    ensures MotionEvents(Mark(w, f), st) == MotionEvents(w, st)
  {
  }

  lemma PausesOnly(w: Work, env: Env, st: State)
    requires env.singleBlock
    ensures CommitFlow(w, env, st) == st
  {
  }

  lemma MarkCommits(m: Machine, w: Work, f: Flow, env: Env)
    requires env.singleBlock
    ensures Commit(m, Mark(w, f), env) == Commit(m, w, env)
  {
    hide *;
    Offsets.CommitIs(m, w, env);
    Offsets.CommitIs(m, Mark(w, f), env);
    MarkModes(w, f, env);
    var st1 := CommitModes(w, env);
    MarkActions(m, w, f, env, st1);
    var st2 := CommitNonModal(m, w, st1);
    MarkActions(m, w, f, env, st2);
    MarkEvents(w, f, st2);
    PausesOnly(w, env, CommitMotion(w, env, st2));
    PausesOnly(Mark(w, f), env, CommitMotion(w, env, st2));
  }

  lemma MarkExecutes(m: Machine, st: State, b: Block, f: Flow, env: Env)
    requires env.singleBlock && !b.jog
    ensures ExecuteBlock(m, st, Marked(b, f), env) == ExecuteBlock(m, st, b, env)
  {
    assert !Marked(b, f).jog;
    hide Validate, Commit, CommitJog, Marked, Mark;
    MarkValidates(m, st, b, f);
    if Validate(m, st, b).Go? {
      MarkCommits(m, Validate(m, st, b).w, f, env);
    }
  }

  // ---------------------------------------------------------------- lines

  /** An M2 or an M30. */
  ghost predicate IsEnd(m: Machine, w: Word) {
    W.IsCommand(w) && exists f: Flow :: (f.CompletedM2? || f.CompletedM30?) && W.CommandOf(m, w) == Command(Some(M4), NoClaim, None, ToFlow(f))
  }

  lemma EndClaimsNothing(m: Machine, w: Word)
    requires IsEnd(m, w)
    ensures !W.Claiming(m, w) && !W.Grabbing(m, w)
  {
    hide W.CommandOf;
  }

  lemma AfterEnd(c: Block, base: Motion, f: Flow)
    requires W.Admits(c, Command(Some(M4), NoClaim, None, ToFlow(f)))
    ensures W.After(c, base, Command(Some(M4), NoClaim, None, ToFlow(f))) == Marked(c, f)
  {
  }

  /** The line without its end. */
  lemma WithoutEnd(m: Machine, base: Motion, b0: Block, pre: seq<Word>, w: Word, post: seq<Word>, b: Block)
    returns (c: Block, f: Flow)
    requires IsEnd(m, w) && W.TakeAll(m, base, b0, pre + [w] + post) == Accept(b)
    ensures W.TakeAll(m, base, b0, pre + post) == Accept(c) && b == Marked(c, f)
  {
    hide W.TakeAll, W.Take, W.CommandOf, W.After, W.Admits, Marked;
    assert pre + [w] + post == pre + ([w] + post) && pre + post + [w] == pre + (post + [w]);
    EndClaimsNothing(m, w);
    W.TakeConcat(m, base, b0, pre, [w] + post);
    W.TakeConcat(m, base, b0, pre, post + [w]);
    W.QuietToBack(m, base, W.TakeAll(m, base, b0, pre).value, w, post);
    W.TakeConcat(m, base, b0, pre + post, [w]);
    c := W.TakeAll(m, base, b0, pre + post).value;
    W.TakeOne(m, base, c, w);
    W.TakeMeans(m, base, c, w);
    f :| (f.CompletedM2? || f.CompletedM30?) && W.CommandOf(m, w) == Command(Some(M4), NoClaim, None, ToFlow(f));
    AfterEnd(c, base, f);
  }

  /** In single-block mode a line that is carried out does what it does without its M2 or M30. */
  lemma SingleBlockOnlyPauses(m: Machine, st: State, line: Line, pre: seq<Word>, w: Word, post: seq<Word>)
    requires ScanLine(m, st, line).Accept? && Execute(m, st, line).status == Ok && !line.jog && line.env.singleBlock
    requires line.words == pre + [w] + post && IsEnd(m, w) && pre + post != []
    ensures Execute(m, st, line.(words := pre + post)) == Execute(m, st, line)
  {
    var base, b0 := st.modal.motion, NewBlock(st, line.jog);
    W.OWordIsRefused(m, st, line);
    assert forall v <- pre + post :: v in line.words;
    hide W.TakeAll, ScanWords, NewBlock, Marked, ExecuteBlock, IsEnd;
    W.ScanTakesAll(m, base, Scan(b0, 0), line.words);
    W.ScanTakesAll(m, base, Scan(b0, 0), pre + post);
    var c, f := WithoutEnd(m, base, b0, pre, w, post, ScanLine(m, st, line).value);
    ReadIsNoJog(m, st, line.(words := pre + post));
    MarkExecutes(m, st, c, f, line.env);
  }

  lemma ReadIsNoJog(m: Machine, st: State, line: Line)
    requires ScanLine(m, st, line).Accept?
    ensures ScanLine(m, st, line).value.jog == line.jog
  {
    hide ScanLine, ScanFacts.Read, ScanFacts.ReadValues;
    ScanFacts.LineReads(m, st, line);
    Offsets.JogIs(st, line.jog, ScanLine(m, st, line).value);
  }
}
