/** The arcs and splines that the checks let through are the ones that were programmed. */
module Curves {
  import opened GcTypes
  import opened Scanner
  import opened Validation
  import opened Execution
  import opened Frames
  import ScanFacts
  import Atomicity
  import opened Offsets
  import opened Meaning
  import SameMeaning
  import Targets
  import WorkPositions
  import opened Refusals
  import Quirks
  import G = Geometry

  /** A square root that is one. */
  ghost predicate ExactRoots(m: Machine) {
    forall x :: x >= 0.0 ==> G.IsRoot(m.Root(x), x)
  }

  lemma RootOf(m: Machine, x: real)
    requires ExactRoots(m) && x >= 0.0
    ensures G.IsRoot(m.Root(x), x)
  {
  }

  lemma SquaresAdd(x: real, y: real, xx: real, yy: real)
    requires xx == x * x && yy == y * y
    ensures xx + yy >= 0.0 && (xx + yy == 0.0 <==> x == 0.0 && y == 0.0)
  {
    G.SquareSign(x, xx);
    G.SquareSign(y, yy);
  }

  /** From the start of the arc to its end, in the plane. */
  function Chord(w: Work): Planar {
    PlaneOf(w.b.modal.plane, w.b.values.xyz.Minus(w.st.position))
  }

  /** The signed area of travel and centre: positive if the centre is on the left. */
  function LeftOf(end: Planar, centre: Planar): real {
    G.Side(end.x, end.y, centre.x, centre.y)
  }

  ghost predicate OnCircle(end: Planar, centre: Planar, r: real) {
    && centre.x * centre.x + centre.y * centre.y == r * r
    && (end.x - centre.x) * (end.x - centre.x) + (end.y - centre.y) * (end.y - centre.y) == r * r
  }

  /** The centre is at the distance |r| from both ends: right of the travel for G2 with r > 0 and left for G3, the other way
      round for r < 0, and between the ends for a half circle. */
  ghost predicate TurnsAs(end: Planar, centre: Planar, r: real, ccw: bool) {
    && OnCircle(end, centre, r)
    && (LeftOf(end, centre) == 0.0 <==> G.FourHSquared(end.x, end.y, r) == 0.0)
    && (LeftOf(end, centre) != 0.0 ==> (LeftOf(end, centre) > 0.0 <==> ccw == (r >= 0.0)))
  }

  lemma CentreOfRadius(m: Machine, ccw: bool, end: Planar, r: real)
    requires ExactRoots(m) && G.FourHSquared(end.x, end.y, r) >= 0.0 && !(end.x == 0.0 && end.y == 0.0)
    ensures TurnsAs(end, RadiusCentre(m, ccw, end, r), r, ccw)
  {
    var x, y := end.x, end.y;
    var d, s := Hypot(m, x, y), m.Root(G.FourHSquared(x, y, r));
    HypotIs(m, x, y);
    RootOf(m, G.FourHSquared(x, y, r));
    RootZero(s, G.FourHSquared(x, y, r));
    hide G.CentreI, G.CentreJ, G.CentreOffset, G.FourHSquared, G.Side, G.IsRoot, Machine.Root, Hypot;
    var h := G.CentreOffset(s, d, ccw, r);
    assert RadiusCentre(m, ccw, end, r) == Planar(G.CentreI(x, y, h), G.CentreJ(x, y, h));
    G.RadiusArcOnCircle(x, y, r, s, d, ccw);
    G.RadiusArcSide(x, y, r, s, d, ccw);
  }

  lemma HypotIs(m: Machine, x: real, y: real)
    requires ExactRoots(m)
    ensures G.IsRoot(Hypot(m, x, y), x * x + y * y)
    ensures !(x == 0.0 && y == 0.0) ==> Hypot(m, x, y) > 0.0
  {
    var dd := x * x + y * y;
    SquaresAdd(x, y, x * x, y * y);
    RootOf(m, dd);
    if !(x == 0.0 && y == 0.0) {
      RootPositive(m.Root(dd), dd);
    }
  }

  lemma RootPositive(d: real, dd: real)
    requires G.IsRoot(d, dd) && dd != 0.0
    ensures d > 0.0
  {
  }

  lemma RootZero(s: real, x: real)
    requires G.IsRoot(s, x)
    ensures s == 0.0 <==> x == 0.0
    ensures s >= 0.0
  {
    G.SquareSign(s, x);
  }

  lemma PutPlanar(p: Plane, v: Vec, c: Planar)
    ensures PlaneOf(p, v.Put(p.Axis0(), c.x).Put(p.Axis1(), c.y)) == c
  {
  }

  /** An arc given by its radius has its centre where its motion and the sign of R ask for it. */
  lemma RadiusArcIsRight(m: Machine, w: Work)
    requires ExactRoots(m) && CheckRadiusArc(m, w).Go? && !(Chord(w).x == 0.0 && Chord(w).y == 0.0)
    ensures var w1, r := CheckRadiusArc(m, w).w, ProgrammedRadius(w);
            var c := PlaneOf(w.b.modal.plane, w1.b.values.ijk);
            w1.b.values.r == G.Abs(r) && TurnsAs(Chord(w), c, r, w.b.modal.motion.CcwArc?)
  {
    var r := ProgrammedRadius(w);
    hide ProgrammedRadius, RadiusCentre, G.FourHSquared, G.Side, OnCircle, ExactRoots, SetValues, Consume, Vec.Put;
    var c := RadiusCentre(m, w.b.modal.motion.CcwArc?, Chord(w), r);
    CentreOfRadius(m, w.b.modal.motion.CcwArc?, Chord(w), r);
    PutPlanar(w.b.modal.plane, w.b.values.ijk, c);
    Setters();
  }

  lemma SameRadius(m: Machine, x: real, y: real, r: real)
    requires ExactRoots(m) && r >= 0.0 && x * x + y * y == r * r
    ensures Hypot(m, x, y) == r
  {
    HypotIs(m, x, y);
    hide Hypot, ExactRoots;
    G.RootUnique(Hypot(m, x, y), r, x * x + y * y);
  }

  lemma AbsSquare(r: real)
    ensures G.Abs(r) >= 0.0 && G.Abs(r) * G.Abs(r) == r * r
  {
  }

  /** Fed back as I, J and K, in numbers that mean it, the centre gives the same arc without any error of the radius. */
  lemma CentreFormatAgrees(m: Machine, w: Work, u: Work)
    requires ExactRoots(m) && CheckRadiusArc(m, w).Go? && !(Chord(w).x == 0.0 && Chord(w).y == 0.0)
    requires u.st.position == w.st.position
    requires u.b.modal.plane == w.b.modal.plane && u.b.values.xyz == w.b.values.xyz && InPlane(u.b.modal.plane, u.b.ijkWords)
    requires CentreOffsets(u) == CheckRadiusArc(m, w).w.b.values.ijk
    ensures var v := CheckRadiusArc(m, w).w.b.values;
            && CheckCentreArc(m, u).Go?
            && CheckCentreArc(m, u).w.b.values.ijk == v.ijk && CheckCentreArc(m, u).w.b.values.r == v.r
  {
    RadiusArcIsRight(m, w);
    var o := CheckRadiusArc(m, w);
    var v, r := o.w.b.values, ProgrammedRadius(w);
    AbsSquare(r);
    hide ProgrammedRadius, CheckRadiusArc, SetValues, Consume, G.Abs, CentreOffsets;
    var end, c := Chord(w), PlaneOf(w.b.modal.plane, v.ijk);
    BothRadii(m, end, c, r, v.r);
    NoError(v.r);
    hide Distance, RadiiAgree, OnCircle, ExactRoots, PlaneOf;
    Setters();
  }

  lemma BothRadii(m: Machine, end: Planar, c: Planar, r: real, a: real)
    requires ExactRoots(m) && OnCircle(end, c, r) && a >= 0.0 && a * a == r * r
    ensures Distance(m, end, c) == a && Distance(m, c, Planar(0.0, 0.0)) == a
  {
    SameRadius(m, end.x - c.x, end.y - c.y, a);
    SameRadius(m, c.x, c.y, a);
    hide Hypot;
    assert c.x - 0.0 == c.x && c.y - 0.0 == c.y;
  }

  lemma NoError(r: real)
    ensures RadiiAgree(r, r)
  {
  }

  /** G5.1 hands on a cubic spline that runs along the programmed quadratic one. */
  lemma QuadraticEventIsCurve(w: Work, st: State, t: real)
    requires w.b.modal.motion.QuadraticSpline? && Moves(w)
    ensures |MotionEvents(w, st)| == 1 && MotionEvents(w, st)[0].Spline?
    ensures var e, v, s := MotionEvents(w, st)[0], w.b.values, st.position;
            && e.start == s && e.target == v.xyz
            && G.EvalCubic(s.x, e.first.p, e.second.p, v.xyz.x, t) == G.EvalQuadratic(s.x, s.x + v.ijk.x, v.xyz.x, t)
            && G.EvalCubic(s.y, e.first.q, e.second.q, v.xyz.y, t) == G.EvalQuadratic(s.y, s.y + v.ijk.y, v.xyz.y, t)
  {
    hide G.EvalCubic, G.EvalQuadratic, G.FirstControl, G.SecondControl, NewPlan;
    G.ElevationKeepsCurve(st.position.x, w.b.values.ijk.x, w.b.values.xyz.x, t);
    G.ElevationKeepsCurve(st.position.y, w.b.values.ijk.y, w.b.values.xyz.y, t);
  }

  // ---------------------------------------------------------------- the arcs of whole runs

  /** An arc that is given by its radius and goes nowhere in the plane. The program divides by zero there; the
      centre stands for what comes of that. */
  ghost predicate Degenerate(end: Planar, centre: Planar) {
    end == Planar(0.0, 0.0) && centre == Planar(0.0, 0.0)
  }

  /** The start lies on the circle, and the end within the tolerance. */
  ghost predicate Fits(m: Machine, end: Planar, centre: Planar, radius: real) {
    || Degenerate(end, centre)
    || (Distance(m, centre, Planar(0.0, 0.0)) == radius && RadiiAgree(Distance(m, end, centre), radius))
  }

  ghost predicate ArcFits(m: Machine, e: Event) {
    e.ArcMove? ==> Fits(m, PlaneOf(e.plane, e.target.Minus(e.start)), PlaneOf(e.plane, e.offset), e.radius)
  }

  ghost predicate BlockFits(m: Machine, w: Work) {
    Fits(m, Chord(w), PlaneOf(w.b.modal.plane, w.b.values.ijk), w.b.values.r)
  }

  lemma RadiusArcFits(m: Machine, w: Work)
    requires ExactRoots(m) && CheckRadiusArc(m, w).Go?
    ensures BlockFits(m, CheckRadiusArc(m, w).w)
  {
    var w1, r := CheckRadiusArc(m, w).w, ProgrammedRadius(w);
    var c := PlaneOf(w.b.modal.plane, w1.b.values.ijk);
    RadiusKeepsEnds(m, w);
    if !(Chord(w).x == 0.0 && Chord(w).y == 0.0) {
      RadiusArcIsRight(m, w);
      AbsSquare(r);
      hide ProgrammedRadius, CheckRadiusArc, ExactRoots, OnCircle, G.Abs, Distance, RadiiAgree, PlaneOf;
      BothRadii(m, Chord(w), c, r, w1.b.values.r);
      NoError(w1.b.values.r);
    }
  }

  lemma RadiusKeepsEnds(m: Machine, w: Work)
    requires CheckRadiusArc(m, w).Go?
    ensures var w1 := CheckRadiusArc(m, w).w; Chord(w1) == Chord(w) && w1.b.modal.plane == w.b.modal.plane
  {
    hide ProgrammedRadius, RadiusCentre, G.FourHSquared, SetValues, Consume, Vec.Put;
    Setters();
  }

  lemma RadiusDegenerate(m: Machine, w: Work)
    requires CheckRadiusArc(m, w).Go? && Chord(w) == Planar(0.0, 0.0) && ExactRoots(m)
    ensures var w1 := CheckRadiusArc(m, w).w; Degenerate(Chord(w1), PlaneOf(w1.b.modal.plane, w1.b.values.ijk))
  {
    RadiusKeepsEnds(m, w);
    HypotIs(m, 0.0, 0.0);
    RootZero(Hypot(m, 0.0, 0.0), 0.0);
    assert RadiusCentre(m, w.b.modal.motion.CcwArc?, Chord(w), ProgrammedRadius(w)) == Planar(0.0, 0.0);
    hide ProgrammedRadius, RadiusCentre, G.FourHSquared, SetValues, Consume, Vec.Put, ExactRoots, Hypot;
    PutPlanar(w.b.modal.plane, w.b.values.ijk, Planar(0.0, 0.0));
    Setters();
  }

  lemma CentreArcFits(m: Machine, w: Work)
    requires CheckCentreArc(m, w).Go?
    ensures BlockFits(m, CheckCentreArc(m, w).w)
  {
    hide CentreOffsets, RadiiAgree, Distance, SetValues, Consume;
    Setters();
  }

  lemma ArcChecksFit(m: Machine, w: Work)
    requires ExactRoots(m) && CheckArc(m, w).Go?
    ensures BlockFits(m, CheckArc(m, w).w)
  {
    hide CheckTurns, CheckRadiusArc, CheckCentreArc, BlockFits, ExactRoots;
    var w1 := CheckTurns(w).w;
    if 'R' in w1.b.words {
      RadiusArcFits(m, w1);
    } else {
      CentreArcFits(m, w1);
    }
  }

  lemma MotionChecksFit(m: Machine, w: Work)
    requires ExactRoots(m) && CheckMotion(m, w).Go? && w.b.axisCmd.MotionCmd? && w.b.modal.motion.Arc() && !w.b.modal.canned
    ensures BlockFits(m, CheckMotion(m, w).w)
  {
    hide CheckArc, ForgetRetract, BlockFits, ExactRoots, Asked;
    Setters();
    var w1 := ForgetRetract(w);
    AskedMeans(w1.b, w.b);
    assert CheckMotion(m, w) == CheckArc(m, w1);
    ArcChecksFit(m, w1);
  }

  lemma UnusedFits(m: Machine, w: Work)
    requires BlockFits(m, w) && CheckUnused(w).Go?
    ensures BlockFits(m, CheckUnused(w).w)
  {
    UnusedKeeps(w);
    hide Fits, CheckUnused;
  }

  /** The arc data of a block that has passed all checks. */
  lemma CheckedArcFits(m: Machine, st: State, b: Block, w: Work)
    requires ExactRoots(m) && Validate(m, st, b) == Go(w)
    requires w.b.axisCmd.MotionCmd? && w.b.modal.motion.Arc() && !w.b.modal.canned
    ensures BlockFits(m, w)
  {
    hide CheckWords, CheckAxes, CheckMotion, CheckUnused, BlockFits, ExactRoots, Asked;
    var w2 := CheckAxes(m, CheckWords(m, Fresh(st, b)).w).w;
    MotionKeeps(m, w2);
    var w3 := CheckMotion(m, w2).w;
    UnusedKeeps(w3);
    AskedMeans(w3.b, w2.b);
    MotionChecksFit(m, w2);
    UnusedFits(m, w3);
  }

  /** Where a motion starts is where the parser was before the block. */
  lemma MovesFromHere(m: Machine, w: Work, env: Env)
    requires !w.b.nonModal.GoHome0? && !w.b.nonModal.GoHome1?
    ensures CommitNonModal(m, w, CommitModes(w, env)).position == w.st.position
  {
    hide CommitModes, CommitNonModal;
    ModesCommit(w, env);
    var st1 := CommitModes(w, env);
    if ChangesG92(w.b.nonModal) {
      OffsetCommits(m, w, st1);
    } else if w.b.nonModal.SetCoordinateData? {
      DataCommits(m, w, st1);
    } else {
      OthersCommit(m, w, st1);
    }
  }

  lemma MotionEventsFit(m: Machine, w: Work, st: State)
    requires Moves(w) && w.b.modal.motion.Arc() ==> BlockFits(m, w) && st.position == w.st.position
    ensures forall e <- MotionEvents(w, st) + HomeEvents(w) + DwellEvents(w) :: ArcFits(m, e)
  {
    hide Fits, CubicControls, QuadraticControls, NewPlan;
  }

  lemma CommitFits(m: Machine, w: Work, env: Env)
    requires w.b.axisCmd.MotionCmd? && w.b.modal.motion.Arc() ==> BlockFits(m, w) && !w.b.nonModal.GoHome0? && !w.b.nonModal.GoHome1?
    ensures forall e <- Commit(m, w, env).events :: ArcFits(m, e)
  {
    CommitIs(m, w, env);
    var st2 := CommitNonModal(m, w, CommitModes(w, env));
    if w.b.axisCmd.MotionCmd? && w.b.modal.motion.Arc() {
      MovesFromHere(m, w, env);
    }
    MotionEventsFit(m, w, st2);
    hide ArcFits, MotionEvents, HomeEvents, DwellEvents, BlockFits, Commit, CommitModes, CommitNonModal;
  }

  lemma JogFits(m: Machine, w: Work)
    ensures forall e <- CommitJog(m, w).events :: ArcFits(m, e)
  {
    hide Fits;
  }

  lemma LineFits(m: Machine, st: State, line: Line)
    requires ExactRoots(m) && Cycles(st.modal)
    ensures forall e <- Execute(m, st, line).events :: ArcFits(m, e)
  {
    hide ScanLine, Validate, Commit, CommitJog, ArcFits, BlockFits, ExactRoots, Asked, Atomicity.SameButEarly, FeedOf,
         SelectedCoord, ScanFacts.Read;
    if ScanLine(m, st, line).Accept? {
      var b := ScanLine(m, st, line).value;
      ScanFacts.LineReads(m, st, line);
      SameMeaning.LineCycles(m, st, line);
      NoHome(NewBlock(st, line.jog), b);
      Atomicity.ValidateKeeps(m, st, b);
      var o := Validate(m, st, b);
      if o.Go? {
        AskedMeans(o.w.b, b);
        JogFits(m, o.w);
        if o.w.b.axisCmd.MotionCmd? && o.w.b.modal.motion.Arc() {
          CheckedArcFits(m, st, b, o.w);
        }
        CommitFits(m, o.w, line.env);
      }
    }
  }

  lemma NoHome(b0: Block, b: Block)
    requires ScanFacts.Read(b0, b)
    ensures b.nonModal.GoHome0? || b.nonModal.GoHome1? ==> !ImpliedCmd(b).MotionCmd?
  {
    hide ScanFacts.SlotOf;
  }

  /** Every arc of every run starts on its circle and ends on it within the tolerance, full circles too; left out are only
      arcs by radius that go nowhere in the plane. */
  lemma {:induction false} RunFits(m: Machine, st: State, ops: seq<Op>)
    requires ExactRoots(m) && Cycles(st.modal)
    ensures forall e <- Trace(m, st, ops) :: ArcFits(m, e)
    decreases |ops|
  {
    if ops != [] {
      StepFits(m, st, ops[0]);
      SameMeaning.StepCycles(m, st, ops[0]);
      hide Step, ArcFits, ExactRoots, Cycles;
      RunFits(m, Step(m, st, ops[0]).st, ops[1..]);
    }
  }

  lemma StepFits(m: Machine, st: State, op: Op)
    requires ExactRoots(m) && Cycles(st.modal)
    ensures forall e <- Step(m, st, op).events :: ArcFits(m, e)
  {
    hide Execute, ArcFits, ExactRoots, Cycles;
    if op.Block? {
      LineFits(m, st, op.line);
    }
  }

  // ---------------------------------------------------------------- radius arcs that go nowhere in the plane

  /** A G2 or G3 by its radius. */
  ghost predicate ByRadius(b: Block) {
    b.modal.motion.Arc() && !b.modal.canned && ImpliedCmd(b).MotionCmd? && 'R' in b.words
  }

  lemma ArcDegenerate(m: Machine, w: Work)
    requires CheckArc(m, w).Go? && 'R' in w.b.words && ExactRoots(m)
    ensures var w1 := CheckArc(m, w).w;
            && w1.b.axisCmd == w.b.axisCmd
            && (Chord(w1) == Planar(0.0, 0.0) <==> Degenerate(Chord(w1), PlaneOf(w1.b.modal.plane, w1.b.values.ijk)))
            && (Chord(w1) == Planar(0.0, 0.0) ==> w1.b.values.xyz != w1.st.position)
  {
    hide CheckTurns, CheckRadiusArc, CheckCentreArc, ExactRoots, PlaneOf;
    TurnsKeep(w);
    var w1 := CheckTurns(w).w;
    TurnsLeave(w);
    RadiusKeepsEnds(m, w1);
    RadiusLeaves(m, w1);
    if Chord(w1) == Planar(0.0, 0.0) {
      RadiusDegenerate(m, w1);
    }
  }

  lemma TurnsLeave(w: Work)
    requires CheckTurns(w).Go?
    ensures 'R' in CheckTurns(w).w.b.words <==> 'R' in w.b.words
    ensures CheckTurns(w).w.b.axisCmd == w.b.axisCmd
  {
    hide ToUint32, IsInt;
  }

  lemma RadiusLeaves(m: Machine, w: Work)
    requires CheckRadiusArc(m, w).Go?
    ensures var w1 := CheckRadiusArc(m, w).w;
            w1.b.axisCmd == w.b.axisCmd && w1.b.values.xyz != w1.st.position
  {
    hide ProgrammedRadius, RadiusCentre, G.FourHSquared, Vec.Put;
  }

  lemma FedArc(m: Machine, w: Work)
    requires w.b.axisCmd.MotionCmd? && w.b.modal.motion.Arc() && !w.b.modal.canned && w.b.values.f != 0.0
    ensures CheckMotion(m, w) == CheckArc(m, ForgetRetract(w))
  {
    hide CheckArc;
  }

  /** From the position to the target, in the plane. */
  ghost function Travel(st: State, b: Block): Planar {
    PlaneOf(b.modal.plane, Targets.Placed(Fresh(st, b)).Minus(st.position))
  }

  /** P, if it is the number of turns, is a whole number above zero. */
  predicate GoodTurns(b: Block) {
    TakesP(b) ==> IsInt(b.values.p) && ToUint32(b.values.p) != 0
  }

  lemma TurnsGo(w: Work)
    requires 'P' in w.b.words ==> IsInt(w.b.values.p) && ToUint32(w.b.values.p) != 0
    ensures CheckTurns(w).Go? && CheckTurns(w).w.b.values == w.b.values && CheckTurns(w).w.st == w.st
    ensures CheckTurns(w).w.b.modal == w.b.modal && ('R' in CheckTurns(w).w.b.words <==> 'R' in w.b.words)
  {
    hide IsInt, ToUint32;
  }

  /** Why an arc by radius is refused, if it is: the target is the position, or the ends are more than a diameter apart. */
  function RadiusFault(position: Vec, target: Vec, travel: Planar, r: real): Option<Refusal> {
    if target == position then Some(InvalidTarget)
    else if travel.x * travel.x + travel.y * travel.y > 4.0 * r * r then Some(ArcRadiusError)
    else None
  }

  lemma RadiusStops(m: Machine, w: Work)
    ensures var o, fault := CheckRadiusArc(m, w), RadiusFault(w.st.position, w.b.values.xyz, Chord(w), ProgrammedRadius(w));
            if fault.Some? then o == Stop(fault.value, w.st) else o.Go?
  {
    hide ProgrammedRadius, RadiusCentre, SetValues, Consume;
  }

  lemma ArcByRadius(m: Machine, w: Work)
    requires 'R' in w.b.words && w.b.axisWords.Any() && InPlane(w.b.modal.plane, w.b.axisWords)
    requires CheckTurns(w).Go? && 'R' in CheckTurns(w).w.b.words
    ensures CheckArc(m, w) == CheckRadiusArc(m, CheckTurns(w).w)
  {
    hide CheckTurns, CheckRadiusArc, InPlane;
  }

  lemma SomeAxis(p: Plane, a: Axes)
    requires InPlane(p, a)
    ensures a.Any()
  {
  }

  /** The block of an arc by radius when its arc is checked. */
  lemma ByRadiusReached(m: Machine, st: State, b: Block) returns (w: Work)
    requires MotionReached(m, st, b) && ScanFacts.Covered(b) && ByRadius(b) && InPlane(b.modal.plane, b.axisWords) && GoodTurns(b)
    ensures AxesPass(m, st, b) && CheckMotion(m, AtMotion(m, st, b)) == CheckRadiusArc(m, w)
    ensures w.st == st && w.b.values.xyz == Targets.Placed(Fresh(st, b))
    ensures Chord(w) == Travel(st, b) && ProgrammedRadius(w) == ProgrammedRadius(Fresh(st, b))
  {
    MotionBlock(m, st, b);
    CycleLetters(b);
    PqLetters(b);
    StillMotion(m, st, b);
    SomeAxis(b.modal.plane, b.axisWords);
    var w2 := AtMotion(m, st, b);
    ForgetIs(w2);
    var w1 := ForgetRetract(w2);
    TurnsGo(w1);
    w := CheckTurns(w1).w;
    SameRadiusWord(w, Fresh(st, b));
    assert FedMotion(w2) ==> w2.b.values.f != 0.0;
    FedArc(m, w2);
    ArcByRadius(m, w1);
    hide AxesPass, AtMotion, CheckMotion, CheckArc, CheckTurns, CheckRadiusArc, ProgrammedRadius, PlaneOf, Targets.Placed, SelectedCoord,
         FeedOf, WordsUsed, Targets.PLeft, ScanFacts.Covered, ForgetRetract;
  }

  lemma SameRadiusWord(w: Work, u: Work)
    requires w.st == u.st && w.b.modal.plane == u.b.modal.plane && w.b.modal.imperial == u.b.modal.imperial && w.b.values.r == u.b.values.r
    ensures ProgrammedRadius(w) == ProgrammedRadius(u)
  {
  }

  /** A line with an arc by radius that gets as far as its arc is refused for it exactly when the target is the position or
      the ends are more than a diameter apart. */
  lemma RadiusArcRefusedIff(m: Machine, st: State, line: Line)
    requires ScanLine(m, st, line).Accept? && line.words != [] && !line.jog
    requires var b := ScanLine(m, st, line).value;
             ByRadius(b) && MotionReached(m, st, b) && InPlane(b.modal.plane, b.axisWords) && GoodTurns(b)
    ensures var b, status := ScanLine(m, st, line).value, Execute(m, st, line).status;
            var fault := RadiusFault(st.position, Targets.Placed(Fresh(st, b)), Travel(st, b), ProgrammedRadius(Fresh(st, b)));
            if fault.Some? then status == fault.value else status == Ok || status == UnusedWords
  {
    var b := ScanLine(m, st, line).value;
    hide *;
    LineCovers(m, st, line);
    var w := ByRadiusReached(m, st, b);
    RadiusStops(m, w);
    ArcEnds(m, st, b);
    ReadIsNoJog(m, st, line);
    EndsAs(m, st, line);
  }

  lemma ArcEnds(m: Machine, st: State, b: Block)
    requires AxesPass(m, st, b)
    ensures var o := CheckMotion(m, AtMotion(m, st, b));
            if o.Stop? then Validate(m, st, b) == o
            else Validate(m, st, b).Go? || Validate(m, st, b).status == UnusedWords
  {
    hide CheckWords, CheckAxes, CheckMotion, Consume;
  }

  lemma ReadIsNoJog(m: Machine, st: State, line: Line)
    requires ScanLine(m, st, line).Accept?
    ensures ScanLine(m, st, line).value.jog == line.jog
  {
    hide ScanLine, ScanFacts.Read, ScanFacts.ReadValues;
    ScanFacts.LineReads(m, st, line);
    JogIs(st, line.jog, ScanLine(m, st, line).value);
  }

  lemma EndsAs(m: Machine, st: State, line: Line)
    requires ScanLine(m, st, line).Accept? && line.words != [] && !ScanLine(m, st, line).value.jog
    ensures var o := Validate(m, st, ScanLine(m, st, line).value);
            Execute(m, st, line).status == if o.Stop? then o.status else Ok
  {
    hide ScanLine, Validate, Commit;
    var o := Validate(m, st, ScanLine(m, st, line).value);
    if o.Go? {
      CommitSucceeds(m, o.w, line.env);
    }
  }

  /** At the end of the checks. */
  lemma CheckedDegenerate(m: Machine, st: State, b: Block, w: Work)
    requires ExactRoots(m) && Validate(m, st, b) == Go(w) && ScanFacts.Covered(b) && ByRadius(b)
    ensures w.b.axisCmd.MotionCmd?
    ensures Chord(w) == Planar(0.0, 0.0) <==> Degenerate(Chord(w), PlaneOf(w.b.modal.plane, w.b.values.ijk))
    ensures Chord(w) == Planar(0.0, 0.0) ==> w.b.values.xyz != w.st.position
  {
    assert ByRadius(b) ==> ImpliedCmd(b).MotionCmd? && b.modal.motion.Arc() && !b.modal.canned && 'R' in b.words;
    Quirks.ValidatedIs(m, st, b, w);
    MotionBlock(m, st, b);
    CycleLetters(b);
    hide *;
    var w2 := AtMotion(m, st, b);
    var w3 := CheckMotion(m, w2).w;
    MotionIsArc(m, w2);
    ForgetIs(w2);
    ArcDegenerate(m, ForgetRetract(w2));
    UnusedKeeps(w3);
    WordsForgotten(w3);
  }

  lemma MotionIsArc(m: Machine, w: Work)
    requires CheckMotion(m, w).Go? && w.b.axisCmd.MotionCmd? && w.b.modal.motion.Arc() && !w.b.modal.canned
    ensures CheckMotion(m, w) == CheckArc(m, ForgetRetract(w))
  {
    hide CheckArc;
  }

  lemma WordsForgotten(w: Work)
    ensures var w1 := w.(b := w.b.(words := {}));
            && Chord(w1) == Chord(w) && w1.b.modal == w.b.modal && w1.b.values == w.b.values
            && w1.b.axisCmd == w.b.axisCmd && w1.st == w.st
  {
  }

  lemma ArcEvent(m: Machine, w: Work, env: Env)
    requires w.b.axisCmd.MotionCmd? && w.b.modal.motion.Arc() && !w.b.nonModal.GoHome0? && !w.b.nonModal.GoHome1?
    ensures var events := Commit(m, w, env).events;
            && |events| > 0
            && var e := events[|events| - 1];
               && e.ArcMove? && e.target == w.b.values.xyz && e.start == w.st.position && e.plane == w.b.modal.plane
               && e.offset == w.b.values.ijk && e.radius == w.b.values.r
               && e.turns == (if w.b.modal.motion.CcwArc? then w.turns else -w.turns)
  {
    CommitIs(m, w, env);
    MovesFromHere(m, w, env);
    hide Commit, CommitModes, CommitNonModal, CommitMotion, CommitFlow, NewPlan;
  }

  /** An accepted arc by radius has the centre that the program divides by zero for exactly if its target differs from the
      position outside the plane only. */
  lemma DegenerateIff(m: Machine, st: State, line: Line)
    requires ExactRoots(m) && Accepted(m, st, line) && !line.jog && ByRadius(ScanLine(m, st, line).value)
    ensures var b, events := ScanLine(m, st, line).value, Execute(m, st, line).events;
            && |events| > 0
            && var e, target := events[|events| - 1], Targets.Placed(Fresh(st, b));
               && e.ArcMove? && e.start == st.position && e.target == target
               && (Degenerate(PlaneOf(e.plane, e.target.Minus(e.start)), PlaneOf(e.plane, e.offset))
                   <==> PlaneOf(b.modal.plane, target) == PlaneOf(b.modal.plane, st.position))
               && (PlaneOf(b.modal.plane, target) == PlaneOf(b.modal.plane, st.position) ==> target != st.position)
  {
    var b := ScanLine(m, st, line).value;
    assert ByRadius(b) ==> b.modal.motion.Arc() && ImpliedCmd(b).MotionCmd?;
    assert Accepted(m, st, line) ==> ScanLine(m, st, line).Accept?;
    hide *;
    LineCovers(m, st, line);
    var w := AcceptedReaches(m, st, line);
    ReachedArc(m, st, line, w);
    CheckedDegenerate(m, st, b, w);
    ArcEvent(m, w, line.env);
    ChordIs(w, w.b.modal.plane, w.b.values.xyz, st.position);
  }

  lemma ReachedArc(m: Machine, st: State, line: Line, w: Work)
    requires Reaches(m, st, line, w) && ScanFacts.Covered(ScanLine(m, st, line).value) && ImpliedCmd(ScanLine(m, st, line).value).MotionCmd?
    ensures var b := ScanLine(m, st, line).value;
            && Validate(m, st, b) == Go(w) && w.st.position == st.position && w.b.values.xyz == Targets.Placed(Fresh(st, b))
            && w.b.modal.plane == b.modal.plane && w.b.modal.motion == b.modal.motion
            && !w.b.nonModal.GoHome0? && !w.b.nonModal.GoHome1?
  {
    assert Reaches(m, st, line, w) ==> ScanLine(m, st, line).Accept?;
    hide *;
    var b := ScanLine(m, st, line).value;
    Quirks.ReachedIs(m, st, line, w);
    ReachedCoord(m, st, line, w);
    EarlyIsCached(st, b, w.st);
    WorkPositions.LinePlaced(m, st, line, w);
    Atomicity.ValidateKeeps(m, st, b);
    CheckedPlane(st, b, w);
    Quirks.NeverHome(b);
    HomeMeans(b);
  }

  lemma HomeMeans(b: Block)
    ensures Quirks.GoesHome(b) <==> b.nonModal.GoHome0? || b.nonModal.GoHome1?
  {
  }

  lemma CheckedPlane(st: State, b: Block, w: Work)
    requires Atomicity.Checked(st, b, w)
    ensures w.b.modal.plane == b.modal.plane && w.b.modal.motion == b.modal.motion
  {
    hide FeedOf, SelectedCoord;
    AskedMeans(w.b, b);
  }

  lemma ChordIs(w: Work, plane: Plane, target: Vec, position: Vec)
    requires w.b.modal.plane == plane && w.b.values.xyz == target && w.st.position == position
    ensures Chord(w) == PlaneOf(plane, target.Minus(position))
    ensures Chord(w) == Planar(0.0, 0.0) <==> PlaneOf(plane, target) == PlaneOf(plane, position)
  {
  }

  // ---------------------------------------------------------------- the side of radius arcs, on lines and runs

  lemma RadiusTurns(m: Machine, w: Work)
    requires ExactRoots(m) && CheckRadiusArc(m, w).Go? && Chord(w) != Planar(0.0, 0.0)
    ensures var w1 := CheckRadiusArc(m, w).w;
            && TurnsAs(Chord(w1), PlaneOf(w1.b.modal.plane, w1.b.values.ijk), ProgrammedRadius(w), w.b.modal.motion.CcwArc?)
            && w1.b.values.r == G.Abs(ProgrammedRadius(w)) && w1.turns == w.turns
  {
    RadiusKeepsEnds(m, w);
    RadiusArcIsRight(m, w);
    RadiusKeepsTurns(m, w);
    hide CheckRadiusArc, ProgrammedRadius, OnCircle, LeftOf, G.FourHSquared, ExactRoots, PlaneOf;
  }

  lemma RadiusKeepsTurns(m: Machine, w: Work)
    requires CheckRadiusArc(m, w).Go?
    ensures CheckRadiusArc(m, w).w.turns == w.turns
  {
    hide ProgrammedRadius, RadiusCentre, G.FourHSquared, Vec.Put;
  }

  lemma TurnsPositive(w: Work)
    requires CheckTurns(w).Go?
    ensures CheckTurns(w).w.turns > 0
    ensures var w1 := CheckTurns(w).w;
            w1.st == w.st && w1.b.values == w.b.values && w1.b.modal == w.b.modal && ('R' in w1.b.words <==> 'R' in w.b.words)
  {
    hide IsInt;
  }

  lemma ArcTurns(m: Machine, w: Work)
    requires ExactRoots(m) && CheckArc(m, w).Go? && 'R' in w.b.words && Chord(w) != Planar(0.0, 0.0)
    ensures var w1 := CheckArc(m, w).w;
            && TurnsAs(Chord(w1), PlaneOf(w1.b.modal.plane, w1.b.values.ijk), ProgrammedRadius(w), w.b.modal.motion.CcwArc?)
            && w1.b.values.r == G.Abs(ProgrammedRadius(w)) && w1.turns > 0
  {
    hide CheckTurns, CheckRadiusArc, CheckCentreArc, ExactRoots, PlaneOf, ProgrammedRadius, TurnsAs, Chord, G.Abs;
    var w1 := CheckTurns(w).w;
    TurnsPositive(w);
    SameRadiusWord(w1, w);
    SameChord(w1, w);
    RadiusTurns(m, w1);
  }

  lemma SameChord(w: Work, u: Work)
    requires w.st == u.st && w.b.modal.plane == u.b.modal.plane && w.b.values.xyz == u.b.values.xyz
    ensures Chord(w) == Chord(u)
  {
  }

  /** At the end of the checks. */
  lemma CheckedTurns(m: Machine, st: State, b: Block, w: Work)
    requires ExactRoots(m) && Validate(m, st, b) == Go(w) && ScanFacts.Covered(b) && ByRadius(b) && Travel(st, b) != Planar(0.0, 0.0)
    ensures var r := ProgrammedRadius(Fresh(st, b));
            && TurnsAs(Chord(w), PlaneOf(w.b.modal.plane, w.b.values.ijk), r, b.modal.motion.CcwArc?)
            && w.b.values.r == G.Abs(r) && w.turns > 0
  {
    assert ByRadius(b) ==> ImpliedCmd(b).MotionCmd? && b.modal.motion.Arc() && !b.modal.canned && 'R' in b.words;
    Quirks.ValidatedIs(m, st, b, w);
    MotionBlock(m, st, b);
    CycleLetters(b);
    var w2 := AtMotion(m, st, b);
    var w1 := ForgetRetract(w2);
    ForgetIs(w2);
    SameRadiusWord(w1, Fresh(st, b));
    assert Chord(w1) == Travel(st, b);
    hide *;
    var w3 := CheckMotion(m, w2).w;
    MotionIsArc(m, w2);
    ArcTurns(m, w1);
    UnusedKeeps(w3);
    WordsForgotten(w3);
  }

  /** The last motion is an arc that turns as it should. */
  ghost predicate EndsInTurn(events: seq<Event>, r: real, ccw: bool) {
    && |events| > 0
    && var e := events[|events| - 1];
       && e.ArcMove? && e.radius == G.Abs(r) && (e.turns > 0 <==> ccw)
       && TurnsAs(PlaneOf(e.plane, e.target.Minus(e.start)), PlaneOf(e.plane, e.offset), r, ccw)
  }

  /** An arc by radius that goes somewhere in the plane is handed on with its centre on the side that G2 or G3 and the sign
      of R ask for, and is traversed in that direction. */
  ghost predicate LineTurns(m: Machine, st: State, line: Line) {
    Accepted(m, st, line) && !line.jog && ByRadius(ScanLine(m, st, line).value)
    && Travel(st, ScanLine(m, st, line).value) != Planar(0.0, 0.0)
    ==> var b := ScanLine(m, st, line).value;
        EndsInTurn(Execute(m, st, line).events, ProgrammedRadius(Fresh(st, b)), b.modal.motion.CcwArc?)
  }

  lemma TurnCommits(m: Machine, w: Work, env: Env, r: real, ccw: bool)
    requires w.b.axisCmd.MotionCmd? && w.b.modal.motion.Arc() && !w.b.nonModal.GoHome0? && !w.b.nonModal.GoHome1?
    requires TurnsAs(Chord(w), PlaneOf(w.b.modal.plane, w.b.values.ijk), r, ccw) && w.b.values.r == G.Abs(r) && w.turns > 0
    requires ccw == w.b.modal.motion.CcwArc?
    ensures EndsInTurn(Commit(m, w, env).events, r, ccw)
  {
    ArcEvent(m, w, env);
    ChordIs(w, w.b.modal.plane, w.b.values.xyz, w.st.position);
    hide Commit, TurnsAs, PlaneOf, Chord, G.Abs;
  }

  lemma RadiusLineTurns(m: Machine, st: State, line: Line)
    requires ExactRoots(m) && Accepted(m, st, line) && !line.jog && ByRadius(ScanLine(m, st, line).value)
    requires Travel(st, ScanLine(m, st, line).value) != Planar(0.0, 0.0)
    ensures var b := ScanLine(m, st, line).value;
            EndsInTurn(Execute(m, st, line).events, ProgrammedRadius(Fresh(st, b)), b.modal.motion.CcwArc?)
  {
    var b := ScanLine(m, st, line).value;
    assert ByRadius(b) ==> b.modal.motion.Arc() && ImpliedCmd(b).MotionCmd?;
    assert Accepted(m, st, line) ==> ScanLine(m, st, line).Accept?;
    hide *;
    LineCovers(m, st, line);
    var w := AcceptedReaches(m, st, line);
    ReachedArc(m, st, line, w);
    CheckedDegenerate(m, st, b, w);
    CheckedTurns(m, st, b, w);
    TurnCommits(m, w, line.env, ProgrammedRadius(Fresh(st, b)), b.modal.motion.CcwArc?);
  }

  ghost predicate AllTurn(m: Machine, st: State, ops: seq<Op>)
    decreases |ops|
  {
    ops == [] || ((ops[0].Block? ==> LineTurns(m, st, ops[0].line)) && AllTurn(m, Step(m, st, ops[0]).st, ops[1..]))
  }

  /** So do all arcs by radius of every run. */
  lemma {:induction false} RunTurns(m: Machine, st: State, ops: seq<Op>)
    requires ExactRoots(m)
    ensures AllTurn(m, st, ops)
    decreases |ops|
  {
    hide Step, LineTurns, ExactRoots;
    if ops != [] {
      if ops[0].Block? {
        AnyLineTurns(m, st, ops[0].line);
      }
      RunTurns(m, Step(m, st, ops[0]).st, ops[1..]);
    }
  }

  lemma AnyLineTurns(m: Machine, st: State, line: Line)
    requires ExactRoots(m)
    ensures LineTurns(m, st, line)
  {
    hide ScanLine, Execute, ByRadius, Travel, EndsInTurn, ExactRoots, ProgrammedRadius;
    if Accepted(m, st, line) && !line.jog && ByRadius(ScanLine(m, st, line).value)
       && Travel(st, ScanLine(m, st, line).value) != Planar(0.0, 0.0) {
      RadiusLineTurns(m, st, line);
    }
  }

  // ---------------------------------------------------------------- G5 without I and J

  /** A G5 that goes on from the one before. */
  ghost predicate GoesOn(b: Block) {
    b.modal.motion.CubicSpline? && !b.modal.canned && ImpliedCmd(b).MotionCmd? && 'I' !in b.words && 'J' !in b.words
  }

  /** The last motion is a spline with this start and this first control point. */
  ghost predicate EndsInSpline(events: seq<Event>, start: Vec, first: Pq) {
    && |events| > 0
    && var e := events[|events| - 1];
       e.Spline? && e.start == start && e.first == first
  }

  lemma CubicChecked(m: Machine, w: Work)
    requires CheckMotion(m, w).Go? && w.b.modal.motion.CubicSpline? && !w.b.modal.canned && w.b.axisCmd.MotionCmd?
    requires 'I' !in w.b.words && 'J' !in w.b.words
    ensures var w1 := CheckMotion(m, w).w;
            && 'P' in w.b.words && 'Q' in w.b.words && w1.b.axisCmd.MotionCmd? && w1.b.values.ijk.x == -w.b.values.p
            && w1.b.values.ijk.y == -w.b.values.q
  {
    hide PlanarLength;
  }

  /** No other word of the block has taken its P and Q. */
  predicate OwnsPq(b: Block) {
    M9 !in b.groups && !b.nonModal.Dwell? && !b.setTool
  }

  lemma PqLeft(b: Block)
    requires 'P' in b.words - WordsUsed(b) && 'Q' in b.words - WordsUsed(b)
    ensures Targets.PLeft(b) == b.values.p && OwnsPq(b)
  {
  }

  lemma CubicEvent(m: Machine, w: Work, env: Env)
    requires w.b.axisCmd.MotionCmd? && w.b.modal.motion.CubicSpline? && !w.b.nonModal.GoHome0? && !w.b.nonModal.GoHome1?
    ensures EndsInSpline(Commit(m, w, env).events, w.st.position,
                         Pq(w.st.position.x + w.b.values.ijk.x, w.st.position.y + w.b.values.ijk.y))
  {
    CommitIs(m, w, env);
    MovesFromHere(m, w, env);
    hide Commit, CommitModes, CommitNonModal, CommitMotion, CommitFlow, NewPlan;
  }

  lemma GoesOnChecked(m: Machine, st: State, b: Block, w: Work)
    requires Validate(m, st, b) == Go(w) && ScanFacts.Covered(b) && GoesOn(b)
    ensures w.b.axisCmd.MotionCmd? && w.b.values.ijk.x == -b.values.p && w.b.values.ijk.y == -b.values.q && OwnsPq(b)
  {
    Quirks.ValidatedIs(m, st, b, w);
    MotionBlock(m, st, b);
    CubicChecked(m, AtMotion(m, st, b));
    PqLeft(b);
    UnusedKeeps(CheckMotion(m, AtMotion(m, st, b)).w);
    hide AxesPass, AtMotion, CheckMotion, CheckUnused, Validate, Targets.PLeft, WordsUsed, Targets.Placed, SelectedCoord,
         FeedOf, ScanFacts.Covered;
  }

  /** Its first control point mirrors P and Q as they are written, whatever the units. */
  lemma GoesOnAsWritten(m: Machine, st: State, line: Line)
    requires Accepted(m, st, line) && !line.jog && GoesOn(ScanLine(m, st, line).value)
    ensures var b := ScanLine(m, st, line).value;
            EndsInSpline(Execute(m, st, line).events, st.position, Pq(st.position.x - b.values.p, st.position.y - b.values.q))
    ensures OwnsPq(ScanLine(m, st, line).value)
  {
    var b := ScanLine(m, st, line).value;
    assert GoesOn(b) ==> b.modal.motion.CubicSpline? && ImpliedCmd(b).MotionCmd?;
    assert Accepted(m, st, line) ==> ScanLine(m, st, line).Accept?;
    hide *;
    LineCovers(m, st, line);
    var w := AcceptedReaches(m, st, line);
    ReachedArc(m, st, line, w);
    GoesOnChecked(m, st, b, w);
    CubicEvent(m, w, line.env);
  }
}
