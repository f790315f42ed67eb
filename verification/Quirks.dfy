/** What lines do that their author may not expect. */
module Quirks {
  import opened GcTypes
  import opened Scanner
  import opened Validation
  import opened Execution
  import opened Frames
  import opened ScanFacts
  import Atomicity
  import opened Targets
  import opened Offsets
  import WorkPositions
  import opened Refusals

  // ---------------------------------------------------------------- jogs without axis words

  lemma NoAxesRead(b0: Block, b: Block)
    requires ReadValues(b0, b) && !b.axisWords.Any()
    ensures b.values.xyz == b0.values.xyz
  {
    assert NumberOf(b.values, 'X') == NumberOf(b0.values, 'X');
    assert NumberOf(b.values, 'Y') == NumberOf(b0.values, 'Y');
    assert NumberOf(b.values, 'Z') == NumberOf(b0.values, 'Z');
  }

  lemma JogPlaced(st: State, b: Block)
    requires b.modal.motion.Linear? && (b.nonModal.NoAction? || b.nonModal.AbsoluteOverride?)
    requires !b.axisCmd.ScalingCmd? && !b.axisCmd.ToolLengthCmd? && (!b.axisWords.Any() ==> b.values.xyz == ORIGIN)
    ensures var t := Placed(Fresh(st, b));
            && t == (if b.axisWords.Any() then Pick(b.axisWords, Named(Fresh(st, b)), st.position) else ORIGIN)
            && (Pick(b.axisWords, t, st.position) == t <==> b.axisWords.Any() || st.position == ORIGIN)
  {
    hide Vec.Mul, Vec.Plus, Vec.Minus, Vec.Times, Named;
  }

  /** A jog goes where its axis words say, and leaves the other axes where they are exactly if there are any axis words;
      without, it goes to the origin of the machine. */
  lemma JogGoesWhere(m: Machine, st: State, line: Line)
    requires line.jog && Execute(m, st, line).status == Ok
    ensures ScanLine(m, st, line).Accept?
    ensures var b, e := ScanLine(m, st, line).value, Execute(m, st, line);
            var t := Placed(Fresh(st, b));
            && m.JogEnd(t, st.position) == Some(e.st.position) && (exists plan :: e.events == [Jog(e.st.position, plan)])
            && t == (if b.axisWords.Any() then Pick(b.axisWords, Named(Fresh(st, b)), st.position) else ORIGIN)
            && (Pick(b.axisWords, t, st.position) == t <==> b.axisWords.Any() || st.position == ORIGIN)
  {
    LineReads(m, st, line);
    assert ScanLine(m, st, line).Accept?;
    var b := ScanLine(m, st, line).value;
    assert NewBlock(st, true).values.xyz == ORIGIN;
    hide *;
    var w := AcceptedJog(m, st, line);
    ReachedCoord(m, st, line, w);
    EarlyIsCached(st, b, w.st);
    WorkPositions.LinePlaced(m, st, line, w);
    Atomicity.JogMode(st, b);
    JogStands(st, b);
    JogGoes(m, w);
    JogBlock(st, b);
  }

  lemma JogStands(st: State, b: Block)
    requires Read(NewBlock(st, true), b) && b.groups <= {G0, G3, G6}
    ensures !b.axisCmd.ToolLengthCmd?
  {
    hide SlotOf, Covered;
  }

  lemma JogBlock(st: State, b: Block)
    requires ReadValues(NewBlock(st, true), b) && b.modal.motion.Linear? && (b.nonModal.NoAction? || b.nonModal.AbsoluteOverride?)
    requires !b.axisCmd.ScalingCmd? && !b.axisCmd.ToolLengthCmd?
    ensures var t := Placed(Fresh(st, b));
            && t == (if b.axisWords.Any() then Pick(b.axisWords, Named(Fresh(st, b)), st.position) else ORIGIN)
            && (Pick(b.axisWords, t, st.position) == t <==> b.axisWords.Any() || st.position == ORIGIN)
  {
    assert NewBlock(st, true).values.xyz == ORIGIN;
    hide *;
    if !b.axisWords.Any() {
      NoAxesRead(NewBlock(st, true), b);
    }
    JogPlaced(st, b);
  }

  lemma AcceptedJog(m: Machine, st: State, line: Line) returns (w: Work)
    requires line.jog && Execute(m, st, line).status == Ok
    ensures Reaches(m, st, line, w) && Execute(m, st, line) == CommitJog(m, w) && CommitJog(m, w).status == Ok
    ensures w.b.groups == ScanLine(m, st, line).value.groups && w.b.groups <= {G0, G3, G6}
  {
    hide ScanLine, Validate, Asked, Read, ReadValues, Atomicity.SameButEarly, FeedOf, SelectedCoord;
    LineReads(m, st, line);
    var b := ScanLine(m, st, line).value;
    JogIs(st, line.jog, b);
    Atomicity.ValidateKeeps(m, st, b);
    w := Validate(m, st, b).w;
    AskedMeans(w.b, b);
  }

  lemma JogGoes(m: Machine, w: Work)
    requires CommitJog(m, w).status == Ok
    ensures var e := CommitJog(m, w);
            && m.JogEnd(w.b.values.xyz, w.st.position) == Some(e.st.position) && (exists plan :: e.events == [Jog(e.st.position, plan)])
    ensures w.b.nonModal.NoAction? || w.b.nonModal.AbsoluteOverride?
  {
  }

  /** A jog with axis words has a feed. */
  lemma JogIsFed(m: Machine, st: State, line: Line)
    requires line.jog && Execute(m, st, line).status == Ok && ScanLine(m, st, line).Accept?
    requires ScanLine(m, st, line).value.axisWords.Any()
    ensures AllFed(Execute(m, st, line).events)
  {
    hide *;
    var b := ScanLine(m, st, line).value;
    JogReads(m, st, line);
    var w := AcceptedJog(m, st, line);
    ReachedIs(m, st, line, w);
    Atomicity.JogMode(st, b);
    JogGoes(m, w);
    WorkPositions.LinePlaced(m, st, line, w);
    JogImplies(b, st);
    LineCovers(m, st, line);
    MotionStays(m, st, b, w);
    JogFeed(st, b);
    Atomicity.ValidateKeeps(m, st, b);
    CheckedJog(st, b, w);
    FedJog(m, w);
  }

  lemma JogReads(m: Machine, st: State, line: Line)
    requires line.jog && ScanLine(m, st, line).Accept?
    ensures var b := ScanLine(m, st, line).value; b.jog && Read(NewBlock(st, true), b) && ReadValues(NewBlock(st, true), b)
  {
    hide ScanLine, Read, ReadValues;
    LineReads(m, st, line);
    JogIs(st, true, ScanLine(m, st, line).value);
  }

  ghost predicate AllFed(events: seq<Event>) {
    forall x <- events :: x.Jog? && x.plan.feed > 0.0
  }

  lemma JogFeed(st: State, b: Block)
    requires ReadValues(NewBlock(st, true), b)
    ensures b.values.f >= 0.0
  {
  }

  /** In a jog axis words stand for the motion. */
  lemma JogImplies(b: Block, st: State)
    requires Read(NewBlock(st, true), b) && b.groups <= {G0, G3, G6} && b.axisWords.Any() && (b.nonModal.NoAction? || b.nonModal.AbsoluteOverride?)
    ensures ImpliedCmd(b).MotionCmd?
  {
    hide SlotOf;
  }

  lemma CheckedJog(st: State, b: Block, w: Work)
    requires Atomicity.Checked(st, b, w) && b.values.f >= 0.0 && b.modal.motion.Linear? && b.jog
    ensures w.b.values.f >= 0.0 && w.b.modal.motion == b.modal.motion && (w.b.axisCmd.MotionCmd? ==> w.b.values.f != 0.0)
  {
    hide SelectedCoord;
    AskedMeans(w.b, b);
  }

  lemma FedJog(m: Machine, w: Work)
    requires w.b.values.f >= 0.0 && Moves(w) && (w.b.axisCmd.MotionCmd? ==> w.b.values.f != 0.0)
    ensures AllFed(CommitJog(m, w).events)
  {
  }

  // ---------------------------------------------------------------- scaling

  predicate GoesHome(b: Block) {
    b.nonModal.GoHome0? || b.nonModal.GoHome1?
  }

  lemma ModesKeepEarly(w: Work, env: Env)
    ensures var st1 := CommitModes(w, env);
            && st1.canned == w.st.canned && st1.modal.splinePq == w.st.modal.splinePq
            && st1.scale == w.st.scale && st1.modal.scaling == w.st.modal.scaling
  {
    hide Pick;
  }

  lemma NonModalKeepsEarly(m: Machine, w: Work, st: State)
    ensures var st1 := CommitNonModal(m, w, st);
            && st1.canned == st.canned && st1.modal.splinePq == st.modal.splinePq
            && st1.scale == (if GoesHome(w.b) then UNSCALED else st.scale)
            && st1.modal.scaling == (!GoesHome(w.b) && st.modal.scaling)
  {
  }

  lemma MotionKeepsEarly(w: Work, env: Env, st: State)
    ensures var st1 := CommitFlow(w, env, CommitMotion(w, env, st));
            && st1.canned == st.canned && st1.modal.splinePq == st.modal.splinePq
            && st1.scale == st.scale && st1.modal.scaling == st.modal.scaling
  {
    hide NewPosition;
  }

  /** What the execution step does with the data that the checks have written. */
  lemma CommitKeepsEarly(m: Machine, w: Work, env: Env)
    ensures var st1 := Commit(m, w, env).st;
            && st1.canned == w.st.canned && st1.modal.splinePq == w.st.modal.splinePq
            && st1.scale == (if GoesHome(w.b) then UNSCALED else w.st.scale)
            && st1.modal.scaling == (!GoesHome(w.b) && w.st.modal.scaling)
  {
    CommitIs(m, w, env);
    hide *;
    var st1 := CommitModes(w, env);
    ModesKeepEarly(w, env);
    NonModalKeepsEarly(m, w, st1);
    MotionKeepsEarly(w, env, CommitNonModal(m, w, st1));
  }

  lemma EarlyScale(m: Machine, st: State, b: Block)
    ensures var st1 := AfterChecks(m, st, b);
            && st1.scale == (if ScalingReached(m, st, b) then ScaleWritten(st, b) else st.scale)
            && st1.modal.scaling == (if ScalingReached(m, st, b) then ScalingFlag(st, b) else st.modal.scaling)
  {
    hide ScalingReached, CycleReached, SplineReached, CycleFinal, OffsetWritten, ScaleWritten, ScalingFlag, AxesPass;
  }

  /** The scaling after a line, refused or not. */
  lemma LineScales(m: Machine, st: State, line: Line)
    requires (line.words != [] || line.jog) && ScanLine(m, st, line).Accept?
    ensures var b, e := ScanLine(m, st, line).value, Execute(m, st, line);
            var home := e.status == Ok && GoesHome(b);
            var reached := ScalingReached(m, st, b);
            && e.st.scale == (if home then UNSCALED else if reached then ScaleWritten(st, b) else st.scale)
            && e.st.modal.scaling == (!home && if reached then ScalingFlag(st, b) else st.modal.scaling)
  {
    hide ScanLine, Validate, AfterChecks, ScalingReached, ScaleWritten, ScalingFlag, Commit, CommitJog, Read, ReadValues,
         Covered, Asked;
    LineReads(m, st, line);
    var b := ScanLine(m, st, line).value;
    ReadCovers(st, line.jog, b);
    ChecksLeave(m, st, b);
    EarlyScale(m, st, b);
    var o := Validate(m, st, b);
    if o.Go? {
      Atomicity.ValidateKeeps(m, st, b);
      AskedMeans(o.w.b, b);
      JogMoves(m, o.w);
      JogsStay(m, o.w);
      CommitKeepsEarly(m, o.w, line.env);
      CommitSucceeds(m, o.w, line.env);
    }
  }

  lemma JogsStay(m: Machine, w: Work)
    ensures CommitJog(m, w).status == Ok ==> !GoesHome(w.b)
  {
  }

  /** Scaling about the origin, the only centre that any line can set. */
  ghost predicate Centred(st: State) {
    st.scale.xyz == ORIGIN
  }

  lemma LineCentred(m: Machine, st: State, line: Line)
    requires Centred(st)
    ensures Centred(Execute(m, st, line).st)
  {
    if (line.words != [] || line.jog) && ScanLine(m, st, line).Accept? {
      LineScales(m, st, line);
      hide ScanLine, Validate, ScalingReached, ScalingFlag, Commit, CommitJog, Millimetres, ExecuteBlock;
    }
    hide ScanLine, ExecuteBlock;
  }

  lemma {:induction false} RunCentred(m: Machine, st: State, ops: seq<Op>)
    requires Centred(st)
    ensures Centred(Run(m, st, ops))
    decreases |ops|
  {
    hide Execute, Centred;
    if ops != [] {
      StepCentred(m, st, ops[0]);
      RunCentred(m, Step(m, st, ops[0]).st, ops[1..]);
    }
  }

  lemma StepCentred(m: Machine, st: State, op: Op)
    requires Centred(st)
    ensures Centred(Step(m, st, op).st)
  {
    hide Execute;
    if op.Block? {
      LineCentred(m, st, op.line);
    }
  }

  lemma ColdStartCentred(m: Machine, st: State)
    ensures Centred(ColdInit(m, st))
  {
  }

  /** So in every state of a run G51 ends with scaling on, even if it gives the factor one to every axis; it takes its
      factors for lengths, and in inches multiplies them by 25.4. */
  lemma G51TurnsOn(m: Machine, st: State, ops: seq<Op>, line: Line)
    requires Centred(st)
    requires (line.words != [] || line.jog) && ScanLine(m, Run(m, st, ops), line).Accept?
    requires var tt := Run(m, st, ops);
             var b := ScanLine(m, tt, line).value;
             ScalingReached(m, tt, b) && b.modal.scaling && !GoesHome(b)
    ensures var tt := Run(m, st, ops);
            var b, e := ScanLine(m, tt, line).value, Execute(m, tt, line);
            && e.st.modal.scaling
            && e.st.scale.ijk == Pick(b.axisWords, b.values.xyz.Times(if b.modal.imperial then MM_PER_INCH else 1.0), tt.scale.ijk)
  {
    hide ScanLine, Execute, Run, ScalingReached, Vec.Times;
    RunCentred(m, st, ops);
    var tt := Run(m, st, ops);
    LineScales(m, tt, line);
    FactorsWritten(tt, ScanLine(m, tt, line).value);
  }

  lemma FactorsWritten(st: State, b: Block)
    requires b.modal.scaling
    ensures ScaleWritten(st, b).ijk == Pick(b.axisWords, b.values.xyz.Times(if b.modal.imperial then MM_PER_INCH else 1.0), st.scale.ijk)
  {
  }

  // ---------------------------------------------------------------- G10 beside an override

  lemma DataStores(m: Machine, w: Work, env: Env)
    requires w.b.nonModal.SetCoordinateData?
    ensures forall i: CoordId :: Commit(m, w, env).st.store[i] == if i == w.coordId then w.coordData else w.st.store[i]
  {
    CommitIs(m, w, env);
    hide *;
    ModesCommit(w, env);
    var st1 := CommitModes(w, env);
    DataCommits(m, w, st1);
    var st2 := CommitNonModal(m, w, st1);
    MotionCommits(w, env, st2);
    FlowCommits(w, env, CommitMotion(w, env, st2));
    StoreKinds();
  }

  lemma StoreKinds()
    ensures 9 <= STORE_G28 < 12 && 9 <= STORE_G30 < 12 && 9 <= STORE_G92 < 12
  {
  }

  /** G10 writes one coordinate system of the store, and leaves the others alone. */
  lemma G10Stores(m: Machine, st: State, line: Line)
    requires Accepted(m, st, line) && !line.jog && ScanLine(m, st, line).value.nonModal.SetCoordinateData?
    ensures var b, e := ScanLine(m, st, line).value, Execute(m, st, line);
            forall i: CoordId :: e.st.store[i] == if i == G10System(b) then G10Data(st, b) else st.store[i]
  {
    hide ScanLine, Validate, Commit, G10System, G10Data, Execute, Asked, FeedOf, SelectedCoord, Atomicity.SameButEarly;
    var b := ScanLine(m, st, line).value;
    var w := AcceptedReaches(m, st, line);
    ReachedCoord(m, st, line, w);
    EarlyIsCached(st, b, w.st);
    WorkPositions.LinePlaced(m, st, line, w);
    CheckedG10(m, st, b, w);
    DataStores(m, w, line.env);
  }

  /** Beside M48 to M53 a G10 without P writes G54, whichever system is active. */
  lemma OverrideRedirectsG10(m: Machine, st: State, line: Line)
    requires Accepted(m, st, line) && !line.jog && ScanLine(m, st, line).value.nonModal.SetCoordinateData?
    requires var b := ScanLine(m, st, line).value; M9 in b.groups && 'P' !in b.words
    ensures var b, e := ScanLine(m, st, line).value, Execute(m, st, line);
            forall i: CoordId :: e.st.store[i] == if i == 0 then G10Data(st, b) else st.store[i]
  {
    hide ScanLine, G10Data, Execute;
    G10Stores(m, st, line);
  }

  // ---------------------------------------------------------------- G5.1

  lemma QuadraticStops(m: Machine, w: Work)
    requires w.b.modal.motion.QuadraticSpline? && !w.b.modal.canned && w.b.axisCmd.MotionCmd? && w.b.values.ijk.x == 0.0
    ensures CheckMotion(m, w).Stop?
  {
    hide SplineOffset, SetValues, Consume;
  }

  /** G5.1 is refused for I0 whatever J is; a J0 is not looked at. */
  lemma QuadraticNeedsI(m: Machine, st: State, line: Line)
    requires ScanLine(m, st, line).Accept? && (line.words != [] || line.jog)
    requires var b := ScanLine(m, st, line).value;
             b.modal.motion.QuadraticSpline? && !b.modal.canned && ImpliedCmd(b).MotionCmd? && b.values.ijk.x == 0.0
    ensures Execute(m, st, line).status != Ok
  {
    hide ScanLine, CheckWords, CheckAxes, CheckMotion, CheckUnused, Asked, FeedOf, Placed, SelectedCoord, WordsUsed, PLeft,
         Read, ReadValues, Covered;
    LineReads(m, st, line);
    var b := ScanLine(m, st, line).value;
    ReadCovers(st, line.jog, b);
    if AxesPass(m, st, b) {
      MotionBlock(m, st, b);
      QuadraticStops(m, AtMotion(m, st, b));
    }
  }

  // ---------------------------------------------------------------- G85, G86 and G89

  predicate Boring(motion: Motion) {
    motion.Canned85? || motion.Canned86? || motion.Canned89?
  }

  lemma DrillKeepsCmd(w: Work)
    ensures CheckDrill(w).Go? ==> CheckDrill(w).w.b.axisCmd == w.b.axisCmd
  {
    hide ToMillimetres, Consume, Asked;
    Setters();
  }

  lemma CannedKeepsCmd(w: Work)
    ensures CheckCanned(w).Go? ==> CheckCanned(w).w.b.axisCmd == w.b.axisCmd
  {
    hide SetValues, Consume, Asked, CheckDrill, Vec.Put, Pick, ToMillimetres;
    Setters();
    var w1 := if w.b.cannedChange then CannedReset(w) else w;
    var w2 := CannedTarget(CannedRetract(DefaultRepeats(w1)));
    DrillKeepsCmd(Consume(w2, {'R', 'L'}));
  }

  lemma RadiusKeepsCmd(m: Machine, w: Work)
    ensures CheckRadiusArc(m, w).Go? ==> CheckRadiusArc(m, w).w.b.axisCmd == w.b.axisCmd
    ensures CheckCentreArc(m, w).Go? ==> CheckCentreArc(m, w).w.b.axisCmd == w.b.axisCmd
  {
    hide SetValues, Consume, Asked, ProgrammedRadius, RadiusCentre, CentreOffsets, RadiiAgree, Distance, Vec.Put;
    Setters();
  }

  lemma ArcKeepsCmd(m: Machine, w: Work)
    requires CheckArc(m, w).Go?
    ensures CheckArc(m, w).w.b.axisCmd == w.b.axisCmd
  {
    hide SetTurns, Consume, Asked, IsInt, ToUint32, CheckRadiusArc, CheckCentreArc;
    Setters();
    RadiusKeepsCmd(m, CheckTurns(w).w);
  }

  lemma SplinesKeepCmd(w: Work)
    ensures CheckCubic(w).Go? ==> CheckCubic(w).w.b.axisCmd == w.b.axisCmd
    ensures CheckQuadratic(w).Go? ==> CheckQuadratic(w).w.b.axisCmd == w.b.axisCmd
  {
    hide SetValues, Consume, Asked, CubicOffset, SplineOffset, PlanarLength;
    Setters();
  }

  lemma ModeKeepsCmd(m: Machine, w: Work)
    requires CheckMode(m, w).Go? && w.b.axisWords.Any()
    ensures CheckMode(m, w).w.b.axisCmd == w.b.axisCmd
  {
    CannedKeepsCmd(w);
    SplinesKeepCmd(w);
    if w.b.modal.motion.Arc() && CheckArc(m, w).Go? {
      ArcKeepsCmd(m, w);
    }
    hide CheckCanned, CheckArc, CheckCubic, CheckQuadratic;
  }

  /** With axis words a motion stays one. */
  lemma MotionKeepsCommand(m: Machine, w: Work)
    requires CheckMotion(m, w).Go? && w.b.axisCmd.MotionCmd? && w.b.axisWords.Any()
    ensures CheckMotion(m, w).w.b.axisCmd.MotionCmd?
    ensures !w.b.modal.motion.NoMotion? && !w.b.modal.motion.SpindleSync? && !w.b.modal.motion.Threading?
  {
    ForgetIs(w);
    var w1 := if w.b.modal.canned then w else ForgetRetract(w);
    if CheckMode(m, w1).Go? {
      ModeKeepsCmd(m, w1);
    }
    hide CheckMode, ForgetRetract;
  }

  lemma MotionsMove(m: Machine, w: Work, env: Env)
    requires Moves(w) && !GoesHome(w.b) && !w.b.modal.motion.SpindleSync? && !w.b.modal.motion.Threading?
    ensures (exists e <- Commit(m, w, env).events :: !e.Pause?) <==> !Boring(w.b.modal.motion)
    ensures Boring(w.b.modal.motion) ==> Commit(m, w, env).st.position == w.b.values.xyz
  {
    CommitIs(m, w, env);
    var st2 := CommitNonModal(m, w, CommitModes(w, env));
    MotionCommits(w, env, st2);
    FlowCommits(w, env, CommitMotion(w, env, st2));
    EventsOfMotion(w, st2);
    hide Commit, CommitModes, CommitNonModal, CommitFlow, MotionEvents;
    var events := DwellEvents(w) + HomeEvents(w) + MotionEvents(w, st2);
    assert HomeEvents(w) == [];
    if !Boring(w.b.modal.motion) {
      assert events[|events| - 1] == MotionEvents(w, st2)[0];
    }
  }

  lemma EventsOfMotion(w: Work, st: State)
    requires Moves(w) && !w.b.modal.motion.SpindleSync? && !w.b.modal.motion.Threading?
    ensures var events := MotionEvents(w, st);
            if Boring(w.b.modal.motion) then events == [] else |events| == 1 && !events[0].Pause?
  {
    hide NewPlan, CubicControls, QuadraticControls;
  }

  /** A motion line with axis words that is carried out hands on a motion exactly if it is not G85, G86 or G89; after these
      the parser takes the tool to be at their target all the same. */
  lemma OnlyBoringStandsStill(m: Machine, st: State, line: Line)
    requires Accepted(m, st, line) && !line.jog
    requires var b := ScanLine(m, st, line).value; ImpliedCmd(b).MotionCmd? && b.axisWords.Any()
    ensures var b, e := ScanLine(m, st, line).value, Execute(m, st, line);
            && ((exists x <- e.events :: !x.Pause?) <==> !Boring(b.modal.motion))
            && (Boring(b.modal.motion) ==> e.st.position == Placed(Fresh(st, b)))
  {
    var b := ScanLine(m, st, line).value;
    assert Accepted(m, st, line) ==> ScanLine(m, st, line).Accept?;
    hide *;
    LineCovers(m, st, line);
    var w := AcceptedReaches(m, st, line);
    WorkPositions.LinePlaced(m, st, line, w);
    ReachedIs(m, st, line, w);
    MotionStays(m, st, b, w);
    NeverHome(b);
    SameHome(w.b, b);
    MotionsMove(m, w, line.env);
  }

  lemma ReachedIs(m: Machine, st: State, line: Line, w: Work)
    requires Reaches(m, st, line, w)
    ensures Validate(m, st, ScanLine(m, st, line).value) == Go(w)
  {
  }

  lemma SameHome(b: Block, c: Block)
    requires b.nonModal == c.nonModal
    ensures GoesHome(b) == GoesHome(c)
  {
  }

  lemma MotionStays(m: Machine, st: State, b: Block, w: Work)
    requires Validate(m, st, b) == Go(w) && Covered(b) && ImpliedCmd(b).MotionCmd? && b.axisWords.Any() && w.b.modal.motion == b.modal.motion
    ensures Moves(w) && !b.modal.motion.SpindleSync? && !b.modal.motion.Threading?
  {
    ValidatedIs(m, st, b, w);
    MotionBlock(m, st, b);
    MotionKeepsCommand(m, AtMotion(m, st, b));
    UnusedKeeps(CheckMotion(m, AtMotion(m, st, b)).w);
    hide AxesPass, AtMotion, CheckMotion, CheckUnused, Validate, Placed, PLeft, WordsUsed, SelectedCoord, FeedOf, Covered;
  }

  lemma NeverHome(b: Block)
    requires Covered(b) && ImpliedCmd(b).MotionCmd?
    ensures !GoesHome(b)
  {
  }

  lemma ValidatedIs(m: Machine, st: State, b: Block, w: Work)
    requires Validate(m, st, b) == Go(w)
    ensures AxesPass(m, st, b) && CheckMotion(m, AtMotion(m, st, b)).Go?
    ensures CheckUnused(CheckMotion(m, AtMotion(m, st, b)).w) == Go(w)
  {
    hide CheckWords, CheckAxes, CheckMotion, CheckUnused;
  }

  // ---------------------------------------------------------------- the end of a program

  /** M2 and M30 go back to G1 but leave a cycle active, which the next line with an axis word continues. */
  lemma EndKeepsCycle(m: Machine, st: State, line: Line)
    requires Accepted(m, st, line) && !line.jog && EndsWith(ScanLine(m, st, line).value, line.env)
    ensures var b, e := ScanLine(m, st, line).value, Execute(m, st, line);
            && e.st.modal.motion.Linear? && e.st.modal.canned == b.modal.canned
            && (st.modal.canned && G1 !in b.groups ==> e.st.modal.canned)
  {
    hide ScanLine, ExecuteBlock, EndsWith, Read, ReadValues;
    LineReads(m, st, line);
    var b := ScanLine(m, st, line).value;
    CycleRead(st, line.jog, b);
    ExecutedModes(m, st, b, line.env);
  }

  lemma CycleRead(st: State, jog: bool, b: Block)
    requires Read(NewBlock(st, jog), b)
    ensures b.jog == jog && (G1 !in b.groups ==> b.modal.canned == st.modal.canned)
  {
    hide Claimed;
    assert SlotOf(NewBlock(st, jog), G1) == MotionSlot(NewBlock(st, jog).modal.motion, st.modal.canned, false);
    assert SlotOf(b, G1) == MotionSlot(b.modal.motion, b.modal.canned, b.cannedChange);
  }

  /** The same with another program flow and other marks for I, J and K. */
  function Retold(w: Work, flow: Flow, ijkWords: Axes): Work {
    w.(b := w.b.(flow := flow, ijkWords := ijkWords))
  }

  lemma BasicsRetold(w: Work, flow: Flow, axes: Axes, env: Env, st: State)
    ensures var w1 := Retold(w, flow, axes);
            CommitBasics(w1, st) == CommitBasics(w, st) && CommitTool(w1, env, st) == CommitTool(w, env, st)
  {
  }

  lemma SystemsRetold(w: Work, flow: Flow, axes: Axes, st: State)
    ensures var w1 := Retold(w, flow, axes);
            CommitToolOffset(w1, st) == CommitToolOffset(w, st) && CommitCoord(w1, st) == CommitCoord(w, st)
            && CommitDistance(w1, st) == CommitDistance(w, st) && w1.st == w.st
  {
    hide Pick;
  }

  lemma ModesAre(w: Work, env: Env)
    ensures CommitModes(w, env) == CommitDistance(w, CommitCoord(w, CommitToolOffset(w, CommitTool(w, env, CommitBasics(w, w.st)))))
  {
  }

  lemma ModesRetold(w: Work, flow: Flow, axes: Axes, env: Env)
    ensures CommitModes(Retold(w, flow, axes), env) == CommitModes(w, env)
  {
    hide *;
    ModesAre(w, env);
    ModesAre(Retold(w, flow, axes), env);
    BasicsRetold(w, flow, axes, env, w.st);
    var st1 := CommitBasics(w, w.st);
    BasicsRetold(w, flow, axes, env, st1);
    var st2 := CommitTool(w, env, st1);
    SystemsRetold(w, flow, axes, st2);
    var st3 := CommitToolOffset(w, st2);
    SystemsRetold(w, flow, axes, st3);
    SystemsRetold(w, flow, axes, CommitCoord(w, st3));
  }

  lemma ActionsRetold(m: Machine, w: Work, flow: Flow, axes: Axes, env: Env, st: State)
    ensures var w1 := Retold(w, flow, axes);
            && CommitNonModal(m, w1, st) == CommitNonModal(m, w, st) && CommitMotion(w1, env, st) == CommitMotion(w, env, st)
            && DwellEvents(w1) == DwellEvents(w) && HomeEvents(w1) == HomeEvents(w)
  {
  }

  lemma MotionRetold(w: Work, flow: Flow, axes: Axes, st: State)
    ensures MotionEvents(Retold(w, flow, axes), st) == MotionEvents(w, st)
  {
  }

  lemma EndRetold(w: Work, flow: Flow, axes: Axes, env: Env, st: State)
    requires env.singleBlock || flow == w.b.flow
    ensures CommitFlow(Retold(w, flow, axes), env, st) == CommitFlow(w, env, st)
  {
  }

  /** The execution step does not look at the marks, and in single-block mode does not look at M2 and M30. */
  lemma CommitRetold(m: Machine, w: Work, flow: Flow, axes: Axes, env: Env)
    requires env.singleBlock || flow == w.b.flow
    ensures Commit(m, Retold(w, flow, axes), env) == Commit(m, w, env)
  {
    hide *;
    var w1 := Retold(w, flow, axes);
    CommitIs(m, w, env);
    CommitIs(m, w1, env);
    ModesRetold(w, flow, axes, env);
    var st1 := CommitModes(w, env);
    ActionsRetold(m, w, flow, axes, env, st1);
    var st2 := CommitNonModal(m, w, st1);
    ActionsRetold(m, w, flow, axes, env, st2);
    MotionRetold(w, flow, axes, st2);
    EndRetold(w, flow, axes, env, CommitMotion(w, env, st2));
  }
}
