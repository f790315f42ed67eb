/** G92 and G10 L20 set the position that the operator reads. */
module WorkPositions {
  import opened GcTypes
  import opened Scanner
  import opened Validation
  import opened Execution
  import opened Frames
  import ScanFacts
  import opened Offsets
  import opened Targets

  /** What becomes of the axis words of a line. */
  lemma LinePlaced(m: Machine, st: State, line: Line, w: Work)
    requires Reaches(m, st, line, w)
    ensures var b := ScanLine(m, st, line).value;
            && w.b.values.xyz == Placed(Fresh(st, b)) && w.b.modal.coord == SelectedCoord(Fresh(st, b))
            && w.b.nonModal == b.nonModal && w.b.groups == b.groups && w.b.flow == b.flow
            && w.b.modal.motion == b.modal.motion && w.b.modal.toolMode == b.modal.toolMode
            && w.b.modal.coord.id == b.modal.coord.id
            && (w.b.axisCmd == ImpliedCmd(b) || w.b.axisCmd.NoAxisCmd?)
  {
    hide ScanLine, Validate, CheckWords, CheckAxes, FeedOf, Asked, Placed, SelectedCoord;
    var b := ScanLine(m, st, line).value;
    var w1, w2 := ChecksReached(m, st, b, w);
    AxesKeep(m, w1);
    AxesPlaced(m, w1);
    PlacedSame(Fresh(st, b), w1);
    SelectedSame(Fresh(st, b), w1);
    SelectedIds(Fresh(st, b));
    AskedMeans(w.b, b);
  }

  lemma SelectedIds(w: Work)
    ensures SelectedCoord(w).id == w.b.modal.coord.id
  {
  }

  // ---------------------------------------------------------------- G92

  /** The position in the coordinate system the line selects, before the line sets it anew. */
  ghost function ReadBefore(st: State, b: Block): Vec {
    st.position.Minus(SelectedCoord(Fresh(st, b)).xyz).Minus(st.g92).Minus(st.tlo)
  }

  lemma OffsetNeverMoves(m: Machine, st: State, line: Line, w: Work)
    requires Reaches(m, st, line, w) && ScanFacts.NeedsAxes(w.b.nonModal)
    ensures !Moves(w) && !(G8 in w.b.groups && w.b.modal.toolMode.DynamicTlo?)
  {
    hide ScanLine, Placed, SelectedCoord, Validate, FeedOf, Asked;
    LinePlaced(m, st, line, w);
    ScanFacts.LineReads(m, st, line);
  }

  lemma G92Commits(m: Machine, w: Work, env: Env)
    requires w.b.nonModal.SetOffset? && !Moves(w) && !EndsProgram(w, env) && !(G8 in w.b.groups && w.b.modal.toolMode.DynamicTlo?)
    ensures var st1 := Commit(m, w, env).st;
            && Commit(m, w, env).status == Ok && st1.position == w.st.position && st1.g92 == w.b.values.xyz
            && st1.tlo == (if G8 in w.b.groups then ORIGIN else w.st.tlo)
            && st1.modal.coord == (if w.st.modal.coord.id != w.b.modal.coord.id then w.b.modal.coord else w.st.modal.coord)
  {
    hide CommitModes, CommitNonModal, CommitMotion, CommitFlow, EndsProgram;
    ModesCommit(w, env);
    var st1 := CommitModes(w, env);
    OffsetCommits(m, w, st1);
    var st2 := CommitNonModal(m, w, st1);
    MotionCommits(w, env, st2);
    FlowCommits(w, env, CommitMotion(w, env, st2));
  }

  lemma G92Reading(axes: Axes, position: Vec, coord: Vec, mm: Vec, g92: Vec, tlo: Vec, tlo1: Vec, offset: Vec)
    requires offset == Pick(axes, position.Minus(coord).Minus(mm).Minus(tlo), g92)
    ensures position.Minus(coord.Plus(offset).Plus(tlo1))
            == Pick(axes, mm, position.Minus(coord).Minus(g92).Minus(tlo)).Plus(tlo.Minus(tlo1))
  {
  }

  /** After G92 the operator reads the programmed numbers on the named axes and the old ones on the others,
      off by whatever a G49 in the same block takes away from the tool offset. */
  lemma SetOffsetReads(m: Machine, st: State, line: Line)
    requires Accepted(m, st, line) && !line.jog
    requires var b := ScanLine(m, st, line).value; b.nonModal.SetOffset? && !EndsWith(b, line.env)
    ensures var b, e := ScanLine(m, st, line).value, Execute(m, st, line);
            && e.st.position == st.position
            && WorkPosition(e.st) == Pick(AxesLeft(b), AxisNumbers(st, b), ReadBefore(st, b)).Plus(st.tlo.Minus(e.st.tlo))
            && e.st.tlo == (if G8 in b.groups then ORIGIN else st.tlo)
  {
    hide ScanLine, Validate, SelectedCoord, Commit, Pick, AxisNumbers, AxesLeft, FeedOf, Asked, Execute;
    var b := ScanLine(m, st, line).value;
    var w := AcceptedReaches(m, st, line);
    LinePlaced(m, st, line, w);
    OffsetNeverMoves(m, st, line, w);
    ReachedCoord(m, st, line, w);
    EarlyIsCached(st, b, w.st);
    G92Commits(m, w, line.env);
    var st1 := Commit(m, w, line.env).st;
    G92Reading(AxesLeft(b), st.position, w.b.modal.coord.xyz, AxisNumbers(st, b), st.g92, st.tlo, st1.tlo, w.b.values.xyz);
  }

  ghost predicate AgreeOn(axes: Axes, u: Vec, v: Vec) {
    Pick(axes, u, v) == v
  }

  /** So G92 sets the position exactly when no G49 beside it drops a tool offset on a named axis. */
  lemma SetOffsetIsExact(m: Machine, st: State, line: Line)
    requires Accepted(m, st, line) && !line.jog
    requires var b := ScanLine(m, st, line).value; b.nonModal.SetOffset? && !EndsWith(b, line.env)
    ensures var b := ScanLine(m, st, line).value;
            AgreeOn(AxesLeft(b), AxisNumbers(st, b), WorkPosition(Execute(m, st, line).st))
            <==> G8 !in b.groups || AgreeOn(AxesLeft(b), st.tlo, ORIGIN)
  {
    hide ScanLine, EndsWith, AxisNumbers, AxesLeft, Execute, ReadBefore, WorkPosition, Accepted;
    SetOffsetReads(m, st, line);
  }

  // ---------------------------------------------------------------- G10 L20

  lemma DataLineCommits(m: Machine, w: Work, env: Env)
    requires w.b.nonModal.SetCoordinateData? && !Moves(w) && !EndsProgram(w, env) && !(G8 in w.b.groups
             && w.b.modal.toolMode.DynamicTlo?)
    ensures var st1 := Commit(m, w, env).st;
            && Commit(m, w, env).status == Ok && st1.position == w.st.position && st1.g92 == w.st.g92
            && st1.tlo == (if G8 in w.b.groups then ORIGIN else w.st.tlo)
            && st1.store == w.st.store[w.coordId := w.coordData]
            && st1.modal.coord.id == w.b.modal.coord.id
            && (w.b.modal.coord.id == w.coordId ==> st1.modal.coord.xyz == w.coordData)
  {
    hide CommitModes, CommitNonModal, CommitMotion, CommitFlow, EndsProgram;
    ModesCommit(w, env);
    var st1 := CommitModes(w, env);
    DataCommits(m, w, st1);
    var st2 := CommitNonModal(m, w, st1);
    MotionCommits(w, env, st2);
    FlowCommits(w, env, CommitMotion(w, env, st2));
  }

  lemma DataReading(axes: Axes, position: Vec, mm: Vec, before: Vec, g92: Vec, tlo: Vec, tlo1: Vec, data: Vec)
    requires data == Pick(axes, position.Minus(mm).Minus(g92).Minus(tlo), before)
    ensures position.Minus(data.Plus(g92).Plus(tlo1))
            == Pick(axes, mm, position.Minus(before).Minus(g92).Minus(tlo)).Plus(tlo.Minus(tlo1))
  {
  }

  /** The reading in a coordinate system of the store. */
  ghost function ReadIn(st: State, id: CoordId): Vec {
    st.position.Minus(st.store[id].Plus(st.g92).Plus(st.tlo))
  }

  /** G10 L20 makes the system it writes read the programmed numbers on the named axes, whether the system
      is active now or is selected later; if it is active the operator reads them at once. */
  lemma CoordDataReads(m: Machine, st: State, line: Line)
    requires Accepted(m, st, line) && !line.jog
    requires var b := ScanLine(m, st, line).value;
             b.nonModal.SetCoordinateData? && b.values.l == 20 && !EndsWith(b, line.env)
    ensures var b, e := ScanLine(m, st, line).value, Execute(m, st, line);
            var id := G10System(b);
            && e.st.position == st.position && e.st.g92 == st.g92 && e.st.tlo == (if G8 in b.groups then ORIGIN else st.tlo)
            && ReadIn(e.st, id) == Pick(AxesLeft(b), AxisNumbers(st, b), ReadIn(st, id)).Plus(st.tlo.Minus(e.st.tlo))
            && e.st.modal.coord.id == b.modal.coord.id
            && (b.modal.coord.id == id ==> WorkPosition(e.st) == ReadIn(e.st, id))
  {
    hide ScanLine, Validate, SelectedCoord, Commit, Pick, AxisNumbers, AxesLeft, G10System, FeedOf, Asked, Execute;
    var b := ScanLine(m, st, line).value;
    var w := AcceptedReaches(m, st, line);
    LinePlaced(m, st, line, w);
    OffsetNeverMoves(m, st, line, w);
    ReachedCoord(m, st, line, w);
    EarlyIsCached(st, b, w.st);
    CheckedG10(m, st, b, w);
    DataLineCommits(m, w, line.env);
    var st1, id := Commit(m, w, line.env).st, G10System(b);
    DataReading(AxesLeft(b), st.position, AxisNumbers(st, b), st.store[id], st.g92, st.tlo, st1.tlo, w.coordData);
    Regroup(st.position, st.store[id], st.g92, st.tlo);
  }

  /** So G10 L20 is exact in the system it writes exactly when no G49 beside it drops a tool offset on a named axis. */
  lemma CoordDataIsExact(m: Machine, st: State, line: Line)
    requires Accepted(m, st, line) && !line.jog
    requires var b := ScanLine(m, st, line).value;
             b.nonModal.SetCoordinateData? && b.values.l == 20 && !EndsWith(b, line.env)
    ensures var b := ScanLine(m, st, line).value;
            AgreeOn(AxesLeft(b), AxisNumbers(st, b), ReadIn(Execute(m, st, line).st, G10System(b)))
            <==> G8 !in b.groups || AgreeOn(AxesLeft(b), st.tlo, ORIGIN)
  {
    CoordDataReads(m, st, line);
    var b, e := ScanLine(m, st, line).value, Execute(m, st, line);
    var id := G10System(b);
    hide *;
    ExactBut(AxesLeft(b), AxisNumbers(st, b), ReadIn(st, id), st.tlo, e.st.tlo, ReadIn(e.st, id));
  }

  lemma ExactBut(axes: Axes, u: Vec, v: Vec, tlo: Vec, tlo1: Vec, p: Vec)
    requires p == Pick(axes, u, v).Plus(tlo.Minus(tlo1)) && (tlo1 == tlo || tlo1 == ORIGIN)
    ensures AgreeOn(axes, u, p) <==> tlo1 == tlo || AgreeOn(axes, tlo, ORIGIN)
  {
  }

  lemma Regroup(p: Vec, a: Vec, b: Vec, c: Vec)
    ensures p.Minus(a).Minus(b).Minus(c) == p.Minus(a.Plus(b).Plus(c))
  {
  }

  // ---------------------------------------------------------------- selecting the system later

  lemma StandsStill(m: Machine, w: Work, env: Env)
    requires !Moves(w) && w.b.nonModal.NoAction? && !EndsProgram(w, env) && G8 !in w.b.groups
    ensures var st1 := Commit(m, w, env).st;
            && st1.position == w.st.position && st1.g92 == w.st.g92 && st1.tlo == w.st.tlo && st1.store == w.st.store
            && st1.modal.coord == (if w.st.modal.coord.id != w.b.modal.coord.id then w.b.modal.coord else w.st.modal.coord)
  {
    CommitIs(m, w, env);
    assert CommitNonModal(m, w, CommitModes(w, env)) == CommitModes(w, env);
    hide Commit, CommitModes, CommitNonModal, CommitMotion, CommitFlow, EndsProgram;
    ModesCommit(w, env);
    var st1 := CommitModes(w, env);
    MotionCommits(w, env, st1);
    FlowCommits(w, env, CommitMotion(w, env, st1));
  }

  /** A line that only selects a coordinate system. */
  ghost predicate Selects(m: Machine, st: State, line: Line, id: CoordId) {
    && Accepted(m, st, line) && !line.jog
    && var b := ScanLine(m, st, line).value;
       && b.nonModal.NoAction? && !ImpliedCmd(b).MotionCmd? && G8 !in b.groups && !EndsWith(b, line.env)
       && b.modal.coord.id == id
  }

  /** After the selection the operator reads what the system has in store for the position. */
  lemma SelectionReads(m: Machine, st: State, line: Line, id: CoordId)
    requires Cached(st) && Selects(m, st, line, id)
    ensures var e := Execute(m, st, line);
            && e.st.position == st.position && WorkPosition(e.st) == ReadIn(st, id) && e.st.modal.coord.id == id
  {
    hide ScanLine, Validate, SelectedCoord, Commit, FeedOf, Asked, Execute, Placed, ImpliedCmd;
    var w := AcceptedReaches(m, st, line);
    LinePlaced(m, st, line, w);
    ReachedCoord(m, st, line, w);
    EarlyIsCached(st, ScanLine(m, st, line).value, w.st);
    StandsStill(m, w, line.env);
  }

  /** The tool and the offsets stand as in the other state, and so does the data of one system. */
  ghost predicate StandsAs(st: State, tt: State, id: CoordId) {
    tt.position == st.position && tt.g92 == st.g92 && tt.tlo == st.tlo && tt.store[id] == st.store[id]
  }

  /** G10 L20 on any system, and its selection at any later time with tool and offsets unchanged: the
      operator reads the programmed numbers on the named axes. */
  lemma CoordDataReadsLater(m: Machine, st: State, line: Line, tt: State, select: Line)
    requires Accepted(m, st, line) && !line.jog
    requires var b := ScanLine(m, st, line).value;
             b.nonModal.SetCoordinateData? && b.values.l == 20 && !EndsWith(b, line.env) && G8 !in b.groups
    requires var id := G10System(ScanLine(m, st, line).value);
             StandsAs(Execute(m, st, line).st, tt, id) && Cached(tt) && Selects(m, tt, select, id)
    ensures var b, uu := ScanLine(m, st, line).value, Execute(m, tt, select).st;
            uu.position == st.position && AgreeOn(AxesLeft(b), AxisNumbers(st, b), WorkPosition(uu))
  {
    assert ScanLine(m, st, line).Accept?;
    hide *;
    var b := ScanLine(m, st, line).value;
    var id, st1 := G10System(b), Execute(m, st, line).st;
    CoordDataReads(m, st, line);
    SelectionReads(m, tt, select, id);
    SameReading(st1, tt, id);
    ReadsThose(AxesLeft(b), AxisNumbers(st, b), ReadIn(st, id), st.tlo, ReadIn(st1, id));
  }

  lemma SameReading(st: State, tt: State, id: CoordId)
    requires StandsAs(st, tt, id)
    ensures ReadIn(tt, id) == ReadIn(st, id) && tt.position == st.position
  {
  }

  lemma ReadsThose(axes: Axes, u: Vec, v: Vec, tlo: Vec, p: Vec)
    requires p == Pick(axes, u, v).Plus(tlo.Minus(tlo))
    ensures AgreeOn(axes, u, p)
  {
  }

  // ---------------------------------------------------------------- the way back

  /** A G90 move with G0 or G1. */
  ghost predicate PlainMove(m: Machine, st: State, line: Line) {
    && Accepted(m, st, line) && !line.jog
    && var b := ScanLine(m, st, line).value;
       && b.nonModal.NoAction? && ImpliedCmd(b).MotionCmd? && (b.modal.motion.Seek? || b.modal.motion.Linear?)
       && !b.modal.canned && !b.modal.incremental && G12 !in b.groups && b.axisWords.Any()
  }

  lemma TargetKeepsCmd(m: Machine, w1: Work)
    requires CheckAxes(m, w1).Go? && w1.b.nonModal.NoAction? && w1.b.axisCmd.MotionCmd?
    ensures var w2 := CheckAxes(m, w1).w; w2.b.axisCmd.MotionCmd? && w2.b.axisWords == w1.b.axisWords
  {
    LeftMeans(w1.b);
    hide CheckAxes, ComputeTarget, Asked, AxisNumbers, SelectedCoord;
    var w3 := NumbersSeen(m, w1);
    AskedMeans(w3.b, w1.b);
    assert CheckNonModal(m, w3) == Go(ComputeTarget(w3));
    TargetKeeps(w3);
  }

  lemma MotionKeepsCmd(m: Machine, w: Work)
    requires CheckMotion(m, w).Go? && w.b.axisCmd.MotionCmd? && w.b.axisWords.Any()
    requires (w.b.modal.motion.Seek? || w.b.modal.motion.Linear?) && !w.b.modal.canned
    ensures CheckMotion(m, w).w.b.axisCmd.MotionCmd?
  {
    hide ForgetRetract, Asked;
    Setters();
    AskedMeans(ForgetRetract(w).b, w.b);
  }

  /** The command of such a move is not dropped. */
  lemma MoveKeepsCmd(m: Machine, st: State, b: Block, w: Work)
    requires Validate(m, st, b) == Go(w) && b.nonModal.NoAction? && ImpliedCmd(b).MotionCmd? && b.axisWords.Any()
    requires (b.modal.motion.Seek? || b.modal.motion.Linear?) && !b.modal.canned
    ensures w.b.axisCmd.MotionCmd?
  {
    var w1, w2 := ChecksReached(m, st, b, w);
    AskedMeans(w1.b, b);
    AskedMeans(w2.b, b);
    hide CheckWords, CheckAxes, CheckMotion, CheckUnused, Asked, FeedOf;
    TargetKeepsCmd(m, w1);
    MotionKeepsCmd(m, w2);
    UnusedKeeps(CheckMotion(m, w2).w);
  }

  lemma LeftMeans(b: Block)
    ensures b.axisCmd.ScalingCmd? || AxesLeft(b) == b.axisWords
    ensures ImpliedCmd(b).MotionCmd? ==> !b.axisCmd.ScalingCmd?
  {
  }

  lemma MoveCommits(m: Machine, w: Work, env: Env)
    requires Moves(w) && w.b.nonModal.NoAction? && (w.b.modal.motion.Seek? || w.b.modal.motion.Linear?)
    ensures Commit(m, w, env).st.position == w.b.values.xyz
    ensures |Commit(m, w, env).events| == 1 && Commit(m, w, env).events[0].Move?
    ensures Commit(m, w, env).events[0].target == w.b.values.xyz
  {
    CommitIs(m, w, env);
    hide Commit, CommitModes, CommitNonModal, CommitFlow, NewPlan;
    var st2 := CommitNonModal(m, w, CommitModes(w, env));
    MotionCommits(w, env, st2);
    FlowCommits(w, env, CommitMotion(w, env, st2));
  }

  /** Such a move goes to where the tool is exactly when it names the numbers that the operator reads. */
  lemma MoveToReading(m: Machine, st: State, line: Line)
    requires PlainMove(m, st, line)
    ensures var b, e := ScanLine(m, st, line).value, Execute(m, st, line);
            && |e.events| == 1 && e.events[0].Move? && e.events[0].target == e.st.position
            && (e.st.position == st.position <==> AgreeOn(AxesLeft(b), AxisNumbers(st, b), WorkPosition(st)))
  {
    hide ScanLine, Validate, FeedOf, Asked, Execute, Commit, AxisNumbers;
    var b := ScanLine(m, st, line).value;
    var w := AcceptedReaches(m, st, line);
    LinePlaced(m, st, line, w);
    MoveKeepsCmd(m, st, b, w);
    MoveCommits(m, w, line.env);
    NoSelection(m, st, line);
    hide Reaches, ImpliedCmd, Pick, SelectedCoord;
    MoveReading(AxesLeft(b), AxisNumbers(st, b), st.modal.coord.xyz.Plus(st.g92).Plus(st.tlo), st.position);
  }

  lemma NoSelection(m: Machine, st: State, line: Line)
    requires ScanLine(m, st, line).Accept? && G12 !in ScanLine(m, st, line).value.groups
    ensures SelectedCoord(Fresh(st, ScanLine(m, st, line).value)) == st.modal.coord
  {
    hide ScanLine, NewBlock;
    ScanFacts.LineReads(m, st, line);
    CoordReads(st, line.jog, ScanLine(m, st, line).value);
  }

  lemma MoveReading(axes: Axes, mm: Vec, offset: Vec, position: Vec)
    ensures Pick(axes, mm.Plus(offset), position) == position <==> Pick(axes, mm, position.Minus(offset)) == position.Minus(offset)
  {
  }

  lemma AgreeOnFewer(axes: Axes, fewer: Axes, u: Vec, v: Vec, p: Vec)
    requires AgreeOn(axes, u, p) && AgreeOn(fewer, v, u)
    requires (fewer.x ==> axes.x) && (fewer.y ==> axes.y) && (fewer.z ==> axes.z)
    ensures AgreeOn(fewer, v, p)
  {
  }

  /** The second block repeats numbers of the first. */
  ghost predicate Repeats(st: State, b: Block, tt: State, c: Block) {
    && (AxesLeft(c).x ==> AxesLeft(b).x) && (AxesLeft(c).y ==> AxesLeft(b).y) && (AxesLeft(c).z ==> AxesLeft(b).z)
    && AgreeOn(AxesLeft(c), AxisNumbers(tt, c), AxisNumbers(st, b))
  }

  /** After G92, a G90 move to the numbers that G92 named goes nowhere. */
  lemma BackWhereItStands(m: Machine, st: State, setting: Line, move: Line)
    requires Accepted(m, st, setting) && !setting.jog
    requires var b := ScanLine(m, st, setting).value; b.nonModal.SetOffset? && !EndsWith(b, setting.env) && G8 !in b.groups
    requires var tt := Execute(m, st, setting).st;
             PlainMove(m, tt, move) && Repeats(st, ScanLine(m, st, setting).value, tt, ScanLine(m, tt, move).value)
    ensures Execute(m, Execute(m, st, setting).st, move).st.position == st.position
  {
    SetOffsetReads(m, st, setting);
    SetOffsetIsExact(m, st, setting);
    var tt := Execute(m, st, setting).st;
    var b, c := ScanLine(m, st, setting).value, ScanLine(m, tt, move).value;
    hide ScanLine, Execute, AxesLeft, AxisNumbers, WorkPosition, AgreeOn, Accepted, PlainMove, EndsWith, ReadBefore;
    AgreeOnFewer(AxesLeft(b), AxesLeft(c), AxisNumbers(st, b), AxisNumbers(tt, c), WorkPosition(tt));
    MoveToReading(m, tt, move);
  }

  /** After G10 L20 and the selection of its system, so does a G90 move to the numbers that L20 named. */
  lemma BackInTheSystem(m: Machine, st: State, line: Line, tt: State, select: Line, move: Line)
    requires Accepted(m, st, line) && !line.jog
    requires var b := ScanLine(m, st, line).value;
             b.nonModal.SetCoordinateData? && b.values.l == 20 && !EndsWith(b, line.env) && G8 !in b.groups
    requires var id := G10System(ScanLine(m, st, line).value);
             StandsAs(Execute(m, st, line).st, tt, id) && Cached(tt) && Selects(m, tt, select, id)
    requires var uu := Execute(m, tt, select).st;
             PlainMove(m, uu, move) && Repeats(st, ScanLine(m, st, line).value, uu, ScanLine(m, uu, move).value)
    ensures Execute(m, Execute(m, tt, select).st, move).st.position == st.position
  {
    CoordDataReadsLater(m, st, line, tt, select);
    var uu := Execute(m, tt, select).st;
    var b, c := ScanLine(m, st, line).value, ScanLine(m, uu, move).value;
    hide ScanLine, Execute, AxesLeft, AxisNumbers, WorkPosition, AgreeOn, Accepted, PlainMove, EndsWith, Selects, G10System, Cached;
    AgreeOnFewer(AxesLeft(b), AxesLeft(c), AxisNumbers(st, b), AxisNumbers(uu, c), WorkPosition(uu));
    MoveToReading(m, uu, move);
  }
}
