/** Where the parser thinks the tool and its coordinate systems are, over whole runs. */
module Offsets {
  import opened GcTypes
  import opened Scanner
  import opened Validation
  import opened Execution
  import Frames
  import opened ScanFacts
  import Atomicity
  import Targets

  // ---------------------------------------------------------------- the execution step, field by field

  lemma ModesCommit(w: Work, env: Env)
    ensures var st1 := CommitModes(w, env);
            && st1.position == w.st.position && st1.store == w.st.store && st1.g92 == w.st.g92
            && st1.offsetId == w.st.offsetId && st1.offsetQueue == w.st.offsetQueue
            && st1.feedRate == w.b.values.f && st1.modal.feedMode == w.b.modal.feedMode
            && st1.modal.imperial == w.b.modal.imperial && st1.modal.incremental == w.b.modal.incremental
            && st1.modal.coord == (if w.st.modal.coord.id != w.b.modal.coord.id then w.b.modal.coord else w.st.modal.coord)
            && st1.tlo == (if G8 !in w.b.groups then w.st.tlo else if w.b.modal.toolMode.CancelTlo? then ORIGIN
                           else Pick(w.b.axisWords, w.b.values.xyz, w.st.tlo))
  {
    hide Pick;
  }

  ghost predicate SameOffsets(st: State, st1: State) {
    st1.g92 == st.g92 && st1.offsetId == st.offsetId && st1.offsetQueue == st.offsetQueue
  }

  predicate ChangesG92(nonModal: NonModal) {
    nonModal.SetOffset? || nonModal.ResetOffset? || nonModal.ClearOffset? || nonModal.RestoreOffset?
  }

  /** The G92 offset after a non-modal action. */
  function NewG92(w: Work, st: State): Vec {
    match w.b.nonModal
    case SetOffset => w.b.values.xyz
    case ResetOffset => ORIGIN
    case ClearOffset => ORIGIN
    case RestoreOffset => st.store[STORE_G92]
    case _ => st.g92
  }

  lemma OffsetCommits(m: Machine, w: Work, st: State)
    requires ChangesG92(w.b.nonModal)
    ensures var st1 := CommitNonModal(m, w, st);
            && st1.modal == st.modal && st1.tlo == st.tlo && st1.position == st.position && st1.feedRate == st.feedRate
            && st1.g92 == NewG92(w, st) && st1.offsetId == (st.offsetId + 1) % MAX_OFFSET_ENTRIES
            && st1.offsetQueue == st.offsetQueue[st1.offsetId := st1.g92]
            && st1.store == (if m.g92Volatile || w.b.nonModal.ClearOffset? || w.b.nonModal.RestoreOffset? then st.store
                             else st.store[STORE_G92 := st1.g92])
  {
  }

  lemma DataCommits(m: Machine, w: Work, st: State)
    requires w.b.nonModal.SetCoordinateData?
    ensures var st1 := CommitNonModal(m, w, st);
            && SameOffsets(st, st1) && st1.tlo == st.tlo && st1.feedRate == st.feedRate
            && st1.store == st.store[w.coordId := w.coordData] && st1.position == st.position
            && st1.modal == st.modal.(coord := st1.modal.coord)
            && st1.modal.coord == CoordSystem(st.modal.coord.id,
                                              if st.modal.coord.id == w.coordId then w.coordData else st.modal.coord.xyz)
  {
  }

  lemma OthersCommit(m: Machine, w: Work, st: State)
    requires !ChangesG92(w.b.nonModal) && !w.b.nonModal.SetCoordinateData?
    ensures var st1 := CommitNonModal(m, w, st);
            && SameOffsets(st, st1) && st1.tlo == st.tlo && st1.feedRate == st.feedRate
            && st1.modal == st.modal.(scaling := st1.modal.scaling)
            && (st1.store == st.store || st1.store == st.store[STORE_G28 := st.position]
                || st1.store == st.store[STORE_G30 := st.position])
            && st1.position == (if w.b.nonModal.GoHome0? || w.b.nonModal.GoHome1? then w.coordData else st.position)
  {
  }

  lemma MotionCommits(w: Work, env: Env, st: State)
    ensures var st1 := CommitMotion(w, env, st);
            && SameOffsets(st, st1) && st1.tlo == st.tlo && st1.store == st.store && st1.feedRate == st.feedRate
            && st1.modal == st.modal.(motion := w.b.modal.motion, canned := w.b.modal.canned)
            && st1.position == NewPosition(w, env, st)
  {
    hide NewPosition;
  }

  lemma FlowCommits(w: Work, env: Env, st: State)
    ensures var st1 := CommitFlow(w, env, st);
            && SameOffsets(st, st1) && st1.tlo == st.tlo && st1.position == st.position && st1.feedRate == st.feedRate
            && st1.store == (if EndsProgram(w, env) && !env.checkMode then st.store[STORE_G92 := st.g92] else st.store)
            && st1.modal.coord == (if !EndsProgram(w, env) then st.modal.coord
                                   else CoordSystem(0, if env.checkMode then st.modal.coord.xyz else st.store[0]))
            && st1.modal.feedMode == (if EndsProgram(w, env) then UnitsPerMin else st.modal.feedMode)
            && st1.modal.imperial == st.modal.imperial && st1.modal.canned == st.modal.canned
            && st1.modal.incremental == (st.modal.incremental && !EndsProgram(w, env))
            && st1.modal.motion == (if EndsProgram(w, env) then Linear else st.modal.motion)
  {
  }

  // ---------------------------------------------------------------- the cached coordinate system

  /** The active coordinate system is the one in the store. */
  ghost predicate Cached(st: State) {
    st.modal.coord.xyz == st.store[st.modal.coord.id]
  }

  /** The coordinate systems after a G10 in the block. */
  function NewStore(w: Work): Store {
    if w.b.nonModal.SetCoordinateData? then w.st.store[w.coordId := w.coordData] else w.st.store
  }

  predicate EndsWith(b: Block, env: Env) {
    (b.flow.CompletedM2? || b.flow.CompletedM30?) && !env.singleBlock
  }

  /** The same for a block that has just been read. */
  ghost function StoreAfter(st: State, b: Block): Store {
    if b.nonModal.SetCoordinateData? then st.store[Targets.G10System(b) := Targets.G10Data(st, b)] else st.store
  }

  /** M2 or M30 in check mode goes back to G54 but keeps the data of the system that the block selects. */
  ghost predicate LeavesStale(st: State, b: Block, env: Env) {
    EndsWith(b, env) && env.checkMode && StoreAfter(st, b)[b.modal.coord.id] != StoreAfter(st, b)[0]
  }

  predicate StaysStale(w: Work, env: Env) {
    EndsProgram(w, env) && env.checkMode && NewStore(w)[w.b.modal.coord.id] != NewStore(w)[0]
  }

  lemma NonModalCached(m: Machine, w: Work, st: State)
    requires Cached(st) && st.store == w.st.store
    ensures var st1 := CommitNonModal(m, w, st);
            Cached(st1) && st1.modal.coord.id == st.modal.coord.id && forall i: CoordId :: st1.store[i] == NewStore(w)[i]
  {
    hide CommitNonModal;
    if ChangesG92(w.b.nonModal) {
      OffsetCommits(m, w, st);
    } else if w.b.nonModal.SetCoordinateData? {
      DataCommits(m, w, st);
    } else {
      OthersCommit(m, w, st);
    }
  }

  lemma CommitCached(m: Machine, w: Work, env: Env)
    requires Cached(w.st)
    requires w.b.modal.coord.id != w.st.modal.coord.id ==> w.b.modal.coord.xyz == w.st.store[w.b.modal.coord.id]
    ensures Cached(Commit(m, w, env).st) <==> !StaysStale(w, env)
  {
    hide CommitModes, CommitNonModal, CommitMotion, CommitFlow, EndsProgram, NewStore;
    ModesCommit(w, env);
    var st1 := CommitModes(w, env);
    NonModalCached(m, w, st1);
    var st2 := CommitNonModal(m, w, st1);
    MotionCommits(w, env, st2);
    var st3 := CommitMotion(w, env, st2);
    FlowCommits(w, env, st3);
  }

  /** A line that is carried out. */
  ghost predicate Accepted(m: Machine, st: State, line: Line) {
    line.words != [] && ScanLine(m, st, line).Accept? && Execute(m, st, line).status == Ok
  }

  /** The validated block of a line, if the line gets that far. */
  ghost predicate Reaches(m: Machine, st: State, line: Line, w: Work) {
    && (line.words != [] || line.jog)
    && ScanLine(m, st, line).Accept?
    && Validate(m, st, ScanLine(m, st, line).value) == Go(w)
  }

  lemma ReachedCoord(m: Machine, st: State, line: Line, w: Work)
    requires Reaches(m, st, line, w)
    ensures Atomicity.SameButEarly(st, ScanLine(m, st, line).value, w.st)
    ensures w.b.modal.coord.id != st.modal.coord.id ==> w.b.modal.coord.xyz == st.store[w.b.modal.coord.id]
    ensures w.b.modal.coord.id == st.modal.coord.id ==> w.b.modal.coord.xyz == st.modal.coord.xyz
    ensures w.b.jog == line.jog && ScanLine(m, st, line).value.jog == line.jog
  {
    hide ScanLine, Validate, Frames.Asked, Atomicity.SameButEarly, NewBlock, Read, ReadValues, Frames.FeedOf;
    var b := ScanLine(m, st, line).value;
    LineReads(m, st, line);
    Atomicity.ValidateKeeps(m, st, b);
    Frames.AskedMeans(w.b, b);
    CoordReads(st, line.jog, b);
  }

  lemma CoordReads(st: State, jog: bool, b: Block)
    requires Read(NewBlock(st, jog), b)
    ensures b.jog == jog && b.modal.coord.xyz == st.modal.coord.xyz
    ensures G12 !in b.groups ==> b.modal.coord == st.modal.coord
  {
    hide Claimed;
    assert SlotOf(NewBlock(st, jog), G12) == CoordSlot(st.modal.coord);
    assert SlotOf(b, G12) == CoordSlot(b.modal.coord);
  }

  lemma EarlyIsCached(st: State, b: Block, st1: State)
    requires Atomicity.SameButEarly(st, b, st1)
    ensures Cached(st1) <==> Cached(st)
    ensures st1.modal.coord == st.modal.coord && st1.store == st.store && st1.position == st.position
    ensures SameOffsets(st, st1) && st1.tlo == st.tlo && st1.feedRate == st.feedRate
    ensures st1.modal.feedMode == st.modal.feedMode
  {
  }

  lemma StaleIs(m: Machine, st: State, line: Line, w: Work)
    requires Reaches(m, st, line, w)
    ensures StaysStale(w, line.env) <==> LeavesStale(st, ScanLine(m, st, line).value, line.env)
  {
    hide ScanLine, Validate, Targets.G10System, Targets.G10Data, Frames.FeedOf, Frames.Asked, Frames.SelectedCoord;
    var b := ScanLine(m, st, line).value;
    ReachedCoord(m, st, line, w);
    EarlyIsCached(st, b, w.st);
    Atomicity.ValidateKeeps(m, st, b);
    Frames.AskedMeans(w.b, b);
    if b.nonModal.SetCoordinateData? {
      Targets.CheckedG10(m, st, b, w);
    }
  }

  /** A line keeps the cache right but for one case. */
  lemma LineCached(m: Machine, st: State, line: Line)
    requires Cached(st)
    ensures Cached(Execute(m, st, line).st)
            <==> !(Accepted(m, st, line) && !line.jog && LeavesStale(st, ScanLine(m, st, line).value, line.env))
  {
    hide ScanLine, Validate, Frames.Asked, Atomicity.SameButEarly, LeavesStale, StaysStale, Commit, CommitJog, Cached;
    if Execute(m, st, line).status != Ok {
      Atomicity.RefusedChangesNothing(m, st, line);
    }
    if ScanLine(m, st, line).Accept? {
      var b := ScanLine(m, st, line).value;
      Atomicity.ValidateKeeps(m, st, b);
      var o := Validate(m, st, b);
      EarlyIsCached(st, b, Frames.StateOf(o));
      if o.Go? {
        JogCached(m, o.w);
        if Reaches(m, st, line, o.w) {
          ReachedCoord(m, st, line, o.w);
          StaleIs(m, st, line, o.w);
          CommitsModes(m, o.w, line.env);
          assert Cached(o.w.st);
          CommitCached(m, o.w, line.env);
        }
      }
    }
  }

  lemma JogCached(m: Machine, w: Work)
    ensures Cached(CommitJog(m, w).st) <==> Cached(w.st)
  {
  }

  lemma StepCached(m: Machine, st: State, op: Op)
    requires Cached(st) && (op.Block? ==> !op.line.env.checkMode)
    ensures Cached(Step(m, st, op).st)
  {
    hide Execute;
    if op.Block? {
      LineCached(m, st, op.line);
    }
  }

  /** Outside check mode the cache is right in every state of a run. */
  lemma {:induction false} RunCached(m: Machine, st: State, ops: seq<Op>)
    requires Cached(st) && forall op <- ops :: op.Block? ==> !op.line.env.checkMode
    ensures Cached(Run(m, st, ops))
    decreases |ops|
  {
    hide Step, Cached;
    if ops != [] {
      StepCached(m, st, ops[0]);
      RunCached(m, Step(m, st, ops[0]).st, ops[1..]);
    }
  }

  lemma ColdStartCached(m: Machine, st: State)
    ensures Cached(ColdInit(m, st))
  {
  }

  // ---------------------------------------------------------------- the modes afterwards

  lemma NonModalKeepsModes(m: Machine, w: Work, st: State)
    ensures var st1 := CommitNonModal(m, w, st);
            && st1.feedRate == st.feedRate && st1.modal.feedMode == st.modal.feedMode
            && st1.modal.imperial == st.modal.imperial && st1.modal.incremental == st.modal.incremental
            && st1.modal.motion == st.modal.motion && st1.modal.canned == st.modal.canned
  {
    hide CommitNonModal;
    if ChangesG92(w.b.nonModal) {
      OffsetCommits(m, w, st);
    } else if w.b.nonModal.SetCoordinateData? {
      DataCommits(m, w, st);
    } else {
      OthersCommit(m, w, st);
    }
  }

  lemma CommitIs(m: Machine, w: Work, env: Env)
    ensures var st2 := CommitNonModal(m, w, CommitModes(w, env));
            Commit(m, w, env) == Executed(Ok, CommitFlow(w, env, CommitMotion(w, env, st2)),
                                          DwellEvents(w) + HomeEvents(w) + MotionEvents(w, st2))
  {
    hide CommitModes, CommitNonModal, CommitMotion, CommitFlow, DwellEvents, HomeEvents, MotionEvents;
  }

  lemma CommitsModes(m: Machine, w: Work, env: Env)
    ensures var e := Commit(m, w, env);
            && e.status == Ok && e.st.modal.imperial == w.b.modal.imperial
            && e.st.modal.incremental == (w.b.modal.incremental && !EndsProgram(w, env))
            && e.st.modal.canned == w.b.modal.canned
            && e.st.modal.motion == (if EndsProgram(w, env) then Linear else w.b.modal.motion)
  {
    CommitIs(m, w, env);
    hide *;
    ModesCommit(w, env);
    var st1 := CommitModes(w, env);
    NonModalKeepsModes(m, w, st1);
    var st2 := CommitNonModal(m, w, st1);
    MotionCommits(w, env, st2);
    FlowCommits(w, env, CommitMotion(w, env, st2));
  }

  /** An accepted block puts its modes in force, any other block leaves them. */
  lemma ExecutedModes(m: Machine, st: State, b: Block, env: Env)
    ensures var e := ExecuteBlock(m, st, b, env);
            if e.status == Ok && !b.jog then
              && e.st.modal.imperial == b.modal.imperial && e.st.modal.incremental == (b.modal.incremental && !EndsWith(b, env))
              && e.st.modal.canned == b.modal.canned && e.st.modal.motion == (if EndsWith(b, env) then Linear else b.modal.motion)
            else
              && e.st.modal.imperial == st.modal.imperial && e.st.modal.incremental == st.modal.incremental
              && e.st.modal.canned == st.modal.canned && e.st.modal.motion == st.modal.motion
  {
    hide Validate, Commit, Frames.Asked, Frames.SelectedCoord, Frames.FeedOf;
    Atomicity.ValidateKeeps(m, st, b);
    var o := Validate(m, st, b);
    if o.Go? {
      Frames.AskedMeans(o.w.b, b);
      CommitsModes(m, o.w, env);
    }
  }

  // ---------------------------------------------------------------- lines that are carried out

  /** A line that is not a jog and reaches the execution step is carried out. */
  lemma Carried(m: Machine, st: State, line: Line, w: Work)
    requires Reaches(m, st, line, w) && !line.jog
    ensures Execute(m, st, line) == Commit(m, w, line.env)
    ensures w.st.store == st.store
  {
    hide ScanLine, Validate, Commit, Atomicity.SameButEarly;
    ReachedCoord(m, st, line, w);
    EarlyIsCached(st, ScanLine(m, st, line).value, w.st);
  }

  lemma AcceptedReaches(m: Machine, st: State, line: Line) returns (w: Work)
    requires Accepted(m, st, line) && !line.jog
    ensures Reaches(m, st, line, w) && Execute(m, st, line) == Commit(m, w, line.env)
  {
    hide ScanLine, Validate, Commit, CommitJog, Read, ReadValues;
    LineReads(m, st, line);
    JogIs(st, line.jog, ScanLine(m, st, line).value);
    w := Validate(m, st, ScanLine(m, st, line).value).w;
  }

  lemma JogIs(st: State, jog: bool, b: Block)
    requires Read(NewBlock(st, jog), b)
    ensures b.jog == jog
  {
    hide SlotOf, Claimed;
  }
}
