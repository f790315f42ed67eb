/** The ring of the last G92 offsets, by which queued motions find the offset they were planned with, and
    the offset that G92.3 brings back. */
module OffsetHistory {
  import opened GcTypes
  import opened Scanner
  import opened Validation
  import opened Execution
  import Frames
  import ScanFacts
  import Atomicity
  import opened Offsets
  import WordOrder

  // ---------------------------------------------------------------- one step

  /** The current slot of the ring holds the active offset. */
  ghost predicate Current(st: State) {
    st.offsetQueue[st.offsetId] == st.g92
  }

  /** A step leaves ring and offset alone, or puts a new offset into the next slot. */
  ghost predicate Advances(st: State, st1: State) {
    || SameOffsets(st, st1)
    || (st1.offsetId == (st.offsetId + 1) % MAX_OFFSET_ENTRIES && st1.offsetQueue == st.offsetQueue[st1.offsetId := st1.g92])
  }

  lemma CommitAdvances(m: Machine, w: Work, env: Env)
    ensures Advances(w.st, Commit(m, w, env).st)
    ensures var st1 := Commit(m, w, env).st;
            !ChangesG92(w.b.nonModal) ==> SameOffsets(w.st, st1)
  {
    hide CommitModes, CommitNonModal, CommitMotion, CommitFlow, EndsProgram;
    ModesCommit(w, env);
    var st1 := CommitModes(w, env);
    if ChangesG92(w.b.nonModal) {
      OffsetCommits(m, w, st1);
    } else if w.b.nonModal.SetCoordinateData? {
      DataCommits(m, w, st1);
    } else {
      OthersCommit(m, w, st1);
    }
    var st2 := CommitNonModal(m, w, st1);
    MotionCommits(w, env, st2);
    FlowCommits(w, env, CommitMotion(w, env, st2));
  }

  lemma JogAdvances(m: Machine, w: Work)
    ensures SameOffsets(w.st, CommitJog(m, w).st)
  {
  }

  lemma LineAdvances(m: Machine, st: State, line: Line)
    ensures Advances(st, Execute(m, st, line).st)
  {
    hide ScanLine, Validate, Atomicity.SameButEarly, Commit, CommitJog, Frames.Asked;
    if ScanLine(m, st, line).Accept? {
      var b := ScanLine(m, st, line).value;
      Atomicity.ValidateKeeps(m, st, b);
      var o := Validate(m, st, b);
      EarlyIsCached(st, b, Frames.StateOf(o));
      if o.Go? {
        JogAdvances(m, o.w);
        CommitAdvances(m, o.w, line.env);
      }
    }
  }

  lemma StepAdvances(m: Machine, st: State, op: Op)
    requires !op.Restart?
    ensures Advances(st, Step(m, st, op).st)
  {
    hide Execute;
    if op.Block? {
      LineAdvances(m, st, op.line);
    }
  }

  // ---------------------------------------------------------------- runs

  lemma ColdStartCurrent(m: Machine, st: State)
    ensures Current(ColdInit(m, st))
  {
  }

  /** A warm restart empties the ring but keeps the offset: the two agree only if there was none. */
  lemma RestartCurrent(m: Machine, st: State, stop: bool, ctrl: OverrideCtrl)
    ensures Current(Step(m, st, Restart(stop, ctrl)).st) <==> st.g92 == ORIGIN
  {
  }

  /** Without warm restarts the current slot is right in every state of a run. */
  lemma {:induction false} RunCurrent(m: Machine, st: State, ops: seq<Op>)
    requires Current(st) && forall op <- ops :: !op.Restart?
    ensures Current(Run(m, st, ops))
    decreases |ops|
  {
    hide Step;
    if ops != [] {
      StepAdvances(m, st, ops[0]);
      RunCurrent(m, Step(m, st, ops[0]).st, ops[1..]);
    }
  }

  /** How often a run sets the offset. */
  ghost function Changes(m: Machine, st: State, ops: seq<Op>): nat
    decreases |ops|
  {
    if ops == [] then 0
    else
      var st1 := Step(m, st, ops[0]).st;
      (if st1.offsetId != st.offsetId then 1 else 0) + Changes(m, st1, ops[1..])
  }

  lemma {:induction false} SlotLives(m: Machine, st: State, ops: seq<Op>, slot: OffsetId, age: nat)
    requires forall op <- ops :: !op.Restart?
    requires st.offsetId == (slot + age) % MAX_OFFSET_ENTRIES && age + Changes(m, st, ops) < MAX_OFFSET_ENTRIES
    ensures Run(m, st, ops).offsetQueue[slot] == st.offsetQueue[slot]
    decreases |ops|
  {
    hide Step;
    if ops != [] {
      StepAdvances(m, st, ops[0]);
      var st1 := Step(m, st, ops[0]).st;
      SlotLives(m, st1, ops[1..], slot, if st1.offsetId != st.offsetId then age + 1 else age);
    }
  }

  lemma {:induction false} SlotAfter(m: Machine, st: State, ops: seq<Op>)
    requires forall op <- ops :: !op.Restart?
    ensures Run(m, st, ops).offsetId == (st.offsetId + Changes(m, st, ops)) % MAX_OFFSET_ENTRIES
    decreases |ops|
  {
    hide Step;
    if ops != [] {
      StepAdvances(m, st, ops[0]);
      SlotAfter(m, Step(m, st, ops[0]).st, ops[1..]);
    }
  }

  /** The offset that a motion was planned with can be looked up under its tag for three changes of the
      offset; the fourth puts its own offset there. */
  lemma TagResolves(m: Machine, st: State, ops: seq<Op>)
    requires Current(st) && forall op <- ops :: !op.Restart?
    ensures Changes(m, st, ops) < MAX_OFFSET_ENTRIES ==> Run(m, st, ops).offsetQueue[st.offsetId] == st.g92
    ensures Changes(m, st, ops) == MAX_OFFSET_ENTRIES ==> Run(m, st, ops).offsetQueue[st.offsetId] == Run(m, st, ops).g92
  {
    hide Run, Changes;
    if Changes(m, st, ops) < MAX_OFFSET_ENTRIES {
      SlotLives(m, st, ops, st.offsetId, 0);
    }
    SlotAfter(m, st, ops);
    RunCurrent(m, st, ops);
  }

  function TagOf(e: Event): Option<OffsetId> {
    match e
    case Pause(_) => None
    case _ => Some(e.plan.offsetId)
  }

  lemma MotionTags(w: Work, st: State)
    ensures forall e <- MotionEvents(w, st) :: TagOf(e) == Some(w.st.offsetId)
    ensures forall e <- HomeEvents(w) :: TagOf(e) == Some(w.st.offsetId)
  {
    hide CubicControls, QuadraticControls;
  }

  /** Motions carry the tag of the offset that their targets were computed with. */
  lemma MotionsAreTagged(m: Machine, st: State, op: Op)
    ensures forall e <- Step(m, st, op).events :: TagOf(e) == Some(st.offsetId) || e.Pause?
  {
    hide ScanLine, Validate, Atomicity.SameButEarly, CommitModes, CommitNonModal, CommitMotion, CommitFlow, MotionEvents,
         HomeEvents, Frames.Asked;
    if op.Block? && ScanLine(m, st, op.line).Accept? {
      var b := ScanLine(m, st, op.line).value;
      Atomicity.ValidateKeeps(m, st, b);
      var o := Validate(m, st, b);
      EarlyIsCached(st, b, Frames.StateOf(o));
      if o.Go? {
        MotionTags(o.w, CommitNonModal(m, o.w, CommitModes(o.w, op.line.env)));
      }
    }
  }

  // ---------------------------------------------------------------- G92.2 and G92.3

  /** G92, G92.1, M2 and M30: the words that write the stored offset. */
  predicate Stores(m: Machine, w: Word) {
    WordOrder.IsCommand(w) && WordOrder.CommandOf(m, w).Command? &&
    match WordOrder.CommandOf(m, w).write
    case ToNonModal(n) => n.SetOffset? || n.ResetOffset?
    case ToFlow(f) => f.CompletedM2? || f.CompletedM30?
    case _ => false
  }

  ghost predicate StoresNothing(b: Block) {
    !b.nonModal.SetOffset? && !b.nonModal.ResetOffset? && !b.flow.CompletedM2? && !b.flow.CompletedM30?
  }

  lemma CommandStores(b: Block, base: Motion, c: Command)
    requires StoresNothing(b) && ScanCommand(b, base, c).Accept?
    requires c.Command? ==> match c.write
                            case ToNonModal(n) => !n.SetOffset? && !n.ResetOffset?
                            case ToFlow(f) => !f.CompletedM2? && !f.CompletedM30?
                            case _ => true
    ensures StoresNothing(ScanCommand(b, base, c).value)
  {
    ScanFacts.Admitted(b, base, c);
    hide ScanCommand, ScanFacts.Rest, ScanFacts.SlotOf, ScanFacts.Written, ScanFacts.GroupOf;
    ScanFacts.CommandWrites(b, base, c, G0);
    ScanFacts.CommandWrites(b, base, c, M4);
    ScanFacts.SlotFields(b);
    ScanFacts.SlotFields(ScanCommand(b, base, c).value);
    ScanFacts.WrittenSlots(b, base, c.write);
  }

  lemma WordStores(m: Machine, base: Motion, s: Scan, w: Word)
    requires StoresNothing(s.block) && !Stores(m, w) && ScanWord(m, base, s, w).Accept?
    ensures StoresNothing(ScanWord(m, base, s, w).value.block)
  {
    hide ScanCommand, PutWord, DecodeG, DecodeM, IntPart, Mantissa, ValueCheck;
    if WordOrder.IsCommand(w) {
      CommandStores(s.block, base, WordOrder.CommandOf(m, w));
    } else {
      PutStores(s.block, w.letter, w.number.value);
    }
  }

  lemma PutStores(b: Block, letter: char, value: real)
    ensures StoresNothing(PutWord(b, letter, value)) <==> StoresNothing(b)
  {
    hide PutValue, NameAxis;
  }

  lemma {:induction false} WordsStore(m: Machine, base: Motion, s: Scan, words: seq<Word>)
    requires StoresNothing(s.block) && forall w <- words :: !Stores(m, w)
    ensures ScanWords(m, base, s, words).Accept? ==> StoresNothing(ScanWords(m, base, s, words).value.block)
    decreases |words|
  {
    hide ScanWord, Stores, StoresNothing;
    if words != [] {
      var r := ScanWord(m, base, s, words[0]);
      if r.Accept? {
        WordStores(m, base, s, words[0]);
        WordsStore(m, base, r.value, words[1..]);
      }
    }
  }

  lemma CommitStores(m: Machine, w: Work, env: Env)
    ensures var st1 := Commit(m, w, env).st;
            && (StoresNothing(w.b) ==> st1.store[STORE_G92] == w.st.store[STORE_G92])
            && (w.b.nonModal.RestoreOffset? ==> st1.g92 == w.st.store[STORE_G92])
            && (w.b.nonModal.SetOffset? && !m.g92Volatile ==> st1.store[STORE_G92] == st1.g92)
  {
    hide CommitModes, CommitNonModal, CommitMotion, CommitFlow;
    ModesCommit(w, env);
    var st1 := CommitModes(w, env);
    if ChangesG92(w.b.nonModal) {
      OffsetCommits(m, w, st1);
    } else if w.b.nonModal.SetCoordinateData? {
      DataCommits(m, w, st1);
    } else {
      OthersCommit(m, w, st1);
    }
    var st2 := CommitNonModal(m, w, st1);
    MotionCommits(w, env, st2);
    FlowCommits(w, env, CommitMotion(w, env, st2));
  }

  /** The stored offset survives every step without such a word, restarts included. */
  lemma StepStores(m: Machine, st: State, op: Op)
    requires op.Block? ==> forall w <- op.line.words :: !Stores(m, w)
    ensures Step(m, st, op).st.store[STORE_G92] == st.store[STORE_G92]
  {
    hide ScanWords, Validate, Atomicity.SameButEarly, Commit, Frames.Asked, Stores;
    if op.Block? {
      var b0 := NewBlock(st, op.line.jog);
      WordsStore(m, st.modal.motion, Scan(b0, 0), op.line.words);
      if ScanLine(m, st, op.line).Accept? {
        var b := ScanLine(m, st, op.line).value;
        Atomicity.ValidateKeeps(m, st, b);
        var o := Validate(m, st, b);
        EarlyIsCached(st, b, Frames.StateOf(o));
        if o.Go? {
          Frames.AskedMeans(o.w.b, b);
          CommitStores(m, o.w, op.line.env);
        }
      }
    }
  }

  lemma {:induction false} RunStores(m: Machine, st: State, ops: seq<Op>)
    requires forall op <- ops :: op.Block? ==> forall w <- op.line.words :: !Stores(m, w)
    ensures Run(m, st, ops).store[STORE_G92] == st.store[STORE_G92]
    decreases |ops|
  {
    hide Step, Stores;
    if ops != [] {
      StepStores(m, st, ops[0]);
      RunStores(m, Step(m, st, ops[0]).st, ops[1..]);
    }
  }

  /** G92.3 brings back the last offset that G92 has set, whatever came in between. */
  lemma OffsetComesBack(m: Machine, st: State, first: Line, ops: seq<Op>, restore: Line)
    requires !m.g92Volatile && !first.jog && !restore.jog
    requires exists w :: Reaches(m, st, first, w) && w.b.nonModal.SetOffset?
    requires forall op <- ops :: op.Block? ==> forall w <- op.line.words :: !Stores(m, w)
    requires var st2 := Run(m, Execute(m, st, first).st, ops); exists w :: Reaches(m, st2, restore, w) && w.b.nonModal.RestoreOffset?
    ensures var st1 := Execute(m, st, first).st;
            Execute(m, Run(m, st1, ops), restore).st.g92 == st1.g92
  {
    hide ScanLine, Validate, Commit, Stores, Run;
    var w :| Reaches(m, st, first, w) && w.b.nonModal.SetOffset?;
    CommitStores(m, w, first.env);
    Carried(m, st, first, w);
    var st1 := Execute(m, st, first).st;
    RunStores(m, st1, ops);
    var st2 := Run(m, st1, ops);
    var v :| Reaches(m, st2, restore, v) && v.b.nonModal.RestoreOffset?;
    CommitStores(m, v, restore.env);
    Carried(m, st2, restore, v);
  }
}
