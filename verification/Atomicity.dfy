/** The two phases of a block: a block that is refused has not moved anything and has left the parser
    state alone, but for three kinds of data that the checks write while they are still checking. */
module Atomicity {
  import opened GcTypes
  import opened Scanner
  import opened Validation
  import opened Execution
  import opened Frames
  import ScanFacts

  /** The data that the checks write early. */
  ghost predicate SameButEarly(st: State, b: Block, st1: State) {
    && st1 == st.(scale := st1.scale, canned := st1.canned,
                  modal := st.modal.(scaling := st1.modal.scaling, splinePq := st1.modal.splinePq))
    && (!b.axisCmd.ScalingCmd? ==> st1.scale == st.scale && st1.modal.scaling == st.modal.scaling)
    && (!b.modal.canned ==> st1.canned == st.canned)
    && (!b.modal.motion.CubicSpline? ==> st1.modal.splinePq == st.modal.splinePq)
  }

  /** G50, G51, G5 and the canned cycles. */
  predicate WritesEarly(b: Block) {
    b.axisCmd.ScalingCmd? || b.modal.canned || b.modal.motion.CubicSpline?
  }

  predicate CutsOrProbes(b: Block) {
    !b.modal.motion.NoMotion? && !b.modal.motion.Seek?
  }

  /** All that is kept of a block through all checks. */
  ghost predicate Checked(st: State, b: Block, w: Work) {
    && Asked(w.b) == Asked(b) && w.b.modal.coord == SelectedCoord(Work(st, b, 0, ORIGIN, 0))
    && w.b.values.f == FeedOf(st, b)
    && (w.b.axisCmd == ImpliedCmd(b) || w.b.axisCmd.NoAxisCmd?)
    && (w.b.axisCmd.MotionCmd? && CutsOrProbes(w.b) ==> w.b.values.f != 0.0)
  }

  lemma ChecksCompose(w: Work, w1: Work, w2: Work, st2: State)
    requires Same(w, w1) && w1.b.axisCmd == ImpliedCmd(w.b) && Scales(w1, w2.st) && Asked(w2.b) == Asked(w1.b)
    requires Prepares(w2, st2)
    ensures SameButEarly(w.st, w.b, st2)
  {
    AskedMeans(w.b, w1.b);
    AskedMeans(w1.b, w2.b);
  }

  lemma ScalesIsEarly(w: Work, w1: Work, st1: State)
    requires Same(w, w1) && w1.b.axisCmd == ImpliedCmd(w.b) && Scales(w1, st1)
    ensures SameButEarly(w.st, w.b, st1)
  {
  }

  lemma CheckedFeed(w: Work, o: Outcome)
    requires KeepsMotion(w, o)
    requires o.Go? && w.b.axisCmd.MotionCmd? && CutsOrProbes(w.b) ==> o.w.b.values.f != 0.0
    ensures o.Go? ==> o.w.b.axisCmd.MotionCmd? && CutsOrProbes(o.w.b) ==> o.w.b.values.f != 0.0
  {
    hide Asked;
    if o.Go? {
      AskedMeans(w.b, o.w.b);
    }
  }

  lemma ValidateKeeps(m: Machine, st: State, b: Block)
    ensures var o := Validate(m, st, b);
            && SameButEarly(st, b, StateOf(o))
            && (o.Go? ==> Checked(st, b, o.w))
  {
    hide CheckWords, CheckAxes, CheckMotion, CheckUnused, SameButEarly, Asked, FeedOf, ImpliedCmd, SelectedCoord, Prepares, Scales;
    var w := Work(st, b, 0, ORIGIN, 0);
    WordsKeep(m, w);
    var o1 := CheckWords(m, w);
    NothingWritten(w);
    if o1.Go? {
      AxesKeep(m, o1.w);
      var o2 := CheckAxes(m, o1.w);
      SelectedKept(w, o1.w);
      ScalesIsEarly(w, o1.w, StateOf(o2));
      if o2.Go? {
        MotionKeeps(m, o2.w);
        var o3 := CheckMotion(m, o2.w);
        ChecksCompose(w, o1.w, o2.w, StateOf(o3));
        CheckedFeed(o2.w, o3);
        if o3.Go? {
          UnusedKeeps(o3.w);
          AskedKept(o3.w);
        }
      }
    }
  }

  lemma AskedKept(w: Work)
    ensures Asked(w.b.(words := {})) == Asked(w.b)
  {
  }

  lemma NothingWritten(w: Work)
    ensures SameButEarly(w.st, w.b, w.st)
  {
  }

  lemma SelectedKept(w: Work, w1: Work)
    requires Same(w, w1)
    ensures SelectedCoord(w1) == SelectedCoord(w)
  {
    AskedMeans(w1.b, w.b);
  }

  // ---------------------------------------------------------------- refused blocks

  /** A block that is refused hands nothing to the motion layer and changes the state at most in its
      early data, and not at all unless it belongs to the families that have such data. */
  lemma RefusedChangesNothing(m: Machine, st: State, line: Line)
    requires Execute(m, st, line).status != Ok
    ensures Execute(m, st, line).events == []
    ensures ScanLine(m, st, line).Reject? ==> Execute(m, st, line).st == st
    ensures ScanLine(m, st, line).Accept? ==>
      var b := ScanLine(m, st, line).value;
      SameButEarly(st, b, Execute(m, st, line).st) && (!WritesEarly(b) ==> Execute(m, st, line).st == st)
  {
    hide ScanLine, Validate, Asked, SameButEarly;
    if ScanLine(m, st, line).Accept? {
      var b := ScanLine(m, st, line).value;
      ValidateKeeps(m, st, b);
      hide Commit;
      if !WritesEarly(b) {
        EarlyOnly(st, b, StateOf(Validate(m, st, b)));
      }
    }
  }

  lemma EarlyOnly(st: State, b: Block, st1: State)
    requires SameButEarly(st, b, st1) && !WritesEarly(b)
    ensures st1 == st
  {
  }

  // ---------------------------------------------------------------- accepted blocks

  /** Once the checks are passed, only a jog can still be refused. */
  lemma CheckedBlocksSucceed(m: Machine, st: State, line: Line)
    requires line.words != [] && !line.jog
    ensures Execute(m, st, line).status == Ok
            <==> ScanLine(m, st, line).Accept? && Validate(m, st, ScanLine(m, st, line).value).Go?
  {
    hide ScanLine, Validate, Asked, SameButEarly, CommitModes, CommitNonModal, CommitMotion, CommitFlow;
    ScanFacts.LineReads(m, st, line);
    if ScanLine(m, st, line).Accept? {
      var b := ScanLine(m, st, line).value;
      ValidateKeeps(m, st, b);
      var o := Validate(m, st, b);
      if o.Go? {
        AskedMeans(o.w.b, b);
      }
    }
  }

  ghost predicate OneJog(events: seq<Event>, end: Vec) {
    exists plan :: events == [Jog(end, plan)]
  }

  /** A jog that is accepted moves the tool, and nothing else; only a jog during a canned cycle also writes
      the data of the cycle. */
  lemma JogsOnlyMove(m: Machine, st: State, line: Line)
    requires line.jog && Execute(m, st, line).status == Ok
    ensures var e := Execute(m, st, line);
            && e.st == st.(position := e.st.position, canned := e.st.canned)
            && (!st.modal.canned ==> e.st.canned == st.canned)
            && OneJog(e.events, e.st.position)
  {
    var b := ScanLine(m, st, line).value;
    JogCarried(m, st, line);
    hide *;
    ScanFacts.LineReads(m, st, line);
    CarriedJog(m, st, b, Validate(m, st, b).w);
  }

  lemma CarriedJog(m: Machine, st: State, b: Block, w: Work)
    requires ScanFacts.Read(NewBlock(st, true), b) && Validate(m, st, b) == Go(w) && CommitJog(m, w).status == Ok
    ensures var e := CommitJog(m, w);
            && e.st == st.(position := e.st.position, canned := e.st.canned)
            && (!st.modal.canned ==> e.st.canned == st.canned)
            && OneJog(e.events, e.st.position)
  {
    assert StateOf(Go(w)) == w.st;
    hide *;
    ValidateKeeps(m, st, b);
    SameGroups(st, b, w);
    JogDone(m, w);
    JogMode(st, b);
    JogEarly(st, b, w.st);
    JogComposes(st, w.st, CommitJog(m, w).st);
  }

  lemma JogComposes(st: State, st1: State, st2: State)
    requires st1 == st.(canned := st1.canned) && st2 == st1.(position := st2.position)
    ensures st2 == st.(position := st2.position, canned := st2.canned) && st2.canned == st1.canned
  {
  }

  lemma JogCarried(m: Machine, st: State, line: Line)
    requires line.jog && Execute(m, st, line).status == Ok
    ensures ScanLine(m, st, line).Accept?
    ensures var o := Validate(m, st, ScanLine(m, st, line).value);
            o.Go? && Execute(m, st, line) == CommitJog(m, o.w)
  {
    hide ScanLine, Validate, ScanFacts.Read, ScanFacts.ReadValues, CommitJog;
    ScanFacts.LineReads(m, st, line);
    if ScanLine(m, st, line).Accept? {
      JogReads(st, ScanLine(m, st, line).value);
    }
  }

  lemma JogReads(st: State, b: Block)
    requires ScanFacts.Read(NewBlock(st, true), b)
    ensures b.jog
  {
    hide ScanFacts.SlotOf, ScanFacts.Claimed;
  }

  lemma SameGroups(st: State, b: Block, w: Work)
    requires Checked(st, b, w)
    ensures w.b.groups == b.groups
  {
    hide FeedOf, SelectedCoord;
    AskedMeans(w.b, b);
  }

  lemma JogDone(m: Machine, w: Work)
    requires CommitJog(m, w).status == Ok
    ensures var e := CommitJog(m, w);
            && e.st == w.st.(position := e.st.position) && w.b.groups <= {G0, G3, G6}
            && OneJog(e.events, e.st.position)
  {
  }

  lemma JogMode(st: State, b: Block)
    requires ScanFacts.Read(NewBlock(st, true), b) && b.groups <= {G0, G3, G6}
    ensures b.modal.motion.Linear? && b.modal.canned == st.modal.canned && !b.axisCmd.ScalingCmd?
  {
    var b0 := NewBlock(st, true);
    assert ScanFacts.SlotOf(b, G1) == ScanFacts.SlotOf(b0, G1);
  }

  lemma JogEarly(st: State, b: Block, st1: State)
    requires SameButEarly(st, b, st1) && !b.axisCmd.ScalingCmd? && b.modal.motion.Linear?
    ensures st1 == st.(canned := st1.canned)
    ensures !b.modal.canned ==> st1 == st
  {
  }
}
