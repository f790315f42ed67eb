/** Nothing cuts or probes without a feed, and a feed is only used in the mode it was given in, with one
    exception. */
module FeedSafety {
  import opened GcTypes
  import opened Scanner
  import opened Validation
  import opened Execution
  import opened Frames
  import ScanFacts
  import Atomicity
  import opened Offsets

  /** The feed of an event that moves at a programmed feed. */
  predicate Feeds(e: Event) {
    match e
    case Move(_, plan) => !plan.rapid
    case Pause(_) => false
    case Jog(_, _) => false
    case _ => true
  }

  /** Only straight lines and arcs know a feed per turn. */
  predicate KnowsTurns(e: Event) {
    e.Move? || e.ArcMove?
  }

  ghost predicate FedBy(e: Event, feed: real, mode: FeedMode) {
    Feeds(e) ==>
      && e.plan.feed == feed && e.plan.inverse == mode.InverseTime?
      && e.plan.perRev == (mode.UnitsPerRev? && KnowsTurns(e))
  }

  lemma MotionsAreFed(w: Work, st: State)
    ensures forall e <- MotionEvents(w, st) + HomeEvents(w) + DwellEvents(w) ::
              FedBy(e, w.b.values.f, w.b.modal.feedMode)
              && (Feeds(e) ==> w.b.axisCmd.MotionCmd? && Atomicity.CutsOrProbes(w.b))
  {
    hide CubicControls, QuadraticControls;
  }

  lemma FeedIsRead(m: Machine, st: State, line: Line)
    requires ScanLine(m, st, line).Accept?
    ensures var b := ScanLine(m, st, line).value; b.values.f >= 0.0 && ('F' !in b.words ==> b.values.f == 0.0)
  {
    hide ScanLine, ScanFacts.Read;
    ScanFacts.LineReads(m, st, line);
    ScanFacts.FeedIs(ScanLine(m, st, line).value.values, 0.0);
    ScanFacts.FeedIs(NewBlock(st, line.jog).values, 0.0);
  }

  lemma FeedStaysPositive(st: State, b: Block)
    requires st.feedRate >= 0.0 && b.values.f >= 0.0
    ensures FeedOf(st, b) >= 0.0
  {
  }

  /** What the execution step does with feed and feed mode. */
  lemma CommitFeeds(m: Machine, w: Work, env: Env)
    ensures var e := Commit(m, w, env);
            && e.status == Ok && e.st.feedRate == w.b.values.f
            && e.st.modal.feedMode == (if EndsProgram(w, env) then UnitsPerMin else w.b.modal.feedMode)
            && forall x <- e.events :: FedBy(x, w.b.values.f, w.b.modal.feedMode)
                                       && (Feeds(x) ==> w.b.axisCmd.MotionCmd? && Atomicity.CutsOrProbes(w.b))
  {
    CommitIs(m, w, env);
    hide *;
    ModesCommit(w, env);
    var st1 := CommitModes(w, env);
    NonModalKeepsModes(m, w, st1);
    var st2 := CommitNonModal(m, w, st1);
    MotionCommits(w, env, st2);
    FlowCommits(w, env, CommitMotion(w, env, st2));
    MotionsAreFed(w, st2);
  }

  /** A line hands on only motions with a positive feed; a feed per inverse time stands in the same line. */
  lemma LineFeeds(m: Machine, st: State, line: Line)
    requires st.feedRate >= 0.0
    ensures var e := Execute(m, st, line);
            && e.st.feedRate >= 0.0
            && forall x <- e.events :: Feeds(x) ==>
                 && x.plan.feed > 0.0
                 && (x.plan.inverse ==> ScanLine(m, st, line).Accept?
                                        && 'F' in ScanLine(m, st, line).value.words
                                        && x.plan.feed == ScanLine(m, st, line).value.values.f)
  {
    hide ScanLine, Validate, Atomicity.SameButEarly, Commit, Asked, FeedOf, SelectedCoord;
    if ScanLine(m, st, line).Accept? {
      var b := ScanLine(m, st, line).value;
      Atomicity.ValidateKeeps(m, st, b);
      FeedIsRead(m, st, line);
      FeedStaysPositive(st, b);
      var o := Validate(m, st, b);
      EarlyIsCached(st, b, StateOf(o));
      if o.Go? {
        AskedMeans(o.w.b, b);
        CommitFeeds(m, o.w, line.env);
        InverseFeed(m, st, line);
      }
    }
  }

  lemma InverseFeed(m: Machine, st: State, line: Line)
    requires ScanLine(m, st, line).Accept?
    ensures var b := ScanLine(m, st, line).value; !b.jog && b.modal.feedMode.InverseTime? ==> FeedOf(st, b) == b.values.f
  {
    hide ScanLine;
  }

  lemma StepFeeds(m: Machine, st: State, op: Op)
    requires st.feedRate >= 0.0
    ensures var e := Step(m, st, op); e.st.feedRate >= 0.0 && forall x <- e.events :: Feeds(x) ==> x.plan.feed > 0.0
  {
    hide Execute;
    if op.Block? {
      LineFeeds(m, st, op.line);
    }
  }

  /** Over whole runs, nothing cuts or probes without a feed. */
  lemma {:induction false} RunFeeds(m: Machine, st: State, ops: seq<Op>)
    requires st.feedRate >= 0.0
    ensures forall x <- Trace(m, st, ops) :: Feeds(x) ==> x.plan.feed > 0.0
    decreases |ops|
  {
    hide Step;
    if ops != [] {
      StepFeeds(m, st, ops[0]);
      RunFeeds(m, Step(m, st, ops[0]).st, ops[1..]);
    }
  }

  lemma ColdStartFeeds(m: Machine, st: State)
    ensures ColdInit(m, st).feedRate == 0.0
  {
  }

  // ---------------------------------------------------------------- the mode of a feed

  /** The feed belongs to the mode `given`, and that is the active one. */
  ghost predicate Belongs(st: State, given: FeedMode) {
    st.feedRate == 0.0 || given == st.modal.feedMode
  }

  /** The mode in which the feed was given, after one more line. */
  ghost function GivenAfter(m: Machine, st: State, line: Line, given: FeedMode): FeedMode {
    if !line.jog && Execute(m, st, line).status == Ok && ScanLine(m, st, line).Accept? && 'F' in ScanLine(m, st, line).value.words
    then ScanLine(m, st, line).value.modal.feedMode
    else given
  }

  /** M2 and M30 change to G94 but keep a feed that is given or in force under another mode. */
  predicate KeepsForeignFeed(st: State, b: Block, env: Env) {
    EndsWith(b, env) && FeedOf(st, b) != 0.0 && !b.modal.feedMode.UnitsPerMin?
  }

  lemma FeedModeRead(st: State, b: Block, given: FeedMode)
    requires Belongs(st, given) && !b.jog && ('F' !in b.words ==> b.values.f == 0.0)
    ensures FeedOf(st, b) == 0.0 || b.modal.feedMode == (if 'F' in b.words then b.modal.feedMode else given)
  {
  }

  lemma NoWords(m: Machine, st: State, line: Line)
    requires ScanLine(m, st, line).Accept?
    ensures line.words == [] ==> 'F' !in ScanLine(m, st, line).value.words
  {
  }

  lemma CommitKeepsFeedMode(m: Machine, w: Work, env: Env, given: FeedMode)
    requires w.b.values.f == 0.0 || w.b.modal.feedMode == given
    ensures Belongs(Commit(m, w, env).st, given)
            <==> !(EndsWith(w.b, env) && w.b.values.f != 0.0 && !w.b.modal.feedMode.UnitsPerMin?)
  {
    hide Commit;
    CommitFeeds(m, w, env);
  }

  /** A feed that is still in force was given in the mode that is in force, unless the line is an M2 or M30
      that ends another mode than G94 with a feed. */
  lemma LineKeepsFeedMode(m: Machine, st: State, line: Line, given: FeedMode)
    requires Belongs(st, given)
    ensures Belongs(Execute(m, st, line).st, GivenAfter(m, st, line, given))
            <==> !(Accepted(m, st, line) && !line.jog && KeepsForeignFeed(st, ScanLine(m, st, line).value, line.env))
  {
    hide ScanLine, Validate, Atomicity.SameButEarly, Asked, EndsWith;
    if ScanLine(m, st, line).Accept? {
      var b := ScanLine(m, st, line).value;
      var o := Validate(m, st, b);
      Atomicity.ValidateKeeps(m, st, b);
      EarlyIsCached(st, b, StateOf(o));
      NoWords(m, st, line);
      if o.Go? && Reaches(m, st, line, o.w) {
        ReachedCoord(m, st, line, o.w);
        if !line.jog {
          FeedIsRead(m, st, line);
          AskedMeans(o.w.b, b);
          SameEnds(o.w.b, b, line.env);
          FeedModeRead(st, b, given);
          hide FeedOf;
          CommitOk(m, o.w, line.env);
          hide Commit, CommitJog, Belongs;
          CommitKeepsFeedMode(m, o.w, line.env, GivenAfter(m, st, line, given));
        }
      }
    }
  }

  lemma SameEnds(b: Block, c: Block, env: Env)
    requires b.flow == c.flow
    ensures EndsWith(b, env) == EndsWith(c, env)
  {
  }

  lemma CommitOk(m: Machine, w: Work, env: Env)
    ensures Commit(m, w, env).status == Ok
  {
    hide CommitModes, CommitNonModal, CommitMotion, CommitFlow;
  }

  /** A feed motion uses the feed in the mode in which it was given, unless that is G95 and the motion is
      not a straight line or an arc: then the feed per turn is taken for one per minute. */
  ghost predicate UsedAsGiven(e: Event, given: FeedMode) {
    Feeds(e) ==>
      && (e.plan.Unit() == given <==> KnowsTurns(e) || !given.UnitsPerRev?)
      && (e.plan.Unit() != given ==> e.plan.Unit().UnitsPerMin?)
  }

  lemma FeedIsUsedAsGiven(m: Machine, st: State, line: Line, given: FeedMode)
    requires Belongs(st, given) && !line.jog
    ensures forall e <- Execute(m, st, line).events :: UsedAsGiven(e, GivenAfter(m, st, line, given))
  {
    hide ScanLine, Validate, Atomicity.SameButEarly, Asked;
    if ScanLine(m, st, line).Accept? {
      var b := ScanLine(m, st, line).value;
      var o := Validate(m, st, b);
      Atomicity.ValidateKeeps(m, st, b);
      if o.Go? && Reaches(m, st, line, o.w) {
        ReachedCoord(m, st, line, o.w);
        FeedIsRead(m, st, line);
        AskedMeans(o.w.b, b);
        FeedModeRead(st, b, given);
        hide FeedOf;
        CommitOk(m, o.w, line.env);
        assert o.w.b.values.f == 0.0 || o.w.b.modal.feedMode == GivenAfter(m, st, line, given);
        hide Commit, CommitJog, Belongs, GivenAfter;
        CommitUsesFeed(m, o.w, line.env, GivenAfter(m, st, line, given));
      }
    }
  }

  lemma CommitUsesFeed(m: Machine, w: Work, env: Env, given: FeedMode)
    requires w.b.values.f == 0.0 || w.b.modal.feedMode == given
    requires w.b.axisCmd.MotionCmd? && Atomicity.CutsOrProbes(w.b) ==> w.b.values.f != 0.0
    ensures forall e <- Commit(m, w, env).events :: UsedAsGiven(e, given)
  {
    CommitFeeds(m, w, env);
    hide Commit, Atomicity.CutsOrProbes;
  }

  ghost predicate EndsClean(m: Machine, st: State, op: Op) {
    op.Block? && !op.line.jog && Accepted(m, st, op.line) ==> !KeepsForeignFeed(st, ScanLine(m, st, op.line).value, op.line.env)
  }

  ghost predicate AllEndClean(m: Machine, st: State, ops: seq<Op>)
    decreases |ops|
  {
    ops == [] || (EndsClean(m, st, ops[0]) && AllEndClean(m, Step(m, st, ops[0]).st, ops[1..]))
  }

  ghost function GivenNext(m: Machine, st: State, op: Op, given: FeedMode): FeedMode {
    if op.Block? then GivenAfter(m, st, op.line, given) else given
  }

  ghost function GivenBy(m: Machine, st: State, ops: seq<Op>, given: FeedMode): FeedMode
    decreases |ops|
  {
    if ops == [] then given else GivenBy(m, Step(m, st, ops[0]).st, ops[1..], GivenNext(m, st, ops[0], given))
  }

  /** A feed never survives a change of the feed mode, as long as no program ends with a foreign feed. */
  lemma {:induction false} RunKeepsFeedMode(m: Machine, st: State, ops: seq<Op>, given: FeedMode)
    requires Belongs(st, given) && AllEndClean(m, st, ops)
    ensures Belongs(Run(m, st, ops), GivenBy(m, st, ops, given))
    decreases |ops|
  {
    if ops != [] {
      StepKeepsFeedMode(m, st, ops[0], given);
      hide Step, EndsClean, Belongs, GivenNext;
      RunKeepsFeedMode(m, Step(m, st, ops[0]).st, ops[1..], GivenNext(m, st, ops[0], given));
    }
  }

  lemma StepKeepsFeedMode(m: Machine, st: State, op: Op, given: FeedMode)
    requires Belongs(st, given) && EndsClean(m, st, op)
    ensures Belongs(Step(m, st, op).st, GivenNext(m, st, op, given))
  {
    hide Execute, GivenAfter, KeepsForeignFeed, Accepted;
    if op.Block? {
      LineKeepsFeedMode(m, st, op.line, given);
      if op.line.jog {
        JogKeepsFeed(m, st, op.line, given);
      }
    }
  }

  lemma JogKeepsFeed(m: Machine, st: State, line: Line, given: FeedMode)
    requires line.jog && Belongs(st, given)
    ensures Belongs(Execute(m, st, line).st, GivenAfter(m, st, line, given))
  {
    LineKeepsFeedMode(m, st, line, given);
  }

  /** Each feed motion of a run with the mode in which its feed was given. */
  ghost function Givens(m: Machine, st: State, ops: seq<Op>, given: FeedMode): (r: seq<FeedMode>)
    ensures |r| == |Trace(m, st, ops)|
    decreases |ops|
  {
    if ops == [] then []
    else
      var e, next := Step(m, st, ops[0]), GivenNext(m, st, ops[0], given);
      seq(|e.events|, _ => next) + Givens(m, e.st, ops[1..], next)
  }

  lemma StepUsesFeed(m: Machine, st: State, op: Op, given: FeedMode)
    requires Belongs(st, given)
    ensures forall e <- Step(m, st, op).events :: UsedAsGiven(e, GivenNext(m, st, op, given))
  {
    hide GivenAfter;
    if op.Block? {
      if op.line.jog {
        JogDoesNotFeed(m, st, op.line);
      } else {
        FeedIsUsedAsGiven(m, st, op.line, given);
      }
    }
    hide Execute;
  }

  lemma JogDoesNotFeed(m: Machine, st: State, line: Line)
    requires line.jog
    ensures forall e <- Execute(m, st, line).events :: !Feeds(e)
  {
    hide ScanLine, Validate, Asked;
    if ScanLine(m, st, line).Accept? {
      ScanFacts.LineReads(m, st, line);
    }
  }

  ghost predicate AllUsedAsGiven(trace: seq<Event>, givens: seq<FeedMode>) {
    |givens| == |trace| && forall i :: 0 <= i < |trace| ==> UsedAsGiven(trace[i], givens[i])
  }

  lemma OneMoreStep(events: seq<Event>, given: FeedMode, trace: seq<Event>, givens: seq<FeedMode>)
    requires (forall e <- events :: UsedAsGiven(e, given)) && AllUsedAsGiven(trace, givens)
    ensures AllUsedAsGiven(events + trace, seq(|events|, _ => given) + givens)
  {
    hide UsedAsGiven;
  }

  /** Over whole runs every feed motion uses its feed as it was given, with these exceptions. */
  lemma {:induction false} RunUsesFeeds(m: Machine, st: State, ops: seq<Op>, given: FeedMode)
    requires Belongs(st, given) && AllEndClean(m, st, ops)
    ensures AllUsedAsGiven(Trace(m, st, ops), Givens(m, st, ops, given))
    decreases |ops|
  {
    hide Step, EndsClean, Belongs, GivenNext, UsedAsGiven;
    if ops != [] {
      var e, next := Step(m, st, ops[0]), GivenNext(m, st, ops[0], given);
      StepUsesFeed(m, st, ops[0], given);
      StepKeepsFeedMode(m, st, ops[0], given);
      RunUsesFeeds(m, e.st, ops[1..], next);
      OneMoreStep(e.events, next, Trace(m, e.st, ops[1..]), Givens(m, e.st, ops[1..], next));
    }
  }
}
