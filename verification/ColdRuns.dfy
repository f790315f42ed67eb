/** What holds in every state and of every motion of a run that begins with a cold start. */
module ColdRuns {
  import opened GcTypes
  import opened Scanner
  import opened Validation
  import opened Execution
  import ScanFacts
  import Atomicity
  import Offsets
  import OffsetHistory
  import FeedSafety
  import SameMeaning
  import Curves
  import Quirks
  import Units

  /** Outside check mode the active coordinate system is the stored one. */
  lemma ColdRunCached(m: Machine, start: State, ops: seq<Op>)
    requires forall op <- ops :: op.Block? ==> !op.line.env.checkMode
    ensures Offsets.Cached(Run(m, ColdInit(m, start), ops))
  {
    hide *;
    Offsets.ColdStartCached(m, start);
    Offsets.RunCached(m, ColdInit(m, start), ops);
  }

  /** Without warm restarts the current slot of the ring holds the G92 offset. */
  lemma ColdRunCurrent(m: Machine, start: State, ops: seq<Op>)
    requires forall op <- ops :: !op.Restart?
    ensures OffsetHistory.Current(Run(m, ColdInit(m, start), ops))
  {
    hide *;
    OffsetHistory.ColdStartCurrent(m, start);
    OffsetHistory.RunCurrent(m, ColdInit(m, start), ops);
  }

  /** Nothing cuts or probes without a feed. */
  lemma ColdRunFeeds(m: Machine, start: State, ops: seq<Op>)
    ensures forall x <- Trace(m, ColdInit(m, start), ops) :: FeedSafety.Feeds(x) ==> x.plan.feed > 0.0
  {
    FeedSafety.ColdStartFeeds(m, start);
    hide *;
    FeedSafety.RunFeeds(m, ColdInit(m, start), ops);
  }

  /** A jog without axis words, whose feed may be zero. */
  ghost predicate BareJog(m: Machine, st: State, op: Op) {
    op.Block? && op.line.jog && ScanLine(m, st, op.line).Accept? && !ScanLine(m, st, op.line).value.axisWords.Any()
  }

  ghost predicate NoBareJogs(m: Machine, st: State, ops: seq<Op>)
    decreases |ops|
  {
    ops == [] || (!BareJog(m, st, ops[0]) && NoBareJogs(m, Step(m, st, ops[0]).st, ops[1..]))
  }

  ghost predicate Moving(events: seq<Event>) {
    forall x <- events :: FeedSafety.Feeds(x) || x.Jog? ==> x.plan.feed > 0.0
  }

  lemma StepMoves(m: Machine, st: State, op: Op)
    requires st.feedRate >= 0.0 && !BareJog(m, st, op)
    ensures Moving(Step(m, st, op).events) && Step(m, st, op).st.feedRate >= 0.0
  {
    FeedSafety.StepFeeds(m, st, op);
    if op.Block? {
      if op.line.jog {
        JogMoves(m, st, op.line);
      } else {
        OnlyJogsJog(m, st, op.line);
      }
    }
    hide Execute, ScanLine;
  }

  lemma JogMoves(m: Machine, st: State, line: Line)
    requires line.jog && (ScanLine(m, st, line).Accept? ==> ScanLine(m, st, line).value.axisWords.Any())
    ensures forall x <- Execute(m, st, line).events :: x.Jog? ==> x.plan.feed > 0.0
  {
    if Execute(m, st, line).status == Ok {
      JogIsRead(m, st, line);
      hide ScanLine, Execute;
      Quirks.JogIsFed(m, st, line);
    } else {
      Atomicity.RefusedChangesNothing(m, st, line);
      hide ScanLine, Execute;
    }
  }

  lemma JogIsRead(m: Machine, st: State, line: Line)
    requires line.jog && Execute(m, st, line).status == Ok
    ensures ScanLine(m, st, line).Accept?
  {
    hide ScanLine, ExecuteBlock;
  }

  lemma OnlyJogsJog(m: Machine, st: State, line: Line)
    requires !line.jog
    ensures forall x <- Execute(m, st, line).events :: !x.Jog?
  {
    hide ScanLine, Validate, ScanFacts.Read, ScanFacts.ReadValues;
    if ScanLine(m, st, line).Accept? {
      ScanFacts.LineReads(m, st, line);
      Offsets.JogIs(st, line.jog, ScanLine(m, st, line).value);
      if Validate(m, st, ScanLine(m, st, line).value).Go? {
        NothingJogs(m, Validate(m, st, ScanLine(m, st, line).value).w, line.env);
      }
    }
    hide Commit;
  }

  lemma NothingJogs(m: Machine, w: Work, env: Env)
    ensures forall x <- Commit(m, w, env).events :: !x.Jog?
  {
    Offsets.CommitIs(m, w, env);
    hide Commit, CommitModes, CommitNonModal, CommitMotion, CommitFlow, NewPlan, CubicControls, QuadraticControls;
  }

  /** Nothing moves at a feed without one, jogs included, as long as every jog names an axis. */
  lemma {:induction false} RunMoves(m: Machine, st: State, ops: seq<Op>)
    requires st.feedRate >= 0.0 && NoBareJogs(m, st, ops)
    ensures Moving(Trace(m, st, ops))
    decreases |ops|
  {
    hide Step, BareJog, FeedSafety.Feeds;
    if ops != [] {
      StepMoves(m, st, ops[0]);
      RunMoves(m, Step(m, st, ops[0]).st, ops[1..]);
    }
  }

  lemma ColdRunMoves(m: Machine, start: State, ops: seq<Op>)
    requires NoBareJogs(m, ColdInit(m, start), ops)
    ensures Moving(Trace(m, ColdInit(m, start), ops))
  {
    FeedSafety.ColdStartFeeds(m, start);
    hide *;
    RunMoves(m, ColdInit(m, start), ops);
  }

  /** Feeds are used as they are given, as long as no program ends with a foreign feed. */
  lemma ColdRunUsesFeeds(m: Machine, start: State, ops: seq<Op>)
    requires FeedSafety.AllEndClean(m, ColdInit(m, start), ops)
    ensures FeedSafety.AllUsedAsGiven(Trace(m, ColdInit(m, start), ops), FeedSafety.Givens(m, ColdInit(m, start), ops, UnitsPerMin))
  {
    FeedSafety.ColdStartFeeds(m, start);
    assert FeedSafety.Belongs(ColdInit(m, start), UnitsPerMin);
    hide *;
    FeedSafety.RunUsesFeeds(m, ColdInit(m, start), ops, UnitsPerMin);
  }

  /** Scaling is about the origin. */
  lemma ColdRunCentred(m: Machine, start: State, ops: seq<Op>)
    ensures Quirks.Centred(Run(m, ColdInit(m, start), ops))
  {
    hide *;
    Quirks.ColdStartCentred(m, start);
    Quirks.RunCentred(m, ColdInit(m, start), ops);
  }

  /** Every arc starts on its circle and ends on it within the tolerance, but for arcs by radius without travel in the plane. */
  lemma ColdRunFits(m: Machine, start: State, ops: seq<Op>)
    requires Curves.ExactRoots(m)
    ensures forall e <- Trace(m, ColdInit(m, start), ops) :: Curves.ArcFits(m, e)
  {
    hide *;
    SameMeaning.ColdStartCycles(m, start);
    Curves.RunFits(m, ColdInit(m, start), ops);
  }

  /** A program without O words and bare G5 in inches can be rewritten in millimetres. */
  lemma ColdProgramTranslates(m: Machine, start: State, ops: seq<Op>)
    requires Units.AllTranslatable(m, ColdInit(m, start), ops)
    ensures var st := ColdInit(m, start);
            var t := Units.Translate(m, st, ops);
            && Units.MetricState(st) == st
            && Units.Answers(m, st, t) == Units.Answers(m, st, ops) && Trace(m, st, t) == Trace(m, st, ops)
            && Run(m, st, t) == Units.MetricState(Run(m, st, ops))
  {
    assert Units.MetricState(ColdInit(m, start)) == ColdInit(m, start);
    hide *;
    SameMeaning.ColdStartCycles(m, start);
    Units.ProgramTranslates(m, ColdInit(m, start), ops);
  }
}
