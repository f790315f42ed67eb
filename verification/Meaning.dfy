/** Blocks that mean the same: two blocks may be written in different units and distance modes, and yet
    the checks and the execution step make the same of them. */
module Meaning {
  import opened GcTypes
  import opened Scanner
  import opened Validation
  import opened Execution
  import opened Frames

  /** The modes of `a`, units and distance mode as in `b`. */
  function Recast(a: Modal, b: Modal): Modal {
    a.(imperial := b.imperial, incremental := b.incremental)
  }

  ghost predicate AlikeStates(st: State, tt: State) {
    tt == st.(modal := Recast(st.modal, tt.modal))
  }

  /** The same block but for units, distance mode and numbers. */
  ghost predicate Twin(w: Work, u: Work) {
    && u == w.(st := u.st, b := w.b.(values := u.b.values, groups := u.b.groups, modal := Recast(w.b.modal, u.b.modal)))
    && AlikeStates(w.st, u.st)
    && u.b.groups - {G3, G6} == w.b.groups - {G3, G6}
    && (u.b.modal.incremental == w.b.modal.incremental || !w.b.modal.canned)
  }

  lemma TwinBlocks(w: Work, u: Work)
    requires Twin(w, u)
    ensures u.b.jog == w.b.jog && u.b.nonModal == w.b.nonModal && u.b.overrideCmd == w.b.overrideCmd && u.b.flow == w.b.flow
    ensures u.b.spindleOn == w.b.spindleOn && u.b.spindleCcw == w.b.spindleCcw && u.b.words == w.b.words
    ensures u.b.axisCmd == w.b.axisCmd && u.b.axisWords == w.b.axisWords && u.b.ijkWords == w.b.ijkWords
    ensures u.b.setTool == w.b.setTool && u.b.setCoolant == w.b.setCoolant && u.b.cannedChange == w.b.cannedChange
    ensures u.turns == w.turns && u.coordId == w.coordId && u.coordData == w.coordData
    ensures forall g <- {G0, G1, G2, G4, G5, G7, G8, G10, G11, G12, G13, M4, M6, M7, M8, M9} :: g in u.b.groups <==> g in w.b.groups
  {
    forall g <- {G0, G1, G2, G4, G5, G7, G8, G10, G11, G12, G13, M4, M6, M7, M8, M9} ensures g in u.b.groups <==> g in w.b.groups {
      assert g in u.b.groups - {G3, G6} <==> g in w.b.groups - {G3, G6};
    }
  }

  lemma TwinModes(w: Work, u: Work)
    requires Twin(w, u)
    ensures u.b.modal.motion == w.b.modal.motion && u.b.modal.feedMode == w.b.modal.feedMode && u.b.modal.plane == w.b.modal.plane
    ensures u.b.modal.toolMode == w.b.modal.toolMode && u.b.modal.coord == w.b.modal.coord && u.b.modal.coolant == w.b.modal.coolant
    ensures u.b.modal.ctrl == w.b.modal.ctrl && u.b.modal.retractToR == w.b.modal.retractToR
    ensures u.b.modal.scaling == w.b.modal.scaling && u.b.modal.canned == w.b.modal.canned
    ensures w.b.modal.canned ==> u.b.modal.incremental == w.b.modal.incremental
  {
  }

  lemma TwinStates(w: Work, u: Work)
    requires Twin(w, u)
    ensures u.st.canned == w.st.canned && u.st.feedRate == w.st.feedRate && u.st.position == w.st.position
    ensures u.st.toolPending == w.st.toolPending && u.st.offsetId == w.st.offsetId && u.st.g92 == w.st.g92 && u.st.tlo == w.st.tlo
    ensures u.st.scale == w.st.scale && u.st.store == w.st.store
    ensures u.st.modal.motion == w.st.modal.motion && u.st.modal.feedMode == w.st.modal.feedMode
    ensures u.st.modal.coord == w.st.modal.coord && u.st.modal.spindle == w.st.modal.spindle
    ensures u.st.modal.scaling == w.st.modal.scaling && u.st.modal.splinePq == w.st.modal.splinePq
  {
  }

  lemma TwinMeans(w: Work, u: Work)
    requires Twin(w, u)
    ensures u.b.jog == w.b.jog && u.b.nonModal == w.b.nonModal && u.b.overrideCmd == w.b.overrideCmd && u.b.flow == w.b.flow
    ensures u.b.spindleOn == w.b.spindleOn && u.b.spindleCcw == w.b.spindleCcw && u.b.words == w.b.words
    ensures u.b.axisCmd == w.b.axisCmd && u.b.axisWords == w.b.axisWords && u.b.ijkWords == w.b.ijkWords
    ensures u.b.setTool == w.b.setTool && u.b.setCoolant == w.b.setCoolant && u.b.cannedChange == w.b.cannedChange
    ensures u.turns == w.turns && u.coordId == w.coordId && u.coordData == w.coordData
    ensures forall g <- {G0, G1, G2, G4, G5, G7, G8, G10, G11, G12, G13, M4, M6, M7, M8, M9} :: g in u.b.groups <==> g in w.b.groups
    ensures u.b.modal.motion == w.b.modal.motion && u.b.modal.feedMode == w.b.modal.feedMode && u.b.modal.plane == w.b.modal.plane
    ensures u.b.modal.toolMode == w.b.modal.toolMode && u.b.modal.coord == w.b.modal.coord && u.b.modal.coolant == w.b.modal.coolant
    ensures u.b.modal.ctrl == w.b.modal.ctrl && u.b.modal.retractToR == w.b.modal.retractToR
    ensures u.b.modal.scaling == w.b.modal.scaling && u.b.modal.canned == w.b.modal.canned
    ensures w.b.modal.canned ==> u.b.modal.incremental == w.b.modal.incremental
    ensures u.st.canned == w.st.canned && u.st.feedRate == w.st.feedRate && u.st.position == w.st.position
    ensures u.st.toolPending == w.st.toolPending && u.st.offsetId == w.st.offsetId && u.st.g92 == w.st.g92 && u.st.tlo == w.st.tlo
    ensures u.st.scale == w.st.scale && u.st.store == w.st.store
    ensures u.st.modal.motion == w.st.modal.motion && u.st.modal.feedMode == w.st.modal.feedMode
    ensures u.st.modal.coord == w.st.modal.coord && u.st.modal.spindle == w.st.modal.spindle
    ensures u.st.modal.scaling == w.st.modal.scaling && u.st.modal.splinePq == w.st.modal.splinePq
    ensures AlikeStates(w.st, u.st)
  {
    TwinBlocks(w, u);
    TwinModes(w, u);
    TwinStates(w, u);
    hide Recast;
  }

  // ---------------------------------------------------------------- numbers

  /** What decides on the meaning of the numbers of a block. */
  datatype View = View(imperial: bool, motion: Motion, canned: bool, words: set<char>, cmd: AxisCmd, overrides: bool,
                       nonModal: NonModal, setTool: bool, ijkWords: Axes)

  function ViewOf(b: Block): View {
    View(b.modal.imperial, b.modal.motion, b.modal.canned, b.words, ImpliedCmd(b), M9 in b.groups, b.nonModal, b.setTool, b.ijkWords)
  }

  /** Which numbers are lengths, and how far the checks have come. */
  datatype Lengths = Lengths(p: bool, q: bool, sameFeed: bool, worded: bool, sameAxes: bool, done: bool)

  /** A given length is the same in millimetres; any other number is the same, unless it plays no part any more. */
  ghost predicate Measures(given: bool, length: bool, dead: bool, i: bool, j: bool, x: real, y: real) {
    if given && length then ToMillimetres(i, x) == ToMillimetres(j, y) else x == y || (dead && !given)
  }

  ghost predicate SameNumbers(k: Lengths, a: View, c: View, v: Values, u: Values) {
    var i, j, dead := a.imperial, c.imperial, a.canned || a.motion.SpindleSync?;
    && u == v.(f := u.f, xyz := u.xyz, ijk := u.ijk, p := u.p, q := u.q, r := u.r)
    && (k.sameFeed ==> u.f == v.f) && (k.sameAxes ==> u.xyz == v.xyz)
    && ((k.done && 'R' in a.words) || Measures('R' in a.words, true, dead, i, j, v.r, u.r))
    && ((k.done && 'I' in a.words) || Measures('I' in a.words, true, dead, i, j, v.ijk.x, u.ijk.x))
    && ((k.done && 'J' in a.words) || Measures('J' in a.words, true, dead, i, j, v.ijk.y, u.ijk.y))
    && ((k.done && 'K' in a.words) || Measures('K' in a.words, true, dead, i, j, v.ijk.z, u.ijk.z))
    && (k.done || 'I' in a.words || v.ijk.x == 0.0 || dead) && (k.done || 'J' in a.words || v.ijk.y == 0.0 || dead)
    && ((k.done && 'P' in a.words) || Measures('P' in a.words, k.p, false, i, j, v.p, u.p))
    && ((k.done && 'Q' in a.words) || Measures('Q' in a.words, k.q, dead, i, j, v.q, u.q))
  }

  /** P and Q are used as what they are taken for, and G5 has its own control offset. */
  ghost predicate Fits(k: Lengths, a: View, c: View) {
    && (k.p ==> !a.overrides && !a.nonModal.Dwell? && !a.nonModal.SetCoordinateData? && !a.motion.Arc() && !a.canned)
    && (k.q ==> !a.setTool)
    && (a.ijkWords == Axes('I' in a.words, 'J' in a.words, 'K' in a.words) || a.motion.SpindleSync?)
    && (a.imperial != c.imperial && a.cmd.MotionCmd? ==>
          && (a.motion.CubicSpline? && !a.canned ==>
                && (k.p || 'P' !in a.words || (!k.worded && (a.overrides || a.nonModal.Dwell?)))
                && ('I' in a.words || 'J' in a.words))
          && (a.motion.CubicSpline? || a.motion.ChipBreak? || a.motion.Canned83? ==>
                k.q || 'Q' !in a.words || (!k.worded && a.setTool)))
  }

  ghost predicate Twins(k: Lengths, w: Work, u: Work) {
    && Twin(w, u)
    && SameNumbers(k, ViewOf(w.b), ViewOf(u.b), w.b.values, u.b.values)
    && (k.done || Fits(k, ViewOf(w.b), ViewOf(u.b)))
  }

  ghost predicate TwinOutcomes(k: Lengths, o: Outcome, p: Outcome) {
    match o
    case Stop(status, st) => p.Stop? && p.status == status && AlikeStates(st, p.st)
    case Go(w) => p.Go? && Twins(k, w, p.w)
  }

  lemma TwinViews(w: Work, u: Work)
    requires Twin(w, u)
    ensures ViewOf(u.b) == ViewOf(w.b).(imperial := u.b.modal.imperial)
  {
    TwinBlocks(w, u);
    TwinModes(w, u);
  }

  // ---------------------------------------------------------------- writing to twins

  lemma SetterViews()
    ensures forall w, v {:trigger SetValues(w, v)} :: ViewOf(SetValues(w, v).b) == ViewOf(w.b)
    ensures forall w, l {:trigger Consume(w, l)} :: ViewOf(Consume(w, l).b) == ViewOf(w.b).(words := w.b.words - l)
    ensures forall w, x, y {:trigger SetSpindle(w, x, y)} :: ViewOf(SetSpindle(w, x, y).b) == ViewOf(w.b)
    ensures forall w, c {:trigger SetCtrl(w, c)} :: ViewOf(SetCtrl(w, c).b) == ViewOf(w.b)
    ensures forall w, t {:trigger SetTurns(w, t)} :: ViewOf(SetTurns(w, t).b) == ViewOf(w.b)
    ensures forall w, i, d {:trigger SetCoordData(w, i, d)} :: ViewOf(SetCoordData(w, i, d).b) == ViewOf(w.b)
    ensures forall w {:trigger ForgetRetract(w)} :: ViewOf(ForgetRetract(w).b) == ViewOf(w.b)
    ensures forall w, c {:trigger SetCanned(w, c)} :: SetCanned(w, c).b == w.b
    ensures forall w, c {:trigger SetSplinePq(w, c)} :: SetSplinePq(w, c).b == w.b
    ensures forall w, c {:trigger SetAxisCmd(w, c)} :: ViewOf(SetAxisCmd(w, c).b) == ViewOf(w.b).(cmd := ImpliedCmd(SetAxisCmd(w, c).b))
    ensures forall w, x {:trigger SetCoordXyz(w, x)} :: ViewOf(SetCoordXyz(w, x).b) == ViewOf(w.b) && SetCoordXyz(w, x).b.values == w.b.values
  {
    hide ImpliedCmd;
    ImpliedOf();
  }

  lemma ImpliedOf()
    ensures forall b: Block, c: Block {:trigger ImpliedCmd(b), ImpliedCmd(c)} ::
              b.axisWords == c.axisWords && b.axisCmd == c.axisCmd ==> ImpliedCmd(b) == ImpliedCmd(c)
  {
  }

  lemma TwinNumbers()
    ensures forall w, u, v, y {:trigger SetValues(w, v), SetValues(u, y)} :: Twin(w, u) ==> Twin(SetValues(w, v), SetValues(u, y))
    ensures forall w, u, l {:trigger Consume(w, l), Consume(u, l)} :: Twin(w, u) ==> Twin(Consume(w, l), Consume(u, l))
  {
  }

  lemma TwinModals()
    ensures forall w, u, x, y {:trigger SetSpindle(w, x, y), SetSpindle(u, x, y)} :: Twin(w, u) ==> Twin(SetSpindle(w, x, y), SetSpindle(u, x, y))
    ensures forall w, u, c {:trigger SetCtrl(w, c), SetCtrl(u, c)} :: Twin(w, u) ==> Twin(SetCtrl(w, c), SetCtrl(u, c))
    ensures forall w, u {:trigger ForgetRetract(w), ForgetRetract(u)} :: Twin(w, u) ==> Twin(ForgetRetract(w), ForgetRetract(u))
    ensures forall w, u, x {:trigger SetCoordXyz(w, x), SetCoordXyz(u, x)} :: Twin(w, u) ==> Twin(SetCoordXyz(w, x), SetCoordXyz(u, x))
  {
  }

  lemma TwinOthers()
    ensures forall w, u, t {:trigger SetTurns(w, t), SetTurns(u, t)} :: Twin(w, u) ==> Twin(SetTurns(w, t), SetTurns(u, t))
    ensures forall w, u, i, d {:trigger SetCoordData(w, i, d), SetCoordData(u, i, d)} :: Twin(w, u) ==> Twin(SetCoordData(w, i, d), SetCoordData(u, i, d))
    ensures forall w, u, c {:trigger SetAxisCmd(w, c), SetAxisCmd(u, c)} :: Twin(w, u) ==> Twin(SetAxisCmd(w, c), SetAxisCmd(u, c))
    ensures forall w, u, c {:trigger SetCanned(w, c), SetCanned(u, c)} :: Twin(w, u) ==> Twin(SetCanned(w, c), SetCanned(u, c))
    ensures forall w, u, c {:trigger SetSplinePq(w, c), SetSplinePq(u, c)} :: Twin(w, u) ==> Twin(SetSplinePq(w, c), SetSplinePq(u, c))
  {
  }

  // Twins stay twins when both are written the same way.

  lemma TwinsMean(k: Lengths, w: Work, u: Work)
    requires Twins(k, w, u)
    ensures Twin(w, u)
    ensures var v, y := w.b.values, u.b.values;
            && y.d == v.d && y.e == v.e && y.h == v.h && y.l == v.l && y.n == v.n && y.o == v.o && y.s == v.s && y.t == v.t
            && y.dollar == v.dollar && y.abc == v.abc && y.uvw == v.uvw
    ensures k.sameAxes ==> u.b.values.xyz == w.b.values.xyz
    ensures k.sameFeed ==> u.b.values.f == w.b.values.f
    ensures !k.p && !k.done ==> u.b.values.p == w.b.values.p
    ensures !k.q && !k.done && 'Q' in w.b.words ==> u.b.values.q == w.b.values.q
    ensures !k.done ==> Fits(k, ViewOf(w.b), ViewOf(u.b))
  {
    hide Fits;
    assert ViewOf(w.b).words == w.b.words;
    hide ViewOf;
  }

  lemma PutSpeed(k: Lengths, w: Work, u: Work, x: real)
    requires Twins(k, w, u)
    ensures Twins(k, SetValues(w, w.b.values.(s := x)), SetValues(u, u.b.values.(s := x)))
  {
    TwinNumbers();
    hide Twin, SetValues, Fits, ViewOf, Measures;
    SetterViews();
    Setters();
  }

  lemma PutTool(k: Lengths, w: Work, u: Work, x: int)
    requires Twins(k, w, u)
    ensures Twins(k, SetValues(w, w.b.values.(t := x)), SetValues(u, u.b.values.(t := x)))
  {
    TwinNumbers();
    hide Twin, SetValues, Fits, ViewOf, Measures;
    SetterViews();
    Setters();
  }

  lemma PutFeed(k: Lengths, w: Work, u: Work, x: real)
    requires Twins(k, w, u)
    ensures Twins(k.(sameFeed := true), SetValues(w, w.b.values.(f := x)), SetValues(u, u.b.values.(f := x)))
  {
    TwinNumbers();
    hide Twin, SetValues, ViewOf, Measures;
    SetterViews();
    Setters();
  }

  lemma PutAxes(k: Lengths, w: Work, u: Work, x: Vec)
    requires Twins(k, w, u)
    ensures Twins(k.(sameAxes := true), SetValues(w, w.b.values.(xyz := x)), SetValues(u, u.b.values.(xyz := x)))
  {
    TwinNumbers();
    hide Twin, SetValues, ViewOf, Measures;
    SetterViews();
    Setters();
  }

  lemma PutP(k: Lengths, w: Work, u: Work, x: real)
    requires Twins(k, w, u) && !k.p && !k.done
    ensures Twins(k, SetValues(w, w.b.values.(p := x)), SetValues(u, u.b.values.(p := x)))
  {
    TwinNumbers();
    hide Twin, SetValues, ViewOf, ToMillimetres;
    SetterViews();
    Setters();
  }

  lemma PutRepeats(k: Lengths, w: Work, u: Work, x: int)
    requires Twins(k, w, u)
    ensures Twins(k, SetValues(w, w.b.values.(l := x)), SetValues(u, u.b.values.(l := x)))
  {
    TwinNumbers();
    hide Twin, SetValues, Fits, ViewOf, Measures;
    SetterViews();
    Setters();
  }

  /** Words may be used up if their numbers are the same or play no part any more. */
  lemma ConsumeTwins(k: Lengths, w: Work, u: Work, l: set<char>)
    requires Twins(k, w, u) && !k.done
    requires 'I' !in l && 'J' !in l && ('P' in l ==> !k.p)
    requires 'Q' in l ==> !k.q || w.b.modal.canned
    requires ('K' in l ==> w.b.modal.motion.SpindleSync?) && ('R' in l ==> w.b.modal.canned)
    ensures Twins(k, Consume(w, l), Consume(u, l))
  {
    TwinNumbers();
    TwinViews(w, u);
    hide Twin, Consume, SameNumbers, Fits;
    SetterViews();
    Setters();
    UseUp(k, ViewOf(w.b), ViewOf(u.b), w.b.values, u.b.values, l);
  }

  lemma UseUp(k: Lengths, a: View, c: View, v: Values, u: Values, l: set<char>)
    requires SameNumbers(k, a, c, v, u) && Fits(k, a, c) && c.words == a.words && !k.done
    requires 'I' !in l && 'J' !in l && ('P' in l ==> !k.p)
    requires 'Q' in l ==> !k.q || a.canned
    requires ('K' in l ==> a.motion.SpindleSync?) && ('R' in l ==> a.canned)
    ensures SameNumbers(k, a.(words := a.words - l), c.(words := c.words - l), v, u)
    ensures Fits(k, a.(words := a.words - l), c.(words := c.words - l))
  {
    hide ToMillimetres;
  }

  lemma StopTwins(k: Lengths, w: Work, u: Work)
    requires Twin(w, u)
    ensures forall s: Refusal {:trigger Stop(s, w.st)} :: TwinOutcomes(k, Stop(s, w.st), Stop(s, u.st))
  {
    hide Recast;
  }

  lemma GoTwins(k: Lengths, w: Work, u: Work)
    requires Twins(k, w, u)
    ensures TwinOutcomes(k, Go(w), Go(u))
  {
  }

  // ---------------------------------------------------------------- the word checks

  /** The feed words of two blocks before they are converted. */
  ghost predicate SameFeed(w: Work, u: Work) {
    FeedOf(u.st, u.b) == FeedOf(w.st, w.b)
  }

  lemma CommonTwins(k: Lengths, w: Work, u: Work)
    requires Twins(k, w, u)
    ensures TwinOutcomes(k, CheckCommon(w), CheckCommon(u))
    ensures CheckCommon(w).Go? && SameFeed(w, u) ==> SameFeed(CheckCommon(w).w, CheckCommon(u).w)
  {
    CommonGoes(k, w, u);
    CommonFeed(w);
    CommonFeed(u);
    OutcomesGo(k, CheckCommon(w), CheckCommon(u));
    hide CheckCommon, FeedOf, TwinOutcomes;
  }

  lemma CommonGoes(k: Lengths, w: Work, u: Work)
    requires Twins(k, w, u)
    ensures TwinOutcomes(k, CheckCommon(w), CheckCommon(u))
  {
    TwinsMean(k, w, u);
    TwinMeans(w, u);
    hide Twin, Twins, TwinOutcomes, SetAxisCmd, Fits, AlikeStates;
    var implied := w.b.axisWords.Any() && w.b.axisCmd.NoAxisCmd?;
    var w1 := if implied then SetAxisCmd(w, MotionCmd) else w;
    var u1 := if implied then SetAxisCmd(u, MotionCmd) else u;
    if implied {
      ImpliedTwins(k, w, u);
    }
    Setters();
    StopTwins(k, w, u);
    StopTwins(k, w1, u1);
    GoTwins(k, w1, u1);
  }

  lemma ImpliedTwins(k: Lengths, w: Work, u: Work)
    requires Twins(k, w, u) && w.b.axisWords.Any() && w.b.axisCmd.NoAxisCmd?
    ensures var w1, u1 := SetAxisCmd(w, MotionCmd), SetAxisCmd(u, MotionCmd);
            Twins(k, w1, u1) && Twin(w1, u1) && w1.b.words == w.b.words && u1.b.words == u.b.words
  {
    TwinMeans(w, u);
    TwinOthers();
    hide Twin, AlikeStates;
    ImpliedView(w.b);
    ImpliedView(u.b);
  }

  lemma ImpliedView(b: Block)
    requires b.axisWords.Any() && b.axisCmd.NoAxisCmd?
    ensures ViewOf(b.(axisCmd := MotionCmd)) == ViewOf(b)
  {
  }

  lemma CommonFeed(w: Work)
    ensures CheckCommon(w).Go? ==> FeedOf(CheckCommon(w).w.st, CheckCommon(w).w.b) == FeedOf(w.st, w.b)
  {
    hide SetAxisCmd, FeedOf;
    FeedSame();
  }

  lemma OutcomesGo(k: Lengths, o: Outcome, p: Outcome)
    requires TwinOutcomes(k, o, p)
    ensures o.Go? <==> p.Go?
  {
  }

  lemma FeedSame()
    ensures forall w, c {:trigger SetAxisCmd(w, c)} :: FeedOf(SetAxisCmd(w, c).st, SetAxisCmd(w, c).b) == FeedOf(w.st, w.b)
  {
  }

  lemma FeedTwins(k: Lengths, w: Work, u: Work)
    requires Twins(k, w, u) && SameFeed(w, u) && !k.done
    ensures TwinOutcomes(k.(sameFeed := true), CheckFeed(w), CheckFeed(u))
  {
    hide Twin, Twins, TwinOutcomes, SetValues, Consume, Fits;
    TwinsMean(k, w, u);
    TwinMeans(w, u);
    var k1 := k.(sameFeed := true);
    var x := FeedOf(w.st, w.b);
    PutFeed(k, w, u, x);
    var w1, u1 := SetValues(w, w.b.values.(f := x)), SetValues(u, u.b.values.(f := x));
    StopTwins(k1, w, u);
    GoTwins(k1, w1, u1);
    if x == w.b.values.f {
      SetSame(w);
    }
    if x == u.b.values.f {
      SetSame(u);
    }
    if w.b.modal.motion.SpindleSync? {
      Setters();
      ConsumeTwins(k1, w1, u1, {'K'});
      GoTwins(k1, Consume(w1, {'K'}), Consume(u1, {'K'}));
    }
  }

  lemma SetSame(w: Work)
    ensures SetValues(w, w.b.values.(f := w.b.values.f)) == w
    ensures SetValues(w, w.b.values) == w
  {
  }

  /** How a spindle number is answered, and what is left. */
  lemma SpindleIs(m: Machine, w: Work)
    ensures var b, single := w.b, SingleSpindle(w.b);
            var addressed := '$' in b.words && (M7 in b.groups || single);
            var w1 := if addressed then Consume(w, {'$'}) else w;
            CheckSpindle(m, w) ==
              if addressed && b.values.dollar < (if single then 0 else -1) then Stop(if single then NegativeValue else ValueOutOfRange, w.st)
              else if addressed && b.values.dollar > 0 then Stop(ValueOutOfRange, w.st)
              else if b.modal.feedMode.UnitsPerRev? && !m.encoder then Stop(UnsupportedCommand, w.st)
              else Go(if 'S' in b.words then w1 else SetValues(w1, w1.b.values.(s := w1.st.modal.spindle.rpm)))
  {
    hide SingleSpindle, SetValues;
  }

  lemma SameSpindleWords(w: Work, u: Work)
    requires Twin(w, u)
    ensures SingleSpindle(u.b) == SingleSpindle(w.b) && u.b.words == w.b.words && (M7 in u.b.groups <==> M7 in w.b.groups)
    ensures u.b.modal.feedMode == w.b.modal.feedMode
  {
    TwinMeans(w, u);
    hide Twin;
  }

  lemma SpindleTwins(m: Machine, k: Lengths, w: Work, u: Work)
    requires Twins(k, w, u) && !k.done
    ensures TwinOutcomes(k, CheckSpindle(m, w), CheckSpindle(m, u))
  {
    hide *;
    TwinsMean(k, w, u);
    SameSpindleWords(w, u);
    SpindleIs(m, w);
    SpindleIs(m, u);
    StopTwins(k, w, u);
    ConsumeTwins(k, w, u, {'$'});
    var addressed := '$' in w.b.words && (M7 in w.b.groups || SingleSpindle(w.b));
    var w1 := if addressed then Consume(w, {'$'}) else w;
    var u1 := if addressed then Consume(u, {'$'}) else u;
    TwinsMean(k, w1, u1);
    TwinStates(w1, u1);
    var x := w1.st.modal.spindle.rpm;
    PutSpeed(k, w1, u1, x);
    GoTwins(k, w1, u1);
    GoTwins(k, SetValues(w1, w1.b.values.(s := x)), SetValues(u1, u1.b.values.(s := x)));
  }

  lemma ToolTwins(k: Lengths, w: Work, u: Work)
    requires Twins(k, w, u) && !k.done
    ensures TwinOutcomes(k, CheckTool(w), CheckTool(u))
  {
    hide Twin, Twins, TwinOutcomes, SetValues, Consume, IsInt, ToUint32;
    TwinsMean(k, w, u);
    TwinMeans(w, u);
    StopTwins(k, w, u);
    GoTwins(k, w, u);
    var x := ToUint32(w.b.values.q);
    PutTool(k, w, u, w.st.toolPending);
    GoTwins(k, SetValues(w, w.b.values.(t := w.st.toolPending)), SetValues(u, u.b.values.(t := w.st.toolPending)));
    PutTool(k, w, u, x);
    if w.b.setTool && 'Q' in w.b.words {
      assert ViewOf(w.b).setTool;
      var w1, u1 := SetValues(w, w.b.values.(t := x)), SetValues(u, u.b.values.(t := x));
      Setters();
      ConsumeTwins(k, w1, u1, {'Q'});
      GoTwins(k, Consume(w1, {'Q'}), Consume(u1, {'Q'}));
    }
  }

  lemma SpindleStateTwins(m: Machine, k: Lengths, w: Work, u: Work)
    requires Twins(k, w, u) && !k.done
    ensures TwinOutcomes(k, CheckSpindleState(m, w), CheckSpindleState(m, u))
  {
    TwinMeans(w, u);
    TwinModals();
    hide Twin, SetSpindle, AlikeStates, ToMillimetres, Measures;
    SetterViews();
    Setters();
  }

  lemma OverrideTwins(k: Lengths, w: Work, u: Work)
    requires Twins(k, w, u) && !k.done
    ensures TwinOutcomes(k, CheckOverride(w), CheckOverride(u))
  {
    hide Twin, Twins, TwinOutcomes, SetValues, Consume, SetCtrl, Overridden;
    TwinsMean(k, w, u);
    TwinMeans(w, u);
    StopTwins(k, w, u);
    GoTwins(k, w, u);
    if M9 in w.b.groups {
      assert ViewOf(w.b).overrides;
      var p := if 'P' in w.b.words then w.b.values.p else 1.0;
      var c := Overridden(w.b.modal.ctrl, w.b.overrideCmd, p);
      PutCtrl(k, w, u, c);
      var w1, u1 := SetCtrl(w, c), SetCtrl(u, c);
      PutP(k, w1, u1, p);
      var w2, u2 := SetValues(w1, w1.b.values.(p := p)), SetValues(u1, u1.b.values.(p := p));
      ConsumeTwins(k, w2, u2, {'P'});
      GoTwins(k, Consume(w2, {'P'}), Consume(u2, {'P'}));
    }
  }

  lemma PutCtrl(k: Lengths, w: Work, u: Work, c: OverrideCtrl)
    requires Twins(k, w, u)
    ensures Twins(k, SetCtrl(w, c), SetCtrl(u, c))
  {
    TwinModals();
    hide Twin, SetCtrl, Fits, ViewOf, Measures;
    SetterViews();
    Setters();
  }

  lemma DwellTwins(k: Lengths, w: Work, u: Work)
    requires Twins(k, w, u) && !k.done
    ensures TwinOutcomes(k, CheckDwell(w), CheckDwell(u))
  {
    hide Twin, Twins, TwinOutcomes, Consume;
    TwinsMean(k, w, u);
    TwinMeans(w, u);
    StopTwins(k, w, u);
    GoTwins(k, w, u);
    if w.b.nonModal.Dwell? {
      assert ViewOf(w.b).nonModal.Dwell?;
      ConsumeTwins(k, w, u, {'P'});
      GoTwins(k, Consume(w, {'P'}), Consume(u, {'P'}));
    }
  }

  /** Twins pass the word checks together, and have the same feed then. */
  lemma WordsTwins(m: Machine, k: Lengths, w: Work, u: Work)
    requires Twins(k, w, u) && !k.done && SameFeed(w, u)
    ensures TwinOutcomes(k.(sameFeed := true, worded := true), CheckWords(m, w), CheckWords(m, u))
  {
    WordsTwinsBefore(m, k, w, u);
    hide CheckWords, Twin, AlikeStates;
    var o, p := CheckWords(m, w), CheckWords(m, u);
    if o.Go? {
      WordsUseUp(m, w);
      Worded(k.(sameFeed := true), o.w, p.w);
    }
  }

  /** The word checks use up P of an override or a dwell, and Q of M61. */
  lemma WordsUseUp(m: Machine, w: Work)
    requires CheckWords(m, w).Go?
    ensures var b := CheckWords(m, w).w.b;
            && (M9 in b.groups || b.nonModal.Dwell? ==> 'P' !in b.words)
            && (b.setTool ==> 'Q' !in b.words)
  {
    hide CheckCommon, CheckFeed, CheckSpindle, SetValues, Asked, SetSpindle, SetCtrl, Overridden, IsInt, ToUint32, Consume;
    Setters();
    var w3 := CheckSpindle(m, CheckFeed(CheckCommon(w).w).w).w;
    var w4 := CheckTool(w3).w;
    AskedMeans(w4.b, w3.b);
    var w5 := CheckSpindleState(m, w4).w;
    SpindleWords(m, w4);
    AskedMeans(w5.b, w4.b);
    var w6 := CheckOverride(w5).w;
    AskedMeans(w6.b, w5.b);
    AskedMeans(CheckDwell(w6).w.b, w6.b);
  }

  lemma SpindleWords(m: Machine, w: Work)
    ensures var o := CheckSpindleState(m, w); o.Go? ==> o.w.b.words == w.b.words
  {
  }

  lemma Worded(k: Lengths, w: Work, u: Work)
    requires Twins(k, w, u)
    requires (M9 in w.b.groups || w.b.nonModal.Dwell? ==> 'P' !in w.b.words) && (w.b.setTool ==> 'Q' !in w.b.words)
    ensures Twins(k.(worded := true), w, u)
  {
    hide Twin, Measures;
  }

  lemma WordsTwinsBefore(m: Machine, k: Lengths, w: Work, u: Work)
    requires Twins(k, w, u) && !k.done && SameFeed(w, u)
    ensures TwinOutcomes(k.(sameFeed := true), CheckWords(m, w), CheckWords(m, u))
  {
    hide Twins, CheckCommon, CheckFeed, CheckSpindle, CheckTool, CheckSpindleState, CheckOverride, CheckDwell, SameFeed,
         AlikeStates;
    var k1 := k.(sameFeed := true);
    CommonTwins(k, w, u);
    var o1, p1 := CheckCommon(w), CheckCommon(u);
    if o1.Go? {
      FeedTwins(k, o1.w, p1.w);
      var o2, p2 := CheckFeed(o1.w), CheckFeed(p1.w);
      if o2.Go? {
        SpindleTwins(m, k1, o2.w, p2.w);
        var o3, p3 := CheckSpindle(m, o2.w), CheckSpindle(m, p2.w);
        if o3.Go? {
          ToolTwins(k1, o3.w, p3.w);
          var o4, p4 := CheckTool(o3.w), CheckTool(p3.w);
          if o4.Go? {
            SpindleStateTwins(m, k1, o4.w, p4.w);
            var o5, p5 := CheckSpindleState(m, o4.w), CheckSpindleState(m, p4.w);
            if o5.Go? {
              OverrideTwins(k1, o5.w, p5.w);
              var o6, p6 := CheckOverride(o5.w), CheckOverride(p5.w);
              if o6.Go? {
                DwellTwins(k1, o6.w, p6.w);
              }
            }
          }
        }
      }
    }
  }

  // ---------------------------------------------------------------- the motion checks

  /** Once the motion is checked, words that are still unused no longer matter. */
  lemma Done(k: Lengths, w: Work, u: Work)
    requires Twins(k, w, u)
    ensures Twins(k.(done := true), w, u)
  {
    hide ToMillimetres;
  }

  ghost predicate DeadNumbers(b: Block) {
    b.modal.canned || b.modal.motion.SpindleSync?
  }

  /** The lengths of twins in millimetres. */
  lemma LengthsMean(k: Lengths, w: Work, u: Work)
    requires Twins(k, w, u) && !k.done
    ensures var b, c := w.b, u.b;
            var v, y, i, j := b.values, c.values, b.modal.imperial, c.modal.imperial;
            && ('R' in b.words ==> ToMillimetres(i, v.r) == ToMillimetres(j, y.r))
            && ('I' in b.words ==> ToMillimetres(i, v.ijk.x) == ToMillimetres(j, y.ijk.x))
            && ('J' in b.words ==> ToMillimetres(i, v.ijk.y) == ToMillimetres(j, y.ijk.y))
            && ('K' in b.words ==> ToMillimetres(i, v.ijk.z) == ToMillimetres(j, y.ijk.z))
            && (if k.p && 'P' in b.words then ToMillimetres(i, v.p) == ToMillimetres(j, y.p) else v.p == y.p)
            && ('Q' in b.words ==> if k.q then ToMillimetres(i, v.q) == ToMillimetres(j, y.q) else v.q == y.q)
            && (!DeadNumbers(b) ==>
                  && ('R' !in b.words ==> v.r == y.r) && ('Q' !in b.words ==> v.q == y.q)
                  && ('I' !in b.words ==> v.ijk.x == 0.0 == y.ijk.x) && ('J' !in b.words ==> v.ijk.y == 0.0 == y.ijk.y)
                  && ('K' !in b.words ==> v.ijk.z == y.ijk.z)
                  && b.ijkWords == Axes('I' in b.words, 'J' in b.words, 'K' in b.words))
  {
    hide Twin, ToMillimetres;
  }

  /** The motion checks replace numbers and use up their words. */
  lemma Finish(k: Lengths, w: Work, u: Work, v: Values, y: Values, l: set<char>)
    requires Twins(k, w, u)
    requires v == w.b.values.(ijk := v.ijk, p := v.p, q := v.q, r := v.r)
             && y == u.b.values.(ijk := y.ijk, p := y.p, q := y.q, r := y.r)
    requires var left := w.b.words - l;
             && ('R' in left || v.r == y.r) && ('P' in left || v.p == y.p) && ('Q' in left || v.q == y.q)
             && ('I' in left || v.ijk.x == y.ijk.x) && ('J' in left || v.ijk.y == y.ijk.y) && ('K' in left || v.ijk.z == y.ijk.z)
    ensures Twins(k.(done := true), Consume(SetValues(w, v), l), Consume(SetValues(u, y), l))
  {
    TwinNumbers();
    hide Twin, SetValues, Consume, Fits, ToMillimetres;
    SetterViews();
    Setters();
    FinishNumbers(k, ViewOf(w.b), ViewOf(u.b), w.b.values, u.b.values, v, y, l);
  }

  lemma FinishNumbers(k: Lengths, a: View, c: View, v0: Values, y0: Values, v: Values, y: Values, l: set<char>)
    requires SameNumbers(k, a, c, v0, y0)
    requires v == v0.(ijk := v.ijk, p := v.p, q := v.q, r := v.r) && y == y0.(ijk := y.ijk, p := y.p, q := y.q, r := y.r)
    requires var left := a.words - l;
             && ('R' in left || v.r == y.r) && ('P' in left || v.p == y.p) && ('Q' in left || v.q == y.q)
             && ('I' in left || v.ijk.x == y.ijk.x) && ('J' in left || v.ijk.y == y.ijk.y) && ('K' in left || v.ijk.z == y.ijk.z)
    ensures SameNumbers(k.(done := true), a.(words := a.words - l), c.(words := c.words - l), v, y)
  {
    hide ToMillimetres;
  }

  lemma PutTurns(k: Lengths, w: Work, u: Work, x: int)
    requires Twins(k, w, u)
    ensures Twins(k, SetTurns(w, x), SetTurns(u, x))
  {
    TwinOthers();
    hide Twin, SetTurns, SameNumbers, Fits, ViewOf;
    SetterViews();
    Setters();
  }

  lemma PutCanned(k: Lengths, w: Work, u: Work, c: Canned)
    requires Twins(k, w, u)
    ensures Twins(k, SetCanned(w, c), SetCanned(u, c))
    ensures SetCanned(w, c).b == w.b && SetCanned(w, c).st.canned == c
  {
    TwinOthers();
    hide Twin, SameNumbers, Fits, ViewOf;
    SetterViews();
  }

  lemma PutSpline(k: Lengths, w: Work, u: Work, c: Pq)
    requires Twins(k, w, u)
    ensures Twins(k, SetSplinePq(w, c), SetSplinePq(u, c))
  {
    TwinOthers();
    hide Twin, SetSplinePq, SameNumbers, Fits, ViewOf;
    SetterViews();
  }

  lemma TurnsTwins(k: Lengths, w: Work, u: Work)
    requires Twins(k, w, u) && !k.done && w.b.modal.motion.Arc()
    ensures TwinOutcomes(k, CheckTurns(w), CheckTurns(u))
    ensures CheckTurns(w).Go? ==> CheckTurns(w).w.b.modal.motion == w.b.modal.motion && CheckTurns(w).w.b.modal.canned == w.b.modal.canned
  {
    hide Twin, Twins, TwinOutcomes, SetTurns, Consume, IsInt, ToUint32, Fits;
    TwinsMean(k, w, u);
    TwinMeans(w, u);
    StopTwins(k, w, u);
    PutTurns(k, w, u, 1);
    GoTwins(k, SetTurns(w, 1), SetTurns(u, 1));
    ArcP(k, w, u);
    LengthsMean(k, w, u);
    ConsumeTwins(k, w, u, {'P'});
    var w1, u1 := Consume(w, {'P'}), Consume(u, {'P'});
    var n := ToUint32(w.b.values.p);
    PutTurns(k, w1, u1, n);
    GoTwins(k, SetTurns(w1, n), SetTurns(u1, n));
    Setters();
    AskedMeans(w1.b, w.b);
    AskedMeans(SetTurns(w1, n).b, w.b);
    AskedMeans(SetTurns(w, 1).b, w.b);
  }

  lemma ArcP(k: Lengths, w: Work, u: Work)
    requires Twins(k, w, u) && !k.done && w.b.modal.motion.Arc()
    ensures !k.p
  {
  }

  lemma RadiusTwins(m: Machine, k: Lengths, w: Work, u: Work)
    requires Twins(k, w, u) && !k.done && k.sameAxes && 'R' in w.b.words && w.b.modal.motion.Arc() && !w.b.modal.canned
    ensures TwinOutcomes(k.(done := true), CheckRadiusArc(m, w), CheckRadiusArc(m, u))
  {
    hide Twin, Twins, TwinOutcomes, SetValues, Consume, G.Abs, Fits, ToMillimetres, G.FourHSquared, RadiusCentre, Vec.Put;
    TwinsMean(k, w, u);
    TwinMeans(w, u);
    LengthsMean(k, w, u);
    var kd := k.(done := true);
    StopTwins(kd, w, u);
    var r := ProgrammedRadius(w);
    assert ProgrammedRadius(u) == r;
    hide ProgrammedRadius;
    var end := PlaneOf(w.b.modal.plane, w.b.values.xyz.Minus(w.st.position));
    var c := RadiusCentre(m, w.b.modal.motion.CcwArc?, end, r);
    var i, j := c.x, c.y;
    var plane := w.b.modal.plane;
    var v := w.b.values.(ijk := w.b.values.ijk.Put(plane.Axis0(), i).Put(plane.Axis1(), j), r := G.Abs(r));
    var z := u.b.values.(ijk := u.b.values.ijk.Put(plane.Axis0(), i).Put(plane.Axis1(), j), r := G.Abs(r));
    RadiusNumbers(k, w, u, v, z, i, j, G.Abs(r));
    Finish(k, w, u, v, z, {'R'});
    GoTwins(kd, Consume(SetValues(w, v), {'R'}), Consume(SetValues(u, z), {'R'}));
  }

  lemma RadiusNumbers(k: Lengths, w: Work, u: Work, v: Values, z: Values, ci: real, cj: real, r: real)
    requires Twins(k, w, u) && !k.done && w.b.modal.motion.Arc() && !w.b.modal.canned
    requires v == w.b.values.(ijk := w.b.values.ijk.Put(w.b.modal.plane.Axis0(), ci).Put(w.b.modal.plane.Axis1(), cj), r := r)
    requires z == u.b.values.(ijk := u.b.values.ijk.Put(w.b.modal.plane.Axis0(), ci).Put(w.b.modal.plane.Axis1(), cj), r := r)
    ensures var left := w.b.words - {'R'};
            && v.r == z.r && ('P' in left || v.p == z.p) && ('Q' in left || v.q == z.q)
            && ('I' in left || v.ijk.x == z.ijk.x) && ('J' in left || v.ijk.y == z.ijk.y) && ('K' in left || v.ijk.z == z.ijk.z)
  {
    ArcP(k, w, u);
    LengthsMean(k, w, u);
    hide Twins, ToMillimetres;
  }

  lemma SameOffsetsToCentre(k: Lengths, w: Work, u: Work)
    requires Twins(k, w, u) && !k.done && !DeadNumbers(w.b)
    ensures CentreOffsets(u) == CentreOffsets(w)
  {
    TwinMeans(w, u);
    LengthsMean(k, w, u);
    hide Twins;
  }

  lemma CentreTwins(m: Machine, k: Lengths, w: Work, u: Work)
    requires Twins(k, w, u) && !k.done && k.sameAxes && 'R' !in w.b.words && w.b.modal.motion.Arc() && !w.b.modal.canned
    ensures TwinOutcomes(k.(done := true), CheckCentreArc(m, w), CheckCentreArc(m, u))
  {
    hide Twin, Twins, TwinOutcomes, SetValues, Consume, CentreOffsets, RadiiAgree, Distance, Fits, ToMillimetres;
    TwinsMean(k, w, u);
    TwinMeans(w, u);
    LengthsMean(k, w, u);
    ArcP(k, w, u);
    SameOffsetsToCentre(k, w, u);
    var kd := k.(done := true);
    StopTwins(kd, w, u);
    var ijk := CentreOffsets(w);
    var r := Distance(m, PlaneOf(w.b.modal.plane, ijk), Planar(0.0, 0.0));
    var v, y := w.b.values.(ijk := ijk, r := r), u.b.values.(ijk := ijk, r := r);
    Finish(k, w, u, v, y, {'I', 'J', 'K'});
    GoTwins(kd, Consume(SetValues(w, v), {'I', 'J', 'K'}), Consume(SetValues(u, y), {'I', 'J', 'K'}));
  }

  lemma ArcTwins(m: Machine, k: Lengths, w: Work, u: Work)
    requires Twins(k, w, u) && !k.done && k.sameAxes && w.b.modal.motion.Arc() && !w.b.modal.canned
    ensures TwinOutcomes(k.(done := true), CheckArc(m, w), CheckArc(m, u))
  {
    hide Twin, Twins, CheckTurns, CheckRadiusArc, CheckCentreArc, AlikeStates;
    TwinsMean(k, w, u);
    TwinMeans(w, u);
    hide TwinOutcomes;
    StopTwins(k.(done := true), w, u);
    TurnsTwins(k, w, u);
    var o, p := CheckTurns(w), CheckTurns(u);
    TurnsStop(k, o, p);
    if o.Go? {
      TwinsMean(k, o.w, p.w);
      TwinMeans(o.w, p.w);
      if 'R' in o.w.b.words {
        RadiusTwins(m, k, o.w, p.w);
      } else {
        CentreTwins(m, k, o.w, p.w);
      }
    }
  }

  lemma TurnsStop(k: Lengths, o: Outcome, p: Outcome)
    requires TwinOutcomes(k, o, p)
    ensures o.Stop? ==> p.Stop? && forall l: Lengths :: TwinOutcomes(l, o, p)
    ensures o.Go? ==> p.Go? && Twins(k, o.w, p.w)
  {
    hide AlikeStates, Twins;
  }

  lemma SameLength(w: Work, u: Work, x: real, y: real, axis: nat)
    requires axis < 2 && Twin(w, u) && ToMillimetres(w.b.modal.imperial, x) == ToMillimetres(u.b.modal.imperial, y)
    ensures PlanarLength(w, x, axis) == PlanarLength(u, y, axis)
  {
    TwinStates(w, u);
    hide Twin;
  }

  /** Control offsets of twins, if each length is given or zero. */
  lemma SameSplineOffset(k: Lengths, w: Work, u: Work)
    requires Twins(k, w, u) && !k.done && !DeadNumbers(w.b)
    ensures var a, c := SplineOffset(w, w.b.values.ijk), SplineOffset(u, u.b.values.ijk);
            && a.x == c.x && a.y == c.y && a.z == w.b.values.ijk.z && c.z == u.b.values.ijk.z
            && ('K' !in w.b.words ==> a.z == c.z)
  {
    LengthsMean(k, w, u);
    TwinsMean(k, w, u);
    hide Twins, Twin, PlanarLength;
    var v, y := w.b.values.ijk, u.b.values.ijk;
    SameLength(w, u, v.x, y.x, 0);
    SameLength(w, u, v.y, y.y, 1);
  }

  lemma CubicTwins(k: Lengths, w: Work, u: Work)
    requires Twins(k, w, u) && !k.done && k.worded && w.b.modal.motion.CubicSpline? && !w.b.modal.canned && w.b.axisCmd.MotionCmd?
    ensures TwinOutcomes(k.(done := true), CheckCubic(w), CheckCubic(u))
  {
    TwinsMean(k, w, u);
    TwinMeans(w, u);
    hide Twin, Twins, TwinOutcomes, SetValues, Consume, SetSplinePq, CubicOffset, PlanarLength, Fits, ToMillimetres;
    var kd := k.(done := true);
    StopTwins(kd, w, u);
    if 'P' in w.b.words && 'Q' in w.b.words {
      CubicNumbers(k, w, u);
      var p, q := PlanarLength(w, w.b.values.p, 0), PlanarLength(w, w.b.values.q, 1);
      var v, y := w.b.values.(ijk := CubicOffset(w), p := p, q := q), u.b.values.(ijk := CubicOffset(u), p := p, q := q);
      Finish(k, w, u, v, y, {'P', 'Q', 'I', 'J'});
      var w1, u1 := Consume(SetValues(w, v), {'P', 'Q', 'I', 'J'}), Consume(SetValues(u, y), {'P', 'Q', 'I', 'J'});
      PutSpline(kd, w1, u1, Pq(p, q));
      GoTwins(kd, SetSplinePq(w1, Pq(p, q)), SetSplinePq(u1, Pq(p, q)));
    }
  }

  lemma CubicNumbers(k: Lengths, w: Work, u: Work)
    requires Twins(k, w, u) && !k.done && k.worded && w.b.modal.motion.CubicSpline? && !w.b.modal.canned && w.b.axisCmd.MotionCmd?
    requires 'P' in w.b.words && 'Q' in w.b.words
    ensures PlanarLength(w, w.b.values.p, 0) == PlanarLength(u, u.b.values.p, 0)
    ensures PlanarLength(w, w.b.values.q, 1) == PlanarLength(u, u.b.values.q, 1)
    ensures var a, c := CubicOffset(w), CubicOffset(u); a.x == c.x && a.y == c.y && ('K' !in w.b.words ==> a.z == c.z)
    ensures w.b.values.r == u.b.values.r || 'R' in w.b.words
  {
    CubicFits(k, w, u);
    LengthsMean(k, w, u);
    SameSplineOffset(k, w, u);
    TwinsMean(k, w, u);
    TwinMeans(w, u);
    hide Twins, Twin, PlanarLength, SplineOffset, ToMillimetres;
    SameLength(w, u, w.b.values.p, u.b.values.p, 0);
    SameLength(w, u, w.b.values.q, u.b.values.q, 1);
  }

  /** In a G5 block P and Q are lengths, or the units are the same. */
  lemma CubicFits(k: Lengths, w: Work, u: Work)
    requires Twins(k, w, u) && !k.done && k.worded && w.b.modal.motion.CubicSpline? && !w.b.modal.canned && w.b.axisCmd.MotionCmd?
    ensures 'P' in w.b.words ==> ToMillimetres(w.b.modal.imperial, w.b.values.p) == ToMillimetres(u.b.modal.imperial, u.b.values.p)
    ensures 'Q' in w.b.words ==> ToMillimetres(w.b.modal.imperial, w.b.values.q) == ToMillimetres(u.b.modal.imperial, u.b.values.q)
    ensures 'I' !in w.b.words && 'J' !in w.b.words ==> u.b.modal.imperial == w.b.modal.imperial
    ensures 'P' in w.b.words && u.b.modal.imperial == w.b.modal.imperial ==> w.b.values.p == u.b.values.p
    ensures 'Q' in w.b.words && u.b.modal.imperial == w.b.modal.imperial ==> w.b.values.q == u.b.values.q
  {
    hide Twin;
  }

  ghost function QuadraticValues(w: Work): Values {
    w.b.values.(ijk := SplineOffset(w, w.b.values.ijk))
  }

  lemma QuadraticNumbers(k: Lengths, w: Work, u: Work)
    requires Twins(k, w, u) && !k.done && w.b.modal.motion.QuadraticSpline? && !w.b.modal.canned
    requires 'I' in w.b.words && 'J' in w.b.words
    ensures var v, y, left := QuadraticValues(w), QuadraticValues(u), w.b.words - {'I', 'J'};
            && ('R' in left || v.r == y.r) && ('P' in left || v.p == y.p) && ('Q' in left || v.q == y.q)
            && v.ijk.x == y.ijk.x && v.ijk.y == y.ijk.y && ('K' in left || v.ijk.z == y.ijk.z)
    ensures w.b.values.ijk.x == 0.0 <==> u.b.values.ijk.x == 0.0
  {
    TwinsMean(k, w, u);
    TwinMeans(w, u);
    LengthsMean(k, w, u);
    SameSplineOffset(k, w, u);
    SameZero(w, u);
    hide Twin, Twins, SplineOffset, Fits, ToMillimetres, PlanarLength;
  }

  lemma QuadraticFinish(k: Lengths, w: Work, u: Work)
    requires Twins(k, w, u) && !k.done && w.b.modal.motion.QuadraticSpline? && !w.b.modal.canned
    requires 'I' in w.b.words && 'J' in w.b.words
    ensures Twins(k.(done := true), Consume(SetValues(w, QuadraticValues(w)), {'I', 'J'}),
                  Consume(SetValues(u, QuadraticValues(u)), {'I', 'J'}))
  {
    var v, y := QuadraticValues(w), QuadraticValues(u);
    assert v == w.b.values.(ijk := v.ijk, p := v.p, q := v.q, r := v.r)
      && y == u.b.values.(ijk := y.ijk, p := y.p, q := y.q, r := y.r);
    hide *;
    QuadraticNumbers(k, w, u);
    Finish(k, w, u, v, y, {'I', 'J'});
  }

  lemma QuadraticTwins(k: Lengths, w: Work, u: Work)
    requires Twins(k, w, u) && !k.done && w.b.modal.motion.QuadraticSpline? && !w.b.modal.canned
    ensures TwinOutcomes(k.(done := true), CheckQuadratic(w), CheckQuadratic(u))
  {
    TwinsMean(k, w, u);
    TwinMeans(w, u);
    hide Twin, Twins, TwinOutcomes, SetValues, Consume, SplineOffset;
    var kd := k.(done := true);
    StopTwins(kd, w, u);
    if 'I' in w.b.words && 'J' in w.b.words {
      QuadraticNumbers(k, w, u);
      QuadraticFinish(k, w, u);
      GoTwins(kd, Consume(SetValues(w, QuadraticValues(w)), {'I', 'J'}), Consume(SetValues(u, QuadraticValues(u)), {'I', 'J'}));
    }
  }

  lemma SameZero(w: Work, u: Work)
    ensures ToMillimetres(w.b.modal.imperial, w.b.values.ijk.x) == ToMillimetres(u.b.modal.imperial, u.b.values.ijk.x)
            ==> (w.b.values.ijk.x == 0.0 <==> u.b.values.ijk.x == 0.0)
  {
  }

  // Canned cycles.

  lemma CannedStart(k: Lengths, w: Work, u: Work)
    requires Twins(k, w, u) && !k.done && w.b.modal.canned
    ensures Twins(k, CannedReset(w), CannedReset(u)) && CannedReset(w).b == w.b
    ensures Twins(k, CannedDelta(w), CannedDelta(u)) && CannedDelta(w).b == w.b
    ensures k.sameAxes ==> Twins(k, CannedTarget(w), CannedTarget(u)) && CannedTarget(w).b == w.b
  {
    TwinsMean(k, w, u);
    TwinMeans(w, u);
    hide Twin, Twins, SetCanned, Pick, Vec.Put, Vec.At;
    PutCanned(k, w, u, CannedReset(w).st.canned);
    SetCannedKeeps();
    var c := w.st.canned;
    var p := w.b.modal.plane;
    PutCanned(k, w, u, c.(dwell := 0.0, xyz := c.xyz.Put(p.Axis0(), 0.0).Put(p.Axis1(), 0.0), rapidRetract := true, spindleOff := false));
    var delta := -c.xyz.At(p.AxisLinear()) + c.retract;
    PutCanned(k, w, u, c.(delta := delta, rapidRetract := c.rapidRetract && !w.b.modal.motion.Canned85?));
    var v := w.b.values.xyz;
    var relative := v.Minus(w.st.position);
    var depth := if w.b.modal.incremental then c.retract + relative.At(p.AxisLinear()) else v.At(p.AxisLinear());
    PutCanned(k, w, u, c.(xyz := Pick(w.b.axisWords, relative.Put(p.AxisLinear(), depth), c.xyz)));
  }

  lemma RetractTwins(k: Lengths, w: Work, u: Work)
    requires Twins(k, w, u) && !k.done && w.b.modal.canned
    ensures Twins(k, CannedRetract(w), CannedRetract(u)) && CannedRetract(w).b == w.b
  {
    TwinsMean(k, w, u);
    TwinMeans(w, u);
    LengthsMean(k, w, u);
    hide Twin, Twins, SetCanned, Vec.At, ToMillimetres;
    SetCannedKeeps();
    var from := if w.b.modal.incremental then w.st.position else BlockOffset(w.st, w.b.modal);
    var retract := ToMillimetres(w.b.modal.imperial, w.b.values.r) + from.At(w.b.modal.plane.AxisLinear());
    PutCanned(k, w, u, w.st.canned.(retract := retract));
  }

  lemma CannedDwellTwins(k: Lengths, w: Work, u: Work)
    requires Twins(k, w, u) && !k.done && k.worded && w.b.modal.canned
    ensures TwinOutcomes(k, CannedDwell(w), CannedDwell(u))
    ensures CannedDwell(w).Go? ==> CannedDwell(w).w.b.modal == w.b.modal
  {
    TwinsMean(k, w, u);
    TwinMeans(w, u);
    CannedFits(k, w, u);
    LengthsMean(k, w, u);
    hide Twin, Twins, TwinOutcomes, SetCanned, Consume, Fits;
    StopTwins(k, w, u);
    GoTwins(k, w, u);
    var c := w.st.canned.(dwell := w.b.values.p);
    PutCanned(k, w, u, c);
    var w1, u1 := SetCanned(w, c), SetCanned(u, c);
    ConsumeTwins(k, w1, u1, {'P'});
    Setters();
    GoTwins(k, Consume(w1, {'P'}), Consume(u1, {'P'}));
  }

  lemma CannedFits(k: Lengths, w: Work, u: Work)
    requires Twins(k, w, u) && !k.done && k.worded && w.b.modal.canned
    ensures !k.p
    ensures (w.b.modal.motion.ChipBreak? || w.b.modal.motion.Canned83?) && w.b.axisCmd.MotionCmd? && 'Q' in w.b.words
            ==> && ToMillimetres(w.b.modal.imperial, w.b.values.q) == ToMillimetres(u.b.modal.imperial, u.b.values.q)
                && (w.b.values.q <= 0.0 <==> u.b.values.q <= 0.0)
  {
    hide Twin;
  }

  lemma PeckTwins(k: Lengths, w: Work, u: Work)
    requires Twins(k, w, u) && !k.done && k.worded && w.b.modal.canned && w.b.axisCmd.MotionCmd?
    requires w.b.modal.motion.ChipBreak? || w.b.modal.motion.Canned83?
    ensures TwinOutcomes(k, CannedPeck(w), CannedPeck(u))
  {
    TwinsMean(k, w, u);
    TwinMeans(w, u);
    CannedFits(k, w, u);
    hide Twin, Twins, TwinOutcomes, SetCanned, Consume, Fits, ToMillimetres;
    StopTwins(k, w, u);
    var delta := ToMillimetres(w.b.modal.imperial, w.b.values.q);
    var c, d := w.st.canned.(delta := delta, dwell := 0.25), w.st.canned.(dwell := 0.25);
    PutCanned(k, w, u, c);
    PutCanned(k, w, u, d);
    GoTwins(k, SetCanned(w, d), SetCanned(u, d));
    var w1, u1 := SetCanned(w, c), SetCanned(u, c);
    ConsumeTwins(k, w1, u1, {'Q'});
    GoTwins(k, Consume(w1, {'Q'}), Consume(u1, {'Q'}));
  }

  lemma DwellThenDelta(k: Lengths, w: Work, u: Work)
    requires Twins(k, w, u) && !k.done && k.worded && w.b.modal.canned
    ensures var o, p := CannedDwell(w), CannedDwell(u);
            TwinOutcomes(k, if o.Go? then Go(CannedDelta(o.w)) else o, if p.Go? then Go(CannedDelta(p.w)) else p)
  {
    hide Twin, Twins, CannedDwell, CannedDelta, AlikeStates;
    CannedDwellTwins(k, w, u);
    var o, p := CannedDwell(w), CannedDwell(u);
    if o.Go? {
      CannedStart(k, o.w, p.w);
    }
  }

  lemma BottomTwins(k: Lengths, w: Work, u: Work)
    requires Twins(k, w, u)
    ensures Twins(k, AtBottom(w), AtBottom(u)) && AtBottom(w).b == w.b
  {
    TwinsMean(k, w, u);
    TwinMeans(w, u);
    hide Twin, Twins, SetCanned;
    SetCannedKeeps();
    var c := w.st.canned;
    PutCanned(k, w, u, c.(spindleOff := true, rapidRetract := true));
    PutCanned(k, w, u, c.(spindleOff := false, rapidRetract := false));
  }

  lemma DrillTwins(k: Lengths, w: Work, u: Work)
    requires Twins(k, w, u) && !k.done && k.worded && w.b.modal.canned && w.b.axisCmd.MotionCmd?
    ensures TwinOutcomes(k, CheckDrill(w), CheckDrill(u))
  {
    TwinsMean(k, w, u);
    TwinModes(w, u);
    hide Twin, Twins, TwinOutcomes, AtBottom, CannedDwell, CannedDelta, CannedPeck, Fits;
    GoTwins(k, w, u);
    CannedStart(k, w, u);
    GoTwins(k, CannedDelta(w), CannedDelta(u));
    BottomTwins(k, w, u);
    DwellThenDelta(k, AtBottom(w), AtBottom(u));
    if w.b.modal.motion.ChipBreak? || w.b.modal.motion.Canned83? {
      PeckTwins(k, w, u);
    }
  }

  lemma RepeatsTwins(k: Lengths, w: Work, u: Work)
    requires Twins(k, w, u)
    ensures var w1, u1 := DefaultRepeats(w), DefaultRepeats(u); Twins(k, w1, u1) && w1.b.modal == w.b.modal && w1.b.axisCmd == w.b.axisCmd
  {
    TwinsMean(k, w, u);
    TwinBlocks(w, u);
    hide Twin, Twins, SetValues;
    Setters();
    PutRepeats(k, w, u, 1);
  }

  lemma CycleTwins(k: Lengths, w: Work, u: Work)
    requires Twins(k, w, u) && !k.done && k.worded && k.sameAxes && w.b.modal.canned && w.b.axisCmd.MotionCmd?
    ensures TwinOutcomes(k, CheckCycle(w), CheckCycle(u))
  {
    TwinsMean(k, w, u);
    TwinModes(w, u);
    hide Twin, Twins, TwinOutcomes, Consume, CannedRetract, CannedTarget, CheckDrill, Fits;
    Setters();
    RetractTwins(k, w, u);
    var w1, u1 := CannedRetract(w), CannedRetract(u);
    CannedStart(k, w1, u1);
    var w2, u2 := CannedTarget(w1), CannedTarget(u1);
    TwinsMean(k, w2, u2);
    TwinStates(w2, u2);
    StopTwins(k, w2, u2);
    ConsumeTwins(k, w2, u2, {'R', 'L'});
    DrillTwins(k, Consume(w2, {'R', 'L'}), Consume(u2, {'R', 'L'}));
  }

  /** The first checks of a cycle, and what follows. */
  lemma CannedIs(w: Work)
    ensures var b, w1 := w.b, if w.b.cannedChange then CannedReset(w) else w;
            CheckCanned(w) ==
              if b.cannedChange && w.st.modal.feedMode.InverseTime? then Stop(InvalidStatement, w.st)
              else if b.cannedChange && ('R' !in b.words || !b.axisWords.Has(b.modal.plane.AxisLinear())) then Stop(ValueWordMissing, w.st)
              else if 'L' in b.words && b.values.l == 0 then Stop(NonPositiveValue, w1.st)
              else CheckCycle(DefaultRepeats(w1))
  {
    hide CannedReset, DefaultRepeats, CheckCycle;
  }

  lemma CannedTwins(k: Lengths, w: Work, u: Work)
    requires Twins(k, w, u) && !k.done && k.worded && k.sameAxes && w.b.modal.canned && w.b.axisCmd.MotionCmd?
    ensures TwinOutcomes(k, CheckCanned(w), CheckCanned(u))
  {
    hide *;
    TwinsMean(k, w, u);
    TwinMeans(w, u);
    CannedIs(w);
    CannedIs(u);
    StopTwins(k, w, u);
    CannedStart(k, w, u);
    var w1 := if w.b.cannedChange then CannedReset(w) else w;
    var u1 := if w.b.cannedChange then CannedReset(u) else u;
    TwinsMean(k, w1, u1);
    StopTwins(k, w1, u1);
    RepeatsTwins(k, w1, u1);
    CycleTwins(k, DefaultRepeats(w1), DefaultRepeats(u1));
  }

  lemma DropTwins(k: Lengths, w: Work, u: Work)
    requires Twins(k, w, u)
    ensures TwinOutcomes(k.(done := true), Go(DropAxisCmd(w)), Go(DropAxisCmd(u)))
  {
    Done(k, w, u);
    TwinOthers();
    TwinBlocks(w, u);
    TwinViews(w, u);
    hide Twin, SetAxisCmd, Fits, Measures;
    SetterViews();
    Setters();
    NumbersIgnoreCmd(k.(done := true), ViewOf(w.b), ViewOf(u.b), w.b.values, u.b.values, ImpliedCmd(SetAxisCmd(w, NoAxisCmd).b),
                     ImpliedCmd(SetAxisCmd(u, NoAxisCmd).b));
  }

  lemma NumbersIgnoreCmd(k: Lengths, a: View, c: View, v: Values, u: Values, x: AxisCmd, y: AxisCmd)
    requires SameNumbers(k, a, c, v, u)
    ensures SameNumbers(k, a.(cmd := x), c.(cmd := y), v, u)
  {
  }

  lemma ProbeTwins(k: Lengths, w: Work, u: Work)
    requires Twins(k, w, u) && k.sameAxes
    ensures TwinOutcomes(k.(done := true), CheckProbe(w), CheckProbe(u))
  {
    Done(k, w, u);
    TwinsMean(k, w, u);
    TwinMeans(w, u);
    hide Twin, Twins, TwinOutcomes;
    StopTwins(k.(done := true), w, u);
    GoTwins(k.(done := true), w, u);
  }

  lemma ForgetTwins(k: Lengths, w: Work, u: Work)
    requires Twins(k, w, u)
    ensures var w1, u1 := ForgetRetract(w), ForgetRetract(u);
            Twins(k, w1, u1) && w1.b.axisCmd == w.b.axisCmd && w1.b.modal.motion == w.b.modal.motion
              && w1.b.modal.canned == w.b.modal.canned
  {
    TwinModals();
    hide Twin, ForgetRetract, Fits, SameNumbers;
    SetterViews();
    Setters();
    AskedMeans(ForgetRetract(w).b, w.b);
  }

  /** The checks that belong to a motion mode. */
  lemma ModeTwins(m: Machine, k: Lengths, w: Work, u: Work)
    requires Twins(k, w, u) && !k.done && k.worded && k.sameAxes && w.b.axisCmd.MotionCmd?
    ensures TwinOutcomes(k.(done := true), CheckMode(m, w), CheckMode(m, u))
  {
    TwinsMean(k, w, u);
    TwinModes(w, u);
    hide Twin, Twins, TwinOutcomes, CheckCanned, CheckArc, CheckCubic, CheckQuadratic, CheckProbe, DropAxisCmd, Fits;
    var kd, motion := k.(done := true), w.b.modal.motion;
    if w.b.modal.canned {
      CannedTwins(k, w, u);
      DoneOutcomes(k, CheckCanned(w), CheckCanned(u));
    } else if motion.Linear? {
      DropTwins(k, w, u);
    } else if motion.Arc() {
      ArcTwins(m, k, w, u);
    } else if motion.CubicSpline? {
      CubicTwins(k, w, u);
    } else if motion.QuadraticSpline? {
      QuadraticTwins(k, w, u);
    } else {
      ProbeTwins(k, w, u);
      Done(k, w, u);
      GoTwins(kd, w, u);
    }
  }

  lemma DoneOutcomes(k: Lengths, o: Outcome, p: Outcome)
    requires TwinOutcomes(k, o, p)
    ensures TwinOutcomes(k.(done := true), o, p)
  {
    hide Twins, AlikeStates;
    if o.Go? {
      Done(k, o.w, p.w);
    }
  }

  lemma FeedMotionIs(m: Machine, w: Work)
    ensures var w1 := if w.b.modal.canned then w else ForgetRetract(w);
            CheckFeedMotion(m, w) ==
              if w1.b.modal.motion.SpindleSync? || w1.b.modal.motion.Threading? then Stop(UnsupportedCommand, w1.st)
              else if w1.b.values.f == 0.0 then Stop(UndefinedFeedRate, w1.st)
              else CheckMode(m, w1)
  {
    hide ForgetRetract, CheckMode;
  }

  lemma FeedMotionTwins(m: Machine, k: Lengths, w: Work, u: Work)
    requires Twins(k, w, u) && !k.done && k.worded && k.sameAxes && k.sameFeed && w.b.axisCmd.MotionCmd?
    ensures TwinOutcomes(k.(done := true), CheckFeedMotion(m, w), CheckFeedMotion(m, u))
  {
    hide *;
    TwinsMean(k, w, u);
    TwinModes(w, u);
    FeedMotionIs(m, w);
    FeedMotionIs(m, u);
    ForgetTwins(k, w, u);
    var w1 := if w.b.modal.canned then w else ForgetRetract(w);
    var u1 := if w.b.modal.canned then u else ForgetRetract(u);
    TwinsMean(k, w1, u1);
    TwinModes(w1, u1);
    StopTwins(k.(done := true), w1, u1);
    ModeTwins(m, k, w1, u1);
  }

  lemma MotionTwins(m: Machine, k: Lengths, w: Work, u: Work)
    requires Twins(k, w, u) && !k.done && k.worded && k.sameAxes && k.sameFeed
    ensures TwinOutcomes(k.(done := true), CheckMotion(m, w), CheckMotion(m, u))
  {
    TwinsMean(k, w, u);
    TwinModes(w, u);
    TwinBlocks(w, u);
    hide Twin, Twins, TwinOutcomes, CheckFeedMotion, DropAxisCmd, ForgetRetract, Fits;
    var kd := k.(done := true);
    if w.b.modal.motion.NoMotion? {
      StopTwins(kd, w, u);
      Done(k, w, u);
      ForgetTwins(kd, w, u);
      GoTwins(kd, ForgetRetract(w), ForgetRetract(u));
    } else if !w.b.axisCmd.MotionCmd? {
      Done(k, w, u);
      GoTwins(kd, w, u);
    } else if w.b.modal.motion.Seek? {
      DropTwins(k, w, u);
    } else {
      FeedMotionTwins(m, k, w, u);
    }
  }

  /** What is left of the difference when all words are used up. */
  ghost predicate Agreed(w: Work, u: Work) {
    && Twin(w, u)
    && u.b.values == w.b.values.(ijk := u.b.values.ijk, q := u.b.values.q, r := u.b.values.r)
    && (!DeadNumbers(w.b) ==> u.b.values == w.b.values)
  }

  lemma NothingLeft(k: Lengths, w: Work, u: Work)
    requires Twins(k, w, u) && w.b.words == {} && k.sameAxes && k.sameFeed
    ensures Agreed(w, u)
  {
    TwinBlocks(w, u);
    hide Twin;
  }

  lemma UseAnything(k: Lengths, w: Work, u: Work, l: set<char>)
    requires Twins(k, w, u) && k.done && ('R' !in l && 'I' !in l && 'J' !in l && 'K' !in l && 'P' !in l && 'Q' !in l)
    ensures Twins(k, Consume(w, l), Consume(u, l))
  {
    TwinNumbers();
    TwinBlocks(w, u);
    hide Twin, Consume, Fits, Measures;
    SetterViews();
    Setters();
  }

  lemma UnusedTwins(k: Lengths, w: Work, u: Work)
    requires Twins(k, w, u) && k.done && k.sameAxes && k.sameFeed
    ensures var o, p := CheckUnused(w), CheckUnused(u);
            match o
            case Stop(status, st) => p.Stop? && p.status == status && AlikeStates(st, p.st)
            case Go(w1) => p.Go? && Agreed(w1, p.w)
  {
    hide Twin, Twins, Consume, AlikeStates, Agreed;
    var l := if w.b.jog then {'N', 'F'} else {'N', 'F', 'S', 'T'};
    UseAnything(k, w, u, l);
    var w1, u1 := Consume(w, l), Consume(u, l);
    TwinFlags(k, w, u);
    TwinFlags(k, w1, u1);
    UseAnything(k, w1, u1, {'X', 'Y', 'Z'});
    var w2 := if w1.b.axisCmd.NoAxisCmd? then w1 else Consume(w1, {'X', 'Y', 'Z'});
    var u2 := if w1.b.axisCmd.NoAxisCmd? then u1 else Consume(u1, {'X', 'Y', 'Z'});
    TwinFlags(k, w2, u2);
    if w2.b.words == {} {
      NothingLeft(k, w2, u2);
    }
  }

  lemma TwinFlags(k: Lengths, w: Work, u: Work)
    requires Twins(k, w, u)
    ensures u.b.jog == w.b.jog && u.b.words == w.b.words && u.b.axisCmd == w.b.axisCmd && AlikeStates(w.st, u.st)
  {
    TwinBlocks(w, u);
  }

  lemma AlikeTwins(w: Work, u: Work)
    requires Twin(w, u)
    ensures AlikeStates(w.st, u.st)
  {
  }

  // ---------------------------------------------------------------- the execution step

  lemma AgreedMeans(w: Work, u: Work)
    requires Agreed(w, u)
    ensures Twin(w, u)
    ensures var v, y := w.b.values, u.b.values; y.f == v.f && y.n == v.n && y.s == v.s && y.t == v.t && y.l == v.l && y.p == v.p && y.xyz == v.xyz
    ensures !DeadNumbers(w.b) ==> u.b.values == w.b.values
  {
    hide Twin;
  }

  lemma BasicsAlike(w: Work, u: Work, st: State, tt: State)
    requires Agreed(w, u) && AlikeStates(st, tt)
    ensures AlikeStates(CommitBasics(w, st), CommitBasics(u, tt))
  {
    AgreedMeans(w, u);
    TwinBlocks(w, u);
    TwinModes(w, u);
    hide Twin, Agreed;
  }

  lemma ToolAlike(w: Work, u: Work, env: Env, st: State, tt: State)
    requires Agreed(w, u) && AlikeStates(st, tt)
    ensures AlikeStates(CommitTool(w, env, st), CommitTool(u, env, tt))
    ensures AlikeStates(CommitToolOffset(w, st), CommitToolOffset(u, tt))
  {
    AgreedMeans(w, u);
    TwinBlocks(w, u);
    TwinModes(w, u);
    hide Twin, Agreed, Pick;
  }

  lemma CoordAlike(w: Work, u: Work, st: State, tt: State)
    requires Twin(w, u) && AlikeStates(st, tt)
    ensures AlikeStates(CommitCoord(w, st), CommitCoord(u, tt))
    ensures AlikeStates(CommitDistance(w, st), CommitDistance(u, tt))
  {
    TwinModes(w, u);
    hide Twin;
  }

  lemma ModesAlike(w: Work, u: Work, env: Env)
    requires Agreed(w, u)
    ensures AlikeStates(CommitModes(w, env), CommitModes(u, env))
  {
    AgreedMeans(w, u);
    AlikeTwins(w, u);
    hide Twin, Agreed, AlikeStates, CommitBasics, CommitTool, CommitToolOffset, CommitCoord, CommitDistance;
    BasicsAlike(w, u, w.st, u.st);
    var st1, tt1 := CommitBasics(w, w.st), CommitBasics(u, u.st);
    ToolAlike(w, u, env, st1, tt1);
    var st2, tt2 := CommitTool(w, env, st1), CommitTool(u, env, tt1);
    ToolAlike(w, u, env, st2, tt2);
    var st3, tt3 := CommitToolOffset(w, st2), CommitToolOffset(u, tt2);
    CoordAlike(w, u, st3, tt3);
    CoordAlike(w, u, CommitCoord(w, st3), CommitCoord(u, tt3));
  }

  lemma OffsetAlike(m: Machine, st: State, tt: State, x: Vec, applied: bool)
    requires AlikeStates(st, tt)
    ensures AlikeStates(SetG92(m, st, x, applied), SetG92(m, tt, x, applied))
    ensures AlikeStates(AddOffset(st.(g92 := x, g92Applied := applied)), AddOffset(tt.(g92 := x, g92Applied := applied)))
    ensures tt.position == st.position && tt.store == st.store
  {
  }

  lemma StoreAlike(w: Work, u: Work, st: State, tt: State)
    requires u.coordId == w.coordId && u.coordData == w.coordData && AlikeStates(st, tt)
    ensures AlikeStates(StoreCoord(w, st), StoreCoord(u, tt))
    ensures AlikeStates(ScalingOff(st.(position := w.coordData)), ScalingOff(tt.(position := w.coordData)))
    ensures AlikeStates(st.(store := st.store[STORE_G28 := st.position]), tt.(store := tt.store[STORE_G28 := tt.position]))
    ensures AlikeStates(st.(store := st.store[STORE_G30 := st.position]), tt.(store := tt.store[STORE_G30 := tt.position]))
  {
  }

  /** The state that a non-modal action leads to, named. */
  lemma ActionIs(m: Machine, w: Work, st: State)
    ensures var r := CommitNonModal(m, w, st);
            match w.b.nonModal
            case SetCoordinateData => r == StoreCoord(w, st)
            case GoHome0 => r == ScalingOff(st.(position := w.coordData))
            case GoHome1 => r == ScalingOff(st.(position := w.coordData))
            case SetHome0 => r == st.(store := st.store[STORE_G28 := st.position])
            case SetHome1 => r == st.(store := st.store[STORE_G30 := st.position])
            case SetOffset => r == SetG92(m, st, w.b.values.xyz, true)
            case ResetOffset => r == SetG92(m, st, ORIGIN, false)
            case ClearOffset => r == AddOffset(st.(g92 := ORIGIN, g92Applied := false))
            case RestoreOffset => r == AddOffset(st.(g92 := st.store[STORE_G92], g92Applied := true))
            case _ => r == st
  {
    hide StoreCoord, ScalingOff, SetG92, AddOffset;
  }

  lemma NonModalAlike(m: Machine, w: Work, u: Work, st: State, tt: State)
    requires Twin(w, u) && u.b.values.xyz == w.b.values.xyz && AlikeStates(st, tt)
    ensures AlikeStates(CommitNonModal(m, w, st), CommitNonModal(m, u, tt))
  {
    assert 0 <= STORE_G28 < 12 && 0 <= STORE_G30 < 12 && 0 <= STORE_G92 < 12;
    hide *;
    TwinBlocks(w, u);
    ActionIs(m, w, st);
    ActionIs(m, u, tt);
    StoreAlike(w, u, st, tt);
    OffsetAlike(m, st, tt, w.b.values.xyz, true);
    OffsetAlike(m, st, tt, ORIGIN, false);
    OffsetAlike(m, st, tt, st.store[STORE_G92], true);
  }

  lemma PositionAlike(w: Work, u: Work, env: Env, st: State, tt: State)
    requires Agreed(w, u) && AlikeStates(st, tt)
    ensures AlikeStates(CommitMotion(w, env, st), CommitMotion(u, env, tt))
  {
    AgreedMeans(w, u);
    TwinBlocks(w, u);
    TwinModes(w, u);
    hide Twin, Agreed;
    assert NewPosition(u, env, tt) == NewPosition(w, env, st);
    hide NewPosition;
  }

  lemma FlowAlike(w: Work, u: Work, env: Env, st: State, tt: State)
    requires Twin(w, u) && AlikeStates(st, tt)
    ensures AlikeStates(CommitFlow(w, env, st), CommitFlow(u, env, tt))
  {
    TwinBlocks(w, u);
    assert EndsProgram(u, env) == EndsProgram(w, env);
    hide Twin, EndsProgram;
    if EndsProgram(w, env) {
      StoresAlike(st, tt);
    }
  }

  lemma StoresAlike(st: State, tt: State)
    requires AlikeStates(st, tt)
    ensures tt.store == st.store && tt.g92 == st.g92 && tt.modal.coord == st.modal.coord && tt.modal.spindle == st.modal.spindle
  {
  }

  lemma PlansAlike(w: Work, u: Work)
    requires Agreed(w, u)
    ensures NewPlan(u) == NewPlan(w) && DwellEvents(u) == DwellEvents(w) && HomeEvents(u) == HomeEvents(w)
  {
    AgreedMeans(w, u);
    TwinMeans(w, u);
    hide Twin, Agreed;
  }

  /** A canned cycle is not an arc or a spline. */
  predicate Cycles(modal: Modal) {
    modal.canned ==> !modal.motion.Arc() && !modal.motion.CubicSpline? && !modal.motion.QuadraticSpline?
  }

  lemma EventsAlike(w: Work, u: Work, st: State, tt: State)
    requires Agreed(w, u) && AlikeStates(st, tt) && Cycles(w.b.modal)
    ensures MotionEvents(u, tt) == MotionEvents(w, st)
  {
    AgreedMeans(w, u);
    TwinBlocks(w, u);
    TwinModes(w, u);
    PlansAlike(w, u);
    LateStates(st, tt);
    hide Twin, Agreed, NewPlan, CubicControls, QuadraticControls;
    if !Moves(w) || DeadNumbers(w.b) {
    } else {
      assert u.b.values == w.b.values;
    }
  }

  lemma LateStates(st: State, tt: State)
    requires AlikeStates(st, tt)
    ensures tt.position == st.position && tt.canned == st.canned && tt.modal.retractToR == st.modal.retractToR
    ensures tt.modal.splinePq == st.modal.splinePq
  {
  }

  /** Twins are executed alike. */
  lemma CommitTwins(m: Machine, w: Work, u: Work, env: Env)
    requires Agreed(w, u) && Cycles(w.b.modal)
    ensures var e, f := Commit(m, w, env), Commit(m, u, env);
            f.status == e.status && f.events == e.events && AlikeStates(e.st, f.st)
  {
    hide Agreed, Twin, CommitModes, CommitNonModal, CommitMotion, CommitFlow, MotionEvents, HomeEvents, DwellEvents, AlikeStates;
    AgreedMeans(w, u);
    ModesAlike(w, u, env);
    var st1, tt1 := CommitModes(w, env), CommitModes(u, env);
    NonModalAlike(m, w, u, st1, tt1);
    var st2, tt2 := CommitNonModal(m, w, st1), CommitNonModal(m, u, tt1);
    PositionAlike(w, u, env, st2, tt2);
    var st3, tt3 := CommitMotion(w, env, st2), CommitMotion(u, env, tt2);
    FlowAlike(w, u, env, st3, tt3);
    PlansAlike(w, u);
    EventsAlike(w, u, st2, tt2);
  }

  lemma JogTwins(m: Machine, w: Work, u: Work)
    requires Agreed(w, u)
    ensures var e, f := CommitJog(m, w), CommitJog(m, u);
            f.status == e.status && f.events == e.events && AlikeStates(e.st, f.st)
  {
    AgreedMeans(w, u);
    TwinBlocks(w, u);
    TwinStates(w, u);
    assert w.b.groups <= {G0, G3, G6} <==> w.b.groups - {G3, G6} <= {G0};
    assert u.b.groups <= {G0, G3, G6} <==> u.b.groups - {G3, G6} <= {G0};
    AlikeGroups(w, u);
    AlikeTwins(w, u);
    hide Twin, Agreed, Machine.JogEnd;
  }

  lemma AlikeGroups(w: Work, u: Work)
    requires Twin(w, u)
    ensures u.b.groups - {G3, G6} == w.b.groups - {G3, G6}
  {
  }
}
