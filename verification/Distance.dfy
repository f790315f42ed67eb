/** From absolute to incremental: a program in G90 can be rewritten for G91 and does the same. */
module Distance {
  import opened GcTypes
  import opened Scanner
  import opened Validation
  import opened Execution
  import opened Frames
  import opened ScanFacts
  import opened WordOrder
  import Offsets
  import Targets
  import opened Meaning
  import SameMeaning
  import Units

  // ---------------------------------------------------------------- the translation

  const G91 := Word('G', Some(91.0))

  /** G90 and G91. */
  predicate IsDistance(m: Machine, w: Word) {
    IsCommand(w) && CommandOf(m, w).Command? && CommandOf(m, w).write.ToIncremental?
  }

  /** The axis words of the block name an absolute point of the active coordinate system. */
  predicate Absolute(b: Block) {
    && !b.modal.incremental && SameMeaning.HasTarget(b)
    && !b.nonModal.SetCoordinateData? && !b.nonModal.SetOffset? && !b.nonModal.AbsoluteOverride?
  }

  /** What lies between such a number and the way to go: coordinate system, G92 and tool offset, less the position. */
  function Shift(st: State, b: Block): Vec {
    if !Absolute(b) then ORIGIN
    else
      var xyz := if G12 in b.groups && st.modal.coord.id != b.modal.coord.id then st.store[b.modal.coord.id] else b.modal.coord.xyz;
      var way := xyz.Plus(st.g92).Plus(st.tlo).Minus(st.position);
      if b.modal.imperial then way.Times(1.0 / MM_PER_INCH) else way
  }

  function ShiftWord(d: Vec, w: Word): Word {
    if w.number.None? then w
    else if w.letter == 'X' then Word('X', Some(w.number.value + d.x))
    else if w.letter == 'Y' then Word('Y', Some(w.number.value + d.y))
    else if w.letter == 'Z' then Word('Z', Some(w.number.value + d.z))
    else w
  }

  function ShiftWords(m: Machine, d: Vec, words: seq<Word>): seq<Word> {
    if words == [] then []
    else (if IsDistance(m, words[0]) then [] else [ShiftWord(d, words[0])]) + ShiftWords(m, d, words[1..])
  }

  function IncrementalLine(m: Machine, st: State, line: Line): Line {
    match ScanLine(m, st, line)
    case Reject(_) => line
    case Accept(b) => if line.words == [] then line else line.(words := [G91] + ShiftWords(m, Shift(st, b), line.words))
  }

  function IncrementalOp(m: Machine, st: State, op: Op): Op {
    if op.Block? then Op.Block(IncrementalLine(m, st, op.line)) else op
  }

  function Incremental(m: Machine, st: State, ops: seq<Op>): seq<Op>
    decreases |ops|
  {
    if ops == [] then [] else [IncrementalOp(m, st, ops[0])] + Incremental(m, Step(m, st, ops[0]).st, ops[1..])
  }

  // ---------------------------------------------------------------- reading translated words

  /** The block of the translated words, with the distance mode set first. */
  function ShiftBlock(d: Vec, b: Block): Block {
    b.(modal := b.modal.(incremental := true), groups := b.groups + {G3},
       values := b.values.(xyz := Pick(b.axisWords, b.values.xyz.Plus(d), b.values.xyz)))
  }

  lemma SlotShifts(d: Vec, b: Block, h: Group)
    ensures SlotOf(ShiftBlock(d, b), h) == if h == G3 then DistanceSlot(true) else SlotOf(b, h)
  {
    hide Pick;
  }

  lemma ShiftMeans(d: Vec, b: Block)
    ensures Rest(ShiftBlock(d, b)) == ShiftBlock(d, Rest(b)).(modal := Rest(b).modal, groups := {})
    ensures ShiftBlock(d, b).axisCmd == b.axisCmd && ShiftBlock(d, b).groups == b.groups + {G3} && ShiftBlock(d, b).words == b.words
  {
    hide Pick;
  }

  lemma SameRestShifts(d: Vec, b: Block, c: Block)
    requires Rest(b) == Rest(c)
    ensures Rest(ShiftBlock(d, b)) == Rest(ShiftBlock(d, c))
  {
    ShiftMeans(d, b);
    ShiftMeans(d, c);
    hide Rest, ShiftBlock;
  }

  lemma GroupsOf(m: Machine, w: Word)
    requires IsCommand(w) && CommandOf(m, w).Command? && CommandOf(m, w).late.None?
    ensures IsDistance(m, w) ==> CommandOf(m, w).group == Some(G3) && CommandOf(m, w).claim.NoClaim? && GroupOf(CommandOf(m, w).write) == Some(G3)
    ensures !IsDistance(m, w) ==> CommandOf(m, w).group != Some(G3) && GroupOf(CommandOf(m, w).write) != Some(G3)
  {
    CommandIsGrouped(m, w);
    hide CommandOf;
  }

  /** A word for the distance mode leaves no trace behind the G91 in front. */
  lemma DroppedWord(m: Machine, d: Vec, b: Block, base: Motion, w: Word)
    requires IsDistance(m, w) && Admits(b, CommandOf(m, w))
    ensures ShiftBlock(d, After(b, base, CommandOf(m, w))) == ShiftBlock(d, b)
  {
    GroupsOf(m, w);
    hide *;
    var c := CommandOf(m, w);
    var x, y := ShiftBlock(d, After(b, base, c)), ShiftBlock(d, b);
    AdmittedCommand(b, c);
    forall h: Group ensures SlotOf(x, h) == SlotOf(y, h) {
      AfterWrites(b, base, c, h);
      SlotShifts(d, b, h);
      SlotShifts(d, After(b, base, c), h);
    }
    AfterWrites(b, base, c, G0);
    SameRestShifts(d, After(b, base, c), b);
    ShiftMeans(d, b);
    ShiftMeans(d, After(b, base, c));
    assert b.groups + {G3} == b.groups + {G3} + {G3};
    SlotsDetermine(x, y);
  }

  lemma AdmittedCommand(b: Block, c: Command)
    requires Admits(b, c)
    ensures c.Command? && c.late.None?
  {
  }

  /** Any other command does to the shifted block what it does to the original. */
  lemma KeptCommand(m: Machine, d: Vec, b: Block, base: Motion, w: Word)
    requires IsCommand(w) && !IsDistance(m, w) && Admits(b, CommandOf(m, w))
    ensures Admits(ShiftBlock(d, b), CommandOf(m, w))
    ensures After(ShiftBlock(d, b), base, CommandOf(m, w)) == ShiftBlock(d, After(b, base, CommandOf(m, w)))
  {
    var c := CommandOf(m, w);
    AdmittedCommand(b, c);
    GroupsOf(m, w);
    ShiftMeans(d, b);
    assert Admits(ShiftBlock(d, b), c);
    hide *;
    var x, y := After(ShiftBlock(d, b), base, c), ShiftBlock(d, After(b, base, c));
    forall h: Group ensures SlotOf(x, h) == SlotOf(y, h) {
      AfterWrites(b, base, c, h);
      AfterWrites(ShiftBlock(d, b), base, c, h);
      SlotShifts(d, b, h);
      SlotShifts(d, After(b, base, c), h);
    }
    AfterWrites(b, base, c, G0);
    AfterWrites(ShiftBlock(d, b), base, c, G0);
    SameRestShifts(d, After(b, base, c), b);
    ShiftMeans(d, After(b, base, c));
    SlotsDetermine(x, y);
  }

  lemma ShiftedPut(d: Vec, b: Block, w: Word)
    requires w.number.Some? && w.letter in VALUE_LETTERS
    ensures ShiftWord(d, w).number.Some? && ShiftWord(d, w).letter == w.letter
    ensures PutWord(ShiftBlock(d, b), w.letter, ShiftWord(d, w).number.value) == ShiftBlock(d, PutWord(b, w.letter, w.number.value))
  {
    ShiftedAxes(d, b.values, b.axisWords, w);
    hide Pick, PutValue;
  }

  lemma ShiftedAxes(d: Vec, v: Values, axes: Axes, w: Word)
    requires w.number.Some? && w.letter in VALUE_LETTERS
    ensures var axes1, v1 := NameAxis(axes, w.letter, 'X', 'Y', 'Z'), PutValue(v, w.letter, w.number.value);
            PutValue(v.(xyz := Pick(axes, v.xyz.Plus(d), v.xyz)), w.letter, ShiftWord(d, w).number.value)
            == v1.(xyz := Pick(axes1, v1.xyz.Plus(d), v1.xyz))
  {
    hide IntPart, Trunc;
  }

  lemma ShiftedWord(m: Machine, d: Vec, base: Motion, b: Block, w: Word)
    requires w.letter != 'O' && Take(m, base, b, w).Accept?
    ensures var c, b1 := ShiftBlock(d, b), Take(m, base, b, w).value;
            if IsDistance(m, w) then ShiftBlock(d, b1) == c else Take(m, base, c, ShiftWord(d, w)) == Accept(ShiftBlock(d, b1))
  {
    var c, u := ShiftBlock(d, b), ShiftWord(d, w);
    TakeMeans(m, base, b, w);
    TakeMeans(m, base, c, u);
    ShiftMeans(d, b);
    if IsCommand(w) {
      assert u == w;
      hide *;
      if IsDistance(m, w) {
        DroppedWord(m, d, b, base, w);
      } else {
        KeptCommand(m, d, b, base, w);
      }
    } else {
      ShiftedValue(d, w);
      NotDistance(m, w);
      hide *;
      ShiftedPut(d, b, w);
    }
  }

  lemma NotDistance(m: Machine, w: Word)
    requires !IsCommand(w)
    ensures !IsDistance(m, w)
  {
  }

  lemma ShiftedValue(d: Vec, w: Word)
    requires FineValue(w) && !IsCommand(w)
    ensures var u := ShiftWord(d, w); FineValue(u) && !IsCommand(u) && u.letter == w.letter && w.number.Some? && w.letter in VALUE_LETTERS
  {
    hide Mantissa, IntPart;
  }

  lemma {:induction false} ShiftedWords(m: Machine, d: Vec, base: Motion, b: Block, words: seq<Word>)
    requires (forall w <- words :: w.letter != 'O') && TakeAll(m, base, b, words).Accept?
    ensures TakeAll(m, base, ShiftBlock(d, b), ShiftWords(m, d, words)) == Accept(ShiftBlock(d, TakeAll(m, base, b, words).value))
    decreases |words|
  {
    hide Take, ShiftWord, ShiftBlock, IsDistance;
    if words != [] {
      var w, t := words[0], words[1..];
      ShiftedWord(m, d, base, b, w);
      var b1 := Take(m, base, b, w).value;
      ShiftedWords(m, d, base, b1, t);
      if IsDistance(m, w) {
        assert ShiftWords(m, d, words) == ShiftWords(m, d, t);
      } else {
        TakeConcat(m, base, ShiftBlock(d, b), [ShiftWord(d, w)], ShiftWords(m, d, t));
        TakeOne(m, base, ShiftBlock(d, b), ShiftWord(d, w));
      }
    }
  }

  lemma {:induction false} ShiftedNoO(m: Machine, d: Vec, words: seq<Word>)
    requires forall w <- words :: w.letter != 'O'
    ensures forall w <- ShiftWords(m, d, words) :: w.letter != 'O' && !IsDistance(m, w)
    decreases |words|
  {
    if words != [] {
      ShiftedNoO(m, d, words[1..]);
      ShiftKeepsLetter(m, d, words[0]);
      hide IsDistance, ShiftWord;
    }
  }

  lemma ShiftKeepsLetter(m: Machine, d: Vec, w: Word)
    ensures ShiftWord(d, w).letter == w.letter
    ensures IsDistance(m, ShiftWord(d, w)) <==> IsDistance(m, w)
  {
    hide CommandOf;
  }

  lemma Decoded91(m: Machine)
    ensures IsCommand(G91) && CommandOf(m, G91) == Command(Some(G3), NoClaim, None, ToIncremental(true))
  {
    assert IntPart(91.0) == 91 && Mantissa(91.0) == 0;
  }

  /** The states that a program and its translation reach: only the distance mode may differ. */
  ghost predicate SameButDistance(st: State, tt: State) {
    tt == st.(modal := st.modal.(incremental := tt.modal.incremental))
  }

  lemma FirstWord(m: Machine, d: Vec, st: State, tt: State, jog: bool)
    requires SameButDistance(st, tt)
    ensures Take(m, tt.modal.motion, NewBlock(tt, jog), G91) == Accept(ShiftBlock(d, NewBlock(st, jog)))
  {
    var b, base := NewBlock(tt, jog), tt.modal.motion;
    TakeMeans(m, base, b, G91);
    Decoded91(m);
    hide CommandOf, Take;
    assert Admits(b, CommandOf(m, G91));
    assert After(b, base, CommandOf(m, G91)) == ShiftBlock(d, NewBlock(st, jog));
  }

  /** The scanner makes of a translated line the shifted block. */
  lemma LineShifts(m: Machine, st: State, tt: State, line: Line)
    requires SameButDistance(st, tt) && line.words != []
    requires ScanLine(m, st, line).Accept? && forall w <- line.words :: w.letter != 'O'
    ensures var b := ScanLine(m, st, line).value;
            ScanLine(m, tt, IncrementalLine(m, st, line)) == Accept(ShiftBlock(Shift(st, b), b))
  {
    hide ScanWords, TakeAll, NewBlock, ShiftBlock, ShiftWords, Shift;
    var base := st.modal.motion;
    var b := ScanLine(m, st, line).value;
    var d := Shift(st, b);
    var words := ShiftWords(m, d, line.words);
    ScanTakesAll(m, base, Scan(NewBlock(st, line.jog), 0), line.words);
    ShiftedWords(m, d, base, NewBlock(st, line.jog), line.words);
    ShiftedNoO(m, d, line.words);
    ScanTakesAll(m, base, Scan(NewBlock(tt, line.jog), 0), [G91] + words);
    FirstWord(m, d, st, tt, line.jog);
    TakeConcat(m, base, NewBlock(tt, line.jog), [G91], words);
    TakeOne(m, base, NewBlock(tt, line.jog), G91);
  }

  // ---------------------------------------------------------------- executing translated lines

  const LENGTHS := Lengths(false, false, false, false, false, false)

  lemma ShiftedTwin(d: Vec, st: State, tt: State, b: Block)
    requires SameButDistance(st, tt) && !b.modal.canned
    ensures Twin(Fresh(st, b), Fresh(tt, ShiftBlock(d, b)))
    ensures ViewOf(ShiftBlock(d, b)) == ViewOf(b)
  {
    var c := ShiftBlock(d, b);
    assert c.groups - {G3, G6} == b.groups - {G3, G6};
    hide Pick;
  }

  lemma ShiftedNumbers(d: Vec, b: Block)
    requires b.ijkWords == Axes('I' in b.words, 'J' in b.words, 'K' in b.words)
    requires ('I' !in b.words ==> b.values.ijk.x == 0.0) && ('J' !in b.words ==> b.values.ijk.y == 0.0)
    ensures SameNumbers(LENGTHS, ViewOf(b), ViewOf(b), b.values, ShiftBlock(d, b).values)
    ensures Fits(LENGTHS, ViewOf(b), ViewOf(b))
  {
    hide Pick, ImpliedCmd;
  }

  lemma ShiftedFeed(d: Vec, st: State, tt: State, b: Block)
    requires SameButDistance(st, tt)
    ensures SameFeed(Fresh(st, b), Fresh(tt, ShiftBlock(d, b)))
  {
    hide Pick;
  }

  lemma PutAnyAxes(k: Lengths, w: Work, u: Work, x: Vec, y: Vec)
    requires Twins(k, w, u) && !k.sameAxes
    ensures Twins(k, SetValues(w, w.b.values.(xyz := x)), SetValues(u, u.b.values.(xyz := y)))
  {
    TwinNumbers();
    hide Twin, SetValues, ViewOf, Measures, Fits;
    SetterViews();
    Setters();
  }

  lemma ConvertAnyTwins(k: Lengths, w: Work, u: Work)
    requires Twins(k, w, u) && !k.sameAxes
    ensures Twins(k, ConvertUnits(w), ConvertUnits(u))
  {
    SameMeaning.ConvertPuts(w);
    SameMeaning.ConvertPuts(u);
    hide *;
    PutAnyAxes(k, w, u, Millimetres(w.b), Millimetres(u.b));
  }

  /** Scaling off, the axis checks begin with the target. */
  lemma UnscaledAxes(m: Machine, w: Work)
    requires !w.b.axisCmd.ScalingCmd? && !w.st.modal.scaling
    ensures var w0 := ConvertUnits(w);
            CheckAxes(m, w) == if CheckToolOffset(w0).Go? then CheckNonModal(m, SelectCoord(w0)) else CheckToolOffset(w0)
    ensures CheckToolOffset(ConvertUnits(w)).Go? ==> CheckToolOffset(ConvertUnits(w)).w == ConvertUnits(w)
  {
    ConvertKeeps(w);
    hide ConvertUnits, CheckNonModal, SelectCoord;
  }

  /** The axis words of `u` are those of `w`, shifted and incremental. */
  ghost predicate Shifted(w: Work, u: Work) {
    && u.b.modal.incremental && u.b.modal.imperial == w.b.modal.imperial
    && u.b.values.xyz == Pick(w.b.axisWords, w.b.values.xyz.Plus(Shift(w.st, w.b)), w.b.values.xyz)
  }

  lemma ShiftInMillimetres(axes: Axes, v: Vec, d: Vec, way: Vec, inches: bool, u: Vec)
    requires d == if inches then way.Times(1.0 / MM_PER_INCH) else way
    requires u == Pick(axes, v.Plus(d), v)
    ensures (if inches then Pick(axes, u.Times(MM_PER_INCH), u) else u)
            == Pick(axes, (if inches then v.Times(MM_PER_INCH) else v).Plus(way), v)
  {
  }

  lemma NoShift(axes: Axes, v: Vec)
    ensures Pick(axes, v.Plus(ORIGIN), v) == v
  {
  }

  /** The way to an absolute point, seen from the position. */
  lemma WayThere(axes: Axes, mm: Vec, raw: Vec, offset: Vec, position: Vec)
    ensures var u := Pick(axes, mm.Plus(offset.Minus(position)), raw);
            Pick(axes, u.Plus(position), position) == Pick(axes, mm.Plus(offset), position)
  {
  }

  /** Both blocks head for the same point. */
  lemma SamePoint(k: Lengths, w: Work, u: Work)
    requires Twins(k, w, u) && Shifted(w, u)
    requires Twins(k, SelectCoord(ConvertUnits(w)), SelectCoord(ConvertUnits(u)))
    ensures SameMeaning.SameAxes(SelectCoord(ConvertUnits(w)), SelectCoord(ConvertUnits(u)))
  {
    var w1, u1 := SelectCoord(ConvertUnits(w)), SelectCoord(ConvertUnits(u));
    TwinsMean(k, w1, u1);
    TwinMeans(w1, u1);
    Targets.SelectedWork(w);
    Targets.SelectedWork(u);
    AskedMeans(w1.b, w.b);
    AskedMeans(u1.b, u.b);
    hide Twins, Twin, ConvertUnits, SelectCoord, Asked;
    PointOf(w, u, w1, u1);
  }

  lemma PointOf(w: Work, u: Work, w1: Work, u1: Work)
    requires Shifted(w, u)
    requires w1.st == w.st && w1.b.axisWords == w.b.axisWords && w1.b.nonModal == w.b.nonModal && w1.b.axisCmd == w.b.axisCmd
    requires w1.b.modal.motion == w.b.modal.motion && w1.b.modal.incremental == w.b.modal.incremental
    requires w1.b.modal.coord == SelectedCoord(w) && w1.b.values.xyz == Millimetres(w.b) && u1.b.values.xyz == Millimetres(u.b)
    requires u1.b.axisWords == w1.b.axisWords && u1.b.nonModal == w1.b.nonModal && u1.b.modal.incremental
    requires u1.st.position == w1.st.position && u.b.axisWords == w.b.axisWords
    requires w1.b.nonModal.AbsoluteOverride? || u1.b.modal.coord == w1.b.modal.coord
    ensures SameMeaning.SameAxes(w1, u1)
  {
    var axes, v := w.b.axisWords, w.b.values.xyz;
    if !Absolute(w.b) {
      NoShift(axes, v);
      assert u1.b.values.xyz == w1.b.values.xyz;
      hide Pick;
    } else {
      var way := SelectedCoord(w).xyz.Plus(w.st.g92).Plus(w.st.tlo).Minus(w.st.position);
      SelectedXyz(w);
      assert Shift(w.st, w.b) == if w.b.modal.imperial then way.Times(1.0 / MM_PER_INCH) else way;
      ShiftInMillimetres(axes, v, Shift(w.st, w.b), way, w.b.modal.imperial, u.b.values.xyz);
      var mm := if w.b.modal.imperial then v.Times(MM_PER_INCH) else v;
      WayThere(axes, mm, v, SelectedCoord(w).xyz.Plus(w.st.g92).Plus(w.st.tlo), w.st.position);
      PickTwice(axes, mm, v, SelectedCoord(w).xyz.Plus(w.st.g92).Plus(w.st.tlo), w.st.position);
      hide Pick, SelectedCoord, Vec.Plus, Vec.Minus, Vec.Times;
    }
  }

  lemma SelectedXyz(w: Work)
    ensures SelectedCoord(w).xyz == if G12 in w.b.groups && w.st.modal.coord.id != w.b.modal.coord.id
                                    then w.st.store[w.b.modal.coord.id] else w.b.modal.coord.xyz
  {
  }

  lemma PickTwice(axes: Axes, mm: Vec, raw: Vec, offset: Vec, position: Vec)
    ensures Pick(axes, Pick(axes, mm, raw).Plus(offset), position) == Pick(axes, mm.Plus(offset), position)
  {
  }

  lemma ShiftSame(w0: Work, w1: Work)
    requires Same(w0, w1) && w1.b.axisCmd == ImpliedCmd(w0.b) && w1.b.values.xyz == w0.b.values.xyz
    ensures Shift(w1.st, w1.b) == Shift(w0.st, w0.b)
  {
    AskedMeans(w1.b, w0.b);
  }

  lemma WordsShifted(m: Machine, st: State, tt: State, b: Block)
    requires SameButDistance(st, tt)
    ensures var o, p := CheckWords(m, Fresh(st, b)), CheckWords(m, Fresh(tt, ShiftBlock(Shift(st, b), b)));
            o.Go? && p.Go? ==> Shifted(o.w, p.w)
  {
    var c := ShiftBlock(Shift(st, b), b);
    var o, p := CheckWords(m, Fresh(st, b)), CheckWords(m, Fresh(tt, c));
    assert c.modal.incremental && c.modal.imperial == b.modal.imperial;
    assert c.values.xyz == Pick(b.axisWords, b.values.xyz.Plus(Shift(st, b)), b.values.xyz);
    hide CheckWords, FeedOf, Asked, ShiftBlock, Shift, Pick;
    WordsKeep(m, Fresh(st, b));
    WordsKeep(m, Fresh(tt, c));
    if o.Go? && p.Go? {
      ShiftSame(Fresh(st, b), o.w);
      AskedMeans(o.w.b, b);
      AskedMeans(p.w.b, c);
    }
  }

  lemma AxesShiftedTwins(m: Machine, k: Lengths, w: Work, u: Work)
    requires Twins(k, w, u) && !k.done && !k.sameAxes && Shifted(w, u)
    requires !w.b.axisCmd.ScalingCmd? && !w.st.modal.scaling
    ensures TwinOutcomes(k.(sameAxes := true), CheckAxes(m, w), CheckAxes(m, u))
  {
    TwinsMean(k, w, u);
    TwinBlocks(w, u);
    TwinStates(w, u);
    UnscaledAxes(m, w);
    UnscaledAxes(m, u);
    hide *;
    ConvertAnyTwins(k, w, u);
    var w0, u0 := ConvertUnits(w), ConvertUnits(u);
    Units.ToolOffsetTwins(k, k.(sameAxes := true), w0, u0);
    if CheckToolOffset(w0).Go? {
      SameMeaning.SelectTwins(k, w0, u0);
      SamePoint(k, w, u);
      SameMeaning.NonModalTwins(m, k, SelectCoord(w0), SelectCoord(u0));
    }
  }

  /** Why a canned cycle is left out: with the same retract position and the same target, the depth of the hole in G91 is
      that of G90 exactly if the tool already stands at the retract position. */
  lemma CycleDepths(w: Work)
    requires !w.b.modal.incremental && w.b.axisWords.Has(w.b.modal.plane.AxisLinear())
    ensures var linear := w.b.modal.plane.AxisLinear();
            var u := w.(b := w.b.(modal := w.b.modal.(incremental := true)));
            var c, d := CannedTarget(w).st.canned, CannedTarget(u).st.canned;
            && c.xyz.At(linear) == w.b.values.xyz.At(linear)
            && (d.xyz.At(linear) == c.xyz.At(linear) <==> w.st.canned.retract == w.st.position.At(linear))
            && d == c.(xyz := d.xyz) && d.xyz.Put(linear, 0.0) == c.xyz.Put(linear, 0.0)
  {
  }

  /** Nor can the words be chosen otherwise: two blocks with the same hole and the same retract position, one in G90 and one in
      G91, hand on the same target, and after G85 the same position, exactly if the tool stands at the retract position. */
  lemma CycleTargets(w: Work, u: Work)
    requires !w.b.modal.incremental && u.b.modal.incremental && w.b.axisWords.Has(w.b.modal.plane.AxisLinear())
    requires u.st == w.st && u.b.modal.plane == w.b.modal.plane && u.b.axisWords == w.b.axisWords
    requires CannedTarget(u).st.canned == CannedTarget(w).st.canned
    ensures var linear := w.b.modal.plane.AxisLinear();
            u.b.values.xyz.At(linear) == w.b.values.xyz.At(linear) <==> w.st.canned.retract == w.st.position.At(linear)
  {
  }

  /** What the translation asks of a line: no O word, no scaling, no canned cycle. */
  ghost predicate Shiftable(m: Machine, st: State, line: Line) {
    && (forall w <- line.words :: w.letter != 'O')
    && !st.modal.scaling
    && (ScanLine(m, st, line).Accept? ==> !ScanLine(m, st, line).value.modal.canned && !ScanLine(m, st, line).value.axisCmd.ScalingCmd?)
  }

  lemma ShiftedBlockTwins(m: Machine, st: State, tt: State, line: Line)
    requires SameButDistance(st, tt) && ScanLine(m, st, line).Accept? && !ScanLine(m, st, line).value.modal.canned
    ensures var b := ScanLine(m, st, line).value; Twins(LENGTHS, Fresh(st, b), Fresh(tt, ShiftBlock(Shift(st, b), b)))
  {
    hide *;
    var b := ScanLine(m, st, line).value;
    Units.ReadZero(m, st, line);
    FreshIs(st, b);
    FreshIs(tt, ShiftBlock(Shift(st, b), b));
    ShiftedTwin(Shift(st, b), st, tt, b);
    ShiftedNumbers(Shift(st, b), b);
    MakeTwins(LENGTHS, Fresh(st, b), Fresh(tt, ShiftBlock(Shift(st, b), b)), b, ShiftBlock(Shift(st, b), b));
  }

  lemma MakeTwins(k: Lengths, w: Work, u: Work, b: Block, c: Block)
    requires w.b == b && u.b == c && Twin(w, u) && ViewOf(c) == ViewOf(b)
    requires SameNumbers(k, ViewOf(b), ViewOf(b), b.values, c.values) && Fits(k, ViewOf(b), ViewOf(b))
    ensures Twins(k, w, u)
  {
    hide SameNumbers, Fits, ViewOf, Twin;
  }

  lemma ShiftedFlags(d: Vec, b: Block)
    ensures var c := ShiftBlock(d, b); c.jog == b.jog && c.flow == b.flow && c.modal.imperial == b.modal.imperial
  {
    hide Pick;
  }

  /** Between the word checks and the axis checks. */
  lemma ScalingStillOff(m: Machine, st: State, b: Block)
    requires !st.modal.scaling && !b.axisCmd.ScalingCmd?
    ensures var o := CheckWords(m, Fresh(st, b)); o.Go? ==> !o.w.st.modal.scaling && !o.w.b.axisCmd.ScalingCmd?
  {
    hide CheckWords, FeedOf, Asked;
    WordsKeep(m, Fresh(st, b));
  }

  lemma NotCanned(b: Block)
    requires !b.modal.canned
    ensures Cycles(b.modal)
  {
  }

  lemma FreshIs(st: State, b: Block)
    ensures Fresh(st, b).st == st && Fresh(st, b).b == b
    ensures !LENGTHS.done && !LENGTHS.sameAxes
  {
  }

  lemma ShiftedExecutes(m: Machine, st: State, tt: State, line: Line)
    requires SameButDistance(st, tt) && ScanLine(m, st, line).Accept? && Shiftable(m, st, line)
    ensures var b := ScanLine(m, st, line).value;
            SameMeaning.Alike(ExecuteBlock(m, st, b, line.env), ExecuteBlock(m, tt, ShiftBlock(Shift(st, b), b), line.env))
  {
    var b := ScanLine(m, st, line).value;
    assert !b.modal.canned && !b.axisCmd.ScalingCmd? && !st.modal.scaling;
    hide *;
    var c := ShiftBlock(Shift(st, b), b);
    var w, u := Fresh(st, b), Fresh(tt, c);
    FreshIs(st, b);
    FreshIs(tt, c);
    ShiftedBlockTwins(m, st, tt, line);
    ShiftedFeed(Shift(st, b), st, tt, b);
    WordsTwins(m, LENGTHS, w, u);
    var k := LENGTHS.(sameFeed := true, worded := true);
    Units.WordsGo(k, CheckWords(m, w), CheckWords(m, u));
    WordsShifted(m, st, tt, b);
    ScalingStillOff(m, st, b);
    NotCanned(b);
    if CheckWords(m, w).Go? {
      AxesShiftedTwins(m, k, CheckWords(m, w).w, CheckWords(m, u).w);
    }
    SameMeaning.BlockTwins(m, LENGTHS, st, tt, b, c, line.env);
  }

  // ---------------------------------------------------------------- the theorem

  ghost predicate SameRun(e: Executed, f: Executed) {
    f.status == e.status && f.events == e.events && SameButDistance(e.st, f.st)
  }

  lemma DistanceIsAlike(st: State, tt: State)
    requires SameButDistance(st, tt)
    ensures AlikeStates(st, tt) && tt.modal.imperial == st.modal.imperial
  {
  }

  lemma AlikeBut(m: Machine, st: State, tt: State, b: Block, c: Block, env: Env)
    requires SameMeaning.Alike(ExecuteBlock(m, st, b, env), ExecuteBlock(m, tt, c, env)) && SameButDistance(st, tt)
    requires c.jog == b.jog && c.flow == b.flow && c.modal.imperial == b.modal.imperial
    ensures SameRun(ExecuteBlock(m, st, b, env), ExecuteBlock(m, tt, c, env))
  {
    SameMeaning.AlikeModes(m, st, tt, b, c, env);
    Offsets.ExecutedModes(m, st, b, env);
    hide ExecuteBlock;
  }

  lemma IncrementalShape(m: Machine, st: State, line: Line)
    ensures var l := IncrementalLine(m, st, line); l.jog == line.jog && l.env == line.env && (l.words == [] <==> line.words == [])
    ensures line.words == [] ==> IncrementalLine(m, st, line) == line
    ensures ScanLine(m, st, line).Reject? ==> IncrementalLine(m, st, line) == line
  {
    hide ScanLine, ShiftWords, Shift;
  }

  /** A jog without words is refused: it has no feed. */
  lemma EmptyLine(m: Machine, st: State, tt: State, line: Line)
    requires SameButDistance(st, tt) && line.words == []
    ensures SameRun(Execute(m, st, line), Execute(m, tt, line))
  {
    if line.jog {
      EmptyJog(m, st, line);
      EmptyJog(m, tt, line);
    }
    hide ScanLine, ExecuteBlock;
  }

  lemma EmptyJog(m: Machine, st: State, line: Line)
    requires line.words == [] && line.jog
    ensures Execute(m, st, line) == Executed(UndefinedFeedRate, st, [])
  {
    var b := NewBlock(st, true);
    assert ScanLine(m, st, line) == Accept(b);
    assert CheckWords(m, Fresh(st, b)) == Stop(UndefinedFeedRate, st);
    hide CheckWords, ScanLine, CheckAxes, CheckMotion, CheckUnused;
  }

  /** A translated line is answered alike, moves alike and leaves the same state but for the distance mode. */
  lemma LineGoesIncremental(m: Machine, st: State, tt: State, line: Line)
    requires SameButDistance(st, tt) && Shiftable(m, st, line)
    ensures SameRun(Execute(m, st, line), Execute(m, tt, IncrementalLine(m, st, line)))
  {
    IncrementalShape(m, st, line);
    DistanceIsAlike(st, tt);
    SameMeaning.RefusedLine(m, st, tt, line);
    if line.words == [] {
      EmptyLine(m, st, tt, line);
    } else if ScanLine(m, st, line).Accept? {
      var b := ScanLine(m, st, line).value;
      LineShifts(m, st, tt, line);
      ShiftedExecutes(m, st, tt, line);
      ShiftedFlags(Shift(st, b), b);
      AlikeBut(m, st, tt, b, ShiftBlock(Shift(st, b), b), line.env);
    }
    hide ScanLine, ExecuteBlock, IncrementalLine, Shiftable;
  }

  lemma StepGoesIncremental(m: Machine, st: State, tt: State, op: Op)
    requires SameButDistance(st, tt) && (op.Block? ==> Shiftable(m, st, op.line))
    ensures SameRun(Step(m, st, op), Step(m, tt, IncrementalOp(m, st, op)))
  {
    if op.Block? {
      LineGoesIncremental(m, st, tt, op.line);
    }
    hide Execute, IncrementalLine, Shiftable;
  }

  ghost predicate AllShiftable(m: Machine, st: State, ops: seq<Op>)
    decreases |ops|
  {
    ops == [] || ((ops[0].Block? ==> Shiftable(m, st, ops[0].line)) && AllShiftable(m, Step(m, st, ops[0]).st, ops[1..]))
  }

  /** The incremental program gets the same answers, makes the same moves and ends in the same place. */
  lemma {:induction false} ProgramGoesIncremental(m: Machine, st: State, tt: State, ops: seq<Op>)
    requires SameButDistance(st, tt) && AllShiftable(m, st, ops)
    ensures var t := Incremental(m, st, ops);
            && Units.Answers(m, tt, t) == Units.Answers(m, st, ops)
            && Trace(m, tt, t) == Trace(m, st, ops)
            && SameButDistance(Run(m, st, ops), Run(m, tt, t))
    decreases |ops|
  {
    if ops != [] {
      StepGoesIncremental(m, st, tt, ops[0]);
      hide Step, Shiftable, IncrementalOp, SameButDistance;
      ProgramGoesIncremental(m, Step(m, st, ops[0]).st, Step(m, tt, IncrementalOp(m, st, ops[0])).st, ops[1..]);
    }
  }
}
