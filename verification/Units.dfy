/** From inches to millimetres: a program in G20 can be rewritten for G21 and does the same. */
module Units {
  import opened GcTypes
  import opened Scanner
  import opened Validation
  import opened Execution
  import opened Frames
  import opened ScanFacts
  import opened WordOrder
  import Offsets
  import opened Meaning
  import SameMeaning
  import C = Curves

  // ---------------------------------------------------------------- the translation

  /** What the numbers of a block are: which of F, P and Q are lengths, and whether lengths are in inches. */
  datatype Kind = Kind(inches: bool, f: bool, p: bool, q: bool)

  function KindOf(b: Block): Kind {
    var motion, moves := b.modal.motion, ImpliedCmd(b).MotionCmd?;
    Kind(b.modal.imperial,
         b.jog || (!motion.SpindleSync? && !b.modal.feedMode.InverseTime?),
         motion.CubicSpline? && moves && M9 !in b.groups && !b.nonModal.Dwell? && !b.modal.canned,
         (motion.CubicSpline? || motion.ChipBreak? || motion.Canned83?) && moves && !b.setTool)
  }

  predicate IsLength(k: Kind, letter: char) {
    || letter in {'X', 'Y', 'Z', 'I', 'J', 'K', 'R'}
    || (letter == 'F' && k.f) || (letter == 'P' && k.p) || (letter == 'Q' && k.q)
  }

  function Converted(convert: bool, x: real): real {
    if convert then x * MM_PER_INCH else x
  }

  predicate IsInches(m: Machine, w: Word) {
    IsCommand(w) && CommandOf(m, w).Command? && CommandOf(m, w).write == ToImperial(true)
  }

  function TranslateWord(m: Machine, k: Kind, w: Word): Word {
    if IsInches(m, w) then Word('G', Some(21.0))
    else if w.number.Some? then Word(w.letter, Some(Converted(k.inches && IsLength(k, w.letter), w.number.value)))
    else w
  }

  function TranslateWords(m: Machine, k: Kind, words: seq<Word>): seq<Word> {
    if words == [] then [] else [TranslateWord(m, k, words[0])] + TranslateWords(m, k, words[1..])
  }

  /** A line that the scanner refuses stays as it is. */
  function TranslateLine(m: Machine, st: State, line: Line): Line {
    match ScanLine(m, st, line)
    case Reject(_) => line
    case Accept(b) => line.(words := TranslateWords(m, KindOf(b), line.words))
  }

  function TranslateOp(m: Machine, st: State, op: Op): Op {
    if op.Block? then Op.Block(TranslateLine(m, st, op.line)) else op
  }

  /** The translator follows the modes of the program it translates. */
  function Translate(m: Machine, st: State, ops: seq<Op>): seq<Op>
    decreases |ops|
  {
    if ops == [] then [] else [TranslateOp(m, st, ops[0])] + Translate(m, Step(m, st, ops[0]).st, ops[1..])
  }

  // ---------------------------------------------------------------- reading translated words

  function ConvertValues(k: Kind, v: Values): Values {
    if !k.inches then v
    else v.(xyz := v.xyz.Times(MM_PER_INCH), ijk := v.ijk.Times(MM_PER_INCH), r := v.r * MM_PER_INCH,
            f := Converted(k.f, v.f), p := Converted(k.p, v.p), q := Converted(k.q, v.q))
  }

  /** The block of the translated words. */
  function ConvertBlock(k: Kind, b: Block): Block {
    b.(modal := b.modal.(imperial := false), values := ConvertValues(k, b.values))
  }

  function Metric(write: Write): Write {
    if write == ToImperial(true) then ToImperial(false) else write
  }

  lemma SlotConverts(k: Kind, b: Block, h: Group)
    ensures SlotOf(ConvertBlock(k, b), h) == if h == G6 then UnitSlot(false) else SlotOf(b, h)
  {
    hide ConvertValues;
  }

  lemma MetricWrites(base: Motion, write: Write, s: Slot)
    ensures GroupOf(Metric(write)) == GroupOf(write)
    ensures GroupOf(write) == Some(G6) ==> Written(base, Metric(write), s) == UnitSlot(false)
    ensures GroupOf(write) != Some(G6) ==> Metric(write) == write
  {
  }

  lemma RestConverts(k: Kind, b: Block)
    ensures Rest(ConvertBlock(k, b)) == ConvertBlock(k, Rest(b))
    ensures ConvertBlock(k, b).axisCmd == b.axisCmd && ConvertBlock(k, b).groups == b.groups
  {
    hide ConvertValues;
  }

  lemma PerformConverts(k: Kind, b: Block, base: Motion, write: Write)
    ensures Perform(ConvertBlock(k, b), base, Metric(write)) == ConvertBlock(k, Perform(b, base, write))
  {
    hide *;
    var c := ConvertBlock(k, b);
    var x, y := Perform(c, base, Metric(write)), ConvertBlock(k, Perform(b, base, write));
    forall h: Group ensures SlotOf(x, h) == SlotOf(y, h) {
      PerformIsLocal(c, base, Metric(write), h);
      PerformIsLocal(b, base, write, h);
      SlotConverts(k, b, h);
      SlotConverts(k, Perform(b, base, write), h);
      MetricWrites(base, write, SlotOf(b, h));
      MetricWrites(base, write, SlotOf(c, h));
    }
    PerformKeepsRest(c, base, Metric(write));
    PerformKeepsRest(b, base, write);
    RestConverts(k, b);
    RestConverts(k, Perform(b, base, write));
    SlotsDetermine(x, y);
  }

  lemma CommandConverts(k: Kind, b: Block, base: Motion, c: Command)
    requires ScanCommand(b, base, c).Accept?
    ensures ScanCommand(ConvertBlock(k, b), base, if c.Command? then c.(write := Metric(c.write)) else c)
            == Accept(ConvertBlock(k, ScanCommand(b, base, c).value))
  {
    Admitted(b, base, c);
    var b1 := TakeAxes(b, c.claim);
    PerformConverts(k, b1, base, c.write);
    TakeConverts(k, b, c.claim, c.group);
    TakeConverts(k, Perform(b1, base, c.write), c.claim, c.group);
    hide Perform, Metric, TakeAxes, Enter;
    assert ConvertBlock(k, b).axisCmd == b.axisCmd && ConvertBlock(k, b).groups == b.groups;
    hide ConvertBlock;
  }

  lemma TakeConverts(k: Kind, b: Block, claim: Claim, group: Option<Group>)
    ensures TakeAxes(ConvertBlock(k, b), claim) == ConvertBlock(k, TakeAxes(b, claim))
    ensures Enter(ConvertBlock(k, b), group) == ConvertBlock(k, Enter(b, group))
  {
    hide ConvertValues;
  }

  lemma PutLength(k: Kind, v: Values, letter: char, x: real)
    requires letter in {'X', 'Y', 'Z', 'I', 'J', 'K', 'R', 'F', 'P', 'Q'}
    ensures PutValue(ConvertValues(k, v), letter, Converted(k.inches
            && IsLength(k, letter), x)) == ConvertValues(k, PutValue(v, letter, x))
  {
  }

  lemma PutNumber(k: Kind, v: Values, letter: char, x: real)
    requires letter in {'A', 'B', 'C', 'D', 'E', 'H', 'L', 'N', 'O', 'S', 'T', 'U', 'V', 'W', '$'}
    ensures PutValue(ConvertValues(k, v), letter, x) == ConvertValues(k, PutValue(v, letter, x))
  {
    hide IntPart, Trunc;
  }

  lemma WordConverts(k: Kind, b: Block, letter: char, x: real)
    requires letter in VALUE_LETTERS
    ensures PutWord(ConvertBlock(k, b), letter, Converted(k.inches
            && IsLength(k, letter), x)) == ConvertBlock(k, PutWord(b, letter, x))
  {
    if letter in {'X', 'Y', 'Z', 'I', 'J', 'K', 'R', 'F', 'P', 'Q'} {
      PutLength(k, b.values, letter, x);
    } else {
      PutNumber(k, b.values, letter, x);
    }
    hide PutValue, ConvertValues, NameAxis;
  }

  lemma Decoded21(m: Machine)
    ensures IsCommand(Word('G', Some(21.0))) && CommandOf(m, Word('G', Some(21.0))) == Command(Some(G6), NoClaim, None, ToImperial(false))
  {
    assert IntPart(21.0) == 21 && Mantissa(21.0) == 0;
  }

  /** G20 is the only word that asks for inches. */
  lemma InchWord(m: Machine, w: Word)
    requires IsInches(m, w)
    ensures CommandOf(m, w) == Command(Some(G6), NoClaim, None, ToImperial(true))
  {
    hide IntPart, Mantissa;
  }

  /** The word after translation, taken by itself, writes what the original writes. */
  lemma TranslatedWord(m: Machine, k: Kind, base: Motion, b: Block, w: Word)
    requires w.letter != 'O' && Take(m, base, b, w).Accept?
    ensures Take(m, base, ConvertBlock(k, b), TranslateWord(m, k, w)) == Accept(ConvertBlock(k, Take(m, base, b, w).value))
  {
    var c, u := ConvertBlock(k, b), TranslateWord(m, k, w);
    TakeMeans(m, base, b, w);
    TakeMeans(m, base, c, u);
    if IsCommand(w) {
      TranslatedCommand(m, k, w);
      hide ScanCommand, CommandOf, ConvertBlock, TranslateWord, Take, Admits, After;
      AdmitsMeans(b, base, CommandOf(m, w));
      AdmitsMeans(c, base, CommandOf(m, u));
      CommandConverts(k, b, base, CommandOf(m, w));
    } else {
      TranslatedValue(k, b, w);
      hide ConvertBlock, PutWord, Take, Admits, After, CommandOf, ValueCheck;
    }
  }

  lemma TranslatedCommand(m: Machine, k: Kind, w: Word)
    requires IsCommand(w)
    ensures var u, c := TranslateWord(m, k, w), CommandOf(m, w);
            IsCommand(u) && CommandOf(m, u) == if c.Command? then c.(write := Metric(c.write)) else c
  {
    hide CommandOf;
    if IsInches(m, w) {
      Decoded21(m);
      InchWord(m, w);
    }
  }

  lemma TranslatedValue(k: Kind, b: Block, w: Word)
    requires FineValue(w) && w.letter != 'O' && !IsCommand(w)
    ensures var u := Word(w.letter, Some(Converted(k.inches && IsLength(k, w.letter), w.number.value)));
            && FineValue(u) && !IsCommand(u)
            && PutWord(ConvertBlock(k, b), u.letter, u.number.value) == ConvertBlock(k, PutWord(b, w.letter, w.number.value))
            && ConvertBlock(k, b).words == b.words
  {
    WordConverts(k, b, w.letter, w.number.value);
    hide PutWord, ConvertValues;
  }

  lemma {:induction false} TranslatedWords(m: Machine, k: Kind, base: Motion, b: Block, words: seq<Word>)
    requires (forall w <- words :: w.letter != 'O') && TakeAll(m, base, b, words).Accept?
    ensures TakeAll(m, base, ConvertBlock(k, b), TranslateWords(m, k, words)) == Accept(ConvertBlock(k, TakeAll(m, base, b, words).value))
    decreases |words|
  {
    hide Take, TranslateWord, ConvertBlock;
    if words != [] {
      TranslatedWord(m, k, base, b, words[0]);
      TranslatedWords(m, k, base, Take(m, base, b, words[0]).value, words[1..]);
    }
  }

  lemma {:induction false} StillNoO(m: Machine, k: Kind, words: seq<Word>)
    requires forall w <- words :: w.letter != 'O'
    ensures forall w <- TranslateWords(m, k, words) :: w.letter != 'O' && !IsInches(m, w)
    decreases |words|
  {
    hide CommandOf;
    if words != [] {
      StillNoO(m, k, words[1..]);
      Decoded21(m);
      NotInches(m, k, words[0]);
    }
  }

  lemma NotInches(m: Machine, k: Kind, w: Word)
    ensures !IsInches(m, TranslateWord(m, k, w))
  {
    hide CommandOf;
    Decoded21(m);
  }

  /** The state with millimetres selected. */
  function MetricState(st: State): State {
    st.(modal := st.modal.(imperial := false))
  }

  lemma NewConverts(k: Kind, st: State, jog: bool)
    ensures NewBlock(MetricState(st), jog) == ConvertBlock(k, NewBlock(st, jog))
  {
  }

  /** The scanner makes of a translated line the converted block. */
  lemma LineConverts(m: Machine, st: State, line: Line)
    requires ScanLine(m, st, line).Accept? && forall w <- line.words :: w.letter != 'O'
    ensures var b := ScanLine(m, st, line).value;
            ScanLine(m, MetricState(st), TranslateLine(m, st, line)) == Accept(ConvertBlock(KindOf(b), b))
  {
    hide ScanWords, TakeAll, NewBlock, ConvertBlock, TranslateWords, KindOf;
    var k := KindOf(ScanLine(m, st, line).value);
    var base := st.modal.motion;
    ScanTakesAll(m, base, Scan(NewBlock(st, line.jog), 0), line.words);
    TranslatedWords(m, k, base, NewBlock(st, line.jog), line.words);
    NewConverts(k, st, line.jog);
    StillNoO(m, k, line.words);
    ScanTakesAll(m, base, Scan(NewBlock(MetricState(st), line.jog), 0), TranslateWords(m, k, line.words));
  }

  // ---------------------------------------------------------------- executing translated lines

  /** A G5 block that takes its control offset from P and Q, which are not converted then. */
  predicate BareSpline(b: Block) {
    && b.modal.imperial && b.modal.motion.CubicSpline? && !b.modal.canned && ImpliedCmd(b).MotionCmd?
    && 'I' !in b.words && 'J' !in b.words
  }

  /** How the checks see the numbers of a block of this kind. */
  function LengthsOf(k: Kind): Lengths {
    Lengths(k.inches && k.p, k.inches && k.q, false, false, false, false)
  }

  lemma ZeroNumbers(b0: Block, b: Block)
    requires ReadValues(b0, b) && (b0.values == NO_VALUES || b0.values == NO_VALUES.(n := JOG_LINE_NUMBER))
    ensures var v := b.values;
            && ('F' !in b.words ==> v.f == 0.0) && ('P' !in b.words ==> v.p == 0.0) && ('Q' !in b.words ==> v.q == 0.0)
            && ('R' !in b.words ==> v.r == 0.0) && ('I' !in b.words ==> v.ijk.x == 0.0) && ('J' !in b.words ==> v.ijk.y == 0.0)
            && ('K' !in b.words ==> v.ijk.z == 0.0)
            && b.ijkWords == Axes('I' in b.words, 'J' in b.words, 'K' in b.words)
            && ('X' !in b.words ==> v.xyz.x == 0.0) && ('Y' !in b.words ==> v.xyz.y == 0.0) && ('Z' !in b.words ==> v.xyz.z == 0.0)
            && b.axisWords == Axes('X' in b.words, 'Y' in b.words, 'Z' in b.words)
  {
    NumbersAre(b.values);
    NumbersAre(b0.values);
    hide NumberOf;
  }

  lemma NumbersAre(v: Values)
    ensures NumberOf(v, 'F') == Real(v.f) && NumberOf(v, 'P') == Real(v.p) && NumberOf(v, 'Q') == Real(v.q)
            && NumberOf(v, 'R') == Real(v.r)
    ensures NumberOf(v, 'I') == Real(v.ijk.x) && NumberOf(v, 'J') == Real(v.ijk.y) && NumberOf(v, 'K') == Real(v.ijk.z)
    ensures NumberOf(v, 'X') == Real(v.xyz.x) && NumberOf(v, 'Y') == Real(v.xyz.y) && NumberOf(v, 'Z') == Real(v.xyz.z)
  {
  }

  lemma ReadZero(m: Machine, st: State, line: Line)
    requires ScanLine(m, st, line).Accept?
    ensures var b, v := ScanLine(m, st, line).value, ScanLine(m, st, line).value.values;
            && ('F' !in b.words ==> v.f == 0.0) && ('P' !in b.words ==> v.p == 0.0) && ('Q' !in b.words ==> v.q == 0.0)
            && ('R' !in b.words ==> v.r == 0.0) && ('I' !in b.words ==> v.ijk.x == 0.0) && ('J' !in b.words ==> v.ijk.y == 0.0)
            && ('K' !in b.words ==> v.ijk.z == 0.0)
            && b.ijkWords == Axes('I' in b.words, 'J' in b.words, 'K' in b.words)
            && ('X' !in b.words ==> v.xyz.x == 0.0) && ('Y' !in b.words ==> v.xyz.y == 0.0) && ('Z' !in b.words ==> v.xyz.z == 0.0)
            && b.axisWords == Axes('X' in b.words, 'Y' in b.words, 'Z' in b.words)
  {
    hide ScanLine, Read, ReadValues;
    LineReads(m, st, line);
    ZeroNumbers(NewBlock(st, line.jog), ScanLine(m, st, line).value);
  }

  lemma MeasuredLength(given: bool, dead: bool, inches: bool, x: real, y: real)
    requires (!given ==> x == 0.0) && y == if inches then x * MM_PER_INCH else x
    ensures Measures(given, true, dead, inches, false, x, y)
    ensures !given ==> y == 0.0
  {
  }

  lemma MeasuredNumber(given: bool, length: bool, dead: bool, inches: bool, x: real, y: real)
    requires (!given ==> x == 0.0) && y == if inches then Converted(length, x) else x
    ensures Measures(given, inches && length, dead, inches, false, x, y)
  {
  }

  lemma Components(k: Kind, v: Values)
    ensures var u := ConvertValues(k, v);
            && u == v.(f := u.f, xyz := u.xyz, ijk := u.ijk, p := u.p, q := u.q, r := u.r)
            && u.r == (if k.inches then v.r * MM_PER_INCH else v.r)
            && u.ijk.x == (if k.inches then v.ijk.x * MM_PER_INCH else v.ijk.x)
            && u.ijk.y == (if k.inches then v.ijk.y * MM_PER_INCH else v.ijk.y)
            && u.ijk.z == (if k.inches then v.ijk.z * MM_PER_INCH else v.ijk.z)
            && u.p == (if k.inches then Converted(k.p, v.p) else v.p)
            && u.q == (if k.inches then Converted(k.q, v.q) else v.q)
            && u.xyz == (if k.inches then v.xyz.Times(MM_PER_INCH) else v.xyz)
  {
  }

  lemma SameNumbersConverted(k: Kind, a: View, v: Values)
    requires k.inches == a.imperial
    requires ('P' !in a.words ==> v.p == 0.0) && ('Q' !in a.words ==> v.q == 0.0) && ('R' !in a.words ==> v.r == 0.0)
    requires ('I' !in a.words ==> v.ijk.x == 0.0) && ('J' !in a.words ==> v.ijk.y == 0.0) && ('K' !in a.words ==> v.ijk.z == 0.0)
    ensures SameNumbers(LengthsOf(k), a, a.(imperial := false), v, ConvertValues(k, v))
  {
    hide *;
    var u, dead := ConvertValues(k, v), a.canned || a.motion.SpindleSync?;
    Components(k, v);
    MeasuredLength('R' in a.words, dead, k.inches, v.r, u.r);
    MeasuredLength('I' in a.words, dead, k.inches, v.ijk.x, u.ijk.x);
    MeasuredLength('J' in a.words, dead, k.inches, v.ijk.y, u.ijk.y);
    MeasuredLength('K' in a.words, dead, k.inches, v.ijk.z, u.ijk.z);
    MeasuredNumber('P' in a.words, k.p, false, k.inches, v.p, u.p);
    MeasuredNumber('Q' in a.words, k.q, dead, k.inches, v.q, u.q);
    Assemble(k, a, v, u);
  }

  lemma Assemble(k: Kind, a: View, v: Values, u: Values)
    requires k.inches == a.imperial && u == v.(f := u.f, xyz := u.xyz, ijk := u.ijk, p := u.p, q := u.q, r := u.r)
    requires var i, dead := k.inches, a.canned || a.motion.SpindleSync?;
             && Measures('R' in a.words, true, dead, i, false, v.r, u.r)
             && Measures('I' in a.words, true, dead, i, false, v.ijk.x, u.ijk.x)
             && Measures('J' in a.words, true, dead, i, false, v.ijk.y, u.ijk.y)
             && Measures('K' in a.words, true, dead, i, false, v.ijk.z, u.ijk.z)
             && Measures('P' in a.words, i && k.p, false, i, false, v.p, u.p)
             && Measures('Q' in a.words, i && k.q, dead, i, false, v.q, u.q)
             && ('I' in a.words || v.ijk.x == 0.0) && ('J' in a.words || v.ijk.y == 0.0)
    ensures SameNumbers(LengthsOf(k), a, a.(imperial := false), v, u)
  {
    hide Measures;
  }

  lemma SameWhenConverted(k: Kind, b: Block)
    requires k.inches == b.modal.imperial
    requires ('P' !in b.words ==> b.values.p == 0.0) && ('Q' !in b.words ==> b.values.q == 0.0) && ('R' !in b.words ==> b.values.r == 0.0)
    requires ('I' !in b.words ==> b.values.ijk.x == 0.0) && ('J' !in b.words ==> b.values.ijk.y == 0.0) && ('K' !in b.words ==> b.values.ijk.z == 0.0)
    ensures SameNumbers(LengthsOf(k), ViewOf(b), ViewOf(b).(imperial := false), b.values, ConvertValues(k, b.values))
  {
    hide SameNumbers, ConvertValues, ImpliedCmd;
    SameNumbersConverted(k, ViewOf(b), b.values);
  }

  lemma FitsWhenConverted(b: Block)
    requires b.ijkWords == Axes('I' in b.words, 'J' in b.words, 'K' in b.words) && !BareSpline(b)
    requires NeedsAxes(b.nonModal) ==> !ImpliedCmd(b).MotionCmd?
    requires b.modal.motion.Arc() || b.modal.motion.CubicSpline? ==> !b.modal.canned
    ensures Fits(LengthsOf(KindOf(b)), ViewOf(b), ViewOf(b).(imperial := false))
  {
    hide ImpliedCmd;
  }

  lemma ConvertedTwin(k: Kind, st: State, b: Block)
    ensures Twin(Fresh(st, b), Fresh(MetricState(st), ConvertBlock(k, b)))
    ensures ViewOf(ConvertBlock(k, b)) == ViewOf(b).(imperial := false)
  {
    hide ConvertValues;
  }

  lemma SameFeedConverted(st: State, b: Block)
    requires 'F' !in b.words ==> b.values.f == 0.0
    ensures SameFeed(Fresh(st, b), Fresh(MetricState(st), ConvertBlock(KindOf(b), b)))
  {
    hide ImpliedCmd;
  }

  lemma PickAll(axes: Axes, v: Vec)
    requires (!axes.x ==> v.x == 0.0) && (!axes.y ==> v.y == 0.0) && (!axes.z ==> v.z == 0.0)
    ensures Pick(axes, v.Times(MM_PER_INCH), v) == v.Times(MM_PER_INCH)
  {
  }

  lemma SameMillimetresConverted(k: Kind, b: Block)
    requires k.inches == b.modal.imperial && b.axisWords == Axes('X' in b.words, 'Y' in b.words, 'Z' in b.words)
    requires ('X' !in b.words ==> b.values.xyz.x == 0.0) && ('Y' !in b.words ==> b.values.xyz.y == 0.0) && ('Z' !in b.words ==> b.values.xyz.z == 0.0)
    ensures Millimetres(ConvertBlock(k, b)) == Millimetres(b)
  {
    Components(k, b.values);
    PickAll(b.axisWords, b.values.xyz);
    hide ConvertValues, Pick, Vec.Times;
  }

  /** From the scaled axes on. */
  lemma ScaledTwins(m: Machine, k: Lengths, w: Work, u: Work)
    requires Twins(k, w, u) && !k.done && k.sameAxes && u.b.modal.incremental == w.b.modal.incremental
    ensures TwinOutcomes(k, CheckNonModal(m, SelectCoord(w)), CheckNonModal(m, SelectCoord(u)))
  {
    hide Twin, Twins, TwinOutcomes, SelectCoord, CheckNonModal, Asked, Fits;
    SameMeaning.SelectTwins(k, w, u);
    SelectKeeps(w);
    SelectKeeps(u);
    var w1, u1 := SelectCoord(w), SelectCoord(u);
    AskedMeans(w1.b, w.b);
    AskedMeans(u1.b, u.b);
    SameAxesHere(k, w1, u1);
    SameMeaning.NonModalTwins(m, k, w1, u1);
    assert k.(sameAxes := true) == k;
  }

  /** The axis checks see the same millimetres. */
  lemma AxesTwins(m: Machine, k: Lengths, w: Work, u: Work)
    requires Twins(k, w, u) && !k.done && Millimetres(u.b) == Millimetres(w.b) && u.b.modal.incremental == w.b.modal.incremental
    ensures TwinOutcomes(k.(sameAxes := true), CheckAxes(m, w), CheckAxes(m, u))
  {
    var k1 := k.(sameAxes := true);
    hide Twin, Twins, ConvertUnits, CheckScaling, ScaleAxes, CheckToolOffset, SelectCoord, CheckNonModal, AlikeStates,
         Asked, Fits, Millimetres;
    SameMeaning.ConvertTwins(k, w, u);
    var w1, u1 := ConvertUnits(w), ConvertUnits(u);
    ConvertKeeps(w);
    ConvertKeeps(u);
    SameMeaning.ScalingTwins(k1, w1, u1);
    ScalingKeeps(w1);
    ScalingKeeps(u1);
    var o, p := CheckScaling(w1), CheckScaling(u1);
    if o.Go? {
      AskedMeans(o.w.b, w1.b);
      AskedMeans(p.w.b, u1.b);
      SameMeaning.ScaleAxesTwins(k1, o.w, p.w);
      ScaleAxesKeeps(o.w);
      ScaleAxesKeeps(p.w);
      var w2, u2 := ScaleAxes(o.w), ScaleAxes(p.w);
      ToolOffsetTwins(k1, k1, w2, u2);
      ScaledTwins(m, k1, w2, u2);
    }
  }

  lemma ToolOffsetTwins(k: Lengths, l: Lengths, w: Work, u: Work)
    requires Twins(k, w, u)
    ensures if CheckToolOffset(w).Go? then CheckToolOffset(w).w == w && CheckToolOffset(u) == Go(u)
            else TwinOutcomes(l, CheckToolOffset(w), CheckToolOffset(u))
  {
    TwinBlocks(w, u);
    TwinModes(w, u);
    StopTwins(l, w, u);
    hide Twin, Twins;
  }

  lemma SameAxesHere(k: Lengths, w: Work, u: Work)
    requires Twins(k, w, u) && k.sameAxes && u.b.modal.incremental == w.b.modal.incremental
    ensures SameMeaning.SameAxes(w, u)
  {
    TwinsMean(k, w, u);
    TwinMeans(w, u);
    hide Twins, Twin;
  }

  // ---------------------------------------------------------------- the theorem

  lemma ConvertedTwins(m: Machine, st: State, line: Line)
    requires ScanLine(m, st, line).Accept? && !BareSpline(ScanLine(m, st, line).value) && Cycles(ScanLine(m, st, line).value.modal)
    ensures var b := ScanLine(m, st, line).value;
            Twins(LengthsOf(KindOf(b)), Fresh(st, b), Fresh(MetricState(st), ConvertBlock(KindOf(b), b)))
  {
    var b := ScanLine(m, st, line).value;
    var k := KindOf(b);
    LineReads(m, st, line);
    NoMotionCommand(NewBlock(st, line.jog), b);
    ReadZero(m, st, line);
    hide ScanLine, Read, ReadValues, SameNumbers, Fits, Twin, ViewOf, ConvertValues, NewBlock, ConvertBlock, BareSpline;
    ConvertedTwin(k, st, b);
    SameWhenConverted(k, b);
    FitsWhenConverted(b);
    ConvertedValues(k, b);
  }

  lemma ConvertedValues(k: Kind, b: Block)
    ensures ConvertBlock(k, b).values == ConvertValues(k, b.values) && ConvertBlock(k, b).modal.incremental == b.modal.incremental
    ensures ConvertBlock(k, b).jog == b.jog
  {
  }

  lemma NoMotionCommand(b0: Block, b: Block)
    requires Read(b0, b)
    ensures NeedsAxes(b.nonModal) ==> !ImpliedCmd(b).MotionCmd?
  {
    hide SlotOf;
  }

  lemma ConvertedExecutes(m: Machine, st: State, line: Line)
    requires ScanLine(m, st, line).Accept? && !BareSpline(ScanLine(m, st, line).value) && Cycles(ScanLine(m, st, line).value.modal)
    ensures var b := ScanLine(m, st, line).value;
            SameMeaning.Alike(ExecuteBlock(m, st, b, line.env), ExecuteBlock(m, MetricState(st), ConvertBlock(KindOf(b), b), line.env))
  {
    var b := ScanLine(m, st, line).value;
    var c, k := ConvertBlock(KindOf(b), b), LengthsOf(KindOf(b));
    var w, u := Fresh(st, b), Fresh(MetricState(st), c);
    assert KindOf(b).inches == b.modal.imperial;
    assert !k.done && !k.worded;
    hide *;
    ConvertedTwins(m, st, line);
    ReadZero(m, st, line);
    SameFeedConverted(st, b);
    SameMillimetresConverted(KindOf(b), b);
    WordsTwins(m, k, w, u);
    WordsAxes(m, w, u, CheckWords(m, w), CheckWords(m, u));
    ConvertedValues(KindOf(b), b);
    WordsGo(k.(sameFeed := true, worded := true), CheckWords(m, w), CheckWords(m, u));
    if CheckWords(m, w).Go? {
      AxesTwins(m, k.(sameFeed := true, worded := true), CheckWords(m, w).w, CheckWords(m, u).w);
    }
    SameMeaning.BlockTwins(m, k, st, MetricState(st), b, c, line.env);
  }

  lemma WordsGo(k: Lengths, o: Outcome, p: Outcome)
    requires TwinOutcomes(k, o, p)
    ensures o.Go? ==> p.Go? && Twins(k, o.w, p.w)
    ensures p.Go? ==> o.Go?
  {
    hide Twins;
  }

  lemma WordsAxes(m: Machine, w: Work, u: Work, o: Outcome, p: Outcome)
    requires o == CheckWords(m, w) && p == CheckWords(m, u)
    ensures o.Go? ==> Millimetres(o.w.b) == Millimetres(w.b) && o.w.b.modal.incremental == w.b.modal.incremental
    ensures p.Go? ==> Millimetres(p.w.b) == Millimetres(u.b) && p.w.b.modal.incremental == u.b.modal.incremental
  {
    hide CheckWords, Asked, FeedOf, Pick;
    WordsKeep(m, w);
    WordsKeep(m, u);
    if o.Go? {
      AskedMeans(o.w.b, w.b);
    }
    if p.Go? {
      AskedMeans(p.w.b, u.b);
    }
  }

  /** What the translation asks of a line: no O word, which is judged by the fraction of its neighbour, and
      no G5 without control offset in inches. */
  ghost predicate Translatable(m: Machine, st: State, line: Line) {
    && (forall w <- line.words :: w.letter != 'O')
    && (ScanLine(m, st, line).Accept? ==> !BareSpline(ScanLine(m, st, line).value))
  }

  ghost predicate SameButUnits(e: Executed, f: Executed) {
    f == Executed(e.status, MetricState(e.st), e.events)
  }

  lemma AcceptedLine(m: Machine, st: State, line: Line)
    requires Cycles(st.modal) && Translatable(m, st, line) && ScanLine(m, st, line).Accept?
    ensures var b := ScanLine(m, st, line).value;
            SameButUnits(ExecuteBlock(m, st, b, line.env), ExecuteBlock(m, MetricState(st), ConvertBlock(KindOf(b), b), line.env))
  {
    var b := ScanLine(m, st, line).value;
    SameMeaning.LineCycles(m, st, line);
    ConvertedExecutes(m, st, line);
    var c := ConvertBlock(KindOf(b), b);
    FlagsConverted(KindOf(b), b);
    hide ScanLine, ExecuteBlock, KindOf, ConvertBlock, BareSpline, Cycles;
    SameMeaning.AlikeModes(m, st, MetricState(st), b, c, line.env);
    Offsets.ExecutedModes(m, st, b, line.env);
  }

  lemma FlagsConverted(k: Kind, b: Block)
    ensures var c := ConvertBlock(k, b);
            c.jog == b.jog && c.flow == b.flow && !c.modal.imperial && c.modal.incremental == b.modal.incremental
  {
  }

  lemma TranslatedEmpty(m: Machine, st: State, line: Line)
    ensures TranslateLine(m, st, line).jog == line.jog && TranslateLine(m, st, line).env == line.env
    ensures TranslateLine(m, st, line).words == [] <==> line.words == []
  {
    hide ScanLine, TranslateWord, KindOf;
  }

  /** A translated line is answered alike, moves alike and leaves the same state but for the units. */
  lemma LineTranslates(m: Machine, st: State, line: Line)
    requires Cycles(st.modal) && Translatable(m, st, line)
    ensures SameButUnits(Execute(m, st, line), Execute(m, MetricState(st), TranslateLine(m, st, line)))
  {
    TranslatedEmpty(m, st, line);
    if ScanLine(m, st, line).Accept? {
      LineConverts(m, st, line);
      AcceptedLine(m, st, line);
    } else {
      SameMeaning.RefusedLine(m, st, MetricState(st), line);
    }
    hide ScanLine, ExecuteBlock, TranslateWords, KindOf, ConvertBlock, Cycles, BareSpline;
  }

  lemma StepTranslates(m: Machine, st: State, op: Op)
    requires Cycles(st.modal) && (op.Block? ==> Translatable(m, st, op.line))
    ensures SameButUnits(Step(m, st, op), Step(m, MetricState(st), TranslateOp(m, st, op)))
  {
    if op.Block? {
      LineTranslates(m, st, op.line);
    }
    hide Execute, TranslateLine, Translatable;
  }

  ghost predicate AllTranslatable(m: Machine, st: State, ops: seq<Op>)
    decreases |ops|
  {
    ops == [] || ((ops[0].Block? ==> Translatable(m, st, ops[0].line)) && AllTranslatable(m, Step(m, st, ops[0]).st, ops[1..]))
  }

  /** The answers of a run, line by line. */
  function Answers(m: Machine, st: State, ops: seq<Op>): seq<Status>
    decreases |ops|
  {
    if ops == [] then [] else [Step(m, st, ops[0]).status] + Answers(m, Step(m, st, ops[0]).st, ops[1..])
  }

  /** The translated program gets the same answers, makes the same moves and ends in the same state. */
  lemma {:induction false} ProgramTranslates(m: Machine, st: State, ops: seq<Op>)
    requires Cycles(st.modal) && AllTranslatable(m, st, ops)
    ensures var t := Translate(m, st, ops);
            && Answers(m, MetricState(st), t) == Answers(m, st, ops)
            && Trace(m, MetricState(st), t) == Trace(m, st, ops)
            && Run(m, MetricState(st), t) == MetricState(Run(m, st, ops))
    decreases |ops|
  {
    hide Step, Translatable, Cycles, TranslateOp;
    if ops != [] {
      StepTranslates(m, st, ops[0]);
      SameMeaning.StepCycles(m, st, ops[0]);
      ProgramTranslates(m, Step(m, st, ops[0]).st, ops[1..]);
    }
  }

  /** The accepted lines of the translated program are free of G20. */
  lemma NoInchesLeft(m: Machine, st: State, line: Line)
    requires ScanLine(m, st, line).Accept? && forall w <- line.words :: w.letter != 'O'
    ensures forall w <- TranslateLine(m, st, line).words :: !IsInches(m, w)
  {
    hide ScanLine, TranslateWords, IsInches, KindOf;
    StillNoO(m, KindOf(ScanLine(m, st, line).value), line.words);
  }

  ghost predicate WithoutO(line: Line) {
    forall w <- line.words :: w.letter != 'O'
  }

  lemma ConvertsWithoutO(m: Machine, st: State, line: Line)
    requires ScanLine(m, st, line).Accept? && WithoutO(line)
    ensures var b := ScanLine(m, st, line).value;
            ScanLine(m, MetricState(st), TranslateLine(m, st, line)) == Accept(ConvertBlock(KindOf(b), b))
  {
    hide ScanLine, TranslateLine, ConvertBlock, KindOf;
    LineConverts(m, st, line);
  }

  /** Without I and J the control offset of G5 is not converted: a translated line that is accepted makes another curve,
      unless P and Q are zero. */
  lemma BareSplineDiffers(m: Machine, st: State, line: Line)
    requires WithoutO(line) && !line.jog && Offsets.Accepted(m, st, line) && BareSpline(ScanLine(m, st, line).value)
    requires Offsets.Accepted(m, MetricState(st), TranslateLine(m, st, line))
    ensures var b := ScanLine(m, st, line).value;
            DifferentSplines(Execute(m, st, line).events, Execute(m, MetricState(st), TranslateLine(m, st, line)).events, b.values)
  {
    var b := ScanLine(m, st, line).value;
    assert Offsets.Accepted(m, st, line) ==> ScanLine(m, st, line).Accept?;
    assert !TranslateLine(m, st, line).jog && MetricState(st).position == st.position;
    hide *;
    SplineConverts(b);
    ConvertsWithoutO(m, st, line);
    TwoSplines(m, st, line, MetricState(st), TranslateLine(m, st, line), b, ConvertBlock(KindOf(b), b));
  }

  /** The last motions of both are splines from the same start, with the same first control point only if P and Q are zero. */
  ghost predicate DifferentSplines(events: seq<Event>, others: seq<Event>, v: Values) {
    && |events| > 0 && |others| > 0
    && var e, f := events[|events| - 1], others[|others| - 1];
       e.Spline? && f.Spline? && e.start == f.start && (e.first == f.first <==> v.p == 0.0 && v.q == 0.0)
  }

  lemma TwoSplines(m: Machine, st: State, line: Line, tt: State, other: Line, b: Block, c: Block)
    requires Offsets.Accepted(m, st, line) && !line.jog && ScanLine(m, st, line) == Accept(b) && C.GoesOn(b)
    requires Offsets.Accepted(m, tt, other) && !other.jog && ScanLine(m, tt, other) == Accept(c) && C.GoesOn(c)
    requires tt.position == st.position
    requires C.OwnsPq(b) ==> c.values.p == b.values.p * MM_PER_INCH && c.values.q == b.values.q * MM_PER_INCH
    ensures DifferentSplines(Execute(m, st, line).events, Execute(m, tt, other).events, b.values)
  {
    hide *;
    C.GoesOnAsWritten(m, st, line);
    C.GoesOnAsWritten(m, tt, other);
    FirstsDiffer(Execute(m, st, line).events, Execute(m, tt, other).events, st.position, b.values, c.values);
  }

  lemma FirstsDiffer(events: seq<Event>, others: seq<Event>, position: Vec, v: Values, y: Values)
    requires C.EndsInSpline(events, position, Pq(position.x - v.p, position.y - v.q))
    requires C.EndsInSpline(others, position, Pq(position.x - y.p, position.y - y.q))
    requires y.p == v.p * MM_PER_INCH && y.q == v.q * MM_PER_INCH
    ensures DifferentSplines(events, others, v)
  {
  }

  lemma SplineConverts(b: Block)
    requires BareSpline(b)
    ensures var c := ConvertBlock(KindOf(b), b);
            && C.GoesOn(b) && C.GoesOn(c)
            && (C.OwnsPq(b) ==> c.values.p == b.values.p * MM_PER_INCH && c.values.q == b.values.q * MM_PER_INCH)
  {
    hide Vec.Times;
  }

  lemma TakesX(m: Machine, base: Motion, b: Block, x: real)
    requires b.words == {} && x >= 0.0
    ensures ScanWord(m, base, Scan(b, 0), Word('X', Some(x))) == Accept(Scan(PutWord(b, 'X', x), Mantissa(x)))
    ensures var c := PutWord(b, 'X', x); c.words == {'X'} && c.modal == b.modal
  {
    hide Mantissa, IntPart;
  }

  lemma TakesO(m: Machine, base: Motion, s: Scan)
    requires 'O' !in s.block.words
    ensures var r := ScanWord(m, base, s, Word('O', Some(10.0)));
            if s.stale > 0 then r == Reject(CommandValueNotInteger) else r == Accept(Scan(PutWord(s.block, 'O', 10.0), s.stale))
    ensures PutWord(s.block, 'O', 10.0).modal == s.block.modal
  {
    hide Mantissa, IntPart, PutValue;
  }

  lemma TakesTwo(m: Machine, base: Motion, s: Scan, v: Word, w: Word)
    ensures ScanWords(m, base, s, [v, w]) == var r := ScanWord(m, base, s, v); if r.Reject? then r else ScanWord(m, base, r.value, w)
  {
    hide ScanWord;
    assert [v, w][1..] == [w] && [w][1..] == [];
    var r := ScanWord(m, base, s, v);
    if r.Accept? {
      assert ScanWords(m, base, r.value, [w]) == ScanWord(m, base, r.value, w);
    }
  }

  /** How X and O are read: the fraction of X decides. */
  lemma XAndO(m: Machine, st: State, line: Line, x: real)
    requires line.words == [Word('X', Some(x)), Word('O', Some(10.0))] && x >= 0.0 && !line.jog
    ensures ScanLine(m, st, line) == if Mantissa(x) > 0 then Reject(CommandValueNotInteger)
                                     else Accept(PutWord(PutWord(NewBlock(st, false), 'X', x), 'O', 10.0))
  {
    var b, base := NewBlock(st, false), st.modal.motion;
    assert b.words == {};
    TakesTwo(m, base, Scan(b, 0), Word('X', Some(x)), Word('O', Some(10.0)));
    TakesX(m, base, b, x);
    TakesO(m, base, Scan(PutWord(b, 'X', x), Mantissa(x)));
    hide ScanWord, ScanWords, PutWord, Mantissa, NewBlock;
  }

  lemma XAndOTranslate(m: Machine, st: State, env: Env)
    requires st.modal.imperial
    ensures var line := Line(false, [Word('X', Some(1.0)), Word('O', Some(10.0))], env);
            TranslateLine(m, st, line) == Line(false, [Word('X', Some(25.4)), Word('O', Some(10.0))], env)
  {
    var line := Line(false, [Word('X', Some(1.0)), Word('O', Some(10.0))], env);
    assert Mantissa(1.0) == 0;
    XAndO(m, st, line, 1.0);
    assert PutWord(PutWord(NewBlock(st, false), 'X', 1.0), 'O', 10.0).modal.imperial;
    hide ScanLine, Mantissa;
    var k := KindOf(ScanLine(m, st, line).value);
    assert line.words[1..] == [Word('O', Some(10.0))] && line.words[1..][1..] == [];
    assert TranslateWords(m, k, line.words[1..]) == [Word('O', Some(10.0))];
  }
}
