/** RS274/NGC lets the words of a line stand in any order. Exactly when does that hold for the scanner? */
module WordOrder {
  import opened GcTypes
  import opened Scanner
  import opened ScanFacts
  import Refusals
  import opened Execution

  /** A word by itself, after a number without a rest. */
  function Take(m: Machine, base: Motion, b: Block, w: Word): Result<Block> {
    var s :- ScanWord(m, base, Scan(b, 0), w);
    Accept(s.block)
  }

  function TakeAll(m: Machine, base: Motion, b: Block, words: seq<Word>): Result<Block>
    decreases |words|
  {
    if words == [] then Accept(b)
    else
      var c :- Take(m, base, b, words[0]);
      TakeAll(m, base, c, words[1..])
  }

  predicate IsCommand(w: Word) {
    (w.letter == 'G' || w.letter == 'M') && w.number.Some?
  }

  function CommandOf(m: Machine, w: Word): Command
    requires IsCommand(w)
  {
    var i, n := IntPart(w.number.value), Mantissa(w.number.value);
    if w.letter == 'G' then DecodeG(m, i, n) else DecodeM(m, i, n)
  }

  /** A word that wants the axis words of the line. */
  predicate Claiming(m: Machine, w: Word) {
    IsCommand(w) && CommandOf(m, w).Command? && CommandOf(m, w).claim.Claims?
  }

  /** G50 and G51, which take the axis words without asking. */
  predicate Grabbing(m: Machine, w: Word) {
    IsCommand(w) && CommandOf(m, w).Command? && CommandOf(m, w).claim.Overwrites?
  }

  /** A value word that leaves a rest behind for a following O word. */
  predicate LeavesRest(w: Word) {
    w.letter in VALUE_LETTERS && w.letter != 'O' && w.number.Some? && Mantissa(w.number.value) > 0
  }

  /** The two dependences on the order: G50 or G51 beside a word that claims the axis words, and an O word
      beside a number with a fraction. */
  ghost predicate Orderly(m: Machine, words: seq<Word>) {
    && Paired(m, words)
    && Undisturbed(words)
  }

  ghost predicate Agree<T>(r: Result<T>, s: Result<T>) {
    r == s || (r.Reject? && s.Reject?)
  }

  // ---------------------------------------------------------------- two words change places

  predicate Admits(b: Block, c: Command) {
    && c.Command? && (c.claim.Claims? ==> b.axisCmd == NoAxisCmd) && c.late.None?
    && (c.group.Some? ==> c.group.value !in b.groups)
  }

  function After(b: Block, base: Motion, c: Command): Block {
    if c.Bad? then b else Enter(Perform(TakeAxes(b, c.claim), base, c.write), c.group)
  }

  lemma AdmitsMeans(b: Block, base: Motion, c: Command)
    ensures var r := ScanCommand(b, base, c);
            if Admits(b, c) then r == Accept(After(b, base, c)) else r.Reject?
  {
    hide TakeAxes, Perform, Enter;
  }

  /** Not one that grabs and one that claims. */
  predicate Compatible(c: Command, d: Command) {
    c.Command? && d.Command? ==> !(c.claim.Overwrites? && d.claim.Claims?) && !(d.claim.Overwrites? && c.claim.Claims?)
  }

  lemma AfterWrites(b: Block, base: Motion, c: Command, h: Group)
    requires c.Command? && Admits(b, c)
    ensures var d := After(b, base, c);
            && Rest(d) == Rest(b)
            && d.axisCmd == (if c.claim.NoClaim? then b.axisCmd else c.claim.cmd)
            && d.groups == (if c.group.Some? then b.groups + {c.group.value} else b.groups)
            && SlotOf(d, h) == (if GroupOf(c.write) == Some(h) then Written(base, c.write, SlotOf(b, h)) else SlotOf(b, h))
  {
    hide After, Rest, SlotOf, GroupOf, Written;
    AdmitsMeans(b, base, c);
    CommandWrites(b, base, c, h);
  }

  lemma CommandsAdmit(b: Block, base: Motion, c: Command, d: Command)
    requires WellGrouped(c) && WellGrouped(d) && Compatible(c, d)
    requires Admits(b, c) && Admits(After(b, base, c), d)
    ensures Admits(b, d) && Admits(After(b, base, d), c)
  {
    hide After;
    AfterWrites(b, base, c, G0);
    AfterWrites(b, base, d, G0);
  }

  lemma CommandsCommute(b: Block, base: Motion, c: Command, d: Command)
    requires WellGrouped(c) && WellGrouped(d) && Compatible(c, d)
    requires Admits(b, c) && Admits(After(b, base, c), d) && Admits(b, d) && Admits(After(b, base, d), c)
    ensures After(After(b, base, c), base, d) == After(After(b, base, d), base, c)
  {
    var bc, bd := After(b, base, c), After(b, base, d);
    var bcd, bdc := After(bc, base, d), After(bd, base, c);
    hide After, SlotOf, Written, Rest;
    forall h: Group ensures SlotOf(bcd, h) == SlotOf(bdc, h) {
      AfterWrites(b, base, c, h);
      AfterWrites(b, base, d, h);
      AfterWrites(bc, base, d, h);
      AfterWrites(bd, base, c, h);
      NothingHasNoGroup(c.write);
      NothingHasNoGroup(d.write);
    }
    AfterWrites(b, base, c, G0);
    AfterWrites(b, base, d, G0);
    AfterWrites(bc, base, d, G0);
    AfterWrites(bd, base, c, G0);
    SlotsDetermine(bcd, bdc);
  }

  lemma SwapCommands(b: Block, base: Motion, c: Command, d: Command)
    requires WellGrouped(c) && WellGrouped(d) && Compatible(c, d)
    ensures Admits(b, c) && Admits(After(b, base, c), d) <==> Admits(b, d) && Admits(After(b, base, d), c)
    ensures Admits(b, c) && Admits(After(b, base, c), d) ==> After(After(b, base, c), base, d) == After(After(b, base, d), base, c)
  {
    hide After, Admits;
    if Admits(b, c) && Admits(After(b, base, c), d) {
      CommandsAdmit(b, base, c, d);
      CommandsCommute(b, base, c, d);
    }
    if Admits(b, d) && Admits(After(b, base, d), c) {
      CommandsAdmit(b, base, d, c);
    }
  }

  lemma PutRest(b: Block, letter: char, value: real)
    ensures Rest(PutWord(b, letter, value)) == PutWord(Rest(b), letter, value)
    ensures var c := PutWord(b, letter, value);
            c.axisCmd == b.axisCmd && c.groups == b.groups && c.words == b.words + {letter}
  {
    hide PutValue, NameAxis;
  }

  lemma SwapCommandAndValue(b: Block, base: Motion, c: Command, letter: char, value: real)
    ensures Admits(b, c) <==> Admits(PutWord(b, letter, value), c)
    ensures Admits(b, c) ==> After(PutWord(b, letter, value), base, c) == PutWord(After(b, base, c), letter, value)
  {
    PutRest(b, letter, value);
    if Admits(b, c) {
      var d, e := After(b, base, c), PutWord(b, letter, value);
      var x, y := After(e, base, c), PutWord(d, letter, value);
      assert Admits(e, c);
      hide After, PutWord, SlotOf, Written, Rest, Admits, GroupOf;
      forall h: Group ensures SlotOf(x, h) == SlotOf(y, h) {
        AfterWrites(b, base, c, h);
        AfterWrites(e, base, c, h);
        PutKeepsSlots(b, letter, value);
        PutKeepsSlots(d, letter, value);
      }
      AfterWrites(b, base, c, G0);
      AfterWrites(e, base, c, G0);
      PutRest(d, letter, value);
      SlotsDetermine(x, y);
    }
  }

  lemma AfterKeepsWords(b: Block, base: Motion, c: Command)
    ensures Admits(b, c) ==> After(b, base, c).words == b.words
  {
    if Admits(b, c) {
      hide After, SlotOf, Written, Rest, GroupOf;
      AfterWrites(b, base, c, G0);
      RestMeans(After(b, base, c), b);
    }
  }

  lemma SwapValues(b: Block, k: char, x: real, l: char, y: real)
    requires k != l && k in VALUE_LETTERS && l in VALUE_LETTERS
    ensures PutWord(PutWord(b, k, x), l, y) == PutWord(PutWord(b, l, y), k, x)
  {
    var v, w := PutValue(PutValue(b.values, k, x), l, y), PutValue(PutValue(b.values, l, y), k, x);
    forall c ensures NumberOf(v, c) == NumberOf(w, c) {
      hide PutValue, NumberOf, Stored;
      PutIsLocal(PutValue(b.values, k, x), l, y, c);
      PutIsLocal(b.values, k, x, c);
      PutIsLocal(PutValue(b.values, l, y), k, x, c);
      PutIsLocal(b.values, l, y, c);
    }
    hide PutValue;
    NumbersDetermine(v, w);
    SwapNames(b.axisWords, k, l, 'X', 'Y', 'Z');
    SwapNames(b.ijkWords, k, l, 'I', 'J', 'K');
    assert b.words + {k} + {l} == b.words + {l} + {k};
  }

  lemma SwapNames(a: Axes, k: char, l: char, x: char, y: char, z: char)
    ensures NameAxis(NameAxis(a, k, x, y, z), l, x, y, z) == NameAxis(NameAxis(a, l, x, y, z), k, x, y, z)
  {
  }

  // ---------------------------------------------------------------- words

  predicate IsValue(w: Word) {
    w.letter in VALUE_LETTERS && w.number.Some?
  }

  /** What a value word needs by itself, after a number without a rest. */
  predicate FineValue(w: Word) {
    IsValue(w) && ValueCheck(w.letter, w.number.value, 0).None? && !(w.letter in POSITIVE_ONLY && w.number.value < 0.0)
  }

  lemma LettersAreKnown(letter: char)
    requires 'A' <= letter <= 'Z' || letter == '$'
    ensures letter in VALUE_LETTERS || letter == 'G' || letter == 'M'
  {
  }

  lemma TakeMeans(m: Machine, base: Motion, b: Block, w: Word)
    ensures var r := Take(m, base, b, w);
            if IsCommand(w) then
              if Admits(b, CommandOf(m, w)) then r == Accept(After(b, base, CommandOf(m, w))) else r.Reject?
            else if FineValue(w) && w.letter !in b.words then r == Accept(PutWord(b, w.letter, w.number.value))
            else r.Reject?
  {
    hide After, Admits, PutWord, DecodeG, DecodeM, IntPart, Mantissa, ScanCommand, ValueCheck;
    if 'A' <= w.letter <= 'Z' || w.letter == '$' {
      LettersAreKnown(w.letter);
    }
    if IsCommand(w) {
      AdmitsMeans(b, base, CommandOf(m, w));
    }
  }

  ghost predicate Pair(m: Machine, v: Word, w: Word) {
    !(Grabbing(m, v) && Claiming(m, w)) && !(Claiming(m, v) && Grabbing(m, w))
  }

  lemma CommandIsGrouped(m: Machine, w: Word)
    requires IsCommand(w)
    ensures WellGrouped(CommandOf(m, w))
  {
    hide DecodeG, DecodeM, WellGrouped;
    var i, n := IntPart(w.number.value), Mantissa(w.number.value);
    GIsGrouped(m, i, n);
    MIsGrouped(m, i, n);
  }

  /** Two words of a line may change places. */
  lemma SwapWords(m: Machine, base: Motion, b: Block, v: Word, w: Word)
    requires Pair(m, v, w)
    ensures Agree(TakeAll(m, base, b, [v, w]), TakeAll(m, base, b, [w, v]))
  {
    TakeTwo(m, base, b, v, w);
    TakeTwo(m, base, b, w, v);
    hide After, Admits, PutWord, CommandOf, ValueCheck, TakeAll, Take;
    TakeMeans(m, base, b, v);
    TakeMeans(m, base, b, w);
    var rv, rw := Take(m, base, b, v), Take(m, base, b, w);
    if rv.Accept? {
      TakeMeans(m, base, rv.value, w);
    }
    if rw.Accept? {
      TakeMeans(m, base, rw.value, v);
    }
    if IsCommand(v) && IsCommand(w) {
      CommandIsGrouped(m, v);
      CommandIsGrouped(m, w);
      SwapCommands(b, base, CommandOf(m, v), CommandOf(m, w));
    } else if IsCommand(v) && IsValue(w) {
      SwapCommandAndValue(b, base, CommandOf(m, v), w.letter, w.number.value);
      AfterKeepsWords(b, base, CommandOf(m, v));
    } else if IsCommand(w) && IsValue(v) {
      SwapCommandAndValue(b, base, CommandOf(m, w), v.letter, v.number.value);
      AfterKeepsWords(b, base, CommandOf(m, w));
    } else if IsValue(v) && IsValue(w) {
      PutRest(b, v.letter, v.number.value);
      PutRest(b, w.letter, w.number.value);
      if v.letter != w.letter {
        SwapValues(b, v.letter, v.number.value, w.letter, w.number.value);
      }
    }
  }

  lemma TakeOne(m: Machine, base: Motion, b: Block, w: Word)
    ensures TakeAll(m, base, b, [w]) == Take(m, base, b, w)
  {
    hide Take;
    assert [w][1..] == [];
    var r := Take(m, base, b, w);
    if r.Accept? {
      assert TakeAll(m, base, r.value, []) == r;
    }
  }

  lemma TakeTwo(m: Machine, base: Motion, b: Block, v: Word, w: Word)
    ensures TakeAll(m, base, b, [v, w])
            == var r := Take(m, base, b, v); if r.Accept? then Take(m, base, r.value, w) else r
  {
    hide Take;
    assert [v, w][1..] == [w];
    var r := Take(m, base, b, v);
    if r.Accept? {
      TakeOne(m, base, r.value, w);
    }
  }

  // ---------------------------------------------------------------- whole lines

  lemma {:induction false} TakeConcat(m: Machine, base: Motion, b: Block, u: seq<Word>, v: seq<Word>)
    ensures TakeAll(m, base, b, u + v)
            == var r := TakeAll(m, base, b, u); if r.Accept? then TakeAll(m, base, r.value, v) else r
    decreases |u|
  {
    hide Take;
    if u == [] {
      assert u + v == v;
    } else {
      assert (u + v)[0] == u[0] && (u + v)[1..] == u[1..] + v;
      var r := Take(m, base, b, u[0]);
      if r.Accept? {
        TakeConcat(m, base, r.value, u[1..], v);
      }
    }
  }

  /** No pair of words of the line depends on its order. */
  ghost predicate Paired(m: Machine, words: seq<Word>) {
    (forall w <- words :: !Grabbing(m, w)) || (forall w <- words :: !Claiming(m, w))
  }

  /** A word can be brought to the front. */
  lemma {:induction false} BringToFront(m: Machine, base: Motion, b: Block, u: seq<Word>, w: Word)
    requires Paired(m, u + [w])
    ensures Agree(TakeAll(m, base, b, u + [w]), TakeAll(m, base, b, [w] + u))
    decreases |u|
  {
    hide Take, TakeAll, Claiming, Grabbing;
    if u == [] {
      assert u + [w] == [w] + u;
    } else {
      var v, t := u[0], u[1..];
      assert u + [w] == [v] + (t + [w]) && [v] + ([w] + t) == [v, w] + t && [w] + u == [w, v] + t;
      assert v in u + [w] && w in u + [w] && forall x <- t + [w] :: x in u + [w];
      TakeConcat(m, base, b, [v], t + [w]);
      TakeConcat(m, base, b, [v], [w] + t);
      TakeConcat(m, base, b, [v, w], t);
      TakeConcat(m, base, b, [w, v], t);
      SwapWords(m, base, b, v, w);
      var r := TakeAll(m, base, b, [v]);
      if r.Accept? {
        BringToFront(m, base, r.value, t, w);
      }
    }
  }

  /** A word that neither claims nor grabs the axis words can be brought behind all others. */
  lemma {:induction false} QuietToBack(m: Machine, base: Motion, b: Block, v: Word, post: seq<Word>)
    requires !Claiming(m, v) && !Grabbing(m, v)
    ensures Agree(TakeAll(m, base, b, [v] + post), TakeAll(m, base, b, post + [v]))
    decreases |post|
  {
    hide Take, TakeAll, Claiming, Grabbing;
    if post == [] {
      assert [v] + post == post + [v];
    } else {
      var w, rest := post[0], post[1..];
      assert [v] + post == [v, w] + rest && post + [v] == [w] + (rest + [v]) && [w, v] + rest == [w] + ([v] + rest);
      SwapWords(m, base, b, v, w);
      TakeConcat(m, base, b, [v, w], rest);
      TakeConcat(m, base, b, [w, v], rest);
      TakeConcat(m, base, b, [w], [v] + rest);
      TakeConcat(m, base, b, [w], rest + [v]);
      var r := TakeAll(m, base, b, [w]);
      if r.Accept? {
        QuietToBack(m, base, r.value, v, rest);
      }
    }
  }

  lemma FromTheMiddle(m: Machine, base: Motion, b: Block, p: seq<Word>, w: Word, q: seq<Word>)
    requires Paired(m, p + [w] + q)
    ensures Agree(TakeAll(m, base, b, p + [w] + q), TakeAll(m, base, b, [w] + (p + q)))
  {
    hide TakeAll, Claiming, Grabbing;
    assert forall x <- p + [w] :: x in p + [w] + q;
    BringToFront(m, base, b, p, w);
    TakeConcat(m, base, b, p + [w], q);
    TakeConcat(m, base, b, [w] + p, q);
    assert [w] + p + q == [w] + (p + q);
  }

  /** Any two orders of a line without conflicting pairs come to the same. */
  lemma {:induction false} AnyOrder(m: Machine, base: Motion, b: Block, u: seq<Word>, v: seq<Word>)
    requires multiset(u) == multiset(v) && Paired(m, u)
    ensures Agree(TakeAll(m, base, b, u), TakeAll(m, base, b, v))
    decreases |u|
  {
    hide TakeAll, Paired;
    if u == [] {
      assert |multiset(v)| == 0;
      assert v == [];
    } else {
      var w, t := u[0], u[1..];
      var p, q := Locate(u, v, w, t);
      PairedPart(m, u, v);
      PairedPart(m, u, t);
      FromTheMiddle(m, base, b, p, w, q);
      FirstThenRest(m, base, b, w, t, p + q);
      var r := TakeAll(m, base, b, [w]);
      if r.Accept? {
        AnyOrder(m, base, r.value, t, p + q);
      }
    }
  }

  lemma Locate(u: seq<Word>, v: seq<Word>, w: Word, t: seq<Word>) returns (p: seq<Word>, q: seq<Word>)
    requires multiset(u) == multiset(v) && u != [] && w == u[0] && t == u[1..]
    ensures v == p + [w] + q && multiset(t) == multiset(p + q)
    ensures u == [w] + t && (forall x <- t :: x in u) && (forall x <- v :: x in u)
  {
    Members(u, v);
    assert w in u;
    var i :| 0 <= i < |v| && v[i] == w;
    p, q := v[..i], v[i + 1..];
    assert v == p + [w] + q;
    assert u == [w] + t;
    RemoveOne(w, t, p, q);
  }

  lemma PairedPart(m: Machine, u: seq<Word>, v: seq<Word>)
    requires Paired(m, u) && forall x <- v :: x in u
    ensures Paired(m, v)
  {
    hide Claiming, Grabbing;
  }

  lemma FirstThenRest(m: Machine, base: Motion, b: Block, w: Word, t: seq<Word>, u: seq<Word>)
    ensures var r := TakeAll(m, base, b, [w]);
            if r.Reject? then TakeAll(m, base, b, [w] + t).Reject? && TakeAll(m, base, b, [w] + u).Reject?
            else TakeAll(m, base, b, [w] + t) == TakeAll(m, base, r.value, t)
                 && TakeAll(m, base, b, [w] + u) == TakeAll(m, base, r.value, u)
  {
    hide TakeAll;
    TakeConcat(m, base, b, [w], t);
    TakeConcat(m, base, b, [w], u);
  }

  lemma RemoveOne(w: Word, t: seq<Word>, p: seq<Word>, q: seq<Word>)
    requires multiset([w] + t) == multiset(p + [w] + q)
    ensures multiset(t) == multiset(p + q)
  {
    MoveFront(p, w, q);
    assert multiset([w] + t) == multiset{w} + multiset(t);
    assert multiset([w] + (p + q)) == multiset{w} + multiset(p + q);
    assert multiset(t) == multiset([w] + t) - multiset{w};
    assert multiset(p + q) == multiset([w] + (p + q)) - multiset{w};
  }

  lemma Members(u: seq<Word>, v: seq<Word>)
    requires multiset(u) == multiset(v)
    ensures forall w :: w in u <==> w in v
  {
    forall w ensures w in u <==> w in v {
      assert w in u <==> w in multiset(u);
      assert w in v <==> w in multiset(v);
    }
  }

  // ---------------------------------------------------------------- the scanner itself

  ghost predicate Undisturbed(words: seq<Word>) {
    (forall w <- words :: w.letter != 'O') || (forall w <- words :: !LeavesRest(w))
  }

  ghost predicate Matches(r: Result<Scan>, s: Result<Block>) {
    if r.Accept? then s == Accept(r.value.block) else s.Reject?
  }

  lemma ScanTakes(m: Machine, base: Motion, s: Scan, w: Word)
    requires w.letter == 'O' ==> s.stale == 0
    ensures Matches(ScanWord(m, base, s, w), Take(m, base, s.block, w))
    ensures var r := ScanWord(m, base, s, w); r.Accept? && !LeavesRest(w) && s.stale == 0 ==> r.value.stale == 0
  {
    hide PutWord, DecodeG, DecodeM, IntPart, Mantissa, ScanCommand;
    if 'A' <= w.letter <= 'Z' || w.letter == '$' {
      LettersAreKnown(w.letter);
    }
  }

  lemma {:induction false} ScanTakesAll(m: Machine, base: Motion, s: Scan, words: seq<Word>)
    requires (forall w <- words :: w.letter != 'O') || (s.stale == 0 && forall w <- words :: !LeavesRest(w))
    ensures Matches(ScanWords(m, base, s, words), TakeAll(m, base, s.block, words))
    decreases |words|
  {
    hide ScanWord, Take, LeavesRest;
    if words != [] {
      ScanTakes(m, base, s, words[0]);
      var r := ScanWord(m, base, s, words[0]);
      if r.Accept? {
        ScanTakesAll(m, base, r.value, words[1..]);
      }
    }
  }

  ghost predicate AnyOrderScans(m: Machine, st: State, line: Line) {
    forall words: seq<Word> :: multiset(words) == multiset(line.words) ==>
      Agree(ScanLine(m, st, line.(words := words)), ScanLine(m, st, line))
  }

  lemma OrderlyLines(m: Machine, st: State, line: Line, words: seq<Word>)
    requires Orderly(m, line.words) && multiset(words) == multiset(line.words)
    ensures Agree(ScanLine(m, st, line.(words := words)), ScanLine(m, st, line))
  {
    hide ScanWords, TakeAll, LeavesRest, Claiming, Grabbing;
    Members(line.words, words);
    var s := Scan(NewBlock(st, line.jog), 0);
    ScanTakesAll(m, st.modal.motion, s, words);
    ScanTakesAll(m, st.modal.motion, s, line.words);
    AnyOrder(m, st.modal.motion, s.block, line.words, words);
  }

  /** Two words that must not stand in this order. */
  ghost predicate Clash(m: Machine, v: Word, w: Word) {
    (Grabbing(m, v) && Claiming(m, w)) || (LeavesRest(v) && w.letter == 'O')
  }

  lemma GrabsFirst(m: Machine, base: Motion, s: Scan, v: Word, w: Word)
    requires Grabbing(m, v) && Claiming(m, w)
    ensures var r := ScanWord(m, base, s, v); r.Accept? ==> ScanWord(m, base, r.value, w).Reject?
  {
    hide DecodeG, DecodeM, IntPart, Mantissa, ScanCommand, WellGrouped;
    AdmitsMeans(s.block, base, CommandOf(m, v));
    var r := ScanWord(m, base, s, v);
    if r.Accept? {
      hide After;
      AfterWrites(s.block, base, CommandOf(m, v), G0);
      CommandIsGrouped(m, v);
      GrabsScaling(CommandOf(m, v));
      AdmitsMeans(r.value.block, base, CommandOf(m, w));
    }
  }

  lemma GrabsScaling(c: Command)
    requires WellGrouped(c) && c.Command? && c.claim.Overwrites?
    ensures c.claim.cmd == ScalingCmd
  {
  }

  lemma RestFirst(m: Machine, base: Motion, s: Scan, v: Word, w: Word)
    requires LeavesRest(v) && w.letter == 'O'
    ensures var r := ScanWord(m, base, s, v); r.Accept? ==> ScanWord(m, base, r.value, w).Reject?
  {
    hide PutWord, DecodeG, DecodeM, IntPart, Mantissa, ScanCommand;
  }

  lemma ClashRejects(m: Machine, base: Motion, s: Scan, v: Word, w: Word, rest: seq<Word>)
    requires Clash(m, v, w)
    ensures ScanWords(m, base, s, [v, w] + rest).Reject?
  {
    hide ScanWord, LeavesRest, Claiming, Grabbing;
    if LeavesRest(v) && w.letter == 'O' {
      RestFirst(m, base, s, v, w);
    } else {
      GrabsFirst(m, base, s, v, w);
    }
    var words := [v, w] + rest;
    assert words[0] == v && words[1..][0] == w;
    var r := ScanWord(m, base, s, v);
    if r.Accept? {
      assert ScanWords(m, base, r.value, words[1..]).Reject?;
    }
  }

  lemma OneToFront(words: seq<Word>, v: Word) returns (rest: seq<Word>)
    requires v in words
    ensures multiset([v] + rest) == multiset(words)
    ensures forall w :: w in words && w != v ==> w in rest
  {
    var i :| 0 <= i < |words| && words[i] == v;
    rest := words[..i] + words[i + 1..];
    assert words == words[..i] + [v] + words[i + 1..];
    MoveFront(words[..i], v, words[i + 1..]);
  }

  lemma TwoToFront(words: seq<Word>, v: Word, w: Word) returns (rest: seq<Word>)
    requires v in words && w in words && v != w
    ensures multiset([v, w] + rest) == multiset(words)
  {
    var one := OneToFront(words, v);
    rest := OneToFront(one, w);
    assert [v, w] + rest == [v] + ([w] + rest);
    assert multiset([v] + ([w] + rest)) == multiset{v} + multiset([w] + rest);
    assert multiset([v] + one) == multiset{v} + multiset(one);
  }

  lemma MoveFront(p: seq<Word>, w: Word, q: seq<Word>)
    ensures multiset(p + [w] + q) == multiset([w] + (p + q))
  {
    assert multiset(p + [w] + q) == multiset(p) + multiset{w} + multiset(q);
    assert multiset([w] + (p + q)) == multiset{w} + multiset(p + q);
  }

  lemma FindClash(m: Machine, words: seq<Word>) returns (v: Word, w: Word)
    requires !Orderly(m, words)
    ensures v in words && w in words && v != w && Clash(m, v, w)
  {
    hide Claiming, Grabbing, LeavesRest;
    if !Paired(m, words) {
      v :| v in words && Grabbing(m, v);
      w :| w in words && Claiming(m, w);
      GrabsIsNotClaims(m, v);
    } else {
      v :| v in words && LeavesRest(v);
      w :| w in words && w.letter == 'O';
      RestIsNotO(v);
    }
  }

  lemma GrabsIsNotClaims(m: Machine, w: Word)
    ensures !(Grabbing(m, w) && Claiming(m, w))
  {
    hide CommandOf;
  }

  lemma RestIsNotO(w: Word)
    requires LeavesRest(w)
    ensures w.letter != 'O'
  {
  }

  /** A line that the scanner accepts may be written in any order exactly when it is orderly. */
  lemma AnyOrderIff(m: Machine, st: State, line: Line)
    requires ScanLine(m, st, line).Accept?
    ensures AnyOrderScans(m, st, line) <==> Orderly(m, line.words)
  {
    hide Orderly, ScanLine;
    if Orderly(m, line.words) {
      forall words: seq<Word> | multiset(words) == multiset(line.words)
        ensures Agree(ScanLine(m, st, line.(words := words)), ScanLine(m, st, line))
      {
        OrderlyLines(m, st, line, words);
      }
    } else {
      var v, w := FindClash(m, line.words);
      var rest := TwoToFront(line.words, v, w);
      var words := [v, w] + rest;
      ClashingLine(m, st, line.(words := words), v, w, rest);
      assert !Agree(ScanLine(m, st, line.(words := words)), ScanLine(m, st, line));
    }
  }

  lemma ClashingLine(m: Machine, st: State, line: Line, v: Word, w: Word, rest: seq<Word>)
    requires line.words == [v, w] + rest && Clash(m, v, w)
    ensures ScanLine(m, st, line).Reject?
  {
    hide ScanWords, Clash;
    ClashRejects(m, st.modal.motion, Scan(NewBlock(st, line.jog), 0), v, w, rest);
  }

  /** Whatever the order of an orderly line, it does the same. */
  lemma OrderDoesNotMatter(m: Machine, st: State, line: Line, words: seq<Word>)
    requires Orderly(m, line.words) && multiset(words) == multiset(line.words)
    ensures var e, f := Execute(m, st, line), Execute(m, st, line.(words := words));
            f.st == e.st && f.events == e.events && (f.status == Ok <==> e.status == Ok)
  {
    OrderlyLines(m, st, line, words);
    assert |multiset(words)| == |words| && |multiset(line.words)| == |line.words|;
    hide Orderly, ScanLine, ExecuteBlock;
  }

  // ---------------------------------------------------------------- lines that are carried out

  lemma OneMoreLetter(m: Machine, base: Motion, s: Scan, w: Word)
    requires ScanWord(m, base, s, w).Accept?
    ensures s.block.words <= ScanWord(m, base, s, w).value.block.words
    ensures w.letter == 'O' ==> 'O' in ScanWord(m, base, s, w).value.block.words
  {
    hide PutValue, NameAxis, DecodeG, DecodeM, IntPart, Mantissa, ScanCommand, ValueCheck, Rest;
    if w.letter == 'G' || w.letter == 'M' {
      var c := if w.letter == 'G' then DecodeG(m, IntPart(w.number.value), Mantissa(w.number.value))
               else DecodeM(m, IntPart(w.number.value), Mantissa(w.number.value));
      var r := ScanCommand(s.block, base, c);
      CommandKeepsLetters(s.block, base, c);
    }
  }

  lemma CommandKeepsLetters(b: Block, base: Motion, c: Command)
    requires ScanCommand(b, base, c).Accept?
    ensures ScanCommand(b, base, c).value.words == b.words
  {
    hide ScanCommand, Rest;
    Admitted(b, base, c);
    CommandWrites(b, base, c, G0);
    RestMeans(b, ScanCommand(b, base, c).value);
  }

  lemma {:induction false} LettersAreRead(m: Machine, base: Motion, s: Scan, words: seq<Word>)
    requires ScanWords(m, base, s, words).Accept?
    ensures s.block.words <= ScanWords(m, base, s, words).value.block.words
    ensures (exists w <- words :: w.letter == 'O') ==> 'O' in ScanWords(m, base, s, words).value.block.words
    decreases |words|
  {
    hide ScanWord;
    if words != [] {
      OneMoreLetter(m, base, s, words[0]);
      LettersAreRead(m, base, ScanWord(m, base, s, words[0]).value, words[1..]);
    }
  }

  /** An O word has no use in this configuration: a line with one is refused. */
  lemma OWordIsRefused(m: Machine, st: State, line: Line)
    requires ScanLine(m, st, line).Accept? && Execute(m, st, line).status == Ok
    ensures forall w <- line.words :: w.letter != 'O'
  {
    hide ScanWords, Execute;
    if exists w <- line.words :: w.letter == 'O' {
      assert line.words != [];
      LettersAreRead(m, st.modal.motion, Scan(NewBlock(st, line.jog), 0), line.words);
      Refusals.ForeignLineIsRefused(m, st, line, 'O');
    }
  }

  ghost predicate AnyOrderExecutes(m: Machine, st: State, line: Line) {
    forall words: seq<Word> :: multiset(words) == multiset(line.words) ==>
      Execute(m, st, line.(words := words)) == Execute(m, st, line)
  }

  /** A line that is carried out may be written in any order, with the same answer, the same state and the same motions,
      exactly when no G50 or G51 stands beside a word that claims the axis words. */
  lemma AcceptedOrderIff(m: Machine, st: State, line: Line)
    requires line.words != [] && ScanLine(m, st, line).Accept? && Execute(m, st, line).status == Ok
    ensures AnyOrderExecutes(m, st, line) <==> Paired(m, line.words)
  {
    OWordIsRefused(m, st, line);
    if Paired(m, line.words) {
      forall words: seq<Word> | multiset(words) == multiset(line.words)
        ensures Execute(m, st, line.(words := words)) == Execute(m, st, line)
      {
        hide Paired;
        OrderlyLines(m, st, line, words);
        SameLine(m, st, line, words);
      }
    } else {
      var v, w := FindClash(m, line.words);
      var rest := TwoToFront(line.words, v, w);
      hide ScanLine, ExecuteBlock, Clash, Paired;
      var words := [v, w] + rest;
      ClashingLine(m, st, line.(words := words), v, w, rest);
      assert Execute(m, st, line.(words := words)).status != Ok;
    }
  }

  lemma SameLine(m: Machine, st: State, line: Line, words: seq<Word>)
    requires multiset(words) == multiset(line.words) && ScanLine(m, st, line).Accept?
    requires Agree(ScanLine(m, st, line.(words := words)), ScanLine(m, st, line))
    ensures Execute(m, st, line.(words := words)) == Execute(m, st, line)
  {
    assert |multiset(words)| == |words| && |multiset(line.words)| == |line.words|;
    hide ScanLine, ExecuteBlock;
  }
}
