/** What is known of a block once its words are read: each command writes to the slot of its own modal
    group, each value word to its own number. */
module ScanFacts {
  import opened GcTypes
  import opened Scanner

  // ---------------------------------------------------------------- slots

  /** What a block says in one modal group. */
  datatype Slot =
    | NonModalSlot(nonModal: NonModal)
    | MotionSlot(motion: Motion, canned: bool, change: bool)
    | PlaneSlot(plane: Plane)
    | DistanceSlot(incremental: bool)
    | FeedSlot(feedMode: FeedMode)
    | UnitSlot(imperial: bool)
    | ToolSlot(toolMode: ToolMode)
    | RetractSlot(toR: bool)
    | ScalingSlot(scaling: bool)
    | CoordSlot(coord: CoordSystem)
    | FlowSlot(flow: Flow)
    | ToolNowSlot(now: bool)
    | SpindleSlot(on: bool, ccw: bool)
    | CoolantSlot(coolant: Coolant, now: bool)
    | OverrideSlot(cmd: OverrideCmd)
    | NoSlot

  function SlotOf(b: Block, g: Group): Slot {
    match g
    case G0 => NonModalSlot(b.nonModal)
    case G1 => MotionSlot(b.modal.motion, b.modal.canned, b.cannedChange)
    case G2 => PlaneSlot(b.modal.plane)
    case G3 => DistanceSlot(b.modal.incremental)
    case G5 => FeedSlot(b.modal.feedMode)
    case G6 => UnitSlot(b.modal.imperial)
    case G8 => ToolSlot(b.modal.toolMode)
    case G10 => RetractSlot(b.modal.retractToR)
    case G11 => ScalingSlot(b.modal.scaling)
    case G12 => CoordSlot(b.modal.coord)
    case M4 => FlowSlot(b.flow)
    case M6 => ToolNowSlot(b.setTool)
    case M7 => SpindleSlot(b.spindleOn, b.spindleCcw)
    case M8 => CoolantSlot(b.modal.coolant, b.setCoolant)
    case M9 => OverrideSlot(b.overrideCmd)
    case _ => NoSlot
  }

  /** What a write makes of the slot of its group. */
  function Written(base: Motion, write: Write, s: Slot): Slot {
    match write
    case Nothing => s
    case ToNonModal(nonModal) => NonModalSlot(nonModal)
    case ToMotion(motion, canned) => MotionSlot(motion, canned, if canned then motion != base else s.MotionSlot? && s.change)
    case ToPlane(plane) => PlaneSlot(plane)
    case ToIncremental(incremental) => DistanceSlot(incremental)
    case ToFeedMode(feedMode) => FeedSlot(feedMode)
    case ToImperial(imperial) => UnitSlot(imperial)
    case ToToolMode(toolMode) => ToolSlot(toolMode)
    case ToCoord(id) => if s.CoordSlot? then CoordSlot(s.coord.(id := id)) else s
    case ToRetract(toR) => RetractSlot(toR)
    case ToScaling(scaling) => ScalingSlot(scaling)
    case ToFlow(flow) => FlowSlot(flow)
    case ToSpindle(on, ccw) => SpindleSlot(on, ccw)
    case MistOn => if s.CoolantSlot? then CoolantSlot(s.coolant.(mist := true), true) else s
    case FloodOn => if s.CoolantSlot? then CoolantSlot(s.coolant.(flood := true), true) else s
    case CoolantOff => CoolantSlot(Coolant(false, false), true)
    case ToOverride(cmd) => OverrideSlot(cmd)
    case SetToolNow => ToolNowSlot(true)
  }

  function GroupOf(write: Write): Option<Group> {
    match write
    case Nothing => None
    case ToNonModal(_) => Some(G0)
    case ToMotion(_, _) => Some(G1)
    case ToPlane(_) => Some(G2)
    case ToIncremental(_) => Some(G3)
    case ToFeedMode(_) => Some(G5)
    case ToImperial(_) => Some(G6)
    case ToToolMode(_) => Some(G8)
    case ToCoord(_) => Some(G12)
    case ToRetract(_) => Some(G10)
    case ToScaling(_) => Some(G11)
    case ToFlow(_) => Some(M4)
    case ToSpindle(_, _) => Some(M7)
    case MistOn => Some(M8)
    case FloodOn => Some(M8)
    case CoolantOff => Some(M8)
    case ToOverride(_) => Some(M9)
    case SetToolNow => Some(M6)
  }

  lemma PlainWritesAreLocal(b: Block, base: Motion, write: Write, h: Group)
    requires write.Nothing? || write.ToNonModal? || write.ToFlow? || write.ToSpindle? || write.ToOverride? || write.SetToolNow?
    ensures SlotOf(Perform(b, base, write), h)
            == if GroupOf(write) == Some(h) then Written(base, write, SlotOf(b, h)) else SlotOf(b, h)
  {
  }

  lemma ModeWritesAreLocal(b: Block, base: Motion, write: Write, h: Group)
    requires write.ToMotion? || write.ToPlane? || write.ToIncremental? || write.ToFeedMode? || write.ToImperial?
    ensures SlotOf(Perform(b, base, write), h)
            == if GroupOf(write) == Some(h) then Written(base, write, SlotOf(b, h)) else SlotOf(b, h)
  {
  }

  lemma CoordWritesAreLocal(b: Block, base: Motion, write: Write, h: Group)
    requires write.ToCoord? || write.ToScaling?
    ensures SlotOf(Perform(b, base, write), h)
            == if GroupOf(write) == Some(h) then Written(base, write, SlotOf(b, h)) else SlotOf(b, h)
  {
  }

  lemma RetractWritesAreLocal(b: Block, base: Motion, write: Write, h: Group)
    requires write.ToToolMode? || write.ToRetract?
    ensures SlotOf(Perform(b, base, write), h)
            == if GroupOf(write) == Some(h) then Written(base, write, SlotOf(b, h)) else SlotOf(b, h)
  {
  }

  lemma CoolantWritesAreLocal(b: Block, base: Motion, write: Write, h: Group)
    requires write.MistOn? || write.FloodOn? || write.CoolantOff?
    ensures SlotOf(Perform(b, base, write), h)
            == if GroupOf(write) == Some(h) then Written(base, write, SlotOf(b, h)) else SlotOf(b, h)
  {
  }

  /** A command reads and writes only the slot of its group. */
  lemma PerformIsLocal(b: Block, base: Motion, write: Write, h: Group)
    ensures SlotOf(Perform(b, base, write), h)
            == if GroupOf(write) == Some(h) then Written(base, write, SlotOf(b, h)) else SlotOf(b, h)
  {
    hide Perform, SlotOf, GroupOf, Written;
    if write.Nothing? || write.ToNonModal? || write.ToFlow? || write.ToSpindle? || write.ToOverride? || write.SetToolNow? {
      PlainWritesAreLocal(b, base, write, h);
    } else if write.ToMotion? || write.ToPlane? || write.ToIncremental? || write.ToFeedMode? || write.ToImperial? {
      ModeWritesAreLocal(b, base, write, h);
    } else if write.ToCoord? || write.ToScaling? {
      CoordWritesAreLocal(b, base, write, h);
    } else if write.ToToolMode? || write.ToRetract? {
      RetractWritesAreLocal(b, base, write, h);
    } else {
      CoolantWritesAreLocal(b, base, write, h);
    }
  }

  /** The part of a block that no G or M word writes but for the axis command and the groups. */
  function Rest(b: Block): Block {
    b.(nonModal := NoAction, cannedChange := false, flow := Running, setTool := false, spindleOn := false,
       spindleCcw := false, setCoolant := false, overrideCmd := NoOverride, axisCmd := NoAxisCmd, groups := {},
       modal := b.modal.(motion := Seek, canned := false, plane := XY, incremental := false, feedMode := UnitsPerMin,
                         imperial := false, toolMode := CancelTlo, retractToR := false, scaling := false,
                         coord := CoordSystem(0, b.modal.coord.xyz), coolant := Coolant(false, false)))
  }

  lemma RestMeans(b: Block, c: Block)
    requires Rest(b) == Rest(c)
    ensures b.jog == c.jog && b.values == c.values && b.words == c.words
    ensures b.axisWords == c.axisWords && b.ijkWords == c.ijkWords
    ensures b.modal.spindle == c.modal.spindle && b.modal.ctrl == c.modal.ctrl && b.modal.splinePq == c.modal.splinePq
    ensures b.modal.coord.xyz == c.modal.coord.xyz
  {
  }

  lemma PerformKeepsRest(b: Block, base: Motion, write: Write)
    ensures var c := Perform(b, base, write); Rest(c) == Rest(b) && c.axisCmd == b.axisCmd && c.groups == b.groups
  {
  }

  lemma ModesDetermine(b: Block, c: Block)
    requires forall g: Group :: SlotOf(b, g) == SlotOf(c, g)
    ensures b.modal.motion == c.modal.motion && b.modal.canned == c.modal.canned && b.cannedChange == c.cannedChange
    ensures b.modal.plane == c.modal.plane && b.modal.incremental == c.modal.incremental
    ensures b.modal.feedMode == c.modal.feedMode && b.modal.imperial == c.modal.imperial && b.modal.toolMode == c.modal.toolMode
  {
    assert SlotOf(b, G1) == SlotOf(c, G1);
    assert SlotOf(b, G2) == SlotOf(c, G2);
    assert SlotOf(b, G3) == SlotOf(c, G3);
    assert SlotOf(b, G5) == SlotOf(c, G5);
    assert SlotOf(b, G6) == SlotOf(c, G6);
    assert SlotOf(b, G8) == SlotOf(c, G8);
  }

  lemma SettingsDetermine(b: Block, c: Block)
    requires forall g: Group :: SlotOf(b, g) == SlotOf(c, g)
    ensures b.modal.retractToR == c.modal.retractToR && b.modal.scaling == c.modal.scaling
    ensures b.modal.coord == c.modal.coord && b.modal.coolant == c.modal.coolant && b.setCoolant == c.setCoolant
  {
    assert SlotOf(b, G10) == SlotOf(c, G10);
    assert SlotOf(b, G11) == SlotOf(c, G11);
    assert SlotOf(b, G12) == SlotOf(c, G12);
    assert SlotOf(b, M8) == SlotOf(c, M8);
  }

  lemma ActionsDetermine(b: Block, c: Block)
    requires forall g: Group :: SlotOf(b, g) == SlotOf(c, g)
    ensures b.nonModal == c.nonModal && b.flow == c.flow && b.setTool == c.setTool
    ensures b.spindleOn == c.spindleOn && b.spindleCcw == c.spindleCcw && b.overrideCmd == c.overrideCmd
  {
    assert SlotOf(b, G0) == SlotOf(c, G0);
    assert SlotOf(b, M4) == SlotOf(c, M4);
    assert SlotOf(b, M6) == SlotOf(c, M6);
    assert SlotOf(b, M7) == SlotOf(c, M7);
    assert SlotOf(b, M9) == SlotOf(c, M9);
  }

  /** A block is its slots and the rest. */
  lemma SlotsDetermine(b: Block, c: Block)
    requires forall g: Group :: SlotOf(b, g) == SlotOf(c, g)
    requires Rest(b) == Rest(c) && b.axisCmd == c.axisCmd && b.groups == c.groups
    ensures b == c
  {
    hide SlotOf, Rest;
    ModesDetermine(b, c);
    SettingsDetermine(b, c);
    ActionsDetermine(b, c);
    RestMeans(b, c);
    assert b.modal == c.modal;
  }

  // ---------------------------------------------------------------- commands

  /** The non-modal commands that take axis words. */
  predicate NeedsAxes(nonModal: NonModal) {
    nonModal.SetOffset? || nonModal.SetCoordinateData? || nonModal.GoHome0? || nonModal.GoHome1?
  }

  /** How commands of a group treat the axis command. */
  predicate ClaimFits(claim: Claim, group: Option<Group>, write: Write) {
    match claim
    case NoClaim => true
    case Claims(cmd) =>
      || (cmd == NonModalCmd && group == Some(G0) && write.ToNonModal? && NeedsAxes(write.nonModal))
      || (cmd == MotionCmd && group == Some(G1))
      || (cmd == ToolLengthCmd && group == Some(G8) && write == ToToolMode(DynamicTlo))
    case Overwrites(cmd) => cmd == ScalingCmd && group == Some(G11)
  }

  /** The groups with words that change nothing. */
  predicate IdleGroup(group: Option<Group>) {
    group.None? || group.value in {G4, G7, G13, M4}
  }

  /** A command writes in its own group, and what needs axes claims them. */
  predicate WellGrouped(c: Command) {
    c.Command? ==>
      && (if c.write.Nothing? then c.late.Some? || IdleGroup(c.group) else GroupOf(c.write) == c.group)
      && ClaimFits(c.claim, c.group, c.write)
      && (c.write.ToNonModal? && NeedsAxes(c.write.nonModal) ==> c.claim == Claims(NonModalCmd))
      && (c.write == ToToolMode(DynamicTlo) ==> c.claim == Claims(ToolLengthCmd))
      && (c.write.ToScaling? ==> c.claim == Overwrites(ScalingCmd))
      && (c.write.ToMotion? && !c.write.motion.NoMotion? ==> c.claim == Claims(MotionCmd))
  }

  lemma WordsAreGrouped(mantissa: nat)
    ensures forall motion, canned {:trigger MotionWord(mantissa, motion, canned)} :: WellGrouped(MotionWord(mantissa, motion, canned))
    ensures forall a: NonModal, b: Option<NonModal> {:trigger NonModalWord(mantissa, a, b)} ::
              NeedsAxes(a) && (b.Some? ==> !NeedsAxes(b.value)) ==> WellGrouped(NonModalWord(mantissa, a, b))
    ensures forall on {:trigger ScalingWord(mantissa, on)} :: WellGrouped(ScalingWord(mantissa, on))
  {
  }

  lemma GIsGrouped(m: Machine, code: nat, mantissa: nat)
    ensures WellGrouped(DecodeG(m, code, mantissa))
  {
    hide MotionWord, NonModalWord, ScalingWord;
    WordsAreGrouped(mantissa);
    WordsAreGrouped(0);
  }

  lemma MIsGrouped(m: Machine, code: nat, mantissa: nat)
    ensures WellGrouped(DecodeM(m, code, mantissa))
  {
  }

  // ---------------------------------------------------------------- value words

  datatype Number = Real(r: real) | Whole(i: int) | NoNumber

  function NumberOf(v: Values, letter: char): Number {
    match letter
    case 'A' => Real(v.abc.x)
    case 'B' => Real(v.abc.y)
    case 'C' => Real(v.abc.z)
    case 'D' => Real(v.d)
    case 'E' => Real(v.e)
    case 'F' => Real(v.f)
    case 'H' => Whole(v.h)
    case 'I' => Real(v.ijk.x)
    case 'J' => Real(v.ijk.y)
    case 'K' => Real(v.ijk.z)
    case 'L' => Whole(v.l)
    case 'N' => Whole(v.n)
    case 'O' => Whole(v.o)
    case 'P' => Real(v.p)
    case 'Q' => Real(v.q)
    case 'R' => Real(v.r)
    case 'S' => Real(v.s)
    case 'T' => Whole(v.t)
    case 'U' => Real(v.uvw.x)
    case 'V' => Real(v.uvw.y)
    case 'W' => Real(v.uvw.z)
    case 'X' => Real(v.xyz.x)
    case 'Y' => Real(v.xyz.y)
    case 'Z' => Real(v.xyz.z)
    case '$' => Whole(v.dollar)
    case _ => NoNumber
  }

  /** What a value word stores. */
  function Stored(letter: char, value: real): Number {
    if letter == 'L' then Whole(IntPart(value) % 256)
    else if letter in {'H', 'O', 'T'} then Whole(IntPart(value))
    else if letter in {'N', '$'} then Whole(Trunc(value))
    else Real(value)
  }

  lemma FirstPutsAreLocal(v: Values, letter: char, value: real, k: char)
    requires letter in {'A', 'B', 'C', 'I', 'J', 'K', 'U', 'V', 'W', 'X', 'Y', 'Z'}
    ensures NumberOf(PutValue(v, letter, value), k) == if k == letter then Stored(letter, value) else NumberOf(v, k)
  {
    hide IntPart, Trunc;
  }

  lemma SecondPutsAreLocal(v: Values, letter: char, value: real, k: char)
    requires letter in {'D', 'E', 'F', 'P', 'Q', 'R', 'S'}
    ensures NumberOf(PutValue(v, letter, value), k) == if k == letter then Stored(letter, value) else NumberOf(v, k)
  {
    hide IntPart, Trunc;
  }

  lemma ThirdPutsAreLocal(v: Values, letter: char, value: real, k: char)
    requires letter in {'H', 'L', 'N', 'O', 'T', '$'}
    ensures NumberOf(PutValue(v, letter, value), k) == if k == letter then Stored(letter, value) else NumberOf(v, k)
  {
    hide IntPart, Trunc;
  }

  /** A value word writes its own number only. */
  lemma PutIsLocal(v: Values, letter: char, value: real, k: char)
    requires letter in VALUE_LETTERS
    ensures NumberOf(PutValue(v, letter, value), k) == if k == letter then Stored(letter, value) else NumberOf(v, k)
  {
    hide PutValue, NumberOf, Stored;
    if letter in {'A', 'B', 'C', 'I', 'J', 'K', 'U', 'V', 'W', 'X', 'Y', 'Z'} {
      FirstPutsAreLocal(v, letter, value, k);
    } else if letter in {'D', 'E', 'F', 'P', 'Q', 'R', 'S'} {
      SecondPutsAreLocal(v, letter, value, k);
    } else {
      ThirdPutsAreLocal(v, letter, value, k);
    }
  }

  lemma AxesDetermine(v: Values, w: Values)
    requires forall k :: NumberOf(v, k) == NumberOf(w, k)
    ensures v.xyz == w.xyz && v.ijk == w.ijk
  {
    assert NumberOf(v, 'X') == NumberOf(w, 'X');
    assert NumberOf(v, 'Y') == NumberOf(w, 'Y');
    assert NumberOf(v, 'Z') == NumberOf(w, 'Z');
    assert NumberOf(v, 'I') == NumberOf(w, 'I');
    assert NumberOf(v, 'J') == NumberOf(w, 'J');
    assert NumberOf(v, 'K') == NumberOf(w, 'K');
  }

  lemma OtherAxesDetermine(v: Values, w: Values)
    requires forall k :: NumberOf(v, k) == NumberOf(w, k)
    ensures v.abc == w.abc && v.uvw == w.uvw
  {
    assert NumberOf(v, 'A') == NumberOf(w, 'A');
    assert NumberOf(v, 'B') == NumberOf(w, 'B');
    assert NumberOf(v, 'C') == NumberOf(w, 'C');
    assert NumberOf(v, 'U') == NumberOf(w, 'U');
    assert NumberOf(v, 'V') == NumberOf(w, 'V');
    assert NumberOf(v, 'W') == NumberOf(w, 'W');
  }

  lemma RealsDetermine(v: Values, w: Values)
    requires forall k :: NumberOf(v, k) == NumberOf(w, k)
    ensures v.d == w.d && v.e == w.e && v.f == w.f && v.p == w.p && v.q == w.q && v.r == w.r && v.s == w.s
  {
    assert NumberOf(v, 'D') == NumberOf(w, 'D');
    assert NumberOf(v, 'E') == NumberOf(w, 'E');
    assert NumberOf(v, 'F') == NumberOf(w, 'F');
    assert NumberOf(v, 'P') == NumberOf(w, 'P');
    assert NumberOf(v, 'Q') == NumberOf(w, 'Q');
    assert NumberOf(v, 'R') == NumberOf(w, 'R');
    assert NumberOf(v, 'S') == NumberOf(w, 'S');
  }

  lemma WholesDetermine(v: Values, w: Values)
    requires forall k :: NumberOf(v, k) == NumberOf(w, k)
    ensures v.h == w.h && v.l == w.l && v.n == w.n && v.o == w.o && v.t == w.t && v.dollar == w.dollar
  {
    assert NumberOf(v, 'H') == NumberOf(w, 'H');
    assert NumberOf(v, 'L') == NumberOf(w, 'L');
    assert NumberOf(v, 'N') == NumberOf(w, 'N');
    assert NumberOf(v, 'O') == NumberOf(w, 'O');
    assert NumberOf(v, 'T') == NumberOf(w, 'T');
    assert NumberOf(v, '$') == NumberOf(w, '$');
  }

  /** The numbers of a block are given by their letters. */
  lemma NumbersDetermine(v: Values, w: Values)
    requires forall k :: NumberOf(v, k) == NumberOf(w, k)
    ensures v == w
  {
    hide NumberOf;
    AxesDetermine(v, w);
    OtherAxesDetermine(v, w);
    RealsDetermine(v, w);
    WholesDetermine(v, w);
  }

  // ---------------------------------------------------------------- blocks

  /** A block as far as its words are read, and the empty block it started from. */
  ghost predicate Read(b0: Block, b: Block) {
    && b.jog == b0.jog && b.modal.coord.xyz == b0.modal.coord.xyz
    && b.modal.spindle == b0.modal.spindle && b.modal.ctrl == b0.modal.ctrl && b.modal.splinePq == b0.modal.splinePq
    && (forall g: Group :: g !in b.groups ==> SlotOf(b, g) == SlotOf(b0, g))
    && Claimed(b)
  }

  /** The axis command stands for a word of its group, and a block that needs axes has claimed them,
      unless G50 or G51 took them away. */
  ghost predicate Claimed(b: Block) {
    Standing(b) && Covered(b)
  }

  ghost predicate Standing(b: Block) {
    && (b.axisCmd.ScalingCmd? <==> G11 in b.groups)
    && (b.axisCmd.MotionCmd? ==> G1 in b.groups)
    && (b.axisCmd.NonModalCmd? ==> G0 in b.groups && NeedsAxes(b.nonModal))
    && (b.axisCmd.ToolLengthCmd? ==> G8 in b.groups)
  }

  ghost predicate Covered(b: Block) {
    && (NeedsAxes(b.nonModal) ==> b.axisCmd.NonModalCmd? || b.axisCmd.ScalingCmd?)
    && (G8 in b.groups && b.modal.toolMode.DynamicTlo? ==> b.axisCmd.ToolLengthCmd? || b.axisCmd.ScalingCmd?)
    && (G1 in b.groups && !b.modal.motion.NoMotion? ==> b.axisCmd.MotionCmd? || b.axisCmd.ScalingCmd?)
    && !(NeedsAxes(b.nonModal) && G8 in b.groups && b.modal.toolMode.DynamicTlo?)
  }

  /** The numbers whose letter was not read are still those of the empty block. */
  ghost predicate ReadValues(b0: Block, b: Block) {
    && (b.axisWords.x <==> 'X' in b.words) && (b.axisWords.y <==> 'Y' in b.words) && (b.axisWords.z <==> 'Z' in b.words)
    && (b.ijkWords.x <==> 'I' in b.words) && (b.ijkWords.y <==> 'J' in b.words) && (b.ijkWords.z <==> 'K' in b.words)
    && (forall k :: k !in b.words ==> NumberOf(b.values, k) == NumberOf(b0.values, k))
    && b.values.f >= 0.0
  }

  lemma TakesAxes(b: Block, claim: Claim, h: Group)
    ensures var c := TakeAxes(b, claim);
            && SlotOf(c, h) == SlotOf(b, h) && Rest(c) == Rest(b) && c.groups == b.groups
            && c.axisCmd == if claim.NoClaim? then b.axisCmd else claim.cmd
  {
  }

  lemma Enters(b: Block, group: Option<Group>, h: Group)
    ensures var c := Enter(b, group);
            && SlotOf(c, h) == SlotOf(b, h) && Rest(c) == Rest(b) && c.axisCmd == b.axisCmd
            && c.groups == if group.Some? then b.groups + {group.value} else b.groups
  {
  }

  /** What an accepted command does: to a slot, to the axis command and to the groups, and to nothing else. */
  lemma CommandWrites(b: Block, base: Motion, c: Command, h: Group)
    requires c.Command? && ScanCommand(b, base, c).Accept?
    ensures var d := ScanCommand(b, base, c).value;
            && Rest(d) == Rest(b)
            && d.axisCmd == (if c.claim.NoClaim? then b.axisCmd else c.claim.cmd)
            && d.groups == (if c.group.Some? then b.groups + {c.group.value} else b.groups)
            && SlotOf(d, h) == (if GroupOf(c.write) == Some(h) then Written(base, c.write, SlotOf(b, h)) else SlotOf(b, h))
  {
    hide Perform, TakeAxes, Enter, Rest, SlotOf, GroupOf, Written;
    var b1 := TakeAxes(b, c.claim);
    var b2 := Perform(b1, base, c.write);
    TakesAxes(b, c.claim, h);
    PerformIsLocal(b1, base, c.write, h);
    PerformKeepsRest(b1, base, c.write);
    Enters(b2, c.group, h);
  }

  lemma CommandReads(b0: Block, b: Block, base: Motion, c: Command)
    requires Read(b0, b) && WellGrouped(c)
    ensures var r := ScanCommand(b, base, c); r.Accept? ==> Read(b0, r.value) && Rest(r.value) == Rest(b)
  {
    hide Rest, SlotOf, GroupOf, Written, Standing, Covered, TakeAxes, Perform, Enter;
    var r := ScanCommand(b, base, c);
    if r.Accept? {
      var d := r.value;
      CommandWrites(b, base, c, G0);
      RestMeans(b, d);
      forall g | g !in d.groups ensures SlotOf(d, g) == SlotOf(b0, g) {
        CommandWrites(b, base, c, g);
        NothingHasNoGroup(c.write);
      }
      CommandStands(b, base, c, d);
      CommandCovers(b, base, c, d);
    }
  }

  lemma NothingHasNoGroup(write: Write)
    ensures GroupOf(write).None? <==> write.Nothing?
  {
  }

  lemma CommandStands(b: Block, base: Motion, c: Command, d: Block)
    requires Standing(b) && WellGrouped(c) && ScanCommand(b, base, c) == Accept(d)
    ensures Standing(d)
  {
    hide TakeAxes, Perform, Enter, Rest, SlotOf, Written, GroupOf;
    CommandWrites(b, base, c, G0);
    GroupOfScaling(c.write);
    Admitted(b, base, c);
    SlotFields(b);
    SlotFields(d);
    WrittenSlots(b, base, c.write);
    NothingHasNoGroup(c.write);
    if c.group.Some? {
      GroupIsNew(b, base, c);
    }
  }

  lemma GroupIsNew(b: Block, base: Motion, c: Command)
    requires ScanCommand(b, base, c).Accept? && c.Command? && c.group.Some?
    ensures c.group.value !in b.groups
  {
    hide TakeAxes, Perform, Enter;
  }

  lemma GroupOfScaling(write: Write)
    ensures GroupOf(write) == Some(G11) <==> write.ToScaling?
  {
  }

  lemma Admitted(b: Block, base: Motion, c: Command)
    requires ScanCommand(b, base, c).Accept?
    ensures c.Command? && c.late.None? && (c.claim.Claims? ==> b.axisCmd.NoAxisCmd?)
  {
    hide TakeAxes, Perform, Enter;
  }

  lemma CommandCovers(b: Block, base: Motion, c: Command, d: Block)
    requires Standing(b) && Covered(b) && WellGrouped(c) && ScanCommand(b, base, c) == Accept(d)
    ensures Covered(d)
  {
    hide ScanCommand, Rest, SlotOf, Written, GroupOf;
    Admitted(b, base, c);
    CommandWrites(b, base, c, G0);
    CommandWrites(b, base, c, G1);
    CommandWrites(b, base, c, G8);
    SlotFields(b);
    SlotFields(d);
    WrittenSlots(b, base, c.write);
  }

  /** What a write makes of the three slots that can need axis words. */
  lemma WrittenSlots(b: Block, base: Motion, write: Write)
    ensures GroupOf(write) == Some(G0) ==> write.ToNonModal? && Written(base, write, SlotOf(b, G0)) == NonModalSlot(write.nonModal)
    ensures GroupOf(write) == Some(G8) ==> write.ToToolMode? && Written(base, write, SlotOf(b, G8)) == ToolSlot(write.toolMode)
    ensures GroupOf(write) == Some(G1) ==> write.ToMotion? && Written(base, write, SlotOf(b, G1)).MotionSlot?
                                           && Written(base, write, SlotOf(b, G1)).motion == write.motion
    ensures GroupOf(write) == Some(M4) ==> write.ToFlow? && Written(base, write, SlotOf(b, M4)) == FlowSlot(write.flow)
  {
    hide SlotOf;
  }

  lemma SlotFields(b: Block)
    ensures SlotOf(b, G0) == NonModalSlot(b.nonModal)
    ensures SlotOf(b, G1) == MotionSlot(b.modal.motion, b.modal.canned, b.cannedChange)
    ensures SlotOf(b, G8) == ToolSlot(b.modal.toolMode)
    ensures SlotOf(b, M4) == FlowSlot(b.flow)
  {
  }

  lemma ValueReads(b0: Block, b: Block, letter: char, value: real)
    requires Read(b0, b) && ReadValues(b0, b) && letter in VALUE_LETTERS && (letter in POSITIVE_ONLY ==> value >= 0.0)
    ensures Read(b0, PutWord(b, letter, value)) && ReadValues(b0, PutWord(b, letter, value))
  {
    hide PutValue, NumberOf, Stored, SlotOf, Claimed;
    var c := PutWord(b, letter, value);
    forall k ensures NumberOf(c.values, k) == if k == letter then Stored(letter, value) else NumberOf(b.values, k) {
      PutIsLocal(b.values, letter, value, k);
    }
    FeedIs(b.values, value);
    FeedIs(c.values, value);
    PutKeepsSlots(b, letter, value);
  }

  lemma PutKeepsSlots(b: Block, letter: char, value: real)
    ensures forall g: Group :: SlotOf(PutWord(b, letter, value), g) == SlotOf(b, g)
    ensures Claimed(b) ==> Claimed(PutWord(b, letter, value))
  {
    hide PutValue, NameAxis;
  }

  lemma FeedIs(v: Values, value: real)
    ensures NumberOf(v, 'F') == Real(v.f) && Stored('F', value) == Real(value)
  {
  }

  lemma ScanLetters(m: Machine, base: Motion, s: Scan, w: Word)
    requires ScanWord(m, base, s, w).Accept? && w.letter != 'G' && w.letter != 'M'
    ensures w.number.Some? && w.letter in VALUE_LETTERS && w.letter !in s.block.words
    ensures w.letter in POSITIVE_ONLY ==> w.number.value >= 0.0
    ensures ScanWord(m, base, s, w).value.block == PutWord(s.block, w.letter, w.number.value)
  {
    hide ScanCommand, PutWord, ValueCheck, Mantissa;
  }

  lemma WordReads(m: Machine, base: Motion, b0: Block, s: Scan, w: Word)
    requires Read(b0, s.block) && ReadValues(b0, s.block)
    ensures var r := ScanWord(m, base, s, w); r.Accept? ==> Read(b0, r.value.block) && ReadValues(b0, r.value.block)
  {
    hide Read, Rest, PutWord, DecodeG, DecodeM, ValueCheck, Mantissa, IntPart, ScanCommand;
    var r := ScanWord(m, base, s, w);
    if r.Accept? && (w.letter == 'G' || w.letter == 'M') {
      var i, n := IntPart(w.number.value), Mantissa(w.number.value);
      var c := if w.letter == 'G' then DecodeG(m, i, n) else DecodeM(m, i, n);
      GIsGrouped(m, i, n);
      MIsGrouped(m, i, n);
      CommandReads(b0, s.block, base, c);
      RestMeans(s.block, r.value.block);
    } else if r.Accept? {
      ScanLetters(m, base, s, w);
      ValueReads(b0, s.block, w.letter, w.number.value);
    }
  }

  lemma {:induction false} WordsRead(m: Machine, base: Motion, b0: Block, s: Scan, words: seq<Word>)
    requires Read(b0, s.block) && ReadValues(b0, s.block)
    ensures var r := ScanWords(m, base, s, words); r.Accept? ==> Read(b0, r.value.block) && ReadValues(b0, r.value.block)
    decreases |words|
  {
    hide Read, ReadValues, ScanWord;
    if words != [] {
      WordReads(m, base, b0, s, words[0]);
      var r := ScanWord(m, base, s, words[0]);
      if r.Accept? {
        WordsRead(m, base, b0, r.value, words[1..]);
      }
    }
  }

  /** A block that has been read differs from the empty block only in the groups and letters it names. */
  lemma LineReads(m: Machine, st: State, line: Line)
    ensures var r := ScanLine(m, st, line);
            r.Accept? ==> Read(NewBlock(st, line.jog), r.value) && ReadValues(NewBlock(st, line.jog), r.value)
  {
    hide ScanWords;
    var b0 := NewBlock(st, line.jog);
    assert Read(b0, b0) && ReadValues(b0, b0);
    WordsRead(m, st.modal.motion, b0, Scan(b0, 0), line.words);
  }
}
