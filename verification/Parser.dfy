/** gc_execute_block as it works: on the parser state and on the block under work, both changed in place,
    with loops over words and axes. Each step is proved against the function that says what it does. */
module Parser {
  import opened GcTypes
  import opened Scanner
  import opened Validation
  import opened Execution
  import G = Geometry
  import Offsets
  import FeedSafety
  import Quirks
  import ColdRuns

  /** `u` on the named axes from `idx` on, `v` elsewhere: how far a loop over the axes has come. */
  ghost predicate Done(idx: int, axes: Axes, r: Vec, u: Vec, v: Vec) {
    forall k :: 0 <= k < 3 ==> r.At(k) == if k >= idx && axes.Has(k) then u.At(k) else v.At(k)
  }

  lemma DoneIsPick(axes: Axes, r: Vec, u: Vec, v: Vec)
    requires Done(0, axes, r, u, v)
    ensures r == Pick(axes, u, v)
  {
    assert r.At(0) == Pick(axes, u, v).At(0) && r.At(1) == Pick(axes, u, v).At(1) && r.At(2) == Pick(axes, u, v).At(2);
  }

  lemma NotYet(axes: Axes, u: Vec, v: Vec)
    ensures Done(3, axes, v, u, v)
  {
  }

  lemma OneMore(idx: nat, axes: Axes, r: Vec, u: Vec, v: Vec)
    requires idx < 3 && Done(idx + 1, axes, r, u, v)
    ensures axes.Has(idx) ==> Done(idx, axes, r.Put(idx, u.At(idx)), u, v)
    ensures !axes.Has(idx) ==> Done(idx, axes, r, u, v)
    ensures r.At(idx) == v.At(idx)
  {
  }

  class GcodeParser {
    const m: Machine
    var state: State
    var block: Block
    var coordId: CoordId
    var coordData: Vec
    var turns: int
    var sent: seq<Event>

    constructor (m: Machine, state: State)
      ensures this.m == m && this.state == ColdInit(m, state) && sent == []
    {
      this.m := m;
      this.state := state;
      this.block := NewBlock(state, false);
      this.coordId := 0;
      this.coordData := ORIGIN;
      this.turns := 0;
      this.sent := [];
      new;
      Init();
    }

    function Now(): Work
      reads this
    {
      Work(state, block, coordId, coordData, turns)
    }

    /** A step has done what the function says. */
    ghost predicate Follows(o: Outcome, status: Status)
      reads this
    {
      match o
      case Stop(s, st) => status == s && state == st
      case Go(w) => status == Ok && Now() == w
    }

    // ---------------------------------------------------------------- small helpers of gcode.c

    /** add_offset. */
    method PushOffset()
      modifies this`state
      ensures state == AddOffset(old(state))
    {
      state := state.(offsetId := (state.offsetId + 1) % MAX_OFFSET_ENTRIES);
      state := state.(offsetQueue := state.offsetQueue[state.offsetId := state.g92]);
    }

    /** set_scaling. */
    method ResetScaling()
      modifies this`state
      ensures state == ScalingOff(old(state))
    {
      var idx := 3;
      var axes := Axes(true, true, true);
      var was := state.scale.ijk;
      state := state.(scale := state.scale.(xyz := ORIGIN));
      NotYet(axes, ONES, was);
      while idx > 0
        invariant 0 <= idx <= 3
        invariant state == old(state).(scale := Scale(ORIGIN, state.scale.ijk))
        invariant Done(idx, axes, state.scale.ijk, ONES, was)
      {
        idx := idx - 1;
        OneMore(idx, axes, state.scale.ijk, ONES, was);
        state := state.(scale := state.scale.(ijk := state.scale.ijk.Put(idx, 1.0)));
      }
      DoneIsPick(axes, state.scale.ijk, ONES, was);
      state := state.(modal := state.modal.(scaling := false));
    }

    /** gc_init on a cold start. */
    method Init()
      modifies this`state
      ensures state == ColdInit(m, old(state))
    {
      state := Cleared(state).(g92 := ORIGIN, tlo := ORIGIN, toolId := 0);
      ResetScaling();
      state := LoadCoord(state);
      if !m.g92Volatile {
        state := state.(g92 := state.store[STORE_G92]);
        state := state.(offsetQueue := state.offsetQueue[state.offsetId := state.g92]);
      }
    }

    /** gc_init after a reset; `stop` keeps the coordinate system and the tool offset mode. */
    method InitWarm(stop: bool, ctrl: OverrideCtrl)
      modifies this`state
      ensures state == WarmInit(old(state), stop, ctrl)
    {
      var id, mode := state.modal.coord.id, state.modal.toolMode;
      state := Cleared(state).(toolPending := state.toolId);
      state := state.(modal := state.modal.(ctrl := ctrl));
      if stop {
        state := state.(modal := state.modal.(coord := state.modal.coord.(id := id), toolMode := mode));
      }
      ResetScaling();
      state := LoadCoord(state);
    }

    // ---------------------------------------------------------------- STEP 2: reading words

    /** The loop over the words of a line. */
    method ReadWords(line: Line) returns (status: Status)
      modifies this`block
      ensures match ScanLine(m, state, line)
              case Reject(s) => status == s
              case Accept(b) => status == Ok && block == b
    {
      hide DecodeG, DecodeM, ScanCommand, IntPart, Mantissa, NewBlock, PutWord, ValueCheck;
      var base := state.modal.motion;
      block := NewBlock(state, line.jog);
      var stale, i := 0, 0;
      ghost var whole := ScanWords(m, base, Scan(block, 0), line.words);
      assert line.words[0..] == line.words;
      while i < |line.words|
        invariant 0 <= i <= |line.words| && stale >= 0
        invariant ScanWords(m, base, Scan(block, stale), line.words[i..]) == whole
      {
        var w := line.words[i];
        assert line.words[i..][0] == w && line.words[i..][1..] == line.words[i + 1..];
        if (w.letter < 'A' && w.letter != '$') || w.letter > 'Z' {
          return ExpectedCommandLetter;
        }
        if w.number.None? {
          return BadNumberFormat;
        }
        var value := w.number.value;
        var code, mantissa := IntPart(value), Mantissa(value);
        if w.letter == 'G' || w.letter == 'M' {
          var command := if w.letter == 'G' then DecodeG(m, code, mantissa) else DecodeM(m, code, mantissa);
          status := ReadCommand(base, command);
          if status != Ok {
            return;
          }
          stale := 0;
        } else {
          status := ReadValue(w.letter, value, stale);
          if status != Ok {
            return;
          }
          if w.letter != 'O' {
            stale := mantissa;
          }
        }
        i := i + 1;
      }
      assert line.words[i..] == [];
      status := Ok;
    }

    method ReadCommand(base: Motion, c: Command) returns (status: Status)
      modifies this`block
      ensures match ScanCommand(old(block), base, c)
              case Reject(s) => status == s
              case Accept(b) => status == Ok && block == b
    {
      match c
      case Bad(s) => status := s;
      case Command(group, claim, late, write) =>
        if claim.Claims? && block.axisCmd != NoAxisCmd {
          return AxisCommandConflict;
        }
        if late.Some? {
          return late.value;
        }
        if group.Some? && group.value in block.groups {
          return ModalGroupViolation;
        }
        if !claim.NoClaim? {
          block := block.(axisCmd := claim.cmd);
        }
        block := Perform(block, base, write);
        if group.Some? {
          block := block.(groups := block.groups + {group.value});
        }
        status := Ok;
    }

    method ReadValue(letter: char, value: real, stale: nat) returns (status: Status)
      requires 'A' <= letter <= 'Z' || letter == '$'
      requires letter != 'G' && letter != 'M'
      modifies this`block
      ensures match ScanWord(m, Seek, Scan(old(block), stale), Word(letter, Some(value)))
              case Reject(s) => status == s
              case Accept(s) => status == Ok && block == s.block
      ensures forall base :: ScanWord(m, base, Scan(old(block), stale), Word(letter, Some(value)))
                             == ScanWord(m, Seek, Scan(old(block), stale), Word(letter, Some(value)))
    {
      var check := ValueCheck(letter, value, stale);
      if check.Some? {
        return check.value;
      }
      if letter in block.words {
        return WordRepeated;
      }
      if letter in POSITIVE_ONLY && value < 0.0 {
        return NegativeValue;
      }
      block := PutWord(block, letter, value);
      status := Ok;
    }

    // ---------------------------------------------------------------- STEP 3: words

    method CommonChecks() returns (status: Status)
      modifies this`block
      ensures Follows(CheckCommon(old(Now())), status)
    {
      if block.axisWords.Any() && block.axisCmd.NoAxisCmd? {
        block := block.(axisCmd := MotionCmd);
      }
      if 'N' in block.words && block.values.n > MAX_LINE_NUMBER {
        return InvalidLineNumber;
      }
      status := Ok;
    }

    method FeedChecks() returns (status: Status)
      modifies this`block
      ensures Follows(CheckFeed(old(Now())), status)
    {
      status := Ok;
      if block.jog {
        if 'F' !in block.words {
          return UndefinedFeedRate;
        }
        if block.modal.imperial {
          block := block.(values := block.values.(f := block.values.f * MM_PER_INCH));
        }
      } else if block.modal.motion.SpindleSync? {
        block := block.(words := block.words - {'K'});
      } else if block.modal.feedMode.InverseTime? {
        if block.axisCmd.MotionCmd? && !block.modal.motion.NoMotion? && !block.modal.motion.Seek? {
          if 'F' !in block.words {
            return UndefinedFeedRate;
          }
        }
      } else if 'F' in block.words {
        if block.modal.imperial {
          block := block.(values := block.values.(f := block.values.f * MM_PER_INCH));
        }
      } else if block.modal.feedMode == state.modal.feedMode {
        block := block.(values := block.values.(f := state.feedRate));
      }
    }

    method SpindleChecks() returns (status: Status)
      modifies this`block
      ensures Follows(CheckSpindle(m, old(Now())), status)
    {
      status := Ok;
      var single := SingleSpindle(block);
      var addressed := '$' in block.words && (M7 in block.groups || single);
      if addressed {
        if block.values.dollar < (if single then 0 else -1) {
          return if single then NegativeValue else ValueOutOfRange;
        }
        if block.values.dollar > 0 {
          return ValueOutOfRange;
        }
      }
      if block.modal.feedMode.UnitsPerRev? && !m.encoder {
        return UnsupportedCommand;
      }
      if addressed {
        block := block.(words := block.words - {'$'});
      }
      if 'S' !in block.words {
        block := block.(values := block.values.(s := state.modal.spindle.rpm));
      }
    }

    method ToolChecks() returns (status: Status)
      modifies this`block
      ensures Follows(CheckTool(old(Now())), status)
    {
      hide IsInt, ToUint32;
      status := Ok;
      if block.setTool {
        if 'Q' !in block.words {
          return ValueWordMissing;
        }
        if !IsInt(block.values.q) {
          return CommandValueNotInteger;
        }
        if block.values.q > MAX_TOOL_NUMBER as real {
          return IllegalToolTableEntry;
        }
        block := block.(values := block.values.(t := ToUint32(block.values.q)));
        block := block.(words := block.words - {'Q'});
      } else if 'T' !in block.words {
        block := block.(values := block.values.(t := state.toolPending));
      }
    }

    method SpindleStateChecks() returns (status: Status)
      modifies this`block
      ensures Follows(CheckSpindleState(m, old(Now())), status)
    {
      status := Ok;
      if M7 in block.groups {
        if block.spindleCcw && !m.reversible {
          return UnsupportedCommand;
        }
      } else {
        block := block.(spindleOn := state.modal.spindle.on, spindleCcw := state.modal.spindle.ccw);
      }
    }

    method OverrideChecks() returns (status: Status)
      modifies this`block
      ensures Follows(CheckOverride(old(Now())), status)
    {
      OverrideIs(Now());
      hide Overridden, CheckOverride;
      status := Ok;
      if M9 in block.groups {
        if 'P' in block.words && block.values.p < 0.0 {
          return NegativeValue;
        }
        var p := if 'P' in block.words then block.values.p else 1.0;
        var ctrl := Overridden(block.modal.ctrl, block.overrideCmd, p);
        block := block.(modal := block.modal.(ctrl := ctrl), values := block.values.(p := p), words := block.words - {'P'});
      }
    }

    method DwellChecks() returns (status: Status)
      modifies this`block
      ensures Follows(CheckDwell(old(Now())), status)
    {
      status := Ok;
      if block.nonModal.Dwell? {
        if 'P' !in block.words {
          return ValueWordMissing;
        }
        if block.values.p < 0.0 {
          return NegativeValue;
        }
        block := block.(words := block.words - {'P'});
      }
    }

    method WordChecks() returns (status: Status)
      modifies this`block
      ensures Follows(CheckWords(m, old(Now())), status)
    {
      hide CheckCommon, CheckFeed, CheckSpindle, CheckTool, CheckSpindleState, CheckOverride, CheckDwell;
      status := CommonChecks();
      if status != Ok {
        return;
      }
      status := FeedChecks();
      if status != Ok {
        return;
      }
      status := SpindleChecks();
      if status != Ok {
        return;
      }
      status := ToolChecks();
      if status != Ok {
        return;
      }
      status := SpindleStateChecks();
      if status != Ok {
        return;
      }
      status := OverrideChecks();
      if status != Ok {
        return;
      }
      status := DwellChecks();
    }

    // ---------------------------------------------------------------- STEP 3: axes

    method PutAxis(idx: nat, x: real)
      requires idx < 3
      modifies this`block
      ensures block == old(block).(values := old(block).values.(xyz := old(block).values.xyz.Put(idx, x)))
    {
      block := block.(values := block.values.(xyz := block.values.xyz.Put(idx, x)));
    }

    /** The loop over the axes from inches to millimetres. */
    method UnitConversion()
      modifies this`block
      ensures Now() == ConvertUnits(old(Now()))
    {
      if block.modal.imperial {
        var idx := 3;
        var was, axes := block.values.xyz, block.axisWords;
        ghost var mm := was.Times(MM_PER_INCH);
        NotYet(axes, mm, was);
        while idx > 0
          invariant 0 <= idx <= 3
          invariant block == old(block).(values := old(block).values.(xyz := block.values.xyz))
          invariant Done(idx, axes, block.values.xyz, mm, was)
        {
          idx := idx - 1;
          OneMore(idx, axes, block.values.xyz, mm, was);
          if axes.Has(idx) {
            PutAxis(idx, block.values.xyz.At(idx) * MM_PER_INCH);
          }
        }
        DoneIsPick(axes, block.values.xyz, mm, was);
      }
    }

    /** G50 and G51: the scale factors of the state change while the block is still being checked. */
    method ScalingChecks() returns (status: Status)
      modifies this`state, this`block
      ensures Follows(CheckScaling(old(Now())), status)
    {
      status := Ok;
      if block.axisCmd.ScalingCmd? {
        if block.modal.scaling {
          if !block.axisWords.Any() {
            return NoAxisWords;
          }
          var idx := 3;
          var was, axes := state.scale.ijk, block.axisWords;
          NotYet(axes, block.values.xyz, was);
          var active := state.scale.xyz != ONES;
          while idx > 0
            invariant 0 <= idx <= 3
            invariant block == old(block)
            invariant state == old(state).(scale := old(state).scale.(ijk := state.scale.ijk))
            invariant Done(idx, axes, state.scale.ijk, block.values.xyz, was)
          {
            idx := idx - 1;
            OneMore(idx, axes, state.scale.ijk, block.values.xyz, was);
            if axes.Has(idx) {
              state := state.(scale := state.scale.(ijk := state.scale.ijk.Put(idx, block.values.xyz.At(idx))));
            }
          }
          DoneIsPick(axes, state.scale.ijk, block.values.xyz, was);
          state := state.(modal := state.modal.(scaling := active));
          block := block.(modal := block.modal.(scaling := active));
          block := block.(words := block.words - {'X', 'Y', 'Z'});
          block := block.(axisWords := NO_AXES);
        } else {
          ResetScaling();
        }
      }
    }

    method AxisScaling()
      modifies this`block
      ensures Now() == ScaleAxes(old(Now()))
    {
      ScaleAxesIs(Now());
      hide Done, Vec.At, Vec.Put, Vec.Mul, Vec.Plus, Vec.Minus, ScaledNumber, Pick, ScaleAxes;
      if state.modal.scaling {
        var idx := 3;
        var was, axes, k, c := block.values.xyz, block.axisWords, state.scale.ijk, state.scale.xyz;
        ghost var scaled := if block.modal.incremental then was.Mul(k) else was.Minus(c).Mul(k).Plus(c);
        NotYet(axes, scaled, was);
        while idx > 0
          invariant 0 <= idx <= 3
          invariant block == old(block).(values := old(block).values.(xyz := block.values.xyz))
          invariant Done(idx, axes, block.values.xyz, scaled, was)
        {
          idx := idx - 1;
          OneMore(idx, axes, block.values.xyz, scaled, was);
          if axes.Has(idx) {
            var x := ScaledNumber(block.modal.incremental, block.values.xyz.At(idx), k.At(idx), c.At(idx));
            ScaledAt(was, k, c, idx);
            PutAxis(idx, x);
          }
        }
        DoneIsPick(axes, block.values.xyz, scaled, was);
      }
    }

    method ToolOffsetChecks() returns (status: Status)
      ensures Follows(CheckToolOffset(old(Now())), status) && Now() == old(Now())
    {
      status := Ok;
      if G8 in block.groups && block.modal.toolMode.DynamicTlo? && !block.axisWords.Any() {
        status := G43DynamicAxisError;
      }
    }

    method CoordSelection()
      modifies this`block
      ensures Now() == SelectCoord(old(Now()))
    {
      if G12 in block.groups && state.modal.coord.id != block.modal.coord.id {
        var coord := CoordSystem(block.modal.coord.id, state.store[block.modal.coord.id]);
        block := block.(modal := block.modal.(coord := coord));
      }
    }

    /** G10: the stored data are read, and the named axes replaced one by one. */
    method CoordDataChecks() returns (status: Status)
      modifies this`block, this`coordId, this`coordData
      ensures Follows(CheckCoordData(m, old(Now())), status)
    {
      hide Pick, ToUint32, Vec.Minus;
      var v := block.values;
      if !block.axisWords.Any() && (v.l == 20 || 'R' !in block.words) {
        return NoAxisWords;
      }
      if 'P' !in block.words && 'L' !in block.words {
        return ValueWordMissing;
      }
      if v.p < 0.0 {
        return NegativeValue;
      }
      if (v.l == 2 && 'R' in block.words) || (v.l != 2 && v.l != 20) {
        return UnsupportedCommand;
      }
      if ToUint32(v.p) % 256 > 9 {
        return UnsupportedCoordSys;
      }
      var id := WrittenCoord(block);
      if 6 <= id && id - 6 in m.offsetLock {
        return CoordSystemLocked;
      }
      coordId := id;
      coordData := state.store[id];
      var idx := 3;
      var axes := block.axisWords;
      ghost var was := coordData;
      ghost var data := if v.l == 20 then state.position.Minus(v.xyz).Minus(state.g92).Minus(state.tlo) else v.xyz;
      NotYet(axes, data, was);
      while idx > 0
        invariant 0 <= idx <= 3
        invariant block == old(block) && coordId == id
        invariant Done(idx, axes, coordData, data, was)
      {
        idx := idx - 1;
        OneMore(idx, axes, coordData, data, was);
        if axes.Has(idx) {
          var x := if v.l == 20 then HereLess(v.xyz, idx) else v.xyz.At(idx);
          coordData := coordData.Put(idx, x);
        }
      }
      DoneIsPick(axes, coordData, data, was);
      block := block.(words := block.words - {'L', 'P'});
      status := Ok;
    }

    /** The coordinate that makes `xyz` the position of one axis. */
    function HereLess(xyz: Vec, i: nat): (x: real)
      requires i < 3
      reads this`state
      ensures x == state.position.Minus(xyz).Minus(state.g92).Minus(state.tlo).At(i)
    {
      state.position.At(i) - xyz.At(i) - state.g92.At(i) - state.tlo.At(i)
    }

    /** G92: the loop over the axes turns the words into offsets. */
    method SetOffsetChecks() returns (status: Status)
      modifies this`block
      ensures Follows(CheckSetOffset(old(Now())), status)
    {
      hide Pick, Vec.Minus, Vec.Put;
      if !block.axisWords.Any() {
        return NoAxisWords;
      }
      var idx := 3;
      var axes, coord := block.axisWords, block.modal.coord.xyz;
      ghost var was := block.values.xyz;
      ghost var here := state.position.Minus(coord).Minus(was).Minus(state.tlo);
      assert forall k :: 0 <= k < 3 && !(k >= 3) ==> block.values.xyz.At(k) == was.At(k);
      while idx > 0
        invariant 0 <= idx <= 3
        invariant block == old(block).(values := old(block).values.(xyz := block.values.xyz))
        invariant forall k :: 0 <= k < 3 ==>
                      (block.values.xyz.At(k) == if k < idx then was.At(k) else if axes.Has(k) then here.At(k) else state.g92.At(k))
      {
        idx := idx - 1;
        ghost var before := block.values.xyz;
        var x := if axes.Has(idx) then OffsetTo(coord, block.values.xyz, idx) else state.g92.At(idx);
        PutAxis(idx, x);
        PutAt(before, idx, x);
      }
      AllAxes(block.values.xyz, Pick(axes, here, state.g92), axes, here, state.g92);
      status := Ok;
    }

    function OffsetTo(coord: Vec, xyz: Vec, i: nat): (x: real)
      requires i < 3
      reads this`state
      ensures forall v: Vec :: v.At(i) == xyz.At(i) ==> x == state.position.Minus(coord).Minus(v).Minus(state.tlo).At(i)
    {
      state.position.At(i) - coord.At(i) - xyz.At(i) - state.tlo.At(i)
    }

    /** The target of a motion: named axes get the offsets or the position added, the others stay. */
    method TargetComputation()
      modifies this`block
      ensures Now() == ComputeTarget(old(Now()))
    {
      TargetIs(Now());
      hide ComputeTarget, Pick, Vec.Plus, Vec.Put, BlockOffset;
      if (block.axisWords.Any() || block.modal.motion.Arc()) && !block.axisCmd.ToolLengthCmd? {
        var idx := 3;
        var axes := block.axisWords;
        ghost var was, named := block.values.xyz, NamedPoint(Now());
        while idx > 0
          invariant 0 <= idx <= 3
          invariant block == old(block).(values := old(block).values.(xyz := block.values.xyz))
          invariant forall k :: 0 <= k < 3 ==>
                      (block.values.xyz.At(k) == if k < idx then was.At(k) else if axes.Has(k) then named.At(k) else state.position.At(k))
        {
          idx := idx - 1;
          ghost var before := block.values.xyz;
          var x := state.position.At(idx);
          if axes.Has(idx) {
            x := block.values.xyz.At(idx);
            if !block.nonModal.AbsoluteOverride? {
              x := if block.modal.incremental then x + state.position.At(idx) else x + BlockOffset(state, block.modal).At(idx);
            }
            PlusAt(was, state.position, idx);
            PlusAt(was, BlockOffset(state, block.modal), idx);
          }
          PutAxis(idx, x);
          PutAt(before, idx, x);
        }
        AllAxes(block.values.xyz, Pick(axes, named, state.position), axes, named, state.position);
      }
    }

    /** G28 and G30: the stored position; axes that are not named stay where they are. */
    method HomeChecks(index: nat) returns (status: Status)
      requires index < 12
      modifies this`block, this`coordId, this`coordData
      ensures Follows(CheckHome(old(Now()), index), status)
    {
      hide Pick, Vec.Put;
      status := Ok;
      coordId := 0;
      coordData := state.store[index];
      if block.axisWords.Any() {
        var idx := 3;
        var axes := block.axisWords;
        ghost var home := coordData;
        while idx > 0
          invariant 0 <= idx <= 3
          invariant coordId == 0
          invariant block == old(block)
          invariant forall k :: 0 <= k < 3 ==>
                      (coordData.At(k) == if k < idx || axes.Has(k) then home.At(k) else state.position.At(k))
        {
          idx := idx - 1;
          if !axes.Has(idx) {
            PutAt(coordData, idx, state.position.At(idx));
            coordData := coordData.Put(idx, state.position.At(idx));
          }
        }
        AllAxes(coordData, Pick(axes, home, state.position), axes, home, state.position);
      } else {
        block := block.(axisCmd := NoAxisCmd);
      }
    }

    method NonModalChecks() returns (status: Status)
      modifies this`block, this`coordId, this`coordData
      ensures Follows(CheckNonModal(m, old(Now())), status)
    {
      hide CheckCoordData, CheckSetOffset, ComputeTarget, CheckHome;
      status := Ok;
      match block.nonModal {
        case SetCoordinateData => status := CoordDataChecks();
        case SetOffset => status := SetOffsetChecks();
        case GoHome0 =>
          TargetComputation();
          status := HomeChecks(STORE_G28);
        case GoHome1 =>
          TargetComputation();
          status := HomeChecks(STORE_G30);
        case AbsoluteOverride =>
          if !block.modal.motion.Seek? && !block.modal.motion.Linear? {
            return G53InvalidMotionMode;
          }
          TargetComputation();
        case _ => TargetComputation();
      }
    }

    method AxisChecks() returns (status: Status)
      modifies this`state, this`block, this`coordId, this`coordData
      ensures Follows(CheckAxes(m, old(Now())), status)
    {
      hide ConvertUnits, CheckScaling, ScaleAxes, SelectCoord, CheckNonModal;
      UnitConversion();
      status := ScalingChecks();
      if status != Ok {
        return;
      }
      AxisScaling();
      status := ToolOffsetChecks();
      if status != Ok {
        return;
      }
      CoordSelection();
      status := NonModalChecks();
    }

    // ---------------------------------------------------------------- STEP 3: motion

    method DropChecks()
      modifies this`block
      ensures Now() == DropAxisCmd(old(Now()))
    {
      if !block.axisWords.Any() {
        block := block.(axisCmd := NoAxisCmd);
      }
    }

    method TurnsChecks() returns (status: Status)
      modifies this`block, this`turns
      ensures Follows(CheckTurns(old(Now())), status)
    {
      hide IsInt, ToUint32;
      status := Ok;
      if 'P' !in block.words {
        turns := 1;
      } else {
        if !IsInt(block.values.p) {
          return CommandValueNotInteger;
        }
        if ToUint32(block.values.p) == 0 {
          return ValueOutOfRange;
        }
        turns := ToUint32(block.values.p);
        block := block.(words := block.words - {'P'});
      }
    }

    method RadiusArcChecks() returns (status: Status)
      modifies this`block
      ensures Follows(CheckRadiusArc(m, old(Now())), status)
    {
      hide ProgrammedRadius, RadiusCentre, G.FourHSquared, G.Abs, Vec.Put, Vec.Minus;
      var plane := block.modal.plane;
      if state.position == block.values.xyz {
        return InvalidTarget;
      }
      var end := PlaneOf(plane, block.values.xyz.Minus(state.position));
      var r := ProgrammedRadius(Now());
      if G.FourHSquared(end.x, end.y, r) < 0.0 {
        return ArcRadiusError;
      }
      var centre := RadiusCentre(m, block.modal.motion.CcwArc?, end, r);
      var ijk := block.values.ijk.Put(plane.Axis0(), centre.x).Put(plane.Axis1(), centre.y);
      block := block.(values := block.values.(ijk := ijk, r := G.Abs(r)), words := block.words - {'R'});
      status := Ok;
    }

    /** The loop over I, J and K: from inches to millimetres, and scaled. */
    method OffsetConversion()
      modifies this`block
      ensures block == old(block).(values := old(block).values.(ijk := CentreOffsets(old(Now()))))
    {
      OffsetsAt(Now());
      hide Vec.Put, CentreOffsets, Vec.At, Axes.Has;
      var idx := 3;
      ghost var was := block.values.ijk;
      ghost var end := CentreOffsets(Now());
      while idx > 0
        invariant 0 <= idx <= 3
        invariant block == old(block).(values := old(block).values.(ijk := block.values.ijk))
        invariant forall k :: 0 <= k < 3 ==> block.values.ijk.At(k) == if k < idx then was.At(k) else end.At(k)
      {
        idx := idx - 1;
        if block.ijkWords.Has(idx) {
          ghost var before := block.values.ijk;
          var x := block.values.ijk.At(idx);
          if block.modal.imperial {
            x := x * MM_PER_INCH;
          }
          if state.modal.scaling {
            x := x * state.scale.ijk.At(idx);
          }
          block := block.(values := block.values.(ijk := block.values.ijk.Put(idx, x)));
          PutAt(before, idx, x);
        }
      }
      SameVec(block.values.ijk, end);
    }

    method CentreArcChecks() returns (status: Status)
      modifies this`block
      ensures match CheckCentreArc(m, old(Now()))
              case Stop(s, st) => status == s && state == st
              case Go(w) => status == Ok && Now() == w
    {
      hide CentreOffsets, RadiiAgree, Distance, Vec.Minus;
      var plane := block.modal.plane;
      if !InPlane(plane, block.ijkWords) {
        return NoOffsetsInPlane;
      }
      OffsetConversion();
      var end, centre := PlaneOf(plane, block.values.xyz.Minus(state.position)), PlaneOf(plane, block.values.ijk);
      var r := Distance(m, centre, Planar(0.0, 0.0));
      if !RadiiAgree(Distance(m, end, centre), r) {
        return InvalidTarget;
      }
      block := block.(values := block.values.(r := r), words := block.words - {'I', 'J', 'K'});
      status := Ok;
    }

    method ArcChecks() returns (status: Status)
      modifies this`block, this`turns
      ensures Follows(CheckArc(m, old(Now())), status)
    {
      hide CheckTurns, CheckRadiusArc, CheckCentreArc;
      if 'R' in block.words {
        if !block.axisWords.Any() {
          return NoAxisWords;
        }
        if !InPlane(block.modal.plane, block.axisWords) {
          return NoAxisWordsInPlane;
        }
      }
      status := TurnsChecks();
      if status == Ok {
        if 'R' in block.words {
          status := RadiusArcChecks();
        } else {
          status := CentreArcChecks();
        }
      }
    }

    method CubicChecks() returns (status: Status)
      modifies this`state, this`block
      ensures Follows(CheckCubic(old(Now())), status)
    {
      hide CubicOffset, PlanarLength;
      if !block.modal.plane.XY? {
        return IllegalPlane;
      }
      if block.axisWords.z {
        return AxisCommandConflict;
      }
      if 'P' !in block.words || 'Q' !in block.words {
        return ValueWordMissing;
      }
      if block.modal.motion != state.modal.motion && ('I' !in block.words || 'J' !in block.words) {
        return ValueWordMissing;
      }
      var w := Now();
      var ijk, p, q := CubicOffset(w), PlanarLength(w, block.values.p, 0), PlanarLength(w, block.values.q, 1);
      block := block.(values := block.values.(ijk := ijk, p := p, q := q), words := block.words - {'P', 'Q', 'I', 'J'});
      state := state.(modal := state.modal.(splinePq := Pq(p, q)));
      status := Ok;
    }

    method QuadraticChecks() returns (status: Status)
      modifies this`block
      ensures Follows(CheckQuadratic(old(Now())), status)
    {
      hide SplineOffset;
      if !block.modal.plane.XY? {
        return IllegalPlane;
      }
      if block.axisWords.z {
        return AxisCommandConflict;
      }
      if 'I' !in block.words || 'J' !in block.words {
        return ValueWordMissing;
      }
      if block.values.ijk.x == 0.0 {
        return ValueOutOfRange;
      }
      var ijk := SplineOffset(Now(), block.values.ijk);
      block := block.(values := block.values.(ijk := ijk), words := block.words - {'I', 'J'});
      status := Ok;
    }

    method ProbeChecks() returns (status: Status)
      ensures Follows(CheckProbe(old(Now())), status) && Now() == old(Now())
    {
      status := Ok;
      if !block.axisWords.Any() {
        return NoAxisWords;
      }
      if state.position == block.values.xyz {
        return InvalidTarget;
      }
    }

    /** The data of a drilling cycle are collected in the state, step by step. */
    method CannedChecks() returns (status: Status)
      modifies this`state, this`block
      ensures Follows(CheckCanned(old(Now())), status)
    {
      hide CannedReset, CheckCycle;
      if block.cannedChange {
        if state.modal.feedMode.InverseTime? {
          return InvalidStatement;
        }
        if 'R' !in block.words || !block.axisWords.Has(block.modal.plane.AxisLinear()) {
          return ValueWordMissing;
        }
        StartCycle();
      }
      if 'L' in block.words {
        if block.values.l == 0 {
          return NonPositiveValue;
        }
      } else {
        block := block.(values := block.values.(l := 1));
      }
      status := CycleChecks();
    }

    method StartCycle()
      modifies this`state
      ensures Now() == CannedReset(old(Now())) && block == old(block)
    {
      var p := block.modal.plane;
      state := state.(canned := state.canned.(dwell := 0.0, rapidRetract := true, spindleOff := false));
      state := state.(canned := state.canned.(xyz := state.canned.xyz.Put(p.Axis0(), 0.0).Put(p.Axis1(), 0.0)));
    }

    method CycleChecks() returns (status: Status)
      modifies this`state, this`block
      ensures Follows(CheckCycle(old(Now())), status)
    {
      hide CannedRetract, CannedTarget, CheckDrill;
      RetractPosition();
      CycleTarget();
      if state.canned.retract < state.canned.xyz.At(block.modal.plane.AxisLinear()) {
        return InvalidRetractPosition;
      }
      block := block.(words := block.words - {'R', 'L'});
      status := DrillChecks();
    }

    method RetractPosition()
      modifies this`state
      ensures Now() == CannedRetract(old(Now()))
    {
      hide BlockOffset;
      if 'R' in block.words {
        var linear := block.modal.plane.AxisLinear();
        var r := ToMillimetres(block.modal.imperial, block.values.r);
        r := r + (if block.modal.incremental then state.position else BlockOffset(state, block.modal)).At(linear);
        state := state.(canned := state.canned.(retract := r));
      }
    }

    /** The loop over the axes of a cycle: depth along the linear axis, way in the plane. */
    method CycleTarget()
      modifies this`state
      ensures Now() == CannedTarget(old(Now()))
    {
      var linear := block.modal.plane.AxisLinear();
      var idx := 3;
      var axes := block.axisWords;
      ghost var was, way := state.canned.xyz, CycleWay(Now());
      CycleTargetIs(Now());
      hide CannedTarget, Vec.Put, Vec.Minus, Pick;
      NotYet(axes, way, was);
      while idx > 0
        invariant 0 <= idx <= 3
        invariant state == old(state).(canned := old(state).canned.(xyz := state.canned.xyz))
        invariant Done(idx, axes, state.canned.xyz, way, was)
      {
        idx := idx - 1;
        OneMore(idx, axes, state.canned.xyz, way, was);
        if axes.Has(idx) {
          var x := block.values.xyz.At(idx);
          if idx != linear {
            x := x - state.position.At(idx);
          } else if block.modal.incremental {
            x := x - state.position.At(idx) + state.canned.retract;
          }
          state := state.(canned := state.canned.(xyz := state.canned.xyz.Put(idx, x)));
        }
      }
      DoneIsPick(axes, state.canned.xyz, way, was);
    }

    method DrillChecks() returns (status: Status)
      modifies this`state, this`block
      ensures Follows(CheckDrill(old(Now())), status)
    {
      hide CannedDwell, CannedDelta, CannedPeck;
      status := Ok;
      var motion := block.modal.motion;
      if motion.Canned82? || motion.Canned86? || motion.Canned89? {
        if !motion.Canned82? {
          state := state.(canned := state.canned.(spindleOff := motion.Canned86?, rapidRetract := motion.Canned86?));
        }
        status := CycleDwell();
        if status == Ok {
          CycleDelta();
        }
      } else if motion.Canned81? || motion.Canned85? {
        CycleDelta();
      } else if motion.ChipBreak? || motion.Canned83? {
        status := CyclePeck();
      }
    }

    method CycleDwell() returns (status: Status)
      modifies this`state, this`block
      ensures Follows(CannedDwell(old(Now())), status)
    {
      status := Ok;
      if 'P' in block.words {
        if block.values.p < 0.0 {
          return NegativeValue;
        }
        state := state.(canned := state.canned.(dwell := block.values.p));
        block := block.(words := block.words - {'P'});
      } else if block.cannedChange {
        status := ValueWordMissing;
      }
    }

    method CycleDelta()
      modifies this`state
      ensures Now() == CannedDelta(old(Now()))
    {
      var delta := -state.canned.xyz.At(block.modal.plane.AxisLinear()) + state.canned.retract;
      state := state.(canned := state.canned.(delta := delta));
      if block.modal.motion.Canned85? {
        state := state.(canned := state.canned.(rapidRetract := false));
      }
    }

    method CyclePeck() returns (status: Status)
      modifies this`state, this`block
      ensures Follows(CannedPeck(old(Now())), status)
    {
      if 'Q' in block.words {
        if block.values.q <= 0.0 {
          return NegativeValue;
        }
        state := state.(canned := state.canned.(delta := ToMillimetres(block.modal.imperial, block.values.q)));
        block := block.(words := block.words - {'Q'});
      } else if block.cannedChange {
        return ValueWordMissing;
      }
      state := state.(canned := state.canned.(dwell := 0.25));
      status := Ok;
    }

    method MotionChecks() returns (status: Status)
      modifies this`state, this`block, this`turns
      ensures Follows(CheckMotion(m, old(Now())), status)
    {
      hide DropAxisCmd, CheckMode;
      status := Ok;
      if block.modal.motion.NoMotion? {
        if block.axisWords.Any() && !block.axisCmd.NonModalCmd? {
          return AxisWordsExist;
        }
        block := block.(modal := block.modal.(retractToR := false));
      } else if block.axisCmd.MotionCmd? {
        if block.modal.motion.Seek? {
          DropChecks();
        } else {
          if !block.modal.canned {
            block := block.(modal := block.modal.(retractToR := false));
          }
          if block.modal.motion.SpindleSync? || block.modal.motion.Threading? {
            return UnsupportedCommand;
          }
          if block.values.f == 0.0 {
            return UndefinedFeedRate;
          }
          status := ModeChecks();
        }
      }
    }

    method ModeChecks() returns (status: Status)
      modifies this`state, this`block, this`turns
      ensures Follows(CheckMode(m, old(Now())), status)
    {
      hide CheckCanned, DropAxisCmd, CheckArc, CheckCubic, CheckQuadratic, CheckProbe;
      status := Ok;
      if block.modal.canned {
        status := CannedChecks();
      } else {
        match block.modal.motion {
          case Linear => DropChecks();
          case CwArc => status := ArcChecks();
          case CcwArc => status := ArcChecks();
          case CubicSpline => status := CubicChecks();
          case QuadraticSpline => status := QuadraticChecks();
          case ProbeToward => status := ProbeChecks();
          case ProbeTowardNoError => status := ProbeChecks();
          case ProbeAway => status := ProbeChecks();
          case ProbeAwayNoError => status := ProbeChecks();
          case _ =>
        }
      }
    }

    /** Every word must have been used. */
    method UnusedChecks() returns (status: Status)
      modifies this`block
      ensures Follows(CheckUnused(old(Now())), status)
    {
      block := block.(words := block.words - (if block.jog then {'N', 'F'} else {'N', 'F', 'S', 'T'}));
      if !block.axisCmd.NoAxisCmd? {
        block := block.(words := block.words - {'X', 'Y', 'Z'});
      }
      status := if block.words != {} then UnusedWords else Ok;
    }

    // ---------------------------------------------------------------- STEP 4: execution

    method SetBasics()
      modifies this`state
      ensures state == CommitBasics(old(Now()), old(state))
    {
      var spindle, coolant, ctrl := state.modal.spindle.(rpm := block.values.s), state.modal.coolant, state.modal.ctrl;
      if M7 in block.groups {
        spindle := Spindle(block.spindleOn, block.spindleCcw, block.values.s);
      }
      if block.setCoolant {
        coolant := block.modal.coolant;
      }
      if M9 in block.groups {
        ctrl := block.modal.ctrl;
      }
      var modal := state.modal.(feedMode := block.modal.feedMode, spindle := spindle, coolant := coolant, ctrl := ctrl,
                                plane := block.modal.plane, imperial := block.modal.imperial);
      state := state.(modal := modal, lineNumber := block.values.n, feedRate := block.values.f);
    }

    method TakeCoord(ghost w: Work)
      requires w.b == block
      modifies this`state
      ensures state == CommitCoord(w, old(state))
    {
      if state.modal.coord.id != block.modal.coord.id {
        state := state.(modal := state.modal.(coord := block.modal.coord));
      }
    }

    method SetDistance(ghost w: Work)
      requires w.b == block
      modifies this`state
      ensures state == CommitDistance(w, old(state))
    {
      state := state.(modal := state.modal.(incremental := block.modal.incremental, retractToR := block.modal.retractToR));
    }

    method SetModes(env: Env)
      modifies this`state
      ensures state == CommitModes(old(Now()), env)
    {
      hide CommitBasics, CommitTool, CommitToolOffset, CommitCoord, CommitDistance;
      ghost var w := Now();
      SetBasics();
      SelectTool(w, env);
      SetToolOffset(w);
      TakeCoord(w);
      SetDistance(w);
    }

    method SelectTool(ghost w: Work, env: Env)
      requires w.b == block
      modifies this`state
      ensures state == CommitTool(w, env, old(state))
    {
      if state.toolPending != block.values.t {
        state := state.(toolPending := block.values.t);
        if !env.checkMode {
          state := state.(toolId := block.values.t);
        }
      }
    }

    /** G43.1 and G49: the loop over the axes. */
    method SetToolOffset(ghost w: Work)
      requires w.b == block
      modifies this`state
      ensures state == CommitToolOffset(w, old(state))
    {
      hide Pick, Vec.Put;
      if G8 in block.groups {
        var cancel := block.modal.toolMode.CancelTlo?;
        var idx := 3;
        var axes := block.axisWords;
        ghost var was := state.tlo;
        ghost var end := if cancel then ORIGIN else Pick(axes, block.values.xyz, was);
        PickAt(axes, block.values.xyz, was);
        while idx > 0
          invariant 0 <= idx <= 3
          invariant state == old(state).(tlo := state.tlo)
          invariant forall k :: 0 <= k < 3 ==> state.tlo.At(k) == if k < idx then was.At(k) else end.At(k)
        {
          idx := idx - 1;
          ghost var before := state.tlo;
          if cancel {
            state := state.(tlo := state.tlo.Put(idx, 0.0));
            PutAt(before, idx, 0.0);
          } else if axes.Has(idx) {
            state := state.(tlo := state.tlo.Put(idx, block.values.xyz.At(idx)));
            PutAt(before, idx, block.values.xyz.At(idx));
          }
        }
        SameVec(state.tlo, end);
        state := state.(modal := state.modal.(toolMode := block.modal.toolMode));
      }
    }

    /** G10, G28, G30, G92 and their kin. `w` is the block as it was checked, with the tag of its motions. */
    method DoNonModal(ghost w: Work)
      requires w.b == block && w.coordId == coordId && w.coordData == coordData
      modifies this`state
      ensures state == CommitNonModal(m, w, old(state))
    {
      hide AddOffset;
      match block.nonModal {
        case SetCoordinateData =>
          state := state.(store := state.store[coordId := coordData]);
          if state.modal.coord.id == coordId {
            state := state.(modal := state.modal.(coord := state.modal.coord.(xyz := coordData)));
          }
        case GoHome0 =>
          state := state.(position := coordData);
          ResetScaling();
        case GoHome1 =>
          state := state.(position := coordData);
          ResetScaling();
        case SetHome0 => state := state.(store := state.store[STORE_G28 := state.position]);
        case SetHome1 => state := state.(store := state.store[STORE_G30 := state.position]);
        case SetOffset =>
          state := state.(g92 := block.values.xyz, g92Applied := true);
          SaveOffset();
          PushOffset();
        case ResetOffset =>
          state := state.(g92 := ORIGIN, g92Applied := false);
          SaveOffset();
          PushOffset();
        case ClearOffset =>
          state := state.(g92 := ORIGIN, g92Applied := false);
          PushOffset();
        case RestoreOffset =>
          state := state.(g92 := state.store[STORE_G92], g92Applied := true);
          PushOffset();
        case _ =>
      }
    }

    method SaveOffset()
      modifies this`state
      ensures state == if m.g92Volatile then old(state) else old(state).(store := old(state).store[STORE_G92 := old(state).g92])
    {
      if !m.g92Volatile {
        state := state.(store := state.store[STORE_G92 := state.g92]);
      }
    }

    method EndProgram(ghost w: Work, env: Env)
      requires w.b == block
      modifies this`state
      ensures state == CommitFlow(w, env, old(state))
    {
      if (block.flow.CompletedM2? || block.flow.CompletedM30?) && !env.singleBlock {
        var modal := state.modal.(motion := Linear, plane := XY, incremental := false, feedMode := UnitsPerMin);
        modal := modal.(coord := modal.coord.(id := 0), coolant := Coolant(false, false));
        modal := modal.(spindle := modal.spindle.(on := false, ccw := false), ctrl := modal.ctrl.(feedOff := false, rpmOff := false));
        if !env.checkMode {
          modal := modal.(coord := CoordSystem(0, state.store[0]));
          state := state.(store := state.store[STORE_G92 := state.g92]);
        }
        state := state.(modal := modal);
      }
    }

    method RunBlock(env: Env)
      modifies this`state, this`sent
      ensures var e := Commit(m, old(Now()), env); state == e.st && sent == old(sent) + e.events
    {
      hide CommitModes, CommitNonModal, CommitFlow, DwellEvents, HomeEvents, MotionEvents, NewPosition;
      var w := Now();
      SetModes(env);
      sent := sent + DwellEvents(w) + HomeEvents(w);
      DoNonModal(w);
      sent := sent + MotionEvents(w, state);
      var position := NewPosition(w, env, state);
      state := state.(modal := state.modal.(motion := block.modal.motion, canned := block.modal.canned), position := position);
      EndProgram(w, env);
      hide CommitMotion;
      assert old(sent) + DwellEvents(w) + HomeEvents(w) == old(sent) + (DwellEvents(w) + HomeEvents(w));
    }

    method RunJog() returns (status: Status)
      modifies this`state, this`sent
      ensures var e := CommitJog(m, old(Now())); status == e.status && state == e.st && sent == old(sent) + e.events
    {
      hide Machine.JogEnd;
      if !(block.groups <= {G0, G3, G6}) {
        return InvalidJogCommand;
      }
      if !block.nonModal.AbsoluteOverride? && !block.nonModal.NoAction? {
        return InvalidJogCommand;
      }
      var end := m.JogEnd(block.values.xyz, state.position);
      if end.None? {
        return TravelExceeded;
      }
      sent := sent + [Jog(end.value, Plan(block.values.f, false, false, false, state.offsetId, block.values.n))];
      state := state.(position := end.value);
      status := Ok;
    }

    /** gc_execute_block. */
    method RunLine(line: Line) returns (status: Status)
      modifies this
      ensures var e := Execute(m, old(state), line);
              status == e.status && state == e.st && sent == old(sent) + e.events
    {
      hide ScanLine, CheckWords, CheckAxes, CheckMotion, CheckUnused, Commit, CommitJog, NewBlock;
      if line.words == [] && !line.jog {
        return Ok;
      }
      status := ReadWords(line);
      if status != Ok {
        return;
      }
      coordId, coordData, turns := 0, ORIGIN, 0;
      var jog := block.jog;
      status := WordChecks();
      if status != Ok {
        return;
      }
      status := AxisChecks();
      if status != Ok {
        return;
      }
      status := MotionChecks();
      if status != Ok {
        return;
      }
      status := UnusedChecks();
      if status != Ok {
        return;
      }
      if jog {
        status := RunJog();
      } else {
        CommitAnswers(m, Now(), line.env);
        RunBlock(line.env);
      }
    }

    /** The entry points of the parser one after another, as the main loop calls them: lines, restarts and synchronisations. */
    method Serve(ops: seq<Op>)
      modifies this
      ensures state == Run(m, old(state), ops) && sent == old(sent) + Trace(m, old(state), ops)
    {
      hide Execute, WarmInit;
      var i := 0;
      assert ops[0..] == ops;
      while i < |ops|
        invariant 0 <= i <= |ops|
        invariant Run(m, state, ops[i..]) == Run(m, old(state), ops)
        invariant sent + Trace(m, state, ops[i..]) == old(sent) + Trace(m, old(state), ops)
      {
        ghost var st, out := state, sent;
        OneStep(m, st, ops[i..], out);
        assert ops[i..][0] == ops[i] && ops[i..][1..] == ops[i + 1..];
        match ops[i] {
          case Block(line) =>
            var status := RunLine(line);
          case Restart(stop, ctrl) =>
            InitWarm(stop, ctrl);
          case Sync(position) =>
            state := state.(position := position);
        }
        i := i + 1;
      }
      assert ops[i..] == [];
    }

    /** A session: a cold start, and whatever is asked of the parser after it. Nothing is cut, drilled or probed without a
        feed, scaling stays about the origin, and outside check mode the active coordinate system is the stored one. */
    method Session(ops: seq<Op>)
      modifies this
      ensures state == Run(m, ColdInit(m, old(state)), ops) && sent == old(sent) + Trace(m, ColdInit(m, old(state)), ops)
      ensures forall i :: |old(sent)| <= i < |sent| && FeedSafety.Feeds(sent[i]) ==> sent[i].plan.feed > 0.0
      ensures Quirks.Centred(state)
      ensures (forall op <- ops :: op.Block? ==> !op.line.env.checkMode) ==> Offsets.Cached(state)
    {
      hide ColdInit, Run, Trace, FeedSafety.Feeds, Quirks.Centred, Offsets.Cached;
      ghost var start := state;
      Init();
      Serve(ops);
      ColdRuns.ColdRunFeeds(m, start, ops);
      ColdRuns.ColdRunCentred(m, start, ops);
      if forall op <- ops :: op.Block? ==> !op.line.env.checkMode {
        ColdRuns.ColdRunCached(m, start, ops);
      }
    }
  }

  lemma OverrideIs(w: Work)
    ensures var b := w.b;
            var p := if 'P' in b.words then b.values.p else 1.0;
            var ctrl := Overridden(b.modal.ctrl, b.overrideCmd, p);
            CheckOverride(w) ==
              if M9 !in b.groups then Go(w)
              else if 'P' in b.words && b.values.p < 0.0 then Stop(NegativeValue, w.st)
              else Go(w.(b := b.(modal := b.modal.(ctrl := ctrl), values := b.values.(p := p), words := b.words - {'P'})))
  {
    hide Overridden;
  }

  lemma OneStep(m: Machine, st: State, ops: seq<Op>, out: seq<Event>)
    requires ops != []
    ensures var e := Step(m, st, ops[0]);
            && Run(m, st, ops) == Run(m, e.st, ops[1..])
            && out + Trace(m, st, ops) == out + e.events + Trace(m, e.st, ops[1..])
  {
    hide Step;
    var e := Step(m, st, ops[0]);
    assert out + (e.events + Trace(m, e.st, ops[1..])) == out + e.events + Trace(m, e.st, ops[1..]);
  }

  lemma ScaleAxesIs(w: Work)
    ensures var v, k, c := w.b.values.xyz, w.st.scale.ijk, w.st.scale.xyz;
            var scaled := if w.b.modal.incremental then v.Mul(k) else v.Minus(c).Mul(k).Plus(c);
            ScaleAxes(w) == if w.st.modal.scaling then w.(b := w.b.(values := w.b.values.(xyz := Pick(w.b.axisWords, scaled, v)))) else w
  {
  }

  function ScaledNumber(incremental: bool, x: real, k: real, c: real): real {
    if incremental then x * k else (x - c) * k + c
  }

  lemma ScaledAt(v: Vec, k: Vec, c: Vec, i: nat)
    requires i < 3
    ensures v.Mul(k).At(i) == ScaledNumber(true, v.At(i), k.At(i), c.At(i))
    ensures v.Minus(c).Mul(k).Plus(c).At(i) == ScaledNumber(false, v.At(i), k.At(i), c.At(i))
  {
  }

  lemma PutAt(v: Vec, i: nat, x: real)
    requires i < 3
    ensures forall k :: 0 <= k < 3 ==> v.Put(i, x).At(k) == if k == i then x else v.At(k)
  {
  }

  lemma PlusAt(u: Vec, v: Vec, i: nat)
    requires i < 3
    ensures u.Plus(v).At(i) == u.At(i) + v.At(i)
  {
  }

  lemma AllAxes(r: Vec, p: Vec, axes: Axes, u: Vec, v: Vec)
    requires p == Pick(axes, u, v)
    requires forall k :: 0 <= k < 3 ==> r.At(k) == if axes.Has(k) then u.At(k) else v.At(k)
    ensures r == p
  {
    assert r.At(0) == p.At(0) && r.At(1) == p.At(1) && r.At(2) == p.At(2);
  }

  ghost function NamedPoint(w: Work): Vec {
    var v := w.b.values.xyz;
    if w.b.nonModal.AbsoluteOverride? then v
    else if w.b.modal.incremental then v.Plus(w.st.position)
    else v.Plus(BlockOffset(w.st, w.b.modal))
  }

  lemma TargetIs(w: Work)
    ensures ComputeTarget(w) ==
            if (w.b.axisWords.Any() || w.b.modal.motion.Arc()) && !w.b.axisCmd.ToolLengthCmd?
            then w.(b := w.b.(values := w.b.values.(xyz := Pick(w.b.axisWords, NamedPoint(w), w.st.position))))
            else w
  {
    hide Vec.Plus;
  }

  lemma SameVec(u: Vec, v: Vec)
    requires forall k :: 0 <= k < 3 ==> u.At(k) == v.At(k)
    ensures u == v
  {
    assert u.At(0) == v.At(0) && u.At(1) == v.At(1) && u.At(2) == v.At(2);
  }

  lemma OffsetsAt(w: Work)
    ensures forall k :: 0 <= k < 3 ==>
              var x := w.b.values.ijk.At(k);
              var mm := if w.b.modal.imperial then x * MM_PER_INCH else x;
              CentreOffsets(w).At(k) == if !w.b.ijkWords.Has(k) then x else if w.st.modal.scaling then mm * w.st.scale.ijk.At(k) else mm
  {
  }

  ghost function CycleWay(w: Work): Vec {
    var linear, v := w.b.modal.plane.AxisLinear(), w.b.values.xyz;
    var relative := v.Minus(w.st.position);
    relative.Put(linear, if w.b.modal.incremental then w.st.canned.retract + relative.At(linear) else v.At(linear))
  }

  lemma CycleTargetIs(w: Work)
    ensures CannedTarget(w) == w.(st := w.st.(canned := w.st.canned.(xyz := Pick(w.b.axisWords, CycleWay(w), w.st.canned.xyz))))
    ensures forall k :: 0 <= k < 3 ==>
              CycleWay(w).At(k) == if k != w.b.modal.plane.AxisLinear() then w.b.values.xyz.At(k) - w.st.position.At(k)
                                   else if w.b.modal.incremental then w.b.values.xyz.At(k) - w.st.position.At(k) + w.st.canned.retract
                                   else w.b.values.xyz.At(k)
  {
  }

  lemma PickAt(axes: Axes, u: Vec, v: Vec)
    ensures forall k :: 0 <= k < 3 ==> Pick(axes, u, v).At(k) == if axes.Has(k) then u.At(k) else v.At(k)
  {
  }

  lemma CommitAnswers(m: Machine, w: Work, env: Env)
    ensures Commit(m, w, env).status == Ok
  {
    hide CommitModes, CommitNonModal, CommitMotion, CommitFlow;
  }
}
