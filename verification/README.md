# grblHAL core of pcb-mill: a verified model

Three parts of `firmware/grblHAL/core` are modelled here, and what they promise is proved for all inputs.

* **The block interpreter** (`gcode.c`). `Normalizer` is the in-place line normaliser. `Scanner`, `Validation` and
  `Execution` say what one line does to the parser state and which motions it hands on; `Parser` does the same work the way
  the program does it, on a state and a block that are changed in place, with loops over words and axes, and each of its
  methods is proved against the function that specifies it, up to whole lines (`RunLine`) and sessions (`Serve`, `Session`). The other modules prove
  properties of these functions over lines and over runs: `WordOrder`, `Atomicity`, `Refusals`, `Offsets`, `WorkPositions`,
  `OffsetHistory`, `FeedSafety`, `Curves` with `Geometry` and `ArcFormats`, `SingleBlock`, `Quirks`, and two translations of
  programs, `Units` and `Distance`; `ColdRuns` puts the theorems about runs behind a cold start. `RefusedCases` and `Cases`,
  with `CaseTools`, have single lines that show the exceptions at work. `ScanFacts`, `Frames`, `Targets`, `Meaning`
  and `SameMeaning` hold the lemmas in between.
* **The checksums** (`crc.c`). `Crc` has the three loops over byte arrays; `Gf2` is polynomial division over GF(2), on which
  the meaning of the two CRCs and their error detection rest. For the Modbus CRC see section 6.2.2 of the MODBUS over Serial
  Line Specification and Implementation Guide V1.02.
* **The CAN queues** (`canbus.c`). `Canbus` has the two rings as a class with arrays, the transmit side over whole runs with
  failing puts, and the receive side as single reads and writes of the poller with the interrupt handler between any two of
  them. The buffer length is any number from 2 to 255. `Ring` is the queue behind both.

`dafny verify dfyconfig.toml` checks everything.

## What is fixed

The interpreter is modelled for three linear axes, one spindle, no lathe mode, no tool table, no expressions
and parameters, the advanced cycles and splines on, compatibility level 0, the parking override off, tool changes ignored, no
plugins, macros or auxiliary ports. Words that such a machine does not know are refused as the source refuses them. Words
are decoded letters and numbers; a number that cannot be read is a case of its own. Numbers are exact reals; the integer
conversions are written out, the unsigned ones saturating at 32 bits. Whether the spindle has an encoder, and so knows G95, is
a parameter of the machine. Stored coordinate data can always be read. What the driver answers (probing, where a drilling
cycle leaves the tool, where a jog is limited to, check and single-block mode) is a parameter of each line, so the theorems
hold whatever it answers. A square root is a parameter too; where its exactness matters, it is a premise
(`Curves.ExactRoots`). A run is any sequence of lines, warm restarts and position synchronisations.

## Where the code does not do what is promised

Each of these has its exact condition, or a lemma that exhibits it.

* A refused block can change the state: G50 and G51 rescale at once, canned cycles and G5 leave their data, and so does a jog
  during a canned cycle (`Refusals.RefusedUnchangedIff`, `JogLeaves`; `RefusedCases.ScalingIsKept`, `CycleIsKept`, `CurveIsKept`,
  `JogMovesHole`).
* The order of words matters beside G50 and G51, which overwrite the axis command (`WordOrder.AcceptedOrderIff`,
  `Cases.OrderMatters`). The fraction check of an O word reads the fraction of the number before it; as a line with an O word
  is refused in any case, this decides only for which reason (`WordOrder.AnyOrderIff`, `OWordIsRefused`).
* M2 and M30 in check mode return to G54 with the data of another system (`Offsets.LineCached`,
  `Cases.CheckModeLeavesStale`). M2 and M30 change the feed mode without clearing the feed (`FeedSafety.LineKeepsFeedMode`,
  `Cases.EndKeepsFeed`). A feed per turn is planned per minute by everything but G1, G2 and G3
  (`FeedSafety.FeedIsUsedAsGiven`).
* A warm restart clears the ring of G92 offsets but not the offset (`OffsetHistory.RestartCurrent`).
* G49 in the block of a G92 or G10 L20 spoils the position that is set (`WorkPositions.SetOffsetIsExact`,
  `CoordDataIsExact`; `Cases.SetOffsetIsOff`, `CoordDataIsOff`).
* An arc by radius whose target differs from the position outside the plane only is accepted; the program divides by zero for
  its centre (`Curves.DegenerateIff`, `Cases.RisingArcIsAccepted`).
* G5 without I and J takes its control offset from P and Q before they are converted from inches (`Curves.GoesOnAsWritten`,
  `Units.BareSplineDiffers`).
* Normalising twice is not the identity behind a leading slash (`Normalizer.NormalizeAgain`, `TwoSlashes`).
* `$J=` with a feed and no axis word jogs to the machine origin (`Quirks.JogGoesWhere`, `Cases.BareJogGoesHome`).
* G51 always ends with scaling on, as it compares the centre with one, and in inches its factors are converted like lengths
  (`Quirks.G51TurnsOn`).
* G10 beside M48 to M53 without P writes G54, as the override leaves P at 1 (`Quirks.OverrideRedirectsG10`,
  `Cases.OverrideWritesG54`).
* G5.1 looks at I twice and never at J (`Quirks.QuadraticNeedsI`, `Cases.BendIsAccepted`).
* G85, G86 and G89 are accepted and hand on no motion (`Quirks.OnlyBoringStandsStill`,
  `Cases.BoringStandsStill`).
* M2 and M30 keep a canned cycle active (`Quirks.EndKeepsCycle`, `Cases.CycleOutlivesProgram`); in single-block mode they
  only pause (`SingleBlock.SingleBlockOnlyPauses`, `Cases.SingleBlockGoesOn`).

## Model

| member | source | states |
|---|---|---|
| Crc.CcittCrc16 | firmware/grblHAL/core/crc.c:62-73 | the loop over the bytes computes the checksum of exactly the first `len` bytes |
| Crc.CcittByteFeeds | firmware/grblHAL/core/crc.c:66-70 | the shift and xor of one byte does what eight steps of a bit-serial division register do |
| Crc.CcittIsTheRemainder | firmware/grblHAL/core/crc.c:62-73 | for every message, the result and nothing else is the remainder of M(x)*x^16 divided by x^16+x^12+x^5+1 over GF(2) |
| Crc.ModbusShiftByte | firmware/grblHAL/core/crc.c:45-51 | the inner loop over eight bits |
| Crc.ModbusCrc16x | firmware/grblHAL/core/crc.c:38-57 | the outer loop computes the reflected checksum of exactly the first `len` bytes, from 0xFFFF |
| Crc.ModbusIsTheRemainder | firmware/grblHAL/core/crc.c:38-57 | for every message, the reflected result is the remainder modulo x^16+x^15+x^2+1 of the message, low bits first, with the start value added to its first 16 places |
| Crc.CcittEqualIff | firmware/grblHAL/core/crc.c:62-73 | two messages of any lengths have the same checksum if and only if their polynomials leave the same remainder |
| Crc.ModbusEqualIff | firmware/grblHAL/core/crc.c:38-57 | the same for the Modbus checksum |
| Crc.CcittDetects | firmware/grblHAL/core/crc.c:62-73 | messages of one length that differ only within 16 consecutive bits, or in an odd number of bits, have different checksums |
| Crc.ModbusDetects | firmware/grblHAL/core/crc.c:38-57 | the same for the Modbus checksum in its own bit order |
| Crc.CcittDetectsTwoBytes | firmware/grblHAL/core/crc.c:62-73 | replacing two adjacent bytes anywhere changes the checksum |
| Crc.GrblCrc8 | firmware/grblHAL/core/crc.c:24-34 | the rotate-and-add loop over exactly `size` bytes |
| Crc.ChecksumDetectsOneByte | firmware/grblHAL/core/crc.c:24-34 | replacing one byte anywhere changes the checksum |
| Canbus.CanBus.QueueRx | firmware/grblHAL/core/canbus.c:93-105 | accepts exactly when fewer than LEN-1 messages are queued, appends the message with its callback, leaves everything else alone |
| Canbus.CanBus.QueueTx | firmware/grblHAL/core/canbus.c:170-182 | the same for the transmit queue, with the extended-id flag |
| Canbus.CanBus.Poll | firmware/grblHAL/core/canbus.c:108-121 | one tick sends the oldest message if the driver takes it, and otherwise keeps it; it passes the oldest received message to its callback and removes it |
| Canbus.TxRun.SentIsPrefix | firmware/grblHAL/core/canbus.c:109-112 | over any run of queueing and ticks, what was sent is a prefix of what was accepted, and the rest is what is queued |
| Canbus.TxRun.TicksDrain | firmware/grblHAL/core/canbus.c:109-112 | k ticks whose put succeeds send min(k, queued) messages |
| Canbus.RxState.SlotInHandIsStable | firmware/grblHAL/core/canbus.c:93-121 | an interrupt between any two steps of the poller neither changes the slot in hand nor moves the tail |
| Canbus.RxState.RejectsOnlyWhenFull | firmware/grblHAL/core/canbus.c:93-105 | a message is turned away exactly when LEN-1 accepted ones are not yet released, and there are never more |
| Canbus.RxState.DeliveredInOrder | firmware/grblHAL/core/canbus.c:93-121 | on every interleaving of interrupt and poller, callbacks see whole accepted messages, in order, each once |
| Canbus.RxState.DeliveredFromStart | firmware/grblHAL/core/canbus.c:93-121 | the same from start-up, whatever the slots hold |
| Canbus.RxState.UndisturbedPoll | firmware/grblHAL/core/canbus.c:115-120 | undisturbed, the small steps of the poller come to one call of canbus_poll: the oldest message passed on whole, its slot released |
| Normalizer.NormalizeBlock | firmware/grblHAL/core/gcode.c:625-703 | the whole normaliser, in place: the block holds the specified normal form, and message, comments and the status of the comment handler are the specified ones |
| Normalizer.FilterInPlace | firmware/grblHAL/core/gcode.c:641-700 | the two-pointer loop: the buffer ends up with the filter of the original text, and the handlers have heard what the filter says |
| Normalizer.Report | firmware/grblHAL/core/gcode.c:659-690 | a comment that ends is the untouched text after the last opening parenthesis: offered to the handler that may supply the message, then taken as message, then given to the comment handler, whose status is kept |
| Normalizer.CopyMessage | firmware/grblHAL/core/gcode.c:670-682 | the message buffer is the comment after MSG, and its leading spaces, plus one terminator |
| Normalizer.NormalFormIsPlain | firmware/grblHAL/core/gcode.c:625-703 | no blank, control, lower-case or comment character is left |
| Normalizer.NormalizeAgain | firmware/grblHAL/core/gcode.c:625-703 | normalising again changes nothing if and only if the normal form does not begin with a slash |
| Normalizer.CommentIsTransparent | firmware/grblHAL/core/gcode.c:654-695 | behind text without a comment, a comment changes nothing but what the handlers hear, which is the text behind its last opening parenthesis, or nothing while blocks are skipped |
| Parser.GcodeParser.RunLine | firmware/grblHAL/core/gcode.c:709-4030 | one line, changed in place step by step, ends with the status, the state and the motions that the function Execute gives |
| Parser.GcodeParser.Serve | firmware/grblHAL/core/protocol.c:225-300 | lines, restarts and synchronisations one after another, changed in place, end in the state of the function Run and hand on the motions of Trace |
| Parser.GcodeParser.Session | firmware/grblHAL/core/protocol.c:225-300 | after a cold start, whatever is asked of the parser: nothing is cut, drilled or probed without a feed, scaling stays about the origin, and outside check mode the active coordinate system is the stored one |
| Parser.GcodeParser.ReadWords | firmware/grblHAL/core/gcode.c:918-1694 | the loop over the words of a line accepts the line exactly when ScanLine does, with the same block and otherwise the same status |
| Parser.GcodeParser.ResetScaling | firmware/grblHAL/core/gcode.c:191-207 | the loop of set_scaling with factor one |
| Parser.GcodeParser.UnitConversion | firmware/grblHAL/core/gcode.c:2114-2132 | the loop over the axes from inches to millimetres |
| Parser.GcodeParser.ScalingChecks | firmware/grblHAL/core/gcode.c:2143-2209 | G50 and G51 write the scale factors of the state while the block is being checked |
| Parser.GcodeParser.AxisScaling | firmware/grblHAL/core/gcode.c:2211-2229 | the loop that scales the axis words |
| Parser.GcodeParser.CoordDataChecks | firmware/grblHAL/core/gcode.c:2320-2436 | G10 L2 and L20: errors, the system written, and the data, axis by axis |
| Parser.GcodeParser.SetOffsetChecks | firmware/grblHAL/core/gcode.c:2438-2454 | G92: the words become offsets, axis by axis |
| Parser.GcodeParser.TargetComputation | firmware/grblHAL/core/gcode.c:2474-2498 | machine target of the named axes, the other axes stay |
| Parser.GcodeParser.HomeChecks | firmware/grblHAL/core/gcode.c:2500-2520 | G28 and G30: the stored position, on named axes only if there are any |
| Parser.GcodeParser.CycleTarget | firmware/grblHAL/core/gcode.c:2758-2767 | the loop over the axes of a cycle |
| Parser.GcodeParser.OffsetConversion | firmware/grblHAL/core/gcode.c:2977-2994 | the loops over I, J and K |
| Parser.GcodeParser.SetToolOffset | firmware/grblHAL/core/gcode.c:3550-3604 | G43.1 and G49, axis by axis |
| WordOrder.AnyOrderIff | firmware/grblHAL/core/gcode.c:931-1694 | a line that the scanner accepts reads the same in any order if and only if no G50 or G51 stands beside a word that claims the axis words and no O word beside a number with a fraction |
| WordOrder.AcceptedOrderIff | firmware/grblHAL/core/gcode.c:709-4030 | a line that is carried out may be written in any order, with the same answer, state and motions, if and only if no G50 or G51 stands beside a word that claims the axis words |
| WordOrder.OWordIsRefused | firmware/grblHAL/core/gcode.c:3127-3138 | a line that is carried out has no O word, as nothing uses it |
| Refusals.ForeignLineIsRefused | firmware/grblHAL/core/gcode.c:3127-3138 | nor any of A, B, C, D, E, H, U, V and W |
| Cases.OrderMatters | firmware/grblHAL/core/gcode.c:1270-1274 | G0 G51 X2 after a cold start is carried out, and the same words as G51 G0 X2 are refused |
| WordOrder.OrderDoesNotMatter | firmware/grblHAL/core/gcode.c:709-4030 | such a line, in any order, does the same as a whole |
| WordOrder.SwapWords | firmware/grblHAL/core/gcode.c:931-1694 | two neighbouring words may change places |
| WordOrder.GrabsFirst | firmware/grblHAL/core/gcode.c:1270-1274 | a G50 or G51 in front of a word that claims the axis words refuses the line |
| WordOrder.RestFirst | firmware/grblHAL/core/gcode.c:1564-1569 | an O word behind a number with a fraction is refused for that fraction |
| ScanFacts.PerformIsLocal | firmware/grblHAL/core/gcode.c:1061-1448 | a G or M word writes in its own modal group only |
| ScanFacts.LineReads | firmware/grblHAL/core/gcode.c:883-1694 | a block that has been read differs from the empty one only in the groups and letters it names, and what needs axes has claimed them |
| Atomicity.RefusedChangesNothing | firmware/grblHAL/core/gcode.c:1699-1712 | a refused block moves nothing and leaves the state alone, but for scaling (G50, G51), cycle data (canned cycles) and the control offset (G5); exactly when those change is RefusedUnchangedIff |
| Refusals.ChecksLeave | firmware/grblHAL/core/gcode.c:1699-3138 | for every block that has been read, the state when the checks end, wherever they end: the scaling, the data of the cycle or the control offset if the block gets that far, nothing else; each of the three is given by the state and the words of the block |
| Refusals.RefusedUnchangedIff | firmware/grblHAL/core/gcode.c:1699-3138 | a refused line leaves the state as it was if and only if each of the three early writes (G50 and G51, cycles, G5) is not reached or writes what was there, where what is written is given by the state and the words of the line |
| Refusals.ScalingActsAtOnce | firmware/grblHAL/core/gcode.c:2143-2209 | G50 and G51 set factors and flag exactly when the word checks are passed and, for G51, there are axis words, whatever becomes of the block |
| Refusals.RefusedButScaled | firmware/grblHAL/core/gcode.c:2143-2287 | every line with G43.1 and G51 that passes the word checks is refused and rescales |
| Refusals.CycleIsWritten | firmware/grblHAL/core/gcode.c:2727-2815 | what the checks of a cycle leave, in closed form: nothing if it is new in G93 or lacks R or depth, the fresh start for L0, the open cycle if its hole is above its retract position, and otherwise the drilled cycle with bottom flags, dwell, increment, retract rate and peck |
| Refusals.RefusedCycleIsKept | firmware/grblHAL/core/gcode.c:2750-2772 | a line whose hole would be above its retract position is refused and its cycle kept; the state is unchanged if and only if that was the cycle already |
| Refusals.RefusedSplineIsKept | firmware/grblHAL/core/gcode.c:3046-3064 | a refused G5 line that got as far as its P and Q leaves them as control offset of the next G5 |
| Refusals.JogLeaves | firmware/grblHAL/core/gcode.c:2727-2815 | the state that a jog leaves, accepted or refused: that of the checks, but for the position |
| RefusedCases.ScalingIsKept | firmware/grblHAL/core/gcode.c:2143-2287 | G43.1 G51 X2 after a cold start is refused and scales X by two |
| RefusedCases.CycleIsKept | firmware/grblHAL/core/gcode.c:2750-2772 | G81 Z5 R1 F100 after a cold start is refused and leaves its hole |
| RefusedCases.CurveIsKept | firmware/grblHAL/core/gcode.c:3046-3138 | G5 X1 I1 J1 P1 Q1 F100 D1 after a cold start is refused and leaves its P and Q |
| RefusedCases.JogMovesHole | firmware/grblHAL/core/gcode.c:2727-2815 | G81 Z-1 R1 F100 after a cold start and then $J=G91 X1 F100: the jog moves the hole of the cycle, within the limits or not |
| Atomicity.CheckedBlocksSucceed | firmware/grblHAL/core/gcode.c:3140-4029 | a block that is not a jog and has passed the checks always ends in Ok, and only such a block does; in the model the execution step cannot fail by construction, as what can fail there (threading, macros, storage) is left out |
| Atomicity.JogsOnlyMove | firmware/grblHAL/core/gcode.c:3159-3184 | an accepted jog changes the position, and during a canned cycle the cycle data, and nothing else |
| Offsets.LineCached | firmware/grblHAL/core/gcode.c:2295-2298 | one line keeps the active coordinate system equal to the stored one if and only if it is not an accepted M2 or M30 in check mode and outside single-block mode that ends in a system whose data, after a G10 in the line, is not that of G54 |
| Offsets.RunCached | firmware/grblHAL/core/gcode.c:349-383 | outside check mode, in every state of a run with restarts and synchronisations, the active coordinate system is the stored one |
| ColdRuns.ColdRunCached | firmware/grblHAL/core/gcode.c:349-383 | the same after a cold start |
| Cases.CheckModeLeavesStale | firmware/grblHAL/core/gcode.c:3936-3956 | G55 M2 in check mode after a cold start is carried out and leaves G54 with the data of G55 |
| WorkPositions.SetOffsetReads | firmware/grblHAL/core/gcode.c:2438-2454 | after G92 the operator reads the programmed numbers, in millimetres and scaled, on the named axes and the old ones elsewhere, off by the tool offset that a G49 beside it takes away |
| WorkPositions.SetOffsetIsExact | firmware/grblHAL/core/gcode.c:2438-2454 | G92 is exact if and only if no G49 beside it drops a tool offset on a named axis |
| Cases.SetOffsetIsOff | firmware/grblHAL/core/gcode.c:2438-2454 | G92 X1 G49 with a tool offset along X is carried out and the operator does not read 1 |
| WorkPositions.CoordDataReads | firmware/grblHAL/core/gcode.c:2349-2380 | G10 L20 makes the system it writes, active or not, read the programmed numbers for the position |
| WorkPositions.CoordDataIsExact | firmware/grblHAL/core/gcode.c:2349-2380 | G10 L20 is exact in the system it writes if and only if no G49 beside it drops a tool offset on a named axis |
| Cases.CoordDataIsOff | firmware/grblHAL/core/gcode.c:2349-2380 | G10 L20 P1 X1 G49 with a tool offset along X is carried out and G54 does not read 1 |
| WorkPositions.CoordDataReadsLater | firmware/grblHAL/core/gcode.c:2320-2380 | after G10 L20 on any system and without G49 beside it, whatever runs in between as long as tool and offsets stand, the line that selects the system makes the operator read the programmed numbers |
| WorkPositions.BackInTheSystem | firmware/grblHAL/core/gcode.c:2320-2498 | and a G90 move to those numbers then goes to where the tool is |
| Targets.CheckedG10 | firmware/grblHAL/core/gcode.c:2320-2380 | what G10 L2 and L20 write, and to which system, from the state and the block that was read |
| WorkPositions.MoveToReading | firmware/grblHAL/core/gcode.c:2474-2498 | a G90 move goes to where the tool is if and only if it names the numbers that are read |
| WorkPositions.BackWhereItStands | firmware/grblHAL/core/gcode.c:2438-2498 | after G92, a G90 move to the same numbers has the position as its target |
| Targets.AxesPlaced | firmware/grblHAL/core/gcode.c:2438-2498 | what the axis words of every kind of block come to, with units, scaling, distance mode and offsets |
| OffsetHistory.RunCurrent | firmware/grblHAL/core/gcode.c:466-471 | without warm restarts the current slot of the ring holds the active G92 offset in every state of a run |
| ColdRuns.ColdRunCurrent | firmware/grblHAL/core/gcode.c:466-471 | the same after a cold start |
| OffsetHistory.RestartCurrent | firmware/grblHAL/core/gcode.c:347-390 | after a warm restart it does if and only if there was no offset |
| OffsetHistory.TagResolves | firmware/grblHAL/core/gcode.h:32 | the offset that a motion was planned with is found under its tag as long as fewer than MAX_OFFSET_ENTRIES changes have followed, and the last of MAX_OFFSET_ENTRIES changes replaces it |
| OffsetHistory.MotionsAreTagged | firmware/grblHAL/core/gcode.c:3149-3149 | every motion carries the tag of the offset its target was computed with |
| OffsetHistory.RunStores | firmware/grblHAL/core/gcode.c:3724-3750 | the stored offset survives any run without G92, G92.1, M2 and M30 |
| OffsetHistory.OffsetComesBack | firmware/grblHAL/core/gcode.c:3724-3750 | with a persistent offset, G92.3 brings back the last G92 over any such run |
| FeedSafety.LineFeeds | firmware/grblHAL/core/gcode.c:1837-1865 | every feed motion of a line has a positive feed, and in G93 it is the F word of that line |
| FeedSafety.RunFeeds | firmware/grblHAL/core/gcode.c:2724-2725 | over whole runs nothing cuts, drills or probes without a feed |
| ColdRuns.ColdRunMoves | firmware/grblHAL/core/gcode.c:2724-2725 | after a cold start nothing moves at a feed without one, jogs included, as long as every jog names an axis |
| FeedSafety.LineKeepsFeedMode | firmware/grblHAL/core/gcode.c:3222-3228 | a feed in force stays in the mode it was given in, if and only if the line is not an accepted M2 or M30 outside single-block mode that ends G93 or G95 with a feed |
| FeedSafety.FeedIsUsedAsGiven | firmware/grblHAL/core/gcode.c:3775-3791 | a feed in force is used per minute, per inverse time or per turn as it was given, if and only if it is not a feed per turn of a motion other than G1, G2 and G3, which is planned per minute |
| FeedSafety.RunKeepsFeedMode | firmware/grblHAL/core/gcode.c:3222-3228 | over runs, a feed never survives a change of the feed mode, with that one exception |
| FeedSafety.RunUsesFeeds | firmware/grblHAL/core/gcode.c:3775-3791 | over runs whose programs do not end with a foreign feed, every feed motion uses its feed in the mode that it was given in, but for feeds per turn of other motions than G1, G2 and G3 |
| ColdRuns.ColdRunUsesFeeds | firmware/grblHAL/core/gcode.c:3775-3791 | the same after a cold start |
| Cases.EndKeepsFeed | firmware/grblHAL/core/gcode.c:3930-3956 | G95 F100 M2 after a cold start, with an encoder, is carried out and leaves the feed of 100 in force per minute |
| Curves.RadiusArcIsRight | firmware/grblHAL/core/gcode.c:2860-2968 | the centre of an arc given by its radius is at that distance from both ends and on the side that G2, G3 and the sign of R ask for |
| Curves.RadiusLineTurns | firmware/grblHAL/core/gcode.c:2860-2968 | the arc that an accepted line by radius hands on has its centre at that distance, on that side, and is traversed in that direction |
| Curves.RunTurns | firmware/grblHAL/core/gcode.c:2860-2968 | so have all of them in every run |
| Curves.RadiusArcRefusedIff | firmware/grblHAL/core/gcode.c:2866-2955 | a line that gets as far as its arc by radius is refused for it if and only if the target is the position or the ends are more than a diameter apart |
| Curves.RunFits | firmware/grblHAL/core/gcode.c:2832-3013 | every arc of every run starts on its circle and ends on it within the tolerance of the source, whichever format it was given in, full circles included; left out are only arcs by radius without travel in the plane |
| ColdRuns.ColdRunFits | firmware/grblHAL/core/gcode.c:2832-3013 | the same after a cold start |
| Curves.LineFits | firmware/grblHAL/core/gcode.c:2832-3013 | the same for the arcs of one line |
| Curves.DegenerateIff | firmware/grblHAL/core/gcode.c:2860-2968 | an accepted arc by radius is such an arc if and only if its target differs from the position outside the plane only |
| Cases.RisingArcIsAccepted | firmware/grblHAL/core/gcode.c:2860-2968 | G91 G2 X0 Z1 R1 F100 after a cold start is carried out as such an arc |
| ArcFormats.RewrittenArc | firmware/grblHAL/core/gcode.c:2832-3013 | any other accepted arc by radius, with I, J and K words that mean its centre in place of its R word, is carried out with the same answer, the same motions and the same state |
| ArcFormats.CentreCanBeGiven | firmware/grblHAL/core/gcode.c:2977-2994 | with scaling off there always are such I, J and K |
| Curves.CentreFormatAgrees | firmware/grblHAL/core/gcode.c:2996-3011 | the centre fed back as I, J and K, in any units and scaling, passes and gives the same arc without an error of the radius |
| Curves.QuadraticEventIsCurve | firmware/grblHAL/core/gcode.c:3813-3824 | the cubic spline that G5.1 hands on runs along the programmed quadratic one, for every parameter |
| Curves.GoesOnAsWritten | firmware/grblHAL/core/gcode.c:3036-3038 | the first control point of a G5 without I and J is the start less P and Q as they are written, whatever the units |
| Geometry.RadiusArcUnique | firmware/grblHAL/core/gcode.c:2860-2968 | no other point at that distance from both ends lies on that side |
| Geometry.ElevationKeepsCurve | firmware/grblHAL/core/motion_control.c:405-426 | degree elevation under de Casteljau evaluation |
| Geometry.WrapIsShortest | firmware/grblHAL/core/gcode.c:3660-3695 | a wrapped axis is relabelled with the same angle, at most half a turn from the target, and no label is nearer |
| Geometry.WrapHome | firmware/grblHAL/core/gcode.c:3634-3701 | the wrapped axes of a G28, found as the source finds them, and the two loops over them: positions of the parser relabelled, targets within one turn, and both positions afterwards |
| Quirks.JogGoesWhere | firmware/grblHAL/core/gcode.c:2474-2498 | an accepted jog goes where its axis words say and leaves the other axes where they are if and only if there are any axis words or the tool stands at the machine origin; without, it goes to the machine origin |
| Cases.BareJogGoesHome | firmware/grblHAL/core/gcode.c:2474-2498 | $J=F100 with the tool anywhere goes to the machine origin, if the limits let it |
| Quirks.LineScales | firmware/grblHAL/core/gcode.c:2143-2209 | factors and scaling flag after any line, accepted or refused |
| Quirks.G51TurnsOn | firmware/grblHAL/core/gcode.c:2143-2209 | in every state of a run from a cold start G51 ends with scaling on, even with factors of one, and in inches multiplies its factors by 25.4 |
| ColdRuns.ColdRunCentred | firmware/grblHAL/core/gcode.c:2143-2209 | after a cold start scaling is about the origin in every state |
| Quirks.G10Stores | firmware/grblHAL/core/gcode.c:3625-3634 | an accepted G10 writes the one system that it names and leaves the others |
| Quirks.OverrideRedirectsG10 | firmware/grblHAL/core/gcode.c:2058-2100 | beside M48 to M53 a G10 without P writes G54, whichever system is active |
| Cases.OverrideWritesG54 | firmware/grblHAL/core/gcode.c:2058-2100 | G55 G10 L2 X5 M48 after a cold start is carried out and writes G54 |
| Quirks.QuadraticNeedsI | firmware/grblHAL/core/gcode.c:3066-3094 | G5.1 is refused for I0 whatever its J is |
| Cases.BendIsAccepted | firmware/grblHAL/core/gcode.c:3066-3094 | G5.1 X1 I1 J0 F100 after a cold start is accepted |
| Quirks.OnlyBoringStandsStill | firmware/grblHAL/core/gcode.c:3851-3898 | an accepted motion line with axis words hands on a motion if and only if it is not G85, G86 or G89; after these the parser takes the tool to be at the target all the same |
| Cases.BoringStandsStill | firmware/grblHAL/core/gcode.c:3851-3898 | G85 Z-1 R1 F100 after a cold start is carried out without a motion |
| Quirks.EndKeepsCycle | firmware/grblHAL/core/gcode.c:3930-3936 | M2 and M30 return to G1 and keep a canned cycle active |
| Cases.CycleOutlivesProgram | firmware/grblHAL/core/gcode.c:3930-3936 | G81 Z-1 R1 F100 after a cold start and then M2: the cycle is still active |
| SingleBlock.SingleBlockOnlyPauses | firmware/grblHAL/core/gcode.c:3909-3917 | in single-block mode a line that is carried out does the same with its M2 or M30 word removed |
| SingleBlock.MarkValidates | firmware/grblHAL/core/gcode.c:1753-3138 | no check looks at M2 and M30 |
| Cases.SingleBlockGoesOn | firmware/grblHAL/core/gcode.c:3909-3917 | G55 M2 in single-block mode after a cold start resets neither motion nor system |
| Units.ProgramTranslates | firmware/grblHAL/core/gcode.c:2114-2132 | a program rewritten from G20 to G21 by a translator that follows its modes gets the same answers, the same motions and the same final state but for the units |
| ColdRuns.ColdProgramTranslates | firmware/grblHAL/core/gcode.c:2114-2132 | the same after a cold start, where both programs start from one state |
| Units.LineTranslates | firmware/grblHAL/core/gcode.c:709-4030 | the same for one line, accepted or refused |
| Units.LineConverts | firmware/grblHAL/core/gcode.c:931-1694 | what the scanner makes of a translated line |
| Units.NoInchesLeft | firmware/grblHAL/core/gcode.c:1184-1187 | an accepted line is free of G20 afterwards |
| Units.BareSplineDiffers | firmware/grblHAL/core/gcode.c:3036-3038 | a translated G5 without I and J that is accepted makes a curve with another control point, unless P and Q are zero |
| Cases.NeighbourOfO | firmware/grblHAL/core/gcode.c:1564-1569 | why a line with an O word is not translated: X1 O10 in inches is refused for the unused O, its translation X25.4 O10 for the fraction in front of it |
| Distance.ProgramGoesIncremental | firmware/grblHAL/core/gcode.c:2474-2498 | a program rewritten from G90 to G91, each absolute word shifted by coordinate system, G92 and tool offset less the position, gets the same answers, motions and final state but for the distance mode |
| Distance.LineGoesIncremental | firmware/grblHAL/core/gcode.c:709-4030 | the same for one line, accepted or refused |
| Distance.CycleDepths | firmware/grblHAL/core/gcode.c:2758-2767 | why cycles are not translated: with the same target and retract position the depth in G91 is that of G90 if and only if the tool stands at the retract position |
| Distance.CycleTargets | firmware/grblHAL/core/gcode.c:2758-2767 | and whatever its words, a cycle in G91 with the same hole and retract position hands on the same target if and only if the tool stands at the retract position |
| Distance.SamePoint | firmware/grblHAL/core/gcode.c:2474-2498 | the shifted and the original block head for the same point |
| SameMeaning.BlockTwins | firmware/grblHAL/core/gcode.c:1753-4029 | blocks whose numbers mean the same millimetres and whose axis words come to the same are answered alike, move alike and leave alike states |
| Meaning.WordsTwins | firmware/grblHAL/core/gcode.c:1753-2109 | such blocks pass the word checks together |
| Meaning.MotionTwins | firmware/grblHAL/core/gcode.c:2585-3123 | and the motion checks |
| Meaning.CommitTwins | firmware/grblHAL/core/gcode.c:3210-4029 | and are executed alike |

## Left out

- Float rounding: numbers are exact reals, so a comparison that the target decides by its last bit can differ.
- Curves.RunFits: leaves out the arcs by radius of Curves.DegenerateIff, for which the source divides by zero; the model puts the centre at the start there.
- Units.ProgramTranslates: G5 without I and J in inches is excluded, as the translation changes its meaning, and lines with an O word, which are refused before and after, but not always for the same reason; everything else is covered, with scaling and canned cycles.
- Distance.ProgramGoesIncremental: scaling off; no canned cycles, whose target in G91 is another one (Distance.CycleTargets); no O word, whose line is refused before and after, but not always for the same reason.
- FeedSafety.RunFeeds: does not speak of jogs, as a jog without axis words may have feed zero; the others are in ColdRuns.ColdRunMoves.
- Geometry.WrapHome: rotary axes are modelled by themselves, on arrays of any number of axes, in degrees rather than steps; the interpreter has three linear axes.
- Canbus.RxState.DeliveredInOrder: one producer context and one poller; the order of memory accesses is that of the source text.
- G33 and G76: refused as on a spindle that cannot be synchronised, also when the machine has an encoder.
- Lathe mode, G43 with a tool table, G65 macros, M62 to M68, M70 to M73, user M-codes and plugins: refused or absent in the configuration above.
- A failing malloc in the normaliser.
- Expressions, parameters and the reading of numbers from text.
- Spindle, coolant and laser output, messages, reports and pallet shuttle: their modal state is kept, the calls are not.
- The planner and motion control below the calls: only what the interpreter hands to it is modelled.
- CAN driver functions, filters and settings registration.
- Constants and lookups: alarm, error and message texts, the board support under firmware/cnc, Marlin's configuration.
