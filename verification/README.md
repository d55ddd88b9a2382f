# The B1700 micro-machine and the software stacked on it

This project models the Burroughs B1700 emulator as one layered system and proves what each layer promises the next:

1. **The machine** (`src/core`): bit-addressable memory, the register file with its aliased nibble views and function
   box, the A-stack ring, the polled I/O bus, and every micro-operator with its clocks. `Machine.Step` is the value of one
   micro-step; `CentralProcessor.Processor` is the processor as an object whose `Step` and `Run` are proved equal to it.
   `IoLaws` and `HostLaws` follow service requests and the EMV host's answers over whole runs.
2. **The cross-assembler** (`src/tools/mil_asm.cpp`): MIL source lines as an AST with a meaning (`Mil.Execute`), the words
   they are laid out to (`Mil.Code`), the assembler as an object that emits, patches and resolves
   (`MilAssembler.Assembler`), and a simulation showing that running the words does what the lines mean.
3. **The interpreters** (`artifacts/interpreters`): the S-FORT and S-CALC interpreters line by line
   (`FortMicrocode`, `CalcMicrocode`), each refining a small abstract machine (`FortVm`, `CalcVm`), one instruction per trip
   round FETCH and then over whole runs of the micro-machine.
4. **The S-FORT assembler** (`src/tools/sfort_asm.cpp`): two passes over tokenised lines, tied to the meaning of the
   source text (`FortLanguage`); the end-to-end theorem joins it to the micro-machine.
5. **Gismo** (`src/main.cpp`): two processes share the machine in slices of a quantum, the micro-store being overlaid at
   each switch; non-interference, termination and cycle accounting for every quantum, and the two interpreters as an instance.

`dafny verify dfyconfig.toml` checks everything.

## How the layers connect

- A word of memory is decoded by `Isa.Decode`; `Isa.DecodeEncode` ties it to the assembler's encoders, so that proofs
  about microcode reason about operators and not about bits.
- `Simulation.Sim` relates a machine state to a MIL-level state at a source line; `SimulationControl.SimLine` takes one
  line, `MilRun.SimRun` any number, and every step is shown to keep to a region of memory (`Footprint.Confined`).
- `Locality.StepLocal` says that a confined step depends only on what Gismo saves and on the region; that is what makes
  a slice in the shared machine a stretch of the process's solo run.
- The widths of registers are in the types `Word` (24 bits), `Addr` (19), `Half` (16), `Octet` (8) and `Nib` (4), so every
  function that returns registers keeps their ranges. Memory is a sequence of bits in the specifications and an array of
  octets in `Storage.Memory`.
- MONITOR output is the sequence `out` of a machine state.

## Where the code and its documentation differ

- The register map follows `src/core/registers.h:118-135`; the table in `docs/ARCHITECTURE.md` differs from it.
- `T(8)` to `T(15)`, `nibble EQL v` with v nonzero and orderings with Y on the left are not compiled to what they say; the
  exact conditions are in `Lowering` (`ConditionsExact` for every machine state at once, `EqualityTestExact` and
  `ReversedOperandsExact` state by state).
- An S-FORT branch operand is the label's bit position only for labels below byte 8192 (`FortAssembler.OffsetExact`).
- INC of both FA and FL on a READ or WRITE is compiled to a count of FL alone (`Lowering.CountsExact`).
- The copy loop moves whole octets and at least one: exactly FL bits only for a positive multiple of eight
  (`CopyLoop.PassesExact`). Its last line reads `E IT`, which the assembler takes for EXIT
  (`src/tools/mil_asm.cpp:728`).

## Model

| member | source | states |
|---|---|---|
| BitMemory.ReadBack | src/core/memory.h:31-55 | an in-range field just written reads back as the value, in either direction |
| BitMemory.ReadDisjoint | src/core/memory.h:47-55 | a write in either direction leaves every disjoint field as it was |
| BitMemory.ReadFrame | src/core/memory.h:31-41 | a read depends on the bits of its field only |
| BitMemory.ReadConcat | src/core/memory.h:31-41 | adjacent fields concatenate |
| BitMemory.ReverseRead | src/core/memory.h:31-41 | a reverse read is the bit reversal of the forward read of the same bits |
| Storage.Memory.ReadBits | src/core/memory.h:31-41 | the bit-by-bit loop over octets, with 32-bit address wrap below zero, reads the field of the bit view, both directions |
| Storage.Memory.WriteBits | src/core/memory.h:47-55 | the bit-by-bit loop leaves exactly the bit view with the field replaced |
| Storage.Memory.GetBit | src/core/memory.h:82-87 | most significant bit first within the octet, zero outside memory |
| Storage.Memory.SetBit | src/core/memory.h:89-97 | changes that bit and no other, and nothing outside memory |
| Storage.Memory.FetchWord | src/core/memory.h:20-24 | the two octets of the aligned word are the 16-bit field there; zero outside memory |
| Storage.Memory.LoadBytes | src/core/memory.h:58-62 | replaces exactly the bytes of the range |
| Isa.DecodeEncode | src/tools/mil_asm.cpp:316-424 | every word packed by an encoder from in-range fields is decoded to that operator with those fields |
| Isa.TestRoundTrip | src/core/types.h:53-174 | the same for the four-bit operators, whose select field holds one bit |
| WordLayout.FieldsPlaced | src/core/types.h:53-174 | every field of every operator the assembler packs stands at its own bits of the word |
| WordLayout.EncodesBack | src/core/processor.h:89-110 | every word from 1000 up is the encoding of the operator it decodes to |
| WordLayout.SmallWords | src/core/processor.h:112-175 | below 1000 the second digit decides, and words without a meaning do nothing |
| RegisterMap.ReadsNamed | src/core/registers.h:118-249 | reading a group and select gives what the register named in the map holds, function box outputs by their values |
| RegisterMap.WritesNamed | src/core/registers.h:250-363 | writing changes exactly the named register, cut to its width; read-only addresses take nothing |
| RegisterMap.MovesNamed | src/core/processor.h:182-200 | MOVE loads the named register with what the other holds, popping the stack when TAS is the source |
| RegisterMap.PadMovesNamed | src/core/processor.h:203-221 | scratchpad moves load the named register from one half of the word or store it there, the other half kept |
| RegisterMap.LoadsNamed | src/core/processor.h:359-431 | literals, SHIFT T and EXTRACT load the register they name; a 24-bit literal takes the word at MAR and passes over it |
| OperatorLaws.NibbleViews | src/core/registers.h:368-410 | setting one nibble of T, L or FB leaves it readable and the other five unchanged |
| OperatorLaws.WriteThenRead | src/core/registers.h:137-363 | for every group and select that keeps its value, a write is read back cut to the register's width; a push shows as TAS |
| OperatorLaws.BinaryBox | src/core/registers.h:418-455 | outside decimal mode SUM is (X + Y) and DIFF is (X - Y) modulo 2^n, n the length in bits 3 to 7 of CP, 24 for zero |
| OperatorLaws.BinaryDiffUndoesSum | src/core/registers.h:426-447 | binary DIFF undoes SUM at every width |
| OperatorLaws.LogicalBox | src/core/registers.h:430-450 | CMPX, CMPY, XANY, XORY, MSKX, MSKY and XEQY bit by bit below the length in CP |
| Decimal.SumIsDecimal | src/core/registers.h:424-473 | with unit 1 and a length of 4n bits in CP, SUM of valid low digits of X and Y is their sum modulo 10^n in valid digits |
| Decimal.DiffIsDecimal | src/core/registers.h:476-490 | likewise DIFF is their difference modulo 10^n |
| Decimal.DiffUndoesSum | src/core/registers.h:426-447 | decimal DIFF undoes SUM |
| RegisterUnit.AddDecimal | src/core/registers.h:453-465 | the carry loop computes the digit-wise decimal sum |
| RegisterUnit.SubtractDecimal | src/core/registers.h:468-480 | the borrow loop computes the digit-wise decimal difference |
| RegisterUnit.RegisterFile.Output | src/core/registers.h:418-450 | each function box output of the object is that of its register values |
| RegisterUnit.RegisterFile.Read | src/core/registers.h:137-248 | reading by group and select, for all sixteen groups |
| RegisterUnit.RegisterFile.Write | src/core/registers.h:250-363 | writing by group and select changes the one register named and nothing else |
| RegisterUnit.RegisterFile.PushValue | src/core/registers.h:72-75 | a push on the ring array |
| RegisterUnit.RegisterFile.PopValue | src/core/registers.h:77-81 | a pop of the ring array |
| AStack.RingRefinesStack | src/core/registers.h:67-85 | for every run of pushes and pops the ring behaves as a stack of the most recent values, so pops are last in first out up to the depth |
| AStack.PushRefines | src/core/registers.h:72-75 | a push onto a full ring forgets the oldest value and no other |
| AStack.PopRefines | src/core/registers.h:77-81 | a pop returns and removes the most recent value |
| Invariants.StepKeeps | src/core/processor.h:48-83 | whatever word is executed, the stack pointer stays below the depth, memory keeps its size, output only grows, and the step costs at least two clocks |
| Invariants.RunForIsRun | src/core/processor.h:39-45 | run(max) is that many single steps, at most ceil(max/2) of them |
| Invariants.RunForStops | src/core/processor.h:39-45 | run() stops when halted or out of clocks, and not before |
| Invariants.ShiftsLeast | src/core/processor.h:734-738 | NORMALIZE's loop makes the least number of shifts that sets the top bit, or FL of them |
| Invariants.Normalizes | src/core/processor.h:722-743 | NORMALIZE looks at the top bit of the length in CP; X is shifted by the least count that sets it, or FL, FL is reduced by it, six clocks a shift, and a normalized X is left alone |
| OperatorLaws.ShiftsTogether | src/core/processor.h:616-633 | X and Y shift as one 48-bit register |
| OperatorLaws.RotatesBack | src/core/processor.h:596-602 | left and right rotations undo each other |
| OperatorLaws.CarryIsOverflow | src/core/processor.h:659-682 | CARRY for all sixteen variants: clear, set, overflow of the operand length, operands differ, and the rest of CP stays |
| OperatorLaws.BiasThenSum | src/core/processor.h:541-583 | after BIAS by an FL of 1 to 23 SUM, DIFF and the carry are those of FL-bit numbers |
| OperatorLaws.BiasSets | src/core/processor.h:541-583 | the unit comes from FU, the length from FU, FL, SFL, the smaller of the two or of FL and CPL, at most 24, or stays; the skip is taken when asked for and the length is not zero; carry stays |
| OperatorLaws.NibbleCarries | src/core/processor.h:225-261 | INC-T and DEC-T skip exactly on overflow and underflow |
| OperatorLaws.ClearsMask | src/core/processor.h:288-319 | masking with the complement leaves no masked bit |
| MachineLaws.SkipTestIs | src/core/processor.h:294-312 | the skip test by bits: any of the mask, equal, none of the mask, unequal |
| MachineLaws.SkipsAndClears | src/core/processor.h:288-319 | SKIP WHEN as executed: the skip follows the test, variants 3 and 7 clear the masked bits of the register when they skip, nothing else is written |
| MachineLaws.BranchesOnBit | src/core/processor.h:265-285 | a bit branch tests the bit counted from the most significant one and moves by words |
| MachineLaws.NibbleExecutes | src/core/processor.h:225-262 | the four-bit operators as executed: AND, OR, EOR bit by bit, INC and DEC modulo sixteen, skips exactly on overflow and underflow |
| MachineLaws.CountDirections | src/core/processor.h:749-797 | for each count variant FA and FL move the way it names, FL down to zero at most, the rest of FB stays |
| MachineLaws.FieldExecutes | src/core/processor.h:322-356 | READ and WRITE transfer the field at FA of the length given, cut to 24, or of the length in CP, count by it, keep MAR in TEMPB and change nothing else |
| MachineLaws.ComparesXY | src/core/registers.h:496-510 | XYCN by bits: above, below, equal at the length in CP, top bit of X |
| MachineLaws.ComparesFL | src/core/registers.h:483-494 | FLCN by bits |
| MachineLaws.ShowsInterrupts | src/core/registers.h:512-520 | XYST(2) is up exactly when one of CC(1) to CC(3) is |
| MachineLaws.Relates | src/core/processor.h:707-719 | RELATE adds or subtracts the left half of the scratchpad word |
| MachineLaws.Exchanges | src/core/processor.h:685-704 | EXCHANGE loads from one scratchpad word and stores in the other |
| MachineLaws.LocksBus | src/core/processor.h:465-473 | DISPATCH LOCK takes a free bus and skips, and does nothing on a taken one |
| MachineLaws.FreesBus | src/core/processor.h:475-499 | DISPATCH WRITE frees the bus and touches no register, memory or other device |
| MachineLaws.BranchesRelative | src/core/processor.h:433-457 | branches and calls move by words from the word after them modulo 2^19, a call pushing its address |
| MachineLaws.CountExecutes | src/core/processor.h:628-657 | COUNT counts by the amount given, or for zero by the length in CP |
| MachineLaws.StopsMachine | src/core/processor.h:112-137 | HALT stops, OVERLAY stops unless FA and FB are zero |
| MachineLaws.FetchesWord | src/core/processor.h:59-73 | the word executed is the fetched one or-ed with a pending value for M, which is used up |
| MachineLaws.ClocksByWord | src/core/processor.h:89-110 | clocks of a word by its first digit, target MAR and skip taken |
| MachineLaws.ClocksBySecond | src/core/processor.h:141-175 | clocks of the words below 1000 by their second digit |
| ShiftLaws.ShiftsXY | src/core/processor.h:584-616 | SHIFT and ROTATE of X or Y bit by bit, left and right |
| ShiftLaws.ShiftsT | src/core/processor.h:386-407 | SHIFT T and ROTATE T go left, by the count given or the length in CP |
| ShiftLaws.Extracts | src/core/processor.h:410-431 | EXTRACT is the low bits of T rotated right |
| OperatorLaws.ExchangeTwice | src/core/processor.h:685-704 | exchanging with the same scratchpad word twice changes nothing |
| OperatorLaws.RelateBack | src/core/processor.h:707-719 | relating FA up and down by a scratchpad word changes nothing |
| OperatorLaws.CountBack | src/core/processor.h:749-797 | FA up FL down is undone by FA down FL up as long as FL was not cut at zero |
| CentralProcessor.Processor.ExecNormalize | src/core/processor.h:722-743 | the shift loop over the fields equals the specified result and clocks |
| CentralProcessor.Processor.ExecMemoryAccess | src/core/processor.h:322-356 | the transfer between register and memory, the counts and the restored address |
| CentralProcessor.Processor.ExecDispatch | src/core/processor.h:460-538 | lock, start and acknowledge on the bus objects |
| CentralProcessor.Processor.Execute | src/core/processor.h:89-175 | executing any operator in place gives the machine's next state and clocks |
| CentralProcessor.Processor.Step | src/core/processor.h:48-83 | one step in place is one step of the machine |
| CentralProcessor.Processor.Run | src/core/processor.h:39-45 | the run loop terminates in the state of the bounded run |
| Devices.Device.Tick | src/core/io_bus.h:198-334 | one tick of a device object, null device or EMV host, is the specified tick of device and memory |
| Devices.Device.Serve | src/core/io_bus.h:287-323 | the host's answer to a read: clearing loop, card loop or /EN |
| Devices.BusUnit.Tick | src/core/io_bus.h:151-155 | ticking all devices in slot order threads memory through them |
| Devices.BusUnit.FindRequestingPort | src/core/io_bus.h:142-148 | the scan finds the lowest requesting port |
| Devices.BusUnit.DispatchTo | src/core/io_bus.h:117-121 | starts the device in the slot and leaves the others alone |
| IoLaws.AcknowledgesLowest | src/core/processor.h:501-532 | one step that executes READ AND CLEAR, devices completing in the same step included, takes the lowest requesting port, names it in T and its result word in L, clears CC(1) and leaves exactly the other requests |
| IoLaws.RequestsConserved | src/core/io_bus.h:125-155 | over any run of the machine the requests a port had and raised are those acknowledged and the one outstanding: none is lost, none taken twice |
| IoLaws.DrainsInOrder | src/core/processor.h:51-56 | a run of n READ AND CLEARs with no operation due acknowledges the n lowest ports in ascending order, port and result word in T and L each time, memory and the other requests as they were, one too many reporting an error; the poll that follows raises CC(1) and BICN exactly while requests remain |
| IoLaws.Reasserts | src/core/processor.h:51-56 | CC(1) and BICN come up before an operator exactly when a device requests service or its operation is due, and CC(1) otherwise stays latched |
| HostLaws.InFlight | src/core/io_bus.h:246-251 | an operation is pending exactly from its start until a tick at least the delay later, and it is the last one started: a restart replaces the descriptor and begins the delay anew |
| HostLaws.ServesInOrder | src/core/io_bus.h:262-334 | over any history of starts, reads and writes, acknowledgements and ticks the host's state is that of the number of reads completed: START-M-LOAD first, then each card once, in order, then only /EN |
| HostLaws.AnswersInTurn | src/core/io_bus.h:262-334 | the tick that completes a read leaves in memory the answer whose turn it is, the result word in reverse at ria+23, nothing else changed, and raises the request |
| HostLaws.DeliversCard | src/core/io_bus.h:287-308 | after the result word is stored, every octet of the card that begins before the buffer's end is in the buffer, wherever it lies apart from the result word |
| HostLaws.Delivers | src/core/io_bus.h:268-323 | the same for all three answers: opcode 531 in reverse, the preamble of zeros with its unit type, and /EN |
| HostLaws.WritesPass | src/core/io_bus.h:324-334 | a completed write leaves the host as it was, stores its result word only and raises the request |
| HostLaws.SlotFollows | src/core/processor.h:48-83 | over any run of the machine the device in a slot goes through exactly the ticks, starts and acknowledgements the run's operators give it |
| HostLaws.HostAnswers | src/core/io_bus.h:246-334 | on the running machine: whenever the host completes a read, the answer whose turn it is, counted over the whole run, is in memory after its tick and the port requests service; unless a device in a later slot completes in the same tick, the next operator finds exactly that memory |
| HostLaws.DispatchStarts | src/core/io_bus.h:47-59 | DISPATCH WRITE starts the device named in TE on the operation, result address and buffer that stand in memory at L, L + 24, L + 48 and L + 72 |
| HostLaws.DispatchedReadAnswered | src/core/processor.h:475-499 | from DISPATCH WRITE to the answer: it stands in the buffer, and the result word at the address, that those words in memory gave |
| HostLaws.DispatchAcknowledged | src/core/processor.h:501-532 | from DISPATCH WRITE to READ AND CLEAR: L is 23 past the result address that stood in memory at L + 24 |
| HostLaws.ReadingIs | src/core/io_bus.h:43-44 | bit 22 of the operation word is the direction |
| Lowering.BranchLands | src/tools/mil_asm.cpp:1268-1284 | an encoded branch arrives at its target exactly when the displacement fits twelve bits |
| Lowering.NibbleBitIs | src/core/processor.h:273-275 | bit n of a nibble is its bit 3 - n counted from the least significant end |
| Lowering.BitOfTIs | src/tools/mil_asm.cpp:1349-1372 | T(n) is bit 23 - n of T, and the test of its nibble tests it |
| Lowering.CountsExact | src/tools/mil_asm.cpp:1138-1162 | the counting of READ, WRITE and COUNT lines does what INC and DEC of FA and FL say exactly when it is not INC of both |
| Lowering.ParseKeepsMeaning | src/tools/mil_asm.cpp:1320-1462 | the parsed form of every supported condition holds exactly when the condition does |
| Lowering.SkipSense | src/tools/mil_asm.cpp:648-674 | the emitted skip skips exactly when the condition fails, its inversion by BEGIN exactly when it holds |
| Lowering.ExecutesIf | src/tools/mil_asm.cpp:1464-1593 | both, for source-level states |
| Lowering.ExecutesSkip | src/tools/mil_asm.cpp:1596-1693 | SKIP WHEN skips exactly when its condition holds, nibbles compared with any value included |
| Lowering.ConditionsExact | src/tools/mil_asm.cpp:1320-1593 | the conditions of IF whose skip is right in every machine state are exactly those outside T(8) to T(15), orderings with Y on the left and comparisons with a nonzero nibble |
| Lowering.TestsOfTExact | src/tools/mil_asm.cpp:324-334 | in particular the bit tests of T that are right are exactly those outside T(8) to T(15) |
| Lowering.ReversedOperandsExact | src/tools/mil_asm.cpp:1398-1420 | the skip of `Y rel X` is right in a machine state exactly for equality tests and equal operands |
| Lowering.EqualityTestExact | src/tools/mil_asm.cpp:1531-1553 | the skip of `nibble EQL v` or `NEQ v` is right in a machine state exactly when v is zero, the nibble is v, or it shares no bit with v |
| Lowering.EqualityTestFails | src/tools/mil_asm.cpp:1531-1553 | with T = 900000, IF TA EQL 8 goes on although TA is 9 |
| SimulationControl.SimIfThenBegin | src/tools/mil_asm.cpp:648-701 | control enters the block exactly when the condition holds, otherwise reaches the word after the matching END, at any nesting |
| SimulationControl.SimIfGoTo | src/tools/mil_asm.cpp:1495-1520 | control reaches the label's word exactly when the condition holds, otherwise the next line |
| SimulationControl.SimSkipWhen | src/tools/mil_asm.cpp:1596-1693 | SKIP WHEN passes over the next word exactly when its condition holds, for X against Y, FL against zero and nibbles against any value |
| SimulationControl.SimCall | src/core/processor.h:446-457 | a call arrives at the label's word and stacks the word after the call |
| SimulationControl.SimExit | src/core/processor.h:182-200 | EXIT returns to the word after the most recent call |
| SimulationControl.SimLit | src/tools/mil_asm.cpp:381-399 | executing a literal's words sets the register to the literal at its width, by way of T for X, Y and L |
| SimulationControl.SimLine | src/tools/mil_asm.cpp:590-923 | running the words of any source line does what the line means, arrives at the words of the next one and keeps to the region |
| MilRun.SimRun | src/tools/mil_asm.cpp:590-923 | the same for any number of lines |
| MilAssembler.InvertsWord | src/tools/mil_asm.cpp:653-674 | the bit patch BEGIN applies to a skip word is the word of the inverted skip |
| MilAssembler.Assembler.EmitLiteral | src/tools/mil_asm.cpp:381-399 | the one, two or three words of a literal |
| MilAssembler.Assembler.EmitBranch | src/tools/mil_asm.cpp:1268-1284 | a known label gives its word at once, an unknown one a placeholder and a fixup |
| MilAssembler.Assembler.AssembleBegin | src/tools/mil_asm.cpp:648-682 | inverts exactly the skip word before it, appends a placeholder and opens a block, every other word kept |
| MilAssembler.Assembler.AssembleEnd | src/tools/mil_asm.cpp:683-701 | closes the innermost block: exactly its placeholder becomes the branch to here |
| MilAssembler.Assembler.ResolveFixups | src/tools/mil_asm.cpp:1797-1813 | rewrites the placeholders in order |
| MilAssembler.PatchedKeeps | src/tools/mil_asm.cpp:1797-1813 | no word that is not a placeholder is changed |
| MilAssembler.PatchedFinal | src/tools/mil_asm.cpp:1797-1813 | every placeholder becomes the branch to its label's address |
| MilAssembler.Assembler.Assemble | src/tools/mil_asm.cpp:494-923 | with unique labels and matched blocks the one-pass, patching assembler produces the words of the finished program |
| MicroImage.FortAccepted | artifacts/interpreters/s_fort_interp.mil:44-262 | the assembler accepts the S-FORT interpreter, at every base address |
| MicroImage.CalcAccepted | artifacts/interpreters/s_calc_interp.mil:41-181 | the assembler accepts the S-CALC interpreter |
| MilAssembler.Assembler.WriteBinary | src/tools/mil_asm.cpp:1819-1830 | the file holds each word as two octets, the high one first |
| MicroImage.OctetsAreImage | src/tools/mil_asm.cpp:1819-1830 | the bits of the file are the words one after the other, most significant bit first |
| MicroImage.FileLoads | src/main.cpp:109-113 | loading the file at address zero puts the program's words where the machine fetches them, whatever was in memory |
| MicroImage.ImageLoads | src/core/memory.h:20-24 | memory that begins with the bits of the words has the program loaded |
| Multiply.PassKeepsProduct | artifacts/interpreters/s_fort_interp.mil:189-200 | accumulator + multiplicand * counter modulo 2^24 is the same after a pass |
| FortRefinement.Decodes | artifacts/interpreters/s_fort_interp.mil:53-84 | the chain of comparisons reaches the routine of the opcode, HALT for an undefined one |
| FortRefinement.ReadsReg | artifacts/interpreters/s_fort_interp.mil:91-105 | READ_REG leaves the numbered register in X and returns, touching only T and Y |
| FortRefinement.WritesReg | artifacts/interpreters/s_fort_interp.mil:108-126 | WRITE_REG stores word 8 into the numbered register and returns |
| FortRefinement.MultiplyLoop | artifacts/interpreters/s_fort_interp.mil:189-201 | exactly multiplier-many passes, leaving the product modulo 2^24 |
| FortSteps.FortStep | artifacts/interpreters/s_fort_interp.mil:51-262 | from any FETCH state the lines lead back to FETCH, or halt, having performed exactly one S-FORT instruction, for all opcodes |
| FortRuns.Interprets | artifacts/interpreters/s_fort_interp.mil:44-262 | after at least n machine steps the machine stands where n S-FORT instructions lead, memory unchanged |
| FortRuns.Faithful | artifacts/interpreters/s_fort_interp.mil:44-262 | at every machine step the output is a prefix of the program's, and complete once the machine has halted |
| FortRuns.HaltsExactly | artifacts/interpreters/s_fort_interp.mil:133-133 | the machine halts exactly when the S-FORT program does |
| FortRuns.SameOutput | artifacts/interpreters/s_fort_interp.mil:259-262 | once both have halted both have printed the same |
| CalcRefinement.MultiplyLoop | artifacts/interpreters/s_calc_interp.mil:135-148 | exactly multiplier-many passes, leaving the product modulo 2^24 |
| CalcRefinement.PerformsStep | artifacts/interpreters/s_calc_interp.mil:55-181 | with code and stack apart and no underflow, each trip round FETCH performs exactly one stack-machine instruction and re-establishes FA as code pointer and word 1 as stack pointer |
| CalcRuns.Interprets | artifacts/interpreters/s_calc_interp.mil:41-181 | whole runs, changing memory in the stack space only |
| CalcRuns.Faithful | artifacts/interpreters/s_calc_interp.mil:41-181 | at every machine step the output is a prefix of the program's, and complete once the machine has halted |
| CalcRuns.HaltsExactly | artifacts/interpreters/s_calc_interp.mil:92-92 | the machine halts exactly when the S-CALC program does |
| FortAssembler.CollectLabels | src/tools/sfort_asm.cpp:132-187 | pass 1 collects exactly the instructions, label positions and errors |
| FortAssembler.Emit | src/tools/sfort_asm.cpp:197-325 | pass 2 emits the translated instructions in order and counts the bad ones |
| FortAssembler.Assemble | src/tools/sfort_asm.cpp:118-342 | output is produced exactly for error-free programs, and is the bytes of their instructions |
| FortAssembler.ErrorsExact | src/tools/sfort_asm.cpp:132-330 | the passes find no error exactly when every label is new, every operation one of the language, its operands registers, numbers and defined labels as it needs |
| FortAssembler.FineTranslates | src/tools/sfort_asm.cpp:197-325 | a line is translated exactly when the language finds no error in it |
| FortAssembler.PassesAgree | src/tools/sfort_asm.cpp:164-187 | when pass 2 starts a line the code is as long as the line's pass 1 position |
| FortAssembler.OffsetExact | src/tools/sfort_asm.cpp:301-307 | the branch operand is the label's bit position exactly below byte 8192 |
| FortAssembler.DecodesProgram | src/tools/sfort_asm.cpp:197-325 | decoding the bytes gives back the instruction list |
| FortPrograms.FollowsAct | src/tools/sfort_asm.cpp:197-325 | the translation of a line does what its text says: ADD the sum of the two named registers, SUB, MUL, MOV, CMP, LOAD, PRINT likewise, BEQ and BNE by the last comparison |
| FortPrograms.FollowsStep | src/tools/sfort_asm.cpp:4-22 | one instruction of the assembled bytes is one step of the source text, branches landing on their labels |
| FortPrograms.PrintsSource | src/tools/sfort_asm.cpp:197-325 | the micro-machine running the assembled bytes prints what n source steps print |
| FortPrograms.PrintsOnlySource | artifacts/interpreters/s_fort_interp.mil:44-262 | at every step it has printed nothing else, and once halted exactly what the source prints |
| FortPrograms.HaltsLikeSource | src/tools/sfort_asm.cpp:197-325 | end to end: the machine halts exactly when the source program does |
| Locality.PrivateExact | src/main.cpp:38-48 | the registers whose reading shows nothing of what Gismo leaves unsaved are exactly the private ones |
| Locality.StepLocal | src/main.cpp:50-78 | machines that agree on saved registers and region step alike at the same cost, writing only in the region |
| Gismo.SliceLocal | src/main.cpp:173-173 | a bounded run of the shared machine mirrors as many steps of the solo run, overshooting by fewer than eight clocks |
| Gismo.SliceAKeeps | src/main.cpp:166-180 | a slice moves process A along its solo run, charges it the slice's cycles, at least the quantum unless it halts and fewer than quantum + 8, and leaves B where it was |
| Gismo.SliceBKeeps | src/main.cpp:182-192 | the same for B |
| Gismo.TurnInOrder | src/main.cpp:165-193 | a turn prints what A's solo run prints next and then what B's does, passing over a process that has halted |
| Gismo.NonInterference | src/main.cpp:136-193 | for every quantum, after any number of turns the saved registers of each process, the memory it reads, its output, cycles and halting are those of its solo run after some steps |
| Gismo.OutputPrefix | src/main.cpp:103-107 | in the interleaved run a process that halts alone has printed a prefix of its solo output, one that has halted all its solo run ever prints, using the same cycles |
| Gismo.TerminatesExactly | src/main.cpp:165-193 | the round-robin loop terminates exactly when the quantum is at least one and both solo runs halt |
| GismoScheduler.LoadInterpreter | src/main.cpp:109-113 | clearing and copying leave exactly the image over a cleared micro-store |
| GismoScheduler.SaveState | src/main.cpp:50-63 | saves registers and adds the slice's cycles |
| GismoScheduler.RestoreState | src/main.cpp:65-78 | restores every saved register and none of the others, and zeroes the cycle count |
| GismoScheduler.RunGismo | src/main.cpp:136-193 | the loop on one processor object ends with both processes halted, each having printed and used exactly what it prints and uses alone |
| GismoPrograms.CalcStays | artifacts/interpreters/s_calc_interp.mil:41-181 | every step of an S-CALC program keeps to its code and stack and uses no unsaved register |
| GismoPrograms.FortStays | artifacts/interpreters/s_fort_interp_gismo.mil:14-222 | every step of an assembled S-FORT program keeps to its bytes and uses no unsaved register |
| GismoPrograms.GismoPrints | src/main.cpp:136-193 | S-CALC and S-FORT sharing the machine print, interleaved, what the abstract stack machine and the S-FORT source print |
| GismoPrograms.GismoEnds | src/main.cpp:165-193 | that loop terminates exactly when the quantum is at least one and both programs halt |
| GismoSystem.Build | src/tools/mil_asm.cpp:1819-1830 | assembling and writing a program gives the octets of its finished words |
| GismoSystem.RunBoth | src/main.cpp:80-193 | from the sources of both interpreters, assembled, written and overlaid in turn on one processor, the loop ends having printed, process by process, exactly what the abstract stack machine and the S-FORT source print |
| CopyLoop.MovesData | artifacts/cards/cold_start_loader.mil:296-304 | the routine returns with the octets copied bit for bit, no other bit changed, TO-ADDRESS past the copy and FL zero |
| CopyLoop.MachineMovesData | artifacts/cards/cold_start_loader.mil:296-304 | the same on the machine, wherever the routine stands in a program |
| CopyLoop.PassesExact | artifacts/cards/cold_start_loader.mil:298-303 | the loop moves exactly FL bits exactly for positive multiples of eight |

## Left out

- Tokenising, DEFINE expansion, OCR repairs, column heuristics and number parsing of the assemblers: both start from token or AST lists; an S-FORT operand carries the number it reads as, and one that is no number counts as an error, where the program would stop on an exception.
- MIL forms outside `Mil.Line`: ELSE, SEGMENT, single-statement THEN bodies of more than one word, conditions by name and on single bits of nibbles, SKIP WHEN UNLOCKED and on a nibble's bits or order, SET, SHIFT, EXTRACT, LOAD/STORE forms other than STORE F, DISPATCH and BIAS lines; their operators are in the machine, not in the source-level language.
- Literals into scratchpad names and into selects 0 and 1 of groups 4, 5 and 11, and the lowering of shifts of T, are outside the model.
- Programs of 4096 words or more, whose branches need not fit their displacements.
- Storage.Memory.ReadBits: memories larger than 2 MB (2^24 bits), which 24-bit field addresses cannot reach, are excluded.
- FortPrograms.HaltsLikeSource: asks for fewer than 8192 bytes of code, in memory below 2^24 bits with a zero byte after it, and cleared registers.
- CalcRefinement.PerformsStep: what the interpreter does on a stack underflow or when the stack leaves its space is not described.
- AStack.RingRefinesStack: says nothing about pops beyond the values the ring still remembers.
- GismoScheduler.RunGismo: is for quanta and programs for which the loop terminates; TerminatesExactly says which those are.
- Only the descriptor words that devices use are modelled, and the null device and the EMV host are the devices.
- The rest of the cold start loader, cassette operators, the data transfer of OVERLAY, and the READ and WRIT pseudo-registers.
- The disassembler, debugger, tape reader, S-CALC assembler, command line, file access, banners and traces.
