# Pipeline execution engine of a MIPS-subset simulator

This project models the cycle-accurate pipeline engine of an educational MIPS simulator. The
engine is a 5-stage pipeline (IF, ID, EX, MEM, WB) over the subset add, sub, sll, jr, ori,
lui, beq, lw, sw, j and jal. The model covers:

- the control decoder (module `Controller`): one 32-bit word becomes its fields, control
  signals, the operand-use times `tUse`, the result-ready times `tNew` and the destination
  register;
- the hazard unit (module `HazardUnit`): the "AT" stall test between the decode-stage
  instruction and the instructions in EX and MEM;
- the latch bank (module `Latches`): the four inter-stage registers IF/ID, ID/EX, EX/MEM and
  MEM/WB, each a class updated in place, plus their bubble values;
- the per-instruction history (module `History`): the cycle at which an instruction occupied
  each stage, the cycles it stalled, and `undoCycle`;
- the architectural state the pipeline drives but does not own (module `Arch`): the register
  file, data memory, program counter, assembled program and backstepper, as one value;
- one clock period of the datapath (module `Datapath`): forwarding muxes, ALU, immediate
  extension, next PC and the combinational wires of a cycle;
- the hazard report shown to the user (module `Report`);
- the engine as functions on an abstract state (module `Engine`): a cycle, `step`, `back`,
  `reset` and `isDone`, with the bookkeeping invariants;
- the properties of the engine (module `EngineProps`). The central ones: step keeps the
  invariants; `back` right after `step` restores the pipeline; n steps followed by n backs
  restore it; what a stall does; how a finished pipeline behaves;
- a worked run (module `ExampleRun`): three instructions at 0x3000, with forwarding and
  no stall, followed latch by latch through seven steps;
- the simulator object (module `Simulator`, class `PipelineSimulator`). Its methods update
  the latches, history, counters and stacks in place. Each is proved to leave exactly the
  state the `Engine` function gives.

Word arithmetic is on `bv32`, so Java's 32-bit wrap-around in `pc + 4`, `+` and `-` is exact.
The register and field widths (`bv5`, `bv6`, `bv16`, `bv26`) give the value ranges the
masks in the decoder produce.

Two settings are parameters of `step` and `back`:

- `delayed`: the delayed-branching setting;
- `bs`: "backstepping is enabled and the program has a backstepper".

Some behaviours of the code, stated plainly:

- An `ori` followed by a dependent `add` does not stall. The decoder gives `add` `tUse` 1
  and `ori` `tNew` 1 in EX, and `1 < 1` is false, so the value is forwarded instead
  (`HazardUnit.AluUseDoesNotStall`). Only branch and `jr` readers stall behind an ALU
  producer (`HazardUnit.BranchStallsOnAluProducer`).
- `branchTaken` is true for `j`, `jal`, `jr` and a taken `beq`. It is not "npc differs from
  PC+4": a `jr` to PC+4 still flushes (`Datapath.NextPcTaken`).
- A memory access that throws is caught in the code. The model keeps the set of addresses
  where a word access succeeds (`wordAccessible`). Elsewhere a load reads 0 and a store
  writes nothing and also reads 0.
- `back` with a snapshot but an empty count stack throws `EmptyStackException` after
  restoring the latches, the PC and the next identifier. `Engine.Back` stops at that point
  with the latches restored. When the next identifier restored is negative, the history
  truncation would throw; `Engine.Rollback` stops there too. `EngineProps.BackKeepsValid`
  shows neither case arises from a valid state.
- A history lookup out of range returns nothing in the model (`Engine.Tag`). The Java
  `get` would throw. The invariant `Engine.Valid` rules this case out.

## Model

| member | source | states |
|---|---|---|
| Controller.Decode | mars/simulator/PipelineController.java:52-170 | a non-zero destination only for a register writer; `tUse` in 0..3, `tNew` in EX 0..2, in MEM 0..1, and 0 in WB |
| Controller.DecodeMatchesTable | mars/simulator/PipelineController.java:55-167 | decoding gives the shifted-and-masked fields and, per recognised instruction, the signal row of the instruction table (npc op, ALU op, writes, extension, ALU source, timing, link, destination) |
| Controller.UnknownIsInert | mars/simulator/PipelineController.java:80-164 | an unrecognised word writes nothing, does not branch, adds, uses no operand (`tUse` 3), produces nothing and has destination 0 |
| Controller.FlagsIdentifyInstructions | mars/simulator/PipelineController.java:94-151 | each single flag holds exactly for its instructions: memory write for sw, link for jal, immediate ALU source for ori/lui/lw/sw, sign extension for lw/sw/beq, MEM result for lw, register write for add/sub/sll/ori/lui/lw/jal |
| Controller.NpcByInstruction | mars/simulator/PipelineController.java:80-90 | the NPC operation is jump exactly for j/jal, register jump exactly for jr, branch exactly for beq, and normal for everything else |
| Controller.WriteRegDstByInstruction | mars/simulator/PipelineController.java:156-164 | the destination is rd for R-type ALU instructions, rt for ori/lui/lw, 31 for jal, and 0 otherwise |
| Controller.BubbleDecodesAsSll | mars/simulator/PipelineController.java:67-69 | the bubble word 0 decodes as `sll $0,$0,0`: destination 0, no memory write, no link, no branch |
| Controller.DecodeEncodeR | mars/simulator/PipelineController.java:55-62 | decoding an R-type encoding gives back its opcode 0, rs, rt, rd, shamt and function code |
| Controller.DecodeEncodeI | mars/simulator/PipelineController.java:55-63 | decoding an I-type encoding gives back its opcode, rs, rt and 16-bit immediate |
| Controller.DecodeEncodeJ | mars/simulator/PipelineController.java:55-64 | decoding a J-type encoding gives back its opcode and 26-bit target |
| HazardUnit.NoStallIffEveryPairInTime | mars/simulator/HazardUnit.java:26-41 | no stall exactly when, for every source operand and every producer in EX or MEM writing that non-zero register, the result is ready no later than it is used |
| HazardUnit.RegisterZeroNeverStalls | mars/simulator/HazardUnit.java:32-38 | producers writing register 0 never cause a stall |
| HazardUnit.IgnoresWritebackTag | mars/simulator/HazardUnit.java:26-40 | the write-back result time has no effect on the verdict |
| HazardUnit.OperandSymmetry | mars/simulator/HazardUnit.java:32-40 | swapping the rs and rt operands (register and use time) keeps the verdict |
| HazardUnit.StallMonotone | mars/simulator/HazardUnit.java:32-40 | using an operand earlier or producing a result later never removes a stall |
| HazardUnit.UnusedOperandNeverStalls | mars/simulator/HazardUnit.java:32-40 | with rs unused (`tUse` 3) the verdict is exactly rt's hazard against EX or MEM, with rt unused exactly rs's, and with both unused nothing stalls |
| HazardUnit.NonWritersNeverStall | mars/simulator/HazardUnit.java:32-38 | when neither the EX nor the MEM instruction writes a register, nothing stalls |
| HazardUnit.LoadUseStalls | mars/simulator/HazardUnit.java:32-40 | an lw in EX to a non-zero register stalls the ID instruction whenever it reads that register on either operand before MEM (`tUse` below 2), and with no register writer in MEM exactly then; so add/sub/ori/lw/sw stall on rs, add/sub/sll on rt, and sw storing the loaded register as rt does not stall |
| HazardUnit.AluUseDoesNotStall | mars/simulator/HazardUnit.java:32-40 | an ALU result in EX never stalls an ID instruction other than beq or jr, whatever the MEM stage holds (the value is forwarded) |
| HazardUnit.BranchStallsOnAluProducer | mars/simulator/HazardUnit.java:32-34 | a beq/jr in ID reading the non-zero destination of an ALU instruction in EX as rs, or a beq reading it as rt, stalls |
| HazardUnit.LoadInMemoryStallsOnlyDecodeReaders | mars/simulator/HazardUnit.java:36-40 | with no register writer in EX, a load in MEM stalls a reader of its register exactly when it needs that operand in ID (`tUse` 0) |
| Latches.IfId.constructor | mars/simulator/PipelineRegisters.java:9-12 | a new IF/ID latch holds the bubble (no step identifier) |
| Latches.IfId.Update | mars/simulator/PipelineRegisters.java:14-18 | the latch holds exactly the fetched PC, word and identifier |
| Latches.IfId.Reset | mars/simulator/PipelineRegisters.java:20-24 | the latch holds the bubble |
| Latches.IdEx.constructor | mars/simulator/PipelineRegisters.java:27-34 | a new ID/EX latch holds the bubble |
| Latches.IdEx.Update | mars/simulator/PipelineRegisters.java:36-44 | the latch holds exactly the given PC, word, operands, immediate, zero flag and identifier |
| Latches.IdEx.Reset | mars/simulator/PipelineRegisters.java:46-54 | the latch holds the bubble |
| Latches.ExMem.constructor | mars/simulator/PipelineRegisters.java:57-63 | a new EX/MEM latch holds the bubble |
| Latches.ExMem.Update | mars/simulator/PipelineRegisters.java:65-72 | the latch holds exactly the given PC, word, store data, ALU result, zero flag and identifier |
| Latches.ExMem.Reset | mars/simulator/PipelineRegisters.java:74-81 | the latch holds the bubble |
| Latches.MemWb.constructor | mars/simulator/PipelineRegisters.java:84-90 | a new MEM/WB latch holds the bubble |
| Latches.MemWb.Update | mars/simulator/PipelineRegisters.java:92-99 | the latch holds exactly the given PC, word, ALU result, memory read, zero flag and identifier |
| Latches.MemWb.Reset | mars/simulator/PipelineRegisters.java:101-108 | the latch holds the bubble |
| Latches.PipelineRegisters.constructor | mars/simulator/PipelineRegisters.java:112-115 | four fresh latches, all bubbles |
| Latches.PipelineRegisters.ResetAll | mars/simulator/PipelineRegisters.java:117-122 | all four latches hold bubbles afterwards, whatever they held before, so resetting twice is resetting once |
| History.RemoveAll | mars/simulator/PipelineSimulator.java:123-125 | removing a cycle from the stall list keeps exactly the other entries and never lengthens it |
| History.RemoveAllAppend | mars/simulator/PipelineSimulator.java:123-125 | removing from a concatenation is removing from each part |
| History.StageAtAfterSetStage | mars/simulator/PipelineSimulator.java:71-110 | after tagging a stage at a cycle with no tag, the stage query at that cycle names that stage |
| History.StageAtAfterUndo | mars/simulator/PipelineSimulator.java:96-126 | after undoing a cycle, the stage query at that cycle finds nothing |
| History.SetStageKeepsOtherCycles | mars/simulator/PipelineSimulator.java:71-110 | tagging a free stage slot at one cycle leaves the query at every other cycle unchanged |
| History.UndoKeepsOtherCycles | mars/simulator/PipelineSimulator.java:96-126 | undoing one cycle leaves the query at every other cycle unchanged |
| History.UndoAfterSetStage | mars/simulator/PipelineSimulator.java:71-126 | undoing a cycle right after tagging a free slot at that cycle restores the record |
| History.SetStageKeepsOrder | mars/simulator/PipelineSimulator.java:71-94 | tagging a record at a cycle later than all its tags, with the stage's slot and all later ones free, keeps IF < stalls (increasing) < ID < EX < MEM < WB |
| History.OneTagPerCycle | mars/simulator/PipelineSimulator.java:96-110 | a record in stage order has at most one tag at any cycle, and getStageAt finds a stage exactly when it has one |
| History.UndoLaterCycleIsIdentity | mars/simulator/PipelineSimulator.java:112-126 | undoing a cycle later than all of a record's tags changes nothing |
| History.ExecutionStep.constructor | mars/simulator/PipelineSimulator.java:66-69 | a new record has its identifier and PC, no stage cycle and no stall list |
| History.ExecutionStep.SetStage | mars/simulator/PipelineSimulator.java:71-94 | the record becomes the value-level tag of the stage at the cycle |
| History.ExecutionStep.UndoCycle | mars/simulator/PipelineSimulator.java:112-126 | the record becomes the value-level undo of the cycle |
| Arch.ArchState.FetchInstruction | mars/simulator/PipelineSimulator.java:728-731 | a non-zero word is fetched only from an address holding a statement |
| Datapath.ForwardExIsNewest | mars/simulator/PipelineSimulator.java:412-433 | an EX operand is the newest in-flight value of its register (MEM before WB), the latched value if none, and 0 for register 0 |
| Datapath.ForwardIdAgreesWithEx | mars/simulator/PipelineSimulator.java:461-487 | the ID-stage forwarding chooses the same value as the EX-stage one |
| Datapath.StoreForwardIsNewest | mars/simulator/PipelineSimulator.java:396-406 | the store data in MEM is the WB value when WB writes that non-zero register, else the latched value, and 0 for register 0 |
| Datapath.MemoryStageWins | mars/simulator/PipelineSimulator.java:418-423 | when MEM and WB both write the operand register, both forwarding points take the MEM value |
| Datapath.LuiFillsUpperHalf | mars/simulator/PipelineSimulator.java:453-454 | lui puts its immediate in the upper half and zeros in the lower half |
| Datapath.OriFillsLowerHalf | mars/simulator/PipelineSimulator.java:447-448 | ori on a word with an empty lower half keeps the upper half and sets the lower half to the immediate, so lui then ori builds any 32-bit constant |
| Datapath.SignExtendBits | mars/simulator/PipelineSimulator.java:591-593 | sign extension keeps the low 16 bits and fills the upper half with copies of bit 15 |
| Datapath.ZeroExtendBits | mars/simulator/PipelineSimulator.java:591-593 | zero extension keeps the low 16 bits and clears the upper half |
| Datapath.NextPcTaken | mars/simulator/PipelineSimulator.java:496-510 | a branch is taken exactly for j/jal, jr and a beq with equal operands; otherwise the next PC is the fetch PC plus 4; jr jumps to its rs value |
| Datapath.JumpReachesEncodedTarget | mars/simulator/PipelineSimulator.java:504-505 | a j or jal encoding a word-aligned target in the same 256 MB region as the delay slot jumps exactly there |
| Datapath.BeqIsBranch | mars/simulator/PipelineController.java:87-88 | any beq encoding decodes with the branch NPC operation |
| Datapath.BranchUsesEncodedOffset | mars/simulator/PipelineSimulator.java:502-503 | a beq encoded with an offset goes to the decode PC plus 4 plus four times the sign-extended offset when its operands are equal, and to the fetch PC plus 4 otherwise |
| Datapath.BranchReachesEncodedTarget | mars/simulator/PipelineSimulator.java:502-503 | every word-aligned target within 2^17 bytes either side of the decode PC plus 4 is reachable: the beq encoding the word distance to it goes exactly there when its operands are equal and falls through to the fetch PC plus 4 otherwise |
| Datapath.WordOffsetRoundTrip | mars/simulator/PipelineSimulator.java:503 | a word-aligned distance in that range survives being cut to the 16-bit offset field and sign-extended and shifted back |
| Datapath.AluOperandSelection | mars/simulator/PipelineSimulator.java:436-437 | the ALU's second operand is the extended immediate exactly for ori, lui, lw and sw, and the forwarded rt value otherwise |
| Datapath.BubbleBankIsQuiet | mars/simulator/PipelineSimulator.java:370-510 | with all latches bubbles: no stall, no register or memory write, no load, zero operands, no branch, next PC is PC plus 4 |
| Report.BubbleReportIsCleared | mars/simulator/PipelineSimulator.java:629-704 | the report for an all-bubble bank is the cleared report |
| Report.OperandForwardIsMuxChoice | mars/simulator/PipelineSimulator.java:676-700 | a reported forwarding names the stage whose value the datapath's mux actually picks, with the operand's register |
| Report.StoreDataForwardIsMuxChoice | mars/simulator/PipelineSimulator.java:702-704 | the store-data forwarding is reported exactly when the MEM mux takes the WB value |
| Report.ReportStallIsDatapathStall | mars/simulator/PipelineSimulator.java:646-649 | the report shows a stall exactly when the cycle's datapath stalls |
| Report.StallReportIsExplained | mars/simulator/PipelineSimulator.java:651-672 | a reported stall names EX or MEM and a non-zero register, and that register is an operand of the decode-stage instruction with a hazard against the named stage |
| Engine.Tag | mars/simulator/PipelineSimulator.java:540-544 | tagging keeps the number of records and every record's identifier |
| Engine.TagStages | mars/simulator/PipelineSimulator.java:538-559 | tagging the four latched instructions keeps the number of records and every identifier |
| Engine.WriteBack | mars/simulator/PipelineSimulator.java:518-521 | write-back touches only the register file: a written register other than 0 gets the WB value and every other register keeps its value; one undo entry when a register is written with backstepping on, and no change at all when none is written |
| Engine.MemoryAccess | mars/simulator/PipelineSimulator.java:523-536 | the memory stage touches only memory: a successful store puts the store data at the ALU address and reads it back; a load reads the word at the ALU address; a failed access, or an instruction that neither loads nor stores, reads 0; one undo entry for a successful store with backstepping on, and nothing when no store succeeds |
| EngineProps.TagStagesAt | mars/simulator/PipelineSimulator.java:538-559 | with distinct latch identifiers, each record gets the tag of the one latch holding it, STALL for IF/ID in a stall |
| EngineProps.UndoTagged | mars/simulator/PipelineSimulator.java:346-348 | undoing the cycle takes back that cycle's tag from a record whose tags are all earlier |
| EngineProps.CycleAdvancesLatches | mars/simulator/PipelineSimulator.java:577-595 | each latch takes the one before it: MEM/WB gets EX/MEM's PC, word, ALU result, zero flag and identifier with the memory stage's read value; EX/MEM gets ID/EX's with the forwarded rt and the ALU result; without a stall ID/EX gets IF/ID's with the decode-stage operands, the extended immediate and the branch condition |
| EngineProps.CycleWritesBack | mars/simulator/PipelineSimulator.java:518-521 | after a cycle the written destination register holds the WB value and every other register is unchanged |
| EngineProps.CycleAccessesMemory | mars/simulator/PipelineSimulator.java:523-536 | after a cycle a successful store has put the store data at the ALU address and nowhere else, MEM/WB holds it as the read value, and a load's read value is the memory word at the ALU address (0 where the access fails); without a store memory is unchanged |
| EngineProps.StepCommits | mars/simulator/PipelineSimulator.java:518-536 | the same for step, stated from the latches alone: the register written is the WB instruction's destination with its write-back value, the store data is the forwarded rt of the MEM instruction, and nothing else in the register file or memory changes |
| EngineProps.CycleIds | mars/simulator/PipelineSimulator.java:579-606 | each instruction moves one latch on; a stall keeps IF/ID and puts a bubble in ID/EX; IF/ID otherwise takes the new identifier or none |
| EngineProps.CycleHistory | mars/simulator/PipelineSimulator.java:561-575 | a cycle keeps every record's identifier and adds one new IF-tagged record exactly when it hands out an identifier |
| EngineProps.CycleTags | mars/simulator/PipelineSimulator.java:538-559 | with distinct latch identifiers, each old record carries exactly its one tag of the cycle |
| EngineProps.CycleBackstepper | mars/simulator/PipelineSimulator.java:518-536 | a cycle never calls backStepRaw and leaves one undo entry per register write and per store when backstepping is on, none when it is off |
| EngineProps.InitialIsValid | mars/simulator/PipelineSimulator.java:19-24 | a new simulator satisfies the bookkeeping invariants |
| EngineProps.ResetEstablishesInv | mars/simulator/PipelineSimulator.java:268-284 | reset establishes the invariants from any state, keeps the architectural state, is idempotent, and gives the pipeline of a new simulator |
| EngineProps.StepWithKeepsValid | mars/simulator/PipelineSimulator.java:289-317 | step keeps the bookkeeping invariant whatever the cycle's wires |
| EngineProps.StepWithKeepsInv | mars/simulator/PipelineSimulator.java:289-317 | step keeps the full invariant whatever the cycle's wires, stage order of every record included |
| EngineProps.TaggedKeepsOrder | mars/simulator/PipelineSimulator.java:538-559 | the cycle's WB, MEM, EX, ID or STALL tag keeps a record in stage order |
| EngineProps.CycleKeepsOrder | mars/simulator/PipelineSimulator.java:538-575 | after a cycle every record, the newly fetched one included, is in stage order |
| EngineProps.OneTagPerCycleEverywhere | mars/simulator/PipelineSimulator.java:96-110 | in every state satisfying the invariants a record holds at most one tag per cycle, and getStageAt finds it exactly when there is one |
| EngineProps.StepKeepsInv | mars/simulator/PipelineSimulator.java:289-317 | step keeps the full invariant |
| EngineProps.StepKeepsValid | mars/simulator/PipelineSimulator.java:289-317 | step keeps the bookkeeping invariant |
| EngineProps.BackKeepsValid | mars/simulator/PipelineSimulator.java:322-361 | back keeps the bookkeeping invariant, including its early returns |
| EngineProps.BackRestores | mars/simulator/PipelineSimulator.java:322-361 | back on a state one cycle's bookkeeping ahead of s restores s's pipeline, and hands the top count to backStepRaw when backstepping is on |
| EngineProps.StepWithUndoable | mars/simulator/PipelineSimulator.java:346-353 | undoing step's cycle gives back every old record, and step adds at most one record |
| EngineProps.BackAfterStepWith | mars/simulator/PipelineSimulator.java:322-361 | back right after step restores the latches, PC, cycle count, next identifier, history, both stacks and the report |
| EngineProps.BackAfterStepWithArch | mars/simulator/PipelineSimulator.java:335-340 | back right after step hands backStepRaw exactly the number of undo entries the step left, so the backstepper's stack is back at its old size |
| EngineProps.StepIsSimulate | mars/simulator/PipelineSimulator.java:289-317 | step is the structural simulation on the state with the snapshot pushed, followed by the count and the cycle counter |
| EngineProps.BackAfterStep | mars/simulator/PipelineSimulator.java:322-361 | back undoes step on every state satisfying the invariants, and the state it returns satisfies them again |
| EngineProps.StepCountsWrites | mars/simulator/PipelineSimulator.java:295-307 | the count step pushes is one per register written and one per word stored, and 0 when backstepping is off |
| EngineProps.BackCongruent | mars/simulator/PipelineSimulator.java:322-361 | back depends only on what it restores, not on the register file or memory |
| EngineProps.StepsKeepInv | mars/simulator/PipelineSimulator.java:289-317 | any number of steps keeps the invariants |
| EngineProps.StepsThenBacks | mars/simulator/PipelineSimulator.java:322-361 | n steps followed by n backs return the pipeline to where it was, in a state satisfying the invariants |
| EngineProps.StallHoldsFetch | mars/simulator/PipelineSimulator.java:585-616 | a stall keeps IF/ID and the PC, puts a bubble in ID/EX, fetches nothing, and tags the ID instruction STALL |
| EngineProps.StallIsRecorded | mars/simulator/PipelineSimulator.java:555-559 | in a stall, the decode-stage instruction's history shows STALL at this cycle |
| EngineProps.FetchSide | mars/simulator/PipelineSimulator.java:597-616 | without a stall, the PC becomes the NPC target; IF/ID takes the fetched word, or a bubble for a taken branch without delayed branching; an identifier is handed out exactly when there is a statement at the fetch PC |
| EngineProps.StepNextPc | mars/simulator/PipelineSimulator.java:495-510 | after step the PC is unchanged in a stall, the taken target, or the fetch PC plus 4 |
| EngineProps.EmptyLatchesAreQuiet | mars/simulator/PipelineSimulator.java:370-514 | latches holding word 0 stall nothing, write nothing, load nothing and branch nowhere |
| EngineProps.IsDoneIff | mars/simulator/PipelineSimulator.java:714-731 | done exactly when every latch holds word 0 with no identifier and there is no statement at the PC; the instruction-word test adds nothing |
| EngineProps.QuietCycle | mars/simulator/PipelineSimulator.java:598-616 | a cycle over quiet wires with nothing to fetch changes only the PC and the latches, which stay empty |
| EngineProps.DoneStepIsInert | mars/simulator/PipelineSimulator.java:289-317 | once done, a step changes no register, memory word or record, the latches stay empty and the PC moves on by 4 |
| EngineProps.DoneStepStaysDone | mars/simulator/PipelineSimulator.java:714-726 | a done simulator stays done after a step exactly when no statement follows the PC |
| Simulator.PipelineSimulator.constructor | mars/simulator/PipelineSimulator.java:19-24 | a new simulator has fresh bubble latches, counters 0, empty history, empty stacks and the cleared report, and satisfies the invariants |
| Simulator.PipelineSimulator.UpdateHazardInfo | mars/simulator/PipelineSimulator.java:629-709 | the report becomes the hazard report for the current latches |
| Simulator.PipelineSimulator.ReportFor | mars/simulator/PipelineSimulator.java:644-704 | the report computed field by field is the report of the four decoded instructions |
| Simulator.PipelineSimulator.ForwardingsFor | mars/simulator/PipelineSimulator.java:674-704 | the forwarding map built entry by entry is the map of the value model |
| Simulator.PipelineSimulator.PutOperandForward | mars/simulator/PipelineSimulator.java:676-681 | one operand's forwarding is put in the map, or the map is left alone when there is none |
| Simulator.PipelineSimulator.IsDone | mars/simulator/PipelineSimulator.java:714-726 | the answer is true exactly when the latches are empty and there is no statement at the PC |
| Simulator.PipelineSimulator.RestoreSnapshot | mars/simulator/PipelineSimulator.java:171-199 | the latches take the snapshot's values and the PC its PC, with no undo entry |
| Simulator.PipelineSimulator.TagStep | mars/simulator/PipelineSimulator.java:540-544 | one latched instruction's record is tagged with the stage at the current cycle |
| Simulator.PipelineSimulator.TagLatchedSteps | mars/simulator/PipelineSimulator.java:538-559 | the records of the four latched instructions are tagged WB, MEM, EX and ID or STALL |
| Simulator.PipelineSimulator.WriteArch | mars/simulator/PipelineSimulator.java:518-536 | write-back then the memory stage, with the value read or stored |
| Simulator.PipelineSimulator.FetchStep | mars/simulator/PipelineSimulator.java:561-575 | without a stall and with a statement at the fetch PC, the next identifier is handed out and a record tagged IF is appended; otherwise nothing changes |
| Simulator.PipelineSimulator.UpdateLatches | mars/simulator/PipelineSimulator.java:577-606 | the four latches become the next bank of the cycle |
| Simulator.PipelineSimulator.UpdateBackLatches | mars/simulator/PipelineSimulator.java:579-583 | MEM/WB and EX/MEM take the values moving on from EX/MEM and ID/EX |
| Simulator.PipelineSimulator.UpdateFrontLatches | mars/simulator/PipelineSimulator.java:585-606 | ID/EX takes the decoded instruction or a bubble in a stall; IF/ID takes the fetch, a flush bubble, or is held in a stall |
| Simulator.PipelineSimulator.WriteAndTag | mars/simulator/PipelineSimulator.java:518-559 | architectural writes and history tags of the cycle |
| Simulator.PipelineSimulator.FetchAndLatch | mars/simulator/PipelineSimulator.java:561-616 | fetch, latch update and PC update of the cycle |
| Simulator.PipelineSimulator.Clock | mars/simulator/PipelineSimulator.java:367-616 | the simulator's state becomes the cycle of the value model |
| Simulator.PipelineSimulator.SimulateStructure | mars/simulator/PipelineSimulator.java:367-622 | the state becomes the value model's structural simulation, and the result is isDone of the new state |
| Simulator.PipelineSimulator.TakeSnapshot | mars/simulator/PipelineSimulator.java:140-169 | the snapshot holds the current latches, next identifier and PC |
| Simulator.PipelineSimulator.PushSnapshot | mars/simulator/PipelineSimulator.java:294 | a snapshot of the current state is pushed |
| Simulator.PipelineSimulator.PushCount | mars/simulator/PipelineSimulator.java:295-309 | the new undo entries since the step began (0 with backstepping off) are pushed, and the cycle count goes up by one |
| Simulator.PipelineSimulator.Step | mars/simulator/PipelineSimulator.java:289-317 | the state becomes the value model's step, the result is isDone, and the invariants are kept |
| Simulator.PipelineSimulator.RestoreTop | mars/simulator/PipelineSimulator.java:329-332 | the top snapshot is popped and its latches, PC and next identifier are restored |
| Simulator.PipelineSimulator.PopCount | mars/simulator/PipelineSimulator.java:334-343 | the top count is popped and handed to backStepRaw when backstepping is on, and the cycle count goes down by one |
| Simulator.PipelineSimulator.UndoHistory | mars/simulator/PipelineSimulator.java:343-348 | every record is undone at the cycle being taken back |
| Simulator.PipelineSimulator.Rollback | mars/simulator/PipelineSimulator.java:350-355 | the records fetched in the undone cycle are removed and the report is refreshed |
| Simulator.PipelineSimulator.Back | mars/simulator/PipelineSimulator.java:322-361 | the state becomes the value model's back, and the bookkeeping invariant is kept |
| Simulator.PipelineSimulator.Reset | mars/simulator/PipelineSimulator.java:268-284 | the state becomes the value model's reset, which satisfies the invariants |
| ExampleRun.ProgramDrainsInSevenSteps | mars/simulator/PipelineSimulator.java:289-317 | ori $1,$0,5; ori $2,$0,7; add $3,$1,$2 at 0x3000, without stalls, leave the pipeline done after seven steps with $1 = 5, $2 = 7 and $3 = 12 |
| ExampleRun.NotDoneBeforeSeven | mars/simulator/PipelineSimulator.java:714-726 | the same run is not done after any of the first six steps |

## Left out

- Locking (`stateLock`), `synchronized`, observers (`setChanged`, `notifyObservers`), `Thread.yield` and the singleton `getInstance`: concurrency and UI notification, outside a sequential model.
- The getters `getLock`, `getExecutionHistory`, `getCycles`, `getNextStepId`, `getHazardInfo` and `getPipelineRegisters`: they only return fields (the hazard getter returns a copy); `State()` exposes the same values.
- The aliasing of `ExecutionStep` objects: `History.ExecutionStep` is a class, but the simulator keeps its history as a sequence of record values. Callers holding a record object from `getExecutionHistory` and seeing it change in place are not modelled.
- `RegisterFile`, `Memory`, `ProgramStatement` and `BackStepper` are foreign classes and are not part of this model. They are modelled as the value `Arch.ArchState`, with only what the pipeline relies on: register 0 ignores writes, one undo entry per register write or memory store while backstepping is on, `backStepRaw(count)` logged and taking `count` entries off.
- Arch.ArchState.BackStepRaw: does not model which register and memory writes `backStepRaw` undoes, because the backstepper's internals are not part of this model; the model logs the count the engine hands over and removes that many entries from the stack.
- The argument `action` of `step` and the `ProcessingException` it may declare: nothing in the step uses them.
- The settings lookups (`DELAYED_BRANCHING_ENABLED`, `getBackSteppingEnabled() && getBackStepper() != null`) are the parameters `delayed` and `bs`. Changing a setting between a step and its back is covered, because `back` takes its own `bs`.
- The ALU `default` branch: every ALU operation the decoder produces has a case, so it cannot be reached; `AluOp` has exactly the five operations.
- The string-keyed forwarding map uses the enumeration `ForwardKey` for its keys ID_RS, ID_RT, EX_RS, EX_RT and MEM_RT. Stage names are the `Stage` enumeration. A null stall list is the empty sequence.
- Self-modifying code: the assembled program is a fixed map from address to statement word, and stores to data memory do not change it.
- A flushed instruction keeps the history record made at its fetch, with only its IF tag. This is what the code does; the model has no separate "squashed" status.
- The Java counters `cycles` and `nextStepId` are `int`s and would wrap after 2^31 steps; the model counts with unbounded integers (`Engine.EngineState`), since no run of the simulator comes near that.
- Simulator.PipelineSimulator.Back: ensures `Valid()` but not `Inv(State())` for an arbitrary state. Whether the restored latches keep `Inv` depends on the snapshot having been taken from a state that satisfied it, and the snapshot stack does not record that. `Inv` is carried across a back through `EngineProps.BackAfterStep` and `EngineProps.StepsThenBacks`, which state `Inv` of the state a back after steps returns (`EngineProps.SamePipelineKeepsInv`: `Inv` reads only the pipeline parts that back restores).
- A general drain bound, that K instructions with no stall leave the pipeline after K+4 steps, is not proved for all programs. `ExampleRun` proves it, step by step, for one three-instruction program with forwarding.
