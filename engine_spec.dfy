/** The cycle engine of PipelineSimulator as functions on a value: simulateStructure,
    step, back and reset, with the invariants they keep and the round trip between step
    and back. The class in Simulator updates its fields as these functions say. */
module Engine {
  import opened Controller
  import opened Latches
  import opened Arch
  import opened HazardUnit
  import opened Datapath
  import opened History
  import opened Report

  // ----- The engine's state

  /** PipelineSnapshot: the four latches, the next instruction identifier and the PC. */
  datatype Snapshot = Snapshot(latches: Bank, snapNextStepId: int, archPc: bv32)

  /** The simulator's fields together with the architectural state it drives:
      snapshots and counts are snapshotStack and backstepCountStack, top last. */
  datatype EngineState = EngineState(
    bank: Bank,
    arch: ArchState,
    cycles: int,
    nextStepId: int,
    history: seq<StepRecord>,
    snapshots: seq<Snapshot>,
    counts: seq<int>,
    hazard: HazardInfo)

  /** A freshly constructed simulator: bubbles, nothing recorded, a cleared report. */
  function Initial(a: ArchState): EngineState {
    EngineState(BUBBLE_BANK, a, 0, 0, [], [], [], CLEARED)
  }

  // ----- simulateStructure

  /** setStage(cycle, stage) on the record of a latch's instruction, if it holds one. */
  function Tag(h: seq<StepRecord>, id: int, cycle: int, stage: Stage): (r: seq<StepRecord>)
    ensures |r| == |h|
    ensures forall i :: 0 <= i < |h| ==> r[i].id == h[i].id
  {
    if 0 <= id < |h| then h[id := h[id].SetStage(cycle, stage)] else h
  }

  /** History tracking: WB, MEM and EX for the back three latches, then ID, or STALL
      while the decode stage stalls, for the IF/ID latch. */
  function TagStages(h: seq<StepRecord>, b: Bank, cycle: int, stall: bool): (r: seq<StepRecord>)
    ensures |r| == |h|
    ensures forall i :: 0 <= i < |h| ==> r[i].id == h[i].id
  {
    var h1 := Tag(h, b.memWb.stepId, cycle, WB);
    var h2 := Tag(h1, b.exMem.stepId, cycle, MEM);
    var h3 := Tag(h2, b.idEx.stepId, cycle, EX);
    Tag(h3, b.ifId.stepId, cycle, if stall then STALL else ID)
  }

  /** The write-back stage writes a register (never register 0). */
  predicate RegisterWritten(w: Wires) {
    w.wc.grfWe && w.wc.writeRegDst != 0
  }

  /** Write back: the register file is written when W's instruction writes a register
      other than 0; with backstepping on, that leaves one undo entry. */
  function WriteBack(a: ArchState, w: Wires, bs: bool): (r: ArchState)
    ensures r.memory == a.memory && r.wordAccessible == a.wordAccessible
    ensures r.pc == a.pc && r.program == a.program && r.backStepRawCalls == a.backStepRawCalls
    ensures r.backstepDepth == a.backstepDepth + if bs && RegisterWritten(w) then 1 else 0
    ensures !RegisterWritten(w) ==> r == a
    ensures RegisterWritten(w) ==> r.GetValue(w.wc.writeRegDst) == w.wWd
    ensures forall q: bv5 {:trigger r.GetValue(q)} :: q != w.wc.writeRegDst ==> r.GetValue(q) == a.GetValue(q)
  {
    if RegisterWritten(w) then a.UpdateRegister(w.wc.writeRegDst, w.wWd, bs) else a
  }

  datatype MemResult = MemResult(arch: ArchState, readVal: bv32)

  /** The memory stage stores a word (at an address where that succeeds). */
  predicate MemoryWritten(a: ArchState, m: ExMemValue, w: Wires) {
    w.mc.dmWe && m.mAluAns in a.wordAccessible
  }

  /** The memory stage: a store writes the forwarded rt value and passes it on as the
      read value; a load (t_new_M == 1) reads the word; a failing access does nothing
      and leaves the read value 0. */
  function MemoryAccess(a: ArchState, m: ExMemValue, w: Wires, bs: bool): (r: MemResult)
    ensures r.arch.registers == a.registers && r.arch.wordAccessible == a.wordAccessible
    ensures r.arch.pc == a.pc && r.arch.program == a.program
    ensures r.arch.backStepRawCalls == a.backStepRawCalls
    ensures r.arch.backstepDepth == a.backstepDepth + if bs && MemoryWritten(a, m, w) then 1 else 0
    ensures !MemoryWritten(a, m, w) ==> r.arch == a
    ensures MemoryWritten(a, m, w) ==> r.arch.GetWord(m.mAluAns) == w.storeValue
    ensures w.mc.dmWe ==> r.readVal == if m.mAluAns in a.wordAccessible then w.storeValue else 0
    ensures !w.mc.dmWe ==>
      r.readVal == if w.mc.tNewM == 1 && m.mAluAns in a.wordAccessible then a.GetWord(m.mAluAns) else 0
  {
    if w.mc.dmWe then
      if m.mAluAns in a.wordAccessible then MemResult(a.SetWord(m.mAluAns, w.storeValue, bs), w.storeValue)
      else MemResult(a, 0)
    else if w.mc.tNewM == 1 then
      MemResult(a, if m.mAluAns in a.wordAccessible then a.GetWord(m.mAluAns) else 0)
    else MemResult(a, 0)
  }

  /** The next latch contents: every latch takes what the stage before it computed; a
      stall puts a bubble into ID/EX and keeps IF/ID; a taken branch or jump without
      delayed branching replaces the fetched instruction by a bubble. */
  function NextBank(b: Bank, w: Wires, readVal: bv32, fStepId: int, delayed: bool): Bank {
    var flush := w.branchTaken && !delayed;
    Bank(
      ifId :=
        if w.stall then b.ifId
        else IfIdValue(w.fPc, if flush then 0 else w.fInstr, if flush then NO_STEP else fStepId),
      idEx :=
        if w.stall then ID_EX_BUBBLE
        else IdExValue(b.ifId.dPc, b.ifId.dInstr, w.dRd1, w.dRd2, ExtendImm(w.dc.imm16, w.dc.extOp),
                       w.branchCondition, b.ifId.stepId),
      exMem := ExMemValue(b.idEx.ePc, b.idEx.eInstr, w.aluB, w.aluRes, b.idEx.eZero, b.idEx.stepId),
      memWb := MemWbValue(b.exMem.mPc, b.exMem.mInstr, b.exMem.mAluAns, readVal, b.exMem.mZero, b.exMem.stepId))
  }

  /** An instruction is fetched (and gets a history record) when the decode stage does
      not stall and there is a statement at the fetch PC. */
  predicate Fetches(a: ArchState, w: Wires) {
    !w.stall && a.HasStatement(w.fPc)
  }

  /** One clock edge given the cycle's wires w (Combinational of the same state):
      architectural writes, history tags, a record for the fetched instruction, the
      latch update and the PC update unless stalled. The hazard report is refreshed by
      Refresh; the cycle count and the stacks are left to step. */
  function Cycle(s: EngineState, w: Wires, delayed: bool, bs: bool): EngineState {
    var mem := MemoryAccess(WriteBack(s.arch, w, bs), s.bank.exMem, w, bs);
    var tagged := TagStages(s.history, s.bank, s.cycles, w.stall);
    var fetched := Fetches(mem.arch, w);
    var fStepId := if fetched then s.nextStepId else NO_STEP;
    var bank := NextBank(s.bank, w, mem.readVal, fStepId, delayed);
    s.(bank := bank,
       arch := if w.stall then mem.arch else mem.arch.SetPc(w.npc),
       nextStepId := if fetched then s.nextStepId + 1 else s.nextStepId,
       history := if fetched then tagged + [NewRecord(s.nextStepId, w.fPc).SetStage(s.cycles, IF)] else tagged)
  }

  /** updateHazardInfo: the report of the current latches. */
  function Refresh(s: EngineState): EngineState {
    s.(hazard := HazardReport(s.bank))
  }

  /** simulateStructure: the clock edge, then updateHazardInfo on the new latches. */
  function SimulateStructure(s: EngineState, delayed: bool, bs: bool): EngineState {
    Refresh(Cycle(s, Combinational(s.bank, s.arch), delayed, bs))
  }

  // ----- step, back, reset

  /** step given the cycle's wires: push a snapshot, simulate, push the number of undo
      entries the cycle left on the backstepper (0 with backstepping off), count the cycle. */
  function StepWith(s: EngineState, w: Wires, delayed: bool, bs: bool): EngineState {
    Counted(Refresh(Cycle(Pushed(s), w, delayed, bs)), s, bs)
  }

  /** The snapshot step takes before simulating. */
  function Pushed(s: EngineState): EngineState {
    s.(snapshots := s.snapshots + [Snapshot(s.bank, s.nextStepId, s.arch.pc)])
  }

  /** The end of step: the cycle's count of undo entries, measured from the state s the
      step started in, and the cycle counter. */
  function Counted(t: EngineState, s: EngineState, bs: bool): EngineState {
    t.(counts := s.counts + [if bs then t.arch.backstepDepth - s.arch.backstepDepth else 0],
       cycles := s.cycles + 1)
  }

  /** step. */
  function Step(s: EngineState, delayed: bool, bs: bool): EngineState {
    StepWith(s, Combinational(s.bank, s.arch), delayed, bs)
  }

  /** back: nothing at cycle 0 or without a snapshot. Otherwise pop and restore the
      snapshot (latches, PC, next identifier); pop the count and hand it to backStepRaw
      (with backstepping on) — an empty count stack throws there and the rest is skipped;
      count the cycle back; undo its tags in every record; drop the records created since
      the snapshot — a negative identifier throws there, before the hazard report is
      refreshed. */
  function Back(s: EngineState, bs: bool): EngineState {
    if s.cycles == 0 || |s.snapshots| == 0 then s
    else
      var restored := Restored(s);
      if |restored.counts| == 0 then restored
      else Rollback(Undone(CountPopped(restored, bs)))
  }

  /** Pop the top snapshot and restore the latches, the PC and the next identifier. */
  function Restored(s: EngineState): EngineState
    requires |s.snapshots| > 0
  {
    var snap := s.snapshots[|s.snapshots| - 1];
    s.(snapshots := s.snapshots[..|s.snapshots| - 1], bank := snap.latches,
       arch := s.arch.SetPc(snap.archPc), nextStepId := snap.snapNextStepId)
  }

  /** Pop the top count, hand it to backStepRaw with backstepping on, count the cycle back. */
  function CountPopped(s: EngineState, bs: bool): EngineState
    requires |s.counts| > 0
  {
    var count := s.counts[|s.counts| - 1];
    s.(counts := s.counts[..|s.counts| - 1],
       arch := if bs then s.arch.BackStepRaw(count) else s.arch,
       cycles := s.cycles - 1)
  }

  /** undoCycle on every record for the cycle being undone (the cycle count itself, once
      it has been counted back). */
  function Undone(s: EngineState): EngineState {
    s.(history := UndoAll(s.history, s.cycles))
  }

  /** Drop the records created at or after the next identifier, then refresh the hazard
      report; a negative next identifier throws in subList and skips both. */
  function Rollback(s: EngineState): EngineState {
    if |s.history| <= s.nextStepId then Refresh(s)
    else if s.nextStepId < 0 then s
    else Refresh(s.(history := s.history[..s.nextStepId]))
  }

  /** undoCycle(cycle) on every record. */
  function UndoAll(h: seq<StepRecord>, cycle: int): (r: seq<StepRecord>)
    ensures |r| == |h|
    ensures forall i :: 0 <= i < |h| ==> r[i] == h[i].UndoCycle(cycle)
  {
    seq(|h|, i requires 0 <= i < |h| => h[i].UndoCycle(cycle))
  }

  /** reset: bubbles, no cycles, no identifiers, no history, empty stacks, the report of
      the bubbles; the architectural state is not touched. */
  function Reset(s: EngineState): EngineState {
    EngineState(BUBBLE_BANK, s.arch, 0, 0, [], [], [], HazardReport(BUBBLE_BANK))
  }

  /** Every latch holds instruction word 0 and no instruction identifier. */
  predicate LatchesEmpty(b: Bank) {
    && b.ifId.dInstr == 0 && b.ifId.stepId == NO_STEP
    && b.idEx.eInstr == 0 && b.idEx.stepId == NO_STEP
    && b.exMem.mInstr == 0 && b.exMem.stepId == NO_STEP
    && b.memWb.wInstr == 0 && b.memWb.stepId == NO_STEP
  }

  /** isDone: empty latches, and neither an instruction word nor a statement at the PC. */
  predicate IsDone(b: Bank, a: ArchState) {
    LatchesEmpty(b) && a.FetchInstruction(a.pc) == 0 && !a.HasStatement(a.pc)
  }

  // ----- Invariants

  /** A latch identifier is "none" or names a record already created. */
  predicate IdsBelow(b: Bank, n: int) {
    && (b.ifId.stepId == NO_STEP || 0 <= b.ifId.stepId < n)
    && (b.idEx.stepId == NO_STEP || 0 <= b.idEx.stepId < n)
    && (b.exMem.stepId == NO_STEP || 0 <= b.exMem.stepId < n)
    && (b.memWb.stepId == NO_STEP || 0 <= b.memWb.stepId < n)
  }

  /** The next identifier a snapshot may hold at most: its successor's, or the live one. */
  function Bound(snaps: seq<Snapshot>, j: int, top: int): int
    requires 0 <= j < |snaps|
  {
    if j + 1 < |snaps| then snaps[j + 1].snapNextStepId else top
  }

  /** Each record's identifier is its position in the history. */
  predicate Numbered(h: seq<StepRecord>) {
    forall i :: 0 <= i < |h| ==> h[i].id == i
  }

  /** Snapshots were taken at growing identifiers, none beyond the live one (top), and
      each names only records created before it. */
  predicate Chain(snaps: seq<Snapshot>, top: int) {
    forall j :: 0 <= j < |snaps| ==>
      && 0 <= snaps[j].snapNextStepId <= Bound(snaps, j, top)
      && IdsBelow(snaps[j].latches, snaps[j].snapNextStepId)
  }

  /** The bookkeeping the source relies on: one snapshot and one count per cycle, records
      numbered by position, latches naming existing records, snapshots taken at growing
      identifiers, and a hazard report that belongs to the latches. */
  predicate Valid(s: EngineState) {
    && s.cycles == |s.snapshots| == |s.counts|
    && s.nextStepId == |s.history|
    && Numbered(s.history)
    && IdsBelow(s.bank, s.nextStepId)
    && Chain(s.snapshots, s.nextStepId)
    && s.hazard == HazardReport(s.bank)
  }

  predicate Distinct(x: int, y: int) {
    x == NO_STEP || x != y
  }

  /** No two latches hold the same instruction. */
  predicate DistinctIds(b: Bank) {
    && Distinct(b.ifId.stepId, b.idEx.stepId) && Distinct(b.ifId.stepId, b.exMem.stepId)
    && Distinct(b.ifId.stepId, b.memWb.stepId) && Distinct(b.idEx.stepId, b.exMem.stepId)
    && Distinct(b.idEx.stepId, b.memWb.stepId) && Distinct(b.exMem.stepId, b.memWb.stepId)
  }

  /** Record i has no tag yet for the stage its latch feeds or any later one. */
  predicate RecordFits(r: StepRecord, i: int, b: Bank) {
    && (i == b.ifId.stepId ==> r.cycleID == NO_CYCLE && r.cycleEX == NO_CYCLE && r.cycleMEM == NO_CYCLE && r.cycleWB == NO_CYCLE)
    && (i == b.idEx.stepId ==> r.cycleEX == NO_CYCLE && r.cycleMEM == NO_CYCLE && r.cycleWB == NO_CYCLE)
    && (i == b.exMem.stepId ==> r.cycleMEM == NO_CYCLE && r.cycleWB == NO_CYCLE)
    && (i == b.memWb.stepId ==> r.cycleWB == NO_CYCLE)
  }

  /** Every record lists its stages in pipeline order. */
  predicate InOrder(h: seq<StepRecord>) {
    forall i :: 0 <= i < |h| ==> h[i].InStageOrder()
  }

  /** Valid, plus what makes a cycle undoable: every tag is from an earlier cycle,
      latches hold distinct instructions, and their records have the slots free that
      the coming cycles will fill; and every record is in stage order. */
  predicate Inv(s: EngineState) {
    && Valid(s)
    && DistinctIds(s.bank)
    && (forall i :: 0 <= i < |s.history| ==> s.history[i].TagsBefore(s.cycles) && RecordFits(s.history[i], i, s.bank))
    && InOrder(s.history)
  }

  /** Everything back restores; the register file and memory are the backstepper's. */
  predicate SamePipeline(s: EngineState, t: EngineState) {
    && s.bank == t.bank && s.arch.pc == t.arch.pc && s.cycles == t.cycles
    && s.nextStepId == t.nextStepId && s.history == t.history
    && s.snapshots == t.snapshots && s.counts == t.counts && s.hazard == t.hazard
  }
}
