/** PipelineSimulator as an object: the latch bank, the counters, the execution history
    (a sequence of StepRecord values, one per ExecutionStep), the hazard report and the two
    undo stacks. The register file, memory and PC it drives are the value arch. Each
    method leaves State() as the function of the same name in Engine says. */
module Simulator {
  import opened Controller
  import opened Latches
  import opened Arch
  import opened HazardUnit
  import opened Datapath
  import opened History
  import opened Report
  import opened Engine
  import EngineProps

  class PipelineSimulator {
    const regs: PipelineRegisters
    var arch: ArchState
    var cycles: int
    var nextStepId: int
    var executionHistory: seq<StepRecord>
    var currentHazard: HazardInfo
    var snapshotStack: seq<Snapshot>
    var backstepCountStack: seq<int>

    /** Everything the simulator holds, as a value. */
    function State(): EngineState
      reads this, regs, regs.ifId, regs.idEx, regs.exMem, regs.memWb
    {
      EngineState(regs.Contents(), arch, cycles, nextStepId, executionHistory, snapshotStack,
                  backstepCountStack, currentHazard)
    }

    ghost predicate Valid()
      reads this, regs, regs.ifId, regs.idEx, regs.exMem, regs.memWb
    {
      Engine.Valid(State())
    }

    /** A new simulator over the architectural state a. */
    constructor (a: ArchState)
      ensures State() == Initial(a)
      ensures Inv(State())
      ensures fresh(regs) && fresh(regs.ifId) && fresh(regs.idEx) && fresh(regs.exMem) && fresh(regs.memWb)
    {
      regs := new PipelineRegisters();
      arch := a;
      cycles := 0;
      nextStepId := 0;
      executionHistory := [];
      currentHazard := CLEARED;
      snapshotStack := [];
      backstepCountStack := [];
      EngineProps.InitialIsValid(a);
    }

    /** updateHazardInfo: clear the report, then record the stall and its cause and
        every forwarding the current latches set up. */
    method UpdateHazardInfo()
      modifies this`currentHazard
      ensures currentHazard == HazardReport(regs.Contents())
    {
      var dc := Decode(regs.ifId.dInstr);
      var ec := Decode(regs.idEx.eInstr);
      var mc := Decode(regs.exMem.mInstr);
      var wc := Decode(regs.memWb.wInstr);
      currentHazard := ReportFor(dc, ec, mc, wc);
    }

    /** The body of updateHazardInfo once the four instructions are decoded. */
    static method ReportFor(dc: Signals, ec: Signals, mc: Signals, wc: Signals) returns (r: HazardInfo)
      ensures r == SignalReport(dc, ec, mc, wc)
    {
      var h := CLEARED;
      var stall := CheckStall(dc.tUseRs, dc.tUseRt, ec.tNewE, mc.tNewM, wc.tNewW,
                              dc.rs, dc.rt, ec.writeRegDst, mc.writeRegDst);
      if stall {
        var rsE := PairHazard(dc.tUseRs, dc.rs, ec.tNewE, ec.writeRegDst);
        var rtE := PairHazard(dc.tUseRt, dc.rt, ec.tNewE, ec.writeRegDst);
        h := h.(stalled := true, stallSource := Some(if rsE || rtE then EX else MEM));
        if rsE {
          h := h.(stallReg := dc.rs as int);
        } else if rtE {
          h := h.(stallReg := dc.rt as int);
        } else {
          var rsM := PairHazard(dc.tUseRs, dc.rs, mc.tNewM, mc.writeRegDst);
          h := h.(stallReg := if rsM then dc.rs as int else dc.rt as int);
        }
      }
      var f := ForwardingsFor(dc, ec, mc, wc);
      r := h.(forwardings := f);
    }

    /** The forwarding half of updateHazardInfo: the decode-stage operands, the
        execute-stage operands, then the store data of the memory stage. */
    static method ForwardingsFor(dc: Signals, ec: Signals, mc: Signals, wc: Signals)
      returns (f: map<ForwardKey, ForwardData>)
      ensures f == Forwardings(dc, ec, mc, wc)
    {
      f := map[];
      f := PutOperandForward(f, ID_RS, dc.rs, mc, wc);
      f := PutOperandForward(f, ID_RT, dc.rt, mc, wc);
      f := PutOperandForward(f, EX_RS, ec.rs, mc, wc);
      f := PutOperandForward(f, EX_RT, ec.rt, mc, wc);
      if mc.rt != 0 && mc.rt == wc.writeRegDst && wc.grfWe {
        f := f[MEM_RT := ForwardData(WB, mc.rt)];
      }
    }

    /** One forwarding check of updateHazardInfo: a non-zero register is forwarded from
        MEM if the memory stage writes it, else from WB if the write-back stage does. */
    static method PutOperandForward(f: map<ForwardKey, ForwardData>, k: ForwardKey, reg: bv5,
                                    mc: Signals, wc: Signals)
      returns (f': map<ForwardKey, ForwardData>)
      ensures f' == Put(f, k, OperandForward(reg, mc, wc))
    {
      f' := f;
      if reg != 0 {
        if reg == mc.writeRegDst && mc.grfWe {
          f' := f[k := ForwardData(MEM, reg)];
        } else if reg == wc.writeRegDst && wc.grfWe {
          f' := f[k := ForwardData(WB, reg)];
        }
      }
    }

    /** isDone. */
    method IsDone() returns (done: bool)
      ensures done == Engine.IsDone(regs.Contents(), arch)
      ensures done <==> LatchesEmpty(regs.Contents()) && !arch.HasStatement(arch.pc)
    {
      done := regs.ifId.dInstr == 0 && regs.ifId.stepId == NO_STEP
        && regs.idEx.eInstr == 0 && regs.idEx.stepId == NO_STEP
        && regs.exMem.mInstr == 0 && regs.exMem.stepId == NO_STEP
        && regs.memWb.wInstr == 0 && regs.memWb.stepId == NO_STEP
        && arch.FetchInstruction(arch.pc) == 0 && !arch.HasStatement(arch.pc);
      EngineProps.IsDoneIff(regs.Contents(), arch);
    }

    /** PipelineSnapshot.restore: every latch field from the snapshot, then the PC. */
    method RestoreSnapshot(snap: Snapshot)
      modifies this`arch, regs.ifId, regs.idEx, regs.exMem, regs.memWb
      ensures regs.Contents() == snap.latches
      ensures arch == old(arch).SetPc(snap.archPc)
    {
      var b := snap.latches;
      regs.ifId.Update(b.ifId.dPc, b.ifId.dInstr, b.ifId.stepId);
      regs.idEx.Update(b.idEx.ePc, b.idEx.eInstr, b.idEx.eRd1, b.idEx.eRd2, b.idEx.eExt,
                       b.idEx.eZero, b.idEx.stepId);
      regs.exMem.Update(b.exMem.mPc, b.exMem.mInstr, b.exMem.mRd2, b.exMem.mAluAns,
                        b.exMem.mZero, b.exMem.stepId);
      regs.memWb.Update(b.memWb.wPc, b.memWb.wInstr, b.memWb.wAluAns, b.memWb.wDmRead,
                        b.memWb.wZero, b.memWb.stepId);
      arch := arch.SetPc(snap.archPc);
    }

    /** setStage on the record of a latch's instruction; the identifier -1 (and, in this
        model, any identifier without a record) leaves the history alone. */
    method TagStep(id: int, stage: Stage)
      modifies this`executionHistory
      ensures executionHistory == Tag(old(executionHistory), id, cycles, stage)
    {
      if 0 <= id < |executionHistory| {
        executionHistory := executionHistory[id := executionHistory[id].SetStage(cycles, stage)];
      }
    }

    /** History tracking: WB, MEM and EX for the back three latches, then ID, or STALL,
        for the instruction in IF/ID. */
    method TagLatchedSteps(stall: bool)
      modifies this`executionHistory
      ensures executionHistory == TagStages(old(executionHistory), regs.Contents(), cycles, stall)
    {
      TagStep(regs.memWb.stepId, WB);
      TagStep(regs.exMem.stepId, MEM);
      TagStep(regs.idEx.stepId, EX);
      TagStep(regs.ifId.stepId, if stall then STALL else ID);
    }

    /** The architectural writes of a cycle: the write-back stage's register write, then
        the memory stage's store or load (an access that throws leaves the value 0). */
    method WriteArch(w: Wires, bs: bool) returns (readVal: bv32)
      modifies this`arch
      ensures var mem := MemoryAccess(WriteBack(old(arch), w, bs), regs.exMem.Value(), w, bs);
        arch == mem.arch && readVal == mem.readVal
    {
      if w.wc.grfWe && w.wc.writeRegDst != 0 {
        arch := arch.UpdateRegister(w.wc.writeRegDst, w.wWd, bs);
      }
      readVal := 0;
      if w.mc.dmWe {
        if regs.exMem.mAluAns in arch.wordAccessible {
          arch := arch.SetWord(regs.exMem.mAluAns, w.storeValue, bs);
          readVal := w.storeValue;
        }
      } else if w.mc.tNewM == 1 {
        if regs.exMem.mAluAns in arch.wordAccessible {
          readVal := arch.GetWord(regs.exMem.mAluAns);
        }
      }
    }

    /** The fetch: unless stalled, a statement at the fetch PC gets the next identifier
        and a new record tagged IF at this cycle. */
    method FetchStep(w: Wires) returns (fStepId: int)
      modifies this`nextStepId, this`executionHistory
      ensures Fetches(arch, w) ==> fStepId == old(nextStepId) && nextStepId == old(nextStepId) + 1
      ensures !Fetches(arch, w) ==> fStepId == NO_STEP && nextStepId == old(nextStepId)
      ensures executionHistory ==
        if Fetches(arch, w) then old(executionHistory) + [NewRecord(old(nextStepId), w.fPc).SetStage(cycles, IF)]
        else old(executionHistory)
    {
      fStepId := NO_STEP;
      if !w.stall && arch.HasStatement(w.fPc) {
        fStepId := nextStepId;
        nextStepId := nextStepId + 1;
        executionHistory := executionHistory + [NewRecord(fStepId, w.fPc).SetStage(cycles, IF)];
      }
    }

    /** Pipeline register updates, back to front: MEM/WB, EX/MEM, ID/EX (a bubble in a
        stall), IF/ID (kept in a stall, a bubble after a taken branch or jump without
        delayed branching). Each latch is read before it is overwritten, so every update
        sees the contents from the start of the cycle. */
    method UpdateLatches(w: Wires, readVal: bv32, fStepId: int, delayed: bool)
      modifies regs.ifId, regs.idEx, regs.exMem, regs.memWb
      ensures regs.Contents() == NextBank(old(regs.Contents()), w, readVal, fStepId, delayed)
    {
      ghost var b := regs.Contents();
      UpdateBackLatches(w, readVal);
      UpdateFrontLatches(w, fStepId, delayed);
      assert regs.Contents().exMem == NextBank(b, w, readVal, fStepId, delayed).exMem;
    }

    /** MEM/WB takes the memory stage's results, EX/MEM the execute stage's. */
    method UpdateBackLatches(w: Wires, readVal: bv32)
      modifies regs.exMem, regs.memWb
      ensures var n := NextBank(old(regs.Contents()), w, readVal, NO_STEP, false);
        regs.exMem.Value() == n.exMem && regs.memWb.Value() == n.memWb
    {
      var b := regs.Contents();
      regs.memWb.Update(b.exMem.mPc, b.exMem.mInstr, b.exMem.mAluAns, readVal, b.exMem.mZero,
                        b.exMem.stepId);
      regs.exMem.Update(b.idEx.ePc, b.idEx.eInstr, w.aluB, w.aluRes, b.idEx.eZero, b.idEx.stepId);
    }

    /** ID/EX takes the decode stage's operands or a bubble; IF/ID the fetched word. */
    method UpdateFrontLatches(w: Wires, fStepId: int, delayed: bool)
      modifies regs.ifId, regs.idEx
      ensures var n := NextBank(old(regs.Contents()), w, 0, fStepId, delayed);
        regs.ifId.Value() == n.ifId && regs.idEx.Value() == n.idEx
    {
      var b := regs.Contents();
      if w.stall {
        regs.idEx.Reset();
      } else {
        regs.idEx.Update(b.ifId.dPc, b.ifId.dInstr, w.dRd1, w.dRd2, ExtendImm(w.dc.imm16, w.dc.extOp),
                         w.branchCondition, b.ifId.stepId);
      }
      if !w.stall {
        var instrToId, stepIdToId := w.fInstr, fStepId;
        if w.branchTaken && !delayed {
          instrToId, stepIdToId := 0, NO_STEP;
        }
        regs.ifId.Update(w.fPc, instrToId, stepIdToId);
      }
    }

    /** The first half of the clock edge: register and memory writes, then the history
        tags of the latched instructions. */
    method WriteAndTag(w: Wires, bs: bool) returns (readVal: bv32)
      modifies this`arch, this`executionHistory
      ensures var s := old(State());
        var mem := MemoryAccess(WriteBack(s.arch, w, bs), s.bank.exMem, w, bs);
        && arch == mem.arch && readVal == mem.readVal
        && executionHistory == TagStages(s.history, s.bank, s.cycles, w.stall)
    {
      readVal := WriteArch(w, bs);
      TagLatchedSteps(w.stall);
    }

    /** The second half: the fetch record, the latch updates, the PC. */
    method FetchAndLatch(w: Wires, readVal: bv32, delayed: bool)
      modifies this`arch, this`nextStepId, this`executionHistory, regs.ifId, regs.idEx, regs.exMem, regs.memWb
      ensures var s := old(State());
        var fetched := Fetches(s.arch, w);
        && regs.Contents() == NextBank(s.bank, w, readVal, if fetched then s.nextStepId else NO_STEP, delayed)
        && arch == (if w.stall then s.arch else s.arch.SetPc(w.npc))
        && nextStepId == (if fetched then s.nextStepId + 1 else s.nextStepId)
        && executionHistory == (if fetched then s.history + [NewRecord(s.nextStepId, w.fPc).SetStage(s.cycles, IF)] else s.history)
    {
      var fStepId := FetchStep(w);
      UpdateLatches(w, readVal, fStepId, delayed);
      if !w.stall {
        arch := arch.SetPc(w.npc);
      }
    }

    /** The clock edge for the cycle's wires w. */
    method Clock(w: Wires, delayed: bool, bs: bool)
      modifies this`arch, this`nextStepId, this`executionHistory, regs.ifId, regs.idEx, regs.exMem, regs.memWb
      ensures State() == Cycle(old(State()), w, delayed, bs)
    {
      var readVal := WriteAndTag(w, bs);
      FetchAndLatch(w, readVal, delayed);
    }

    /** simulateStructure: the combinational logic on the current latches, the clock
        edge, the new hazard report; returns isDone. */
    method SimulateStructure(delayed: bool, bs: bool) returns (done: bool)
      modifies this`arch, this`nextStepId, this`executionHistory, this`currentHazard, regs.ifId, regs.idEx, regs.exMem, regs.memWb
      ensures State() == Engine.SimulateStructure(old(State()), delayed, bs)
      ensures done == Engine.IsDone(regs.Contents(), arch)
    {
      var w := Combinational(regs.Contents(), arch);
      Clock(w, delayed, bs);
      UpdateHazardInfo();
      done := IsDone();
    }

    /** The PipelineSnapshot constructor: every latch field, the next identifier, the PC. */
    method TakeSnapshot() returns (snap: Snapshot)
      ensures snap.latches == regs.Contents() && snap.snapNextStepId == nextStepId && snap.archPc == arch.pc
    {
      var d := IfIdValue(regs.ifId.dPc, regs.ifId.dInstr, regs.ifId.stepId);
      var e := IdExValue(regs.idEx.ePc, regs.idEx.eInstr, regs.idEx.eRd1, regs.idEx.eRd2, regs.idEx.eExt,
                         regs.idEx.eZero, regs.idEx.stepId);
      var m := ExMemValue(regs.exMem.mPc, regs.exMem.mInstr, regs.exMem.mRd2, regs.exMem.mAluAns,
                          regs.exMem.mZero, regs.exMem.stepId);
      var wb := MemWbValue(regs.memWb.wPc, regs.memWb.wInstr, regs.memWb.wAluAns, regs.memWb.wDmRead,
                           regs.memWb.wZero, regs.memWb.stepId);
      snap := Snapshot(Bank(d, e, m, wb), nextStepId, arch.pc);
    }

    /** The first half of step: the snapshot of the latches, the next identifier and
        the PC goes on the snapshot stack. */
    method PushSnapshot()
      modifies this`snapshotStack
      ensures State() == Pushed(old(State()))
    {
      var snap := TakeSnapshot();
      snapshotStack := snapshotStack + [snap];
    }

    /** The end of step: the count of undo entries the cycle left, measured from the stack
        size sizeBefore read before simulating (0 with backstepping off), goes on the
        count stack, and the cycle is counted. */
    method PushCount(ghost s: EngineState, sizeBefore: int, bs: bool)
      requires sizeBefore == if bs then s.arch.backstepDepth else 0
      requires backstepCountStack == s.counts && cycles == s.cycles
      modifies this`backstepCountStack, this`cycles
      ensures State() == Counted(old(State()), s, bs)
    {
      var count := if bs then arch.backstepDepth - sizeBefore else 0;
      backstepCountStack, cycles := backstepCountStack + [count], cycles + 1;
    }

    /** step: push a snapshot, simulate, push the number of undo entries the cycle left,
        count the cycle; returns simulateStructure's isDone. */
    method Step(delayed: bool, bs: bool) returns (done: bool)
      modifies this, regs.ifId, regs.idEx, regs.exMem, regs.memWb
      ensures State() == Engine.Step(old(State()), delayed, bs)
      ensures done == Engine.IsDone(regs.Contents(), arch)
      ensures old(Valid()) ==> Valid()
      ensures old(Inv(State())) ==> Inv(State())
    {
      ghost var s := State();
      EngineProps.StepIsSimulate(s, delayed, bs);
      if Valid() {
        EngineProps.StepKeepsValid(s, delayed, bs);
      }
      if Inv(s) {
        EngineProps.StepKeepsInv(s, delayed, bs);
      }
      var sizeBefore := if bs then arch.backstepDepth else 0;
      PushSnapshot();
      done := SimulateStructure(delayed, bs);
      PushCount(s, sizeBefore, bs);
    }

    /** Pop the top snapshot and restore it: latches, PC, next identifier. */
    method RestoreTop()
      requires |snapshotStack| > 0
      modifies this`snapshotStack, this`arch, this`nextStepId, regs.ifId, regs.idEx, regs.exMem, regs.memWb
      ensures State() == Restored(old(State()))
    {
      var snap := snapshotStack[|snapshotStack| - 1];
      snapshotStack := snapshotStack[..|snapshotStack| - 1];
      RestoreSnapshot(snap);
      nextStepId := snap.snapNextStepId;
    }

    /** Pop the top count, hand it to backStepRaw with backstepping on, count back. */
    method PopCount(bs: bool)
      requires |backstepCountStack| > 0
      modifies this`backstepCountStack, this`arch, this`cycles
      ensures State() == CountPopped(old(State()), bs)
    {
      var count := backstepCountStack[|backstepCountStack| - 1];
      backstepCountStack := backstepCountStack[..|backstepCountStack| - 1];
      if bs {
        arch := arch.BackStepRaw(count);
      }
      cycles := cycles - 1;
    }

    /** undoCycle(cycles) on every record of the history, front to back. */
    method UndoHistory()
      modifies this`executionHistory
      ensures executionHistory == UndoAll(old(executionHistory), cycles)
      ensures State() == Undone(old(State()))
    {
      var i := 0;
      while i < |executionHistory|
        invariant 0 <= i <= |executionHistory| == |old(executionHistory)|
        invariant forall k :: 0 <= k < i ==> executionHistory[k] == old(executionHistory)[k].UndoCycle(cycles)
        invariant forall k :: i <= k < |executionHistory| ==> executionHistory[k] == old(executionHistory)[k]
      {
        executionHistory := executionHistory[i := executionHistory[i].UndoCycle(cycles)];
        i := i + 1;
      }
    }

    /** Drop the records created since the snapshot, then refresh the hazard report. A
        negative next identifier makes subList throw, which skips both. */
    method Rollback()
      modifies this`executionHistory, this`currentHazard
      ensures State() == Engine.Rollback(old(State()))
    {
      if |executionHistory| > nextStepId {
        if nextStepId < 0 {
          return;
        }
        executionHistory := executionHistory[..nextStepId];
      }
      UpdateHazardInfo();
    }

    /** back: undo one cycle; nothing at cycle 0 or without a snapshot, and an empty count
        stack (EmptyStackException) ends it once the snapshot is restored. */
    method Back(bs: bool)
      modifies this, regs.ifId, regs.idEx, regs.exMem, regs.memWb
      ensures State() == Engine.Back(old(State()), bs)
      ensures old(Valid()) ==> Valid()
    {
      if Valid() {
        EngineProps.BackKeepsValid(State(), bs);
      }
      if cycles == 0 || |snapshotStack| == 0 {
        return;
      }
      RestoreTop();
      if |backstepCountStack| == 0 {
        return;
      }
      PopCount(bs);
      UndoHistory();
      Rollback();
    }

    /** reset: bubbles in every latch, counters and history cleared, stacks emptied, the
        report recomputed; the architectural state is left alone. */
    method Reset()
      modifies this, regs.ifId, regs.idEx, regs.exMem, regs.memWb
      ensures State() == Engine.Reset(old(State()))
      ensures Inv(State())
    {
      EngineProps.ResetEstablishesInv(State());
      regs.ResetAll();
      cycles := 0;
      nextStepId := 0;
      executionHistory := [];
      snapshotStack := [];
      backstepCountStack := [];
      currentHazard := CLEARED;
      UpdateHazardInfo();
    }

  }
}
