/** What the cycle engine guarantees: reset establishes the invariants, step and back keep
    them, back undoes step, and the behaviour of a stalled, a flushing and a drained pipeline. */
module EngineProps {
  import opened Controller
  import opened Latches
  import opened Arch
  import opened HazardUnit
  import opened Datapath
  import opened History
  import opened Report
  import opened Engine

  // ----- One cycle's history tags, record by record

  /** Record i after the history tracking of one cycle, when the latches hold distinct
      instructions: at most one stage tag, the one of the latch holding instruction i. */
  function TaggedRecord(r: StepRecord, i: int, b: Bank, c: int, stall: bool): StepRecord {
    if i == b.memWb.stepId then r.SetStage(c, WB)
    else if i == b.exMem.stepId then r.SetStage(c, MEM)
    else if i == b.idEx.stepId then r.SetStage(c, EX)
    else if i == b.ifId.stepId then r.SetStage(c, if stall then STALL else ID)
    else r
  }

  lemma TagStagesAt(h: seq<StepRecord>, b: Bank, c: int, stall: bool, i: int)
    requires DistinctIds(b) && 0 <= i < |h|
    ensures TagStages(h, b, c, stall)[i] == TaggedRecord(h[i], i, b, c, stall)
  {
  }

  /** undoCycle(c) takes back the cycle's tag of a record whose tags are all earlier and
      whose slot for that tag was free. */
  lemma UndoTagged(r: StepRecord, i: int, b: Bank, c: int, stall: bool)
    requires c >= 0 && r.TagsBefore(c) && RecordFits(r, i, b)
    ensures TaggedRecord(r, i, b, c, stall).UndoCycle(c) == r
  {
    assert r.NoTagAt(c);
    if i == b.memWb.stepId {
      UndoAfterSetStage(r, c, WB);
    } else if i == b.exMem.stepId {
      UndoAfterSetStage(r, c, MEM);
    } else if i == b.idEx.stepId {
      UndoAfterSetStage(r, c, EX);
    } else if i == b.ifId.stepId {
      UndoAfterSetStage(r, c, if stall then STALL else ID);
    } else {
      UndoLaterCycleIsIdentity(r, c);
    }
  }

  /** A tag at cycle c on a record whose tags are before c leaves them before c + 1. */
  lemma SetStageTagsBefore(r: StepRecord, c: int, stage: Stage)
    requires c >= 0 && r.TagsBefore(c)
    ensures r.SetStage(c, stage).TagsBefore(c + 1)
  {
    if stage == STALL {
      var t := r.SetStage(c, stage);
      assert t.stallCycles == r.stallCycles + [c];
      assert forall k :: 0 <= k < |t.stallCycles| ==> 0 <= t.stallCycles[k] < c + 1;
    }
  }

  lemma TagsBeforeLater(r: StepRecord, c: int)
    requires r.TagsBefore(c)
    ensures r.TagsBefore(c + 1)
  {
  }

  /** After the tag, the record's tags are before the next cycle and its free slots match
      the latch its instruction moved into. */
  lemma TaggedFits(r: StepRecord, i: int, b: Bank, c: int, stall: bool, b2: Bank)
    requires c >= 0 && i >= 0 && r.TagsBefore(c) && RecordFits(r, i, b) && DistinctIds(b)
    requires b2.memWb.stepId == b.exMem.stepId && b2.exMem.stepId == b.idEx.stepId
    requires b2.idEx.stepId == if stall then NO_STEP else b.ifId.stepId
    requires stall ==> b2.ifId.stepId == b.ifId.stepId
    requires !stall ==> b2.ifId.stepId != i
    ensures var t := TaggedRecord(r, i, b, c, stall);
      t.TagsBefore(c + 1) && RecordFits(t, i, b2)
  {
    if i == b.memWb.stepId {
      SetStageTagsBefore(r, c, WB);
    } else if i == b.exMem.stepId {
      SetStageTagsBefore(r, c, MEM);
    } else if i == b.idEx.stepId {
      SetStageTagsBefore(r, c, EX);
    } else if i == b.ifId.stepId {
      SetStageTagsBefore(r, c, if stall then STALL else ID);
    } else {
      TagsBeforeLater(r, c);
    }
  }

  // ----- The snapshot stack

  /** Pushing a snapshot taken at the live identifier keeps the chain. */
  lemma ChainPush(snaps: seq<Snapshot>, snap: Snapshot, top: int)
    requires Chain(snaps, snap.snapNextStepId)
    requires 0 <= snap.snapNextStepId <= top && IdsBelow(snap.latches, snap.snapNextStepId)
    ensures Chain(snaps + [snap], top)
  {
    var t := snaps + [snap];
    forall j | 0 <= j < |t|
      ensures 0 <= t[j].snapNextStepId <= Bound(t, j, top) && IdsBelow(t[j].latches, t[j].snapNextStepId)
    {
      if j < |snaps| {
        assert t[j] == snaps[j];
        assert Bound(t, j, top) == Bound(snaps, j, snap.snapNextStepId);
      }
    }
  }

  /** Popping the top snapshot leaves a chain whose live identifier is the popped one's. */
  lemma ChainPop(snaps: seq<Snapshot>, top: int)
    requires Chain(snaps, top) && |snaps| > 0
    ensures var last := snaps[|snaps| - 1];
      && Chain(snaps[..|snaps| - 1], last.snapNextStepId)
      && 0 <= last.snapNextStepId <= top && IdsBelow(last.latches, last.snapNextStepId)
  {
    var last := snaps[|snaps| - 1];
    var t := snaps[..|snaps| - 1];
    forall j | 0 <= j < |t|
      ensures 0 <= t[j].snapNextStepId <= Bound(t, j, last.snapNextStepId) && IdsBelow(t[j].latches, t[j].snapNextStepId)
    {
      assert t[j] == snaps[j];
      assert Bound(t, j, last.snapNextStepId) == Bound(snaps, j, top);
    }
  }

  // ----- What one cycle does to identifiers and records

  /** Each latch takes what its stage computed from the latch before it: MEM/WB the
      EX/MEM fields and the memory stage's read value, EX/MEM the ID/EX fields with the
      forwarded rt value and the ALU result; without a stall ID/EX takes the IF/ID
      instruction with its forwarded operands, its extended immediate and the branch
      comparison. */
  lemma CycleAdvancesLatches(s: EngineState, w: Wires, delayed: bool, bs: bool)
    ensures var t := Cycle(s, w, delayed, bs);
      var m, e, d := s.bank.exMem, s.bank.idEx, s.bank.ifId;
      var mem := MemoryAccess(WriteBack(s.arch, w, bs), m, w, bs);
      && t.bank.memWb == MemWbValue(m.mPc, m.mInstr, m.mAluAns, mem.readVal, m.mZero, m.stepId)
      && t.bank.exMem == ExMemValue(e.ePc, e.eInstr, w.aluB, w.aluRes, e.eZero, e.stepId)
      && (!w.stall ==>
            t.bank.idEx == IdExValue(d.dPc, d.dInstr, w.dRd1, w.dRd2, ExtendImm(w.dc.imm16, w.dc.extOp),
                                     w.branchCondition, d.stepId))
  {
  }

  /** The register file and memory after a cycle are those the write-back and memory
      stages leave, and MEM/WB holds the memory stage's read value. */
  lemma CycleArch(s: EngineState, w: Wires, delayed: bool, bs: bool)
    ensures var mem := MemoryAccess(WriteBack(s.arch, w, bs), s.bank.exMem, w, bs);
      var t := Cycle(s, w, delayed, bs);
      && t.arch.registers == mem.arch.registers && t.arch.memory == mem.arch.memory
      && t.bank.memWb.wDmRead == mem.readVal
  {
  }

  /** What a cycle commits to the register file: write-back puts the WB value into the
      destination register and leaves every other register alone. */
  lemma CycleWritesBack(s: EngineState, w: Wires, delayed: bool, bs: bool)
    ensures var t := Cycle(s, w, delayed, bs);
      && (RegisterWritten(w) ==> t.arch.GetValue(w.wc.writeRegDst) == w.wWd)
      && (forall q: bv5 {:trigger t.arch.GetValue(q)} :: q != w.wc.writeRegDst ==> t.arch.GetValue(q) == s.arch.GetValue(q))
  {
    var a := WriteBack(s.arch, w, bs);
    var t := Cycle(s, w, delayed, bs);
    CycleArch(s, w, delayed, bs);
    forall q: bv5 | q != w.wc.writeRegDst
      ensures t.arch.GetValue(q) == s.arch.GetValue(q)
    {
      assert t.arch.GetValue(q) == a.GetValue(q);
    }
    if RegisterWritten(w) {
      assert t.arch.GetValue(w.wc.writeRegDst) == a.GetValue(w.wc.writeRegDst);
    }
  }

  /** What a cycle commits to memory: a successful store puts the store data at the ALU
      address and only there, and that data is also its read value; a load's read value
      is the word at the ALU address (0 where the access fails). */
  lemma CycleAccessesMemory(s: EngineState, w: Wires, delayed: bool, bs: bool)
    ensures var t, m := Cycle(s, w, delayed, bs), s.bank.exMem;
      && (MemoryWritten(s.arch, m, w) ==>
            t.arch.GetWord(m.mAluAns) == w.storeValue && t.bank.memWb.wDmRead == w.storeValue)
      && (forall x: bv32 {:trigger t.arch.GetWord(x)} :: x != m.mAluAns || !MemoryWritten(s.arch, m, w) ==>
            t.arch.GetWord(x) == s.arch.GetWord(x))
      && (!w.mc.dmWe && w.mc.tNewM == 1 ==>
            t.bank.memWb.wDmRead == if m.mAluAns in s.arch.wordAccessible then s.arch.GetWord(m.mAluAns) else 0)
  {
    var a, m := WriteBack(s.arch, w, bs), s.bank.exMem;
    var mem, t := MemoryAccess(a, m, w, bs), Cycle(s, w, delayed, bs);
    CycleArch(s, w, delayed, bs);
    forall x: bv32 | x != m.mAluAns || !MemoryWritten(s.arch, m, w)
      ensures t.arch.GetWord(x) == s.arch.GetWord(x)
    {
      if MemoryWritten(s.arch, m, w) {
        a.SetWordKeepsOtherWords(m.mAluAns, w.storeValue, bs, x);
      }
      assert t.arch.GetWord(x) == mem.arch.GetWord(x);
    }
    if MemoryWritten(s.arch, m, w) {
      assert t.arch.GetWord(m.mAluAns) == mem.arch.GetWord(m.mAluAns);
    }
  }

  /** The latch identifiers after a cycle: each instruction moves one latch on, a stall
      holds IF/ID and empties ID/EX, and IF/ID otherwise takes the fetched instruction's
      new identifier or none. */
  lemma CycleIds(s: EngineState, w: Wires, delayed: bool, bs: bool)
    ensures var t := Cycle(s, w, delayed, bs);
      && t.bank.memWb.stepId == s.bank.exMem.stepId
      && t.bank.exMem.stepId == s.bank.idEx.stepId
      && t.bank.idEx.stepId == (if w.stall then NO_STEP else s.bank.ifId.stepId)
      && (w.stall ==> t.bank.ifId.stepId == s.bank.ifId.stepId)
      && (!w.stall ==> t.bank.ifId.stepId == NO_STEP
                        || (t.bank.ifId.stepId == s.nextStepId && t.nextStepId == s.nextStepId + 1))
      && (t.nextStepId == s.nextStepId || t.nextStepId == s.nextStepId + 1)
  {
  }

  /** The history after a cycle: the same records, identifiers kept, and one new record
      tagged IF exactly when an identifier was handed out. */
  lemma CycleHistory(s: EngineState, w: Wires, delayed: bool, bs: bool)
    ensures var t := Cycle(s, w, delayed, bs);
      && |t.history| == |s.history| + (t.nextStepId - s.nextStepId)
      && (forall i :: 0 <= i < |s.history| ==> t.history[i].id == s.history[i].id)
      && (t.nextStepId != s.nextStepId ==>
            t.history[|s.history|] == NewRecord(s.nextStepId, w.fPc).SetStage(s.cycles, IF))
  {
  }

  /** With distinct latch identifiers, each old record carries its one tag of the cycle. */
  lemma CycleTags(s: EngineState, w: Wires, delayed: bool, bs: bool)
    requires DistinctIds(s.bank)
    ensures var t := Cycle(s, w, delayed, bs);
      forall i :: 0 <= i < |s.history| ==>
        t.history[i] == TaggedRecord(s.history[i], i, s.bank, s.cycles, w.stall)
  {
    var t := Cycle(s, w, delayed, bs);
    forall i | 0 <= i < |s.history|
      ensures t.history[i] == TaggedRecord(s.history[i], i, s.bank, s.cycles, w.stall)
    {
      TagStagesAt(s.history, s.bank, s.cycles, w.stall, i);
    }
  }

  /** A cycle never calls backStepRaw, and it leaves one undo entry per register or
      memory write when backstepping is on, none when it is off. */
  lemma CycleBackstepper(s: EngineState, w: Wires, delayed: bool, bs: bool)
    ensures var a := Cycle(s, w, delayed, bs).arch;
      && a.backStepRawCalls == s.arch.backStepRawCalls
      && a.backstepDepth == s.arch.backstepDepth
           + (if bs && RegisterWritten(w) then 1 else 0)
           + (if bs && MemoryWritten(s.arch, s.bank.exMem, w) then 1 else 0)
  {
    var a1 := WriteBack(s.arch, w, bs);
    var mem := MemoryAccess(a1, s.bank.exMem, w, bs);
    assert MemoryWritten(a1, s.bank.exMem, w) == MemoryWritten(s.arch, s.bank.exMem, w);
    assert Cycle(s, w, delayed, bs).arch == if w.stall then mem.arch else mem.arch.SetPc(w.npc);
  }

  /** step is the cycle on the state with the snapshot pushed, plus the count, the cycle
      and the refreshed report. */
  lemma StepWithParts(s: EngineState, w: Wires, delayed: bool, bs: bool)
    ensures var snap := Snapshot(s.bank, s.nextStepId, s.arch.pc);
      var c := Cycle(s.(snapshots := s.snapshots + [snap]), w, delayed, bs);
      var t := StepWith(s, w, delayed, bs);
      && t.bank == c.bank && t.arch == c.arch && t.nextStepId == c.nextStepId && t.history == c.history
      && t.snapshots == s.snapshots + [snap]
      && |t.counts| == |s.counts| + 1 && t.counts[..|s.counts|] == s.counts
      && t.counts[|s.counts|] == (if bs then t.arch.backstepDepth - s.arch.backstepDepth else 0)
      && t.cycles == s.cycles + 1
      && t.hazard == HazardReport(t.bank)
  {
  }

  // ----- Reset and the initial state

  /** A new simulator and a reset one satisfy the invariants. */
  lemma InitialIsValid(a: ArchState)
    ensures Inv(Initial(a))
  {
    BubbleReportIsCleared();
  }

  /** reset establishes the invariants from any state, keeps the architectural state, and
      resetting twice is resetting once. */
  lemma ResetEstablishesInv(s: EngineState)
    ensures Inv(Reset(s)) && Reset(s).arch == s.arch && Reset(Reset(s)) == Reset(s)
    ensures SamePipeline(Reset(s), Initial(s.arch))
  {
    BubbleReportIsCleared();
  }

  // ----- step keeps the invariants

  /** step keeps the bookkeeping invariant, whatever the cycle's wires. */
  lemma StepWithKeepsValid(s: EngineState, w: Wires, delayed: bool, bs: bool)
    requires Valid(s)
    ensures Valid(StepWith(s, w, delayed, bs))
  {
    var snap := Snapshot(s.bank, s.nextStepId, s.arch.pc);
    var pushed := s.(snapshots := s.snapshots + [snap]);
    var t := StepWith(s, w, delayed, bs);
    StepWithParts(s, w, delayed, bs);
    CycleIds(pushed, w, delayed, bs);
    CycleHistory(pushed, w, delayed, bs);
    ChainPush(s.snapshots, snap, t.nextStepId);
  }

  /** step keeps the latch identifiers distinct: the new one in IF/ID is fresh. */
  lemma StepWithKeepsDistinct(s: EngineState, w: Wires, delayed: bool, bs: bool)
    requires Valid(s) && DistinctIds(s.bank)
    ensures DistinctIds(StepWith(s, w, delayed, bs).bank)
  {
    var pushed := s.(snapshots := s.snapshots + [Snapshot(s.bank, s.nextStepId, s.arch.pc)]);
    StepWithParts(s, w, delayed, bs);
    CycleIds(pushed, w, delayed, bs);
  }

  /** After a cycle every record's tags are before the next cycle, and each record has
      free the slots its instruction's new latch will fill. */
  lemma CycleRecordsFit(s: EngineState, w: Wires, delayed: bool, bs: bool)
    requires s.cycles >= 0 && s.nextStepId == |s.history| && IdsBelow(s.bank, s.nextStepId)
    requires DistinctIds(s.bank)
    requires forall i :: 0 <= i < |s.history| ==> s.history[i].TagsBefore(s.cycles) && RecordFits(s.history[i], i, s.bank)
    ensures var c := Cycle(s, w, delayed, bs);
      forall i :: 0 <= i < |c.history| ==> c.history[i].TagsBefore(s.cycles + 1) && RecordFits(c.history[i], i, c.bank)
  {
    var c := Cycle(s, w, delayed, bs);
    CycleIds(s, w, delayed, bs);
    CycleHistory(s, w, delayed, bs);
    CycleTags(s, w, delayed, bs);
    forall i | 0 <= i < |c.history|
      ensures c.history[i].TagsBefore(s.cycles + 1) && RecordFits(c.history[i], i, c.bank)
    {
      if i < |s.history| {
        TaggedFits(s.history[i], i, s.bank, s.cycles, w.stall, c.bank);
      }
    }
  }

  lemma StepWithKeepsRecordsFit(s: EngineState, w: Wires, delayed: bool, bs: bool)
    requires Inv(s)
    ensures var t := StepWith(s, w, delayed, bs);
      forall i :: 0 <= i < |t.history| ==> t.history[i].TagsBefore(t.cycles) && RecordFits(t.history[i], i, t.bank)
  {
    var pushed := s.(snapshots := s.snapshots + [Snapshot(s.bank, s.nextStepId, s.arch.pc)]);
    StepWithParts(s, w, delayed, bs);
    CycleRecordsFit(pushed, w, delayed, bs);
  }

  /** The cycle's tag keeps a record in stage order: its slot and the later ones are
      free, and every earlier tag is from an earlier cycle. */
  lemma TaggedKeepsOrder(r: StepRecord, i: int, b: Bank, c: int, stall: bool)
    requires c >= 0 && r.TagsBefore(c) && RecordFits(r, i, b) && r.InStageOrder()
    ensures TaggedRecord(r, i, b, c, stall).InStageOrder()
  {
    if i == b.memWb.stepId {
      SetStageKeepsOrder(r, c, WB);
    } else if i == b.exMem.stepId {
      SetStageKeepsOrder(r, c, MEM);
    } else if i == b.idEx.stepId {
      SetStageKeepsOrder(r, c, EX);
    } else if i == b.ifId.stepId {
      SetStageKeepsOrder(r, c, if stall then STALL else ID);
    }
  }

  /** After a cycle every record is still in stage order, the new one included. */
  lemma CycleKeepsOrder(s: EngineState, w: Wires, delayed: bool, bs: bool)
    requires s.cycles >= 0 && DistinctIds(s.bank) && InOrder(s.history)
    requires forall i :: 0 <= i < |s.history| ==> s.history[i].TagsBefore(s.cycles) && RecordFits(s.history[i], i, s.bank)
    ensures InOrder(Cycle(s, w, delayed, bs).history)
  {
    var c := Cycle(s, w, delayed, bs);
    CycleHistory(s, w, delayed, bs);
    CycleTags(s, w, delayed, bs);
    forall i | 0 <= i < |c.history|
      ensures c.history[i].InStageOrder()
    {
      if i < |s.history| {
        TaggedKeepsOrder(s.history[i], i, s.bank, s.cycles, w.stall);
      } else {
        SetStageKeepsOrder(NewRecord(s.nextStepId, w.fPc), s.cycles, IF);
      }
    }
  }

  /** step keeps the full invariant. */
  lemma StepWithKeepsInv(s: EngineState, w: Wires, delayed: bool, bs: bool)
    requires Inv(s)
    ensures Inv(StepWith(s, w, delayed, bs))
  {
    StepWithKeepsValid(s, w, delayed, bs);
    StepWithKeepsDistinct(s, w, delayed, bs);
    StepWithKeepsRecordsFit(s, w, delayed, bs);
    StepWithParts(s, w, delayed, bs);
    CycleKeepsOrder(Pushed(s), w, delayed, bs);
  }

  /** In every reachable state, each record holds at most one tag per cycle, which
      getStageAt reports. */
  lemma OneTagPerCycleEverywhere(s: EngineState, i: int, c: int)
    requires Inv(s) && 0 <= i < |s.history| && c != NO_CYCLE
    ensures s.history[i].TagCount(c) <= 1
    ensures s.history[i].TagCount(c) == 1 <==> s.history[i].StageAt(c).Some?
  {
    OneTagPerCycle(s.history[i], c);
  }

  /** step keeps the invariants. */
  lemma StepKeepsInv(s: EngineState, delayed: bool, bs: bool)
    requires Inv(s)
    ensures Inv(Step(s, delayed, bs))
  {
    StepWithKeepsInv(s, Combinational(s.bank, s.arch), delayed, bs);
  }

  // ----- back

  /** undoCycle keeps every record's identifier. */
  lemma UndoAllNumbered(h: seq<StepRecord>, c: int)
    requires Numbered(h)
    ensures Numbered(UndoAll(h, c))
  {
  }

  /** back keeps the bookkeeping invariant. */
  lemma BackKeepsValid(s: EngineState, bs: bool)
    requires Valid(s)
    ensures Valid(Back(s, bs))
  {
    if s.cycles != 0 && |s.snapshots| != 0 {
      ChainPop(s.snapshots, s.nextStepId);
      UndoAllNumbered(s.history, s.cycles - 1);
    }
  }

  /** back on a state that extends s by one cycle's bookkeeping (one more snapshot — of
      s —, one more count, one more cycle, s's records with one cycle's tags and perhaps
      one new record) restores everything of s that back restores. */
  lemma BackRestores(s: EngineState, t: EngineState, bs: bool)
    requires Valid(s)
    requires t.snapshots == s.snapshots + [Snapshot(s.bank, s.nextStepId, s.arch.pc)]
    requires |t.counts| == |s.counts| + 1 && t.counts[..|s.counts|] == s.counts
    requires t.cycles == s.cycles + 1
    requires |s.history| <= |t.history| <= |s.history| + 1
    requires forall i :: 0 <= i < |s.history| ==> t.history[i].UndoCycle(s.cycles) == s.history[i]
    ensures var u := Back(t, bs);
      && SamePipeline(u, s)
      && u.arch == (if bs then t.arch.SetPc(s.arch.pc).BackStepRaw(t.counts[|s.counts|])
                    else t.arch.SetPc(s.arch.pc))
  {
    var u := Back(t, bs);
    assert t.snapshots[|t.snapshots| - 1] == Snapshot(s.bank, s.nextStepId, s.arch.pc);
    assert t.snapshots[..|t.snapshots| - 1] == s.snapshots;
    var undone := UndoAll(t.history, s.cycles);
    if |undone| <= s.nextStepId {
      assert undone == s.history;
    } else {
      assert undone[..s.nextStepId] == s.history;
    }
  }

  /** Undoing the step's cycle gives every old record back. */
  lemma StepWithUndoable(s: EngineState, w: Wires, delayed: bool, bs: bool)
    requires Inv(s)
    ensures var t := StepWith(s, w, delayed, bs);
      && |s.history| <= |t.history| <= |s.history| + 1
      && forall i :: 0 <= i < |s.history| ==> t.history[i].UndoCycle(s.cycles) == s.history[i]
  {
    var pushed := s.(snapshots := s.snapshots + [Snapshot(s.bank, s.nextStepId, s.arch.pc)]);
    var t := StepWith(s, w, delayed, bs);
    StepWithParts(s, w, delayed, bs);
    CycleIds(pushed, w, delayed, bs);
    CycleHistory(pushed, w, delayed, bs);
    CycleTags(pushed, w, delayed, bs);
    forall i | 0 <= i < |s.history|
      ensures t.history[i].UndoCycle(s.cycles) == s.history[i]
    {
      UndoTagged(s.history[i], i, s.bank, s.cycles, w.stall);
    }
  }

  /** back right after step restores the latches, the PC, the cycle count, the next
      identifier, the history, both stacks and the hazard report. */
  lemma BackAfterStepWith(s: EngineState, w: Wires, delayed: bool, bs: bool)
    requires Inv(s)
    ensures SamePipeline(Back(StepWith(s, w, delayed, bs), bs), s)
  {
    StepWithParts(s, w, delayed, bs);
    StepWithUndoable(s, w, delayed, bs);
    BackRestores(s, StepWith(s, w, delayed, bs), bs);
  }

  /** back right after step hands backStepRaw exactly the number of undo entries the step
      left (none with backstepping off), so the backstepper's stack is back at its old
      size; the register file and memory are left to the backstepper. */
  lemma BackAfterStepWithArch(s: EngineState, w: Wires, delayed: bool, bs: bool)
    requires Inv(s)
    ensures var t := StepWith(s, w, delayed, bs);
      var u := Back(t, bs);
      && u.arch.backstepDepth == s.arch.backstepDepth
      && u.arch.backStepRawCalls
           == s.arch.backStepRawCalls + (if bs then [t.arch.backstepDepth - s.arch.backstepDepth] else [])
      && u.arch.registers == t.arch.registers && u.arch.memory == t.arch.memory
  {
    var pushed := s.(snapshots := s.snapshots + [Snapshot(s.bank, s.nextStepId, s.arch.pc)]);
    StepWithParts(s, w, delayed, bs);
    CycleBackstepper(pushed, w, delayed, bs);
    StepWithUndoable(s, w, delayed, bs);
    BackRestores(s, StepWith(s, w, delayed, bs), bs);
  }

  // ----- step and back on the state's own wires

  lemma StepKeepsValid(s: EngineState, delayed: bool, bs: bool)
    requires Valid(s)
    ensures Valid(Step(s, delayed, bs))
  {
    StepWithKeepsValid(s, Combinational(s.bank, s.arch), delayed, bs);
  }

  /** step is simulateStructure on the state with the snapshot pushed, followed by the
      cycle's count and the cycle counter. */
  lemma StepIsSimulate(s: EngineState, delayed: bool, bs: bool)
    ensures Step(s, delayed, bs) == Counted(SimulateStructure(Pushed(s), delayed, bs), s, bs)
  {
  }

  /** back undoes step (see BackAfterStepWith and BackAfterStepWithArch). */
  lemma BackAfterStep(s: EngineState, delayed: bool, bs: bool)
    requires Inv(s)
    ensures SamePipeline(Back(Step(s, delayed, bs), bs), s)
    ensures Inv(Back(Step(s, delayed, bs), bs))
  {
    BackAfterStepWith(s, Combinational(s.bank, s.arch), delayed, bs);
    SamePipelineKeepsInv(s, Back(Step(s, delayed, bs), bs));
  }

  /** Inv speaks only of the pipeline parts, so a state with the same pipeline keeps it. */
  lemma SamePipelineKeepsInv(s: EngineState, t: EngineState)
    requires Inv(s) && SamePipeline(t, s)
    ensures Inv(t)
  {
  }

  /** The count step pushes is the number of architectural writes of the cycle: one for
      a register written back, one for a word stored; none with backstepping off. */
  lemma StepCountsWrites(s: EngineState, delayed: bool, bs: bool)
    ensures var w, t := Combinational(s.bank, s.arch), Step(s, delayed, bs);
      && |t.counts| == |s.counts| + 1
      && t.counts[|s.counts|]
           == (if bs then (if RegisterWritten(w) then 1 else 0)
                         + (if MemoryWritten(s.arch, s.bank.exMem, w) then 1 else 0)
               else 0)
  {
    var w := Combinational(s.bank, s.arch);
    var pushed := s.(snapshots := s.snapshots + [Snapshot(s.bank, s.nextStepId, s.arch.pc)]);
    StepWithParts(s, w, delayed, bs);
    CycleBackstepper(pushed, w, delayed, bs);
  }

  /** What step commits, in the terms of the WB and MEM instructions: a register write
      puts W_WD (jal's return address, a loaded word or the ALU result) into the decoded
      destination and changes no other register; a store puts the forwarded rt value at
      the ALU address, changes no other word and passes that value on to MEM/WB; a load
      passes on the word at the ALU address. */
  lemma StepCommits(s: EngineState, delayed: bool, bs: bool)
    ensures var t, w, m := Step(s, delayed, bs), s.bank.memWb, s.bank.exMem;
      var wc, mc := Decode(w.wInstr), Decode(m.mInstr);
      var data := StoreForward(mc.rt, m.mRd2, WbProducer(w, wc));
      var stored := mc.dmWe && m.mAluAns in s.arch.wordAccessible;
      && (wc.grfWe && wc.writeRegDst != 0 ==> t.arch.GetValue(wc.writeRegDst) == WriteBackValue(w, wc))
      && (forall q: bv5 {:trigger t.arch.GetValue(q)} :: q != wc.writeRegDst ==> t.arch.GetValue(q) == s.arch.GetValue(q))
      && (stored ==> t.arch.GetWord(m.mAluAns) == data && t.bank.memWb.wDmRead == data)
      && (forall x: bv32 {:trigger t.arch.GetWord(x)} :: x != m.mAluAns || !stored ==> t.arch.GetWord(x) == s.arch.GetWord(x))
      && (!mc.dmWe && mc.tNewM == 1 && m.mAluAns in s.arch.wordAccessible ==>
            t.bank.memWb.wDmRead == s.arch.GetWord(m.mAluAns))
  {
    var w := Combinational(s.bank, s.arch);
    StepWithParts(s, w, delayed, bs);
    CycleWritesBack(Pushed(s), w, delayed, bs);
    CycleAccessesMemory(Pushed(s), w, delayed, bs);
  }

  // ----- Many steps, then as many backs

  /** f applied n times. */
  function Run<T>(f: T -> T, s: T, n: nat): T {
    if n == 0 then s else f(Run(f, s, n - 1))
  }

  /** g applied n times. */
  function Unwind<T>(g: T -> T, s: T, n: nat): T
    decreases n
  {
    if n == 0 then s else Unwind(g, g(s), n - 1)
  }

  /** An invariant of f is an invariant of every run of f. */
  lemma {:induction false} RunKeeps<T>(f: T -> T, P: T -> bool, s: T, n: nat)
    requires P(s)
    requires forall x {:trigger f(x)} :: P(x) ==> P(f(x))
    ensures P(Run(f, s, n))
  {
    if n > 0 {
      RunKeeps(f, P, s, n - 1);
    }
  }

  /** Unwinding respects a relation that g respects. */
  lemma {:induction false} UnwindCongruent<T>(g: T -> T, R: (T, T) -> bool, s1: T, s2: T, n: nat)
    requires R(s1, s2)
    requires forall x, y {:trigger g(x), g(y)} :: R(x, y) ==> R(g(x), g(y))
    ensures R(Unwind(g, s1, n), Unwind(g, s2, n))
    decreases n
  {
    if n > 0 {
      UnwindCongruent(g, R, g(s1), g(s2), n - 1);
    }
  }

  /** If g undoes f up to a preorder R on every state satisfying an invariant P
      of f, and g respects R, then n times g after n times f is the identity up to R. */
  lemma {:induction false} UnwindRun<T>(f: T -> T, g: T -> T, P: T -> bool, R: (T, T) -> bool, s: T, n: nat)
    requires P(s)
    requires forall x {:trigger f(x)} :: P(x) ==> P(f(x)) && R(g(f(x)), x)
    requires forall x, y {:trigger g(x), g(y)} :: R(x, y) ==> R(g(x), g(y))
    requires forall x {:trigger R(x, x)} :: R(x, x)
    requires forall x, y, z {:trigger R(x, y), R(y, z)} :: R(x, y) && R(y, z) ==> R(x, z)
    ensures R(Unwind(g, Run(f, s, n), n), s)
  {
    if n > 0 {
      var t := Run(f, s, n - 1);
      RunKeeps(f, P, s, n - 1);
      assert R(g(f(t)), t);
      assert Unwind(g, Run(f, s, n), n) == Unwind(g, g(f(t)), n - 1);
      UnwindCongruent(g, R, g(f(t)), t, n - 1);
      UnwindRun(f, g, P, R, s, n - 1);
      var u, v := Unwind(g, g(f(t)), n - 1), Unwind(g, t, n - 1);
      assert R(u, v) && R(v, s);
    }
  }

  /** n steps. */
  function Steps(s: EngineState, n: nat, delayed: bool, bs: bool): EngineState {
    Run(x => Step(x, delayed, bs), s, n)
  }

  /** n backs. */
  function Backs(s: EngineState, n: nat, bs: bool): EngineState {
    Unwind(x => Back(x, bs), s, n)
  }

  /** back depends only on what it restores: the register file and memory play no part. */
  lemma BackCongruent(s1: EngineState, s2: EngineState, bs: bool)
    requires SamePipeline(s1, s2)
    ensures SamePipeline(Back(s1, bs), Back(s2, bs))
  {
  }

  /** Any number of steps keeps the invariants. */
  lemma StepsKeepInv(s: EngineState, n: nat, delayed: bool, bs: bool)
    requires Inv(s)
    ensures Inv(Steps(s, n, delayed, bs))
  {
    var f := x => Step(x, delayed, bs);
    forall x | Inv(x)
      ensures Inv(f(x))
    {
      StepKeepsInv(x, delayed, bs);
    }
    RunKeeps(f, Inv, s, n);
  }

  lemma StepThenBackAll(delayed: bool, bs: bool)
    ensures forall x {:trigger Step(x, delayed, bs)} :: Inv(x) ==>
      Inv(Step(x, delayed, bs)) && SamePipeline(Back(Step(x, delayed, bs), bs), x)
  {
    forall x | Inv(x)
      ensures Inv(Step(x, delayed, bs)) && SamePipeline(Back(Step(x, delayed, bs), bs), x)
    {
      StepKeepsInv(x, delayed, bs);
      BackAfterStep(x, delayed, bs);
    }
  }

  lemma BackCongruentAll(bs: bool)
    ensures forall x, y {:trigger Back(x, bs), Back(y, bs)} :: SamePipeline(x, y) ==> SamePipeline(Back(x, bs), Back(y, bs))
  {
    forall x, y | SamePipeline(x, y)
      ensures SamePipeline(Back(x, bs), Back(y, bs))
    {
      BackCongruent(x, y, bs);
    }
  }

  /** n steps followed by n backs return the pipeline to where it was. */
  lemma StepsThenBacks(s: EngineState, n: nat, delayed: bool, bs: bool)
    requires Inv(s)
    ensures SamePipeline(Backs(Steps(s, n, delayed, bs), n, bs), s)
    ensures Inv(Backs(Steps(s, n, delayed, bs), n, bs))
  {
    StepThenBackAll(delayed, bs);
    BackCongruentAll(bs);
    UnwindRun(x => Step(x, delayed, bs), x => Back(x, bs), Inv, SamePipeline, s, n);
    SamePipelineKeepsInv(s, Backs(Steps(s, n, delayed, bs), n, bs));
  }

  // ----- Stalls, flushes and the next PC

  /** A stall holds the fetch side: IF/ID and the PC keep their values, a bubble enters
      ID/EX, nothing is fetched, and the decode-stage instruction is tagged STALL. */
  lemma StallHoldsFetch(s: EngineState, w: Wires, delayed: bool, bs: bool)
    requires w.stall
    ensures var t := Cycle(s, w, delayed, bs);
      && t.bank.ifId == s.bank.ifId && t.bank.idEx == ID_EX_BUBBLE
      && t.arch.pc == s.arch.pc && t.nextStepId == s.nextStepId
      && t.history == TagStages(s.history, s.bank, s.cycles, true)
  {
  }

  /** In a stall the decode-stage instruction's history shows STALL at this cycle. */
  lemma StallIsRecorded(s: EngineState, w: Wires, delayed: bool, bs: bool)
    requires Inv(s) && w.stall && 0 <= s.bank.ifId.stepId < |s.history|
    ensures Cycle(s, w, delayed, bs).history[s.bank.ifId.stepId].StageAt(s.cycles) == Some(STALL)
  {
    var d := s.bank.ifId.stepId;
    CycleTags(s, w, delayed, bs);
    assert s.history[d].NoTagAt(s.cycles);
    StageAtAfterSetStage(s.history[d], s.cycles, STALL);
  }

  /** Without a stall, the PC moves to the NPC unit's target; IF/ID takes the fetched
      word, or, for a taken branch or jump without delayed branching, a bubble. */
  lemma FetchSide(s: EngineState, w: Wires, delayed: bool, bs: bool)
    requires !w.stall
    ensures var t := Cycle(s, w, delayed, bs);
      && t.arch.pc == w.npc && t.bank.idEx.stepId == s.bank.ifId.stepId
      && (w.branchTaken && !delayed ==> t.bank.ifId == IfIdValue(w.fPc, 0, NO_STEP))
      && (!(w.branchTaken && !delayed) ==>
            t.bank.ifId == IfIdValue(w.fPc, w.fInstr, if Fetches(s.arch, w) then s.nextStepId else NO_STEP))
      && (Fetches(s.arch, w) <==> t.nextStepId == s.nextStepId + 1)
  {
    var a1 := WriteBack(s.arch, w, bs);
    var mem := MemoryAccess(a1, s.bank.exMem, w, bs);
    assert Fetches(mem.arch, w) == Fetches(s.arch, w);
  }

  /** The next PC of step: unchanged in a stall, the taken target, or the fetch PC plus 4. */
  lemma StepNextPc(s: EngineState, delayed: bool, bs: bool)
    ensures var w := Combinational(s.bank, s.arch);
      Step(s, delayed, bs).arch.pc
        == if w.stall then s.arch.pc else if w.branchTaken then w.npc else s.arch.pc + 4
  {
    var w := Combinational(s.bank, s.arch);
    var pushed := s.(snapshots := s.snapshots + [Snapshot(s.bank, s.nextStepId, s.arch.pc)]);
    var dc := Decode(s.bank.ifId.dInstr);
    NextPcTaken(dc.npcOp, s.bank.ifId.dPc, s.bank.ifId.dInstr, w.dRd1, w.dRd2, s.arch.pc);
    StepWithParts(s, w, delayed, bs);
    if w.stall {
      StallHoldsFetch(pushed, w, delayed, bs);
    } else {
      FetchSide(pushed, w, delayed, bs);
    }
  }

  // ----- A drained pipeline

  /** Latches holding instruction word 0 behave as bubbles: no writes, no stall, no branch. */
  lemma EmptyLatchesAreQuiet(b: Bank, a: ArchState)
    requires LatchesEmpty(b)
    ensures var w := Combinational(b, a);
      && !w.stall && !RegisterWritten(w) && !w.mc.dmWe && w.mc.tNewM == 0
      && !w.branchTaken && w.npc == a.pc + 4 && w.dc.imm16 == 0
      && w.fPc == a.pc && w.fInstr == a.FetchInstruction(a.pc)
  {
    BubbleDecodesAsSll();
    DecodeMatchesTable(0);
  }

  /** isDone holds exactly when the latches are empty and there is no statement at the PC
      (the instruction-word test adds nothing). */
  lemma IsDoneIff(b: Bank, a: ArchState)
    ensures IsDone(b, a) <==> LatchesEmpty(b) && !a.HasStatement(a.pc)
  {
  }

  /** A cycle over quiet wires with nothing to fetch changes only the PC and the latches,
      which stay empty. */
  lemma QuietCycle(s: EngineState, w: Wires, delayed: bool, bs: bool)
    requires LatchesEmpty(s.bank)
    requires !w.stall && !RegisterWritten(w) && !w.mc.dmWe && w.mc.tNewM == 0
    requires w.fInstr == 0 && !s.arch.HasStatement(w.fPc)
    ensures var t := Cycle(s, w, delayed, bs);
      && t.arch == s.arch.SetPc(w.npc)
      && t.history == s.history && t.nextStepId == s.nextStepId
      && LatchesEmpty(t.bank)
  {
    var a1 := WriteBack(s.arch, w, bs);
    assert a1 == s.arch;
    assert MemoryAccess(a1, s.bank.exMem, w, bs).arch == s.arch;
  }

  /** Once done, a step changes no register, no memory word and no record; the latches
      stay empty and only the PC moves, on by 4. */
  lemma DoneStepIsInert(s: EngineState, delayed: bool, bs: bool)
    requires IsDone(s.bank, s.arch)
    ensures var t := Step(s, delayed, bs);
      && t.arch == s.arch.SetPc(s.arch.pc + 4)
      && t.history == s.history && t.nextStepId == s.nextStepId
      && LatchesEmpty(t.bank)
  {
    var w := Combinational(s.bank, s.arch);
    var pushed := s.(snapshots := s.snapshots + [Snapshot(s.bank, s.nextStepId, s.arch.pc)]);
    EmptyLatchesAreQuiet(s.bank, s.arch);
    StepWithParts(s, w, delayed, bs);
    QuietCycle(pushed, w, delayed, bs);
  }

  /** Empty latches and a PC moved on by 4 are done exactly when no statement is there. */
  lemma DoneAfterMove(s: EngineState, t: EngineState)
    requires LatchesEmpty(t.bank) && t.arch == s.arch.SetPc(s.arch.pc + 4)
    ensures IsDone(t.bank, t.arch) <==> !s.arch.HasStatement(s.arch.pc + 4)
  {
  }

  /** A done simulator stays done after a step unless a statement follows the PC. */
  lemma DoneStepStaysDone(s: EngineState, delayed: bool, bs: bool)
    requires IsDone(s.bank, s.arch)
    ensures IsDone(Step(s, delayed, bs).bank, Step(s, delayed, bs).arch)
      <==> !s.arch.HasStatement(s.arch.pc + 4)
  {
    DoneStepIsInert(s, delayed, bs);
    DoneAfterMove(s, Step(s, delayed, bs));
  }
}
