/** The combinational half of one clock cycle (simulateStructure, before anything is
    written): every stage's signals, the writeback value, the forwarding multiplexers,
    the ALU, the decode-stage register reads, the stall decision and the next PC. All of
    it is computed from the old latches and the old architectural state. */
module Datapath {
  import opened Controller
  import opened Latches
  import opened Arch
  import opened HazardUnit

  // ----- Forwarding

  /** A later stage as a forwarding source: the register it will write, whether it
      writes at all, and the value it would write. */
  datatype Producer = Producer(dst: bv5, we: bool, value: bv32)

  /** Reference definition of operand forwarding: a consumer of register reg sees 0 for
      register 0; otherwise the value of the youngest producer in flight that writes reg;
      otherwise the value it already holds. Producers are listed youngest first. */
  function Newest(reg: bv5, producers: seq<Producer>, held: bv32): bv32 {
    if reg == 0 then 0
    else if producers == [] then held
    else if producers[0].we && producers[0].dst == reg then producers[0].value
    else Newest(reg, producers[1..], held)
  }

  /** The execute-stage operand multiplexer: register 0 reads 0; then the memory-stage
      producer; then the writeback-stage producer; else the latched operand. */
  function ForwardEx(reg: bv5, latched: bv32, m: Producer, w: Producer): bv32 {
    if reg == 0 then 0
    else if m.dst == reg && m.we && m.dst != 0 then m.value
    else if w.dst == reg && w.we && w.dst != 0 then w.value
    else latched
  }

  /** The decode-stage register read: the register file's value, overridden from the
      memory stage, then the writeback stage; register 0 reads 0. Unlike the execute
      stage it does not test the producer's destination against 0. */
  function ForwardId(reg: bv5, fileValue: bv32, m: Producer, w: Producer): bv32 {
    if reg != 0 then
      if reg == m.dst && m.we then m.value
      else if reg == w.dst && w.we then w.value
      else fileValue
    else 0
  }

  /** The store-data multiplexer of the memory stage: only the writeback stage forwards. */
  function StoreForward(mRt: bv5, mRd2: bv32, w: Producer): bv32 {
    if mRt == 0 then 0
    else if w.dst == mRt && w.we && w.dst != 0 then w.value
    else mRd2
  }

  /** The execute-stage multiplexer is the reference rule with the memory stage younger
      than the writeback stage. */
  lemma ForwardExIsNewest(reg: bv5, latched: bv32, m: Producer, w: Producer)
    ensures ForwardEx(reg, latched, m, w) == Newest(reg, [m, w], latched)
  {
    if reg != 0 && !(m.we && m.dst == reg) {
      assert Newest(reg, [m, w], latched) == Newest(reg, [w], latched) by {
        assert [m, w][1..] == [w];
      }
      if !(w.we && w.dst == reg) {
        assert Newest(reg, [w], latched) == Newest(reg, [], latched) by {
          assert [w][1..] == [];
        }
      }
    }
  }

  /** The decode-stage read follows the same rule as the execute stage. */
  lemma ForwardIdAgreesWithEx(reg: bv5, fileValue: bv32, m: Producer, w: Producer)
    ensures ForwardId(reg, fileValue, m, w) == ForwardEx(reg, fileValue, m, w)
  {
  }

  /** The store data follows the reference rule with the writeback stage as only producer. */
  lemma StoreForwardIsNewest(mRt: bv5, mRd2: bv32, w: Producer)
    ensures StoreForward(mRt, mRd2, w) == Newest(mRt, [w], mRd2)
  {
    if mRt != 0 && !(w.we && w.dst == mRt) {
      assert Newest(mRt, [w], mRd2) == Newest(mRt, [], mRd2) by {
        assert [w][1..] == [];
      }
    }
  }

  /** Memory-over-writeback priority, spelled out: when both stages write the register,
      the memory stage's value is taken. */
  lemma MemoryStageWins(reg: bv5, latched: bv32, m: Producer, w: Producer)
    requires reg != 0 && m.we && m.dst == reg && w.we && w.dst == reg
    ensures ForwardEx(reg, latched, m, w) == m.value
    ensures ForwardId(reg, latched, m, w) == m.value
  {
  }

  // ----- ALU and immediates

  /** The ALU: 32-bit wrap-around add and subtract, bitwise or, sll by shamt and lui as a
      shift left by 16 of the second operand. */
  function Alu(op: AluOp, a: bv32, b: bv32, shamt: bv5): bv32 {
    match op
    case AluAdd => a + b
    case AluSub => a - b
    case AluOri => a | b
    case AluSll => b << shamt
    case AluLui => b << 16
  }

  /** (short): 16-bit sign extension to 32 bits. */
  function SignExtend16(h: bv16): bv32 {
    if h & 0x8000 == 0 then h as bv32 else (h as bv32) | 0xFFFF_0000
  }

  /** The immediate passed to ID/EX: sign-extended when ext_op is 1, else zero-extended. */
  function ExtendImm(imm16: bv16, ext: ExtOp): bv32 {
    if ext == SignExt then SignExtend16(imm16) else imm16 as bv32
  }

  /** lui with a zero-extended immediate puts the immediate in the upper half and zeros
      in the lower half. */
  lemma LuiFillsUpperHalf(hi: bv16, a: bv32, shamt: bv5)
    ensures var up := Alu(AluLui, a, ExtendImm(hi, ZeroExt), shamt);
      up >> 16 == hi as bv32 && up & 0xFFFF == 0
  {
    LuiValue(hi, a, shamt);
    UpperHalfWord(Alu(AluLui, a, ExtendImm(hi, ZeroExt), shamt), hi);
  }

  lemma LuiValue(hi: bv16, a: bv32, shamt: bv5)
    ensures Alu(AluLui, a, ExtendImm(hi, ZeroExt), shamt) == (hi as bv32) << 16
  {
  }

  lemma UpperHalfWord(x: bv32, hi: bv16)
    requires x == (hi as bv32) << 16
    ensures x >> 16 == hi as bv32 && x & 0xFFFF == 0
  {
  }

  /** ori with a zero-extended immediate on a word whose lower half is clear fills in the
      lower half and keeps the upper one, so lui followed by ori builds any constant. */
  lemma OriFillsLowerHalf(up: bv32, lo: bv16, shamt: bv5)
    requires up & 0xFFFF == 0
    ensures var r := Alu(AluOri, up, ExtendImm(lo, ZeroExt), shamt);
      r >> 16 == up >> 16 && r & 0xFFFF == lo as bv32
  {
    OriValue(up, lo, shamt);
    LowerHalfWord(Alu(AluOri, up, ExtendImm(lo, ZeroExt), shamt), up, lo);
  }

  lemma OriValue(up: bv32, lo: bv16, shamt: bv5)
    ensures Alu(AluOri, up, ExtendImm(lo, ZeroExt), shamt) == up | (lo as bv32)
  {
  }

  lemma LowerHalfWord(x: bv32, up: bv32, lo: bv16)
    requires up & 0xFFFF == 0 && x == up | (lo as bv32)
    ensures x >> 16 == up >> 16 && x & 0xFFFF == lo as bv32
  {
  }

  /** Sign extension keeps the low 16 bits and copies bit 15 into the upper half. */
  lemma SignExtendBits(h: bv16)
    ensures SignExtend16(h) & 0xFFFF == h as bv32
    ensures SignExtend16(h) >> 16 == if h & 0x8000 == 0 then 0 else 0xFFFF
  {
    var x := SignExtend16(h);
    if h & 0x8000 == 0 {
      assert x == h as bv32;
      PositiveHalves(x, h);
    } else {
      assert x == (h as bv32) | 0xFFFF_0000;
      NegativeHalves(x, h);
    }
  }

  lemma PositiveHalves(x: bv32, h: bv16)
    requires h & 0x8000 == 0 && x == h as bv32
    ensures x & 0xFFFF == h as bv32 && x >> 16 == 0
  {
  }

  lemma NegativeHalves(x: bv32, h: bv16)
    requires h & 0x8000 != 0 && x == (h as bv32) | 0xFFFF_0000
    ensures x & 0xFFFF == h as bv32 && x >> 16 == 0xFFFF
  {
  }

  /** Zero extension keeps the low 16 bits and clears the upper half. */
  lemma ZeroExtendBits(h: bv16)
    ensures ExtendImm(h, ZeroExt) >> 16 == 0 && ExtendImm(h, ZeroExt) & 0xFFFF == h as bv32
  {
    var x := ExtendImm(h, ZeroExt);
    assert x == h as bv32;
    ZeroExtendedHalves(x, h);
  }

  lemma ZeroExtendedHalves(x: bv32, h: bv16)
    requires x == h as bv32
    ensures x >> 16 == 0 && x & 0xFFFF == h as bv32
  {
  }

  // ----- Next PC

  datatype NextPcResult = NextPcResult(npc: bv32, branchTaken: bool)

  /** D_pc+4 plus four times the sign-extended 16-bit offset. */
  function BranchTargetOf(dPc: bv32, off: bv16): bv32 {
    dPc + 4 + OffsetBytes(off)
  }

  /** A 16-bit word offset in bytes: sign-extended and multiplied by four. */
  function OffsetBytes(off: bv16): bv32 {
    SignExtend16(off) << 2
  }

  /** The NPC unit: a beq whose decode-stage operands are equal goes to D_pc+4 plus the
      sign-extended offset times four; j and jal keep the top four bits of D_pc+4 and take
      the 26-bit target times four; jr goes to the (forwarded) rs value; anything else,
      including a beq that is not taken, continues at the fetch PC plus 4 and is the only
      case in which branchTaken is false. */
  function NextPc(npcOp: NpcOp, dPc: bv32, dInstr: bv32, dRd1: bv32, dRd2: bv32, pc: bv32): NextPcResult {
    var branchCondition := dRd1 == dRd2;
    var dpc4 := dPc + 4;
    if npcOp == NpcBranch && branchCondition then
      NextPcResult(BranchTargetOf(dPc, Imm16(dInstr)), true)
    else if npcOp == NpcJump then
      NextPcResult((dpc4 & 0xF000_0000) | ((dInstr & 0x03FF_FFFF) << 2), true)
    else if npcOp == NpcJr then
      NextPcResult(dRd1, true)
    else
      NextPcResult(pc + 4, false)
  }

  /** branchTaken holds exactly for j, jal, jr and a beq with equal operands; otherwise the
      next PC is the fetch PC plus 4. */
  lemma NextPcTaken(npcOp: NpcOp, dPc: bv32, dInstr: bv32, dRd1: bv32, dRd2: bv32, pc: bv32)
    ensures var r := NextPc(npcOp, dPc, dInstr, dRd1, dRd2, pc);
      && (r.branchTaken <==> (npcOp in {NpcJump, NpcJr} || (npcOp == NpcBranch && dRd1 == dRd2)))
      && (!r.branchTaken ==> r.npc == pc + 4)
      && (npcOp == NpcJr ==> r.npc == dRd1)
  {
  }

  /** A j or jal encoded with the word address of a target in the same 256 MB region as
      D_pc+4 (and word aligned) jumps to exactly that target. */
  lemma JumpReachesEncodedTarget(op: bv6, dPc: bv32, target: bv32, dRd1: bv32, dRd2: bv32, pc: bv32)
    requires op == OP_J || op == OP_JAL
    requires target & 3 == 0 && target & 0xF000_0000 == (dPc + 4) & 0xF000_0000
    ensures var instr := EncodeJ(op, ((target >> 2) & 0x3FF_FFFF) as bv26);
      NextPc(Decode(instr).npcOp, dPc, instr, dRd1, dRd2, pc) == NextPcResult(target, true)
  {
    var instr := EncodeJ(op, ((target >> 2) & 0x3FF_FFFF) as bv26);
    DecodeEncodeJ(op, ((target >> 2) & 0x3FF_FFFF) as bv26);
    DecodeMatchesTable(instr);
  }

  /** An encoded beq is a branch for the NPC unit. */
  lemma BeqIsBranch(rs: bv5, rt: bv5, off: bv16)
    ensures Decode(EncodeI(OP_BEQ, rs, rt, off)).npcOp == NpcBranch
  {
    DecodeEncodeI(OP_BEQ, rs, rt, off);
    DecodeMatchesTable(EncodeI(OP_BEQ, rs, rt, off));
  }

  /** A branch takes its offset from the immediate field of the decode-stage word: with
      equal operands it goes to D_pc+4 plus four times the sign-extended offset, otherwise
      it falls through to the fetch PC plus 4. (ImmediateOfEncodeI: the immediate field
      of an encoded beq is the offset it was encoded with.) */
  lemma BranchTarget(dPc: bv32, dInstr: bv32, off: bv16, dRd1: bv32, dRd2: bv32, pc: bv32)
    requires Imm16(dInstr) == off
    ensures NextPc(NpcBranch, dPc, dInstr, dRd1, dRd2, pc)
        == if dRd1 == dRd2 then NextPcResult(BranchTargetOf(dPc, off), true)
           else NextPcResult(pc + 4, false)
  {
  }

  /** A beq encoded with an offset goes to D_pc+4 plus four times that offset when its
      operands are equal and falls through otherwise. */
  lemma BranchUsesEncodedOffset(rs: bv5, rt: bv5, off: bv16, dPc: bv32, dRd1: bv32, dRd2: bv32, pc: bv32)
    ensures var instr := EncodeI(OP_BEQ, rs, rt, off);
      NextPc(Decode(instr).npcOp, dPc, instr, dRd1, dRd2, pc)
        == if dRd1 == dRd2 then NextPcResult(BranchTargetOf(dPc, off), true)
           else NextPcResult(pc + 4, false)
  {
    BeqIsBranch(rs, rt, off);
    ImmediateOfEncodeI(OP_BEQ, rs, rt, off);
    BranchTarget(dPc, EncodeI(OP_BEQ, rs, rt, off), off, dRd1, dRd2, pc);
  }

  /** The 16-bit word offset a beq encodes to move d bytes past D_pc+4. */
  function BranchOffset(d: bv32): bv16 {
    ((d >> 2) & 0xFFFF) as bv16
  }

  /** Every word-aligned target within 2^17 bytes (either way) of D_pc+4, that is
      D_pc+4+d with d a multiple of 4 in that range, is reachable: a beq encoded with the
      word distance to it takes that target when its operands are equal and falls through
      to the fetch PC plus 4 otherwise. */
  lemma BranchReachesEncodedTarget(rs: bv5, rt: bv5, dPc: bv32, d: bv32, dRd1: bv32, dRd2: bv32, pc: bv32)
    requires d & 3 == 0 && (d < 0x2_0000 || d >= 0xFFFE_0000)
    ensures var instr := EncodeI(OP_BEQ, rs, rt, BranchOffset(d));
      NextPc(Decode(instr).npcOp, dPc, instr, dRd1, dRd2, pc)
        == if dRd1 == dRd2 then NextPcResult(dPc + 4 + d, true) else NextPcResult(pc + 4, false)
  {
    BranchUsesEncodedOffset(rs, rt, BranchOffset(d), dPc, dRd1, dRd2, pc);
    WordOffsetRoundTrip(d);
    BranchOffsetLandsAt(dPc, BranchOffset(d), d);
  }

  lemma BranchOffsetLandsAt(dPc: bv32, off: bv16, d: bv32)
    requires OffsetBytes(off) == d
    ensures BranchTargetOf(dPc, off) == dPc + 4 + d
  {
    calc {
      BranchTargetOf(dPc, off);
      { BranchTargetAdds(dPc, off); }
      dPc + 4 + OffsetBytes(off);
      { SameDistance(dPc, OffsetBytes(off), d); }
      dPc + 4 + d;
    }
  }

  // The two steps are kept apart: in one proof obligation the solver does not find the chain.
  lemma BranchTargetAdds(dPc: bv32, off: bv16)
    ensures BranchTargetOf(dPc, off) == dPc + 4 + OffsetBytes(off)
  {
  }

  lemma SameDistance(dPc: bv32, s: bv32, d: bv32)
    requires s == d
    ensures dPc + 4 + s == dPc + 4 + d
  {
  }

  /** A word-aligned distance within the range of a 16-bit word offset survives being
      cut to the offset field and sign-extended back. */
  lemma WordOffsetRoundTrip(d: bv32)
    requires d & 3 == 0 && (d < 0x2_0000 || d >= 0xFFFE_0000)
    ensures OffsetBytes(BranchOffset(d)) == d
  {
    if d < 0x2_0000 {
      ForwardOffsetRoundTrip(d);
    } else {
      BackwardOffsetRoundTrip(d);
    }
  }

  lemma ForwardOffsetRoundTrip(d: bv32)
    requires d & 3 == 0 && d < 0x2_0000
    ensures OffsetBytes(BranchOffset(d)) == d
  {
  }

  lemma BackwardOffsetRoundTrip(d: bv32)
    requires d & 3 == 0 && d >= 0xFFFE_0000
    ensures OffsetBytes(BranchOffset(d)) == d
  {
  }

  /** The immediate field of an I-type encoding is the immediate it was built from. */
  lemma ImmediateOfEncodeI(op: bv6, rs: bv5, rt: bv5, off: bv16)
    ensures Imm16(EncodeI(op, rs, rt, off)) == off
  {
    ImmediateField(EncodeI(op, rs, rt, off), op, rs, rt, off);
  }

  lemma ImmediateField(instr: bv32, op: bv6, rs: bv5, rt: bv5, off: bv16)
    requires instr == ((op as bv32) << 26) | ((rs as bv32) << 21) | ((rt as bv32) << 16) | (off as bv32)
    ensures (instr & 0xFFFF) as bv16 == off
  {
  }

  // ----- One cycle's wires

  /** Everything simulateStructure computes before it writes anything. */
  datatype Wires = Wires(
    dc: Signals, ec: Signals, mc: Signals, wc: Signals,
    wWd: bv32, storeValue: bv32, mWd: bv32,
    aluA: bv32, aluB: bv32, aluRes: bv32,
    dRd1: bv32, dRd2: bv32,
    stall: bool, branchCondition: bool,
    npc: bv32, branchTaken: bool,
    fPc: bv32, fInstr: bv32)

  /** W_WD: jal writes its return address W_pc+8, a load (opcode 0x23) the loaded word,
      anything else the ALU result. */
  function WriteBackValue(w: MemWbValue, wc: Signals): bv32 {
    if wc.jumpAndLink then w.wPc + 8
    else if wc.opCode == OP_LW then w.wDmRead
    else w.wAluAns
  }

  /** M_WD: the value the memory stage forwards: jal's return address or the ALU result. */
  function MemForwardValue(m: ExMemValue, mc: Signals): bv32 {
    if mc.jumpAndLink then m.mPc + 8 else m.mAluAns
  }

  function MemProducer(m: ExMemValue, mc: Signals): Producer {
    Producer(mc.writeRegDst, mc.grfWe, MemForwardValue(m, mc))
  }

  function WbProducer(w: MemWbValue, wc: Signals): Producer {
    Producer(wc.writeRegDst, wc.grfWe, WriteBackValue(w, wc))
  }

  /** The combinational evaluation of one cycle from the latch contents and the
      architectural state at its start. */
  function Combinational(b: Bank, a: ArchState): Wires {
    var dc := Decode(b.ifId.dInstr);
    var ec := Decode(b.idEx.eInstr);
    var mc := Decode(b.exMem.mInstr);
    var wc := Decode(b.memWb.wInstr);
    var mp := MemProducer(b.exMem, mc);
    var wp := WbProducer(b.memWb, wc);
    var aluA := ForwardEx(ec.rs, b.idEx.eRd1, mp, wp);
    var aluB := ForwardEx(ec.rt, b.idEx.eRd2, mp, wp);
    var operandB := if ec.aluSrc then b.idEx.eExt else aluB;
    var dRd1 := ForwardId(dc.rs, a.GetValue(dc.rs), mp, wp);
    var dRd2 := ForwardId(dc.rt, a.GetValue(dc.rt), mp, wp);
    var next := NextPc(dc.npcOp, b.ifId.dPc, b.ifId.dInstr, dRd1, dRd2, a.pc);
    Wires(
      dc := dc, ec := ec, mc := mc, wc := wc,
      wWd := wp.value,
      storeValue := StoreForward(mc.rt, b.exMem.mRd2, wp),
      mWd := mp.value,
      aluA := aluA, aluB := aluB,
      aluRes := Alu(ec.aluOp, aluA, operandB, ec.shamt),
      dRd1 := dRd1, dRd2 := dRd2,
      stall := StallFor(dc, ec, mc, wc),
      branchCondition := dRd1 == dRd2,
      npc := next.npc, branchTaken := next.branchTaken,
      fPc := a.pc, fInstr := a.FetchInstruction(a.pc))
  }

  /** The ALU's second operand is the latched immediate exactly for ori, lui, lw and sw;
      otherwise it is the forwarded rt. */
  lemma AluOperandSelection(b: Bank, a: ArchState)
    ensures var w := Combinational(b, a);
      var m := Classify(b.idEx.eInstr);
      w.aluRes == Alu(w.ec.aluOp, w.aluA, if m in {ORI, LUI, LW, SW} then b.idEx.eExt else w.aluB, w.ec.shamt)
  {
    DecodeMatchesTable(b.idEx.eInstr);
  }

  /** A bubble-filled pipeline forwards nothing, computes nothing and never stalls; the
      decode stage of a bubble reads register 0 on both ports. */
  lemma BubbleBankIsQuiet(a: ArchState)
    ensures var w := Combinational(BUBBLE_BANK, a);
      && !w.stall && w.wc.writeRegDst == 0 && w.mc.writeRegDst == 0
      && !w.mc.dmWe && w.mc.tNewM == 0 && w.dRd1 == 0 && w.dRd2 == 0
      && !w.branchTaken && w.npc == a.pc + 4
  {
    BubbleDecodesAsSll();
    DecodeMatchesTable(0);
  }
}
