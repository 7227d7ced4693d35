/** The control decoder of the five-stage pipeline (PipelineController):
    a total, pure map from a 32-bit instruction word to its control signals. */
module Controller {

  /** Next-PC selector (NPC_NORMAL = 0, NPC_JUMP = 1, NPC_JR = 2, NPC_BRANCH = 3). */
  datatype NpcOp = NpcNormal | NpcJump | NpcJr | NpcBranch

  /** ALU operation (ALU_ADD = 0, ALU_SUB = 1, ALU_ORI = 2, ALU_SLL = 3, ALU_LUI = 4). */
  datatype AluOp = AluAdd | AluSub | AluOri | AluSll | AluLui

  /** Immediate extension mode (ext_op: 0 zero extension, 1 sign extension). */
  datatype ExtOp = ZeroExt | SignExt

  /** The control-signal record. The field slices are plain numbers; the timing tags
      are the "time of use" of rs and rt and the "time of new" of the result in the
      execute, memory and writeback stages (0 decode, 1 execute, 2 memory, 3 unused). */
  datatype Signals = Signals(
    opCode: bv6, funcCode: bv6,
    rs: bv5, rt: bv5, rd: bv5, shamt: bv5,
    imm16: bv16, imm26: bv26,
    npcOp: NpcOp, aluOp: AluOp,
    grfWe: bool, dmWe: bool,
    extOp: ExtOp, aluSrc: bool,
    tUseRs: int, tUseRt: int,
    tNewE: int, tNewM: int, tNewW: int,
    jumpAndLink: bool,
    writeRegDst: bv5)

  // Opcodes and function codes recognised by the decoder.
  const OP_SPECIAL: bv6 := 0x00
  const FUNC_ADD: bv6 := 0x20
  const FUNC_SUB: bv6 := 0x22
  const FUNC_SLL: bv6 := 0x00
  const FUNC_JR: bv6 := 0x08
  const OP_ORI: bv6 := 0x0D
  const OP_LUI: bv6 := 0x0F
  const OP_BEQ: bv6 := 0x04
  const OP_LW: bv6 := 0x23
  const OP_SW: bv6 := 0x2B
  const OP_J: bv6 := 0x02
  const OP_JAL: bv6 := 0x03

  /** The link register written by jal. */
  const RA: bv5 := 31

  // ----- Field slices (bits 31..26, 5..0, 25..21, 20..16, 15..11, 10..6, 15..0, 25..0)

  function OpCode(instr: bv32): bv6 {
    ((instr >> 26) & 0x3F) as bv6
  }

  function FuncCode(instr: bv32): bv6 {
    (instr & 0x3F) as bv6
  }

  function Rs(instr: bv32): bv5 {
    ((instr >> 21) & 0x1F) as bv5
  }

  function Rt(instr: bv32): bv5 {
    ((instr >> 16) & 0x1F) as bv5
  }

  function Rd(instr: bv32): bv5 {
    ((instr >> 11) & 0x1F) as bv5
  }

  function Shamt(instr: bv32): bv5 {
    ((instr >> 6) & 0x1F) as bv5
  }

  function Imm16(instr: bv32): bv16 {
    (instr & 0xFFFF) as bv16
  }

  function Imm26(instr: bv32): bv26 {
    (instr & 0x3FF_FFFF) as bv26
  }

  /** decode(int): slices the fields, recognises the eleven instructions by
      opcode and function code, and fills the signals through if-chains. */
  function Decode(instr: bv32): (s: Signals)
    ensures s.writeRegDst != 0 ==> s.grfWe
    ensures 0 <= s.tUseRs <= 3 && 0 <= s.tUseRt <= 3
    ensures 0 <= s.tNewE <= 2 && 0 <= s.tNewM <= 1 && s.tNewW == 0
  {
    var opCode := OpCode(instr);
    var funcCode := FuncCode(instr);
    var rs := Rs(instr);
    var rt := Rt(instr);
    var rd := Rd(instr);

    var add := opCode == OP_SPECIAL && funcCode == FUNC_ADD;
    var sub := opCode == OP_SPECIAL && funcCode == FUNC_SUB;
    var sll := opCode == OP_SPECIAL && funcCode == FUNC_SLL;
    var jr := opCode == OP_SPECIAL && funcCode == FUNC_JR;
    var ori := opCode == OP_ORI;
    var lui := opCode == OP_LUI;
    var beq := opCode == OP_BEQ;
    var lw := opCode == OP_LW;
    var sw := opCode == OP_SW;
    var j := opCode == OP_J;
    var jal := opCode == OP_JAL;

    Signals(
      opCode := opCode, funcCode := funcCode,
      rs := rs, rt := rt, rd := rd, shamt := Shamt(instr),
      imm16 := Imm16(instr), imm26 := Imm26(instr),
      npcOp :=
        if add || sub || sll || ori || lui || lw || sw then NpcNormal
        else if j || jal then NpcJump
        else if jr then NpcJr
        else if beq then NpcBranch
        else NpcNormal,
      aluOp :=
        if sub then AluSub
        else if sll then AluSll
        else if ori then AluOri
        else if lui then AluLui
        else AluAdd,
      grfWe := add || sub || sll || ori || lui || lw || jal,
      dmWe := sw,
      extOp := if lw || sw || beq then SignExt else ZeroExt,
      aluSrc := ori || lui || lw || sw,
      tUseRs :=
        if add || sub || ori || lw || sw then 1
        else if beq || jr then 0
        else 3,
      tUseRt :=
        if add || sub || sll then 1
        else if sw then 2
        else if beq then 0
        else 3,
      tNewE :=
        if add || sub || sll || ori || lui then 1
        else if lw then 2
        else 0,
      tNewM := if lw then 1 else 0,
      tNewW := 0,
      jumpAndLink := jal,
      writeRegDst :=
        if add || sub || sll then rd
        else if ori || lui || lw then rt
        else if jal then RA
        else 0)
  }

  // ----- An independent reference: the instruction table

  /** The instruction an encoding denotes, found by matching opcode and function code. */
  datatype Mnemonic = ADD | SUB | SLL | JR | ORI | LUI | BEQ | LW | SW | J | JAL | Unknown

  function Classify(instr: bv32): Mnemonic {
    match OpCode(instr)
    case 0x00 =>
      (match FuncCode(instr)
       case 0x20 => ADD
       case 0x22 => SUB
       case 0x00 => SLL
       case 0x08 => JR
       case _ => Unknown)
    case 0x0D => ORI
    case 0x0F => LUI
    case 0x04 => BEQ
    case 0x23 => LW
    case 0x2B => SW
    case 0x02 => J
    case 0x03 => JAL
    case _ => Unknown
  }

  /** Which register an instruction writes. */
  datatype DstSel = DstRd | DstRt | DstRa | DstNone

  /** The control part of the signals, as one row per instruction. */
  datatype Control = Control(
    npcOp: NpcOp, aluOp: AluOp, grfWe: bool, dmWe: bool, extOp: ExtOp, aluSrc: bool,
    tUseRs: int, tUseRt: int, tNewE: int, tNewM: int, jumpAndLink: bool, dst: DstSel)

  /** The pipeline's instruction table, written row by row (an unknown encoding is inert). */
  function Table(m: Mnemonic): Control {
    match m
    //               npc         alu     we     mem    ext      src    rs rt  E  M  link   dst
    case ADD     => Control(NpcNormal, AluAdd, true,  false, ZeroExt, false, 1, 1, 1, 0, false, DstRd)
    case SUB     => Control(NpcNormal, AluSub, true,  false, ZeroExt, false, 1, 1, 1, 0, false, DstRd)
    case SLL     => Control(NpcNormal, AluSll, true,  false, ZeroExt, false, 3, 1, 1, 0, false, DstRd)
    case JR      => Control(NpcJr,     AluAdd, false, false, ZeroExt, false, 0, 3, 0, 0, false, DstNone)
    case ORI     => Control(NpcNormal, AluOri, true,  false, ZeroExt, true,  1, 3, 1, 0, false, DstRt)
    case LUI     => Control(NpcNormal, AluLui, true,  false, ZeroExt, true,  3, 3, 1, 0, false, DstRt)
    case BEQ     => Control(NpcBranch, AluAdd, false, false, SignExt, false, 0, 0, 0, 0, false, DstNone)
    case LW      => Control(NpcNormal, AluAdd, true,  false, SignExt, true,  1, 3, 2, 1, false, DstRt)
    case SW      => Control(NpcNormal, AluAdd, false, true,  SignExt, true,  1, 2, 0, 0, false, DstNone)
    case J       => Control(NpcJump,   AluAdd, false, false, ZeroExt, false, 3, 3, 0, 0, false, DstNone)
    case JAL     => Control(NpcJump,   AluAdd, true,  false, ZeroExt, false, 3, 3, 0, 0, true,  DstRa)
    case Unknown => Control(NpcNormal, AluAdd, false, false, ZeroExt, false, 3, 3, 0, 0, false, DstNone)
  }

  function DstRegister(d: DstSel, instr: bv32): bv5 {
    match d
    case DstRd => Rd(instr)
    case DstRt => Rt(instr)
    case DstRa => RA
    case DstNone => 0
  }

  /** The decoder agrees with the instruction table on every word: its field slices are
      the word's bit fields and every control signal is the table's entry for the word's
      instruction. */
  lemma DecodeMatchesTable(instr: bv32)
    ensures var s, c := Decode(instr), Table(Classify(instr));
      && s.opCode == OpCode(instr) && s.funcCode == FuncCode(instr)
      && s.rs == Rs(instr) && s.rt == Rt(instr) && s.rd == Rd(instr) && s.shamt == Shamt(instr)
      && s.imm16 == Imm16(instr) && s.imm26 == Imm26(instr)
      && s.npcOp == c.npcOp && s.aluOp == c.aluOp && s.grfWe == c.grfWe && s.dmWe == c.dmWe
      && s.extOp == c.extOp && s.aluSrc == c.aluSrc
      && s.tUseRs == c.tUseRs && s.tUseRt == c.tUseRt
      && s.tNewE == c.tNewE && s.tNewM == c.tNewM && s.tNewW == 0
      && s.jumpAndLink == c.jumpAndLink
      && s.writeRegDst == DstRegister(c.dst, instr)
  {
  }

  /** An unrecognised opcode or function code decodes to the inert signal set. */
  lemma UnknownIsInert(instr: bv32)
    requires Classify(instr) == Unknown
    ensures var s := Decode(instr);
      && !s.grfWe && !s.dmWe && !s.jumpAndLink
      && s.aluOp == AluAdd && s.npcOp == NpcNormal
      && s.tUseRs == 3 && s.tUseRt == 3 && s.tNewE == 0 && s.tNewM == 0
      && s.writeRegDst == 0
  {
    DecodeMatchesTable(instr);
  }

  /** The single-instruction flags. */
  lemma FlagsIdentifyInstructions(instr: bv32)
    ensures var s, m := Decode(instr), Classify(instr);
      && (s.dmWe <==> m == SW)
      && (s.jumpAndLink <==> m == JAL)
      && (s.aluSrc <==> m in {ORI, LUI, LW, SW})
      && (s.extOp == SignExt <==> m in {LW, SW, BEQ})
      && (s.tNewM == 1 <==> m == LW)
      && (s.grfWe <==> m in {ADD, SUB, SLL, ORI, LUI, LW, JAL})
  {
    DecodeMatchesTable(instr);
  }

  /** The next-PC class of each instruction. */
  lemma NpcByInstruction(instr: bv32)
    ensures var s, m := Decode(instr), Classify(instr);
      && (s.npcOp == NpcJump <==> m in {J, JAL})
      && (s.npcOp == NpcJr <==> m == JR)
      && (s.npcOp == NpcBranch <==> m == BEQ)
      && (s.npcOp == NpcNormal <==> m !in {J, JAL, JR, BEQ})
  {
    DecodeMatchesTable(instr);
  }

  /** The destination register: rd for add/sub/sll, rt for ori/lui/lw, 31 for jal, 0 otherwise. */
  lemma WriteRegDstByInstruction(instr: bv32)
    ensures var s, m := Decode(instr), Classify(instr);
      && (m in {ADD, SUB, SLL} ==> s.writeRegDst == Rd(instr))
      && (m in {ORI, LUI, LW} ==> s.writeRegDst == Rt(instr))
      && (m == JAL ==> s.writeRegDst == 31)
      && (m in {JR, BEQ, SW, J, Unknown} ==> s.writeRegDst == 0)
  {
    DecodeMatchesTable(instr);
  }

  /** The all-zero word, a pipeline bubble, is "sll $0, $0, 0": it writes register 0 only,
      so it is never a forwarding or hazard source, and it produces nothing in time. */
  lemma BubbleDecodesAsSll()
    ensures Classify(0) == SLL
    ensures var s := Decode(0);
      && s.writeRegDst == 0 && s.rs == 0 && s.rt == 0 && s.rd == 0
      && !s.dmWe && !s.jumpAndLink && s.npcOp == NpcNormal
  {
  }

  // ----- Encoders: the field layout read backwards

  /** An R-type word: opcode 0, rs, rt, rd, shamt, function code. */
  function EncodeR(rs: bv5, rt: bv5, rd: bv5, shamt: bv5, funct: bv6): bv32 {
    ((rs as bv32) << 21) | ((rt as bv32) << 16) | ((rd as bv32) << 11)
      | ((shamt as bv32) << 6) | (funct as bv32)
  }

  /** An I-type word: opcode, rs, rt, 16-bit immediate. */
  function EncodeI(op: bv6, rs: bv5, rt: bv5, imm: bv16): bv32 {
    ((op as bv32) << 26) | ((rs as bv32) << 21) | ((rt as bv32) << 16) | (imm as bv32)
  }

  /** A J-type word: opcode and 26-bit target. */
  function EncodeJ(op: bv6, target: bv26): bv32 {
    ((op as bv32) << 26) | (target as bv32)
  }

  /** Decoding an R-type encoding gives back each of its fields. */
  lemma DecodeEncodeR(rs: bv5, rt: bv5, rd: bv5, shamt: bv5, funct: bv6)
    ensures var s := Decode(EncodeR(rs, rt, rd, shamt, funct));
      && s.opCode == 0 && s.rs == rs && s.rt == rt && s.rd == rd
      && s.shamt == shamt && s.funcCode == funct
  {
  }

  /** Decoding an I-type encoding gives back each of its fields. */
  lemma DecodeEncodeI(op: bv6, rs: bv5, rt: bv5, imm: bv16)
    ensures var s := Decode(EncodeI(op, rs, rt, imm));
      s.opCode == op && s.rs == rs && s.rt == rt && s.imm16 == imm
  {
  }

  /** Decoding a J-type encoding gives back each of its fields. */
  lemma DecodeEncodeJ(op: bv6, target: bv26)
    ensures var s := Decode(EncodeJ(op, target));
      s.opCode == op && s.imm26 == target
  {
  }
}
