/** The four pipeline latches (PipelineRegisters): IF/ID, ID/EX, EX/MEM and MEM/WB.
    Each latch is an object whose fields are overwritten in place; a value type per
    latch gives its contents, so that snapshots and specifications can talk about them. */
module Latches {

  // ----- Latch contents as values

  datatype IfIdValue = IfIdValue(dPc: bv32, dInstr: bv32, stepId: int)

  datatype IdExValue = IdExValue(
    ePc: bv32, eInstr: bv32, eRd1: bv32, eRd2: bv32, eExt: bv32, eZero: bool, stepId: int)

  datatype ExMemValue = ExMemValue(
    mPc: bv32, mInstr: bv32, mRd2: bv32, mAluAns: bv32, mZero: bool, stepId: int)

  datatype MemWbValue = MemWbValue(
    wPc: bv32, wInstr: bv32, wAluAns: bv32, wDmRead: bv32, wZero: bool, stepId: int)

  /** The contents of all four latches at one instant. */
  datatype Bank = Bank(ifId: IfIdValue, idEx: IdExValue, exMem: ExMemValue, memWb: MemWbValue)

  /** The identifier of a latch that holds no instruction. */
  const NO_STEP: int := -1

  // The bubble (reset) state of each latch: every word 0, every flag false, no instruction.
  const IF_ID_BUBBLE: IfIdValue := IfIdValue(0, 0, NO_STEP)
  const ID_EX_BUBBLE: IdExValue := IdExValue(0, 0, 0, 0, 0, false, NO_STEP)
  const EX_MEM_BUBBLE: ExMemValue := ExMemValue(0, 0, 0, 0, false, NO_STEP)
  const MEM_WB_BUBBLE: MemWbValue := MemWbValue(0, 0, 0, 0, false, NO_STEP)
  const BUBBLE_BANK: Bank := Bank(IF_ID_BUBBLE, ID_EX_BUBBLE, EX_MEM_BUBBLE, MEM_WB_BUBBLE)

  // ----- The latch objects

  class IfId {
    var dPc: bv32
    var dInstr: bv32
    var stepId: int

    function Value(): IfIdValue
      reads this
    {
      IfIdValue(dPc, dInstr, stepId)
    }

    /** A new latch starts as a bubble. */
    constructor ()
      ensures Value() == IF_ID_BUBBLE
    {
      dPc, dInstr, stepId := 0, 0, NO_STEP;
    }

    /** Stores the arguments verbatim, the instruction identifier included. */
    method Update(fPc: bv32, fInstr: bv32, stepId: int)
      modifies this
      ensures Value() == IfIdValue(fPc, fInstr, stepId)
    {
      this.dPc := fPc;
      this.dInstr := fInstr;
      this.stepId := stepId;
    }

    method Reset()
      modifies this
      ensures Value() == IF_ID_BUBBLE
    {
      dPc := 0;
      dInstr := 0;
      stepId := NO_STEP;
    }
  }

  class IdEx {
    var ePc: bv32
    var eInstr: bv32
    var eRd1: bv32
    var eRd2: bv32
    var eExt: bv32
    var eZero: bool
    var stepId: int

    function Value(): IdExValue
      reads this
    {
      IdExValue(ePc, eInstr, eRd1, eRd2, eExt, eZero, stepId)
    }

    constructor ()
      ensures Value() == ID_EX_BUBBLE
    {
      ePc, eInstr, eRd1, eRd2, eExt, eZero, stepId := 0, 0, 0, 0, 0, false, NO_STEP;
    }

    method Update(dPc: bv32, dInstr: bv32, dRd1: bv32, dRd2: bv32, dExt: bv32, dZero: bool, stepId: int)
      modifies this
      ensures Value() == IdExValue(dPc, dInstr, dRd1, dRd2, dExt, dZero, stepId)
    {
      this.ePc := dPc;
      this.eInstr := dInstr;
      this.eRd1 := dRd1;
      this.eRd2 := dRd2;
      this.eExt := dExt;
      this.eZero := dZero;
      this.stepId := stepId;
    }

    method Reset()
      modifies this
      ensures Value() == ID_EX_BUBBLE
    {
      ePc := 0;
      eInstr := 0;
      eRd1 := 0;
      eRd2 := 0;
      eExt := 0;
      eZero := false;
      stepId := NO_STEP;
    }
  }

  class ExMem {
    var mPc: bv32
    var mInstr: bv32
    var mRd2: bv32
    var mAluAns: bv32
    var mZero: bool
    var stepId: int

    function Value(): ExMemValue
      reads this
    {
      ExMemValue(mPc, mInstr, mRd2, mAluAns, mZero, stepId)
    }

    constructor ()
      ensures Value() == EX_MEM_BUBBLE
    {
      mPc, mInstr, mRd2, mAluAns, mZero, stepId := 0, 0, 0, 0, false, NO_STEP;
    }

    method Update(ePc: bv32, eInstr: bv32, eRd2: bv32, eAluAns: bv32, eZero: bool, stepId: int)
      modifies this
      ensures Value() == ExMemValue(ePc, eInstr, eRd2, eAluAns, eZero, stepId)
    {
      this.mPc := ePc;
      this.mInstr := eInstr;
      this.mRd2 := eRd2;
      this.mAluAns := eAluAns;
      this.mZero := eZero;
      this.stepId := stepId;
    }

    method Reset()
      modifies this
      ensures Value() == EX_MEM_BUBBLE
    {
      mPc := 0;
      mInstr := 0;
      mRd2 := 0;
      mAluAns := 0;
      mZero := false;
      stepId := NO_STEP;
    }
  }

  class MemWb {
    var wPc: bv32
    var wInstr: bv32
    var wAluAns: bv32
    var wDmRead: bv32
    var wZero: bool
    var stepId: int

    function Value(): MemWbValue
      reads this
    {
      MemWbValue(wPc, wInstr, wAluAns, wDmRead, wZero, stepId)
    }

    constructor ()
      ensures Value() == MEM_WB_BUBBLE
    {
      wPc, wInstr, wAluAns, wDmRead, wZero, stepId := 0, 0, 0, 0, false, NO_STEP;
    }

    method Update(mPc: bv32, mInstr: bv32, mAluAns: bv32, mDmRead: bv32, mZero: bool, stepId: int)
      modifies this
      ensures Value() == MemWbValue(mPc, mInstr, mAluAns, mDmRead, mZero, stepId)
    {
      this.wPc := mPc;
      this.wInstr := mInstr;
      this.wAluAns := mAluAns;
      this.wDmRead := mDmRead;
      this.wZero := mZero;
      this.stepId := stepId;
    }

    method Reset()
      modifies this
      ensures Value() == MEM_WB_BUBBLE
    {
      wPc := 0;
      wInstr := 0;
      wAluAns := 0;
      wDmRead := 0;
      wZero := false;
      stepId := NO_STEP;
    }
  }

  /** The bank of four latch instances the simulator uses. */
  class PipelineRegisters {
    const ifId: IfId
    const idEx: IdEx
    const exMem: ExMem
    const memWb: MemWb

    function Contents(): Bank
      reads this, ifId, idEx, exMem, memWb
    {
      Bank(ifId.Value(), idEx.Value(), exMem.Value(), memWb.Value())
    }

    constructor ()
      ensures Contents() == BUBBLE_BANK
      ensures fresh(ifId) && fresh(idEx) && fresh(exMem) && fresh(memWb)
    {
      ifId := new IfId();
      idEx := new IdEx();
      exMem := new ExMem();
      memWb := new MemWb();
    }

    /** resetAll: every latch becomes a bubble, whatever it held (so it is idempotent). */
    method ResetAll()
      modifies ifId, idEx, exMem, memWb
      ensures Contents() == BUBBLE_BANK
    {
      ifId.Reset();
      idEx.Reset();
      exMem.Reset();
      memWb.Reset();
    }
  }
}
