/** The hazard report shown for the current latch contents (updateHazardInfo): whether
    the decode stage stalls, which stage and register cause the stall, and which operand
    multiplexers forward from which later stage. */
module Report {
  import opened Controller
  import opened Latches
  import opened HazardUnit
  import opened Datapath
  import opened History

  /** The forwarding destinations ("ID_RS", "ID_RT", "EX_RS", "EX_RT", "MEM_RT"). */
  datatype ForwardKey = ID_RS | ID_RT | EX_RS | EX_RT | MEM_RT

  /** A forwarding: the producing stage (MEM or WB) and the register forwarded. */
  datatype ForwardData = ForwardData(srcStage: Stage, regNum: bv5)

  /** HazardInfo. stallSource is EX or MEM while stalled; stallReg is -1 when not stalled. */
  datatype HazardInfo = HazardInfo(
    stalled: bool, stallSource: Option<Stage>, stallReg: int,
    forwardings: map<ForwardKey, ForwardData>)

  /** HazardInfo after clear(), and as first constructed. */
  const CLEARED: HazardInfo := HazardInfo(false, None, -1, map[])

  /** The forwarding the report shows for a decode- or execute-stage operand: from MEM if
      the memory stage writes that register, else from WB, else none (register 0 never). */
  function OperandForward(reg: bv5, mc: Signals, wc: Signals): Option<ForwardData> {
    if reg != 0 then
      if reg == mc.writeRegDst && mc.grfWe then Some(ForwardData(MEM, reg))
      else if reg == wc.writeRegDst && wc.grfWe then Some(ForwardData(WB, reg))
      else None
    else None
  }

  /** The store-data forwarding: only from WB. */
  function StoreDataForward(rt: bv5, wc: Signals): Option<ForwardData> {
    if rt != 0 && rt == wc.writeRegDst && wc.grfWe then Some(ForwardData(WB, rt)) else None
  }

  /** forwardings.put(key, data) when there is something to put. */
  function Put(f: map<ForwardKey, ForwardData>, k: ForwardKey, d: Option<ForwardData>): map<ForwardKey, ForwardData> {
    if d.Some? then f[k := d.value] else f
  }

  function Forwardings(dc: Signals, ec: Signals, mc: Signals, wc: Signals): map<ForwardKey, ForwardData> {
    var f1 := Put(map[], ID_RS, OperandForward(dc.rs, mc, wc));
    var f2 := Put(f1, ID_RT, OperandForward(dc.rt, mc, wc));
    var f3 := Put(f2, EX_RS, OperandForward(ec.rs, mc, wc));
    var f4 := Put(f3, EX_RT, OperandForward(ec.rt, mc, wc));
    Put(f4, MEM_RT, StoreDataForward(mc.rt, wc))
  }

  /** updateHazardInfo on a bank of latches. */
  function HazardReport(b: Bank): HazardInfo {
    SignalReport(Decode(b.ifId.dInstr), Decode(b.idEx.eInstr), Decode(b.exMem.mInstr), Decode(b.memWb.wInstr))
  }

  /** The report, given the control signals of the four latched instructions. */
  function SignalReport(dc: Signals, ec: Signals, mc: Signals, wc: Signals): HazardInfo {
    var stall := StallFor(dc, ec, mc, wc);
    var rsE := PairHazard(dc.tUseRs, dc.rs, ec.tNewE, ec.writeRegDst);
    var rtE := PairHazard(dc.tUseRt, dc.rt, ec.tNewE, ec.writeRegDst);
    var rsM := PairHazard(dc.tUseRs, dc.rs, mc.tNewM, mc.writeRegDst);
    HazardInfo(
      stalled := stall,
      stallSource := if stall then Some(if rsE || rtE then EX else MEM) else None,
      stallReg :=
        if !stall then -1
        else if rsE then dc.rs as int
        else if rtE then dc.rt as int
        else if rsM then dc.rs as int
        else dc.rt as int,
      forwardings := Forwardings(dc, ec, mc, wc))
  }

  /** The report of an all-bubble bank is the cleared report. */
  lemma BubbleReportIsCleared()
    ensures HazardReport(BUBBLE_BANK) == CLEARED
  {
    BubbleDecodesAsSll();
  }

  /** A reported forwarding names exactly the stage whose value the multiplexer passes:
      the value the execute or decode stage uses is that stage's value when the report
      says MEM or WB, and the stored value (0 for register 0) when it shows nothing. */
  lemma OperandForwardIsMuxChoice(reg: bv5, held: bv32, mc: Signals, mp: Producer, wc: Signals, wp: Producer)
    requires mp.dst == mc.writeRegDst && mp.we == mc.grfWe
    requires wp.dst == wc.writeRegDst && wp.we == wc.grfWe
    ensures var f := OperandForward(reg, mc, wc);
      && ForwardEx(reg, held, mp, wp)
           == (if f == Some(ForwardData(MEM, reg)) then mp.value
               else if f == Some(ForwardData(WB, reg)) then wp.value
               else if reg == 0 then 0 else held)
      && (f.Some? ==> f.value.regNum == reg && f.value.srcStage in {MEM, WB})
  {
  }

  /** Likewise for the store data of the memory stage. */
  lemma StoreDataForwardIsMuxChoice(rt: bv5, held: bv32, wc: Signals, wp: Producer)
    requires wp.dst == wc.writeRegDst && wp.we == wc.grfWe
    ensures var f := StoreDataForward(rt, wc);
      StoreForward(rt, held, wp)
        == (if f == Some(ForwardData(WB, rt)) then wp.value else if rt == 0 then 0 else held)
  {
  }

  /** The report says "stalled" exactly when the datapath stalls, whatever the
      architectural state. */
  lemma ReportStallIsDatapathStall(b: Bank, a: Arch.ArchState)
    ensures HazardReport(b).stalled == Combinational(b, a).stall
  {
  }

  /** A reported stall is explained: the stall register is a source register of the
      decode stage, read too early for the named stage's producer, which writes it. */
  lemma StallReportIsExplained(b: Bank)
    requires HazardReport(b).stalled
    ensures var r, dc := HazardReport(b), Decode(b.ifId.dInstr);
      var ec, mc := Decode(b.idEx.eInstr), Decode(b.exMem.mInstr);
      && r.stallSource.Some? && r.stallSource.value in {EX, MEM}
      && 0 < r.stallReg < 32
      && (exists src: bv5, tUse: int ::
            && src as int == r.stallReg
            && ((src == dc.rs && tUse == dc.tUseRs) || (src == dc.rt && tUse == dc.tUseRt))
            && (if r.stallSource.value == EX then PairHazard(tUse, src, ec.tNewE, ec.writeRegDst)
                else PairHazard(tUse, src, mc.tNewM, mc.writeRegDst)))
  {
    var r, dc := HazardReport(b), Decode(b.ifId.dInstr);
    var ec, mc := Decode(b.idEx.eInstr), Decode(b.exMem.mInstr);
    var rsE := PairHazard(dc.tUseRs, dc.rs, ec.tNewE, ec.writeRegDst);
    var rtE := PairHazard(dc.tUseRt, dc.rt, ec.tNewE, ec.writeRegDst);
    var rsM := PairHazard(dc.tUseRs, dc.rs, mc.tNewM, mc.writeRegDst);
    if rsE {
      assert r.stallReg == dc.rs as int;
    } else if rtE {
      assert r.stallReg == dc.rt as int;
    } else if rsM {
      assert r.stallReg == dc.rs as int;
    } else {
      assert r.stallReg == dc.rt as int;
      assert PairHazard(dc.tUseRt, dc.rt, mc.tNewM, mc.writeRegDst);
    }
  }
}
