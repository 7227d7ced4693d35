/** The stall unit (HazardUnit): the "time of use versus time of new" test that decides
    whether the instruction in decode must wait one cycle. */
module HazardUnit {
  import opened Controller

  /** One producer/consumer pair: the consumer reads register src at time tUse, the
      producer writes register dst and has its result only at time tNew. */
  predicate PairHazard(tUse: int, src: bv5, tNew: int, dst: bv5) {
    (tUse < tNew) && (src == dst) && (dst != 0)
  }

  /** checkStall: rs and rt of the decode stage against the execute-stage and
      memory-stage destinations. The writeback stage's tag is taken but never read. */
  predicate CheckStall(
    tUseRs: int, tUseRt: int,
    tNewE: int, tNewM: int, tNewW: int,
    dRs: bv5, dRt: bv5,
    eA3: bv5, mA3: bv5)
  {
    var rsEHazard := (tUseRs < tNewE) && (dRs == eA3) && (eA3 != 0);
    var rtEHazard := (tUseRt < tNewE) && (dRt == eA3) && (eA3 != 0);
    var deStall := rsEHazard || rtEHazard;
    var rsMHazard := (tUseRs < tNewM) && (dRs == mA3) && (mA3 != 0);
    var rtMHazard := (tUseRt < tNewM) && (dRt == mA3) && (mA3 != 0);
    var dmStall := rsMHazard || rtMHazard;
    deStall || dmStall
  }

  /** No stall is needed exactly when, for each source operand (rs, rt) and each producer
      (execute, memory) that writes the same non-zero register, the operand is used no
      earlier than the producer's result is new. */
  lemma NoStallIffEveryPairInTime(
    tUseRs: int, tUseRt: int, tNewE: int, tNewM: int, tNewW: int,
    dRs: bv5, dRt: bv5, eA3: bv5, mA3: bv5)
    ensures var tUse, src, tNew, dst := [tUseRs, tUseRt], [dRs, dRt], [tNewE, tNewM], [eA3, mA3];
      !CheckStall(tUseRs, tUseRt, tNewE, tNewM, tNewW, dRs, dRt, eA3, mA3)
      <==> (forall i, k :: 0 <= i < 2 && 0 <= k < 2 && src[i] == dst[k] && dst[k] != 0 ==> tNew[k] <= tUse[i])
  {
    var tUse, src, tNew, dst := [tUseRs, tUseRt], [dRs, dRt], [tNewE, tNewM], [eA3, mA3];
    if CheckStall(tUseRs, tUseRt, tNewE, tNewM, tNewW, dRs, dRt, eA3, mA3) {
      var ik :=
        if PairHazard(tUseRs, dRs, tNewE, eA3) then (0, 0)
        else if PairHazard(tUseRt, dRt, tNewE, eA3) then (1, 0)
        else if PairHazard(tUseRs, dRs, tNewM, mA3) then (0, 1)
        else (1, 1);
      var i, k := ik.0, ik.1;
      assert src[i] == dst[k] && dst[k] != 0 && tUse[i] < tNew[k];
    }
  }

  /** Register 0 is never a hazard source. */
  lemma RegisterZeroNeverStalls(
    tUseRs: int, tUseRt: int, tNewE: int, tNewM: int, tNewW: int, dRs: bv5, dRt: bv5)
    ensures !CheckStall(tUseRs, tUseRt, tNewE, tNewM, tNewW, dRs, dRt, 0, 0)
  {
  }

  /** The writeback stage's timing tag has no influence on the decision. */
  lemma IgnoresWritebackTag(
    tUseRs: int, tUseRt: int, tNewE: int, tNewM: int, tNewW: int, tNewW': int,
    dRs: bv5, dRt: bv5, eA3: bv5, mA3: bv5)
    ensures CheckStall(tUseRs, tUseRt, tNewE, tNewM, tNewW, dRs, dRt, eA3, mA3)
        == CheckStall(tUseRs, tUseRt, tNewE, tNewM, tNewW', dRs, dRt, eA3, mA3)
  {
  }

  /** rs and rt play symmetric roles. */
  lemma OperandSymmetry(
    tUseRs: int, tUseRt: int, tNewE: int, tNewM: int, tNewW: int,
    dRs: bv5, dRt: bv5, eA3: bv5, mA3: bv5)
    ensures CheckStall(tUseRs, tUseRt, tNewE, tNewM, tNewW, dRs, dRt, eA3, mA3)
        == CheckStall(tUseRt, tUseRs, tNewE, tNewM, tNewW, dRt, dRs, eA3, mA3)
  {
  }

  /** Using an operand earlier can only add stalls; producing later can only add stalls. */
  lemma StallMonotone(
    tUseRs: int, tUseRt: int, tNewE: int, tNewM: int, tNewW: int,
    dRs: bv5, dRt: bv5, eA3: bv5, mA3: bv5,
    tUseRs': int, tUseRt': int, tNewE': int, tNewM': int)
    requires tUseRs' <= tUseRs && tUseRt' <= tUseRt && tNewE <= tNewE' && tNewM <= tNewM'
    requires CheckStall(tUseRs, tUseRt, tNewE, tNewM, tNewW, dRs, dRt, eA3, mA3)
    ensures CheckStall(tUseRs', tUseRt', tNewE', tNewM', tNewW, dRs, dRt, eA3, mA3)
  {
  }

  /** The stall test on the signals the decoder gives the decode, execute, memory and
      writeback stages, as the engine calls it. */
  predicate StallFor(d: Signals, e: Signals, m: Signals, w: Signals) {
    CheckStall(d.tUseRs, d.tUseRt, e.tNewE, m.tNewM, w.tNewW, d.rs, d.rt, e.writeRegDst, m.writeRegDst)
  }

  /** With decoder tags, an operand that is "not used" (time 3) never causes a stall,
      because no producer's time of new exceeds 2: the verdict is then decided by the
      other operand alone, and with both unused there is no stall. */
  lemma UnusedOperandNeverStalls(dInstr: bv32, eInstr: bv32, mInstr: bv32, wInstr: bv32)
    ensures var d, e, m := Decode(dInstr), Decode(eInstr), Decode(mInstr);
      var stall := StallFor(d, e, m, Decode(wInstr));
      && (d.tUseRs == 3 ==>
            (stall <==> PairHazard(d.tUseRt, d.rt, e.tNewE, e.writeRegDst) || PairHazard(d.tUseRt, d.rt, m.tNewM, m.writeRegDst)))
      && (d.tUseRt == 3 ==>
            (stall <==> PairHazard(d.tUseRs, d.rs, e.tNewE, e.writeRegDst) || PairHazard(d.tUseRs, d.rs, m.tNewM, m.writeRegDst)))
      && (d.tUseRs == 3 && d.tUseRt == 3 ==> !stall)
  {
  }

  /** An instruction that never writes a register (or writes register 0) in the execute
      and memory stages never stalls decode: j, jr, beq, sw and bubbles are harmless.  */
  lemma NonWritersNeverStall(dInstr: bv32, eInstr: bv32, mInstr: bv32, wInstr: bv32)
    requires Decode(eInstr).writeRegDst == 0 && Decode(mInstr).writeRegDst == 0
    ensures !StallFor(Decode(dInstr), Decode(eInstr), Decode(mInstr), Decode(wInstr))
  {
  }

  /** Load-use: lw in execute (its result is new at time 2) stalls every consumer that
      reads its destination before the memory stage, on either operand (time of use 0 or
      1); with nothing writing in the memory stage that is exactly when it stalls. So
      add, sub, ori, lw and sw stall on rs, add, sub and sll on rt, and sw storing the
      loaded register as rt does not stall (its data is forwarded later). */
  lemma LoadUseStalls(lw: bv32, user: bv32, mInstr: bv32, wInstr: bv32)
    requires Classify(lw) == LW && Rt(lw) != 0
    ensures var d := Decode(user);
      var stall := StallFor(d, Decode(lw), Decode(mInstr), Decode(wInstr));
      var early := (Rs(user) == Rt(lw) && d.tUseRs < 2) || (Rt(user) == Rt(lw) && d.tUseRt < 2);
      && (early ==> stall)
      && (Decode(mInstr).writeRegDst == 0 ==> (stall <==> early))
      && (Classify(user) in {ADD, SUB, ORI, LW, SW} && Rs(user) == Rt(lw) ==> stall)
      && (Classify(user) in {ADD, SUB, SLL} && Rt(user) == Rt(lw) ==> stall)
      && (Classify(user) == SW && Rs(user) != Rt(lw) && Decode(mInstr).writeRegDst == 0 ==> !stall)
  {
    DecodeMatchesTable(lw);
    DecodeMatchesTable(user);
  }

  /** ALU-use: an ALU result in execute is new at time 1 and reaches every consumer other
      than a branch or jr (all of which use their operands at time 1 or later) by
      forwarding, and no memory-stage result is new later than time 1, so e.g. ori
      followed by a dependent add does not stall. */
  lemma AluUseDoesNotStall(producer: bv32, user: bv32, mInstr: bv32, wInstr: bv32)
    requires Classify(producer) in {ADD, SUB, SLL, ORI, LUI}
    requires Classify(user) !in {BEQ, JR}
    ensures !StallFor(Decode(user), Decode(producer), Decode(mInstr), Decode(wInstr))
  {
    DecodeMatchesTable(producer);
    DecodeMatchesTable(user);
  }

  /** Branch/jr-use: beq and jr read rs in decode, and beq reads rt there too, so they
      stall on an ALU producer of either register in execute. */
  lemma BranchStallsOnAluProducer(producer: bv32, user: bv32, mInstr: bv32, wInstr: bv32)
    requires Classify(producer) in {ADD, SUB, SLL, ORI, LUI}
    requires Classify(user) in {BEQ, JR}
    requires Decode(producer).writeRegDst != 0
    requires Rs(user) == Decode(producer).writeRegDst
          || (Classify(user) == BEQ && Rt(user) == Decode(producer).writeRegDst)
    ensures StallFor(Decode(user), Decode(producer), Decode(mInstr), Decode(wInstr))
  {
    DecodeMatchesTable(producer);
    DecodeMatchesTable(user);
  }

  /** A load in the memory stage still stalls a branch or jr that reads its destination
      in decode, and nothing else. */
  lemma LoadInMemoryStallsOnlyDecodeReaders(lw: bv32, user: bv32, eInstr: bv32, wInstr: bv32)
    requires Classify(lw) == LW && Rt(lw) != 0
    requires Decode(eInstr).writeRegDst == 0
    requires Rs(user) == Rt(lw) || Rt(user) == Rt(lw)
    ensures StallFor(Decode(user), Decode(eInstr), Decode(lw), Decode(wInstr))
      <==> ((Rs(user) == Rt(lw) && Decode(user).tUseRs == 0)
         || (Rt(user) == Rt(lw) && Decode(user).tUseRt == 0))
  {
    DecodeMatchesTable(lw);
  }
}
