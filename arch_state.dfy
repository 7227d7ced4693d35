/** The architectural state the pipeline reads and writes but does not own: the register
    file, data memory, program counter, the assembled program (address to statement
    word) and the backstepper. They are foreign classes, so each is a value here with
    just the behaviour the pipeline relies on. */
module Arch {

  /** registers: the general-purpose registers by number (a missing entry reads 0).
      memory: data words by address, the address read as an unsigned number (a missing
      entry reads 0).
      wordAccessible: the addresses at which a word access succeeds (aligned and inside a
      configured segment); anywhere else getWord and setWord throw.
      program: the binary statement stored at each text address (as an unsigned number);
      an address outside the map has no statement, so getStatement returns null there.
      backstepDepth: the backstepper's stack size (one entry per recorded change).
      backStepRawCalls: the counts handed to backStepRaw, oldest first. */
  datatype ArchState = ArchState(
    registers: map<int, bv32>,
    memory: map<int, bv32>,
    wordAccessible: set<bv32>,
    pc: bv32,
    program: map<int, bv32>,
    backstepDepth: int,
    backStepRawCalls: seq<int>)
  {
    /** RegisterFile.getValue. */
    function GetValue(r: bv5): bv32 {
      if r as int in registers then registers[r as int] else 0
    }

    /** RegisterFile.updateRegister: register 0 is never written; any other write leaves
        one undo entry on the backstepper when backstepping is enabled. */
    function UpdateRegister(r: bv5, value: bv32, backstepping: bool): (a: ArchState)
      ensures r != 0 ==> a.GetValue(r) == value
      ensures forall q: bv5 {:trigger a.GetValue(q)} :: q != r ==> a.GetValue(q) == GetValue(q)
      ensures a.GetValue(0) == GetValue(0)
      ensures a.memory == memory && a.wordAccessible == wordAccessible && a.pc == pc && a.program == program
      ensures a.backStepRawCalls == backStepRawCalls
      ensures a.backstepDepth == backstepDepth + if backstepping && r != 0 then 1 else 0
    {
      if r == 0 then this
      else this.(registers := registers[r as int := value],
                 backstepDepth := backstepDepth + if backstepping then 1 else 0)
    }

    /** Memory.getWord. */
    function GetWord(addr: bv32): bv32 {
      if addr as int in memory then memory[addr as int] else 0
    }

    /** Memory.setWord: one undo entry when backstepping is enabled. */
    function SetWord(addr: bv32, value: bv32, backstepping: bool): (a: ArchState)
      ensures a.GetWord(addr) == value
      ensures a.registers == registers && a.wordAccessible == wordAccessible && a.pc == pc && a.program == program
      ensures a.backStepRawCalls == backStepRawCalls
      ensures a.backstepDepth == backstepDepth + if backstepping then 1 else 0
    {
      this.(memory := memory[addr as int := value],
            backstepDepth := backstepDepth + if backstepping then 1 else 0)
    }

    /** setWord changes the word at its address only. */
    lemma SetWordKeepsOtherWords(addr: bv32, value: bv32, backstepping: bool, x: bv32)
      requires x != addr
      ensures SetWord(addr, value, backstepping).GetWord(x) == GetWord(x)
    {
      assert x == (x as int) as bv32 && addr == (addr as int) as bv32;
    }

    /** fetchStatement(address) != null. */
    predicate HasStatement(addr: bv32) {
      addr as int in program
    }

    /** fetchInstruction: the binary statement at the address, 0 where there is none. */
    function FetchInstruction(addr: bv32): (w: bv32)
      ensures w != 0 ==> HasStatement(addr)
    {
      if addr as int in program then program[addr as int] else 0
    }

    /** RegisterFile.setProgramCounter with the backstepper switched off around it, and
        initializeProgramCounter: neither leaves an undo entry. */
    function SetPc(addr: bv32): (a: ArchState)
      ensures a.pc == addr && a.registers == registers && a.memory == memory && a.wordAccessible == wordAccessible
      ensures a.program == program && a.backstepDepth == backstepDepth
      ensures a.backStepRawCalls == backStepRawCalls
    {
      this.(pc := addr)
    }

    /** BackStepper.backStepRaw(count): what it undoes is not part of this model; the
        count handed to it is logged and that many entries leave its stack. */
    function BackStepRaw(count: int): (a: ArchState)
      ensures a.backStepRawCalls == backStepRawCalls + [count]
      ensures a.backstepDepth == backstepDepth - count
      ensures a.registers == registers && a.memory == memory && a.wordAccessible == wordAccessible
      ensures a.pc == pc && a.program == program
    {
      this.(backStepRawCalls := backStepRawCalls + [count], backstepDepth := backstepDepth - count)
    }
  }
}
