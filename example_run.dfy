/** A worked run of the engine: ori $1,$0,5; ori $2,$0,7; add $3,$1,$2 at 0x3000, with
    no delayed branching and no backstepping. Without any stall (the add gets $1 from
    the memory stage in decode and $2 from the memory stage in execute) the three
    instructions leave the pipeline after seven steps, with $3 = 12. */
module ExampleRun {
  import opened Latches
  import opened Arch
  import opened Engine
  import EngineProps

  const ORI1: bv32 := 0x3401_0005
  const ORI2: bv32 := 0x3402_0007
  const ADD3: bv32 := 0x0022_1820

  function Program(): map<int, bv32> {
    map[0x3000 := ORI1, 0x3004 := ORI2, 0x3008 := ADD3]
  }

  /** The architectural state with the given register file and PC. */
  function ArchAt(registers: map<int, bv32>, pc: bv32): ArchState {
    ArchState(registers, map[], {}, pc, Program(), 0, [])
  }

  function Start(): EngineState {
    Initial(ArchAt(map[], 0x3000))
  }

  /** The latches, the architectural state and the next identifier after k steps. */
  function LatchesAfter(k: nat): Bank
    requires 1 <= k <= 7
  {
    match k
    case 1 => Bank(IfIdValue(0x3000, ORI1, 0), IdExValue(0, 0, 0, 0, 0, true, NO_STEP),
                   ExMemValue(0, 0, 0, 0, false, NO_STEP), MemWbValue(0, 0, 0, 0, false, NO_STEP))
    case 2 => Bank(IfIdValue(0x3004, ORI2, 1), IdExValue(0x3000, ORI1, 0, 0, 5, true, 0),
                   ExMemValue(0, 0, 0, 0, true, NO_STEP), MemWbValue(0, 0, 0, 0, false, NO_STEP))
    case 3 => Bank(IfIdValue(0x3008, ADD3, 2), IdExValue(0x3004, ORI2, 0, 0, 7, true, 1),
                   ExMemValue(0x3000, ORI1, 0, 5, true, 0), MemWbValue(0, 0, 0, 0, true, NO_STEP))
    case 4 => Bank(IfIdValue(0x300C, 0, NO_STEP), IdExValue(0x3008, ADD3, 5, 0, 0x1820, false, 2),
                   ExMemValue(0x3004, ORI2, 0, 7, true, 1), MemWbValue(0x3000, ORI1, 5, 0, true, 0))
    case 5 => Bank(IfIdValue(0x3010, 0, NO_STEP), IdExValue(0x300C, 0, 0, 0, 0, true, NO_STEP),
                   ExMemValue(0x3008, ADD3, 7, 12, false, 2), MemWbValue(0x3004, ORI2, 7, 0, true, 1))
    case 6 => Bank(IfIdValue(0x3014, 0, NO_STEP), IdExValue(0x3010, 0, 0, 0, 0, true, NO_STEP),
                   ExMemValue(0x300C, 0, 0, 0, true, NO_STEP), MemWbValue(0x3008, ADD3, 12, 0, false, 2))
    case 7 => Bank(IfIdValue(0x3018, 0, NO_STEP), IdExValue(0x3014, 0, 0, 0, 0, true, NO_STEP),
                   ExMemValue(0x3010, 0, 0, 0, true, NO_STEP), MemWbValue(0x300C, 0, 0, 0, true, NO_STEP))
  }

  function RegistersAfter(k: nat): map<int, bv32> {
    if k <= 4 then map[] else if k == 5 then map[1 := 5] else if k == 6 then map[1 := 5, 2 := 7]
    else map[1 := 5, 2 := 7, 3 := 12]
  }

  function PcAfter(k: nat): bv32
    requires k <= 7
  {
    0x3000 + 4 * (k as bv32)
  }

  function IdsAfter(k: nat): int {
    if k <= 3 then k else 3
  }

  /** The parts of a state that the next step's latches and architectural state depend on. */
  predicate At(s: EngineState, k: nat)
    requires 1 <= k <= 7
  {
    s.bank == LatchesAfter(k) && s.arch == ArchAt(RegistersAfter(k), PcAfter(k)) && s.nextStepId == IdsAfter(k)
  }

  lemma FirstStep()
    ensures At(Step(Start(), false, false), 1)
  {
  }

  lemma Step2(s: EngineState)
    requires At(s, 1)
    ensures At(Step(s, false, false), 2)
  {
  }

  lemma Step3(s: EngineState)
    requires At(s, 2)
    ensures At(Step(s, false, false), 3)
  {
  }

  lemma Step4(s: EngineState)
    requires At(s, 3)
    ensures At(Step(s, false, false), 4)
  {
  }

  lemma Step5(s: EngineState)
    requires At(s, 4)
    ensures At(Step(s, false, false), 5)
  {
  }

  lemma Step6(s: EngineState)
    requires At(s, 5)
    ensures At(Step(s, false, false), 6)
  {
  }

  lemma Step7(s: EngineState)
    requires At(s, 6)
    ensures At(Step(s, false, false), 7)
  {
  }

  lemma StepsSucc(s: EngineState, n: nat)
    ensures EngineProps.Steps(s, n + 1, false, false) == Step(EngineProps.Steps(s, n, false, false), false, false)
  {
  }

  /** The run: k steps reach the k-th state of the table. */
  lemma Reach1()
    ensures At(EngineProps.Steps(Start(), 1, false, false), 1)
    ensures var t := EngineProps.Steps(Start(), 1, false, false); !IsDone(t.bank, t.arch)
  {
    StepsSucc(Start(), 0);
    FirstStep();
    NotDoneAt(EngineProps.Steps(Start(), 1, false, false), 1);
  }

  lemma Reach2()
    ensures At(EngineProps.Steps(Start(), 2, false, false), 2)
    ensures var t := EngineProps.Steps(Start(), 2, false, false); !IsDone(t.bank, t.arch)
  {
    Reach1();
    StepsSucc(Start(), 1);
    Step2(EngineProps.Steps(Start(), 1, false, false));
    NotDoneAt(EngineProps.Steps(Start(), 2, false, false), 2);
  }

  lemma Reach3()
    ensures At(EngineProps.Steps(Start(), 3, false, false), 3)
    ensures var t := EngineProps.Steps(Start(), 3, false, false); !IsDone(t.bank, t.arch)
  {
    Reach2();
    StepsSucc(Start(), 2);
    Step3(EngineProps.Steps(Start(), 2, false, false));
    NotDoneAt(EngineProps.Steps(Start(), 3, false, false), 3);
  }

  lemma Reach4()
    ensures At(EngineProps.Steps(Start(), 4, false, false), 4)
    ensures var t := EngineProps.Steps(Start(), 4, false, false); !IsDone(t.bank, t.arch)
  {
    Reach3();
    StepsSucc(Start(), 3);
    Step4(EngineProps.Steps(Start(), 3, false, false));
    NotDoneAt(EngineProps.Steps(Start(), 4, false, false), 4);
  }

  lemma Reach5()
    ensures At(EngineProps.Steps(Start(), 5, false, false), 5)
    ensures var t := EngineProps.Steps(Start(), 5, false, false); !IsDone(t.bank, t.arch)
  {
    Reach4();
    StepsSucc(Start(), 4);
    Step5(EngineProps.Steps(Start(), 4, false, false));
    NotDoneAt(EngineProps.Steps(Start(), 5, false, false), 5);
  }

  lemma Reach6()
    ensures At(EngineProps.Steps(Start(), 6, false, false), 6)
    ensures var t := EngineProps.Steps(Start(), 6, false, false); !IsDone(t.bank, t.arch)
  {
    Reach5();
    StepsSucc(Start(), 5);
    Step6(EngineProps.Steps(Start(), 5, false, false));
    NotDoneAt(EngineProps.Steps(Start(), 6, false, false), 6);
  }

  lemma Reach7()
    ensures At(EngineProps.Steps(Start(), 7, false, false), 7)
  {
    Reach6();
    StepsSucc(Start(), 6);
    Step7(EngineProps.Steps(Start(), 6, false, false));
  }

  /** After seven steps the pipeline is done, with $1 = 5, $2 = 7 and $3 = $1 + $2 = 12
      in the register file. */
  lemma ProgramDrainsInSevenSteps()
    ensures var t := EngineProps.Steps(Start(), 7, false, false);
      && IsDone(t.bank, t.arch)
      && t.arch.GetValue(1) == 5 && t.arch.GetValue(2) == 7 && t.arch.GetValue(3) == 12
  {
    Reach7();
    DoneAtSeven(EngineProps.Steps(Start(), 7, false, false));
  }

  lemma DoneAtSeven(s: EngineState)
    requires At(s, 7)
    ensures IsDone(s.bank, s.arch)
    ensures s.arch.GetValue(1) == 5 && s.arch.GetValue(2) == 7 && s.arch.GetValue(3) == 12
  {
  }

  lemma NotDoneAt(s: EngineState, k: nat)
    requires 1 <= k < 7 && At(s, k)
    ensures !IsDone(s.bank, s.arch)
  {
  }

  /** Before the seventh step the pipeline is not done: the program's statements are
      still to be fetched, or an instruction is still in a latch. */
  lemma NotDoneBeforeSeven(k: nat)
    requires k < 7
    ensures var t := EngineProps.Steps(Start(), k, false, false); !IsDone(t.bank, t.arch)
  {
    if k == 0 {
    } else if k == 1 {
      Reach1();
    } else if k == 2 {
      Reach2();
    } else if k == 3 {
      Reach3();
    } else if k == 4 {
      Reach4();
    } else if k == 5 {
      Reach5();
    } else {
      Reach6();
    }
  }
}
