/** Per-instruction stage history (PipelineSimulator.ExecutionStep): for one fetched
    instruction, the cycle at which it was in each stage, and the cycles it stalled. */
module History {

  datatype Option<T> = None | Some(value: T)

  /** The stage labels ("IF", "ID", "EX", "MEM", "WB", "STALL"). */
  datatype Stage = IF | ID | EX | MEM | WB | STALL

  /** The cycle that marks a stage the instruction has not (yet) been in. */
  const NO_CYCLE: int := -1

  /** The contents of one history record. A missing stall list and an empty one mean the same. */
  datatype StepRecord = StepRecord(
    id: int, pc: bv32,
    cycleIF: int, cycleID: int, cycleEX: int, cycleMEM: int, cycleWB: int,
    stallCycles: seq<int>)
  {
    /** setStage: a pipeline stage records the cycle (overwriting the earlier one);
        STALL appends the cycle to the stall list. */
    function SetStage(cycle: int, stage: Stage): StepRecord {
      match stage
      case IF => this.(cycleIF := cycle)
      case ID => this.(cycleID := cycle)
      case EX => this.(cycleEX := cycle)
      case MEM => this.(cycleMEM := cycle)
      case WB => this.(cycleWB := cycle)
      case STALL => this.(stallCycles := stallCycles + [cycle])
    }

    /** getStageAt: the first stage, in pipeline order, recorded at the cycle; then STALL. */
    function StageAt(cycle: int): Option<Stage> {
      if cycle == cycleIF then Some(IF)
      else if cycle == cycleID then Some(ID)
      else if cycle == cycleEX then Some(EX)
      else if cycle == cycleMEM then Some(MEM)
      else if cycle == cycleWB then Some(WB)
      else if cycle in stallCycles then Some(STALL)
      else None
    }

    /** undoCycle: forget every tag recorded at the cycle. */
    function UndoCycle(cycle: int): StepRecord {
      StepRecord(
        id, pc,
        if cycleIF == cycle then NO_CYCLE else cycleIF,
        if cycleID == cycle then NO_CYCLE else cycleID,
        if cycleEX == cycle then NO_CYCLE else cycleEX,
        if cycleMEM == cycle then NO_CYCLE else cycleMEM,
        if cycleWB == cycle then NO_CYCLE else cycleWB,
        RemoveAll(stallCycles, cycle))
    }

    /** The cycle stored for a pipeline stage (STALL has a list, not a cycle). */
    function CycleOf(stage: Stage): int
      requires stage != STALL
    {
      match stage
      case IF => cycleIF
      case ID => cycleID
      case EX => cycleEX
      case MEM => cycleMEM
      case WB => cycleWB
    }

    /** Nothing is recorded at the cycle. */
    predicate NoTagAt(cycle: int) {
      cycleIF != cycle && cycleID != cycle && cycleEX != cycle && cycleMEM != cycle
        && cycleWB != cycle && cycle !in stallCycles
    }

    /** Every recorded cycle is earlier than the given one. */
    predicate TagsBefore(cycles: int) {
      && (cycleIF == NO_CYCLE || 0 <= cycleIF < cycles)
      && (cycleID == NO_CYCLE || 0 <= cycleID < cycles)
      && (cycleEX == NO_CYCLE || 0 <= cycleEX < cycles)
      && (cycleMEM == NO_CYCLE || 0 <= cycleMEM < cycles)
      && (cycleWB == NO_CYCLE || 0 <= cycleWB < cycles)
      && (forall k :: 0 <= k < |stallCycles| ==> 0 <= stallCycles[k] < cycles)
    }

    /** The record has no tag yet for the stage or any later one (for STALL: none from
        ID on; for IF: none at all). */
    predicate FreeFrom(stage: Stage) {
      && (stage == IF ==> cycleIF == NO_CYCLE && stallCycles == [])
      && (stage in {IF, STALL, ID} ==> cycleID == NO_CYCLE)
      && (stage in {IF, STALL, ID, EX} ==> cycleEX == NO_CYCLE)
      && (stage in {IF, STALL, ID, EX, MEM} ==> cycleMEM == NO_CYCLE)
      && cycleWB == NO_CYCLE
    }

    /** The recorded cycles follow the pipeline: IF before every stall, the stalls in
        increasing order, and all of them before ID, EX, MEM and WB, in that order. */
    predicate InStageOrder() {
      && Earlier(cycleIF, cycleID) && Earlier(cycleIF, cycleEX) && Earlier(cycleIF, cycleMEM) && Earlier(cycleIF, cycleWB)
      && Earlier(cycleID, cycleEX) && Earlier(cycleID, cycleMEM) && Earlier(cycleID, cycleWB)
      && Earlier(cycleEX, cycleMEM) && Earlier(cycleEX, cycleWB)
      && Earlier(cycleMEM, cycleWB)
      && (forall k :: 0 <= k < |stallCycles| ==>
            && stallCycles[k] != NO_CYCLE
            && Earlier(cycleIF, stallCycles[k]) && Earlier(stallCycles[k], cycleID)
            && Earlier(stallCycles[k], cycleEX) && Earlier(stallCycles[k], cycleMEM)
            && Earlier(stallCycles[k], cycleWB))
      && (forall j, k :: 0 <= j < k < |stallCycles| ==> stallCycles[j] < stallCycles[k])
    }

    /** How many tags the record holds for the cycle (stage slots and stall entries). */
    function TagCount(cycle: int): nat {
      (if cycleIF == cycle then 1 else 0) + (if cycleID == cycle then 1 else 0)
        + (if cycleEX == cycle then 1 else 0) + (if cycleMEM == cycle then 1 else 0)
        + (if cycleWB == cycle then 1 else 0) + multiset(stallCycles)[cycle]
    }
  }

  /** Both cycles are recorded and the first is the earlier. */
  predicate Earlier(a: int, b: int) {
    a == NO_CYCLE || b == NO_CYCLE || a < b
  }

  /** A new record: no stage recorded yet. */
  function NewRecord(id: int, pc: bv32): StepRecord {
    StepRecord(id, pc, NO_CYCLE, NO_CYCLE, NO_CYCLE, NO_CYCLE, NO_CYCLE, [])
  }

  /** removeIf(c -> c == cycle): the list without any occurrence of the cycle, order kept. */
  function RemoveAll(s: seq<int>, x: int): (r: seq<int>)
    ensures |r| <= |s|
    ensures forall y :: y in r <==> y in s && y != x
    ensures x !in s ==> r == s
  {
    if s == [] then []
    else if s[0] == x then RemoveAll(s[1..], x)
    else [s[0]] + RemoveAll(s[1..], x)
  }

  lemma {:induction false} RemoveAllAppend(s: seq<int>, t: seq<int>, x: int)
    ensures RemoveAll(s + t, x) == RemoveAll(s, x) + RemoveAll(t, x)
  {
    if s == [] {
      assert s + t == t;
    } else {
      assert (s + t)[1..] == s[1..] + t;
      RemoveAllAppend(s[1..], t, x);
    }
  }

  /** After setStage(c, s) on a record with no tag at c, getStageAt(c) is s. */
  lemma StageAtAfterSetStage(r: StepRecord, cycle: int, stage: Stage)
    requires r.NoTagAt(cycle)
    ensures r.SetStage(cycle, stage).StageAt(cycle) == Some(stage)
  {
  }

  /** After undoCycle(c), getStageAt(c) is null (for a real cycle, c >= 0). */
  lemma StageAtAfterUndo(r: StepRecord, cycle: int)
    requires cycle != NO_CYCLE
    ensures r.UndoCycle(cycle).StageAt(cycle) == None
  {
  }

  /** A tag written into an empty stage slot (or the stall list) leaves getStageAt at
      every other real cycle unchanged; so does undoCycle. */
  lemma SetStageKeepsOtherCycles(r: StepRecord, cycle: int, stage: Stage, other: int)
    requires other != cycle && other != NO_CYCLE
    requires stage == STALL || r.CycleOf(stage) == NO_CYCLE
    ensures r.SetStage(cycle, stage).StageAt(other) == r.StageAt(other)
  {
    if stage == STALL {
      assert other in r.stallCycles + [cycle] <==> other in r.stallCycles;
    }
  }

  lemma UndoKeepsOtherCycles(r: StepRecord, cycle: int, other: int)
    requires other != cycle && other != NO_CYCLE
    ensures r.UndoCycle(cycle).StageAt(other) == r.StageAt(other)
  {
    var u := r.UndoCycle(cycle);
    assert other in u.stallCycles <==> other in r.stallCycles;
  }

  /** undoCycle(c) takes back setStage(c, s) when nothing was recorded at c before and the
      stage's slot was empty. */
  lemma UndoAfterSetStage(r: StepRecord, cycle: int, stage: Stage)
    requires cycle != NO_CYCLE && r.NoTagAt(cycle)
    requires stage == STALL || r.CycleOf(stage) == NO_CYCLE
    ensures r.SetStage(cycle, stage).UndoCycle(cycle) == r
  {
    if stage == STALL {
      RemoveAllAppend(r.stallCycles, [cycle], cycle);
    }
  }

  /** A record that only holds tags before cycle c is untouched by undoCycle(c). */
  lemma UndoLaterCycleIsIdentity(r: StepRecord, cycle: int)
    requires r.TagsBefore(cycle)
    ensures r.UndoCycle(cycle) == r
  {
    assert cycle !in r.stallCycles;
  }

  /** A tag at cycle c, on a record whose tags are all before c and which has the slot of
      the stage and all later ones free, keeps the record in stage order. */
  lemma SetStageKeepsOrder(r: StepRecord, cycle: int, stage: Stage)
    requires cycle >= 0 && r.TagsBefore(cycle) && r.InStageOrder() && r.FreeFrom(stage)
    ensures r.SetStage(cycle, stage).InStageOrder()
  {
    if stage == STALL {
      var t := r.SetStage(cycle, stage);
      assert t.stallCycles == r.stallCycles + [cycle];
      forall k | 0 <= k < |t.stallCycles|
        ensures t.stallCycles[k] != NO_CYCLE && Earlier(t.cycleIF, t.stallCycles[k])
      {
        if k < |r.stallCycles| {
          assert t.stallCycles[k] == r.stallCycles[k];
        }
      }
      forall j, k | 0 <= j < k < |t.stallCycles|
        ensures t.stallCycles[j] < t.stallCycles[k]
      {
        assert t.stallCycles[j] == r.stallCycles[j];
      }
    }
  }

  /** A strictly increasing list holds each value at most once. */
  lemma {:induction false} IncreasingOccursOnce(s: seq<int>, x: int)
    requires forall j, k :: 0 <= j < k < |s| ==> s[j] < s[k]
    ensures multiset(s)[x] <= 1
  {
    if s != [] {
      var tail := s[1..];
      assert s == [s[0]] + tail;
      IncreasingOccursOnce(tail, x);
      if s[0] == x {
        assert x !in tail by {
          forall k | 0 <= k < |tail|
            ensures tail[k] != x
          {
            assert tail[k] == s[k + 1];
          }
        }
      }
    }
  }

  /** A record in stage order holds at most one tag per cycle, and getStageAt finds it
      exactly when there is one. */
  lemma OneTagPerCycle(r: StepRecord, cycle: int)
    requires r.InStageOrder() && cycle != NO_CYCLE
    ensures r.TagCount(cycle) <= 1
    ensures r.TagCount(cycle) == 1 <==> r.StageAt(cycle).Some?
  {
    IncreasingOccursOnce(r.stallCycles, cycle);
    if cycle in r.stallCycles {
      var k :| 0 <= k < |r.stallCycles| && r.stallCycles[k] == cycle;
      assert r.cycleIF != cycle && r.cycleID != cycle && r.cycleEX != cycle;
    }
  }

  /** The record object of one fetched instruction. */
  class ExecutionStep {
    const id: int
    const pc: bv32
    var cycleIF: int
    var cycleID: int
    var cycleEX: int
    var cycleMEM: int
    var cycleWB: int
    var stallCycles: seq<int>

    function Record(): StepRecord
      reads this
    {
      StepRecord(id, pc, cycleIF, cycleID, cycleEX, cycleMEM, cycleWB, stallCycles)
    }

    constructor (id: int, pc: bv32)
      ensures Record() == NewRecord(id, pc)
    {
      this.id := id;
      this.pc := pc;
      cycleIF, cycleID, cycleEX, cycleMEM, cycleWB := NO_CYCLE, NO_CYCLE, NO_CYCLE, NO_CYCLE, NO_CYCLE;
      stallCycles := [];
    }

    method SetStage(cycle: int, stage: Stage)
      modifies this
      ensures Record() == old(Record()).SetStage(cycle, stage)
    {
      match stage
      case IF => cycleIF := cycle;
      case ID => cycleID := cycle;
      case EX => cycleEX := cycle;
      case MEM => cycleMEM := cycle;
      case WB => cycleWB := cycle;
      case STALL => stallCycles := stallCycles + [cycle];
    }

    method UndoCycle(cycle: int)
      modifies this
      ensures Record() == old(Record()).UndoCycle(cycle)
    {
      if cycleIF == cycle {
        cycleIF := NO_CYCLE;
      }
      if cycleID == cycle {
        cycleID := NO_CYCLE;
      }
      if cycleEX == cycle {
        cycleEX := NO_CYCLE;
      }
      if cycleMEM == cycle {
        cycleMEM := NO_CYCLE;
      }
      if cycleWB == cycle {
        cycleWB := NO_CYCLE;
      }
      stallCycles := RemoveAll(stallCycles, cycle);
    }
  }
}
