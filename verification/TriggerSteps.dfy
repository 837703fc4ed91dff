/** The steps of a trigger, linked in the order in which the parser reduces them. */
module TriggerSteps {

  /** `pLast` is meaningful in the first step only. */
  class TriggerStep {
    const command: nat
    var pNext: TriggerStep?
    var pLast: TriggerStep?

    /** triggerStepAllocate: zeroed memory. */
    constructor (command: nat)
      ensures this.command == command && pNext == null && pLast == null
    {
      this.command := command;
      pNext := null;
      pLast := null;
    }
  }

  ghost predicate LinkedAt(steps: seq<TriggerStep>, i: nat)
    requires i < |steps|
    reads steps
  {
    steps[i].pNext == if i + 1 < |steps| then steps[i + 1] else null
  }

  /** Following pNext from the head visits these steps and ends; the head knows the last. */
  ghost predicate IsQueue(steps: seq<TriggerStep>)
    reads steps
  {
    && steps != []
    && (forall i :: 0 <= i < |steps| ==> LinkedAt(steps, i))
    && steps[0].pLast == steps[|steps| - 1]
  }

  ghost function Commands(steps: seq<TriggerStep>): (cs: seq<nat>)
    ensures |cs| == |steps|
  {
    seq(|steps|, i requires 0 <= i < |steps| => steps[i].command)
  }

  /** trigger_cmd_list ::= trigger_cmd SEMI */
  method ReduceFirst(step: TriggerStep)
    requires step.pNext == null
    modifies step`pLast
    ensures IsQueue([step])
  {
    step.pLast := step;
    assert LinkedAt([step], 0);
  }

  /** A list that ends visits no step twice. */
  lemma StepsAreDistinct(steps: seq<TriggerStep>)
    requires IsQueue(steps)
    ensures forall i, j :: 0 <= i < j < |steps| ==> steps[i] != steps[j]
  {
    forall i, j | 0 <= i < j < |steps|
      ensures steps[i] != steps[j]
    {
      if steps[i] == steps[j] {
        var d := |steps| - 1 - j;
        assert LinkedAt(steps, i + d) && LinkedAt(steps, j + d);
        SameSuffix(steps, i, j, d);
      }
    }
  }

  lemma {:induction false} SameSuffix(steps: seq<TriggerStep>, i: nat, j: nat, d: nat)
    requires IsQueue(steps) && i < j && j + d < |steps| && steps[i] == steps[j]
    ensures steps[i + d] == steps[j + d]
  {
    if d > 0 {
      SameSuffix(steps, i, j, d - 1);
      assert LinkedAt(steps, i + d - 1) && LinkedAt(steps, j + d - 1);
    }
  }

  /** trigger_cmd_list ::= trigger_cmd_list trigger_cmd SEMI */
  method ReduceNext(list: TriggerStep, step: TriggerStep, ghost steps: seq<TriggerStep>)
    requires IsQueue(steps) && steps[0] == list
    requires step.pNext == null && step !in steps
    modifies list`pLast, list.pLast`pNext
    ensures IsQueue(steps + [step])
  {
    StepsAreDistinct(steps);
    ghost var n := |steps|;
    assert forall i :: 0 <= i < n ==> LinkedAt(steps, i);
    list.pLast.pNext := step;
    list.pLast := step;
    forall i | 0 <= i < n + 1
      ensures LinkedAt(steps + [step], i)
    {
      if i < n - 1 {
        assert old(LinkedAt(steps, i));
        assert steps[i] != steps[n - 1];
      }
    }
  }

  /** Reduce the commands of a trigger in source order. */
  method ReduceAll(commands: seq<nat>) returns (list: TriggerStep, ghost steps: seq<TriggerStep>)
    requires commands != []
    ensures fresh(steps) && IsQueue(steps) && steps[0] == list
    ensures Commands(steps) == commands
  {
    list := new TriggerStep(commands[0]);
    ReduceFirst(list);
    steps := [list];
    for i := 1 to |commands|
      invariant fresh(steps) && IsQueue(steps) && steps[0] == list
      invariant Commands(steps) == commands[..i]
    {
      var step := new TriggerStep(commands[i]);
      ReduceNext(list, step, steps);
      steps := steps + [step];
    }
    assert commands[..|commands|] == commands;
  }

  /** What the trigger program sees: the commands from the head along pNext. */
  method Visit(list: TriggerStep, ghost steps: seq<TriggerStep>) returns (commands: seq<nat>)
    requires IsQueue(steps) && steps[0] == list
    ensures commands == Commands(steps)
  {
    commands := [];
    var pStep: TriggerStep? := list;
    while pStep != null
      invariant |commands| <= |steps|
      invariant pStep == if |commands| < |steps| then steps[|commands|] else null
      invariant commands == Commands(steps)[..|commands|]
      decreases |steps| - |commands|
    {
      assert LinkedAt(steps, |commands|);
      commands := commands + [pStep.command];
      pStep := pStep.pNext;
    }
  }

  /** Building a trigger and walking its steps gives back the commands in source order. */
  method BuildThenVisit(commands: seq<nat>) returns (visited: seq<nat>)
    requires commands != []
    ensures visited == commands
  {
    var list, steps := ReduceAll(commands);
    visited := Visit(list, steps);
  }
}
