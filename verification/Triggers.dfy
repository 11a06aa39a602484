/** The command list of a trigger: a linked queue whose head remembers its tail. */
module Triggers {

  class TriggerStep {
    var pNext: TriggerStep?
    var pLast: TriggerStep?
  }

  /** `steps` is the list that starts at `head`: each step leads to the next, the last to none,
      and the head knows the last. */
  ghost predicate IsList(head: TriggerStep, steps: seq<TriggerStep>)
    reads head, steps
  {
    && |steps| > 0
    && steps[0] == head
    && head.pLast == steps[|steps| - 1]
    && (forall i, j :: 0 <= i < j < |steps| ==> steps[i] != steps[j])
    && (forall i :: 0 <= i < |steps| - 1 ==> steps[i].pNext == steps[i + 1])
    && steps[|steps| - 1].pNext == null
  }

  method StartList(cmd: TriggerStep)
    requires cmd.pNext == null
    modifies cmd`pLast
    ensures IsList(cmd, [cmd])
  {
    cmd.pLast := cmd;
  }

  method AppendStep(list: TriggerStep, cmd: TriggerStep, ghost steps: seq<TriggerStep>)
    requires IsList(list, steps) && cmd !in steps && cmd.pNext == null
    modifies list.pLast`pNext, list`pLast
    ensures IsList(list, steps + [cmd])
  {
    list.pLast.pNext := cmd;
    list.pLast := cmd;
  }

  /** Commands reduced one after another end up in source order behind the first. */
  method BuildList(cmds: seq<TriggerStep>)
    requires |cmds| > 0
    requires forall i, j :: 0 <= i < j < |cmds| ==> cmds[i] != cmds[j]
    requires forall c :: c in cmds ==> c.pNext == null
    modifies cmds
    ensures IsList(cmds[0], cmds)
  {
    StartList(cmds[0]);
    for n := 1 to |cmds|
      invariant IsList(cmds[0], cmds[..n])
      invariant forall i :: n <= i < |cmds| ==> cmds[i].pNext == null
    {
      AppendStep(cmds[0], cmds[n], cmds[..n]);
      assert cmds[..n] + [cmds[n]] == cmds[..n + 1];
    }
    assert cmds[..|cmds|] == cmds;
  }

  /** Following `pNext` from the head visits exactly the steps of the list, in order. */
  method Visit(head: TriggerStep, ghost steps: seq<TriggerStep>) returns (visited: seq<TriggerStep>)
    requires IsList(head, steps)
    ensures visited == steps
  {
    visited := [];
    var p: TriggerStep? := head;
    while p != null
      invariant |visited| <= |steps| && visited == steps[..|visited|]
      invariant p == if |visited| < |steps| then steps[|visited|] else null
      decreases |steps| - |visited|
    {
      visited := visited + [p];
      p := p.pNext;
    }
  }
}
