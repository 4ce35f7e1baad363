/** The client's side of a transaction: commands are queued in memory, and each new one is checked against the hash slot
  * recorded by the first. */
module ClientTransaction {
  import opened Prelude
  import opened Routing

  type Table = seq<SlotRange>

  datatype Hasher = ByArguments | Custom(slot: nat)

  /** `fixed` is the slot a custom command or a scan brings along, `argSlot` the slot of its arguments, if they have a key. */
  datatype Command = Command(allNodes: bool, fixed: Option<nat>, hasher: Hasher, argSlot: Option<nat>)

  const MULTI: Command := Command(false, None, ByArguments, None)

  /** `cluster_hash` */
  function ClusterHash(c: Command): Option<nat> {
    if c.fixed.Some? then c.fixed
    else match c.hasher
      case Custom(slot) => Some(slot)
      case ByArguments => c.argSlot
  }

  datatype Refusal = AllNodes | MissingState | OtherNode

  /** `update_hash_slot`: the slot to record, or the refusal. */
  function Check(clustered: bool, table: Option<Table>, recorded: Option<nat>, c: Command): Result<Option<nat>, Refusal> {
    if !clustered then Ok(recorded)
    else match ClusterHash(c)
      case None => Ok(recorded)
      case Some(slot) =>
        if recorded.None? then Ok(Some(slot))
        else if table.None? then Err(MissingState)
        else if Scan(table.value, recorded.value) != Scan(table.value, slot) then Err(OtherNode)
        else Ok(recorded)
  }

  /** Why the check refuses, and what it records: nothing is refused without a key or on a single server; the first key is
    * recorded; a later one needs a routing table, and the same owner in it. */
  lemma CheckDecides(clustered: bool, table: Option<Table>, recorded: Option<nat>, c: Command)
    ensures var r, later := Check(clustered, table, recorded, c), clustered && ClusterHash(c).Some? && recorded.Some?;
            && (r == Err(MissingState) <==> later && table.None?)
            && (r == Err(OtherNode) <==>
                  later && table.Some? && Scan(table.value, recorded.value) != Scan(table.value, ClusterHash(c).value))
            && r != Err(AllNodes)
            && (r.Ok? ==> r.value == if clustered && recorded.None? then ClusterHash(c) else recorded)
  {
  }

  /** Every keyed command has the owner of the recorded slot. */
  ghost predicate OneOwner(table: Table, recorded: Option<nat>, commands: seq<Command>) {
    forall i :: 0 <= i < |commands| && ClusterHash(commands[i]).Some? ==>
      recorded.Some? && Scan(table, ClusterHash(commands[i]).value) == Scan(table, recorded.value)
  }

  /** `Router::find_connection` on a cluster. */
  function FindConnection(table: Table, c: Command): Option<Server> {
    if ClusterHash(c).Some? then Scan(table, ClusterHash(c).value) else None
  }

  class Transaction {
    const clustered: bool
    var commands: seq<Command>
    var hashSlot: Option<nat>

    constructor (clustered: bool)
      ensures this.clustered == clustered && commands == [MULTI] && hashSlot == None
    {
      this.clustered, commands, hashSlot := clustered, [MULTI], None;
    }

    /** `send_command`. `table` is the cached routing table, if there is one; `known` is the one the client routes by. */
    method SendCommand(c: Command, table: Option<Table>, ghost known: Table) returns (r: Result<(), Refusal>)
      requires table.Some? ==> table.value == known
      modifies this
      ensures r.Ok? <==> !c.allNodes && Check(clustered, table, old(hashSlot), c).Ok?
      ensures r.Err? ==>
                r.error == if c.allNodes then AllNodes else Check(clustered, table, old(hashSlot), c).error
      ensures r.Ok? ==> commands == old(commands) + [c] && Ok(hashSlot) == Check(clustered, table, old(hashSlot), c)
      ensures r.Ok? ==> hashSlot == if clustered && old(hashSlot).None? then ClusterHash(c) else old(hashSlot)
      ensures r.Err? ==> commands == old(commands) && hashSlot == old(hashSlot)
      ensures old(hashSlot).Some? ==> hashSlot == old(hashSlot)
      ensures clustered && OneOwner(known, old(hashSlot), old(commands)) ==> OneOwner(known, hashSlot, commands)
    {
      if c.allNodes {
        return Err(AllNodes);
      }
      if clustered && ClusterHash(c).Some? {
        if hashSlot.Some? {
          if table.None? {
            return Err(MissingState);
          }
          var oldServer, server := Scan(table.value, hashSlot.value), Scan(table.value, ClusterHash(c).value);
          if oldServer != server {
            return Err(OtherNode);
          }
        } else {
          hashSlot := ClusterHash(c);
        }
      }
      commands := commands + [c];
      r := Ok(());
    }

    /** `exec`: the queue is taken, and every command is routed by the recorded slot. */
    method Exec() returns (prepared: seq<Command>)
      modifies this
      ensures commands == [] && hashSlot == None
      ensures |prepared| == |old(commands)|
      ensures forall i :: 0 <= i < |prepared| ==> prepared[i] == Rerouted(old(commands)[i], old(hashSlot))
    {
      var queue, slot := commands, hashSlot;
      commands, hashSlot := [], None;
      prepared := [];
      for i := 0 to |queue|
        invariant |prepared| == i && forall j :: 0 <= j < i ==> prepared[j] == Rerouted(queue[j], slot)
      {
        prepared := prepared + [Rerouted(queue[i], slot)];
      }
    }
  }

  function Rerouted(c: Command, slot: Option<nat>): Command {
    if slot.Some? then c.(hasher := Custom(slot.value)) else c
  }

  /** Any history of `send_command` calls on a new clustered transaction, and then `exec`: the server chosen from the first
    * prepared command owns the slot of every keyed command that was accepted. */
  method QueueThenExec(table: Table, batch: seq<Command>) returns (accepted: seq<Command>, prepared: seq<Command>)
    ensures |prepared| == |accepted| > 0
    ensures forall i :: 0 <= i < |accepted| && ClusterHash(accepted[i]).Some? ==>
              FindConnection(table, prepared[0]) == FindConnection(table, accepted[i])
    ensures FindConnection(table, prepared[0]).Some? ==> exists i :: 0 <= i < |accepted| && ClusterHash(accepted[i]).Some?
  {
    var t := new Transaction(true);
    for i := 0 to |batch|
      invariant t.clustered && t.commands != [] && t.commands[0] == MULTI
      invariant OneOwner(table, t.hashSlot, t.commands)
      invariant t.hashSlot.Some? ==> exists i :: 0 <= i < |t.commands| && ClusterHash(t.commands[i]).Some?
    {
      ghost var before := t.commands;
      var r := t.SendCommand(batch[i], Some(table), table);
      assert before <= t.commands;
      assert r.Ok? ==> t.commands[|t.commands| - 1] == batch[i];
      assert forall k :: 0 <= k < |before| ==> t.commands[k] == before[k];
    }
    accepted := t.commands;
    prepared := t.Exec();
  }

  // ---- Clones that queue commands at the same time ----

  /** Clones share the queue and the recorded slot, each behind its own lock. `send_command` reads the slot, then records or
    * compares, then queues the command, and other clones may act in between. */
  datatype Phase = Waiting | Looked(seen: Option<nat>) | Passed(seen: Option<nat>) | Queued(seen: Option<nat>) | Refused

  datatype State = State(recorded: Option<nat>, phases: seq<Phase>)

  datatype Step = Look(task: nat) | Judge(task: nat) | Queue(task: nat)

  /** Each task queues one keyed command with the given slot. */
  function Start(slots: seq<nat>): State {
    State(None, seq(|slots|, _ => Waiting))
  }

  predicate Enabled(s: State, step: Step) {
    && step.task < |s.phases|
    && match step
       case Look(i) => s.phases[i].Waiting?
       case Judge(i) => s.phases[i].Looked?
       case Queue(i) => s.phases[i].Passed?
  }

  function Apply(table: Table, slots: seq<nat>, s: State, step: Step): State
    requires |s.phases| == |slots|
  {
    if !Enabled(s, step) then s else
    match step
    case Look(i) => s.(phases := s.phases[i := Looked(s.recorded)])
    case Judge(i) =>
      (match s.phases[i].seen
       case None => State(Some(slots[i]), s.phases[i := Passed(None)])
       case Some(first) =>
         if Scan(table, first) != Scan(table, slots[i]) then s.(phases := s.phases[i := Refused])
         else s.(phases := s.phases[i := Passed(Some(first))]))
    case Queue(i) => s.(phases := s.phases[i := Queued(s.phases[i].seen)])
  }

  function Run(table: Table, slots: seq<nat>, steps: seq<Step>): (s: State)
    ensures |s.phases| == |slots|
  {
    if steps == [] then Start(slots)
    else Apply(table, slots, Run(table, slots, steps[..|steps| - 1]), steps[|steps| - 1])
  }

  predicate Accepted(p: Phase) {
    p.Passed? || p.Queued?
  }

  /** A task that found no recorded slot and recorded its own. */
  predicate Opens(p: Phase) {
    Accepted(p) && p.seen.None?
  }

  ghost predicate IsOpeners(slots: seq<nat>, s: State, slot: nat)
    requires |s.phases| == |slots|
  {
    exists k :: 0 <= k < |slots| && Opens(s.phases[k]) && slots[k] == slot
  }

  /** The recorded slot is an opener's, and so is every slot a task has seen; accepted tasks agree with what they saw. */
  ghost predicate Traced(table: Table, slots: seq<nat>, s: State)
    requires |s.phases| == |slots|
  {
    && (s.recorded.Some? ==> IsOpeners(slots, s, s.recorded.value))
    && (forall i :: 0 <= i < |slots| && (s.phases[i].Looked? || Accepted(s.phases[i])) && s.phases[i].seen.Some? ==>
          IsOpeners(slots, s, s.phases[i].seen.value))
    && (forall i :: 0 <= i < |slots| && Accepted(s.phases[i]) && s.phases[i].seen.Some? ==>
          Scan(table, slots[i]) == Scan(table, s.phases[i].seen.value))
    && (forall i :: 0 <= i < |slots| && Accepted(s.phases[i]) ==> s.recorded.Some?)
  }

  lemma OpenersStay(slots: seq<nat>, s: State, s': State, i: nat, slot: nat)
    requires |s.phases| == |s'.phases| == |slots| && i < |slots| && s'.phases == s.phases[i := s'.phases[i]]
    requires Opens(s.phases[i]) ==> Opens(s'.phases[i])
    requires IsOpeners(slots, s, slot)
    ensures IsOpeners(slots, s', slot)
  {
    var k :| 0 <= k < |slots| && Opens(s.phases[k]) && slots[k] == slot;
    assert Opens(s'.phases[k]);
  }

  lemma StepKeepsTrace(table: Table, slots: seq<nat>, s: State, step: Step)
    requires |s.phases| == |slots| && Traced(table, slots, s)
    ensures Traced(table, slots, Apply(table, slots, s, step))
  {
    if Enabled(s, step) {
      var i, s' := step.task, Apply(table, slots, s, step);
      forall slot | IsOpeners(slots, s, slot)
        ensures IsOpeners(slots, s', slot)
      {
        OpenersStay(slots, s, s', i, slot);
      }
      if step.Judge? && s.phases[i].seen.None? {
        assert Opens(s'.phases[i]);
        assert IsOpeners(slots, s', slots[i]);
      }
    }
  }

  lemma {:induction false} EveryRunIsTraced(table: Table, slots: seq<nat>, steps: seq<Step>)
    ensures Traced(table, slots, Run(table, slots, steps))
  {
    if steps != [] {
      EveryRunIsTraced(table, slots, steps[..|steps| - 1]);
      StepKeepsTrace(table, slots, Run(table, slots, steps[..|steps| - 1]), steps[|steps| - 1]);
    }
  }

  /** All accepted commands have the owner of the recorded slot. */
  ghost predicate Agreed(table: Table, slots: seq<nat>, s: State)
    requires |s.phases| == |slots|
  {
    forall i :: 0 <= i < |slots| && Accepted(s.phases[i]) ==>
      s.recorded.Some? && Scan(table, slots[i]) == Scan(table, s.recorded.value)
  }

  ghost predicate OpenersAgree(table: Table, slots: seq<nat>, s: State)
    requires |s.phases| == |slots|
  {
    forall i, j :: 0 <= i < |slots| && 0 <= j < |slots| && Opens(s.phases[i]) && Opens(s.phases[j]) ==>
      Scan(table, slots[i]) == Scan(table, slots[j])
  }

  /** A run ends in agreement on one owner exactly if the tasks that found no recorded slot agree among themselves. */
  lemma RunAgreesIff(table: Table, slots: seq<nat>, steps: seq<Step>)
    ensures var s := Run(table, slots, steps);
            Agreed(table, slots, s) <==> OpenersAgree(table, slots, s)
  {
    var s := Run(table, slots, steps);
    EveryRunIsTraced(table, slots, steps);
    if OpenersAgree(table, slots, s) {
      forall i | 0 <= i < |slots| && Accepted(s.phases[i])
        ensures s.recorded.Some? && Scan(table, slots[i]) == Scan(table, s.recorded.value)
      {
        var k :| 0 <= k < |slots| && Opens(s.phases[k]) && slots[k] == s.recorded.value;
        if s.phases[i].seen.Some? {
          var l :| 0 <= l < |slots| && Opens(s.phases[l]) && slots[l] == s.phases[i].seen.value;
        }
      }
    }
  }

  lemma RunOneMore(table: Table, slots: seq<nat>, steps: seq<Step>, step: Step)
    ensures Run(table, slots, steps + [step]) == Apply(table, slots, Run(table, slots, steps), step)
  {
    assert (steps + [step])[..|steps|] == steps;
  }

  /** Both tasks look before either records. */
  lemma BothLook(table: Table, slots: seq<nat>, i: nat, j: nat) returns (steps: seq<Step>)
    requires i < |slots| && j < |slots| && i != j
    ensures var s := Run(table, slots, steps);
            s.recorded == None && s.phases[i] == Looked(None) && s.phases[j] == Looked(None)
  {
    RunOneMore(table, slots, [], Look(i));
    steps := [] + [Look(i)];
    RunOneMore(table, slots, steps, Look(j));
    steps := steps + [Look(j)];
  }

  /** Two clones whose commands have different owners are both accepted if they look before either records. */
  lemma ClonesCanDisagree(table: Table, slots: seq<nat>, i: nat, j: nat) returns (steps: seq<Step>)
    requires i < |slots| && j < |slots| && Scan(table, slots[i]) != Scan(table, slots[j])
    ensures !Agreed(table, slots, Run(table, slots, steps))
  {
    steps := BothLook(table, slots, i, j);
    RunOneMore(table, slots, steps, Judge(i));
    steps := steps + [Judge(i)];
    RunOneMore(table, slots, steps, Judge(j));
    steps := steps + [Judge(j)];
    var s := Run(table, slots, steps);
    assert Accepted(s.phases[i]) && s.recorded == Some(slots[j]);
  }

  /** All commands have the same owner. */
  ghost predicate OneOwnerOnly(table: Table, slots: seq<nat>) {
    forall i, j :: 0 <= i < |slots| && 0 <= j < |slots| ==> Scan(table, slots[i]) == Scan(table, slots[j])
  }

  /** Clones that queue commands at the same time agree on one owner in every run exactly if all their commands have the same
    * owner to begin with: the check protects nobody from a clone that looks at the same time. */
  lemma ClonesAgreeIff(table: Table, slots: seq<nat>)
    ensures (forall steps :: Agreed(table, slots, Run(table, slots, steps))) <==> OneOwnerOnly(table, slots)
  {
    if OneOwnerOnly(table, slots) {
      forall steps
        ensures Agreed(table, slots, Run(table, slots, steps))
      {
        RunAgreesIff(table, slots, steps);
      }
    } else {
      var i, j :| 0 <= i < |slots| && 0 <= j < |slots| && Scan(table, slots[i]) != Scan(table, slots[j]);
      var steps := ClonesCanDisagree(table, slots, i, j);
    }
  }
}
