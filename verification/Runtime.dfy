/** The runtime around a node (raft-runtime/src/node.rs) and the key-value store of the
    simulator (raft-simulator/src/state_machine.rs): what executing an action list does. */
module Runtime {
  import opened Protocol
  import opened RaftSteps
  import opened LogFacts
  import opened RaftNode

  type Data = map<string, string>

  datatype Packet = Packet(to: NodeId, msg: Message)

  function ApplyOp(data: Data, command: Command): Data {
    match command.op
    case Set(key, value) => data[key := value]
    case Delete(key) => data - {key}
  }

  function ApplyAll(data: Data, commands: seq<Command>): Data {
    if commands == [] then data
    else ApplyOp(ApplyAll(data, commands[..|commands| - 1]), commands[|commands| - 1])
  }

  // ── the store by lookup ─────────────────────────────────────────────────────

  function Lookup(data: Data, key: string): Option<string> {
    if key in data then Some(data[key]) else None
  }

  /** From one map to the next: `Set` binds its key, `Delete` unbinds it, and every other key
      keeps its binding or stays without one. */
  ghost predicate Written(before: Data, command: Command, after: Data) {
    && (command.op.Set? ==> Lookup(after, command.op.key) == Some(command.op.value))
    && (command.op.Delete? ==> command.op.key !in after)
    && forall key | key != command.op.key :: Lookup(after, key) == Lookup(before, key)
  }

  lemma ApplyOpWrites(data: Data, command: Command)
    ensures Written(data, command, ApplyOp(data, command))
  {
  }

  /** There is only one such map. */
  lemma WrittenIsUnique(before: Data, command: Command, a: Data, b: Data)
    requires Written(before, command, a) && Written(before, command, b)
    ensures a == b
  {
    forall key ensures Lookup(a, key) == Lookup(b, key) {
      assert key != command.op.key ==> Lookup(a, key) == Lookup(before, key);
      assert key != command.op.key ==> Lookup(b, key) == Lookup(before, key);
    }
    forall key | key in a ensures key in b && a[key] == b[key] {
      assert Lookup(a, key) == Lookup(b, key);
    }
    forall key | key in b ensures key in a {
      assert Lookup(a, key) == Lookup(b, key);
    }
  }

  /** A key no command is about keeps its binding. */
  lemma {:induction false} UntouchedKeyStays(data: Data, commands: seq<Command>, key: string)
    requires forall j | 0 <= j < |commands| :: commands[j].op.key != key
    ensures Lookup(ApplyAll(data, commands), key) == Lookup(data, key)
  {
    if commands == [] {
    } else {
      var k := |commands| - 1;
      UntouchedKeyStays(data, commands[..k], key);
      ApplyOpWrites(ApplyAll(data, commands[..k]), commands[k]);
      hide ApplyOp;
    }
  }

  /** The last command about a key decides: its value if it is a `Set`, absence if it is a
      `Delete`. */
  lemma {:induction false} LastCommandDecides(data: Data, commands: seq<Command>, i: nat)
    requires i < |commands|
    requires forall j | i < j < |commands| :: commands[j].op.key != commands[i].op.key
    ensures var op := commands[i].op;
            Lookup(ApplyAll(data, commands), op.key) == if op.Set? then Some(op.value) else None
  {
    var k := |commands| - 1;
    ApplyOpWrites(ApplyAll(data, commands[..k]), commands[k]);
    if i == k {
      hide ApplyOp;
    } else {
      LastCommandDecides(data, commands[..k], i);
      hide ApplyOp;
    }
  }

  // ── the effects of an action list ───────────────────────────────────────────

  function Sent(actions: seq<Action>): seq<Packet> {
    if actions == [] then []
    else
      var last := actions[|actions| - 1];
      var before := Sent(actions[..|actions| - 1]);
      if last.Send? then before + [Packet(last.to, last.msg)] else before
  }

  function Applied(actions: seq<Action>): seq<Command> {
    if actions == [] then []
    else
      var last := actions[|actions| - 1];
      var before := Applied(actions[..|actions| - 1]);
      if last.ApplyCommand? then before + [last.command] else before
  }

  predicate Persists(actions: seq<Action>) {
    PersistState in actions
  }

  lemma {:induction false} SentIffSend(actions: seq<Action>, p: Packet)
    ensures p in Sent(actions) <==> Send(p.to, p.msg) in actions
  {
    if actions == [] {
    } else {
      var k := |actions| - 1;
      SentIffSend(actions[..k], p);
      assert actions == actions[..k] + [actions[k]];
    }
  }

  lemma {:induction false} AppliedConcat(a: seq<Action>, b: seq<Action>)
    ensures Applied(a + b) == Applied(a) + Applied(b)
  {
    if b == [] {
      assert a + b == a;
    } else {
      var k := |b| - 1;
      AppliedConcat(a, b[..k]);
      assert (a + b)[..|a| + k] == a + b[..k];
    }
  }

  lemma {:induction false} AppliedApplications(commands: seq<Command>)
    ensures Applied(Applications(commands)) == commands
  {
    if commands == [] {
    } else {
      var k := |commands| - 1;
      AppliedApplications(commands[..k]);
      assert Applications(commands)[..k] == Applications(commands[..k]);
      assert commands == commands[..k] + [commands[k]];
    }
  }

  lemma {:induction false} AppliedNothing(actions: seq<Action>)
    requires forall a | a in actions :: !a.ApplyCommand?
    ensures Applied(actions) == []
  {
    if actions == [] {
    } else {
      AppliedNothing(actions[..|actions| - 1]);
    }
  }

  lemma {:induction false} SendsNothing(actions: seq<Action>)
    requires forall a | a in actions :: !a.Send?
    ensures Sent(actions) == []
  {
    if actions == [] {
    } else {
      SendsNothing(actions[..|actions| - 1]);
    }
  }

  /** Executing fewer actions applies fewer commands, in the same order. */
  lemma AppliedPrefix(actions: seq<Action>, k: nat)
    requires k <= |actions|
    ensures Applied(actions[..k]) <= Applied(actions)
  {
    assert actions == actions[..k] + actions[k..];
    AppliedConcat(actions[..k], actions[k..]);
  }

  lemma {:induction false} ApplyAllConcat(data: Data, a: seq<Command>, b: seq<Command>)
    ensures ApplyAll(data, a + b) == ApplyAll(ApplyAll(data, a), b)
  {
    if b == [] {
      assert a + b == a;
    } else {
      var k := |b| - 1;
      ApplyAllConcat(data, a, b[..k]);
      assert (a + b)[..|a| + k] == a + b[..k];
    }
  }

  lemma ApplyAllAppend(data: Data, a: seq<Command>, command: Command)
    ensures ApplyAll(data, a + [command]) == ApplyOp(ApplyAll(data, a), command)
  {
    assert (a + [command])[..|a|] == a;
  }

  lemma NoActions(data: Data)
    ensures !Persists([]) && Sent([]) == [] && Applied([]) == [] && ApplyAll(data, []) == data
  {
  }

  lemma NextAction(actions: seq<Action>, i: nat)
    requires i < |actions|
    ensures Persists(actions[..i + 1]) <==> Persists(actions[..i]) || actions[i].PersistState?
    ensures Sent(actions[..i + 1])
         == if actions[i].Send? then Sent(actions[..i]) + [Packet(actions[i].to, actions[i].msg)]
            else Sent(actions[..i])
    ensures Applied(actions[..i + 1])
         == if actions[i].ApplyCommand? then Applied(actions[..i]) + [actions[i].command]
            else Applied(actions[..i])
  {
    assert actions[..i + 1][..i] == actions[..i];
    assert actions[..i + 1] == actions[..i] + [actions[i]];
  }

  // ── the objects ─────────────────────────────────────────────────────────────

  class KeyValueStore {
    var data: Data

    constructor ()
      ensures data == map[]
    {
      data := map[];
    }

    method Apply(command: Command)
      modifies this
      ensures Written(old(data), command, data)
      ensures data == ApplyOp(old(data), command)
    {
      ApplyOpWrites(data, command);
      match command.op
      case Set(key, value) => data := data[key := value];
      case Delete(key) => data := data - {key};
    }
  }

  /** A running node: the core, its disk, the packets handed to the transport and the
      state machine. */
  class Node {
    const raft: Raft
    const stateMachine: KeyValueStore
    var disk: PersistentState
    var transport: seq<Packet>

    constructor (id: NodeId, peers: seq<NodeId>, initial: Option<PersistentState>)
      ensures fresh(raft) && fresh(stateMachine) && raft.Valid()
      ensures raft.View() == if initial.Some? then Restore(id, peers, initial.value)
                             else New(id, peers)
      ensures disk == if initial.Some? then initial.value else FRESH_DISK
      ensures transport == [] && stateMachine.data == map[]
    {
      if initial.Some? {
        var r := new Raft.Restored(id, peers, initial.value);
        raft := r;
        disk := initial.value;
      } else {
        var r := new Raft(id, peers);
        raft := r;
        disk := FRESH_DISK;
      }
      var store := new KeyValueStore();
      stateMachine := store;
      transport := [];
    }

    /** Execute a list in order. A prefix of the list is what a crash leaves behind: the
        contract holds of any list, so of any prefix. */
    method ProcessActions(actions: seq<Action>)
      modifies this, stateMachine
      ensures disk == if Persists(actions) then raft.persistent else old(disk)
      ensures transport == old(transport) + Sent(actions)
      ensures stateMachine.data == ApplyAll(old(stateMachine.data), Applied(actions))
    {
      var i := 0;
      NoActions(old(stateMachine.data));
      assert actions[..0] == [];
      hide Sent, Applied, Persists, ApplyAll;
      while i < |actions|
        invariant 0 <= i <= |actions|
        invariant disk == if Persists(actions[..i]) then raft.persistent else old(disk)
        invariant transport == old(transport) + Sent(actions[..i])
        invariant stateMachine.data == ApplyAll(old(stateMachine.data), Applied(actions[..i]))
      {
        NextAction(actions, i);
        match actions[i] {
          case Send(to, msg) => transport := transport + [Packet(to, msg)];
          case PersistState => disk := raft.persistent;
          case ApplyCommand(command) =>
            ApplyAllAppend(old(stateMachine.data), Applied(actions[..i]), command);
            stateMachine.Apply(command);
          case ResetElectionTimer =>
          case ResetHeartbeatTimer =>
          case NotLeader(_) =>
        }
        i := i + 1;
      }
      assert actions[..i] == actions;
    }

    method Step(event: Event)
      requires raft.Valid()
      modifies this, raft, stateMachine
      ensures raft.Valid()
      ensures var o := RaftSteps.Step(LastLogIndexRule, old(raft.View()), event);
              && raft.View() == o.state
              && disk == (if Persists(o.actions) then o.state.persistent else old(disk))
              && transport == old(transport) + Sent(o.actions)
              && stateMachine.data == ApplyAll(old(stateMachine.data), Applied(o.actions))
    {
      var actions := raft.Step(event);
      ProcessActions(actions);
    }
  }
}
