/**
 The server's registry of agents, their command queues and the command history.

 Every public method runs under one mutex, so each is one step. The functions
 give the registry after each step; the class performs it in place. The clock
 reading of a step is a parameter.
 */
module AgentRegistry {
  import opened Wrappers
  import opened Sequences

  type Uid = string
  type Time = int

  const EPOCH: Time := 0
  const MAX_COMMAND_HISTORY: nat := 10000
  const HISTORY_PRUNE_COUNT: nat := 1000

  datatype AgentState = Offline | Online | Busy | Error

  datatype AgentInfo = AgentInfo(
    agentId: Uid,
    hostname: string,
    state: AgentState,
    registeredAt: Time,
    lastHeartbeat: Time)

  datatype CommandStatus = Pending | Dispatched | Running | Succeeded | Failed | TimedOut

  datatype Command = Command(
    commandId: Uid,
    agentId: Uid,
    featureUid: string,
    operation: string,
    arguments: map<string, string>,
    status: CommandStatus,
    createdAt: Time,
    completedAt: Time,
    result: string,
    durationMs: int)

  datatype ApiError = InvalidRequest | NotFound

  datatype Registry = Registry(
    agents: map<Uid, AgentInfo>,
    queues: map<Uid, seq<Command>>,
    history: map<Uid, Command>)

  const EmptyRegistry := Registry(map[], map[], map[])

  // ------------------------------------------------------------------
  // Agents
  // ------------------------------------------------------------------

  function WithAgent(r: Registry, info: AgentInfo, now: Time): Registry {
    r.(agents := r.agents[info.agentId :=
         info.(registeredAt := now, lastHeartbeat := now, state := Online)])
  }

  function WithoutAgent(r: Registry, id: Uid): Registry {
    r.(agents := r.agents - {id}, queues := r.queues - {id})
  }

  function WithHeartbeat(r: Registry, id: Uid, now: Time): Registry {
    if id !in r.agents then r
    else
      var a := r.agents[id];
      r.(agents := r.agents[id := a.(lastHeartbeat := now,
                                     state := if a.state.Offline? || a.state.Error? then Online else a.state)])
  }

  function WithState(r: Registry, id: Uid, state: AgentState): Registry {
    if id !in r.agents then r else r.(agents := r.agents[id := r.agents[id].(state := state)])
  }

  /** Agents are stored under their own ids. */
  ghost predicate Keyed(agents: map<Uid, AgentInfo>) {
    forall id :: id in agents ==> agents[id].agentId == id
  }

  ghost predicate ListsSome(agents: map<Uid, AgentInfo>, list: seq<AgentInfo>) {
    && (forall i :: 0 <= i < |list| ==> list[i].agentId in agents && agents[list[i].agentId] == list[i])
    && (forall i, j :: 0 <= i < j < |list| ==> list[i].agentId != list[j].agentId)
  }

  /** A listing: every agent once, in some order. */
  ghost predicate Lists(agents: map<Uid, AgentInfo>, list: seq<AgentInfo>) {
    && ListsSome(agents, list)
    && forall id :: id in agents ==> agents[id] in list
  }

  lemma {:induction false} ListsAll(agents: map<Uid, AgentInfo>, list: seq<AgentInfo>)
    requires Keyed(agents) && ListsSome(agents, list) && |list| == |agents|
    ensures Lists(agents, list)
    decreases |list|
  {
    if list == [] {
      assert agents.Keys == {};
    } else {
      var n := |list| - 1;
      var last := list[n].agentId;
      var others := agents - {last};
      assert others.Keys == agents.Keys - {last};
      ListsAll(others, list[..n]);
      forall id | id in agents ensures agents[id] in list {
        if id != last {
          assert others[id] in list[..n];
        }
      }
    }
  }

  // ------------------------------------------------------------------
  // Commands
  // ------------------------------------------------------------------

  function QueueOf(r: Registry, id: Uid): seq<Command> {
    if id in r.queues then r.queues[id] else []
  }

  function Stamped(cmd: Command, now: Time): Command {
    if cmd.createdAt == EPOCH then cmd.(createdAt := now) else cmd
  }

  /** Pruning removes any 1000 entries of a history that has grown past its limit. */
  predicate LegalPrune(remembered: set<Uid>, pruned: set<Uid>) {
    if |remembered| > MAX_COMMAND_HISTORY then pruned <= remembered && |pruned| == HISTORY_PRUNE_COUNT
    else pruned == {}
  }

  function Remembered(history: map<Uid, Command>, cmd: Command): map<Uid, Command> {
    history[cmd.commandId := cmd]
  }

  function WithCommand(r: Registry, cmd: Command, now: Time, pruned: set<Uid>): Registry {
    if cmd.agentId !in r.agents then r
    else
      var entry := Stamped(cmd, now);
      r.(queues := r.queues[cmd.agentId := QueueOf(r, cmd.agentId) + [entry]],
         history := Remembered(r.history, entry) - pruned)
  }

  /** The batch a dequeue returns. */
  function Taken(queue: seq<Command>): (batch: seq<Command>)
    ensures |batch| == |queue|
    ensures forall i :: 0 <= i < |batch| ==> batch[i] == queue[i].(status := Dispatched)
  {
    if queue == [] then [] else Taken(queue[..|queue| - 1]) + [queue[|queue| - 1].(status := Dispatched)]
  }

  function RememberedAll(history: map<Uid, Command>, batch: seq<Command>): map<Uid, Command> {
    if batch == [] then history
    else Remembered(RememberedAll(history, batch[..|batch| - 1]), batch[|batch| - 1])
  }

  function WithoutQueue(r: Registry, id: Uid): Registry {
    if id !in r.queues then r
    else r.(queues := r.queues[id := []], history := RememberedAll(r.history, Taken(r.queues[id])))
  }

  lemma TakenCons(queue: seq<Command>)
    requires queue != []
    ensures Taken(queue) == [queue[0].(status := Dispatched)] + Taken(queue[1..])
  {}

  lemma {:induction false} RememberedCons(history: map<Uid, Command>, cmd: Command, batch: seq<Command>)
    ensures RememberedAll(history, [cmd] + batch) == RememberedAll(Remembered(history, cmd), batch)
    decreases |batch|
  {
    if batch == [] {
      assert [cmd] + batch == [cmd] && [cmd][..0] == [];
    } else {
      var n := |batch| - 1;
      assert ([cmd] + batch)[..n + 1] == [cmd] + batch[..n];
      RememberedCons(history, cmd, batch[..n]);
    }
  }

  /** The registry after one turn of the dequeue's loop. */
  function WithoutFirst(r: Registry, id: Uid): Registry
    requires QueueOf(r, id) != []
  {
    r.(queues := r.queues[id := QueueOf(r, id)[1..]],
       history := Remembered(r.history, QueueOf(r, id)[0].(status := Dispatched)))
  }

  /** The rest of the loop does what the whole loop would have done. */
  lemma FirstGoes(r: Registry, id: Uid)
    requires QueueOf(r, id) != []
    ensures WithoutQueue(WithoutFirst(r, id), id) == WithoutQueue(r, id)
    ensures Taken(QueueOf(r, id)) ==
              [QueueOf(r, id)[0].(status := Dispatched)] + Taken(QueueOf(WithoutFirst(r, id), id))
  {
    var queue := QueueOf(r, id);
    TakenCons(queue);
    RememberedCons(r.history, queue[0].(status := Dispatched), Taken(queue[1..]));
    assert r.queues[id := queue[1..]][id := []] == r.queues[id := []];
  }

  function WithReport(r: Registry, id: Uid, status: CommandStatus, result: string, durationMs: int, now: Time): Registry
  {
    if id !in r.history then r
    else r.(history := r.history[id := r.history[id].(status := status, result := result,
                                                      durationMs := durationMs, completedAt := now)])
  }

  // ------------------------------------------------------------------
  // The class
  // ------------------------------------------------------------------

  class AgentRegistry {
    var agents: map<Uid, AgentInfo>
    var commandQueues: map<Uid, seq<Command>>
    var commandHistory: map<Uid, Command>

    ghost function Abs(): Registry
      reads this
    {
      Registry(agents, commandQueues, commandHistory)
    }

    constructor ()
      ensures Abs() == EmptyRegistry
    {
      agents, commandQueues, commandHistory := map[], map[], map[];
    }

    method RegisterAgent(info: AgentInfo, now: Time) returns (r: Result<Uid, ApiError>)
      modifies this`agents
      ensures info.agentId == "" ==> r == Failure(InvalidRequest) && Abs() == old(Abs())
      ensures info.agentId != "" ==> r == Success(info.agentId) && Abs() == WithAgent(old(Abs()), info, now)
    {
      if info.agentId == "" {
        return Failure(InvalidRequest);
      }
      var entry := info.(registeredAt := now, lastHeartbeat := now, state := Online);
      agents := agents[entry.agentId := entry];
      r := Success(entry.agentId);
    }

    method UnregisterAgent(id: Uid)
      modifies this`agents, this`commandQueues
      ensures Abs() == WithoutAgent(old(Abs()), id)
    {
      agents := agents - {id};
      commandQueues := commandQueues - {id};
    }

    method FindAgent(id: Uid) returns (r: Result<AgentInfo, ApiError>)
      ensures r == if id in agents then Success(agents[id]) else Failure(NotFound)
    {
      if id !in agents {
        return Failure(NotFound);
      }
      r := Success(agents[id]);
    }

    /** Every agent once, in the order in which the table happens to iterate. */
    method ListAgents() returns (list: seq<AgentInfo>)
      requires Keyed(agents)
      ensures Lists(agents, list)
    {
      list := [];
      var ids := agents.Keys;
      while ids != {}
        invariant ids <= agents.Keys && |list| + |ids| == |agents|
        invariant forall i :: 0 <= i < |list| ==> list[i].agentId !in ids
        invariant ListsSome(agents, list)
      {
        var id :| id in ids;
        list := list + [agents[id]];
        ids := ids - {id};
      }
      ListsAll(agents, list);
    }

    method Heartbeat(id: Uid, now: Time)
      modifies this`agents
      ensures Abs() == WithHeartbeat(old(Abs()), id, now)
    {
      if id !in agents {
        return;
      }
      agents := agents[id := agents[id].(lastHeartbeat := now)];
      if agents[id].state == Offline || agents[id].state == Error {
        agents := agents[id := agents[id].(state := Online)];
      }
    }

    method UpdateState(id: Uid, state: AgentState)
      modifies this`agents
      ensures Abs() == WithState(old(Abs()), id, state)
    {
      if id !in agents {
        return;
      }
      agents := agents[id := agents[id].(state := state)];
    }

    method QueueCommand(cmd: Command, now: Time) returns (ghost pruned: set<Uid>)
      modifies this`commandQueues, this`commandHistory
      ensures Abs() == WithCommand(old(Abs()), cmd, now, pruned)
      ensures cmd.agentId in agents ==> LegalPrune(old(commandHistory).Keys + {cmd.commandId}, pruned)
    {
      pruned := {};
      if cmd.agentId !in agents {
        return;
      }
      var entry := cmd;
      if entry.createdAt == EPOCH {
        entry := entry.(createdAt := now);
      }
      var queue := if entry.agentId in commandQueues then commandQueues[entry.agentId] else [];
      commandQueues := commandQueues[entry.agentId := queue + [entry]];
      commandHistory := commandHistory[entry.commandId := entry];
      assert commandHistory.Keys == old(commandHistory).Keys + {cmd.commandId};

      pruned := PruneHistory();
    }

    /** The tail of queueCommand: erase from wherever iteration starts. */
    method PruneHistory() returns (ghost pruned: set<Uid>)
      modifies this`commandHistory
      ensures LegalPrune(old(commandHistory).Keys, pruned)
      ensures commandHistory == old(commandHistory) - pruned
    {
      pruned := {};
      if |commandHistory| > MAX_COMMAND_HISTORY {
        var i := 0;
        while i < HISTORY_PRUNE_COUNT && commandHistory != map[]
          invariant i <= HISTORY_PRUNE_COUNT
          invariant pruned <= old(commandHistory).Keys && |pruned| == i
          invariant commandHistory == old(commandHistory) - pruned
          invariant |commandHistory| == |old(commandHistory).Keys| - i
        {
          var id :| id in commandHistory;
          commandHistory := commandHistory - {id};
          pruned := pruned + {id};
          assert commandHistory == old(commandHistory) - pruned;
          i := i + 1;
        }
      }
    }

    /** One turn of the loop below. */
    method TakeFirst(id: Uid) returns (cmd: Command)
      requires QueueOf(Abs(), id) != []
      modifies this`commandQueues, this`commandHistory
      ensures cmd == QueueOf(old(Abs()), id)[0].(status := Dispatched)
      ensures Abs() == WithoutFirst(old(Abs()), id)
    {
      cmd := commandQueues[id][0];
      commandQueues := commandQueues[id := commandQueues[id][1..]];
      cmd := cmd.(status := Dispatched);
      commandHistory := commandHistory[cmd.commandId := cmd];
    }

    method DequeuePendingCommands(id: Uid) returns (batch: seq<Command>)
      modifies this`commandQueues, this`commandHistory
      ensures batch == Taken(QueueOf(old(Abs()), id))
      ensures Abs() == WithoutQueue(old(Abs()), id)
    {
      if id !in commandQueues {
        return [];
      }
      batch := [];
      while commandQueues[id] != []
        invariant id in commandQueues
        invariant agents == old(agents)
        invariant WithoutQueue(Abs(), id) == WithoutQueue(old(Abs()), id)
        invariant batch + Taken(commandQueues[id]) == Taken(QueueOf(old(Abs()), id))
        decreases |commandQueues[id]|
      {
        FirstGoes(Abs(), id);
        ghost var rest := Taken(commandQueues[id][1..]);
        var cmd := TakeFirst(id);
        AppendAssoc(batch, [cmd], rest);
        batch := batch + [cmd];
      }
      assert commandQueues[id := []] == commandQueues;
    }

    method ReportCommandResult(id: Uid, status: CommandStatus, result: string, durationMs: int, now: Time)
      modifies this`commandHistory
      ensures Abs() == WithReport(old(Abs()), id, status, result, durationMs, now)
    {
      if id !in commandHistory {
        return;
      }
      var entry := commandHistory[id];
      entry := entry.(status := status);
      entry := entry.(result := result);
      entry := entry.(durationMs := durationMs);
      entry := entry.(completedAt := now);
      commandHistory := commandHistory[id := entry];
    }

    method FindCommand(id: Uid) returns (r: Result<Command, ApiError>)
      ensures r == if id in commandHistory then Success(commandHistory[id]) else Failure(NotFound)
    {
      if id !in commandHistory {
        return Failure(NotFound);
      }
      r := Success(commandHistory[id]);
    }
  }
}
