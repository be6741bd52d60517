/** What pruning does to the command history: which entries may go, and why the limit is no bound. */
module HistoryPruning {
  import opened Wrappers
  import opened AgentRegistry
  import opened CommandDelivery
  import opened CommandHistory

  // ------------------------------------------------------------------
  // Pruning may take the newest entry
  // ------------------------------------------------------------------

  lemma SubsetWith<T>(s: set<T>, x: T, n: nat) returns (t: set<T>)
    requires x in s && 1 <= n <= |s|
    ensures x in t && t <= s && |t| == n
  {
    t := s;
    if n < |s| {
      assert |s - {x}| == |s| - 1;
      var y :| y in s - {x};
      t := SubsetWith(s - {y}, x, n);
    }
  }

  /**
   queueCommand may forget the very command it queues, so that findCommand does not
   know it, exactly when that command takes the history over its limit.
   */
  lemma NewestMayBePrunedIff(r: Registry, cmd: Command, now: Time)
    requires cmd.agentId in r.agents
    ensures var remembered := r.history.Keys + {cmd.commandId};
            (exists pruned :: LegalPrune(remembered, pruned)
                              && cmd.commandId !in WithCommand(r, cmd, now, pruned).history)
            <==> |remembered| > 10000
  {
    var remembered := r.history.Keys + {cmd.commandId};
    if |remembered| > MAX_COMMAND_HISTORY {
      var pruned := SubsetWith(remembered, cmd.commandId, HISTORY_PRUNE_COUNT);
      assert LegalPrune(remembered, pruned) && cmd.commandId !in WithCommand(r, cmd, now, pruned).history;
    }
  }

  // ------------------------------------------------------------------
  // A dequeue puts pruned entries back
  // ------------------------------------------------------------------

  lemma DequeueRemembers(r: Registry, id: Uid)
    ensures WithoutQueue(r, id).history.Keys == r.history.Keys + Ids(QueueOf(r, id))
  {
    var batch := Taken(QueueOf(r, id));
    TakenIds(QueueOf(r, id));
    forall cid ensures cid in RememberedAll(r.history, batch) <==> cid in r.history.Keys + Ids(batch) {
      RememberedAllAt(r.history, batch, cid);
    }
  }

  /** A dequeue leaves the history within its limit exactly when history and queue together name no more commands. */
  lemma DequeueKeepsLimitIff(r: Registry, id: Uid)
    ensures |WithoutQueue(r, id).history| <= 10000
        <==> |r.history.Keys + Ids(QueueOf(r, id))| <= 10000
  {
    DequeueRemembers(r, id);
    assert |WithoutQueue(r, id).history| == |WithoutQueue(r, id).history.Keys|;
  }

  // ------------------------------------------------------------------
  // A run that exceeds the limit
  // ------------------------------------------------------------------

  function Name(i: nat): Uid {
    seq(i, _ => 'x')
  }

  function Names(n: nat): set<Uid> {
    if n == 0 then {} else Names(n - 1) + {Name(n - 1)}
  }

  lemma {:induction false} NamesCount(n: nat)
    ensures |Names(n)| == n
    ensures forall name :: name in Names(n) ==> |name| < n
  {
    if n > 0 {
      NamesCount(n - 1);
    }
  }

  function NamedCommand(agent: Uid, i: nat): Command {
    Command.Command(Name(i), agent, "", "", map[], Pending, 1, 0, "", 0)
  }

  /** Register an agent, and queue n commands of different names for it. */
  function Filling(info: AgentInfo, n: nat): seq<Event> {
    if n == 0 then [Register(info, 0)]
    else Filling(info, n - 1) + [Queue(NamedCommand(info.agentId, n - 1), 1, {})]
  }

  /** The step of an accepted command, as far as the registry goes. */
  lemma QueueRuns(es: seq<Event>, cmd: Command, pruned: set<Uid>)
    requires cmd.createdAt != EPOCH && cmd.agentId in Run(Init, es).reg.agents
    requires LegalPrune(Run(Init, es).reg.history.Keys + {cmd.commandId}, pruned)
    ensures Run(Init, es + [Queue(cmd, 1, pruned)]).reg == WithCommand(Run(Init, es).reg, cmd, 1, pruned)
  {
    RunAppend(Init, es, Queue(cmd, 1, pruned));
  }

  lemma QueueAddsId(r: Registry, cmd: Command, pruned: set<Uid>)
    requires cmd.agentId in r.agents && cmd.createdAt != EPOCH
    ensures var r' := WithCommand(r, cmd, 1, pruned);
            && Ids(QueueOf(r', cmd.agentId)) == Ids(QueueOf(r, cmd.agentId)) + {cmd.commandId}
            && r'.history.Keys == r.history.Keys + {cmd.commandId} - pruned
            && r'.agents == r.agents
  {
    var queue := QueueOf(r, cmd.agentId);
    assert QueueOf(WithCommand(r, cmd, 1, pruned), cmd.agentId) == queue + [cmd];
  }

  /** The registry knows the agent, and its queue and the history name the first n commands. */
  ghost predicate HoldsNames(r: Registry, agent: Uid, n: nat) {
    agent in r.agents && Ids(QueueOf(r, agent)) == Names(n) && r.history.Keys == Names(n)
  }

  lemma OneMoreName(r: Registry, agent: Uid, n: nat)
    requires HoldsNames(r, agent, n)
    ensures r.history.Keys + {NamedCommand(agent, n).commandId} == Names(n + 1)
    ensures |Names(n + 1)| == n + 1
  {
    NamesCount(n + 1);
  }

  lemma RegisteredRuns(info: AgentInfo)
    requires info.agentId != ""
    ensures HoldsNames(Run(Init, [Register(info, 0)]).reg, info.agentId, 0)
  {
    assert [] + [Register(info, 0)] == [Register(info, 0)];
    RunAppend(Init, [], Register(info, 0));
  }

  lemma NamedCommandIsKept(r: Registry, agent: Uid, n: nat)
    requires HoldsNames(r, agent, n)
    ensures HoldsNames(WithCommand(r, NamedCommand(agent, n), 1, {}), agent, n + 1)
  {
    QueueAddsId(r, NamedCommand(agent, n), {});
    NamesCount(n);
  }

  lemma FillingGoesOn(info: AgentInfo, n: nat)
    requires n < MAX_COMMAND_HISTORY && HoldsNames(Run(Init, Filling(info, n)).reg, info.agentId, n)
    ensures HoldsNames(Run(Init, Filling(info, n + 1)).reg, info.agentId, n + 1)
  {
    var es, id := Filling(info, n), info.agentId;
    var cmd := NamedCommand(id, n);
    var reg := Run(Init, es).reg;
    OneMoreName(reg, id, n);
    QueueRuns(es, cmd, {});
    NamedCommandIsKept(reg, id, n);
    assert Filling(info, n + 1) == es + [Queue(cmd, 1, {})];
  }

  lemma {:induction false} FillingFills(info: AgentInfo, n: nat)
    requires info.agentId != "" && n <= MAX_COMMAND_HISTORY
    ensures HoldsNames(Run(Init, Filling(info, n)).reg, info.agentId, n)
  {
    if n == 0 {
      assert Filling(info, 0) == [Register(info, 0)];
      RegisteredRuns(info);
    } else {
      FillingFills(info, n - 1);
      FillingGoesOn(info, n - 1);
    }
  }

  lemma PutBackKeys(r: Registry, agent: Uid, n: nat, pruned: set<Uid>)
    requires HoldsNames(r, agent, n)
    ensures WithoutQueue(WithCommand(r, NamedCommand(agent, n), 1, pruned), agent).history.Keys == Names(n + 1)
  {
    QueueAddsId(r, NamedCommand(agent, n), pruned);
    DequeueRemembers(WithCommand(r, NamedCommand(agent, n), 1, pruned), agent);
  }

  lemma PutBack(r: Registry, agent: Uid, n: nat, pruned: set<Uid>)
    requires HoldsNames(r, agent, n)
    ensures |WithoutQueue(WithCommand(r, NamedCommand(agent, n), 1, pruned), agent).history| == n + 1
  {
    PutBackKeys(r, agent, n, pruned);
    NamesCount(n + 1);
    SizeIsKeys(WithoutQueue(WithCommand(r, NamedCommand(agent, n), 1, pruned), agent).history);
  }

  lemma SizeIsKeys(history: map<Uid, Command>)
    ensures |history| == |history.Keys|
  {}

  lemma DrainRuns(es: seq<Event>, id: Uid)
    ensures Run(Init, es + [Drain(id)]).reg == WithoutQueue(Run(Init, es).reg, id)
  {
    RunAppend(Init, es, Drain(id));
  }

  /** The history holds 10001 commands after as many are queued, a thousand pruned, and all dequeued. */
  lemma HistoryExceedsItsLimit(info: AgentInfo) returns (es: seq<Event>)
    requires info.agentId != ""
    ensures |Run(Init, es).reg.history| == 10001
  {
    var n, id := MAX_COMMAND_HISTORY, info.agentId;
    var filled, cmd := Filling(info, n), NamedCommand(id, n);
    var reg := Run(Init, filled).reg;
    FillingFills(info, n);
    OneMoreName(reg, id, n);
    NamesCount(n);
    NamesCount(n + 1);
    var pruned := SubsetWith(Names(n + 1), cmd.commandId, HISTORY_PRUNE_COUNT);
    QueueRuns(filled, cmd, pruned);
    DrainRuns(filled + [Queue(cmd, 1, pruned)], id);
    PutBack(reg, id, n, pruned);
    es := filled + [Queue(cmd, 1, pruned)] + [Drain(id)];
  }
}
