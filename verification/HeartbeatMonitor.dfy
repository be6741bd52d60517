/**
 The heartbeat monitor: it lists the agents, reads the clock, and then marks the
 stale ones offline one at a time, while other threads keep using the registry.
 */
module HeartbeatMonitor {
  import opened Sequences
  import opened AgentRegistry

  predicate Due(agent: AgentInfo, now: Time, timeout: Time) {
    !agent.state.Offline? && now - agent.lastHeartbeat > timeout
  }

  /** The ids of the stale agents of a listing, in its order. */
  function DueIds(list: seq<AgentInfo>, now: Time, timeout: Time): seq<Uid> {
    if list == [] then []
    else
      var n := |list| - 1;
      DueIds(list[..n], now, timeout) + if Due(list[n], now, timeout) then [list[n].agentId] else []
  }

  function MarkedAll(reg: Registry, ids: seq<Uid>): Registry {
    if ids == [] then reg else WithState(MarkedAll(reg, ids[..|ids| - 1]), ids[|ids| - 1], Offline)
  }

  lemma DueIdsNext(list: seq<AgentInfo>, i: nat, now: Time, timeout: Time)
    requires i < |list|
    ensures var ids := DueIds(list[..i], now, timeout);
            DueIds(list[..i + 1], now, timeout) ==
              if Due(list[i], now, timeout) then ids + [list[i].agentId] else ids
  {
    assert list[..i + 1][..i] == list[..i];
  }

  lemma MarkedAllNext(reg: Registry, ids: seq<Uid>, id: Uid)
    ensures MarkedAll(reg, ids + [id]) == WithState(MarkedAll(reg, ids), id, Offline)
  {
    assert (ids + [id])[..|ids|] == ids;
  }

  // ------------------------------------------------------------------
  // One sweep with nobody else about
  // ------------------------------------------------------------------

  class HeartbeatMonitor {
    const registry: AgentRegistry
    const timeout: Time
    var reported: seq<Uid>

    constructor (registry: AgentRegistry, timeout: Time)
      ensures this.registry == registry && this.timeout == timeout && reported == []
    {
      this.registry, this.timeout, reported := registry, timeout, [];
    }

    /** The body of the loop: a stale agent is marked and reported. */
    method Examine(agent: AgentInfo, now: Time)
      modifies this`reported, registry`agents
      ensures reported == if Due(agent, now, timeout) then old(reported) + [agent.agentId] else old(reported)
      ensures registry.Abs() ==
                if Due(agent, now, timeout) then WithState(old(registry.Abs()), agent.agentId, Offline)
                else old(registry.Abs())
    {
      if !agent.state.Offline? {
        var elapsed := now - agent.lastHeartbeat;
        if elapsed > timeout {
          registry.UpdateState(agent.agentId, Offline);
          reported := reported + [agent.agentId];
        }
      }
    }

    method Sweep(now: Time) returns (ghost list: seq<AgentInfo>)
      requires Keyed(registry.agents)
      modifies this`reported, registry`agents
      ensures Lists(old(registry.agents), list)
      ensures reported == old(reported) + DueIds(list, now, timeout)
      ensures registry.Abs() == MarkedAll(old(registry.Abs()), DueIds(list, now, timeout))
    {
      var agents := registry.ListAgents();
      list := agents;
      var i := 0;
      while i < |agents|
        invariant 0 <= i <= |agents| && list == agents
        invariant reported == old(reported) + DueIds(list[..i], now, timeout)
        invariant registry.Abs() == MarkedAll(old(registry.Abs()), DueIds(list[..i], now, timeout))
      {
        ghost var ids := DueIds(list[..i], now, timeout);
        DueIdsNext(list, i, now, timeout);
        MarkedAllNext(old(registry.Abs()), ids, agents[i].agentId);
        AppendAssoc(old(reported), ids, [agents[i].agentId]);
        Examine(agents[i], now);
        i := i + 1;
      }
      assert list[..i] == list;
    }
  }

  lemma {:induction false} DueIdsAre(list: seq<AgentInfo>, now: Time, timeout: Time)
    ensures forall id :: id in DueIds(list, now, timeout) <==>
              exists i :: 0 <= i < |list| && list[i].agentId == id && Due(list[i], now, timeout)
  {
    if list != [] {
      var n := |list| - 1;
      DueIdsAre(list[..n], now, timeout);
      assert list == list[..n] + [list[n]];
    }
  }

  lemma {:induction false} MarkedAllAt(reg: Registry, ids: seq<Uid>)
    ensures var reg' := MarkedAll(reg, ids);
            && reg'.agents.Keys == reg.agents.Keys && reg'.queues == reg.queues && reg'.history == reg.history
            && forall id :: id in reg.agents ==>
                 reg'.agents[id] == if id in ids then reg.agents[id].(state := Offline) else reg.agents[id]
  {
    if ids != [] {
      var n := |ids| - 1;
      MarkedAllAt(reg, ids[..n]);
      assert ids == ids[..n] + [ids[n]];
    }
  }

  /** An undisturbed sweep takes exactly the stale agents offline, and reports each of them once. */
  lemma SweepMarksTheStale(reg: Registry, list: seq<AgentInfo>, now: Time, timeout: Time)
    requires Keyed(reg.agents) && Lists(reg.agents, list)
    ensures var reg' := MarkedAll(reg, DueIds(list, now, timeout));
            && reg'.agents.Keys == reg.agents.Keys
            && forall id :: id in reg.agents ==>
                 reg'.agents[id] ==
                   var agent := reg.agents[id];
                   if agent.lastHeartbeat + timeout < now then agent.(state := Offline) else agent
    ensures forall id :: id in reg.agents ==>
              var agent := reg.agents[id];
              multiset(DueIds(list, now, timeout))[id] ==
                if agent.state != Offline && agent.lastHeartbeat + timeout < now then 1 else 0
  {
    var ids := DueIds(list, now, timeout);
    MarkedAllAt(reg, ids);
    DueIdsAre(list, now, timeout);
    forall id | id in reg.agents ensures id in ids <==> Due(reg.agents[id], now, timeout) {
      assert reg.agents[id] in list;
    }
    forall id | id in reg.agents ensures multiset(ids)[id] <= 1 {
      DueOnce(reg.agents, list, now, timeout, id);
    }
  }

  lemma {:induction false} DueOnce(agents: map<Uid, AgentInfo>, list: seq<AgentInfo>, now: Time, timeout: Time, id: Uid)
    requires ListsSome(agents, list)
    ensures multiset(DueIds(list, now, timeout))[id] <= 1
    decreases |list|
  {
    if list != [] {
      var n := |list| - 1;
      DueOnce(agents, list[..n], now, timeout, id);
      DueIdsAre(list[..n], now, timeout);
      var front, last := DueIds(list[..n], now, timeout), list[n].agentId;
      assert last !in front;
      assert multiset(front)[last] == 0;
    }
  }
}
