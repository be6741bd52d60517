/**
 Monitor sweeps interleaved with everything else that happens to the registry.

 A step that is not enabled leaves the state alone, so every list of events is a run.
 */
module SweepInterleavings {
  import opened Wrappers
  import opened AgentRegistry
  import opened HeartbeatMonitor

  /** What is left of the current sweep, and the agent whose callback is running. */
  datatype State = State(reg: Registry, timeout: Time, rest: seq<AgentInfo>, now: Time, calling: Option<Uid>)

  function Init(timeout: Time): State {
    State(EmptyRegistry, timeout, [], 0, None)
  }

  datatype Event =
    | Register(info: AgentInfo, now: Time)
    | Unregister(id: Uid)
    | Beat(id: Uid, now: Time)
    | SetState(id: Uid, state: AgentState)
    | Snapshot(list: seq<AgentInfo>, now: Time)
    | Examine
    | Callback

  ghost predicate StartsSweep(s: State, e: Event) {
    e.Snapshot? && s.rest == [] && s.calling.None? && Lists(s.reg.agents, e.list)
  }

  predicate Marks(s: State, e: Event) {
    e.Examine? && s.calling.None? && s.rest != [] && Due(s.rest[0], s.now, s.timeout)
  }

  ghost function Step(s: State, e: Event): State {
    match e
    case Register(info, now) => if info.agentId == "" then s else s.(reg := WithAgent(s.reg, info, now))
    case Unregister(id) => s.(reg := WithoutAgent(s.reg, id))
    case Beat(id, now) => s.(reg := WithHeartbeat(s.reg, id, now))
    case SetState(id, state) => s.(reg := WithState(s.reg, id, state))
    case Snapshot(list, now) => if StartsSweep(s, e) then s.(rest := list, now := now) else s
    case Examine =>
      if s.rest == [] || s.calling.Some? then s
      else if Marks(s, e) then
        s.(reg := WithState(s.reg, s.rest[0].agentId, Offline),
           calling := Some(s.rest[0].agentId),
           rest := s.rest[1..])
      else s.(rest := s.rest[1..])
    case Callback =>
      if s.calling.None? then s
      else s.(reg := WithState(s.reg, s.calling.value, Offline), calling := None)
  }

  ghost function Run(s: State, es: seq<Event>): State
    decreases |es|
  {
    if es == [] then s else Step(Run(s, es[..|es| - 1]), es[|es| - 1])
  }

  ghost function At(timeout: Time, es: seq<Event>, k: nat): State
    requires k <= |es|
  {
    Run(Init(timeout), es[..k])
  }

  lemma AtStep(timeout: Time, es: seq<Event>, k: nat)
    requires k < |es|
    ensures At(timeout, es, k + 1) == Step(At(timeout, es, k), es[k])
  {
    assert es[..k + 1][..k] == es[..k];
  }

  /** Step k of the run reports the agent offline. */
  ghost predicate ReportsAt(timeout: Time, es: seq<Event>, k: nat, id: Uid)
    requires k < |es|
  {
    var s := At(timeout, es, k);
    Marks(s, es[k]) && s.rest[0].agentId == id
  }

  /** The step that took the listing of the sweep in progress before step k. */
  ghost function SweepStart(timeout: Time, es: seq<Event>, k: nat): (m: Option<nat>)
    requires k <= |es|
    ensures m.Some? ==> m.value < k && es[m.value].Snapshot?
    decreases k
  {
    if k == 0 then None
    else if StartsSweep(At(timeout, es, k - 1), es[k - 1]) then Some(k - 1)
    else SweepStart(timeout, es, k - 1)
  }

  // ------------------------------------------------------------------
  // A sweep can always start
  // ------------------------------------------------------------------

  lemma StepKeepsKeyed(s: State, e: Event)
    requires Keyed(s.reg.agents)
    ensures Keyed(Step(s, e).reg.agents)
  {}

  lemma {:induction false} RunIsKeyed(timeout: Time, es: seq<Event>)
    ensures Keyed(Run(Init(timeout), es).reg.agents)
    decreases |es|
  {
    if es != [] {
      RunIsKeyed(timeout, es[..|es| - 1]);
      StepKeepsKeyed(Run(Init(timeout), es[..|es| - 1]), es[|es| - 1]);
    }
  }

  lemma {:induction false} ListingExists(agents: map<Uid, AgentInfo>) returns (list: seq<AgentInfo>)
    requires Keyed(agents)
    ensures Lists(agents, list)
    decreases |agents|
  {
    list := [];
    if agents != map[] {
      var id :| id in agents;
      var others := ListingExists(agents - {id});
      list := others + [agents[id]];
      assert list[|others|] == agents[id];
      forall other | other in agents ensures agents[other] in list {
        if other != id {
          assert (agents - {id})[other] in others;
        }
      }
    }
  }

  /** In every run agents are stored under their own ids, so that a listing exists and an idle monitor can start a sweep. */
  lemma IdleMonitorCanSweep(timeout: Time, es: seq<Event>, now: Time)
    ensures var s := Run(Init(timeout), es);
            && Keyed(s.reg.agents)
            && (s.rest == [] && s.calling.None? ==> exists list :: StartsSweep(s, Snapshot(list, now)))
  {
    RunIsKeyed(timeout, es);
    var s := Run(Init(timeout), es);
    var list := ListingExists(s.reg.agents);
    assert StartsSweep(s, Snapshot(list, now)) || s.rest != [] || s.calling.Some?;
  }

  // ------------------------------------------------------------------
  // Only stale agents are reported
  // ------------------------------------------------------------------

  ghost predicate FromListing(s: State, start: State) {
    forall i :: 0 <= i < |s.rest| ==>
      s.rest[i].agentId in start.reg.agents && start.reg.agents[s.rest[i].agentId] == s.rest[i]
  }

  lemma {:induction false} SweepUsesItsListing(timeout: Time, es: seq<Event>, k: nat)
    requires k <= |es|
    ensures var s, m := At(timeout, es, k), SweepStart(timeout, es, k);
            if m.None? then s.rest == []
            else s.now == es[m.value].now && FromListing(s, At(timeout, es, m.value))
    ensures At(timeout, es, k).timeout == timeout
    decreases k
  {
    if k > 0 {
      SweepUsesItsListing(timeout, es, k - 1);
      AtStep(timeout, es, k - 1);
      var m := SweepStart(timeout, es, k - 1);
      if m.Some? && !StartsSweep(At(timeout, es, k - 1), es[k - 1]) {
        StepUsesListing(At(timeout, es, k - 1), es[k - 1], At(timeout, es, m.value));
      }
    }
  }

  lemma StepUsesListing(s: State, e: Event, start: State)
    requires FromListing(s, start) && !StartsSweep(s, e)
    ensures FromListing(Step(s, e), start) && Step(s, e).now == s.now && Step(s, e).timeout == s.timeout
  {}

  /**
   Whatever else goes on, an agent is reported offline only if at the listing of that
   sweep it was registered, not offline, and silent for longer than the timeout.
   */
  lemma ReportedWasStale(timeout: Time, es: seq<Event>, k: nat, id: Uid)
    requires k < |es| && ReportsAt(timeout, es, k, id)
    ensures var m := SweepStart(timeout, es, k);
            && m.Some?
            && var agents := At(timeout, es, m.value).reg.agents;
               id in agents && Due(agents[id], es[m.value].now, timeout)
  {
    SweepUsesItsListing(timeout, es, k);
  }

  /** Step k marks the agent offline: the examination that reports it, or the callback after it. */
  ghost predicate MarksAt(timeout: Time, es: seq<Event>, k: nat, id: Uid)
    requires k < |es|
  {
    ReportsAt(timeout, es, k, id) || (es[k].Callback? && At(timeout, es, k).calling == Some(id))
  }

  /** The sweep in progress before step k listed the agent as stale. */
  ghost predicate WasStale(timeout: Time, es: seq<Event>, k: nat, id: Uid)
    requires k <= |es|
  {
    var m := SweepStart(timeout, es, k);
    && m.Some?
    && var agents := At(timeout, es, m.value).reg.agents;
       id in agents && Due(agents[id], es[m.value].now, timeout)
  }

  lemma {:induction false} CalledWasStale(timeout: Time, es: seq<Event>, k: nat, id: Uid)
    requires k <= |es| && At(timeout, es, k).calling == Some(id)
    ensures WasStale(timeout, es, k, id)
    decreases k
  {
    AtStep(timeout, es, k - 1);
    if At(timeout, es, k - 1).calling == Some(id) {
      CalledWasStale(timeout, es, k - 1, id);
    } else {
      ReportedWasStale(timeout, es, k - 1, id);
    }
  }

  /**
   The same holds of every step that marks an agent offline, the callback's second mark
   included: the listing of that sweep showed it as stale.
   */
  lemma MarkedWasStale(timeout: Time, es: seq<Event>, k: nat, id: Uid)
    requires k < |es| && MarksAt(timeout, es, k, id)
    ensures WasStale(timeout, es, k, id)
  {
    if ReportsAt(timeout, es, k, id) {
      ReportedWasStale(timeout, es, k, id);
    } else {
      CalledWasStale(timeout, es, k, id);
    }
  }

  /** An agent that is up goes down only by unregistration, by another's state update, or by one of those marks. */
  lemma DownForCause(timeout: Time, es: seq<Event>, k: nat, id: Uid)
    requires k < |es| && Up(At(timeout, es, k), id) && !Up(Step(At(timeout, es, k), es[k]), id)
    ensures es[k] == Unregister(id) || es[k] == SetState(id, Offline)
         || (MarksAt(timeout, es, k, id) && WasStale(timeout, es, k, id))
  {
    if MarksAt(timeout, es, k, id) {
      MarkedWasStale(timeout, es, k, id);
    }
  }

  // ------------------------------------------------------------------
  // No agent is reported again before it has come back
  // ------------------------------------------------------------------

  predicate Up(s: State, id: Uid) {
    id in s.reg.agents && !s.reg.agents[id].state.Offline?
  }

  /** Step k brings the agent back: before it the agent was offline or unknown, after it neither. */
  ghost predicate ComesBackAt(timeout: Time, es: seq<Event>, k: nat, id: Uid)
    requires k < |es|
  {
    !Up(At(timeout, es, k), id) && Up(Step(At(timeout, es, k), es[k]), id)
  }

  lemma {:induction false} CameBackBetween(timeout: Time, es: seq<Event>, i: nat, j: nat, id: Uid)
    requires i <= j <= |es|
    requires !Up(At(timeout, es, i), id) && Up(At(timeout, es, j), id)
    ensures exists k :: i <= k < j && ComesBackAt(timeout, es, k, id)
    decreases j
  {
    AtStep(timeout, es, j - 1);
    if Up(At(timeout, es, j - 1), id) {
      CameBackBetween(timeout, es, i, j - 1, id);
    } else {
      assert ComesBackAt(timeout, es, j - 1, id);
    }
  }

  /** The agents still to be examined are different ones. */
  ghost predicate DistinctIds(list: seq<AgentInfo>) {
    forall i, j :: 0 <= i < j < |list| ==> list[i].agentId != list[j].agentId
  }

  lemma {:induction false} RestIsDistinct(timeout: Time, es: seq<Event>, k: nat)
    requires k <= |es|
    ensures DistinctIds(At(timeout, es, k).rest)
    decreases k
  {
    if k > 0 {
      RestIsDistinct(timeout, es, k - 1);
      AtStep(timeout, es, k - 1);
    }
  }

  ghost predicate Awaits(s: State, id: Uid) {
    exists i :: 0 <= i < |s.rest| && s.rest[i].agentId == id
  }

  lemma StepAwaits(s: State, e: Event, id: Uid)
    requires Awaits(Step(s, e), id) && !StartsSweep(s, e)
    ensures Awaits(s, id)
  {
    var i :| 0 <= i < |Step(s, e).rest| && Step(s, e).rest[i].agentId == id;
    if Step(s, e).rest != s.rest {
      assert s.rest[i + 1].agentId == id;
    }
  }

  /** An agent examined at step i can only be awaited again by a sweep that started later. */
  lemma ReportedIsNotAwaited(timeout: Time, es: seq<Event>, i: nat, id: Uid)
    requires i < |es| && ReportsAt(timeout, es, i, id)
    ensures !Awaits(Step(At(timeout, es, i), es[i]), id)
  {
    RestIsDistinct(timeout, es, i);
  }

  lemma {:induction false} AwaitedAgain(timeout: Time, es: seq<Event>, i: nat, j: nat, id: Uid)
    requires i < j <= |es| && ReportsAt(timeout, es, i, id) && Awaits(At(timeout, es, j), id)
    ensures var m := SweepStart(timeout, es, j); m.Some? && i < m.value
    decreases j
  {
    AtStep(timeout, es, j - 1);
    if i == j - 1 {
      ReportedIsNotAwaited(timeout, es, i, id);
    } else if !StartsSweep(At(timeout, es, j - 1), es[j - 1]) {
      StepAwaits(At(timeout, es, j - 1), es[j - 1], id);
      AwaitedAgain(timeout, es, i, j - 1, id);
    }
  }

  /**
   Between two reports of the same agent, and before the listing of the later
   report's sweep, some step brought the agent back.
   */
  lemma ReportedAgainCameBack(timeout: Time, es: seq<Event>, i: nat, j: nat, id: Uid)
    requires i < j < |es| && ReportsAt(timeout, es, i, id) && ReportsAt(timeout, es, j, id)
    ensures var m := SweepStart(timeout, es, j);
            m.Some? && exists k :: i < k < m.value && ComesBackAt(timeout, es, k, id)
  {
    assert Awaits(At(timeout, es, j), id);
    AwaitedAgain(timeout, es, i, j, id);
    ReportedWasStale(timeout, es, j, id);
    AtStep(timeout, es, i);
    CameBackBetween(timeout, es, i + 1, SweepStart(timeout, es, j).value, id);
  }

  // ------------------------------------------------------------------
  // A heartbeat that comes between the listing and the mark
  // ------------------------------------------------------------------

  predicate Renews(s: State, e: Event, id: Uid) {
    || (e.Register? && id != "" && e.info.agentId == id)
    || (e.Beat? && e.id == id && id in s.reg.agents)
  }

  lemma StepRenews(s: State, e: Event, id: Uid)
    requires id in Step(s, e).reg.agents
    ensures var last := Step(s, e).reg.agents[id].lastHeartbeat;
            if Renews(s, e, id) then last == e.now
            else id in s.reg.agents && last == s.reg.agents[id].lastHeartbeat
  {}

  /** Step k renews the agent's heartbeat time. */
  ghost predicate RenewsAt(timeout: Time, es: seq<Event>, k: nat, id: Uid)
    requires k < |es|
    ensures RenewsAt(timeout, es, k, id) ==> es[k].Register? || es[k].Beat?
  {
    Renews(At(timeout, es, k), es[k], id)
  }

  /** The last step from lo on and before k that renews it. */
  ghost function LastRenewal(timeout: Time, es: seq<Event>, lo: nat, k: nat, id: Uid): (h: Option<nat>)
    requires lo <= k <= |es|
    ensures h.Some? ==> lo <= h.value < k && (es[h.value].Register? || es[h.value].Beat?)
    decreases k
  {
    if k == lo then None
    else if RenewsAt(timeout, es, k - 1, id) then Some(k - 1)
    else LastRenewal(timeout, es, lo, k - 1, id)
  }

  lemma {:induction false} HeartbeatTimeIsLastRenewal(timeout: Time, es: seq<Event>, lo: nat, k: nat, id: Uid)
    requires lo <= k <= |es| && id in At(timeout, es, k).reg.agents
    ensures var h, last := LastRenewal(timeout, es, lo, k, id), At(timeout, es, k).reg.agents[id].lastHeartbeat;
            if h.Some? then last == es[h.value].now
            else id in At(timeout, es, lo).reg.agents && last == At(timeout, es, lo).reg.agents[id].lastHeartbeat
    decreases k
  {
    if lo < k {
      AtStep(timeout, es, k - 1);
      StepRenews(At(timeout, es, k - 1), es[k - 1], id);
      if !Renews(At(timeout, es, k - 1), es[k - 1], id) {
        HeartbeatTimeIsLastRenewal(timeout, es, lo, k - 1, id);
      }
    }
  }

  /** By the clock alone: the heartbeat at a mark is within the timeout exactly when the last one since the listing is. */
  lemma MarkedHeartbeatIs(timeout: Time, es: seq<Event>, k: nat, id: Uid)
    requires k < |es| && MarksAt(timeout, es, k, id) && id in At(timeout, es, k).reg.agents
    ensures SweepStart(timeout, es, k).Some?
    ensures var m := SweepStart(timeout, es, k).value;
            var h := LastRenewal(timeout, es, m, k, id);
            At(timeout, es, k).now - At(timeout, es, k).reg.agents[id].lastHeartbeat <= timeout
            <==> h.Some? && es[m].now - es[h.value].now <= timeout
  {
    SweepUsesItsListing(timeout, es, k);
    MarkedWasStale(timeout, es, k, id);
    HeartbeatTimeIsLastRenewal(timeout, es, SweepStart(timeout, es, k).value, k, id);
  }

  /** From the listing on, the clock does not go back behind it. */
  ghost predicate ClockKeepsUp(timeout: Time, es: seq<Event>, m: nat, k: nat, id: Uid)
    requires m < k <= |es| && es[m].Snapshot?
  {
    forall h :: m < h < k && RenewsAt(timeout, es, h, id) ==> es[h].now >= es[m].now
  }

  lemma {:induction false} LastRenewalIs(timeout: Time, es: seq<Event>, lo: nat, k: nat, id: Uid)
    requires lo <= k <= |es|
    ensures var h := LastRenewal(timeout, es, lo, k, id);
            if h.Some? then lo <= h.value < k && RenewsAt(timeout, es, h.value, id)
            else forall i :: lo <= i < k ==> !RenewsAt(timeout, es, i, id)
    decreases k
  {
    if lo < k && !RenewsAt(timeout, es, k - 1, id) {
      LastRenewalIs(timeout, es, lo, k - 1, id);
    }
  }

  lemma RenewalIsRecent(timeout: Time, es: seq<Event>, m: nat, k: nat, id: Uid)
    requires timeout >= 0 && m < k <= |es| && es[m].Snapshot? && ClockKeepsUp(timeout, es, m, k, id)
    ensures var h := LastRenewal(timeout, es, m, k, id);
            && (h.Some? <==> exists i :: m < i < k && RenewsAt(timeout, es, i, id))
            && (h.Some? ==> es[m].now - es[h.value].now <= timeout)
  {
    LastRenewalIs(timeout, es, m, k, id);
  }

  /**
   At either marking step, an agent whose heartbeat is within the timeout is marked offline
   all the same exactly when it sent a heartbeat, or registered, after the sweep's listing.
   */
  lemma LiveAgentIsMarkedIff(timeout: Time, es: seq<Event>, k: nat, id: Uid)
    requires k < |es| && MarksAt(timeout, es, k, id) && id in At(timeout, es, k).reg.agents
    requires timeout >= 0
    requires var m := SweepStart(timeout, es, k); m.Some? ==> ClockKeepsUp(timeout, es, m.value, k, id)
    ensures SweepStart(timeout, es, k).Some?
    ensures var m := SweepStart(timeout, es, k).value;
            es[m].now - At(timeout, es, k).reg.agents[id].lastHeartbeat <= timeout
            <==> exists h :: m < h < k && RenewsAt(timeout, es, h, id)
  {
    MarkedWasStale(timeout, es, k, id);
    var m := SweepStart(timeout, es, k).value;
    assert At(timeout, es, k).now == es[m].now by {
      SweepUsesItsListing(timeout, es, k);
    }
    MarkedHeartbeatIs(timeout, es, k, id);
    RenewalIsRecent(timeout, es, m, k, id);
  }

  /**
   It does happen: an agent registers, falls silent for longer than the timeout, is
   listed, sends a heartbeat, and is marked offline for the silence before it.
   */
  lemma LiveAgentIsMarked(agent: AgentInfo, timeout: Time, now: Time)
    requires agent.agentId != "" && agent.state.Online? && agent.registeredAt == agent.lastHeartbeat
    requires now - agent.lastHeartbeat > timeout
    ensures var id := agent.agentId;
            var listed := Step(Step(Init(timeout), Register(agent, agent.registeredAt)), Snapshot([agent], now));
            var beaten := Step(listed, Beat(id, now));
            && Marks(beaten, Examine)
            && beaten.reg.agents == map[id := agent.(lastHeartbeat := now)]
            && Step(beaten, Examine).reg.agents == map[id := agent.(lastHeartbeat := now, state := Offline)]
  {
    var registered := Step(Init(timeout), Register(agent, agent.registeredAt));
    assert registered.reg.agents == map[agent.agentId := agent];
    assert StartsSweep(registered, Snapshot([agent], now));
  }

  /**
   The callback makes it worse: an agent that has come back since its mark, with a
   heartbeat later than the mark, goes down again at the callback.
   */
  lemma ReturnedAgentIsMarkedAgain(agent: AgentInfo, timeout: Time, now: Time, later: Time)
    requires agent.agentId != "" && agent.state.Online? && agent.registeredAt == agent.lastHeartbeat
    requires now - agent.lastHeartbeat > timeout
    ensures var id := agent.agentId;
            var listed := Step(Step(Init(timeout), Register(agent, agent.registeredAt)), Snapshot([agent], now));
            var back := Step(Step(listed, Examine), Beat(id, later));
            && Marks(listed, Examine)
            && back.reg.agents == map[id := agent.(lastHeartbeat := later)] && back.calling == Some(id)
            && Step(back, Callback).reg.agents == map[id := agent.(lastHeartbeat := later, state := Offline)]
  {
    var registered := Step(Init(timeout), Register(agent, agent.registeredAt));
    assert registered.reg.agents == map[agent.agentId := agent];
    assert StartsSweep(registered, Snapshot([agent], now));
    var marked := Step(Step(registered, Snapshot([agent], now)), Examine);
    assert marked.reg.agents == map[agent.agentId := agent.(state := Offline)];
  }
}
