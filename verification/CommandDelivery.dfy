/**
 From queueing a command on the server to executing it in the agent's main loop
 and reporting back, over a link that loses replies and delays reports.

 A step is one registry call or one step of an agent's loop. A step that is not
 enabled leaves the state alone, so every list of events is a run.
 */
module CommandDelivery {
  import opened Wrappers
  import opened Sequences
  import opened AgentRegistry

  /** What an agent sends after executing a command; it may arrive late or never. */
  datatype Report = Report(succeeded: bool, result: string, durationMs: int)

  /**
   One agent: the commands its loop has executed and those of the current poll it
   has still to execute, beside what the server has done with its queue.
   */
  datatype Agent = Agent(
    executed: seq<Command>,
    batch: seq<Command>,
    accepted: seq<Command>,   // every command ever put into the queue, as stored
    taken: nat,               // how many of them have left the queue
    origins: seq<nat>)        // positions in accepted of executed followed by batch

  const NewAgent := Agent([], [], [], 0, [])

  datatype State = State(
    reg: Registry,
    loops: map<Uid, Agent>,
    issued: map<Uid, Uid>,      // the agent of every accepted command id
    dispatched: set<Uid>,       // ids that a dequeue has marked Dispatched
    ran: set<Uid>,              // ids that an agent has executed
    reports: map<Uid, Report>,  // sent, not yet arrived
    reported: set<Uid>)         // ids whose report has arrived

  const Init := State(EmptyRegistry, map[], map[], {}, {}, map[], {})

  datatype Event =
    | Register(info: AgentInfo, now: Time)
    | Unregister(id: Uid)
    | Beat(id: Uid, now: Time)
    | SetState(id: Uid, state: AgentState)
    | Queue(cmd: Command, now: Time, pruned: set<Uid>)
    | Poll(id: Uid)                    // the reply reaches the agent, whose loop is between polls
    | Drain(id: Uid)                   // a dequeue whose commands nobody executes
    | Execute(id: Uid, report: Report)
    | Stop(id: Uid)                    // the stop flag ends the current batch
    | Arrive(commandId: Uid, now: Time)

  function AgentOf(loops: map<Uid, Agent>, id: Uid): Agent {
    if id in loops then loops[id] else NewAgent
  }

  function Ids(queue: seq<Command>): set<Uid> {
    set c | c in queue :: c.commandId
  }

  function UpFrom(lo: nat, n: nat): (r: seq<nat>)
    ensures |r| == n && forall i :: 0 <= i < n ==> r[i] == lo + i
  {
    seq(n, i requires 0 <= i => lo + i)
  }

  function Prefix<T>(s: seq<T>, n: nat): (r: seq<T>) {
    if n <= |s| then s[..n] else s
  }

  function Dequeue(s: State, id: Uid): State {
    var a, queue := AgentOf(s.loops, id), QueueOf(s.reg, id);
    s.(reg := WithoutQueue(s.reg, id),
       loops := s.loops[id := a.(taken := |a.accepted|)],
       dispatched := s.dispatched + Ids(queue))
  }

  function PollStep(s: State, id: Uid): State {
    var a, queue := AgentOf(s.loops, id), QueueOf(s.reg, id);
    if a.batch != [] then s
    else
      Dequeue(s, id).(loops := s.loops[id := a.(
        taken := |a.accepted|,
        batch := Taken(queue),
        origins := a.origins + UpFrom(a.taken, |queue|))])
  }

  function ExecuteStep(s: State, id: Uid, report: Report): State {
    var a := AgentOf(s.loops, id);
    if a.batch == [] then s
    else
      var cmd := a.batch[0];
      s.(loops := s.loops[id := a.(executed := a.executed + [cmd], batch := a.batch[1..])],
         ran := s.ran + {cmd.commandId},
         reports := s.reports[cmd.commandId := report])
  }

  function QueueStep(s: State, cmd: Command, now: Time, pruned: set<Uid>): State {
    var a := AgentOf(s.loops, cmd.agentId);
    if cmd.agentId !in s.reg.agents || !LegalPrune(s.reg.history.Keys + {cmd.commandId}, pruned) then s
    else
      s.(reg := WithCommand(s.reg, cmd, now, pruned),
         loops := s.loops[cmd.agentId := a.(accepted := a.accepted + [Stamped(cmd, now)])],
         issued := s.issued[cmd.commandId := cmd.agentId])
  }

  function StopStep(s: State, id: Uid): State {
    var a := AgentOf(s.loops, id);
    s.(loops := s.loops[id := a.(batch := [], origins := Prefix(a.origins, |a.executed|))])
  }

  function UnregisterStep(s: State, id: Uid): State {
    var a := AgentOf(s.loops, id);
    s.(reg := WithoutAgent(s.reg, id), loops := s.loops[id := a.(taken := |a.accepted|)])
  }

  function Step(s: State, e: Event): State {
    match e
    case Register(info, now) => if info.agentId == "" then s else s.(reg := WithAgent(s.reg, info, now))
    case Unregister(id) => UnregisterStep(s, id)
    case Beat(id, now) => s.(reg := WithHeartbeat(s.reg, id, now))
    case SetState(id, state) => s.(reg := WithState(s.reg, id, state))
    case Queue(cmd, now, pruned) => QueueStep(s, cmd, now, pruned)
    case Poll(id) => PollStep(s, id)
    case Drain(id) => Dequeue(s, id)
    case Execute(id, report) => ExecuteStep(s, id, report)
    case Stop(id) => StopStep(s, id)
    case Arrive(commandId, now) =>
      if commandId !in s.reports then s
      else
        var r := s.reports[commandId];
        s.(reg := WithReport(s.reg, commandId, if r.succeeded then Succeeded else Failed, r.result, r.durationMs, now),
           reports := s.reports - {commandId},
           reported := s.reported + {commandId})
  }

  function Run(s: State, es: seq<Event>): State
    decreases |es|
  {
    if es == [] then s else Step(Run(s, es[..|es| - 1]), es[|es| - 1])
  }

  lemma RunAppend(s: State, es: seq<Event>, e: Event)
    ensures Run(s, es + [e]) == Step(Run(s, es), e)
  {
    assert (es + [e])[..|es|] == es;
  }

  /** The run of a continuation, seen from its last event. */
  lemma RunSplits(s: State, es: seq<Event>, more: seq<Event>)
    requires more != []
    ensures Run(s, es + more) == Step(Run(s, es + more[..|more| - 1]), more[|more| - 1])
  {
    var n := |more| - 1;
    assert es + more == es + more[..n] + [more[n]];
    RunAppend(s, es + more[..n], more[n]);
  }

  // ------------------------------------------------------------------
  // Conservation: no assumption needed
  // ------------------------------------------------------------------

  ghost predicate Increasing(xs: seq<nat>) {
    forall i, j :: 0 <= i < j < |xs| ==> xs[i] < xs[j]
  }

  /** The queue holds what was accepted and not yet taken out, all of it for this agent. */
  ghost predicate Conserved(id: Uid, a: Agent, queue: seq<Command>) {
    && a.taken <= |a.accepted|
    && queue == a.accepted[a.taken..]
    && (forall i :: 0 <= i < |a.accepted| ==> a.accepted[i].agentId == id)
  }

  /** The commands of done are accepted ones, in the order of acceptance, at the positions in origins. */
  ghost predicate Follows(done: seq<Command>, accepted: seq<Command>, origins: seq<nat>, limit: nat) {
    && |origins| == |done|
    && Increasing(origins)
    && limit <= |accepted|
    && (forall i :: 0 <= i < |done| ==>
          origins[i] < limit && done[i] == accepted[origins[i]].(status := Dispatched))
  }

  ghost predicate Traced(a: Agent) {
    Follows(a.executed + a.batch, a.accepted, a.origins, a.taken)
  }

  ghost predicate Sound(s: State) {
    && (forall id :: Conserved(id, AgentOf(s.loops, id), QueueOf(s.reg, id)))
    && (forall id :: Traced(AgentOf(s.loops, id)))
    && s.reg.queues.Keys <= s.reg.agents.Keys
  }

  lemma IncreasingMore(origins: seq<nat>, limit: nat, n: nat)
    requires Increasing(origins) && forall i :: 0 <= i < |origins| ==> origins[i] < limit
    ensures Increasing(origins + UpFrom(limit, n))
  {}

  lemma FollowsMore(done: seq<Command>, accepted: seq<Command>, origins: seq<nat>, limit: nat, queue: seq<Command>)
    requires Follows(done, accepted, origins, limit) && queue == accepted[limit..]
    ensures Follows(done + Taken(queue), accepted, origins + UpFrom(limit, |queue|), |accepted|)
  {
    IncreasingMore(origins, limit, |queue|);
    var batch, from := Taken(queue), UpFrom(limit, |queue|);
    forall i | 0 <= i < |done| + |queue|
      ensures (origins + from)[i] < |accepted|
      ensures (done + batch)[i] == accepted[(origins + from)[i]].(status := Dispatched)
    {
      if i >= |done| {
        var k := i - |done|;
        assert (done + batch)[i] == batch[k] && (origins + from)[i] == from[k] == limit + k;
        assert queue[k] == accepted[limit + k];
      }
    }
  }

  lemma PollTraces(a: Agent, queue: seq<Command>)
    requires Traced(a) && a.batch == [] && queue == a.accepted[a.taken..]
    ensures Traced(a.(taken := |a.accepted|, batch := Taken(queue), origins := a.origins + UpFrom(a.taken, |queue|)))
  {
    assert a.executed + a.batch == a.executed;
    FollowsMore(a.executed, a.accepted, a.origins, a.taken, queue);
  }

  lemma ExecuteTraces(a: Agent)
    requires Traced(a) && a.batch != []
    ensures Traced(a.(executed := a.executed + [a.batch[0]], batch := a.batch[1..]))
  {
    assert a.executed + [a.batch[0]] + a.batch[1..] == a.executed + a.batch;
  }

  lemma AcceptKeeps(id: Uid, a: Agent, queue: seq<Command>, cmd: Command)
    requires Conserved(id, a, queue) && Traced(a) && cmd.agentId == id
    ensures var a' := a.(accepted := a.accepted + [cmd]);
            Conserved(id, a', queue + [cmd]) && Traced(a')
  {
    var accepted := a.accepted + [cmd];
    assert accepted[a.taken..] == queue + [cmd];
  }

  /** A step that changes one agent's loop and queue has only that agent to answer for. */
  lemma OneAgentKeepsSound(s: State, s': State, id: Uid)
    requires Sound(s)
    requires forall other :: other != id ==>
               AgentOf(s'.loops, other) == AgentOf(s.loops, other) && QueueOf(s'.reg, other) == QueueOf(s.reg, other)
    requires s'.reg.queues.Keys <= s'.reg.agents.Keys
    requires Conserved(id, AgentOf(s'.loops, id), QueueOf(s'.reg, id)) && Traced(AgentOf(s'.loops, id))
    ensures Sound(s')
  {
    forall other
      ensures Conserved(other, AgentOf(s'.loops, other), QueueOf(s'.reg, other))
      ensures Traced(AgentOf(s'.loops, other))
    {
      if other != id {
        assert Conserved(other, AgentOf(s.loops, other), QueueOf(s.reg, other));
        assert Traced(AgentOf(s.loops, other));
      }
    }
  }

  lemma QueueStepKeepsSound(s: State, cmd: Command, now: Time, pruned: set<Uid>)
    requires Sound(s)
    ensures Sound(QueueStep(s, cmd, now, pruned))
  {
    var s', id := QueueStep(s, cmd, now, pruned), cmd.agentId;
    if s' != s {
      AcceptKeeps(id, AgentOf(s.loops, id), QueueOf(s.reg, id), Stamped(cmd, now));
      OneAgentKeepsSound(s, s', id);
    }
  }

  lemma DequeueEmpties(s: State, id: Uid)
    ensures var s' := Dequeue(s, id);
            && QueueOf(s'.reg, id) == []
            && AgentOf(s'.loops, id) == AgentOf(s.loops, id).(taken := |AgentOf(s.loops, id).accepted|)
            && (forall other :: other != id ==>
                  AgentOf(s'.loops, other) == AgentOf(s.loops, other) && QueueOf(s'.reg, other) == QueueOf(s.reg, other))
  {}

  lemma DequeueKeepsSound(s: State, id: Uid)
    requires Sound(s)
    ensures Sound(Dequeue(s, id))
  {
    DequeueEmpties(s, id);
    assert Conserved(id, AgentOf(s.loops, id), QueueOf(s.reg, id)) && Traced(AgentOf(s.loops, id));
    TakenKeeps(id, AgentOf(s.loops, id), QueueOf(s.reg, id));
    OneAgentKeepsSound(s, Dequeue(s, id), id);
  }

  lemma TakenKeeps(id: Uid, a: Agent, queue: seq<Command>)
    requires Conserved(id, a, queue) && Traced(a)
    ensures var a' := a.(taken := |a.accepted|); Conserved(id, a', []) && Traced(a')
  {}

  /** An agent's loop with the batch of a poll. */
  function Polled(a: Agent, queue: seq<Command>): Agent {
    a.(taken := |a.accepted|, batch := Taken(queue), origins := a.origins + UpFrom(a.taken, |queue|))
  }

  lemma PollEmpties(s: State, id: Uid)
    requires AgentOf(s.loops, id).batch == []
    ensures var s' := PollStep(s, id);
            && QueueOf(s'.reg, id) == [] && s'.reg.queues.Keys == s.reg.queues.Keys && s'.reg.agents == s.reg.agents
            && AgentOf(s'.loops, id) == Polled(AgentOf(s.loops, id), QueueOf(s.reg, id))
            && (forall other :: other != id ==>
                  AgentOf(s'.loops, other) == AgentOf(s.loops, other) && QueueOf(s'.reg, other) == QueueOf(s.reg, other))
  {}

  lemma PolledKeeps(id: Uid, a: Agent, queue: seq<Command>)
    requires Conserved(id, a, queue) && Traced(a) && a.batch == []
    ensures Conserved(id, Polled(a, queue), []) && Traced(Polled(a, queue))
  {
    PollTraces(a, queue);
  }

  lemma PollKeepsSound(s: State, id: Uid)
    requires Sound(s)
    ensures Sound(PollStep(s, id))
  {
    var a, queue := AgentOf(s.loops, id), QueueOf(s.reg, id);
    if a.batch == [] {
      assert Conserved(id, a, queue) && Traced(a);
      PolledKeeps(id, a, queue);
      PollEmpties(s, id);
      OneAgentKeepsSound(s, PollStep(s, id), id);
    }
  }

  lemma ExecuteKeepsSound(s: State, id: Uid, report: Report)
    requires Sound(s)
    ensures Sound(ExecuteStep(s, id, report))
  {
    var a := AgentOf(s.loops, id);
    assert Conserved(id, a, QueueOf(s.reg, id)) && Traced(a);
    if a.batch != [] {
      ExecuteTraces(a);
      OneAgentKeepsSound(s, ExecuteStep(s, id, report), id);
    }
  }

  lemma StopTraces(a: Agent)
    requires Traced(a)
    ensures Traced(a.(batch := [], origins := Prefix(a.origins, |a.executed|)))
  {}

  lemma StopKeepsSound(s: State, id: Uid)
    requires Sound(s)
    ensures Sound(StopStep(s, id))
  {
    var a := AgentOf(s.loops, id);
    assert Conserved(id, a, QueueOf(s.reg, id)) && Traced(a);
    StopTraces(a);
    OneAgentKeepsSound(s, StopStep(s, id), id);
  }

  lemma UnregisterKeepsSound(s: State, id: Uid)
    requires Sound(s)
    ensures Sound(UnregisterStep(s, id))
  {
    assert Conserved(id, AgentOf(s.loops, id), QueueOf(s.reg, id)) && Traced(AgentOf(s.loops, id));
    OneAgentKeepsSound(s, UnregisterStep(s, id), id);
  }

  lemma SameQueuesKeepSound(s: State, s': State)
    requires Sound(s) && s'.loops == s.loops
    requires s'.reg.queues == s.reg.queues && s.reg.agents.Keys <= s'.reg.agents.Keys
    ensures Sound(s')
  {
    forall other ensures Conserved(other, AgentOf(s'.loops, other), QueueOf(s'.reg, other)) {
      assert Conserved(other, AgentOf(s.loops, other), QueueOf(s.reg, other));
    }
  }

  lemma RegistryStepKeepsQueues(s: State, e: Event)
    requires e.Register? || e.Beat? || e.SetState? || e.Arrive?
    ensures var s' := Step(s, e);
            && s'.loops == s.loops && s'.ran == s.ran
            && s'.reg.queues == s.reg.queues && s.reg.agents.Keys <= s'.reg.agents.Keys
  {}

  lemma RegistryStepKeepsSound(s: State, e: Event)
    requires Sound(s) && (e.Register? || e.Beat? || e.SetState? || e.Arrive?)
    ensures Sound(Step(s, e))
  {
    RegistryStepKeepsQueues(s, e);
    SameQueuesKeepSound(s, Step(s, e));
  }

  lemma AcceptStepKeepsSound(s: State, e: Event)
    requires Sound(s) && (e.Queue? || e.Unregister?)
    ensures Sound(Step(s, e))
  {
    if e.Queue? {
      QueueStepKeepsSound(s, e.cmd, e.now, e.pruned);
    } else {
      UnregisterKeepsSound(s, e.id);
    }
  }

  lemma DequeueStepKeepsSound(s: State, e: Event)
    requires Sound(s) && (e.Drain? || e.Poll?)
    ensures Sound(Step(s, e))
  {
    if e.Drain? {
      DequeueKeepsSound(s, e.id);
      assert Step(s, e) == Dequeue(s, e.id);
    } else {
      PollKeepsSound(s, e.id);
      assert Step(s, e) == PollStep(s, e.id);
    }
  }

  lemma LoopStepKeepsSound(s: State, e: Event)
    requires Sound(s) && (e.Execute? || e.Stop?)
    ensures Sound(Step(s, e))
  {
    if e.Execute? {
      ExecuteKeepsSound(s, e.id, e.report);
    } else {
      StopKeepsSound(s, e.id);
    }
  }

  lemma StepKeepsSound(s: State, e: Event)
    requires Sound(s)
    ensures Sound(Step(s, e))
  {
    if e.Queue? || e.Unregister? {
      AcceptStepKeepsSound(s, e);
    } else if e.Drain? || e.Poll? {
      DequeueStepKeepsSound(s, e);
    } else if e.Execute? || e.Stop? {
      LoopStepKeepsSound(s, e);
    } else {
      RegistryStepKeepsSound(s, e);
    }
  }

  lemma {:induction false} RunKeepsSound(es: seq<Event>)
    ensures Sound(Run(Init, es))
    decreases |es|
  {
    if es != [] {
      RunKeepsSound(es[..|es| - 1]);
      StepKeepsSound(Run(Init, es[..|es| - 1]), es[|es| - 1]);
    }
  }

  // ------------------------------------------------------------------
  // What comes out of a queue is what went in
  // ------------------------------------------------------------------

  /** A queueCommand as its caller made it, and when. */
  datatype Submission = Submission(cmd: Command, now: Time)

  /** Read off the log: the agent was registered and not unregistered since. */
  function Registered(es: seq<Event>, id: Uid): bool
    decreases |es|
  {
    if es == [] then false
    else
      var before, e := es[..|es| - 1], es[|es| - 1];
      if e.Register? && e.info.agentId == id then id != ""
      else e != Unregister(id) && Registered(before, id)
  }

  /** The event is a queueCommand for the agent, which is registered, and prunes as the code may. */
  predicate AcceptedFor(before: seq<Event>, e: Event, id: Uid) {
    && e.Queue? && e.cmd.agentId == id && Registered(before, id)
    && LegalPrune(Run(Init, before).reg.history.Keys + {e.cmd.commandId}, e.pruned)
  }

  /** The commands submitted for a registered agent, read off the log. */
  function Submitted(es: seq<Event>, id: Uid): seq<Submission>
    decreases |es|
  {
    if es == [] then []
    else
      var before, e := es[..|es| - 1], es[|es| - 1];
      if AcceptedFor(before, e, id) then Submitted(before, id) + [Submission(e.cmd, e.now)]
      else Submitted(before, id)
  }

  /** Those since it was last unregistered. */
  function SubmittedSince(es: seq<Event>, id: Uid): seq<Submission>
    decreases |es|
  {
    if es == [] then []
    else
      var before, e := es[..|es| - 1], es[|es| - 1];
      if e == Unregister(id) then []
      else if AcceptedFor(before, e, id) then SubmittedSince(before, id) + [Submission(e.cmd, e.now)]
      else SubmittedSince(before, id)
  }

  /** The entry is the command as submitted, with the time of submission if it came without one. */
  predicate Keeps(entry: Command, sub: Submission) {
    && entry == sub.cmd.(createdAt := entry.createdAt)
    && entry.createdAt == if sub.cmd.createdAt != EPOCH then sub.cmd.createdAt else sub.now
  }

  /** The same once it is out of the queue. */
  predicate Delivers(entry: Command, sub: Submission) {
    entry.status == Dispatched && Keeps(entry.(status := sub.cmd.status), sub)
  }

  /** What dequeuePendingCommands returned for it since then, in one sequence. */
  function DequeuedSince(es: seq<Event>, id: Uid): seq<Command>
    decreases |es|
  {
    if es == [] then []
    else
      var before, e := es[..|es| - 1], es[|es| - 1];
      var s := Run(Init, before);
      if e == Unregister(id) then []
      else if e == Drain(id) || (e == Poll(id) && AgentOf(s.loops, id).batch == []) then
        DequeuedSince(before, id) + Taken(QueueOf(s.reg, id))
      else DequeuedSince(before, id)
  }

  /** The only steps that touch a queue: accept appends, a dequeue or an unregistration empties. */
  lemma QueueAfter(s: State, e: Event, id: Uid)
    ensures var queue, queue' := QueueOf(s.reg, id), QueueOf(Step(s, e).reg, id);
            if e.Queue? && e.cmd.agentId == id && id in s.reg.agents
               && LegalPrune(s.reg.history.Keys + {e.cmd.commandId}, e.pruned) then
              |queue'| == |queue| + 1 && queue'[..|queue|] == queue && Keeps(queue'[|queue|], Submission(e.cmd, e.now))
            else if e == Unregister(id) || e == Drain(id) || (e == Poll(id) && AgentOf(s.loops, id).batch == []) then
              queue' == []
            else queue' == queue
  {}

  lemma AcceptedAfter(s: State, e: Event, id: Uid)
    ensures var accepted, accepted' := AgentOf(s.loops, id).accepted, AgentOf(Step(s, e).loops, id).accepted;
            if e.Queue? && e.cmd.agentId == id && id in s.reg.agents
               && LegalPrune(s.reg.history.Keys + {e.cmd.commandId}, e.pruned) then
              && |accepted'| == |accepted| + 1 && accepted'[..|accepted|] == accepted
              && Keeps(accepted'[|accepted|], Submission(e.cmd, e.now))
            else accepted' == accepted
  {}

  lemma AgentsAfter(s: State, e: Event, id: Uid)
    ensures id in Step(s, e).reg.agents <==>
              if e.Register? && e.info.agentId == id then id != "" || id in s.reg.agents
              else e != Unregister(id) && id in s.reg.agents
  {}

  lemma {:induction false} RegisteredIsKnown(es: seq<Event>, id: Uid)
    ensures Registered(es, id) <==> id in Run(Init, es).reg.agents
    ensures "" !in Run(Init, es).reg.agents
    decreases |es|
  {
    if es != [] {
      RegisteredIsKnown(es[..|es| - 1], id);
      AgentsAfter(Run(Init, es[..|es| - 1]), es[|es| - 1], id);
      AgentsAfter(Run(Init, es[..|es| - 1]), es[|es| - 1], "");
    }
  }

  /** What was dequeued and then what is queued are the submissions, one by one. */
  predicate Matches(out: seq<Command>, queue: seq<Command>, subs: seq<Submission>) {
    && |out| + |queue| == |subs|
    && (forall i :: 0 <= i < |out| ==> Delivers(out[i], subs[i]))
    && (forall i :: 0 <= i < |queue| ==> Keeps(queue[i], subs[|out| + i]))
  }

  lemma AcceptMatches(out: seq<Command>, queue: seq<Command>, queue': seq<Command>, subs: seq<Submission>, sub: Submission)
    requires Matches(out, queue, subs)
    requires |queue'| == |queue| + 1 && queue'[..|queue|] == queue && Keeps(queue'[|queue|], sub)
    ensures Matches(out, queue', subs + [sub])
  {
    forall i | 0 <= i < |queue'| ensures Keeps(queue'[i], (subs + [sub])[|out| + i]) {
      if i < |queue| { assert queue'[i] == queue'[..|queue|][i] == queue[i]; }
    }
  }

  lemma TakeMatches(out: seq<Command>, queue: seq<Command>, subs: seq<Submission>)
    requires Matches(out, queue, subs)
    ensures Matches(out + Taken(queue), [], subs)
  {
    forall i | 0 <= i < |queue| ensures Delivers(Taken(queue)[i], subs[|out| + i]) {
      assert Keeps(queue[i], subs[|out| + i]);
    }
  }

  /** What was ever put into the agent's queue are the submissions for it. */
  lemma {:induction false} AcceptedWasSubmitted(es: seq<Event>, id: Uid)
    ensures Matches([], AgentOf(Run(Init, es).loops, id).accepted, Submitted(es, id))
    decreases |es|
  {
    if es != [] {
      var before, e := es[..|es| - 1], es[|es| - 1];
      var s := Run(Init, before);
      AcceptedWasSubmitted(before, id);
      RegisteredIsKnown(before, id);
      AcceptedAfter(s, e, id);
      if AcceptedFor(before, e, id) {
        AcceptMatches([], AgentOf(s.loops, id).accepted, AgentOf(Run(Init, es).loops, id).accepted,
                      Submitted(before, id), Submission(e.cmd, e.now));
      }
    }
  }

  /**
   Since an agent was last unregistered, the commands dequeued for it followed by those
   in its queue are the ones submitted for it while it was registered, in that order and
   unchanged but for the status of those dequeued and a time of creation that was not set.
   */
  lemma {:induction false} NothingLostNothingInvented(es: seq<Event>, id: Uid)
    ensures Matches(DequeuedSince(es, id), QueueOf(Run(Init, es).reg, id), SubmittedSince(es, id))
    decreases |es|
  {
    if es != [] {
      var before, e := es[..|es| - 1], es[|es| - 1];
      var s := Run(Init, before);
      NothingLostNothingInvented(before, id);
      RegisteredIsKnown(before, id);
      QueueAfter(s, e, id);
      if AcceptedFor(before, e, id) {
        AcceptMatches(DequeuedSince(before, id), QueueOf(s.reg, id), QueueOf(Run(Init, es).reg, id),
                      SubmittedSince(before, id), Submission(e.cmd, e.now));
      } else if e == Drain(id) || (e == Poll(id) && AgentOf(s.loops, id).batch == []) {
        TakeMatches(DequeuedSince(before, id), QueueOf(s.reg, id), SubmittedSince(before, id));
      }
    }
  }

  /** In every run a queue belongs to a registered agent and holds only commands for it. */
  lemma QueuesBelongToAgents(es: seq<Event>, id: Uid)
    ensures var reg := Run(Init, es).reg;
            && (id in reg.queues ==> id in reg.agents)
            && (forall cmd :: cmd in QueueOf(reg, id) ==> cmd.agentId == id)
  {
    RunKeepsSound(es);
    var s := Run(Init, es);
    assert Conserved(id, AgentOf(s.loops, id), QueueOf(s.reg, id));
  }
}
