/** What the registry holds after a run, told from the calls made to it. */
module RegistryLog {
  import opened Wrappers
  import opened AgentRegistry
  import opened CommandDelivery
  import opened CommandHistory

  // ------------------------------------------------------------------
  // Agents
  // ------------------------------------------------------------------

  /** The last registration, unless the agent was unregistered since. */
  function LastRegistration(es: seq<Event>, id: Uid): Option<(AgentInfo, Time)>
    decreases |es|
  {
    if es == [] then None
    else
      var before, e := es[..|es| - 1], es[|es| - 1];
      if e.Register? && e.info.agentId == id != "" then Some((e.info, e.now))
      else if e == Unregister(id) then None
      else LastRegistration(before, id)
  }

  /** The time of the last registration or heartbeat. */
  function LastRenewal(es: seq<Event>, id: Uid): Time
    decreases |es|
  {
    if es == [] then EPOCH
    else
      var before, e := es[..|es| - 1], es[|es| - 1];
      if (e.Register? && e.info.agentId == id) || (e.Beat? && e.id == id) then e.now else LastRenewal(before, id)
  }

  /** The state last reported; a registration brings the agent online, and so does a heartbeat unless it is busy. */
  function LastState(es: seq<Event>, id: Uid): AgentState
    decreases |es|
  {
    if es == [] then Offline
    else
      var before, e := es[..|es| - 1], es[|es| - 1];
      if e.Register? && e.info.agentId == id then Online
      else if e.SetState? && e.id == id then e.state
      else if e.Beat? && e.id == id then if LastState(before, id) == Busy then Busy else Online
      else LastState(before, id)
  }

  lemma AgentAfter(s: State, e: Event, id: Uid)
    ensures var agents, agents' := s.reg.agents, Step(s, e).reg.agents;
            if e.Register? && e.info.agentId == id != "" then
              id in agents' && agents'[id] == AgentInfo(id, e.info.hostname, Online, e.now, e.now)
            else if e == Unregister(id) then id !in agents'
            else if id !in agents then id !in agents'
            else
              && id in agents'
              && agents'[id].agentId == agents[id].agentId && agents'[id].hostname == agents[id].hostname
              && agents'[id].registeredAt == agents[id].registeredAt
              && agents'[id].lastHeartbeat == (if e.Beat? && e.id == id then e.now else agents[id].lastHeartbeat)
              && agents'[id].state == (
                   if e.SetState? && e.id == id then e.state
                   else if e.Beat? && e.id == id && agents[id].state != Busy then Online
                   else agents[id].state)
  {}

  /**
   In every run an agent is known exactly when its last registration came after its last
   unregistration; it then shows what it registered with, when, its last renewal and its state.
   */
  lemma {:induction false} AgentsAreAsLogged(es: seq<Event>, id: Uid)
    ensures var agents, last := Run(Init, es).reg.agents, LastRegistration(es, id);
            if last.None? then id !in agents
            else
              && id in agents
              && agents[id] == AgentInfo(id, last.value.0.hostname, LastState(es, id), last.value.1, LastRenewal(es, id))
    decreases |es|
  {
    if es != [] {
      AgentsAreAsLogged(es[..|es| - 1], id);
      AgentAfter(Run(Init, es[..|es| - 1]), es[|es| - 1], id);
      RegisteredIsKnown(es[..|es| - 1], id);
    }
  }

  // ------------------------------------------------------------------
  // The history
  // ------------------------------------------------------------------

  /** The event returns a queue in which the command is. */
  predicate Dequeues(before: seq<Event>, e: Event, cid: Uid) {
    && (e.Drain? || (e.Poll? && AgentOf(Run(Init, before).loops, e.id).batch == []))
    && cid in Ids(QueueOf(Run(Init, before).reg, e.id))
  }

  /** The command is remembered: it was queued or dequeued, and not pruned since. */
  function IsKnown(es: seq<Event>, cid: Uid): bool
    decreases |es|
  {
    if es == [] then false
    else
      var before, e := es[..|es| - 1], es[|es| - 1];
      if e.Queue? && AcceptedFor(before, e, e.cmd.agentId) then
        cid !in e.pruned && (e.cmd.commandId == cid || IsKnown(before, cid))
      else Dequeues(before, e, cid) || IsKnown(before, cid)
  }

  lemma KnownAfter(s: State, e: Event, cid: Uid)
    ensures cid in Step(s, e).reg.history <==>
              if e.Queue? && e.cmd.agentId in s.reg.agents
                 && LegalPrune(s.reg.history.Keys + {e.cmd.commandId}, e.pruned) then
                cid !in e.pruned && (e.cmd.commandId == cid || cid in s.reg.history)
              else
                || ((e.Drain? || (e.Poll? && AgentOf(s.loops, e.id).batch == [])) && cid in Ids(QueueOf(s.reg, e.id)))
                || cid in s.reg.history
  {
    if e.Drain? || e.Poll? {
      TakenIds(QueueOf(s.reg, e.id));
      RememberedAllAt(s.reg.history, Taken(QueueOf(s.reg, e.id)), cid);
    }
  }

  /** findCommand knows a command exactly when it was queued or dequeued and not pruned since. */
  lemma {:induction false} HistoryKnowsIff(es: seq<Event>, cid: Uid)
    ensures cid in Run(Init, es).reg.history <==> IsKnown(es, cid)
    decreases |es|
  {
    if es != [] {
      var before, e := es[..|es| - 1], es[|es| - 1];
      HistoryKnowsIff(before, cid);
      KnownAfter(Run(Init, before), e, cid);
      if e.Queue? { RegisteredIsKnown(before, e.cmd.agentId); }
    }
  }

  function SubmissionOf(es: seq<Event>, cid: Uid): Option<Submission>
    decreases |es|
  {
    if es == [] then None
    else
      var before, e := es[..|es| - 1], es[|es| - 1];
      if e.Queue? && e.cmd.commandId == cid && AcceptedFor(before, e, e.cmd.agentId) then Some(Submission(e.cmd, e.now))
      else SubmissionOf(before, cid)
  }

  function WasDequeued(es: seq<Event>, cid: Uid): bool
    decreases |es|
  {
    if es == [] then false
    else Dequeues(es[..|es| - 1], es[|es| - 1], cid) || WasDequeued(es[..|es| - 1], cid)
  }

  /** The report that the agent has sent and that has not arrived. */
  function ReportSent(es: seq<Event>, cid: Uid): Option<Report>
    decreases |es|
  {
    if es == [] then None
    else
      var before, e := es[..|es| - 1], es[|es| - 1];
      if e.Execute? && Executes(Run(Init, before), e.id, cid) then Some(e.report)
      else if e.Arrive? && e.commandId == cid then None
      else ReportSent(before, cid)
  }

  /** The report that arrived last, and when. */
  function ReportArrived(es: seq<Event>, cid: Uid): Option<(Report, Time)>
    decreases |es|
  {
    if es == [] then None
    else
      var before, e := es[..|es| - 1], es[|es| - 1];
      if e.Arrive? && e.commandId == cid && ReportSent(before, cid).Some? then Some((ReportSent(before, cid).value, e.now))
      else ReportArrived(before, cid)
  }

  predicate Executes(s: State, id: Uid, cid: Uid) {
    var batch := AgentOf(s.loops, id).batch;
    batch != [] && batch[0].commandId == cid
  }

  /** The entry is the command as submitted but for its progress, which is as the dequeue and the report left it. */
  predicate ShowsProgress(entry: Command, sub: Submission, dequeued: bool, report: Option<(Report, Time)>) {
    && Keeps(entry.(status := sub.cmd.status, result := sub.cmd.result,
                    durationMs := sub.cmd.durationMs, completedAt := sub.cmd.completedAt), sub)
    && (if report.Some? then
          && entry.status == (if report.value.0.succeeded then Succeeded else Failed)
          && entry.result == report.value.0.result
          && entry.durationMs == report.value.0.durationMs
          && entry.completedAt == report.value.1
        else
          && entry.status == (if dequeued then Dispatched else sub.cmd.status)
          && entry.result == sub.cmd.result
          && entry.durationMs == sub.cmd.durationMs
          && entry.completedAt == sub.cmd.completedAt)
  }

  // ------------------------------------------------------------------
  // The history agrees with the log
  // ------------------------------------------------------------------

  predicate AcceptsNow(s: State, e: Event) {
    && e.Queue? && e.cmd.agentId in s.reg.agents
    && LegalPrune(s.reg.history.Keys + {e.cmd.commandId}, e.pruned)
  }

  predicate DequeuesNow(s: State, e: Event, cid: Uid) {
    && (e.Drain? || (e.Poll? && AgentOf(s.loops, e.id).batch == []))
    && cid in Ids(QueueOf(s.reg, e.id))
  }

  lemma IssuedAfter(s: State, e: Event, cid: Uid)
    ensures cid in Step(s, e).issued <==> (AcceptsNow(s, e) && e.cmd.commandId == cid) || cid in s.issued
    ensures cid in Step(s, e).dispatched <==> DequeuesNow(s, e, cid) || cid in s.dispatched
  {}

  function SentReport(s: State, cid: Uid): Option<Report> {
    if cid in s.reports then Some(s.reports[cid]) else None
  }

  lemma ReportsAfter(s: State, e: Event, cid: Uid)
    ensures SentReport(Step(s, e), cid) ==
              if e.Execute? && Executes(s, e.id, cid) then Some(e.report)
              else if e.Arrive? && e.commandId == cid then None
              else SentReport(s, cid)
    ensures cid in Step(s, e).reported <==> (e.Arrive? && e.commandId == cid && cid in s.reports) || cid in s.reported
  {}

  ghost predicate Agrees(es: seq<Event>, cid: Uid) {
    var s := Run(Init, es);
    && (cid in s.issued <==> SubmissionOf(es, cid).Some?)
    && (cid in s.dispatched <==> WasDequeued(es, cid))
    && ReportSent(es, cid) == SentReport(s, cid)
    && (cid in s.reported <==> ReportArrived(es, cid).Some?)
  }

  lemma {:induction false} RunAgrees(es: seq<Event>, cid: Uid)
    ensures Agrees(es, cid)
    decreases |es|
  {
    if es != [] {
      var before, e := es[..|es| - 1], es[|es| - 1];
      RunAgrees(before, cid);
      IssuedAfter(Run(Init, before), e, cid);
      ReportsAfter(Run(Init, before), e, cid);
      if e.Queue? { RegisteredIsKnown(before, e.cmd.agentId); }
    }
  }

  /** What the queues hold under the id is the submission. */
  ghost predicate QueuesKeep(reg: Registry, cid: Uid, sub: Option<Submission>) {
    forall id, cmd :: cmd in QueueOf(reg, id) && cmd.commandId == cid ==> sub.Some? && Keeps(cmd, sub.value)
  }

  ghost predicate EntryShows(history: map<Uid, Command>, cid: Uid, sub: Option<Submission>, dequeued: bool,
                               report: Option<(Report, Time)>) {
    cid in history ==> sub.Some? && ShowsProgress(history[cid], sub.value, dequeued, report)
  }

  ghost predicate NowhereQueued(reg: Registry, cid: Uid) {
    forall id, cmd :: cmd in QueueOf(reg, id) ==> cmd.commandId != cid
  }

  lemma NewIsNowhereQueued(s: State, cid: Uid)
    requires Fresh(s) && cid !in s.issued
    ensures NowhereQueued(s.reg, cid)
  {
    forall id, cmd | cmd in QueueOf(s.reg, id) ensures cmd.commandId != cid {
      QueueIsAhead(s, id);
    }
  }

  lemma QueuesAfter(s: State, e: Event, cid: Uid, sub: Option<Submission>)
    requires QueuesKeep(s.reg, cid, sub)
    requires AcceptsNow(s, e) && e.cmd.commandId == cid ==> NowhereQueued(s.reg, cid)
    ensures QueuesKeep(Step(s, e).reg, cid,
                       if AcceptsNow(s, e) && e.cmd.commandId == cid then Some(Submission(e.cmd, e.now)) else sub)
  {
    var sub' := if AcceptsNow(s, e) && e.cmd.commandId == cid then Some(Submission(e.cmd, e.now)) else sub;
    forall id, cmd | cmd in QueueOf(Step(s, e).reg, id) && cmd.commandId == cid
      ensures sub'.Some? && Keeps(cmd, sub'.value)
    {
      QueueAfter(s, e, id);
      if AcceptsNow(s, e) && e.cmd.agentId == id {
        QueuedCommandKeeps(QueueOf(s.reg, id), QueueOf(Step(s, e).reg, id), Submission(e.cmd, e.now), cmd);
      }
    }
  }

  lemma QueuedCommandKeeps(queue: seq<Command>, queue': seq<Command>, sub: Submission, cmd: Command)
    requires |queue'| == |queue| + 1 && queue'[..|queue|] == queue && Keeps(queue'[|queue|], sub)
    requires cmd in queue'
    ensures cmd in queue || (Keeps(cmd, sub) && cmd.commandId == sub.cmd.commandId)
  {
    assert queue' == queue + [queue'[|queue|]];
  }

  /** Only these steps change an entry. */
  lemma EntryAfter(s: State, e: Event, cid: Uid)
    requires cid in Step(s, e).reg.history
    requires !DequeuesNow(s, e, cid)
    ensures var after := Step(s, e).reg.history[cid];
            if AcceptsNow(s, e) && e.cmd.commandId == cid then Keeps(after, Submission(e.cmd, e.now))
            else
              && cid in s.reg.history
              && if e.Arrive? && e.commandId == cid && cid in s.reports then
                   && after.status == (if s.reports[cid].succeeded then Succeeded else Failed)
                   && after.result == s.reports[cid].result && after.durationMs == s.reports[cid].durationMs
                   && after.completedAt == e.now
                   && after == s.reg.history[cid].(status := after.status, result := after.result,
                                                   durationMs := after.durationMs, completedAt := after.completedAt)
                 else after == s.reg.history[cid]
  {
    if e.Drain? || e.Poll? {
      TakenIds(QueueOf(s.reg, e.id));
      RememberedAllAt(s.reg.history, Taken(QueueOf(s.reg, e.id)), cid);
    }
  }

  lemma DequeuedEntryAfter(s: State, e: Event, cid: Uid)
    requires DequeuesNow(s, e, cid)
    ensures cid in Step(s, e).reg.history
    ensures exists cmd :: cmd in QueueOf(s.reg, e.id) && cmd.commandId == cid
                          && Step(s, e).reg.history[cid] == cmd.(status := Dispatched)
  {
    var queue := QueueOf(s.reg, e.id);
    TakenIds(queue);
    RememberedAllAt(s.reg.history, Taken(queue), cid);
    var i :| 0 <= i < |queue| && Taken(queue)[i] == Step(s, e).reg.history[cid];
    assert queue[i] in queue;
  }

  lemma DequeueShows(s: State, e: Event, cid: Uid, sub: Option<Submission>)
    requires DequeuesNow(s, e, cid) && QueuesKeep(s.reg, cid, sub)
    ensures EntryShows(Step(s, e).reg.history, cid, sub, true, None)
  {
    DequeuedEntryAfter(s, e, cid);
  }

  lemma OtherShows(s: State, e: Event, cid: Uid, sub: Option<Submission>, dequeued: bool, report: Option<(Report, Time)>)
    requires !DequeuesNow(s, e, cid) && EntryShows(s.reg.history, cid, sub, dequeued, report)
    requires AcceptsNow(s, e) && e.cmd.commandId == cid ==> !dequeued && report.None?
    ensures EntryShows(Step(s, e).reg.history, cid,
              if AcceptsNow(s, e) && e.cmd.commandId == cid then Some(Submission(e.cmd, e.now)) else sub, dequeued,
              if e.Arrive? && e.commandId == cid && cid in s.reports then Some((s.reports[cid], e.now)) else report)
  {
    if cid in Step(s, e).reg.history {
      EntryAfter(s, e, cid);
    }
  }

  lemma {:induction false} RunShows(es: seq<Event>, cid: Uid)
    requires UniqueIds(es)
    ensures QueuesKeep(Run(Init, es).reg, cid, SubmissionOf(es, cid))
    ensures EntryShows(Run(Init, es).reg.history, cid, SubmissionOf(es, cid), WasDequeued(es, cid), ReportArrived(es, cid))
    decreases |es|
  {
    if es != [] {
      var before, e := es[..|es| - 1], es[|es| - 1];
      var s := Run(Init, before);
      NextIsAcceptable(es);
      RunShows(before, cid);
      RunKeepsFresh(before);
      RunAgrees(before, cid);
      if e.Queue? { RegisteredIsKnown(before, e.cmd.agentId); }
      if e.Queue? && e.cmd.commandId == cid { NewIsNowhereQueued(s, cid); }
      QueuesAfter(s, e, cid, SubmissionOf(before, cid));
      if DequeuesNow(s, e, cid) {
        QueueIsAhead(s, e.id);
        DequeueShows(s, e, cid, SubmissionOf(before, cid));
      } else {
        OtherShows(s, e, cid, SubmissionOf(before, cid), WasDequeued(before, cid), ReportArrived(before, cid));
      }
    }
  }

  /**
   With unique ids, whatever is pruned and put back, an entry that the history shows is
   the command as submitted, Dispatched once it was dequeued, and with the outcome, the
   result, the duration and the time of the report once that has arrived.
   */
  lemma HistoryIsAsLogged(es: seq<Event>, cid: Uid)
    requires UniqueIds(es) && IsKnown(es, cid)
    ensures cid in Run(Init, es).reg.history && SubmissionOf(es, cid).Some?
    ensures ShowsProgress(Run(Init, es).reg.history[cid], SubmissionOf(es, cid).value,
                          WasDequeued(es, cid), ReportArrived(es, cid))
  {
    HistoryKnowsIff(es, cid);
    RunShows(es, cid);
  }
}
