/**
 What uniquely identified commands go through: executed at most once, in the order
 of acceptance, with a history that only moves forward.
 */
module CommandHistory {
  import opened Wrappers
  import opened AgentRegistry
  import opened CommandDelivery

  /** Commands arrive Pending, without a result and each with an id of its own. */
  ghost predicate UniqueIds(es: seq<Event>) {
    && (forall i :: 0 <= i < |es| && es[i].Queue? ==> es[i].cmd.status == Pending && es[i].cmd.result == "")
    && (forall i, j :: 0 <= i < j < |es| && es[i].Queue? && es[j].Queue? ==>
          es[i].cmd.commandId != es[j].cmd.commandId)
  }

  predicate Terminal(status: CommandStatus) {
    status == Succeeded || status == Failed
  }

  function Rank(status: CommandStatus): nat {
    if status == Pending then 0 else if status == Dispatched then 1 else 2
  }

  // ------------------------------------------------------------------
  // The invariant
  // ------------------------------------------------------------------

  /** Ids already dispatched, executed or reported were issued, dispatched or executed before. */
  ghost predicate Nested(s: State) {
    && s.reported <= s.ran <= s.dispatched <= s.issued.Keys
    && s.reports.Keys <= s.ran
    && s.reports.Keys !! s.reported
  }

  /** What the history may show for a command, given how far it has got. */
  predicate Shows(cmd: Command, dispatched: bool, reported: bool) {
    if reported then Terminal(cmd.status)
    else cmd.result == "" && cmd.status == if dispatched then Dispatched else Pending
  }

  ghost predicate Told(history: map<Uid, Command>, issued: map<Uid, Uid>, dispatched: set<Uid>, reported: set<Uid>) {
    forall cid :: cid in history ==> cid in issued && Shows(history[cid], cid in dispatched, cid in reported)
  }

  ghost predicate Distinct(cmds: seq<Command>) {
    forall i, j :: 0 <= i < j < |cmds| ==> cmds[i].commandId != cmds[j].commandId
  }

  /** An agent's commands have ids issued for it alone, and those ahead of it are still to come. */
  ghost predicate Own(id: Uid, a: Agent, issued: map<Uid, Uid>, dispatched: set<Uid>, ran: set<Uid>) {
    && Distinct(a.accepted)
    && (forall i :: 0 <= i < |a.accepted| ==>
          var cmd := a.accepted[i];
          cmd.status == Pending && cmd.result == "" && cmd.commandId in issued && issued[cmd.commandId] == id)
    && (forall i :: a.taken <= i < |a.accepted| ==> a.accepted[i].commandId !in dispatched)
    && (forall i :: 0 <= i < |a.batch| ==> a.batch[i].commandId in dispatched && a.batch[i].commandId !in ran)
  }

  ghost predicate Fresh(s: State) {
    && Sound(s)
    && Nested(s)
    && Told(s.reg.history, s.issued, s.dispatched, s.reported)
    && (forall id :: Own(id, AgentOf(s.loops, id), s.issued, s.dispatched, s.ran))
  }

  /** A queued command is acceptable after a run when its id has not been issued. */
  ghost predicate Acceptable(s: State, e: Event) {
    e.Queue? ==> e.cmd.commandId !in s.issued && e.cmd.status == Pending && e.cmd.result == ""
  }

  lemma RememberedAllAt(history: map<Uid, Command>, batch: seq<Command>, cid: Uid)
    ensures var after := RememberedAll(history, batch);
            if cid in Ids(batch) then cid in after && after[cid] in batch && after[cid].commandId == cid
            else (cid in after) == (cid in history) && (cid in history ==> after[cid] == history[cid])
  {
    if batch != [] {
      var front, last := batch[..|batch| - 1], batch[|batch| - 1];
      assert batch == front + [last];
      RememberedAllAt(history, front, cid);
    }
  }

  lemma TakenIds(queue: seq<Command>)
    ensures Ids(Taken(queue)) == Ids(queue)
  {
    var batch := Taken(queue);
    forall cid | cid in Ids(queue) ensures cid in Ids(batch) {
      var i :| 0 <= i < |queue| && queue[i].commandId == cid;
      assert batch[i] in batch;
    }
  }

  lemma DequeueTells(history: map<Uid, Command>, issued: map<Uid, Uid>, dispatched: set<Uid>, reported: set<Uid>,
                     queue: seq<Command>)
    requires Told(history, issued, dispatched, reported)
    requires forall cmd :: cmd in queue ==> cmd.result == "" && cmd.commandId in issued && cmd.commandId !in reported
    ensures Told(RememberedAll(history, Taken(queue)), issued, dispatched + Ids(queue), reported)
  {
    var batch := Taken(queue);
    TakenIds(queue);
    forall cid | cid in RememberedAll(history, batch)
      ensures cid in issued
      ensures Shows(RememberedAll(history, batch)[cid], cid in dispatched + Ids(queue), cid in reported)
    {
      RememberedAllAt(history, batch, cid);
    }
  }

  lemma AcceptTells(history: map<Uid, Command>, issued: map<Uid, Uid>, dispatched: set<Uid>, reported: set<Uid>,
                    cmd: Command, pruned: set<Uid>)
    requires Told(history, issued, dispatched, reported)
    requires cmd.commandId !in dispatched && cmd.commandId !in reported && cmd.status == Pending && cmd.result == ""
    ensures Told(Remembered(history, cmd) - pruned, issued[cmd.commandId := cmd.agentId], dispatched, reported)
  {}

  lemma QueueIsAhead(s: State, id: Uid)
    requires Fresh(s)
    ensures forall cmd :: cmd in QueueOf(s.reg, id) ==>
              && cmd.commandId in s.issued && s.issued[cmd.commandId] == id && cmd.commandId !in s.dispatched
              && cmd.result == ""
    ensures Ids(QueueOf(s.reg, id)) !! s.dispatched && Ids(QueueOf(s.reg, id)) <= s.issued.Keys
  {
    var a := AgentOf(s.loops, id);
    assert Conserved(id, a, QueueOf(s.reg, id)) && Own(id, a, s.issued, s.dispatched, s.ran);
  }

  /** Every command in a batch has an id issued for its agent. */
  lemma BatchIsOwn(s: State, id: Uid)
    requires Fresh(s)
    ensures var a := AgentOf(s.loops, id);
            && Distinct(a.executed + a.batch)
            && forall i :: 0 <= i < |a.executed + a.batch| ==>
                 var cid := (a.executed + a.batch)[i].commandId;
                 cid in s.issued && s.issued[cid] == id
  {
    var a := AgentOf(s.loops, id);
    assert Traced(a) && Own(id, a, s.issued, s.dispatched, s.ran);
    var done := a.executed + a.batch;
    forall i, j | 0 <= i < j < |done| ensures done[i].commandId != done[j].commandId {
      assert a.origins[i] < a.origins[j];
    }
  }

  lemma OneAgentKeepsOwn(s: State, s': State, id: Uid)
    requires Fresh(s)
    requires forall other :: other != id ==> AgentOf(s'.loops, other) == AgentOf(s.loops, other)
    requires forall cid :: cid in s.issued ==> cid in s'.issued && s'.issued[cid] == s.issued[cid]
    requires forall cid :: cid in (s'.dispatched - s.dispatched) + (s'.ran - s.ran) ==>
               cid in s'.issued && s'.issued[cid] == id
    requires s.dispatched <= s'.dispatched
    requires Own(id, AgentOf(s'.loops, id), s'.issued, s'.dispatched, s'.ran)
    ensures forall other :: Own(other, AgentOf(s'.loops, other), s'.issued, s'.dispatched, s'.ran)
  {
    forall other ensures Own(other, AgentOf(s'.loops, other), s'.issued, s'.dispatched, s'.ran) {
      if other != id {
        var a := AgentOf(s.loops, other);
        assert Own(other, a, s.issued, s.dispatched, s.ran);
        BatchIsOwn(s, other);
        forall i | 0 <= i < |a.batch| ensures a.batch[i].commandId !in s'.ran {
          assert a.batch[i] == (a.executed + a.batch)[|a.executed| + i];
        }
      }
    }
  }

  lemma AcceptKeepsOwn(id: Uid, a: Agent, issued: map<Uid, Uid>, dispatched: set<Uid>, ran: set<Uid>, cmd: Command)
    requires Own(id, a, issued, dispatched, ran) && dispatched <= issued.Keys
    requires cmd.commandId !in issued && cmd.status == Pending && cmd.result == ""
    ensures Own(id, a.(accepted := a.accepted + [cmd]), issued[cmd.commandId := id], dispatched, ran)
  {}

  lemma TakeKeepsOwn(id: Uid, a: Agent, issued: map<Uid, Uid>, dispatched: set<Uid>, ran: set<Uid>, more: set<Uid>)
    requires Own(id, a, issued, dispatched, ran)
    ensures Own(id, a.(taken := |a.accepted|), issued, dispatched + more, ran)
  {}

  lemma PollKeepsOwn(id: Uid, a: Agent, issued: map<Uid, Uid>, dispatched: set<Uid>, ran: set<Uid>,
                     queue: seq<Command>, origins: seq<nat>)
    requires Own(id, a, issued, dispatched, ran) && ran <= dispatched && Ids(queue) !! dispatched
    ensures Own(id, a.(taken := |a.accepted|, batch := Taken(queue), origins := origins),
                issued, dispatched + Ids(queue), ran)
  {
    forall i | 0 <= i < |queue| ensures queue[i].commandId in Ids(queue) && queue[i].commandId !in ran {
      assert queue[i] in queue;
    }
  }

  lemma QueueKeepsRecords(s: State, cmd: Command, now: Time, pruned: set<Uid>)
    requires Fresh(s) && Acceptable(s, Queue(cmd, now, pruned))
    ensures var s' := QueueStep(s, cmd, now, pruned);
            Told(s'.reg.history, s'.issued, s'.dispatched, s'.reported) && Nested(s')
  {
    AcceptTells(s.reg.history, s.issued, s.dispatched, s.reported, Stamped(cmd, now), pruned);
  }

  /** s' differs from s as an accepted command makes it differ. */
  ghost predicate Accepts(s: State, s': State, id: Uid, entry: Command) {
    && s'.issued == s.issued[entry.commandId := id] && s'.dispatched == s.dispatched && s'.ran == s.ran
    && AgentOf(s'.loops, id) == AgentOf(s.loops, id).(accepted := AgentOf(s.loops, id).accepted + [entry])
    && forall other :: other != id ==> AgentOf(s'.loops, other) == AgentOf(s.loops, other)
  }

  lemma QueueAccepts(s: State, cmd: Command, now: Time, pruned: set<Uid>)
    ensures var s' := QueueStep(s, cmd, now, pruned);
            s' == s || Accepts(s, s', cmd.agentId, Stamped(cmd, now))
  {}

  lemma AcceptsKeepsOwn(s: State, s': State, id: Uid, entry: Command)
    requires Fresh(s) && Accepts(s, s', id, entry)
    requires entry.commandId !in s.issued && entry.status == Pending && entry.result == ""
    ensures forall other :: Own(other, AgentOf(s'.loops, other), s'.issued, s'.dispatched, s'.ran)
  {
    assert Own(id, AgentOf(s.loops, id), s.issued, s.dispatched, s.ran);
    AcceptKeepsOwn(id, AgentOf(s.loops, id), s.issued, s.dispatched, s.ran, entry);
    OneAgentKeepsOwn(s, s', id);
  }

  lemma QueueKeepsOwn(s: State, cmd: Command, now: Time, pruned: set<Uid>)
    requires Fresh(s) && Acceptable(s, Queue(cmd, now, pruned))
    ensures var s' := QueueStep(s, cmd, now, pruned);
            forall id :: Own(id, AgentOf(s'.loops, id), s'.issued, s'.dispatched, s'.ran)
  {
    QueueAccepts(s, cmd, now, pruned);
    var s' := QueueStep(s, cmd, now, pruned);
    if s' != s {
      AcceptsKeepsOwn(s, s', cmd.agentId, Stamped(cmd, now));
    }
  }

  lemma FreshInParts(s: State)
    requires Sound(s) && Nested(s) && Told(s.reg.history, s.issued, s.dispatched, s.reported)
    requires forall id :: Own(id, AgentOf(s.loops, id), s.issued, s.dispatched, s.ran)
    ensures Fresh(s)
  {}

  lemma QueueKeepsFresh(s: State, cmd: Command, now: Time, pruned: set<Uid>)
    requires Fresh(s) && Acceptable(s, Queue(cmd, now, pruned))
    ensures Fresh(Step(s, Queue(cmd, now, pruned)))
  {
    QueueStepKeepsSound(s, cmd, now, pruned);
    QueueKeepsRecords(s, cmd, now, pruned);
    QueueKeepsOwn(s, cmd, now, pruned);
    FreshInParts(QueueStep(s, cmd, now, pruned));
  }

  /** What a dequeue does to everything but the loops. */
  lemma DequeueKeepsRecords(s: State, id: Uid)
    requires Fresh(s)
    ensures var s' := Dequeue(s, id);
            Told(s'.reg.history, s'.issued, s'.dispatched, s'.reported) && Nested(s')
  {
    QueueIsAhead(s, id);
    DequeueTells(s.reg.history, s.issued, s.dispatched, s.reported, QueueOf(s.reg, id));
  }

  lemma StepsAre(s: State, id: Uid)
    ensures Step(s, Drain(id)) == Dequeue(s, id) && Step(s, Stop(id)) == StopStep(s, id)
  {}

  lemma DequeueKeepsOwn(s: State, id: Uid)
    requires Fresh(s)
    ensures var s' := Dequeue(s, id);
            forall other :: Own(other, AgentOf(s'.loops, other), s'.issued, s'.dispatched, s'.ran)
  {
    QueueIsAhead(s, id);
    var a, queue := AgentOf(s.loops, id), QueueOf(s.reg, id);
    assert Own(id, a, s.issued, s.dispatched, s.ran);
    TakeKeepsOwn(id, a, s.issued, s.dispatched, s.ran, Ids(queue));
    OneAgentKeepsOwn(s, Dequeue(s, id), id);
  }

  lemma DequeueKeepsFresh(s: State, id: Uid)
    requires Fresh(s)
    ensures Fresh(Step(s, Drain(id)))
  {
    DequeueKeepsSound(s, id);
    DequeueKeepsRecords(s, id);
    DequeueKeepsOwn(s, id);
    FreshInParts(Dequeue(s, id));
    StepsAre(s, id);
  }

  lemma PollKeepsFresh(s: State, id: Uid)
    requires Fresh(s)
    ensures Fresh(Step(s, Poll(id)))
  {
    var a, queue := AgentOf(s.loops, id), QueueOf(s.reg, id);
    if a.batch == [] {
      PollKeepsSound(s, id);
      DequeueKeepsRecords(s, id);
      QueueIsAhead(s, id);
      assert Own(id, a, s.issued, s.dispatched, s.ran);
      PollKeepsOwn(id, a, s.issued, s.dispatched, s.ran, queue, a.origins + UpFrom(a.taken, |queue|));
      OneAgentKeepsOwn(s, PollStep(s, id), id);
    }
  }

  lemma ExecuteKeepsOwn(id: Uid, a: Agent, issued: map<Uid, Uid>, dispatched: set<Uid>, ran: set<Uid>)
    requires Own(id, a, issued, dispatched, ran) && a.batch != [] && Distinct(a.executed + a.batch)
    ensures Own(id, a.(executed := a.executed + [a.batch[0]], batch := a.batch[1..]),
                issued, dispatched, ran + {a.batch[0].commandId})
  {
    var all, n := a.executed + a.batch, |a.executed|;
    forall i | 1 <= i < |a.batch| ensures a.batch[i].commandId != a.batch[0].commandId {
      assert all[n] == a.batch[0] && all[n + i] == a.batch[i];
    }
  }

  lemma ExecuteKeepsFresh(s: State, id: Uid, report: Report)
    requires Fresh(s)
    ensures Fresh(Step(s, Execute(id, report)))
  {
    var a := AgentOf(s.loops, id);
    if a.batch != [] {
      ExecuteKeepsSound(s, id, report);
      BatchIsOwn(s, id);
      assert a.batch[0] == (a.executed + a.batch)[|a.executed|];
      assert Own(id, a, s.issued, s.dispatched, s.ran);
      ExecuteKeepsOwn(id, a, s.issued, s.dispatched, s.ran);
      OneAgentKeepsOwn(s, ExecuteStep(s, id, report), id);
    }
  }

  lemma StopKeepsOwn(s: State, id: Uid)
    requires Fresh(s)
    ensures var s' := StopStep(s, id);
            forall other :: Own(other, AgentOf(s'.loops, other), s'.issued, s'.dispatched, s'.ran)
  {
    assert Own(id, AgentOf(s.loops, id), s.issued, s.dispatched, s.ran);
    OneAgentKeepsOwn(s, StopStep(s, id), id);
  }

  lemma StopKeepsRecords(s: State, id: Uid)
    requires Nested(s) && Told(s.reg.history, s.issued, s.dispatched, s.reported)
    ensures var s' := StopStep(s, id); Nested(s') && Told(s'.reg.history, s'.issued, s'.dispatched, s'.reported)
  {}

  lemma StopKeepsFresh(s: State, id: Uid)
    requires Fresh(s)
    ensures Fresh(Step(s, Stop(id)))
  {
    StopKeepsSound(s, id);
    StopKeepsOwn(s, id);
    StopKeepsRecords(s, id);
    FreshInParts(StopStep(s, id));
    StepsAre(s, id);
  }

  lemma UnregisterKeepsFresh(s: State, id: Uid)
    requires Fresh(s)
    ensures Fresh(Step(s, Unregister(id)))
  {
    UnregisterKeepsSound(s, id);
    assert Own(id, AgentOf(s.loops, id), s.issued, s.dispatched, s.ran);
    OneAgentKeepsOwn(s, UnregisterStep(s, id), id);
    FreshInParts(UnregisterStep(s, id));
  }

  lemma RegistryStepKeepsRecords(s: State, e: Event)
    requires Nested(s) && Told(s.reg.history, s.issued, s.dispatched, s.reported)
    requires e.Register? || e.Beat? || e.SetState? || e.Arrive?
    ensures var s' := Step(s, e);
            && Nested(s') && Told(s'.reg.history, s'.issued, s'.dispatched, s'.reported)
            && s'.loops == s.loops && s'.issued == s.issued && s'.dispatched == s.dispatched && s'.ran == s.ran
  {}

  lemma RegistryStepKeepsFresh(s: State, e: Event)
    requires Fresh(s) && (e.Register? || e.Beat? || e.SetState? || e.Arrive?)
    ensures Fresh(Step(s, e))
  {
    var s' := Step(s, e);
    RegistryStepKeepsSound(s, e);
    RegistryStepKeepsRecords(s, e);
    assert forall id :: Own(id, AgentOf(s'.loops, id), s'.issued, s'.dispatched, s'.ran);
    FreshInParts(s');
  }

  lemma StepKeepsFresh(s: State, e: Event)
    requires Fresh(s) && Acceptable(s, e)
    ensures Fresh(Step(s, e))
  {
    match e {
      case Queue(cmd, now, pruned) => QueueKeepsFresh(s, cmd, now, pruned);
      case Drain(id) => DequeueKeepsFresh(s, id);
      case Poll(id) => PollKeepsFresh(s, id);
      case Execute(id, report) => ExecuteKeepsFresh(s, id, report);
      case Unregister(id) => UnregisterKeepsFresh(s, id);
      case Stop(id) => StopKeepsFresh(s, id);
      case _ => RegistryStepKeepsFresh(s, e);
    }
  }

  lemma {:induction false} IssuedWasQueued(es: seq<Event>, cid: Uid)
    requires cid in Run(Init, es).issued
    ensures exists i :: 0 <= i < |es| && es[i].Queue? && es[i].cmd.commandId == cid
    decreases |es|
  {
    var n := |es| - 1;
    if cid in Run(Init, es[..n]).issued {
      IssuedWasQueued(es[..n], cid);
      var i :| 0 <= i < n && es[..n][i].Queue? && es[..n][i].cmd.commandId == cid;
      assert es[i].Queue? && es[i].cmd.commandId == cid;
    } else {
      assert es[n].Queue?;
    }
  }

  lemma LastKeepsFresh(es: seq<Event>)
    requires es != [] && Fresh(Run(Init, es[..|es| - 1])) && Acceptable(Run(Init, es[..|es| - 1]), es[|es| - 1])
    ensures Fresh(Run(Init, es))
  {
    StepKeepsFresh(Run(Init, es[..|es| - 1]), es[|es| - 1]);
  }

  lemma InitIsFresh()
    ensures Fresh(Init)
  {}

  lemma {:induction false} RunKeepsFresh(es: seq<Event>)
    requires UniqueIds(es)
    ensures Fresh(Run(Init, es))
    decreases |es|
  {
    if es == [] {
      InitIsFresh();
    } else {
      NextIsAcceptable(es);
      RunKeepsFresh(es[..|es| - 1]);
      LastKeepsFresh(es);
    }
  }

  lemma NextIsAcceptable(es: seq<Event>)
    requires UniqueIds(es) && es != []
    ensures UniqueIds(es[..|es| - 1]) && Acceptable(Run(Init, es[..|es| - 1]), es[|es| - 1])
  {
    var n := |es| - 1;
    if es[n].Queue? && es[n].cmd.commandId in Run(Init, es[..n]).issued {
      IssuedWasQueued(es[..n], es[n].cmd.commandId);
    }
  }

  // ------------------------------------------------------------------
  // Execution
  // ------------------------------------------------------------------

  /**
   However poll replies are lost, whatever each agent has executed are commands submitted
   for it, in the order of submission, unchanged but for status and a missing time of creation.
   */
  lemma ExecutedInOrder(es: seq<Event>, id: Uid)
    ensures var executed, subs := AgentOf(Run(Init, es).loops, id).executed, Submitted(es, id);
            exists at: seq<nat> ::
              && |at| == |executed|
              && Increasing(at)
              && forall i :: 0 <= i < |at| ==> at[i] < |subs| && Delivers(executed[i], subs[at[i]])
  {
    RunKeepsSound(es);
    AcceptedWasSubmitted(es, id);
    var a, subs := AgentOf(Run(Init, es).loops, id), Submitted(es, id);
    assert Traced(a);
    var at := a.origins[..|a.executed|];
    assert Increasing(at);
    forall i | 0 <= i < |at| ensures at[i] < |subs| && Delivers(a.executed[i], subs[at[i]]) {
      assert a.executed[i] == (a.executed + a.batch)[i];
      assert Keeps(a.accepted[at[i]], subs[at[i]]);
    }
  }

  /** No command is executed twice, by one agent or by two. */
  lemma ExecutedAtMostOnce(es: seq<Event>, id: Uid, i: nat, id': Uid, j: nat)
    requires UniqueIds(es)
    requires i < |AgentOf(Run(Init, es).loops, id).executed|
    requires j < |AgentOf(Run(Init, es).loops, id').executed|
    requires AgentOf(Run(Init, es).loops, id).executed[i].commandId
          == AgentOf(Run(Init, es).loops, id').executed[j].commandId
    ensures id == id' && i == j
  {
    RunKeepsFresh(es);
    var s := Run(Init, es);
    BatchIsOwn(s, id);
    BatchIsOwn(s, id');
    var a, a' := AgentOf(s.loops, id), AgentOf(s.loops, id');
    assert a.executed[i] == (a.executed + a.batch)[i] && a'.executed[j] == (a'.executed + a'.batch)[j];
  }

  // ------------------------------------------------------------------
  // The history
  // ------------------------------------------------------------------

  /** What stays known about a command: how far it got, and its entry once reported. */
  ghost predicate Later(s: State, s': State, cid: Uid) {
    && s.dispatched <= s'.dispatched
    && s.reported <= s'.reported
    && (cid in s.reported && cid in s'.reg.history ==>
          cid in s.reg.history && s'.reg.history[cid] == s.reg.history[cid])
  }

  lemma DequeueIsLater(s: State, id: Uid, cid: Uid)
    requires Fresh(s)
    ensures Later(s, Dequeue(s, id), cid)
  {
    var queue := QueueOf(s.reg, id);
    QueueIsAhead(s, id);
    TakenIds(queue);
    RememberedAllAt(s.reg.history, Taken(queue), cid);
  }

  lemma OtherStepIsLater(s: State, e: Event, cid: Uid)
    requires Nested(s) && !e.Queue? && !e.Drain? && !e.Poll?
    ensures Later(s, Step(s, e), cid)
  {}

  lemma QueueIsLater(s: State, cmd: Command, now: Time, pruned: set<Uid>, cid: Uid)
    requires Nested(s) && Acceptable(s, Queue(cmd, now, pruned))
    ensures Later(s, QueueStep(s, cmd, now, pruned), cid)
  {}

  lemma StepIsLater(s: State, e: Event, cid: Uid)
    requires Fresh(s) && Acceptable(s, e)
    ensures Later(s, Step(s, e), cid)
  {
    match e {
      case Drain(id) => DequeueIsLater(s, id, cid);
      case Poll(id) => DequeueIsLater(s, id, cid);
      case Queue(cmd, now, pruned) => QueueIsLater(s, cmd, now, pruned, cid);
      case _ => OtherStepIsLater(s, e, cid);
    }
  }

  lemma LastStep(es: seq<Event>, more: seq<Event>)
    requires UniqueIds(es + more) && more != []
    ensures var n := |more| - 1;
            var front := es + more[..n];
            UniqueIds(front) && Fresh(Run(Init, front)) && Acceptable(Run(Init, front), more[n])
  {
    var n := |more| - 1;
    var all, front := es + more, es + more[..n];
    assert all[..|all| - 1] == front && all[|all| - 1] == more[n];
    NextIsAcceptable(all);
    RunKeepsFresh(front);
  }

  lemma {:induction false} RunIsLater(es: seq<Event>, more: seq<Event>, cid: Uid)
    requires UniqueIds(es + more)
    ensures Later(Run(Init, es), Run(Init, es + more), cid)
    decreases |more|
  {
    if more == [] {
      assert es + more == es;
    } else {
      var n := |more| - 1;
      LastStep(es, more);
      RunSplits(Init, es, more);
      RunIsLater(es, more[..n], cid);
      StepIsLater(Run(Init, es + more[..n]), more[n], cid);
    }
  }

  lemma PrefixIsUnique(es: seq<Event>, more: seq<Event>)
    requires UniqueIds(es + more)
    ensures UniqueIds(es)
  {
    assert forall i :: 0 <= i < |es| ==> (es + more)[i] == es[i];
  }

  /**
   Whatever is pruned and put back at dequeue, the history shows Pending, then
   Dispatched, then one terminal entry that never changes; a result appears only there.
   */
  lemma HistoryMovesForward(es: seq<Event>, more: seq<Event>, cid: Uid)
    requires UniqueIds(es + more)
    requires cid in Run(Init, es).reg.history && cid in Run(Init, es + more).reg.history
    ensures var before, after := Run(Init, es).reg.history[cid], Run(Init, es + more).reg.history[cid];
            && (before.status == Pending || before.status == Dispatched || Terminal(before.status))
            && (before.result != "" ==> Terminal(before.status))
            && Rank(before.status) <= Rank(after.status)
            && (Terminal(before.status) ==> after == before)
  {
    PrefixIsUnique(es, more);
    HistoryShows(es, cid);
    HistoryShows(es + more, cid);
    RunIsLater(es, more, cid);
  }

  lemma HistoryShows(es: seq<Event>, cid: Uid)
    requires UniqueIds(es) && cid in Run(Init, es).reg.history
    ensures var s := Run(Init, es); Shows(s.reg.history[cid], cid in s.dispatched, cid in s.reported)
  {
    RunKeepsFresh(es);
  }
}
