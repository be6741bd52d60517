/** Commands that the server has dispatched and that no agent will ever execute. */
module LostCommands {
  import opened Sequences
  import opened AgentRegistry
  import opened CommandDelivery
  import opened CommandHistory
  import opened AgentLoop

  /** Dispatched according to the server, yet in no agent's hands. */
  ghost predicate Lost(s: State, cid: Uid) {
    && cid in s.dispatched
    && cid !in s.ran
    && forall id :: cid !in Ids(AgentOf(s.loops, id).batch)
  }

  lemma PollKeepsLost(s: State, id: Uid, cid: Uid)
    requires Fresh(s) && Lost(s, cid)
    ensures Lost(PollStep(s, id), cid)
  {
    QueueIsAhead(s, id);
    TakenIds(QueueOf(s.reg, id));
    assert forall other :: other != id ==> AgentOf(PollStep(s, id).loops, other) == AgentOf(s.loops, other);
  }

  lemma ExecuteKeepsLost(s: State, id: Uid, report: Report, cid: Uid)
    requires Lost(s, cid)
    ensures Lost(ExecuteStep(s, id, report), cid)
  {
    var batch := AgentOf(s.loops, id).batch;
    if batch != [] {
      assert batch[0] in batch && batch[0].commandId in Ids(batch);
      assert Ids(batch[1..]) <= Ids(batch);
    }
    forall other ensures cid !in Ids(AgentOf(ExecuteStep(s, id, report).loops, other).batch) {
      assert cid !in Ids(AgentOf(s.loops, other).batch);
    }
  }

  lemma BatchStaysOrEmpties(s: State, e: Event, id: Uid)
    requires !e.Poll? && !e.Execute?
    ensures var batch' := AgentOf(Step(s, e).loops, id).batch; batch' == AgentOf(s.loops, id).batch || batch' == []
    ensures Step(s, e).ran == s.ran && s.dispatched <= Step(s, e).dispatched
  {}

  lemma StepKeepsLost(s: State, e: Event, cid: Uid)
    requires Fresh(s) && Lost(s, cid)
    ensures Lost(Step(s, e), cid)
  {
    if e.Poll? {
      PollKeepsLost(s, e.id, cid);
    } else if e.Execute? {
      ExecuteKeepsLost(s, e.id, e.report, cid);
    } else {
      OtherStepKeepsLost(s, e, cid);
    }
  }

  lemma OtherStepKeepsLost(s: State, e: Event, cid: Uid)
    requires Lost(s, cid) && !e.Poll? && !e.Execute?
    ensures Lost(Step(s, e), cid)
  {
    var s' := Step(s, e);
    BatchStaysOrEmpties(s, e, "");
    forall other ensures cid !in Ids(AgentOf(s'.loops, other).batch) {
      BatchStaysOrEmpties(s, e, other);
      assert cid !in Ids(AgentOf(s.loops, other).batch);
    }
  }

  lemma {:induction false} LostForGood(es: seq<Event>, more: seq<Event>, cid: Uid)
    requires UniqueIds(es + more) && Lost(Run(Init, es), cid)
    ensures Lost(Run(Init, es + more), cid)
    decreases |more|
  {
    if more == [] {
      assert es + more == es;
    } else {
      var n := |more| - 1;
      LastStep(es, more);
      RunSplits(Init, es, more);
      LostForGood(es, more[..n], cid);
      StepKeepsLost(Run(Init, es + more[..n]), more[n], cid);
    }
  }

  /**
   A queued command that is dequeued without reaching the agent's loop (a lost poll
   reply, or a heartbeat reply, whose commands the agent does not read) is never
   executed, and every later history entry for it says Dispatched.
   */
  lemma DrainedIsNeverExecuted(es: seq<Event>, id: Uid, cmd: Command, more: seq<Event>, other: Uid)
    requires UniqueIds(es + [Drain(id)] + more)
    requires cmd in QueueOf(Run(Init, es).reg, id)
    ensures var s := Run(Init, es + [Drain(id)] + more);
            && cmd.commandId !in Ids(AgentOf(s.loops, other).executed)
            && (cmd.commandId in s.reg.history ==> s.reg.history[cmd.commandId].status == Dispatched)
  {
    var drained, cid := es + [Drain(id)], cmd.commandId;
    PrefixIsUnique(drained, more);
    DrainLoses(es, id, cmd);
    LostForGood(drained, more, cid);
    LostShows(drained + more, cid, other);
  }

  lemma DrainLoses(es: seq<Event>, id: Uid, cmd: Command)
    requires UniqueIds(es + [Drain(id)])
    requires cmd in QueueOf(Run(Init, es).reg, id)
    ensures Lost(Run(Init, es + [Drain(id)]), cmd.commandId)
  {
    PrefixIsUnique(es, [Drain(id)]);
    RunKeepsFresh(es);
    DrainLosesCommand(Run(Init, es), id, cmd);
    RunAppend(Init, es, Drain(id));
  }

  lemma DrainLosesCommand(s: State, id: Uid, cmd: Command)
    requires Fresh(s) && cmd in QueueOf(s.reg, id)
    ensures Lost(Step(s, Drain(id)), cmd.commandId)
  {
    NoBatchHolds(s, id, cmd);
    StepsAre(s, id);
  }

  lemma LostShows(es: seq<Event>, cid: Uid, id: Uid)
    requires UniqueIds(es) && Lost(Run(Init, es), cid)
    ensures var s := Run(Init, es);
            && cid !in Ids(AgentOf(s.loops, id).executed)
            && (cid in s.reg.history ==> s.reg.history[cid].status == Dispatched)
  {
    RunKeepsFresh(es);
    ExecutedIsRan(es, id);
  }

  lemma NotYetInHand(s: State, cid: Uid)
    requires Fresh(s) && cid !in s.dispatched
    ensures forall id :: cid !in Ids(AgentOf(s.loops, id).batch)
  {
    forall id ensures cid !in Ids(AgentOf(s.loops, id).batch) {
      assert Own(id, AgentOf(s.loops, id), s.issued, s.dispatched, s.ran);
    }
  }

  lemma DequeueKeepsBatches(s: State, id: Uid, other: Uid)
    ensures AgentOf(Dequeue(s, id).loops, other).batch == AgentOf(s.loops, other).batch
    ensures Dequeue(s, id).dispatched == s.dispatched + Ids(QueueOf(s.reg, id)) && Dequeue(s, id).ran == s.ran
  {}

  lemma NoBatchHolds(s: State, id: Uid, cmd: Command)
    requires Fresh(s) && cmd in QueueOf(s.reg, id)
    ensures Lost(Dequeue(s, id), cmd.commandId)
  {
    var cid := cmd.commandId;
    QueueIsAhead(s, id);
    assert cid in Ids(QueueOf(s.reg, id)) && cid !in s.dispatched && cid !in s.ran;
    NotYetInHand(s, cid);
    forall other ensures cid !in Ids(AgentOf(Dequeue(s, id).loops, other).batch) {
      DequeueKeepsBatches(s, id, other);
    }
    DequeueKeepsBatches(s, id, id);
  }

  ghost predicate Recorded(executed: seq<Command>, ran: set<Uid>) {
    forall i :: 0 <= i < |executed| ==> executed[i].commandId in ran
  }

  lemma StepKeepsRecorded(s: State, e: Event, id: Uid)
    requires Recorded(AgentOf(s.loops, id).executed, s.ran)
    ensures Recorded(AgentOf(Step(s, e).loops, id).executed, Step(s, e).ran)
  {
    if !e.Execute? {
      OtherStepExecutesNothing(s, e, id);
    }
  }

  lemma OtherStepExecutesNothing(s: State, e: Event, id: Uid)
    requires !e.Execute?
    ensures AgentOf(Step(s, e).loops, id).executed == AgentOf(s.loops, id).executed && Step(s, e).ran == s.ran
  {
    if e.Register? || e.Beat? || e.SetState? || e.Arrive? {
      RegistryStepKeepsQueues(s, e);
    } else if e.Drain? || e.Poll? {
      DequeueExecutesNothing(s, e, id);
    } else {
      QueueingExecutesNothing(s, e, id);
    }
  }

  lemma QueueingExecutesNothing(s: State, e: Event, id: Uid)
    requires e.Queue? || e.Unregister? || e.Stop?
    ensures AgentOf(Step(s, e).loops, id).executed == AgentOf(s.loops, id).executed && Step(s, e).ran == s.ran
  {}

  lemma DequeueExecutesNothing(s: State, e: Event, id: Uid)
    requires e.Drain? || e.Poll?
    ensures AgentOf(Step(s, e).loops, id).executed == AgentOf(s.loops, id).executed && Step(s, e).ran == s.ran
  {}

  lemma {:induction false} ExecutedIsRan(es: seq<Event>, id: Uid)
    ensures Recorded(AgentOf(Run(Init, es).loops, id).executed, Run(Init, es).ran)
    decreases |es|
  {
    if es != [] {
      ExecutedIsRan(es[..|es| - 1], id);
      StepKeepsRecorded(Run(Init, es[..|es| - 1]), es[|es| - 1], id);
    }
  }

  // ------------------------------------------------------------------
  // Exactly the commands in hand can still be executed
  // ------------------------------------------------------------------

  /** Some agent's loop has the command ahead of it. */
  ghost predicate InHand(s: State, cid: Uid) {
    exists id :: cid in Ids(AgentOf(s.loops, id).batch)
  }

  lemma {:induction false} RunConcat(s: State, es: seq<Event>, more: seq<Event>)
    ensures Run(s, es + more) == Run(Run(s, es), more)
    decreases |more|
  {
    if more == [] {
      assert es + more == es;
    } else {
      RunSplits(s, es, more);
      RunConcat(s, es, more[..|more| - 1]);
    }
  }

  lemma ExecutionsKeepUnique(es: seq<Event>, id: Uid, outcomes: seq<Report>)
    requires UniqueIds(es)
    ensures UniqueIds(es + Executions(id, outcomes))
  {
    var all := es + Executions(id, outcomes);
    forall i | 0 <= i < |all| && all[i].Queue? ensures i < |es| && all[i] == es[i] {}
  }

  lemma HandedIsExecutable(es: seq<Event>, id: Uid, cid: Uid)
    requires UniqueIds(es) && cid in Ids(AgentOf(Run(Init, es).loops, id).batch)
    ensures exists more :: UniqueIds(es + more) && cid in Run(Init, es + more).ran
  {
    var s := Run(Init, es);
    var batch := AgentOf(s.loops, id).batch;
    var outcomes := seq(|batch|, _ => CommandDelivery.Report(true, "", 0));
    var more := Executions(id, outcomes);
    ExecutionsKeepUnique(es, id, outcomes);
    BatchIsExecutions(s, id, outcomes);
    RunConcat(Init, es, more);
    ExecutedIsRan(es + more, id);
    var executed := AgentOf(Run(Init, es + more).loops, id).executed;
    var i :| 0 <= i < |batch| && batch[i].commandId == cid;
    assert batch[..|batch|] == batch;
    assert executed == s.loops[id].executed + batch;
    assert executed[|s.loops[id].executed| + i] == batch[i];
  }

  /** Some continuation executes a dispatched command exactly when it is in an agent's hands. */
  lemma ExecutableIffInHand(es: seq<Event>, cid: Uid)
    requires UniqueIds(es) && cid in Run(Init, es).dispatched && cid !in Run(Init, es).ran
    ensures (exists more :: UniqueIds(es + more) && cid in Run(Init, es + more).ran) <==> InHand(Run(Init, es), cid)
  {
    var s := Run(Init, es);
    if InHand(s, cid) {
      var id :| cid in Ids(AgentOf(s.loops, id).batch);
      HandedIsExecutable(es, id, cid);
    } else {
      forall more | UniqueIds(es + more) ensures cid !in Run(Init, es + more).ran {
        LostForGood(es, more, cid);
      }
    }
  }

  // ------------------------------------------------------------------
  // How a command gets lost
  // ------------------------------------------------------------------

  /** A dequeue whose reply nobody executes, or a stop in the middle of a batch. */
  predicate Loses(s: State, e: Event, cid: Uid) {
    || (e.Drain? && cid in Ids(QueueOf(s.reg, e.id)))
    || (e.Stop? && cid in Ids(AgentOf(s.loops, e.id).batch))
  }

  lemma StopLoses(s: State, id: Uid, cid: Uid)
    requires Fresh(s) && cid in Ids(AgentOf(s.loops, id).batch)
    ensures Lost(Step(s, Stop(id)), cid)
  {
    var s' := Step(s, Stop(id));
    assert Own(id, AgentOf(s.loops, id), s.issued, s.dispatched, s.ran);
    assert cid in s.dispatched && cid !in s.ran;
    InBatchIsIssued(s, id, cid);
    forall other ensures cid !in Ids(AgentOf(s'.loops, other).batch) {
      if other != id && cid in Ids(AgentOf(s.loops, other).batch) {
        InBatchIsIssued(s, other, cid);
      }
    }
  }

  lemma InBatchIsIssued(s: State, id: Uid, cid: Uid)
    requires Fresh(s) && cid in Ids(AgentOf(s.loops, id).batch)
    ensures cid in s.issued && s.issued[cid] == id
  {
    var a := AgentOf(s.loops, id);
    BatchIsOwn(s, id);
    var i :| 0 <= i < |a.batch| && a.batch[i].commandId == cid;
    assert (a.executed + a.batch)[|a.executed| + i] == a.batch[i];
  }

  lemma PollBatches(s: State, id: Uid)
    requires AgentOf(s.loops, id).batch == []
    ensures var loops := PollStep(s, id).loops;
            && Ids(AgentOf(loops, id).batch) == Ids(QueueOf(s.reg, id))
            && forall other :: other != id ==> AgentOf(loops, other) == AgentOf(s.loops, other)
  {
    TakenIds(QueueOf(s.reg, id));
    assert AgentOf(PollStep(s, id).loops, id).batch == Taken(QueueOf(s.reg, id));
  }

  lemma PollHandsOver(s: State, id: Uid, cid: Uid)
    requires AgentOf(s.loops, id).batch == []
    requires cid in Ids(QueueOf(s.reg, id)) || InHand(s, cid)
    ensures InHand(PollStep(s, id), cid)
  {
    PollBatches(s, id);
    var loops := PollStep(s, id).loops;
    if cid in Ids(QueueOf(s.reg, id)) {
      assert cid in Ids(AgentOf(loops, id).batch);
    } else {
      var w :| cid in Ids(AgentOf(s.loops, w).batch);
      assert cid in Ids(AgentOf(loops, w).batch);
    }
  }

  lemma ExecuteRunsOrKeeps(s: State, id: Uid, report: Report, cid: Uid)
    requires InHand(s, cid)
    ensures var s' := ExecuteStep(s, id, report); cid in s'.ran || InHand(s', cid)
  {
    var w :| cid in Ids(AgentOf(s.loops, w).batch);
    var s', batch := ExecuteStep(s, id, report), AgentOf(s.loops, w).batch;
    if w == id {
      assert batch == [batch[0]] + batch[1..];
      assert AgentOf(s'.loops, w).batch == batch[1..];
      assert cid == batch[0].commandId || cid in Ids(batch[1..]);
    } else {
      assert AgentOf(s'.loops, w) == AgentOf(s.loops, w);
    }
  }

  lemma OtherStepKeepsInHand(s: State, e: Event, cid: Uid)
    requires InHand(s, cid) && !e.Poll? && !e.Execute? && !Loses(s, e, cid)
    ensures InHand(Step(s, e), cid)
  {
    var w :| cid in Ids(AgentOf(s.loops, w).batch);
    assert AgentOf(Step(s, e).loops, w).batch == AgentOf(s.loops, w).batch;
  }

  /** Every other step leaves the command undispatched, executed or in hand. */
  lemma OtherStepDoesNotLose(s: State, e: Event, cid: Uid)
    requires Fresh(s) && !Lost(s, cid) && !Loses(s, e, cid)
    ensures !Lost(Step(s, e), cid)
  {
    match e {
      case Poll(id) =>
        if AgentOf(s.loops, id).batch == [] { PollLosesNothing(s, id, cid); }
      case Execute(id, report) =>
        if InHand(s, cid) { ExecuteRunsOrKeeps(s, id, report, cid); }
      case _ =>
        if InHand(s, cid) { OtherStepKeepsInHand(s, e, cid); }
        DispatchedStays(s, e, cid);
    }
  }

  lemma PollLosesNothing(s: State, id: Uid, cid: Uid)
    requires AgentOf(s.loops, id).batch == [] && !Lost(s, cid)
    ensures !Lost(PollStep(s, id), cid)
  {
    if cid in Ids(QueueOf(s.reg, id)) || InHand(s, cid) {
      PollHandsOver(s, id, cid);
    }
  }

  lemma DispatchedStays(s: State, e: Event, cid: Uid)
    requires !e.Poll? && !e.Execute? && !Loses(s, e, cid)
    ensures (cid in Step(s, e).dispatched <==> cid in s.dispatched) && Step(s, e).ran == s.ran
  {}

  lemma DrainLosesQueued(s: State, id: Uid, cid: Uid)
    requires Fresh(s) && cid in Ids(QueueOf(s.reg, id))
    ensures Lost(Dequeue(s, id), cid)
  {
    var cmd :| cmd in QueueOf(s.reg, id) && cmd.commandId == cid;
    NoBatchHolds(s, id, cmd);
  }

  lemma LosesWhenItShould(s: State, e: Event, cid: Uid)
    requires Fresh(s) && Loses(s, e, cid)
    ensures Lost(Step(s, e), cid)
  {
    if e.Drain? {
      DrainLosesQueued(s, e.id, cid);
      assert Step(s, e) == Dequeue(s, e.id);
    } else {
      StopLoses(s, e.id, cid);
    }
  }

  /**
   In every run a step loses a command exactly when it dequeues it without a reply
   reaching the agent's loop, or stops the loop while the command is still ahead of it.
   A poll whose reply arrives loses nothing.
   */
  lemma LosesIff(es: seq<Event>, e: Event, cid: Uid)
    requires UniqueIds(es) && !Lost(Run(Init, es), cid)
    ensures Lost(Step(Run(Init, es), e), cid) <==> Loses(Run(Init, es), e, cid)
  {
    RunKeepsFresh(es);
    if Loses(Run(Init, es), e, cid) {
      LosesWhenItShould(Run(Init, es), e, cid);
    } else {
      OtherStepDoesNotLose(Run(Init, es), e, cid);
    }
  }
}
