/**
 The agent's dispatch loop: execute the commands of one poll in order and report
 each, giving up the rest of the batch once a stop is requested.
 */
module AgentLoop {
  import opened AgentRegistry
  import opened CommandDelivery

  class AgentLoop {
    var executed: seq<Command>
    var sent: seq<(Uid, Report)>
    var stopRequested: bool

    constructor ()
      ensures executed == [] && sent == [] && !stopRequested
    {
      executed, sent, stopRequested := [], [], false;
    }

    /**
     outcomes gives what the dispatcher answers for each command, and stops whether
     the stop flag is found set before it.
     */
    method DispatchBatch(commands: seq<Command>, outcomes: seq<Report>, stops: seq<bool>)
      requires |outcomes| == |stops| == |commands|
      modifies this
      ensures var n := if old(stopRequested) then 0 else Before(stops);
              && executed == old(executed) + commands[..n]
              && sent == old(sent) + Sends(commands[..n], outcomes[..n])
              && stopRequested == (old(stopRequested) || n < |commands|)
    {
      var i := 0;
      while i < |commands|
        invariant 0 <= i <= |commands|
        invariant stopRequested == old(stopRequested) && (i > 0 ==> !stopRequested)
        invariant !stopRequested ==> i <= Before(stops)
        invariant executed == old(executed) + commands[..i]
        invariant sent == old(sent) + Sends(commands[..i], outcomes[..i])
      {
        stopRequested := stopRequested || stops[i];
        if stopRequested {
          return;
        }
        assert commands[..i + 1] == commands[..i] + [commands[i]];
        assert outcomes[..i + 1] == outcomes[..i] + [outcomes[i]];
        executed := executed + [commands[i]];
        sent := sent + [(commands[i].commandId, outcomes[i])];
        i := i + 1;
      }
    }
  }

  /** The position of the first true, or the length. */
  function Before(stops: seq<bool>): (n: nat)
    ensures n <= |stops|
    ensures forall i :: 0 <= i < n ==> !stops[i]
    ensures n < |stops| ==> stops[n]
  {
    if stops == [] || stops[0] then 0 else 1 + Before(stops[1..])
  }

  function Sends(commands: seq<Command>, outcomes: seq<Report>): (r: seq<(Uid, Report)>)
    requires |outcomes| == |commands|
    ensures |r| == |commands|
    ensures forall i :: 0 <= i < |r| ==> r[i] == (commands[i].commandId, outcomes[i])
  {
    seq(|commands|, i requires 0 <= i < |commands| => (commands[i].commandId, outcomes[i]))
  }

  function Executions(id: Uid, outcomes: seq<Report>): (es: seq<Event>)
    ensures |es| == |outcomes|
    ensures forall i :: 0 <= i < |es| ==> es[i] == Execute(id, outcomes[i])
  {
    seq(|outcomes|, i requires 0 <= i < |outcomes| => Execute(id, outcomes[i]))
  }

  lemma ExecuteTakesFirst(s: State, id: Uid, report: Report)
    requires id in s.loops && s.loops[id].batch != []
    ensures var a, s' := s.loops[id], Step(s, Execute(id, report));
            && id in s'.loops && s'.reg == s.reg
            && s'.loops[id] == a.(executed := a.executed + [a.batch[0]], batch := a.batch[1..])
  {}

  lemma OneMoreExecuted(a: Agent, b: Agent, n: nat)
    requires n < |a.batch| && b == a.(executed := a.executed + a.batch[..n], batch := a.batch[n..])
    ensures b.(executed := b.executed + [b.batch[0]], batch := b.batch[1..])
         == a.(executed := a.executed + a.batch[..n + 1], batch := a.batch[n + 1..])
  {
    assert a.executed + a.batch[..n] + [a.batch[n]] == a.executed + a.batch[..n + 1];
  }

  /** The protocol steps that one pass of DispatchBatch stands for. */
  lemma {:induction false} BatchIsExecutions(s: State, id: Uid, outcomes: seq<Report>)
    requires id in s.loops && |outcomes| <= |s.loops[id].batch|
    ensures var a, s', n := s.loops[id], Run(s, Executions(id, outcomes)), |outcomes|;
            && id in s'.loops
            && s'.loops[id] == a.(executed := a.executed + a.batch[..n], batch := a.batch[n..])
            && s'.reg == s.reg
    decreases |outcomes|
  {
    var n, a := |outcomes| - 1, s.loops[id];
    if outcomes == [] {
      assert a.executed + a.batch[..0] == a.executed;
    } else {
      BatchIsExecutions(s, id, outcomes[..n]);
      var before := Run(s, Executions(id, outcomes[..n]));
      assert Executions(id, outcomes) == Executions(id, outcomes[..n]) + [Execute(id, outcomes[n])];
      RunAppend(s, Executions(id, outcomes[..n]), Execute(id, outcomes[n]));
      OneMoreExecuted(a, before.loops[id], n);
      ExecuteTakesFirst(before, id, outcomes[n]);
    }
  }
}
