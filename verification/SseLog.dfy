/** Who is subscribed and what was sent after a run, told from the calls and the sinks' answers. */
module SseLog {
  import opened SseManager

  // ------------------------------------------------------------------
  // The log
  // ------------------------------------------------------------------

  /** The clients whose id is none of these, in their order. */
  function Others(clients: seq<Client>, ids: set<Name>): seq<Client> {
    if clients == [] then []
    else (if clients[0].id in ids then [] else [clients[0]]) + Others(clients[1..], ids)
  }

  /** The subscribers of a channel, in the order of their subscriptions. */
  function Subscribers(es: seq<Event>, channel: Name): seq<Client>
    decreases |es|, 1
  {
    if es == [] then []
    else
      var before, e := es[..|es| - 1], es[|es| - 1];
      match e
      case Subscribe(c, client) => if c == channel then Subscribers(before, channel) + [client] else Subscribers(before, channel)
      case Unsubscribe(c, id) => if c == channel then Others(Subscribers(before, channel), {id}) else Subscribers(before, channel)
      case Finish(b) =>
        if b < Starts(before) && Snapshot(before, b).0 == channel && MayFinish(before, b) then
          Others(Subscribers(before, channel), Refusals(before, b))
        else Subscribers(before, channel)
      case _ => Subscribers(before, channel)
  }

  /** How many broadcasts have started. */
  function Starts(es: seq<Event>): nat
    decreases |es|, 0
  {
    if es == [] then 0 else Starts(es[..|es| - 1]) + if es[|es| - 1].Start? then 1 else 0
  }

  /** The channel of a broadcast, and its subscribers when it started. */
  function Snapshot(es: seq<Event>, b: nat): (Name, seq<Client>)
    requires b < Starts(es)
    decreases |es|, 2
  {
    var before, e := es[..|es| - 1], es[|es| - 1];
    if b < Starts(before) then Snapshot(before, b) else (e.channel, Subscribers(before, e.channel))
  }

  /** The sends of a broadcast so far, up to one for each client of its snapshot. */
  function Tries(es: seq<Event>, b: nat): nat
    decreases |es|, 3
  {
    if es == [] then 0
    else
      var before, e := es[..|es| - 1], es[|es| - 1];
      Tries(before, b) + if e.Send? && e.cast == b && MaySend(before, b) then 1 else 0
  }

  predicate MaySend(es: seq<Event>, b: nat)
    decreases |es|, 4
  {
    b < Starts(es) && Tries(es, b) < |Snapshot(es, b).1|
  }

  /** Every client of the snapshot has been tried, and the broadcast is not over. */
  predicate MayFinish(es: seq<Event>, b: nat)
    decreases |es|, 4
  {
    b < Starts(es) && Tries(es, b) >= |Snapshot(es, b).1| && !IsFinished(es, b)
  }

  predicate IsFinished(es: seq<Event>, b: nat)
    decreases |es|, 3
  {
    es != [] && (IsFinished(es[..|es| - 1], b) || (es[|es| - 1] == Finish(b) && MayFinish(es[..|es| - 1], b)))
  }

  /** The ids that have refused the broadcast. */
  function Refusals(es: seq<Event>, b: nat): set<Name>
    decreases |es|, 4
  {
    if es == [] then {}
    else
      var before, e := es[..|es| - 1], es[|es| - 1];
      Refusals(before, b) + if e == Send(b, false) && MaySend(before, b) then {Snapshot(before, b).1[Tries(before, b)].id} else {}
  }

  /** The sends that sinks took: which broadcast, and to whom. */
  function Deliveries(es: seq<Event>): seq<(nat, Name)>
    decreases |es|, 4
  {
    if es == [] then []
    else
      var before, e := es[..|es| - 1], es[|es| - 1];
      if e.Send? && e.ok && MaySend(before, e.cast) then
        Deliveries(before) + [(e.cast, Snapshot(before, e.cast).1[Tries(before, e.cast)].id)]
      else Deliveries(before)
  }

  // ------------------------------------------------------------------
  // One step
  // ------------------------------------------------------------------

  lemma OthersCons(c: Client, clients: seq<Client>, ids: set<Name>)
    ensures Others([c] + clients, ids) == (if c.id in ids then [] else [c]) + Others(clients, ids)
  {
    assert ([c] + clients)[1..] == clients;
  }

  lemma {:induction false} OthersAppend(clients: seq<Client>, c: Client, ids: set<Name>)
    ensures Others(clients + [c], ids) == Others(clients, ids) + if c.id in ids then [] else [c]
  {
    if clients == [] {
      assert clients + [c] == [c] + [];
      OthersCons(c, [], ids);
    } else {
      var tail := clients[1..];
      OthersAppend(tail, c, ids);
      assert clients + [c] == [clients[0]] + (tail + [c]);
      OthersCons(clients[0], tail + [c], ids);
    }
  }

  lemma {:induction false} WithoutIsOthers(clients: seq<Client>, ids: set<Name>)
    ensures Without(clients, ids) == Others(clients, ids)
    decreases |clients|
  {
    if clients != [] {
      var n := |clients| - 1;
      WithoutIsOthers(clients[..n], ids);
      OthersAppend(clients[..n], clients[n], ids);
      assert clients[..n] + [clients[n]] == clients;
    }
  }

  lemma {:induction false} NobodyLeaves(clients: seq<Client>)
    ensures Others(clients, {}) == clients
  {
    if clients != [] { NobodyLeaves(clients[1..]); }
  }

  lemma ClientsOfRemoved(channels: Channels, c: Name, ids: set<Name>, channel: Name)
    ensures ClientsOf(Removed(channels, c, ids), channel) ==
              if c == channel then Others(ClientsOf(channels, channel), ids) else ClientsOf(channels, channel)
  {
    WithoutIsOthers(ClientsOf(channels, channel), ids);
  }

  lemma ClientsAfter(s: Hub, e: Event, channel: Name)
    ensures var clients := ClientsOf(s.channels, channel);
            ClientsOf(Step(s, e).channels, channel) ==
              match e
              case Subscribe(c, client) => if c == channel then clients + [client] else clients
              case Unsubscribe(c, id) => if c == channel then Others(clients, {id}) else clients
              case Finish(b) =>
                if CanFinish(s, b) && s.casts[b].channel == channel then Others(clients, s.casts[b].failed) else clients
              case _ => clients
  {
    match e {
      case Unsubscribe(c, id) => ClientsOfRemoved(s.channels, c, {id}, channel);
      case Finish(b) =>
        if CanFinish(s, b) {
          NobodyLeaves(ClientsOf(s.channels, channel));
          ClientsOfRemoved(s.channels, s.casts[b].channel, s.casts[b].failed, channel);
        }
      case _ =>
    }
  }

  lemma CastsAfter(s: Hub, e: Event)
    ensures |Step(s, e).casts| == |s.casts| + if e.Start? then 1 else 0
    ensures e.Start? ==> Step(s, e).casts[|s.casts|] == Cast(e.channel, ClientsOf(s.channels, e.channel), 0, {}, false)
  {}

  lemma CastAfter(s: Hub, e: Event, b: nat)
    requires b < |s.casts|
    ensures b < |Step(s, e).casts|
    ensures var cast, sends := s.casts[b], e.Send? && e.cast == b && CanSend(s, b);
            Step(s, e).casts[b] ==
              cast.(tried := cast.tried + (if sends then 1 else 0),
                    failed := cast.failed + (if sends && !e.ok then {cast.clients[cast.tried].id} else {}),
                    finished := cast.finished || (e == Finish(b) && CanFinish(s, b)))
  {}

  lemma DeliveriesAfter(s: Hub, e: Event)
    ensures Step(s, e).log ==
              if e.Send? && e.ok && CanSend(s, e.cast) then
                s.log + [(e.cast, s.casts[e.cast].clients[s.casts[e.cast].tried].id)]
              else s.log
  {}

  // ------------------------------------------------------------------
  // Whole runs
  // ------------------------------------------------------------------

  /** A broadcast that has not started has done nothing. */
  lemma {:induction false} NotStarted(es: seq<Event>, b: nat)
    requires b >= Starts(es)
    ensures Tries(es, b) == 0 && Refusals(es, b) == {} && !IsFinished(es, b)
    decreases |es|
  {
    if es != [] { NotStarted(es[..|es| - 1], b); }
  }

  /** The broadcast is as the log has it. */
  ghost predicate CastLogged(es: seq<Event>, casts: seq<Cast>, b: nat) {
    b < Starts(es) == |casts|
    && casts[b] == Cast(Snapshot(es, b).0, Snapshot(es, b).1, Tries(es, b), Refusals(es, b), IsFinished(es, b))
  }

  lemma {:induction false} StartsAreCounted(es: seq<Event>)
    ensures |Run(es).casts| == Starts(es)
    decreases |es|
  {
    if es != [] {
      StartsAreCounted(es[..|es| - 1]);
      CastsAfter(Run(es[..|es| - 1]), es[|es| - 1]);
    }
  }

  lemma MayIsCan(es: seq<Event>, b: nat)
    requires b < Starts(es) ==> CastLogged(es, Run(es).casts, b)
    ensures CanSend(Run(es), b) <==> MaySend(es, b)
    ensures CanFinish(Run(es), b) <==> MayFinish(es, b)
  {
    StartsAreCounted(es);
  }

  /** In every run a broadcast has the subscribers of its start, and has tried and been refused as the sinks answered. */
  lemma {:induction false} BroadcastsAreAsLogged(es: seq<Event>, b: nat)
    requires b < Starts(es)
    ensures CastLogged(es, Run(es).casts, b)
    decreases |es|, 1
  {
    var before, e := es[..|es| - 1], es[|es| - 1];
    StartsAreCounted(before);
    StartsAreCounted(es);
    if b < Starts(before) {
      BroadcastsAreAsLogged(before, b);
      MayIsCan(before, b);
      CastAfter(Run(before), e, b);
    } else {
      NotStarted(before, b);
      CastsAfter(Run(before), e);
      SubscribersAreAsLogged(before, e.channel);
    }
  }

  /** In every run the subscribers of a channel are those, in the order of their subscriptions. */
  lemma {:induction false} SubscribersAreAsLogged(es: seq<Event>, channel: Name)
    ensures ClientsOf(Run(es).channels, channel) == Subscribers(es, channel)
    decreases |es|, 2
  {
    if es != [] {
      var before, e := es[..|es| - 1], es[|es| - 1];
      SubscribersAreAsLogged(before, channel);
      ClientsAfter(Run(before), e, channel);
      if e.Finish? {
        StartsAreCounted(before);
        if e.cast < Starts(before) { BroadcastsAreAsLogged(before, e.cast); }
        MayIsCan(before, e.cast);
      }
    }
  }

  /** In every run what was sent is what the sinks took, in that order. */
  lemma {:induction false} SendsAreAsLogged(es: seq<Event>)
    ensures Run(es).log == Deliveries(es)
    decreases |es|
  {
    if es != [] {
      var before, e := es[..|es| - 1], es[|es| - 1];
      SendsAreAsLogged(before);
      DeliveriesAfter(Run(before), e);
      if e.Send? {
        StartsAreCounted(before);
        if e.cast < Starts(before) { BroadcastsAreAsLogged(before, e.cast); }
        MayIsCan(before, e.cast);
      }
    }
  }

  // ------------------------------------------------------------------
  // A broadcast with nobody else about
  // ------------------------------------------------------------------

  function Sends(b: nat, clients: seq<Client>, accepts: Client -> bool): (es: seq<Event>)
    ensures |es| == |clients| && forall i :: 0 <= i < |es| ==> es[i] == Send(b, accepts(clients[i]))
  {
    seq(|clients|, i requires 0 <= i < |clients| => Send(b, accepts(clients[i])))
  }

  /** What k of the sends have done since the hub was as in s. */
  ghost predicate SentSoFar(s: Hub, s': Hub, channel: Name, clients: seq<Client>, accepts: Client -> bool, k: nat)
    requires k <= |clients|
  {
    && s'.channels == s.channels && |s'.casts| == |s.casts| + 1
    && s'.casts[|s.casts|] == Cast(channel, clients, k, Failing(clients[..k], accepts), false)
    && |s'.log| == |s.log| + |Accepting(clients[..k], accepts)|
  }

  lemma OneMoreSent(s: Hub, s': Hub, channel: Name, clients: seq<Client>, accepts: Client -> bool, k: nat)
    requires k < |clients| && SentSoFar(s, s', channel, clients, accepts, k)
    ensures SentSoFar(s, Step(s', Send(|s.casts|, accepts(clients[k]))), channel, clients, accepts, k + 1)
  {
    OneMoreAccepting(clients, accepts, k);
    OneMoreFailing(clients, accepts, k);
  }

  lemma StartedBroadcast(s: Hub, channel: Name, accepts: Client -> bool)
    ensures SentSoFar(s, Step(s, Start(channel)), channel, ClientsOf(s.channels, channel), accepts, 0)
  {
    var clients := ClientsOf(s.channels, channel);
    assert Accepting(clients[..0], accepts) == {} && Failing(clients[..0], accepts) == {};
  }

  lemma {:induction false} SendsRun(es: seq<Event>, s: Hub, channel: Name, clients: seq<Client>, accepts: Client -> bool, k: nat)
    requires k <= |clients| && SentSoFar(s, Run(es), channel, clients, accepts, 0)
    ensures SentSoFar(s, Run(es + Sends(|s.casts|, clients, accepts)[..k]), channel, clients, accepts, k)
    decreases k
  {
    var sends := Sends(|s.casts|, clients, accepts);
    if k == 0 {
      assert es + sends[..0] == es;
    } else {
      SendsRun(es, s, channel, clients, accepts, k - 1);
      assert es + sends[..k] == es + sends[..k - 1] + [sends[k - 1]];
      RunAppend(es + sends[..k - 1], sends[k - 1]);
      OneMoreSent(s, Run(es + sends[..k - 1]), channel, clients, accepts, k - 1);
    }
  }

  lemma FinishedBroadcast(s: Hub, s': Hub, channel: Name, clients: seq<Client>, accepts: Client -> bool)
    requires SentSoFar(s, s', channel, clients, accepts, |clients|)
    ensures var failed, finished := Failing(clients, accepts), Step(s', Finish(|s.casts|));
            && finished.channels == (if failed == {} then s.channels else Removed(s.channels, channel, failed))
            && |finished.log| == |s.log| + |Accepting(clients, accepts)|
  {
    assert clients[..|clients|] == clients;
  }

  /**
   Start, one send for each client and finish, with nothing in between, do what the method
   Broadcast does: the accepting clients are served, and the ids of the others removed.
   */
  lemma UndisturbedBroadcast(es: seq<Event>, channel: Name, accepts: Client -> bool)
    ensures var s, clients := Run(es), ClientsOf(Run(es).channels, channel);
            var b, failed := |s.casts|, Failing(clients, accepts);
            var s' := Run(es + [Start(channel)] + Sends(b, clients, accepts) + [Finish(b)]);
            && |s'.log| == |s.log| + |Accepting(clients, accepts)|
            && s'.channels == if failed == {} then s.channels else Removed(s.channels, channel, failed)
  {
    var s, clients := Run(es), ClientsOf(Run(es).channels, channel);
    var sends := Sends(|s.casts|, clients, accepts);
    RunAppend(es, Start(channel));
    StartedBroadcast(s, channel, accepts);
    SendsRun(es + [Start(channel)], s, channel, clients, accepts, |clients|);
    assert sends[..|clients|] == sends;
    FinishedBroadcast(s, Run(es + [Start(channel)] + sends), channel, clients, accepts);
    RunAppend(es + [Start(channel)] + sends, Finish(|s.casts|));
  }
}
