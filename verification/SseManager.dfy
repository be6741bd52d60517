/**
 Subscriptions to server-sent events, and broadcasts: copy the subscribers under the
 lock, send outside it, then remove those that failed under the lock again.

 A step is one critical section or one send, so broadcasts may overlap with each
 other and with everything else. A step that is not enabled leaves the state alone.
 */
module SseManager {
  type Name = string

  /** A subscriber: its id, and which connection its sink writes to. */
  datatype Client = Client(id: Name, sink: nat)

  type Channels = map<Name, seq<Client>>

  function ClientsOf(channels: Channels, channel: Name): seq<Client> {
    if channel in channels then channels[channel] else []
  }

  function Subscribed(channels: Channels, channel: Name, c: Client): Channels {
    channels[channel := ClientsOf(channels, channel) + [c]]
  }

  function Without(clients: seq<Client>, ids: set<Name>): (kept: seq<Client>)
    ensures forall c :: c in kept <==> c in clients && c.id !in ids
    ensures |kept| <= |clients|
  {
    if clients == [] then []
    else
      var n := |clients| - 1;
      Without(clients[..n], ids) + if clients[n].id in ids then [] else [clients[n]]
  }

  /** Removes every client with one of the ids; a channel left empty goes too. */
  function Removed(channels: Channels, channel: Name, ids: set<Name>): Channels {
    if channel !in channels then channels
    else
      var kept := Without(channels[channel], ids);
      if kept == [] then channels - {channel} else channels[channel := kept]
  }

  // ------------------------------------------------------------------
  // Runs
  // ------------------------------------------------------------------

  /** A broadcast: the copied subscribers, how many have been tried, and which failed. */
  datatype Cast = Cast(channel: Name, clients: seq<Client>, tried: nat, failed: set<Name>, finished: bool)

  /** The broadcasts in the order in which they started, and the successful sends by broadcast and client. */
  datatype Hub = Hub(channels: Channels, casts: seq<Cast>, log: seq<(nat, Name)>)

  const NewHub := Hub(map[], [], [])

  datatype Event =
    | Subscribe(channel: Name, client: Client)
    | Unsubscribe(channel: Name, id: Name)
    | Start(channel: Name)
    | Send(cast: nat, ok: bool)
    | Finish(cast: nat)

  predicate CanSend(s: Hub, b: nat) {
    b < |s.casts| && s.casts[b].tried < |s.casts[b].clients|
  }

  predicate CanFinish(s: Hub, b: nat) {
    b < |s.casts| && s.casts[b].tried >= |s.casts[b].clients| && !s.casts[b].finished
  }

  function Target(s: Hub, b: nat): Client
    requires CanSend(s, b)
  {
    s.casts[b].clients[s.casts[b].tried]
  }

  function Step(s: Hub, e: Event): Hub {
    match e
    case Subscribe(channel, client) => s.(channels := Subscribed(s.channels, channel, client))
    case Unsubscribe(channel, id) => s.(channels := Removed(s.channels, channel, {id}))
    case Start(channel) => s.(casts := s.casts + [Cast(channel, ClientsOf(s.channels, channel), 0, {}, false)])
    case Send(b, ok) =>
      if !CanSend(s, b) then s
      else
        var cast := s.casts[b].(tried := s.casts[b].tried + 1);
        if ok then s.(casts := s.casts[b := cast], log := s.log + [(b, Target(s, b).id)])
        else s.(casts := s.casts[b := cast.(failed := cast.failed + {Target(s, b).id})])
    case Finish(b) =>
      if !CanFinish(s, b) then s
      else
        s.(channels := if s.casts[b].failed == {} then s.channels
                       else Removed(s.channels, s.casts[b].channel, s.casts[b].failed),
           casts := s.casts[b := s.casts[b].(finished := true)])
  }

  function Run(es: seq<Event>): Hub
    decreases |es|
  {
    if es == [] then NewHub else Step(Run(es[..|es| - 1]), es[|es| - 1])
  }

  lemma RunAppend(es: seq<Event>, e: Event)
    ensures Run(es + [e]) == Step(Run(es), e)
  {
    assert (es + [e])[..|es|] == es;
  }

  // ------------------------------------------------------------------
  // Who stays subscribed
  // ------------------------------------------------------------------

  lemma {:induction false} NoChannelIsEmpty(es: seq<Event>)
    ensures forall channel :: channel in Run(es).channels ==> Run(es).channels[channel] != []
    decreases |es|
  {
    if es != [] {
      NoChannelIsEmpty(es[..|es| - 1]);
    }
  }

  /** Step e drops the client from the channel. */
  ghost predicate Drops(s: Hub, e: Event, channel: Name, c: Client) {
    c in ClientsOf(s.channels, channel) && c !in ClientsOf(Step(s, e).channels, channel)
  }

  /** Some earlier send of the broadcast to a client of that id was refused. */
  ghost predicate Refused(es: seq<Event>, b: nat, id: Name) {
    exists k :: 0 <= k < |es| && es[k] == Send(b, false) && CanSend(Run(es[..k]), b) && Target(Run(es[..k]), b).id == id
  }

  lemma {:induction false} FailedWasRefused(es: seq<Event>, b: nat, id: Name)
    requires b < |Run(es).casts| && id in Run(es).casts[b].failed
    ensures Refused(es, b, id)
    decreases |es|
  {
    var n := |es| - 1;
    var before := Run(es[..n]);
    if b < |before.casts| && id in before.casts[b].failed {
      FailedWasRefused(es[..n], b, id);
      var k :| 0 <= k < n && es[..n][k] == Send(b, false) && CanSend(Run(es[..n][..k]), b)
               && Target(Run(es[..n][..k]), b).id == id;
      assert es[..n][..k] == es[..k];
    } else {
      assert es[n] == Send(b, false) && Target(before, b).id == id;
    }
  }

  /** A client leaves a channel only by its own unsubscription, or when a broadcast to the channel was refused by its id. */
  lemma DroppedForCause(es: seq<Event>, e: Event, channel: Name, c: Client)
    requires Drops(Run(es), e, channel, c)
    ensures e == Unsubscribe(channel, c.id)
         || (e.Finish? && e.cast < |Run(es).casts| && Run(es).casts[e.cast].channel == channel && Refused(es, e.cast, c.id))
  {
    if e.Finish? {
      FailedWasRefused(es, e.cast, c.id);
    }
  }

  // ------------------------------------------------------------------
  // What a broadcast reaches
  // ------------------------------------------------------------------

  ghost predicate DistinctIds(clients: seq<Client>) {
    forall i, j :: 0 <= i < j < |clients| ==> clients[i].id != clients[j].id
  }

  /** The clients tried so far have received the broadcast once or failed; the others have neither received nor failed. */
  ghost predicate Reached(b: nat, cast: Cast, log: seq<(nat, Name)>) {
    && cast.tried <= |cast.clients|
    && (forall i :: 0 <= i < |cast.clients| ==>
          var id := cast.clients[i].id;
          if i < cast.tried then
            multiset(log)[(b, id)] == (if id in cast.failed then 0 else 1)
          else multiset(log)[(b, id)] == 0 && id !in cast.failed)
  }

  ghost predicate AllReached(s: Hub) {
    && (forall b :: 0 <= b < |s.casts| && DistinctIds(s.casts[b].clients) ==> Reached(b, s.casts[b], s.log))
    && (forall p :: p in s.log ==> p.0 < |s.casts|)
  }

  lemma SendKeepsReached(s: Hub, b: nat, ok: bool)
    requires AllReached(s) && CanSend(s, b)
    ensures AllReached(Step(s, Send(b, ok)))
  {
    var s' := Step(s, Send(b, ok));
    forall d | 0 <= d < |s'.casts| && DistinctIds(s'.casts[d].clients) ensures Reached(d, s'.casts[d], s'.log) {
      assert Reached(d, s.casts[d], s.log);
    }
  }

  lemma StartKeepsReached(s: Hub, channel: Name)
    requires AllReached(s)
    ensures AllReached(Step(s, Start(channel)))
  {
    var s', n := Step(s, Start(channel)), |s.casts|;
    forall d | 0 <= d <= n && DistinctIds(s'.casts[d].clients) ensures Reached(d, s'.casts[d], s'.log) {
      if d == n {
        forall id ensures multiset(s.log)[(n, id)] == 0 {
          assert (n, id) !in s.log;
        }
      }
    }
  }

  lemma {:induction false} BroadcastsReach(es: seq<Event>)
    ensures AllReached(Run(es))
    decreases |es|
  {
    if es != [] {
      var before := Run(es[..|es| - 1]);
      BroadcastsReach(es[..|es| - 1]);
      match es[|es| - 1] {
        case Send(b, ok) => if CanSend(before, b) { SendKeepsReached(before, b, ok); }
        case Start(channel) => StartKeepsReached(before, channel);
        case _ =>
      }
    }
  }

  /**
   A finished broadcast has reached every subscriber of the moment it started exactly
   once, but for those whose sinks refused it; ids are distinct because they are counted.
   */
  lemma FinishedBroadcastReachedAll(es: seq<Event>, b: nat, i: nat)
    requires b < |Run(es).casts| && Run(es).casts[b].finished && DistinctIds(Run(es).casts[b].clients)
    requires i < |Run(es).casts[b].clients|
    ensures var id := Run(es).casts[b].clients[i].id;
            && multiset(Run(es).log)[(b, id)] <= 1
            && (multiset(Run(es).log)[(b, id)] == 0 <==> id in Run(es).casts[b].failed)
            && (id in Run(es).casts[b].failed ==> Refused(es, b, id))
  {
    BroadcastsReach(es);
    FinishedIsTried(es, b);
    var id := Run(es).casts[b].clients[i].id;
    if id in Run(es).casts[b].failed {
      FailedWasRefused(es, b, id);
    }
  }

  lemma {:induction false} FinishedIsTried(es: seq<Event>, b: nat)
    requires b < |Run(es).casts| && Run(es).casts[b].finished
    ensures Run(es).casts[b].tried >= |Run(es).casts[b].clients|
    decreases |es|
  {
    var before := Run(es[..|es| - 1]);
    if b < |before.casts| && before.casts[b].finished {
      FinishedIsTried(es[..|es| - 1], b);
    }
  }

  // ------------------------------------------------------------------
  // A broadcast with nobody else about
  // ------------------------------------------------------------------

  /** The positions of the clients that accept. */
  function Accepting(clients: seq<Client>, accepts: Client -> bool): set<nat> {
    set i: nat | i < |clients| && accepts(clients[i])
  }

  /** The ids of the others. */
  function Failing(clients: seq<Client>, accepts: Client -> bool): set<Name> {
    set c | c in clients && !accepts(c) :: c.id
  }

  lemma OneMoreAccepting(clients: seq<Client>, accepts: Client -> bool, k: nat)
    requires k < |clients|
    ensures |Accepting(clients[..k + 1], accepts)| == |Accepting(clients[..k], accepts)| + if accepts(clients[k]) then 1 else 0
  {
    assert Accepting(clients[..k + 1], accepts) ==
      if accepts(clients[k]) then Accepting(clients[..k], accepts) + {k} else Accepting(clients[..k], accepts);
  }

  lemma OneMoreFailing(clients: seq<Client>, accepts: Client -> bool, k: nat)
    requires k < |clients|
    ensures Failing(clients[..k + 1], accepts) ==
              if accepts(clients[k]) then Failing(clients[..k], accepts) else Failing(clients[..k], accepts) + {clients[k].id}
  {
    assert clients[..k + 1] == clients[..k] + [clients[k]];
  }

  // ------------------------------------------------------------------
  // The class
  // ------------------------------------------------------------------

  class SseManager {
    var channels: Channels

    constructor ()
      ensures channels == map[]
    {
      channels := map[];
    }

    method Subscribe(channel: Name, c: Client)
      modifies this
      ensures channels == Subscribed(old(channels), channel, c)
    {
      if channel !in channels {
        channels := channels[channel := []];
      }
      channels := channels[channel := channels[channel] + [c]];
    }

    method Unsubscribe(channel: Name, id: Name)
      modifies this
      ensures channels == Removed(old(channels), channel, {id})
    {
      Remove(channel, {id});
    }

    /** The erase-remove idiom, and erasing the channel if nobody is left. */
    method Remove(channel: Name, ids: set<Name>)
      modifies this
      ensures channels == Removed(old(channels), channel, ids)
    {
      if channel !in channels {
        return;
      }
      var clients, kept := channels[channel], [];
      var i := 0;
      while i < |clients|
        invariant 0 <= i <= |clients| && kept == Without(clients[..i], ids)
      {
        assert clients[..i + 1][..i] == clients[..i];
        if clients[i].id !in ids {
          kept := kept + [clients[i]];
        }
        i := i + 1;
      }
      assert clients[..i] == clients;
      if kept == [] {
        channels := channels - {channel};
      } else {
        channels := channels[channel := kept];
      }
    }

    method Snapshot(channel: Name) returns (clients: seq<Client>)
      ensures clients == ClientsOf(channels, channel)
    {
      clients := if channel in channels then channels[channel] else [];
    }

    /**
     A broadcast with nobody else about; accepts says which clients' sinks take the
     message. It returns how many did, and drops exactly the ids of the others.
     */
    method Broadcast(channel: Name, accepts: Client -> bool) returns (sent: nat)
      modifies this
      ensures sent == |Accepting(ClientsOf(old(channels), channel), accepts)|
      ensures var failed := Failing(ClientsOf(old(channels), channel), accepts);
              channels == if failed == {} then old(channels) else Removed(old(channels), channel, failed)
    {
      var snapshot := Snapshot(channel);
      sent := 0;
      var failedIds: set<Name> := {};
      var i := 0;
      while i < |snapshot|
        invariant 0 <= i <= |snapshot| && channels == old(channels)
        invariant sent == |Accepting(snapshot[..i], accepts)| && failedIds == Failing(snapshot[..i], accepts)
      {
        OneMoreAccepting(snapshot, accepts, i);
        OneMoreFailing(snapshot, accepts, i);
        if accepts(snapshot[i]) {
          sent := sent + 1;
        } else {
          failedIds := failedIds + {snapshot[i].id};
        }
        i := i + 1;
      }
      assert snapshot[..i] == snapshot && failedIds == Failing(snapshot, accepts);
      if failedIds != {} {
        Remove(channel, failedIds);
      }
    }

    method SubscriberCount(channel: Name) returns (n: nat)
      ensures n == |ClientsOf(channels, channel)|
    {
      n := if channel in channels then |channels[channel]| else 0;
    }
  }
}
