/** In which order a client receives broadcasts that are sent outside the lock. */
module BroadcastOrder {
  import opened SseManager

  /** The broadcasts that a client has received, in the order of receipt. */
  function Received(log: seq<(nat, Name)>, id: Name): seq<nat> {
    if log == [] then []
    else
      var n := |log| - 1;
      Received(log[..n], id) + if log[n].1 == id then [log[n].0] else []
  }

  /** Broadcasts are numbered in the order in which they start. */
  ghost predicate InOrder(received: seq<nat>) {
    forall i, j :: 0 <= i <= j < |received| ==> received[i] <= received[j]
  }

  /** The broadcast has yet to try a client of that id. */
  ghost predicate ToTry(s: Hub, b: nat, id: Name) {
    b < |s.casts| && exists i :: s.casts[b].tried <= i < |s.casts[b].clients| && s.casts[b].clients[i].id == id
  }

  /** A broadcast has yet to try the client, and a later one has reached it or has yet to try it too. */
  ghost predicate Endangered(s: Hub, id: Name) {
    exists b, c :: b < c && ToTry(s, b, id) && (ToTry(s, c, id) || c in Received(s.log, id))
  }

  lemma ReceivedAppend(log: seq<(nat, Name)>, b: nat, to: Name, id: Name)
    ensures Received(log + [(b, to)], id) == Received(log, id) + if to == id then [b] else []
  {
    assert (log + [(b, to)])[..|log|] == log;
  }

  // ------------------------------------------------------------------
  // Sends that cannot break the order
  // ------------------------------------------------------------------

  ghost predicate AllSends(es: seq<Event>) {
    forall i :: 0 <= i < |es| ==> es[i].Send?
  }

  lemma SendShrinks(s: Hub, d: nat, ok: bool, b: nat, id: Name)
    requires ToTry(Step(s, Send(d, ok)), b, id)
    ensures ToTry(s, b, id)
  {}

  lemma SendReceived(s: Hub, d: nat, ok: bool, id: Name)
    ensures var received := Received(Step(s, Send(d, ok)).log, id);
            received == Received(s.log, id) || (received == Received(s.log, id) + [d] && ToTry(s, d, id))
  {
    if CanSend(s, d) && ok {
      ReceivedAppend(s.log, d, Target(s, d).id, id);
    }
  }

  lemma OneMoreInOrder(received: seq<nat>, d: nat)
    requires InOrder(received) && forall c :: c in received ==> c <= d
    ensures InOrder(received + [d])
  {
    forall i | 0 <= i < |received| ensures received[i] <= d {
      assert received[i] in received;
    }
  }

  lemma SendKeepsReceivedInOrder(s: Hub, d: nat, ok: bool, id: Name)
    requires InOrder(Received(s.log, id)) && !Endangered(s, id)
    ensures InOrder(Received(Step(s, Send(d, ok)).log, id))
  {
    SendReceived(s, d, ok, id);
    if ToTry(s, d, id) {
      OneMoreInOrder(Received(s.log, id), d);
    }
  }

  lemma SendEndangersNobody(s: Hub, d: nat, ok: bool, b: nat, c: nat, id: Name)
    requires var s' := Step(s, Send(d, ok));
             b < c && ToTry(s', b, id) && (ToTry(s', c, id) || c in Received(s'.log, id))
    ensures Endangered(s, id)
  {
    var s' := Step(s, Send(d, ok));
    SendShrinks(s, d, ok, b, id);
    if ToTry(s', c, id) {
      SendShrinks(s, d, ok, c, id);
    } else {
      SendReceived(s, d, ok, id);
    }
  }

  lemma SendKeepsOrder(s: Hub, d: nat, ok: bool, id: Name)
    requires InOrder(Received(s.log, id)) && !Endangered(s, id)
    ensures var s' := Step(s, Send(d, ok)); InOrder(Received(s'.log, id)) && !Endangered(s', id)
  {
    SendKeepsReceivedInOrder(s, d, ok, id);
    var s' := Step(s, Send(d, ok));
    forall b: nat, c: nat | b < c && ToTry(s', b, id)
      ensures !ToTry(s', c, id) && c !in Received(s'.log, id)
    {
      if ToTry(s', c, id) || c in Received(s'.log, id) {
        SendEndangersNobody(s, d, ok, b, c, id);
      }
    }
  }

  lemma {:induction false} SendsKeepOrder(es: seq<Event>, sends: seq<Event>, id: Name)
    requires InOrder(Received(Run(es).log, id)) && !Endangered(Run(es), id) && AllSends(sends)
    ensures InOrder(Received(Run(es + sends).log, id))
    ensures !Endangered(Run(es + sends), id)
    decreases |sends|
  {
    if sends == [] {
      assert es + sends == es;
    } else {
      var n := |sends| - 1;
      SendsKeepOrder(es, sends[..n], id);
      assert es + sends == es + sends[..n] + [sends[n]];
      RunAppend(es + sends[..n], sends[n]);
      SendKeepsOrder(Run(es + sends[..n]), sends[n].cast, sends[n].ok, id);
    }
  }

  // ------------------------------------------------------------------
  // Sends that break it
  // ------------------------------------------------------------------

  function Sends(b: nat, n: nat): (es: seq<Event>)
    ensures |es| == n && AllSends(es)
  {
    seq(n, _ => Send(b, true))
  }

  lemma SendsGoOn(es: seq<Event>, b: nat, n: nat)
    ensures Run(es + Sends(b, n + 1)) == Step(Run(es + Sends(b, n)), Send(b, true))
  {
    assert es + Sends(b, n + 1) == es + Sends(b, n) + [Send(b, true)];
    RunAppend(es + Sends(b, n), Send(b, true));
  }

  function Advanced(casts: seq<Cast>, b: nat, n: nat): seq<Cast>
    requires b < |casts|
  {
    casts[b := casts[b].(tried := casts[b].tried + n)]
  }

  lemma AdvancedFurther(casts: seq<Cast>, b: nat, n: nat)
    requires b < |casts|
    ensures Advanced(Advanced(casts, b, n), b, 1) == Advanced(casts, b, n + 1)
    ensures Advanced(casts, b, 0) == casts
  {}

  lemma SendAdvances(s: Hub, b: nat)
    requires CanSend(s, b)
    ensures Step(s, Send(b, true)).casts == Advanced(s.casts, b, 1)
  {}

  lemma {:induction false} SendsAdvance(es: seq<Event>, b: nat, n: nat)
    requires b < |Run(es).casts| && Run(es).casts[b].tried + n <= |Run(es).casts[b].clients|
    ensures Run(es + Sends(b, n)).casts == Advanced(Run(es).casts, b, n)
    decreases n
  {
    if n == 0 {
      assert es + Sends(b, n) == es;
      AdvancedFurther(Run(es).casts, b, 0);
    } else {
      SendsAdvance(es, b, n - 1);
      SendAdvances(Run(es + Sends(b, n - 1)), b);
      SendsGoOn(es, b, n - 1);
      AdvancedFurther(Run(es).casts, b, n - 1);
    }
  }

  lemma {:induction false} SendsOnlyAdd(es: seq<Event>, b: nat, n: nat, id: Name)
    ensures Received(Run(es).log, id) <= Received(Run(es + Sends(b, n)).log, id)
    decreases n
  {
    if n == 0 {
      assert es + Sends(b, n) == es;
    } else {
      SendsOnlyAdd(es, b, n - 1, id);
      SendsGoOn(es, b, n - 1);
      SendReceived(Run(es + Sends(b, n - 1)), b, true, id);
    }
  }

  /** What a client has received goes on and ends with the broadcast. */
  ghost predicate EndsWith(received: seq<nat>, received': seq<nat>, b: nat) {
    received < received' && received'[|received'| - 1] == b
  }

  lemma SendToTarget(s: Hub, b: nat, id: Name)
    requires CanSend(s, b) && Target(s, b).id == id
    ensures Received(Step(s, Send(b, true)).log, id) == Received(s.log, id) + [b]
  {
    ReceivedAppend(s.log, b, id, id);
  }

  lemma SendsReach(es: seq<Event>, b: nat, n: nat, id: Name)
    requires b < |Run(es).casts| && Run(es).casts[b].tried + n < |Run(es).casts[b].clients|
    requires Run(es).casts[b].clients[Run(es).casts[b].tried + n].id == id
    ensures EndsWith(Received(Run(es).log, id), Received(Run(es + Sends(b, n + 1)).log, id), b)
  {
    SendsAdvance(es, b, n);
    SendsOnlyAdd(es, b, n, id);
    SendsGoOn(es, b, n);
    SendToTarget(Run(es + Sends(b, n)), b, id);
  }

  /** A broadcast that has yet to try the client can be the next to reach it. */
  lemma CanReachNext(es: seq<Event>, b: nat, id: Name) returns (sends: seq<Event>)
    requires ToTry(Run(es), b, id)
    ensures AllSends(sends)
    ensures EndsWith(Received(Run(es).log, id), Received(Run(es + sends).log, id), b)
    ensures forall d :: d != b && ToTry(Run(es), d, id) ==> ToTry(Run(es + sends), d, id)
  {
    var s := Run(es);
    var i :| s.casts[b].tried <= i < |s.casts[b].clients| && s.casts[b].clients[i].id == id;
    var n := i - s.casts[b].tried;
    SendsReach(es, b, n, id);
    SendsAdvance(es, b, n + 1);
    sends := Sends(b, n + 1);
    OthersToTry(s, Run(es + sends), b, id);
  }

  lemma OthersToTry(s: Hub, s': Hub, b: nat, id: Name)
    requires b < |s.casts| == |s'.casts| && forall d :: 0 <= d < |s.casts| && d != b ==> s'.casts[d] == s.casts[d]
    ensures forall d :: d != b && ToTry(s, d, id) ==> ToTry(s', d, id)
  {}

  lemma LateArrivalBreaksOrder(received: seq<nat>, received': seq<nat>, b: nat, c: nat)
    requires c in received && EndsWith(received, received', b) && b < c
    ensures !InOrder(received')
  {
    var k :| 0 <= k < |received| && received[k] == c;
    assert received'[k] == c;
  }

  lemma BothCanBreak(es: seq<Event>, b: nat, c: nat, id: Name) returns (sends: seq<Event>)
    requires b < c && ToTry(Run(es), b, id) && ToTry(Run(es), c, id)
    ensures AllSends(sends) && !InOrder(Received(Run(es + sends).log, id))
  {
    var first := CanReachNext(es, c, id);
    var second := CanReachNext(es + first, b, id);
    var received := Received(Run(es + first).log, id);
    assert received[|received| - 1] in received;
    LateArrivalBreaksOrder(received, Received(Run(es + first + second).log, id), b, c);
    sends := first + second;
    assert es + sends == es + first + second;
  }

  lemma EndangeredCanBreak(es: seq<Event>, id: Name) returns (sends: seq<Event>)
    requires Endangered(Run(es), id)
    ensures AllSends(sends) && !InOrder(Received(Run(es + sends).log, id))
  {
    var s := Run(es);
    var b, c :| b < c && ToTry(s, b, id) && (ToTry(s, c, id) || c in Received(s.log, id));
    if c in Received(s.log, id) {
      sends := CanReachNext(es, b, id);
      LateArrivalBreaksOrder(Received(s.log, id), Received(Run(es + sends).log, id), b, c);
    } else {
      sends := BothCanBreak(es, b, c, id);
    }
  }

  /**
   From any state in which a client has received broadcasts in the order of their
   start, some sends break that order exactly when a broadcast has yet to try the client
   while a later one has reached it already or has yet to try it too.
   */
  lemma OrderCanBreakIff(es: seq<Event>, id: Name)
    requires InOrder(Received(Run(es).log, id))
    ensures (exists sends :: AllSends(sends) && !InOrder(Received(Run(es + sends).log, id)))
        <==> Endangered(Run(es), id)
  {
    if Endangered(Run(es), id) {
      var sends := EndangeredCanBreak(es, id);
    } else {
      forall sends | AllSends(sends) ensures InOrder(Received(Run(es + sends).log, id)) {
        SendsKeepOrder(es, sends, id);
      }
    }
  }

  // ------------------------------------------------------------------
  // Runs that keep the order
  // ------------------------------------------------------------------

  ghost predicate Subscribes(clients: seq<Client>, id: Name) {
    exists i :: 0 <= i < |clients| && clients[i].id == id
  }

  lemma {:induction false} ReceivedIsNumbered(log: seq<(nat, Name)>, id: Name, n: nat)
    requires forall p :: p in log ==> p.0 < n
    ensures forall b :: b in Received(log, id) ==> b < n
  {
    if log != [] {
      ReceivedIsNumbered(log[..|log| - 1], id, n);
    }
  }

  lemma StartKeepsOrder(s: Hub, channel: Name, id: Name)
    requires AllReached(s) && !Endangered(s, id)
    requires Subscribes(ClientsOf(s.channels, channel), id) ==> forall b :: !ToTry(s, b, id)
    ensures !Endangered(Step(s, Start(channel)), id)
  {
    var s', n := Step(s, Start(channel)), |s.casts|;
    ReceivedIsNumbered(s.log, id, n);
    forall b: nat | b < n ensures ToTry(s', b, id) <==> ToTry(s, b, id) {}
    if ToTry(s', n, id) {
      assert Subscribes(ClientsOf(s.channels, channel), id);
    }
  }

  lemma FinishKeepsToTry(s: Hub, d: nat, b: nat, id: Name)
    ensures ToTry(Step(s, Finish(d)), b, id) <==> ToTry(s, b, id)
  {}

  lemma OtherStepKeepsOrder(s: Hub, e: Event, id: Name)
    requires !e.Send? && !e.Start? && !Endangered(s, id)
    ensures !Endangered(Step(s, e), id) && Step(s, e).log == s.log
  {
    if e.Finish? {
      forall b ensures ToTry(Step(s, e), b, id) <==> ToTry(s, b, id) {
        FinishKeepsToTry(s, e.cast, b, id);
      }
    } else {
      forall b ensures ToTry(Step(s, e), b, id) <==> ToTry(s, b, id) {}
    }
  }

  /**
   A client to which no broadcast starts while another has yet to try it receives
   broadcasts in the order of their start, whatever goes on in other channels.
   */
  lemma {:induction false} ReceivedInOrder(es: seq<Event>, id: Name)
    requires forall k :: 0 <= k < |es| && es[k].Start? && Subscribes(ClientsOf(Run(es[..k]).channels, es[k].channel), id) ==>
               forall b :: !ToTry(Run(es[..k]), b, id)
    ensures InOrder(Received(Run(es).log, id)) && !Endangered(Run(es), id)
    decreases |es|
  {
    if es != [] {
      var n := |es| - 1;
      var before, e := Run(es[..n]), es[n];
      assert forall k :: 0 <= k < n ==> es[..n][..k] == es[..k];
      ReceivedInOrder(es[..n], id);
      match e {
        case Send(d, ok) => SendKeepsOrder(before, d, ok, id);
        case Start(channel) =>
          BroadcastsReach(es[..n]);
          StartKeepsOrder(before, channel, id);
        case _ => OtherStepKeepsOrder(before, e, id);
      }
    }
  }

  // ------------------------------------------------------------------
  // Two clients, two orders
  // ------------------------------------------------------------------

  lemma SwappedLog(log: seq<(nat, Name)>, b: nat, c: nat, first: Name, second: Name)
    requires first != second
    ensures var log' := log + [(b, first)] + [(c, first)] + [(c, second)] + [(b, second)];
            && Received(log', first) == Received(log, first) + [b, c]
            && Received(log', second) == Received(log, second) + [c, b]
  {
    forall id | id == first || id == second
      ensures Received(log + [(b, first)] + [(c, first)] + [(c, second)] + [(b, second)], id)
           == Received(log, id) + if id == first then [b, c] else [c, b]
    {
      ReceivedAppend(log, b, first, id);
      ReceivedAppend(log + [(b, first)], c, first, id);
      ReceivedAppend(log + [(b, first)] + [(c, first)], c, second, id);
      ReceivedAppend(log + [(b, first)] + [(c, first)] + [(c, second)], b, second, id);
    }
  }

  /** Two broadcasts under way, each about to send to the same two clients. */
  ghost predicate Overlapping(s: Hub, b: nat, c: nat, first: Client, second: Client) {
    && b < |s.casts| && c < |s.casts| && b != c
    && s.casts[b].tried <= |s.casts[b].clients| && s.casts[b].clients[s.casts[b].tried..] == [first, second]
    && s.casts[c].tried <= |s.casts[c].clients| && s.casts[c].clients[s.casts[c].tried..] == [first, second]
  }

  lemma NextTargets(s: Hub, b: nat, c: nat, first: Client, second: Client)
    requires Overlapping(s, b, c, first, second)
    ensures forall d :: d == b || d == c ==>
              && CanSend(s, d) && Target(s, d) == first
              && s.casts[d].tried + 1 < |s.casts[d].clients| && s.casts[d].clients[s.casts[d].tried + 1] == second
  {
    forall d | d == b || d == c
      ensures CanSend(s, d) && Target(s, d) == first
      ensures s.casts[d].tried + 1 < |s.casts[d].clients| && s.casts[d].clients[s.casts[d].tried + 1] == second
    {
      var rest := s.casts[d].clients[s.casts[d].tried..];
      assert rest[0] == first && rest[1] == second;
    }
  }

  /** Where broadcasts overlap, one client may receive them in order and the next one the other way round. */
  lemma OverlapReorders(es: seq<Event>, b: nat, c: nat, first: Client, second: Client)
    requires Overlapping(Run(es), b, c, first, second) && first.id != second.id
    ensures var log := Run(es).log;
            var log' := Run(es + [Send(b, true)] + [Send(c, true)] + [Send(c, true)] + [Send(b, true)]).log;
            && Received(log', first.id) == Received(log, first.id) + [b, c]
            && Received(log', second.id) == Received(log, second.id) + [c, b]
  {
    NextTargets(Run(es), b, c, first, second);
    SwappedLog(Run(es).log, b, c, first.id, second.id);
    RunAppend(es, Send(b, true));
    RunAppend(es + [Send(b, true)], Send(c, true));
    RunAppend(es + [Send(b, true)] + [Send(c, true)], Send(c, true));
    RunAppend(es + [Send(b, true)] + [Send(c, true)] + [Send(c, true)], Send(b, true));
  }

  /** Such a state is reached as soon as two broadcasts to a channel start before the first has sent anything. */
  lemma OverlapIsReachable(channel: Name, first: Client, second: Client)
    ensures Overlapping(Run([Subscribe(channel, first), Subscribe(channel, second), Start(channel), Start(channel)]),
                        0, 1, first, second)
  {
    var e1, e2, e3 := Subscribe(channel, first), Subscribe(channel, second), Start(channel);
    RunAppend([], e1);
    RunAppend([e1], e2);
    RunAppend([e1, e2], e3);
    RunAppend([e1, e2, e3], e3);
    assert [] + [e1] == [e1] && [e1] + [e2] == [e1, e2];
    assert [e1, e2] + [e3] == [e1, e2, e3] && [e1, e2, e3] + [e3] == [e1, e2, e3, e3];
    SubscribedTwice(channel, first, second);
  }

  lemma SubscribedTwice(channel: Name, first: Client, second: Client)
    ensures var channels := Subscribed(Subscribed(NewHub.channels, channel, first), channel, second);
            ClientsOf(channels, channel) == [first, second]
  {
    assert ClientsOf(Subscribed(NewHub.channels, channel, first), channel) == [first];
  }
}
