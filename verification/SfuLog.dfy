/** What the SFU backend tracks after a run, told from the calls made to it and the replies they got. */
module SfuLog {
  import opened Wrappers
  import opened Channels
  import opened SfuBackend

  // ------------------------------------------------------------------
  // The log
  // ------------------------------------------------------------------

  /** Routers are placed round robin: how many were asked for. */
  function RouterCalls(es: seq<Event>): nat
    decreases |es|
  {
    if es == [] then 0
    else RouterCalls(es[..|es| - 1]) + if es[|es| - 1].RouterCreation? then 1 else 0
  }

  /** The worker that a call goes to. */
  function Target(workers: nat, before: seq<Event>, e: Event): Option<nat>
    decreases |before|, 1
  {
    match e
    case RouterCreation(_, _) => if workers > 0 then Some(RouterCalls(before) % workers) else None
    case RouterClosing(r) => RouterHome(workers, before, r)
    case TransportCreation(r, _, _) => RouterHome(workers, before, r)
    case Production(t, _, _, _) => HomeOfTransport(workers, before, t)
    case Consumption(t, _, _, _) => HomeOfTransport(workers, before, t)
    case TransportClosing(t) => HomeOfTransport(workers, before, t)
  }

  function HomeOfTransport(workers: nat, es: seq<Event>, t: Id): Option<nat>
    decreases |es|, 0, 1
  {
    var r := TransportHome(workers, es, t);
    if r.None? then None else RouterHome(workers, es, r.value)
  }

  /** The request ids drawn for a worker; transports and routers draw theirs before their UUID. */
  function Draws(workers: nat, es: seq<Event>, w: nat): nat
    decreases |es|, 1
  {
    if es == [] then 0
    else
      var before, e := es[..|es| - 1], es[|es| - 1];
      Draws(workers, before, w) + if Target(workers, before, e) == Some(w) && DrawsId(e) then 1 else 0
  }

  predicate DrawsId(e: Event) {
    match e
    case RouterCreation(_, _) => true
    case RouterClosing(_) => true
    case TransportCreation(_, _, _) => true
    case Production(_, _, uuid, _) => uuid.Some?
    case Consumption(_, _, uuid, _) => uuid.Some?
    case TransportClosing(_) => false
  }

  /** The call creates an entity: its parent is there, it got a UUID, and the reply to its request accepts. */
  predicate Succeeds(workers: nat, before: seq<Event>, e: Event)
    decreases |before|, 2
  {
    var w := Target(workers, before, e);
    && Creates(e) && w.Some? && e.uuid.Some? && e.reply.Some? && e.reply.value.accepted
    && e.reply.value.id == Generated(0, Draws(workers, before, w.value) + 1)
  }

  /** The worker of a live router. */
  function RouterHome(workers: nat, es: seq<Event>, r: Id): Option<nat>
    decreases |es|, 0, 0
  {
    if es == [] then None
    else
      var before, e := es[..|es| - 1], es[|es| - 1];
      if e == RouterClosing(r) then None
      else if e.RouterCreation? && e.uuid == Some(r) && Succeeds(workers, before, e) then Target(workers, before, e)
      else RouterHome(workers, before, r)
  }

  /** The router of a live transport. */
  function TransportHome(workers: nat, es: seq<Event>, t: Id): Option<Id>
    decreases |es|, 0, 0
  {
    if es == [] then None
    else
      var before, e := es[..|es| - 1], es[|es| - 1];
      if e.TransportCreation? && e.uuid == Some(t) && Succeeds(workers, before, e) then Some(e.router)
      else if e == TransportClosing(t) || (e.RouterClosing? && TransportHome(workers, before, t) == Some(e.router)) then None
      else TransportHome(workers, before, t)
  }

  /** The event closes the transport: itself, or with its router. */
  predicate Closes(workers: nat, before: seq<Event>, e: Event, t: Id) {
    e == TransportClosing(t) || (e.RouterClosing? && TransportHome(workers, before, t) == Some(e.router))
  }

  /** The transport of a live producer, and its kind. */
  function ProducerHome(workers: nat, es: seq<Event>, p: Id): Option<(Id, string)>
    decreases |es|
  {
    if es == [] then None
    else
      var before, e := es[..|es| - 1], es[|es| - 1];
      var home := ProducerHome(workers, before, p);
      if e.Production? && e.uuid == Some(p) && Succeeds(workers, before, e) then Some((e.transport, e.kind))
      else if home.Some? && Closes(workers, before, e, home.value.0) then None
      else home
  }

  /** The transport of a live consumer. */
  function ConsumerHome(workers: nat, es: seq<Event>, c: Id): Option<Id>
    decreases |es|
  {
    if es == [] then None
    else
      var before, e := es[..|es| - 1], es[|es| - 1];
      var home := ConsumerHome(workers, before, c);
      if e.Consumption? && e.uuid == Some(c) && Succeeds(workers, before, e) then Some(e.transport)
      else if home.Some? && Closes(workers, before, e, home.value) then None
      else home
  }

  // ------------------------------------------------------------------
  // One call
  // ------------------------------------------------------------------

  function At<T>(m: map<Id, T>, k: Id): Option<T> {
    if k in m then Some(m[k]) else None
  }

  /** The target of a call as the maps have it. */
  function Goal(s: State, e: Event): Option<nat> {
    match e
    case RouterCreation(_, _) => if |s.nextIds| > 0 then Some(s.nextWorker % |s.nextIds|) else None
    case RouterClosing(r) => At(s.forest.routers, r)
    case TransportCreation(r, _, _) => At(s.forest.routers, r)
    case Production(t, _, _, _) => GoalOfTransport(s.forest, t)
    case Consumption(t, _, _, _) => GoalOfTransport(s.forest, t)
    case TransportClosing(t) => GoalOfTransport(s.forest, t)
  }

  function GoalOfTransport(f: Forest, t: Id): Option<nat> {
    var r := At(f.transports, t);
    if r.None? then None else At(f.routers, r.value)
  }

  lemma GoalIsWorker(s: State, e: Event)
    requires Sound(s)
    ensures Goal(s, e).Some? ==> Goal(s, e).value < |s.nextIds|
  {}

  predicate SucceedsNow(s: State, e: Event) {
    var w := Goal(s, e);
    && Creates(e) && w.Some? && w.value < |s.nextIds| && e.uuid.Some? && e.reply.Some? && e.reply.value.accepted
    && e.reply.value.id == NextId(s.nextIds[w.value])
  }

  /** A router that is created is on the worker it went to; otherwise the error says what was missing. */
  lemma RouterCreationTracks(s: State, uuid: Option<Id>, reply: Option<Response>)
    requires Sound(s)
    ensures var e, f := RouterCreation(uuid, reply), s.forest;
            var (s', result) := RouterCreated(s, uuid, reply);
            if SucceedsNow(s, e) then
              result == Success(uuid.value) && s'.forest == f.(routers := f.routers[uuid.value := Goal(s, e).value])
            else
              && s'.forest == f
              && result == Failure(if Goal(s, e).None? then ServiceUnavailable else if uuid.None? then NoUuid else InternalError)
  {}

  /** A transport that is created is on the router it was asked for on. */
  lemma TransportCreationTracks(s: State, r: Id, uuid: Option<Id>, reply: Option<Response>)
    requires Sound(s)
    ensures var e, f := TransportCreation(r, uuid, reply), s.forest;
            var (s', result) := TransportCreated(s, r, uuid, reply);
            if SucceedsNow(s, e) then
              result == Success(uuid.value) && s'.forest == f.(transports := f.transports[uuid.value := r])
            else
              && s'.forest == f
              && result == Failure(if Goal(s, e).None? then NotFound else if uuid.None? then NoUuid else InternalError)
  {}

  /** A producer that is created is on its transport, with the kind it was given. */
  lemma ProductionTracks(s: State, t: Id, kind: string, uuid: Option<Id>, reply: Option<Response>)
    requires Sound(s)
    ensures var e, f := Production(t, kind, uuid, reply), s.forest;
            var (s', result) := Produced(s, t, kind, uuid, reply);
            if SucceedsNow(s, e) then
              && result == Success(uuid.value)
              && s'.forest == f.(producers := f.producers[uuid.value := t], kinds := f.kinds[uuid.value := kind])
            else
              && s'.forest == f
              && result == Failure(if Goal(s, e).None? then NotFound else if uuid.None? then NoUuid else InternalError)
  {}

  /** A consumer that is created is on its transport, and reports the producer's kind, or video. */
  lemma ConsumptionTracks(s: State, t: Id, p: Id, uuid: Option<Id>, reply: Option<Response>)
    requires Sound(s)
    ensures var e, f := Consumption(t, p, uuid, reply), s.forest;
            var (s', result) := Consumed(s, t, p, uuid, reply);
            if SucceedsNow(s, e) then
              && result == Success((uuid.value, if p in f.producers then f.kinds[p] else "video"))
              && s'.forest == f.(consumers := f.consumers[uuid.value := t])
            else
              && s'.forest == f
              && result == Failure(if Goal(s, e).None? then NotFound else if uuid.None? then NoUuid else InternalError)
  {}

  /** What a call does to the map of routers. */
  lemma RoutersAfter(s: State, e: Event, r: Id)
    requires Sound(s)
    ensures At(Step(s, e).forest.routers, r) ==
              if e == RouterClosing(r) then None
              else if e.RouterCreation? && e.uuid == Some(r) && SucceedsNow(s, e) then Goal(s, e)
              else At(s.forest.routers, r)
  {
    match e {
      case RouterCreation(uuid, reply) => RouterCreationTracks(s, uuid, reply);
      case _ =>
    }
  }

  predicate ClosesNow(f: Forest, e: Event, t: Id) {
    e == TransportClosing(t) || (e.RouterClosing? && At(f.transports, t) == Some(e.router))
  }

  lemma TransportsAfter(s: State, e: Event, t: Id)
    requires Sound(s)
    ensures At(Step(s, e).forest.transports, t) ==
              if e.TransportCreation? && e.uuid == Some(t) && SucceedsNow(s, e) then Some(e.router)
              else if ClosesNow(s.forest, e, t) then None
              else At(s.forest.transports, t)
  {
    match e {
      case TransportCreation(r, uuid, reply) => TransportCreationTracks(s, r, uuid, reply);
      case _ =>
    }
  }

  function KindedAt(f: Forest, p: Id): Option<(Id, string)> {
    if p in f.producers && p in f.kinds then Some((f.producers[p], f.kinds[p])) else None
  }

  lemma ProducersAfter(s: State, e: Event, p: Id)
    requires Sound(s)
    ensures KindedAt(Step(s, e).forest, p) ==
              if e.Production? && e.uuid == Some(p) && SucceedsNow(s, e) then Some((e.transport, e.kind))
              else if p in s.forest.producers && ClosesNow(s.forest, e, s.forest.producers[p]) then None
              else KindedAt(s.forest, p)
  {
    match e {
      case Production(t, kind, uuid, reply) => ProductionTracks(s, t, kind, uuid, reply);
      case _ =>
    }
  }

  lemma ConsumersAfter(s: State, e: Event, c: Id)
    requires Sound(s)
    ensures At(Step(s, e).forest.consumers, c) ==
              if e.Consumption? && e.uuid == Some(c) && SucceedsNow(s, e) then Some(e.transport)
              else if c in s.forest.consumers && ClosesNow(s.forest, e, s.forest.consumers[c]) then None
              else At(s.forest.consumers, c)
  {
    match e {
      case Consumption(t, p, uuid, reply) => ConsumptionTracks(s, t, p, uuid, reply);
      case _ =>
    }
  }

  lemma CountersAfter(s: State, e: Event, w: nat)
    requires Sound(s) && w < |s.nextIds|
    ensures var s' := Step(s, e);
            && s'.nextWorker == s.nextWorker + (if e.RouterCreation? then 1 else 0)
            && |s'.nextIds| == |s.nextIds|
            && s'.nextIds[w] == if Goal(s, e) == Some(w) && DrawsId(e) then NextId(s.nextIds[w]) else s.nextIds[w]
  {}

  // ------------------------------------------------------------------
  // Whole runs
  // ------------------------------------------------------------------

  lemma {:induction false} CountersAreLogged(workers: nat, es: seq<Event>, w: nat)
    requires w < workers
    ensures var s := Run(Start(workers), es);
            && |s.nextIds| == workers && s.nextWorker == RouterCalls(es)
            && s.nextIds[w] == Generated(0, Draws(workers, es, w))
    decreases |es|, 2
  {
    if es != [] {
      var before, e := es[..|es| - 1], es[|es| - 1];
      CountersAreLogged(workers, before, w);
      GoalIsTarget(workers, before, e);
      RunIsSound(workers, before);
      CountersAfter(Run(Start(workers), before), e, w);
    }
  }

  lemma {:induction false} GoalIsTarget(workers: nat, before: seq<Event>, e: Event)
    ensures Goal(Run(Start(workers), before), e) == Target(workers, before, e)
    decreases |before|, 3
  {
    RunIsSound(workers, before);
    if workers > 0 { CountersAreLogged(workers, before, 0); }
    match e {
      case RouterCreation(_, _) =>
      case RouterClosing(r) => RoutersAreLogged(workers, before, r);
      case TransportCreation(r, _, _) => RoutersAreLogged(workers, before, r);
      case Production(t, _, _, _) => TransportHasHome(workers, before, t);
      case Consumption(t, _, _, _) => TransportHasHome(workers, before, t);
      case TransportClosing(t) => TransportHasHome(workers, before, t);
    }
  }

  lemma TransportHasHome(workers: nat, es: seq<Event>, t: Id)
    ensures GoalOfTransport(Run(Start(workers), es).forest, t) == HomeOfTransport(workers, es, t)
    decreases |es|, 1
  {
    TransportsAreLogged(workers, es, t);
    var r := TransportHome(workers, es, t);
    if r.Some? { RoutersAreLogged(workers, es, r.value); }
  }

  /** The next request id of a worker is known from the log, so the log tells which calls succeed. */
  lemma SuccessIsLogged(workers: nat, before: seq<Event>, e: Event)
    ensures SucceedsNow(Run(Start(workers), before), e) <==> Succeeds(workers, before, e)
    decreases |before|, 4
  {
    GoalIsTarget(workers, before, e);
    RunIsSound(workers, before);
    GoalIsWorker(Run(Start(workers), before), e);
    var w := Target(workers, before, e);
    if w.Some? { CountersAreLogged(workers, before, w.value); }
  }

  /** A router is tracked on a worker exactly while the log has it there. */
  lemma {:induction false} RoutersAreLogged(workers: nat, es: seq<Event>, r: Id)
    ensures At(Run(Start(workers), es).forest.routers, r) == RouterHome(workers, es, r)
    decreases |es|, 0
  {
    if es != [] {
      var before, e := es[..|es| - 1], es[|es| - 1];
      RoutersAreLogged(workers, before, r);
      SuccessIsLogged(workers, before, e);
      GoalIsTarget(workers, before, e);
      RunIsSound(workers, before);
      RoutersAfter(Run(Start(workers), before), e, r);
    }
  }

  lemma {:induction false} TransportsAreLogged(workers: nat, es: seq<Event>, t: Id)
    ensures At(Run(Start(workers), es).forest.transports, t) == TransportHome(workers, es, t)
    decreases |es|, 0
  {
    if es != [] {
      var before, e := es[..|es| - 1], es[|es| - 1];
      TransportsAreLogged(workers, before, t);
      SuccessIsLogged(workers, before, e);
      RunIsSound(workers, before);
      TransportsAfter(Run(Start(workers), before), e, t);
    }
  }

  lemma ClosingIsLogged(workers: nat, before: seq<Event>, e: Event, t: Id)
    ensures ClosesNow(Run(Start(workers), before).forest, e, t) <==> Closes(workers, before, e, t)
  {
    TransportsAreLogged(workers, before, t);
  }

  lemma {:induction false} ProducersAreLogged(workers: nat, es: seq<Event>, p: Id)
    ensures KindedAt(Run(Start(workers), es).forest, p) == ProducerHome(workers, es, p)
    decreases |es|
  {
    if es != [] {
      var before, e := es[..|es| - 1], es[|es| - 1];
      var f := Run(Start(workers), before).forest;
      ProducersAreLogged(workers, before, p);
      SuccessIsLogged(workers, before, e);
      RunIsSound(workers, before);
      ProducersAfter(Run(Start(workers), before), e, p);
      if p in f.producers { ClosingIsLogged(workers, before, e, f.producers[p]); }
    }
  }

  lemma {:induction false} ConsumersAreLogged(workers: nat, es: seq<Event>, c: Id)
    ensures At(Run(Start(workers), es).forest.consumers, c) == ConsumerHome(workers, es, c)
    decreases |es|
  {
    if es != [] {
      var before, e := es[..|es| - 1], es[|es| - 1];
      var f := Run(Start(workers), before).forest;
      ConsumersAreLogged(workers, before, c);
      SuccessIsLogged(workers, before, e);
      RunIsSound(workers, before);
      ConsumersAfter(Run(Start(workers), before), e, c);
      if c in f.consumers { ClosingIsLogged(workers, before, e, f.consumers[c]); }
    }
  }

  // ------------------------------------------------------------------
  // Messages and results
  // ------------------------------------------------------------------

  /** The message a call sends: none if it has no target, or a creation no UUID. */
  function Asked(e: Event): Option<Request> {
    match e
    case RouterClosing(r) => Some(EndRouter(r))
    case TransportClosing(t) => Some(EndTransport(t))
    case RouterCreation(Some(id), _) => Some(NewRouter(id))
    case TransportCreation(r, Some(id), _) => Some(NewTransport(r, id))
    case Production(t, kind, Some(id), _) => Some(NewProducer(t, id, kind))
    case Consumption(t, p, Some(id), _) => Some(NewConsumer(t, id, p))
    case _ => None
  }

  function Messages(workers: nat, es: seq<Event>): seq<Sent>
    decreases |es|
  {
    if es == [] then []
    else
      var before, e := es[..|es| - 1], es[|es| - 1];
      var w := Target(workers, before, e);
      if w.None? || Asked(e).None? then Messages(workers, before)
      else Messages(workers, before) + [Sent(w.value, Asked(e).value)]
  }

  lemma SentAfter(s: State, e: Event)
    ensures Step(s, e).sent ==
              if Goal(s, e).None? || Asked(e).None? then s.sent
              else s.sent + [Sent(Goal(s, e).value, Asked(e).value)]
  {}

  /** In every run each call that finds its worker has sent it one message, in the order of the calls. */
  lemma {:induction false} MessagesAreSent(workers: nat, es: seq<Event>)
    ensures Run(Start(workers), es).sent == Messages(workers, es)
    decreases |es|
  {
    if es != [] {
      var before, e := es[..|es| - 1], es[|es| - 1];
      MessagesAreSent(workers, before);
      GoalIsTarget(workers, before, e);
      SentAfter(Run(Start(workers), before), e);
    }
  }

  /** In every run a call returns the new id exactly when it succeeds by the log, and a consumer's kind is its producer's. */
  lemma CallsReturn(workers: nat, es: seq<Event>, e: Event)
    ensures var s, succeeds := Run(Start(workers), es), Succeeds(workers, es, e);
            match e
            case RouterCreation(uuid, reply) => RouterCreated(s, uuid, reply).1.Success? == succeeds
            case TransportCreation(r, uuid, reply) => TransportCreated(s, r, uuid, reply).1.Success? == succeeds
            case Production(t, kind, uuid, reply) => Produced(s, t, kind, uuid, reply).1.Success? == succeeds
            case Consumption(t, p, uuid, reply) =>
              var result, producer := Consumed(s, t, p, uuid, reply).1, ProducerHome(workers, es, p);
              && result.Success? == succeeds
              && (succeeds ==>
                    result == Success((uuid.value, if producer.Some? then producer.value.1 else "video")))
            case _ => true
  {
    var s := Run(Start(workers), es);
    SuccessIsLogged(workers, es, e);
    RunIsSound(workers, es);
    match e {
      case RouterCreation(uuid, reply) => RouterCreationTracks(s, uuid, reply);
      case TransportCreation(r, uuid, reply) => TransportCreationTracks(s, r, uuid, reply);
      case Production(t, kind, uuid, reply) => ProductionTracks(s, t, kind, uuid, reply);
      case Consumption(t, p, uuid, reply) => ConsumptionReturns(workers, es, e);
      case _ =>
    }
  }

  lemma ConsumptionReturns(workers: nat, es: seq<Event>, e: Event)
    requires e.Consumption?
    ensures var s, succeeds := Run(Start(workers), es), Succeeds(workers, es, e);
            var result, producer := Consumed(s, e.transport, e.producer, e.uuid, e.reply).1, ProducerHome(workers, es, e.producer);
            && result.Success? == succeeds
            && (succeeds ==>
                  result == Success((e.uuid.value, if producer.Some? then producer.value.1 else "video")))
  {
    var s := Run(Start(workers), es);
    SuccessIsLogged(workers, es, e);
    RunIsSound(workers, es);
    ConsumptionTracks(s, e.transport, e.producer, e.uuid, e.reply);
    ProducersAreLogged(workers, es, e.producer);
  }

  /**
   On a transport that was just created, the next produce is accepted when the reply to it
   is, and then the producer is tracked on it with its kind.
   */
  lemma CreatedTransportProduces(workers: nat, es: seq<Event>, e: Event, kind: string, p: Id, reply: Response)
    requires e.TransportCreation? && Succeeds(workers, es, e)
    requires reply.accepted
    requires reply.id == Generated(0, Draws(workers, es + [e], Target(workers, es, e).value) + 1)
    ensures var next := Production(e.uuid.value, kind, Some(p), Some(reply));
            && Succeeds(workers, es + [e], next)
            && ProducerHome(workers, es + [e] + [next], p) == Some((e.uuid.value, kind))
  {
    var next := Production(e.uuid.value, kind, Some(p), Some(reply));
    assert (es + [e])[..|es|] == es && (es + [e] + [next])[..|es| + 1] == es + [e];
    assert TransportHome(workers, es + [e], e.uuid.value) == Some(e.router);
    assert RouterHome(workers, es + [e], e.router) == RouterHome(workers, es, e.router);
  }
}
