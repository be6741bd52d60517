/**
 The SFU control plane: routers on workers, transports on routers, producers and
 consumers on transports, kept as separate maps.

 Every public method of the backend runs under one mutex, so each is one step. The
 UUID generator and the worker's reply are parameters of the step. The functions
 give the state after each step; the class performs it in place.
 */
module SfuBackend {
  import opened Wrappers
  import opened Channels

  type Id = string

  datatype SfuError = ServiceUnavailable | NotFound | NoUuid | InternalError

  /** The tracking maps: each entity's parent, and the kind of each producer. */
  datatype Forest = Forest(
    routers: map<Id, nat>,
    transports: map<Id, Id>,
    producers: map<Id, Id>,
    kinds: map<Id, string>,
    consumers: map<Id, Id>)

  datatype Request =
    | NewRouter(router: Id)
    | EndRouter(router: Id)
    | NewTransport(router: Id, transport: Id)
    | EndTransport(transport: Id)
    | NewProducer(transport: Id, producer: Id, kind: string)
    | NewConsumer(transport: Id, consumer: Id, producer: Id)

  /** A message handed to a worker's channel. */
  datatype Sent = Sent(worker: nat, request: Request)

  /** Beside the maps: the round-robin counter, each channel's id counter and what was sent. */
  datatype State = State(forest: Forest, nextWorker: nat, nextIds: seq<uint32>, sent: seq<Sent>)

  const NoEntities := Forest(map[], map[], map[], map[], map[])

  predicate Rooted(f: Forest, workers: nat) {
    && (forall r :: r in f.routers ==> f.routers[r] < workers)
    && f.transports.Values <= f.routers.Keys
    && f.producers.Values <= f.transports.Keys
    && f.consumers.Values <= f.transports.Keys
    && f.kinds.Keys == f.producers.Keys
  }

  ghost predicate Sound(s: State) {
    Rooted(s.forest, |s.nextIds|)
  }

  // ------------------------------------------------------------------
  // Removing subtrees
  // ------------------------------------------------------------------

  function Children(m: map<Id, Id>, parents: set<Id>): set<Id> {
    set k | k in m && m[k] in parents
  }

  function WithoutTransports(f: Forest, ts: set<Id>): Forest {
    f.(transports := f.transports - ts,
       producers := f.producers - Children(f.producers, ts),
       kinds := f.kinds - Children(f.producers, ts),
       consumers := f.consumers - Children(f.consumers, ts))
  }

  function WithoutRouter(f: Forest, r: Id): Forest {
    WithoutTransports(f, Children(f.transports, {r})).(routers := f.routers - {r})
  }

  // ------------------------------------------------------------------
  // Steps
  // ------------------------------------------------------------------

  /** The worker that channelForRouter finds. */
  function WorkerOf(f: Forest, r: Id): Option<nat> {
    if r in f.routers then Some(f.routers[r]) else None
  }

  function WorkerOfTransport(f: Forest, t: Id): Option<nat> {
    if t in f.transports then WorkerOf(f, f.transports[t]) else None
  }

  function Drawn(s: State, w: nat): State {
    if w < |s.nextIds| then s.(nextIds := s.nextIds[w := NextId(s.nextIds[w])]) else s
  }

  function Told(s: State, w: nat, request: Request): State {
    s.(sent := s.sent + [Sent(w, request)])
  }

  /** parseResponse: a response came, answers the last id drawn and accepts. */
  predicate Accepted(s: State, w: nat, reply: Option<Response>) {
    w < |s.nextIds| && reply.Some? && reply.value.id == s.nextIds[w] && reply.value.accepted
  }

  function RouterCreated(s: State, uuid: Option<Id>, reply: Option<Response>): (State, Result<Id, SfuError>) {
    if |s.nextIds| == 0 then (s, Failure(ServiceUnavailable))
    else
      var w := s.nextWorker % |s.nextIds|;
      var drawn := Drawn(s.(nextWorker := s.nextWorker + 1), w);
      if uuid.None? then (drawn, Failure(NoUuid))
      else
        var told := Told(drawn, w, NewRouter(uuid.value));
        if !Accepted(told, w, reply) then (told, Failure(InternalError))
        else (told.(forest := told.forest.(routers := told.forest.routers[uuid.value := w])), Success(uuid.value))
  }

  function RouterClosed(s: State, r: Id): State {
    var w := WorkerOf(s.forest, r);
    if w.None? then s
    else Told(Drawn(s, w.value), w.value, EndRouter(r)).(forest := WithoutRouter(s.forest, r))
  }

  function TransportCreated(s: State, r: Id, uuid: Option<Id>, reply: Option<Response>): (State, Result<Id, SfuError>) {
    var w := WorkerOf(s.forest, r);
    if w.None? then (s, Failure(NotFound))
    else
      var drawn := Drawn(s, w.value);
      if uuid.None? then (drawn, Failure(NoUuid))
      else
        var told := Told(drawn, w.value, NewTransport(r, uuid.value));
        if !Accepted(told, w.value, reply) then (told, Failure(InternalError))
        else
          (told.(forest := told.forest.(transports := told.forest.transports[uuid.value := r])), Success(uuid.value))
  }

  function Produced(s: State, t: Id, kind: string, uuid: Option<Id>, reply: Option<Response>)
    : (State, Result<Id, SfuError>)
  {
    var w := WorkerOfTransport(s.forest, t);
    if w.None? then (s, Failure(NotFound))
    else if uuid.None? then (s, Failure(NoUuid))
    else
      var told := Told(Drawn(s, w.value), w.value, NewProducer(t, uuid.value, kind));
      if !Accepted(told, w.value, reply) then (told, Failure(InternalError))
      else
        (told.(forest := told.forest.(producers := told.forest.producers[uuid.value := t],
                                      kinds := told.forest.kinds[uuid.value := kind])),
         Success(uuid.value))
  }

  /** The second part of a successful result is the kind reported for the consumer. */
  function Consumed(s: State, t: Id, p: Id, uuid: Option<Id>, reply: Option<Response>)
    : (State, Result<(Id, string), SfuError>)
  {
    var w := WorkerOfTransport(s.forest, t);
    if w.None? then (s, Failure(NotFound))
    else if uuid.None? then (s, Failure(NoUuid))
    else
      var told := Told(Drawn(s, w.value), w.value, NewConsumer(t, uuid.value, p));
      if !Accepted(told, w.value, reply) then (told, Failure(InternalError))
      else
        (told.(forest := told.forest.(consumers := told.forest.consumers[uuid.value := t])),
         Success((uuid.value, if p in s.forest.kinds then s.forest.kinds[p] else "video")))
  }

  function TransportClosed(s: State, t: Id): State {
    var w := WorkerOfTransport(s.forest, t);
    if w.None? then s
    else Told(s, w.value, EndTransport(t)).(forest := WithoutTransports(s.forest, {t}))
  }

  datatype Event =
    | RouterCreation(uuid: Option<Id>, reply: Option<Response>)
    | RouterClosing(router: Id)
    | TransportCreation(router: Id, uuid: Option<Id>, reply: Option<Response>)
    | Production(transport: Id, kind: string, uuid: Option<Id>, reply: Option<Response>)
    | Consumption(transport: Id, producer: Id, uuid: Option<Id>, reply: Option<Response>)
    | TransportClosing(transport: Id)

  function Step(s: State, e: Event): State {
    match e
    case RouterCreation(uuid, reply) => RouterCreated(s, uuid, reply).0
    case RouterClosing(r) => RouterClosed(s, r)
    case TransportCreation(r, uuid, reply) => TransportCreated(s, r, uuid, reply).0
    case Production(t, kind, uuid, reply) => Produced(s, t, kind, uuid, reply).0
    case Consumption(t, p, uuid, reply) => Consumed(s, t, p, uuid, reply).0
    case TransportClosing(t) => TransportClosed(s, t)
  }

  predicate Fails(s: State, e: Event) {
    match e
    case RouterCreation(uuid, reply) => RouterCreated(s, uuid, reply).1.Failure?
    case TransportCreation(r, uuid, reply) => TransportCreated(s, r, uuid, reply).1.Failure?
    case Production(t, kind, uuid, reply) => Produced(s, t, kind, uuid, reply).1.Failure?
    case Consumption(t, p, uuid, reply) => Consumed(s, t, p, uuid, reply).1.Failure?
    case _ => false
  }

  function Start(workers: nat): State {
    State(NoEntities, 0, seq(workers, _ => 0), [])
  }

  function Run(s: State, es: seq<Event>): State
    decreases |es|
  {
    if es == [] then s else Step(Run(s, es[..|es| - 1]), es[|es| - 1])
  }

  // ------------------------------------------------------------------
  // The maps form a forest
  // ------------------------------------------------------------------

  lemma RemovalKeepsRooted(f: Forest, r: Id, t: Id, workers: nat)
    requires Rooted(f, workers)
    ensures Rooted(WithoutRouter(f, r), workers)
    ensures Rooted(WithoutTransports(f, {t}), workers)
  {}

  lemma StepKeepsSound(s: State, e: Event)
    requires Sound(s)
    ensures Sound(Step(s, e)) && |Step(s, e).nextIds| == |s.nextIds|
  {
    match e {
      case RouterClosing(r) => RemovalKeepsRooted(s.forest, r, r, |s.nextIds|);
      case TransportClosing(t) => RemovalKeepsRooted(s.forest, t, t, |s.nextIds|);
      case _ =>
    }
  }

  /** Whatever ids the generator returns, even ids in use, the maps form a forest after every run. */
  lemma {:induction false} RunIsSound(workers: nat, es: seq<Event>)
    ensures var s := Run(Start(workers), es); Rooted(s.forest, workers) && |s.nextIds| == workers
    decreases |es|
  {
    if es != [] {
      RunIsSound(workers, es[..|es| - 1]);
      StepKeepsSound(Run(Start(workers), es[..|es| - 1]), es[|es| - 1]);
    }
  }

  lemma FailedCreateTracksNothing(s: State, e: Event)
    requires Fails(s, e)
    ensures Step(s, e).forest == s.forest
  {}

  /** An entity lies below a router when its chain of parents ends there. */
  predicate TransportBelow(f: Forest, t: Id, r: Id) {
    t in f.transports && f.transports[t] == r
  }

  predicate Below(f: Forest, m: map<Id, Id>, k: Id, r: Id) {
    k in m && TransportBelow(f, m[k], r)
  }

  /** Closing a router drops its whole subtree and nothing else. */
  lemma ClosedRouterLosesItsSubtree(s: State, r: Id)
    requires Sound(s) && r in s.forest.routers
    ensures var f, f' := s.forest, RouterClosed(s, r).forest;
            && f'.routers == f.routers - {r}
            && (forall t :: t in f'.transports <==> t in f.transports && !TransportBelow(f, t, r))
            && (forall p :: p in f'.producers <==> p in f.producers && !Below(f, f.producers, p, r))
            && (forall c :: c in f'.consumers <==> c in f.consumers && !Below(f, f.consumers, c, r))
            && (forall p :: p in f'.producers ==> p in f'.kinds && f'.kinds[p] == f.kinds[p])
            && f'.transports.Items <= f.transports.Items
            && f'.producers.Items <= f.producers.Items
            && f'.consumers.Items <= f.consumers.Items
  {}

  lemma ClosedTransportLosesItsSubtree(s: State, t: Id)
    requires Sound(s) && t in s.forest.transports
    ensures var f, f' := s.forest, TransportClosed(s, t).forest;
            && f'.routers == f.routers && f'.transports == f.transports - {t}
            && (forall p :: p in f'.producers <==> p in f.producers && f.producers[p] != t)
            && (forall c :: c in f'.consumers <==> c in f.consumers && f.consumers[c] != t)
            && (forall p :: p in f'.producers ==> p in f'.kinds && f'.kinds[p] == f.kinds[p])
            && f'.producers.Items <= f.producers.Items
            && f'.consumers.Items <= f.consumers.Items
  {}

  // ------------------------------------------------------------------
  // Messages reach the worker that hosts the entity
  // ------------------------------------------------------------------

  /** The ids a message acts on; the producer to consume from may live anywhere. */
  function ActsOn(q: Request): set<Id> {
    match q
    case NewRouter(r) => {r}
    case EndRouter(r) => {r}
    case NewTransport(r, t) => {r, t}
    case EndTransport(t) => {t}
    case NewProducer(t, p, _) => {t, p}
    case NewConsumer(t, c, _) => {t, c}
  }

  function Known(sent: seq<Sent>): set<Id> {
    set i, id | 0 <= i < |sent| && id in ActsOn(sent[i].request) :: id
  }

  ghost predicate OneWorkerEach(sent: seq<Sent>) {
    forall i, j, id :: 0 <= i < |sent| && 0 <= j < |sent| && id in ActsOn(sent[i].request) && id in ActsOn(sent[j].request) ==>
      sent[i].worker == sent[j].worker
  }

  ghost predicate Sends(sent: seq<Sent>, id: Id, w: nat) {
    exists i :: 0 <= i < |sent| && id in ActsOn(sent[i].request) && sent[i].worker == w
  }

  /** Live routers and transports are where their messages went. */
  ghost predicate Placed(s: State) {
    && OneWorkerEach(s.sent)
    && (forall r :: r in s.forest.routers ==> Sends(s.sent, r, s.forest.routers[r]))
    && (forall t :: t in s.forest.transports ==>
          s.forest.transports[t] in s.forest.routers
          && Sends(s.sent, t, s.forest.routers[s.forest.transports[t]]))
  }

  /** The id is in no message so far. */
  predicate New(s: State, uuid: Option<Id>) {
    uuid.Some? ==> uuid.value !in Known(s.sent)
  }

  predicate Creates(e: Event) {
    e.RouterCreation? || e.TransportCreation? || e.Production? || e.Consumption?
  }

  /** A message about known ids goes where those ids went before; the others are new. */
  lemma ToldKeepsOneWorker(sent: seq<Sent>, w: nat, q: Request)
    requires OneWorkerEach(sent)
    requires forall id :: id in ActsOn(q) ==> id !in Known(sent) || Sends(sent, id, w)
    ensures var sent' := sent + [Sent(w, q)];
            && OneWorkerEach(sent')
            && (forall id :: id in ActsOn(q) ==> Sends(sent', id, w))
            && (forall id, v :: Sends(sent, id, v) ==> Sends(sent', id, v))
  {
    var sent', n := sent + [Sent(w, q)], |sent|;
    forall i, j, id | 0 <= i <= n && 0 <= j <= n && id in ActsOn(sent'[i].request) && id in ActsOn(sent'[j].request)
      ensures sent'[i].worker == sent'[j].worker
    {
      if i < n && j == n { WentTo(sent, i, id, w); }
      if j < n && i == n { WentTo(sent, j, id, w); }
    }
    forall id | id in ActsOn(q) ensures Sends(sent', id, w) {
      assert id in ActsOn(sent'[n].request);
    }
    forall id, v | Sends(sent, id, v) ensures Sends(sent', id, v) {
      var i :| 0 <= i < n && id in ActsOn(sent[i].request) && sent[i].worker == v;
      assert id in ActsOn(sent'[i].request);
    }
  }

  lemma WentTo(sent: seq<Sent>, i: nat, id: Id, w: nat)
    requires OneWorkerEach(sent) && i < |sent| && id in ActsOn(sent[i].request)
    requires id !in Known(sent) || Sends(sent, id, w)
    ensures sent[i].worker == w
  {
    assert id in Known(sent);
  }

  /** The request of a step, and the worker it goes to. */
  function Message(s: State, e: Event): Option<Sent> {
    match e
    case RouterCreation(uuid, _) =>
      if |s.nextIds| == 0 || uuid.None? then None
      else Some(Sent(s.nextWorker % |s.nextIds|, NewRouter(uuid.value)))
    case RouterClosing(r) =>
      if r in s.forest.routers then Some(Sent(s.forest.routers[r], EndRouter(r))) else None
    case TransportCreation(r, uuid, _) =>
      var w := WorkerOf(s.forest, r);
      if w.None? || uuid.None? then None else Some(Sent(w.value, NewTransport(r, uuid.value)))
    case Production(t, kind, uuid, _) =>
      var w := WorkerOfTransport(s.forest, t);
      if w.None? || uuid.None? then None else Some(Sent(w.value, NewProducer(t, uuid.value, kind)))
    case Consumption(t, p, uuid, _) =>
      var w := WorkerOfTransport(s.forest, t);
      if w.None? || uuid.None? then None else Some(Sent(w.value, NewConsumer(t, uuid.value, p)))
    case TransportClosing(t) =>
      var w := WorkerOfTransport(s.forest, t);
      if w.None? then None else Some(Sent(w.value, EndTransport(t)))
  }

  lemma StepSends(s: State, e: Event)
    ensures Step(s, e).sent == match Message(s, e) case None => s.sent case Some(m) => s.sent + [m]
  {}

  lemma MessageIsPlaced(s: State, e: Event)
    requires Placed(s) && (Creates(e) ==> New(s, e.uuid))
    requires Message(s, e).Some?
    ensures var m := Message(s, e).value;
            forall id :: id in ActsOn(m.request) ==> id !in Known(s.sent) || Sends(s.sent, id, m.worker)
  {}

  /** Live routers are known, and every transport's router is live. */
  ghost predicate Anchored(f: Forest, known: set<Id>) {
    f.routers.Keys <= known && f.transports.Values <= f.routers.Keys
  }

  lemma PlacedIsAnchored(s: State)
    requires Placed(s)
    ensures Anchored(s.forest, Known(s.sent))
  {
    forall r | r in s.forest.routers ensures r in Known(s.sent) {
      assert Sends(s.sent, r, s.forest.routers[r]);
    }
  }

  lemma RouterCreationPlaces(s: State, known: set<Id>, uuid: Option<Id>, reply: Option<Response>)
    requires Anchored(s.forest, known) && (uuid.Some? ==> uuid.value !in known)
    ensures Grows(s.forest, RouterCreated(s, uuid, reply).0.forest, Message(s, RouterCreation(uuid, reply)))
  {}

  lemma TransportCreationPlaces(s: State, r: Id, uuid: Option<Id>, reply: Option<Response>)
    requires s.forest.transports.Values <= s.forest.routers.Keys
    ensures Grows(s.forest, TransportCreated(s, r, uuid, reply).0.forest, Message(s, TransportCreation(r, uuid, reply)))
  {}

  lemma OtherStepPlaces(s: State, e: Event)
    requires s.forest.transports.Values <= s.forest.routers.Keys && !e.RouterCreation?
    ensures Grows(s.forest, Step(s, e).forest, Message(s, e))
  {
    if e.TransportCreation? {
      TransportCreationPlaces(s, e.router, e.uuid, e.reply);
    }
  }

  /** What a step adds to the routers and transports is what its message asks for. */
  lemma StepPlaces(s: State, e: Event)
    requires Placed(s) && (Creates(e) ==> New(s, e.uuid))
    ensures Grows(s.forest, Step(s, e).forest, Message(s, e))
  {
    PlacedIsAnchored(s);
    if e.RouterCreation? {
      RouterCreationPlaces(s, Known(s.sent), e.uuid, e.reply);
    } else {
      OtherStepPlaces(s, e);
    }
  }

  ghost predicate Grows(f: Forest, f': Forest, m: Option<Sent>) {
    && (forall r :: r in f'.routers ==>
          (r in f.routers && f'.routers[r] == f.routers[r]) || m == Some(Sent(f'.routers[r], NewRouter(r))))
    && (forall t :: t in f'.transports ==>
          && f'.transports[t] in f'.routers
          && f'.transports[t] in f.routers
          && f'.routers[f'.transports[t]] == f.routers[f'.transports[t]]
          && ((t in f.transports && f'.transports[t] == f.transports[t])
              || m == Some(Sent(f.routers[f'.transports[t]], NewTransport(f'.transports[t], t)))))
  }

  lemma GrowthIsPlaced(s: State, f': Forest, sent': seq<Sent>, m: Option<Sent>)
    requires Placed(s) && Grows(s.forest, f', m) && OneWorkerEach(sent')
    requires forall id, w :: Sends(s.sent, id, w) ==> Sends(sent', id, w)
    requires m.Some? ==> forall id :: id in ActsOn(m.value.request) ==> Sends(sent', id, m.value.worker)
    ensures Placed(s.(forest := f', sent := sent'))
  {}

  lemma StepKeepsPlaced(s: State, e: Event)
    requires Placed(s) && (Creates(e) ==> New(s, e.uuid))
    ensures Placed(Step(s, e))
  {
    var s', m := Step(s, e), Message(s, e);
    StepSends(s, e);
    StepPlaces(s, e);
    if m.Some? {
      MessageIsPlaced(s, e);
      ToldKeepsOneWorker(s.sent, m.value.worker, m.value.request);
    }
    GrowthIsPlaced(s, s'.forest, s'.sent, m);
  }

  /** The generator never returns an id that a message has carried. */
  ghost predicate FreshIds(workers: nat, es: seq<Event>) {
    forall i :: 0 <= i < |es| && Creates(es[i]) ==> New(Run(Start(workers), es[..i]), es[i].uuid)
  }

  /** All messages that act on an entity go to one worker, from its creation to its closing. */
  lemma {:induction false} OneWorkerPerEntity(workers: nat, es: seq<Event>)
    requires FreshIds(workers, es)
    ensures Placed(Run(Start(workers), es))
    decreases |es|
  {
    if es != [] {
      var n := |es| - 1;
      assert forall i :: 0 <= i < n ==> es[..n][..i] == es[..i];
      OneWorkerPerEntity(workers, es[..n]);
      StepKeepsPlaced(Run(Start(workers), es[..n]), es[n]);
    }
  }

  // ------------------------------------------------------------------
  // The class
  // ------------------------------------------------------------------

  class SfuBackend {
    var routerToWorker: map<Id, nat>
    var transportToRouter: map<Id, Id>
    var producerToTransport: map<Id, Id>
    var producerKindMap: map<Id, string>
    var consumerToTransport: map<Id, Id>
    var nextWorkerIdx: nat
    var requestIds: seq<uint32>
    var sent: seq<Sent>

    ghost function Abs(): State
      reads this
    {
      State(Tracked(), nextWorkerIdx, requestIds, sent)
    }

    ghost function Tracked(): Forest
      reads this
    {
      Forest(routerToWorker, transportToRouter, producerToTransport, producerKindMap, consumerToTransport)
    }

    /** configured is the number of workers asked for, cores what the hardware reports. */
    constructor (configured: int, cores: nat)
      ensures Abs() == Start(if configured > 0 then configured else if cores > 0 then cores else 1)
    {
      var workers := configured;
      if workers <= 0 {
        workers := cores;
        if workers <= 0 {
          workers := 1;
        }
      }
      routerToWorker, transportToRouter := map[], map[];
      producerToTransport, producerKindMap, consumerToTransport := map[], map[], map[];
      nextWorkerIdx, requestIds, sent := 0, seq(workers, _ => 0), [];
      new;
      assert Abs() == Start(workers);
    }

    method PickWorker() returns (w: int)
      modifies this`nextWorkerIdx
      ensures |requestIds| == 0 ==> w == -1 && nextWorkerIdx == old(nextWorkerIdx)
      ensures |requestIds| > 0 ==> w == old(nextWorkerIdx) % |requestIds| && nextWorkerIdx == old(nextWorkerIdx) + 1
    {
      if |requestIds| == 0 {
        return -1;
      }
      w := nextWorkerIdx % |requestIds|;
      nextWorkerIdx := nextWorkerIdx + 1;
    }

    /** -1 when the router is unknown. */
    method ChannelForRouter(r: Id) returns (w: int)
      ensures w == match WorkerOf(Tracked(), r) case None => -1 case Some(n) => n
    {
      if r !in routerToWorker {
        return -1;
      }
      w := routerToWorker[r];
    }

    method ChannelForTransport(t: Id) returns (w: int)
      ensures w == match WorkerOfTransport(Tracked(), t) case None => -1 case Some(n) => n
    {
      if t !in transportToRouter {
        return -1;
      }
      w := ChannelForRouter(transportToRouter[t]);
    }

    method GenRequestId(w: nat) returns (id: uint32)
      requires w < |requestIds|
      modifies this`requestIds
      ensures Abs() == Drawn(old(Abs()), w) && id == requestIds[w]
    {
      id := NextId(requestIds[w]);
      requestIds := requestIds[w := id];
    }

    /** Hands the request to the channel; the reply is what the channel's request call returns. */
    method Ask(w: nat, id: uint32, request: Request, reply: Option<Response>) returns (ok: bool)
      requires w < |requestIds| && id == requestIds[w]
      modifies this`sent
      ensures Abs() == Told(old(Abs()), w, request) && ok == Accepted(Abs(), w, reply)
    {
      sent := sent + [Sent(w, request)];
      if reply.None? || reply.value.id != id || !reply.value.accepted {
        return false;
      }
      ok := true;
    }

    method CreateRouter(uuid: Option<Id>, reply: Option<Response>) returns (result: Result<Id, SfuError>)
      modifies this
      ensures (Abs(), result) == RouterCreated(old(Abs()), uuid, reply)
    {
      var w := PickWorker();
      if w < 0 {
        return Failure(ServiceUnavailable);
      }
      var id := GenRequestId(w);
      if uuid.None? {
        return Failure(NoUuid);
      }
      var ok := Ask(w, id, NewRouter(uuid.value), reply);
      if !ok {
        return Failure(InternalError);
      }
      routerToWorker := routerToWorker[uuid.value := w];
      result := Success(uuid.value);
    }

    /** The erasing loops of closeRouter and closeTransport, for one transport. */
    method EraseEntities(t: Id)
      modifies this`producerToTransport, this`producerKindMap, this`consumerToTransport
      ensures producerToTransport == old(producerToTransport) - Children(old(producerToTransport), {t})
      ensures producerKindMap == old(producerKindMap) - Children(old(producerToTransport), {t})
      ensures consumerToTransport == old(consumerToTransport) - Children(old(consumerToTransport), {t})
    {
      ghost var producers, consumers := producerToTransport, consumerToTransport;
      var todo := producerToTransport.Keys;
      while todo != {}
        invariant todo <= producers.Keys && consumerToTransport == consumers
        invariant producerToTransport == producers - (Children(producers, {t}) - todo)
        invariant producerKindMap == old(producerKindMap) - (Children(producers, {t}) - todo)
      {
        var p :| p in todo;
        if producerToTransport[p] == t {
          producerKindMap := producerKindMap - {p};
          producerToTransport := producerToTransport - {p};
        }
        todo := todo - {p};
      }
      todo := consumerToTransport.Keys;
      while todo != {}
        invariant todo <= consumers.Keys
        invariant producerToTransport == producers - Children(producers, {t})
        invariant producerKindMap == old(producerKindMap) - Children(producers, {t})
        invariant consumerToTransport == consumers - (Children(consumers, {t}) - todo)
      {
        var c :| c in todo;
        if consumerToTransport[c] == t {
          consumerToTransport := consumerToTransport - {c};
        }
        todo := todo - {c};
      }
    }

    /** The transports of a router, in the order in which the table happens to iterate. */
    method TransportsOf(r: Id) returns (ids: seq<Id>)
      ensures Elements(ids) == Children(transportToRouter, {r})
    {
      ids := [];
      var todo := transportToRouter.Keys;
      while todo != {}
        invariant todo <= transportToRouter.Keys
        invariant Elements(ids) == Children(transportToRouter, {r}) - todo
      {
        var t :| t in todo;
        if transportToRouter[t] == r {
          ElementsOfAppend(ids, t);
          ids := ids + [t];
        }
        todo := todo - {t};
      }
    }

    method EraseTransports(transportIds: seq<Id>)
      modifies this`transportToRouter, this`producerToTransport, this`producerKindMap, this`consumerToTransport
      ensures Tracked() == WithoutTransports(old(Tracked()), Elements(transportIds))
    {
      ghost var f := Tracked();
      var i := 0;
      while i < |transportIds|
        invariant 0 <= i <= |transportIds|
        invariant Tracked() == WithoutTransports(f, Elements(transportIds[..i]))
      {
        ghost var done := transportIds[..i];
        var t := transportIds[i];
        EraseEntities(t);
        transportToRouter := transportToRouter - {t};
        OneMoreTransport(f, Elements(done), t);
        ElementsOfAppend(done, t);
        assert transportIds[..i + 1] == done + [t];
        i := i + 1;
      }
      assert transportIds[..i] == transportIds;
    }

    method CloseRouter(r: Id, reply: Option<Response>)
      requires Sound(Abs())
      modifies this
      ensures Abs() == RouterClosed(old(Abs()), r)
    {
      var w := ChannelForRouter(r);
      if w < 0 {
        return;
      }
      var id := GenRequestId(w);
      var _ := Ask(w, id, EndRouter(r), reply);

      var transportIds := TransportsOf(r);
      EraseTransports(transportIds);
      routerToWorker := routerToWorker - {r};
    }

    method CreateWebRtcTransport(r: Id, uuid: Option<Id>, reply: Option<Response>) returns (result: Result<Id, SfuError>)
      requires Sound(Abs())
      modifies this
      ensures (Abs(), result) == TransportCreated(old(Abs()), r, uuid, reply)
    {
      var w := ChannelForRouter(r);
      if w < 0 {
        return Failure(NotFound);
      }
      var id := GenRequestId(w);
      if uuid.None? {
        return Failure(NoUuid);
      }
      var ok := Ask(w, id, NewTransport(r, uuid.value), reply);
      if !ok {
        return Failure(InternalError);
      }
      transportToRouter := transportToRouter[uuid.value := r];
      result := Success(uuid.value);
    }

    method Produce(t: Id, kind: string, uuid: Option<Id>, reply: Option<Response>) returns (result: Result<Id, SfuError>)
      requires Sound(Abs())
      modifies this
      ensures (Abs(), result) == Produced(old(Abs()), t, kind, uuid, reply)
    {
      var w := ChannelForTransport(t);
      if w < 0 {
        return Failure(NotFound);
      }
      if uuid.None? {
        return Failure(NoUuid);
      }
      var id := GenRequestId(w);
      var ok := Ask(w, id, NewProducer(t, uuid.value, kind), reply);
      if !ok {
        return Failure(InternalError);
      }
      producerToTransport := producerToTransport[uuid.value := t];
      producerKindMap := producerKindMap[uuid.value := kind];
      result := Success(uuid.value);
    }

    method Consume(t: Id, p: Id, uuid: Option<Id>, reply: Option<Response>)
      returns (result: Result<(Id, string), SfuError>)
      requires Sound(Abs())
      modifies this
      ensures (Abs(), result) == Consumed(old(Abs()), t, p, uuid, reply)
    {
      var w := ChannelForTransport(t);
      if w < 0 {
        return Failure(NotFound);
      }
      if uuid.None? {
        return Failure(NoUuid);
      }
      var id := GenRequestId(w);
      var ok := Ask(w, id, NewConsumer(t, uuid.value, p), reply);
      if !ok {
        return Failure(InternalError);
      }
      consumerToTransport := consumerToTransport[uuid.value := t];
      var kind := if p in producerKindMap then producerKindMap[p] else "video";
      result := Success((uuid.value, kind));
    }

    method CloseTransport(t: Id)
      requires Sound(Abs())
      modifies this
      ensures Abs() == TransportClosed(old(Abs()), t)
    {
      var w := ChannelForTransport(t);
      if w < 0 {
        return;
      }
      sent := sent + [Sent(w, EndTransport(t))];
      EraseEntities(t);
      transportToRouter := transportToRouter - {t};
    }
  }

  function Elements(ids: seq<Id>): set<Id> {
    set i | 0 <= i < |ids| :: ids[i]
  }

  lemma ElementsOfAppend(ids: seq<Id>, id: Id)
    ensures Elements(ids + [id]) == Elements(ids) + {id}
  {
    var more := ids + [id];
    assert forall i :: 0 <= i < |ids| ==> more[i] == ids[i];
    assert more[|ids|] == id;
    assert Elements(more) <= Elements(ids) + {id};
    forall x | x in Elements(ids) + {id} ensures x in Elements(more) {
      if x in Elements(ids) {
        var i :| 0 <= i < |ids| && ids[i] == x;
        assert more[i] == x;
      }
    }
  }

  lemma OneMoreTransport(f: Forest, ts: set<Id>, t: Id)
    ensures WithoutTransports(WithoutTransports(f, ts), {t}) == WithoutTransports(f, ts + {t})
  {
    var f' := WithoutTransports(f, ts);
    assert Children(f'.producers, {t}) == Children(f.producers, ts + {t}) - Children(f.producers, ts);
    assert Children(f'.consumers, {t}) == Children(f.consumers, ts + {t}) - Children(f.consumers, ts);
    assert f'.producers - Children(f'.producers, {t}) == f.producers - Children(f.producers, ts + {t});
    assert f'.consumers - Children(f'.consumers, {t}) == f.consumers - Children(f.consumers, ts + {t});
    assert f'.kinds - Children(f'.producers, {t}) == f.kinds - Children(f.producers, ts + {t});
    assert f'.transports - {t} == f.transports - (ts + {t});
  }
}
