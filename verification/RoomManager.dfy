/**
 Rooms: each location owns one router, created on first access and closed with the room.
 */
module RoomManager {
  import opened Wrappers
  import Channels
  import opened SfuBackend
  import opened SfuLog

  type Location = string
  type Reply = Option<Channels.Response>

  datatype RoomInfo = RoomInfo(locationId: Location, routerId: Id, producerCount: nat, consumerCount: nat)

  datatype Site = Site(sfu: State, rooms: map<Location, RoomInfo>)

  datatype RoomEvent =
    | Access(location: Location, uuid: Option<Id>, reply: Reply)
    | Destruction(location: Location)
    | Counts(location: Location, producers: nat, consumers: nat)
    | Media(event: Event)

  function Accessed(s: Site, location: Location, uuid: Option<Id>, reply: Reply): (Site, Result<Id, SfuError>) {
    if location in s.rooms then (s, Success(s.rooms[location].routerId))
    else
      var (sfu, created) := RouterCreated(s.sfu, uuid, reply);
      match created
      case Failure(_) => (s.(sfu := sfu), created)
      case Success(r) => (Site(sfu, s.rooms[location := RoomInfo(location, r, 0, 0)]), created)
  }

  function Destroyed(s: Site, location: Location): Site {
    if location !in s.rooms then s
    else Site(RouterClosed(s.sfu, s.rooms[location].routerId), s.rooms - {location})
  }

  /** Only rooms create and close routers; everything else on the backend goes on freely. */
  predicate LeavesRouters(e: Event) {
    !e.RouterCreation? && !e.RouterClosing?
  }

  function RoomStep(s: Site, e: RoomEvent): Site {
    match e
    case Access(location, uuid, reply) => Accessed(s, location, uuid, reply).0
    case Destruction(location) => Destroyed(s, location)
    case Counts(location, producers, consumers) =>
      if location !in s.rooms then s
      else s.(rooms := s.rooms[location := s.rooms[location].(producerCount := producers, consumerCount := consumers)])
    case Media(event) => if LeavesRouters(event) then s.(sfu := Step(s.sfu, event)) else s
  }

  function RoomRun(workers: nat, es: seq<RoomEvent>): Site
    decreases |es|
  {
    if es == [] then Site(Start(workers), map[])
    else RoomStep(RoomRun(workers, es[..|es| - 1]), es[|es| - 1])
  }

  // ------------------------------------------------------------------
  // One router per room
  // ------------------------------------------------------------------

  /** The rooms and the live routers correspond one to one. */
  ghost predicate OneToOne(rooms: map<Location, RoomInfo>, routers: set<Id>) {
    && (forall l :: l in rooms ==> rooms[l].routerId in routers)
    && (forall l, l' :: l in rooms && l' in rooms && l != l' ==> rooms[l].routerId != rooms[l'].routerId)
    && (forall r :: r in routers ==> exists l :: l in rooms && rooms[l].routerId == r)
  }

  ghost predicate Tidy(s: Site) {
    OneToOne(s.rooms, s.sfu.forest.routers.Keys) && Sound(s.sfu)
  }

  predicate Unused(s: Site, uuid: Option<Id>) {
    uuid.Some? ==> uuid.value !in s.sfu.forest.routers
  }

  lemma AccessKeepsTidy(s: Site, location: Location, uuid: Option<Id>, reply: Reply)
    requires Tidy(s) && Unused(s, uuid)
    ensures Tidy(Accessed(s, location, uuid, reply).0)
  {
    StepKeepsSound(s.sfu, RouterCreation(uuid, reply));
    var s' := Accessed(s, location, uuid, reply).0;
    forall r | r in s'.sfu.forest.routers ensures exists l :: l in s'.rooms && s'.rooms[l].routerId == r {
      if r in s.sfu.forest.routers {
        var l :| l in s.rooms && s.rooms[l].routerId == r;
        assert s'.rooms[l] == s.rooms[l];
      } else {
        assert s'.rooms[location].routerId == r;
      }
    }
  }

  lemma DestructionKeepsTidy(s: Site, location: Location)
    requires Tidy(s)
    ensures Tidy(Destroyed(s, location))
  {
    var s' := Destroyed(s, location);
    if location in s.rooms {
      StepKeepsSound(s.sfu, RouterClosing(s.rooms[location].routerId));
      forall r | r in s'.sfu.forest.routers ensures exists l :: l in s'.rooms && s'.rooms[l].routerId == r {
        var l :| l in s.rooms && s.rooms[l].routerId == r;
        assert l in s'.rooms;
      }
    }
  }

  lemma CountsKeepTidy(s: Site, location: Location, producers: nat, consumers: nat)
    requires Tidy(s)
    ensures Tidy(RoomStep(s, Counts(location, producers, consumers)))
  {
    var s' := RoomStep(s, Counts(location, producers, consumers));
    forall r | r in s'.sfu.forest.routers ensures exists l :: l in s'.rooms && s'.rooms[l].routerId == r {
      var l :| l in s.rooms && s.rooms[l].routerId == r;
      assert s'.rooms[l].routerId == r;
    }
  }

  lemma MediaLeavesRouters(s: State, e: Event)
    requires LeavesRouters(e)
    ensures Step(s, e).forest.routers == s.forest.routers
  {}

  lemma MediaKeepsTidy(s: Site, e: Event)
    requires Tidy(s)
    ensures Tidy(RoomStep(s, Media(e)))
  {
    if LeavesRouters(e) {
      StepKeepsSound(s.sfu, e);
      MediaLeavesRouters(s.sfu, e);
    }
  }

  lemma StepKeepsTidy(s: Site, e: RoomEvent)
    requires Tidy(s) && (e.Access? ==> Unused(s, e.uuid))
    ensures Tidy(RoomStep(s, e))
  {
    match e {
      case Access(location, uuid, reply) => AccessKeepsTidy(s, location, uuid, reply);
      case Destruction(location) => DestructionKeepsTidy(s, location);
      case Counts(location, producers, consumers) => CountsKeepTidy(s, location, producers, consumers);
      case Media(event) => MediaKeepsTidy(s, event);
    }
  }

  /** Each location and each live router have one another to themselves, in every run. */
  lemma {:induction false} RoomsAndRoutersCorrespond(workers: nat, es: seq<RoomEvent>)
    requires forall i :: 0 <= i < |es| && es[i].Access? ==> Unused(RoomRun(workers, es[..i]), es[i].uuid)
    ensures Tidy(RoomRun(workers, es))
    decreases |es|
  {
    if es != [] {
      var n := |es| - 1;
      assert forall i :: 0 <= i < n ==> es[..n][..i] == es[..i];
      RoomsAndRoutersCorrespond(workers, es[..n]);
      StepKeepsTidy(RoomRun(workers, es[..n]), es[n]);
    }
  }

  /** An id in use is the one way to break this: two rooms then share a router. */
  lemma AccessKeepsOneToOneIff(s: Site, location: Location, uuid: Option<Id>, reply: Reply)
    requires Tidy(s) && location !in s.rooms && Accessed(s, location, uuid, reply).1.Success?
    ensures var s' := Accessed(s, location, uuid, reply).0;
            OneToOne(s'.rooms, s'.sfu.forest.routers.Keys) <==> Unused(s, uuid)
  {
    var s' := Accessed(s, location, uuid, reply).0;
    if Unused(s, uuid) {
      AccessKeepsTidy(s, location, uuid, reply);
    } else {
      var l :| l in s.rooms && s.rooms[l].routerId == uuid.value;
      assert s'.rooms[l].routerId == s'.rooms[location].routerId;
    }
  }

  // ------------------------------------------------------------------
  // The rooms, told from the calls
  // ------------------------------------------------------------------

  /** The router of a location: that of the first access that created one since the room was last destroyed. */
  function RoomHome(workers: nat, es: seq<RoomEvent>, l: Location): Option<Id>
    decreases |es|
  {
    if es == [] then None
    else
      var before, e := es[..|es| - 1], es[|es| - 1];
      var home := RoomHome(workers, before, l);
      if e == Destruction(l) then None
      else if e.Access? && e.location == l && home.None? && CreatesRouter(RoomRun(workers, before).sfu, e.uuid, e.reply) then e.uuid
      else home
  }

  /** There is a worker and a UUID, and the worker accepts the request. */
  predicate CreatesRouter(s: State, uuid: Option<Id>, reply: Reply) {
    SucceedsNow(s, RouterCreation(uuid, reply))
  }

  function HomeIn(s: Site, l: Location): Option<Id> {
    if l in s.rooms then Some(s.rooms[l].routerId) else None
  }

  lemma HomeAfter(s: Site, e: RoomEvent, l: Location)
    requires Sound(s.sfu)
    ensures HomeIn(RoomStep(s, e), l) ==
              if e == Destruction(l) then None
              else if e.Access? && e.location == l && l !in s.rooms && CreatesRouter(s.sfu, e.uuid, e.reply) then e.uuid
              else HomeIn(s, l)
  {
    if e.Access? { RouterCreationTracks(s.sfu, e.uuid, e.reply); }
  }

  lemma RoomStepKeepsSound(s: Site, e: RoomEvent)
    requires Sound(s.sfu)
    ensures Sound(RoomStep(s, e).sfu) && |RoomStep(s, e).sfu.nextIds| == |s.sfu.nextIds|
  {
    match e {
      case Access(_, uuid, reply) => StepKeepsSound(s.sfu, RouterCreation(uuid, reply));
      case Destruction(l) => if l in s.rooms { StepKeepsSound(s.sfu, RouterClosing(s.rooms[l].routerId)); }
      case Media(event) => StepKeepsSound(s.sfu, event);
      case _ =>
    }
  }

  /** In every run the rooms are exactly those, ids in use included. */
  lemma {:induction false} RoomsAreAsLogged(workers: nat, es: seq<RoomEvent>, l: Location)
    ensures HomeIn(RoomRun(workers, es), l) == RoomHome(workers, es, l)
    ensures Sound(RoomRun(workers, es).sfu) && |RoomRun(workers, es).sfu.nextIds| == workers
    decreases |es|
  {
    if es != [] {
      var before, e := es[..|es| - 1], es[|es| - 1];
      RoomsAreAsLogged(workers, before, l);
      HomeAfter(RoomRun(workers, before), e, l);
      RoomStepKeepsSound(RoomRun(workers, before), e);
    }
  }

  /**
   An access to a location that has a room returns its router and asks the backend for
   nothing; another returns the router it creates, or why there is none.
   */
  lemma AccessReturns(workers: nat, es: seq<RoomEvent>, l: Location, uuid: Option<Id>, reply: Reply)
    ensures var s, home := RoomRun(workers, es), RoomHome(workers, es, l);
            var (s', result) := Accessed(s, l, uuid, reply);
            match home
            case Some(r) => result == Success(r) && s' == s
            case None =>
              && s'.sfu == RouterCreated(s.sfu, uuid, reply).0
              && if CreatesRouter(s.sfu, uuid, reply) then result == Success(uuid.value)
                 else result == Failure(if workers == 0 then ServiceUnavailable else if uuid.None? then NoUuid else InternalError)
  {
    var s := RoomRun(workers, es);
    RoomsAreAsLogged(workers, es, l);
    RouterCreationTracks(s.sfu, uuid, reply);
  }

  // ------------------------------------------------------------------
  // Shutting down
  // ------------------------------------------------------------------

  function RoutersOf(rooms: map<Location, RoomInfo>, locations: set<Location>): set<Id> {
    set l | l in locations && l in rooms :: rooms[l].routerId
  }

  lemma OneMoreRoom(rooms: map<Location, RoomInfo>, routers: seq<Id>, done: set<Location>, l: Location)
    requires Elements(routers) == RoutersOf(rooms, done) && l in rooms
    ensures Elements(routers + [rooms[l].routerId]) == RoutersOf(rooms, done + {l})
  {
    ElementsOfAppend(routers, rooms[l].routerId);
  }

  lemma OneMoreClosed(s: State, routers: seq<Id>, r: Id)
    ensures ClosedAll(s, routers + [r]) == RouterClosed(ClosedAll(s, routers), r)
  {
    assert (routers + [r])[..|routers|] == routers;
  }

  function ClosedAll(s: State, routers: seq<Id>): State {
    if routers == [] then s else RouterClosed(ClosedAll(s, routers[..|routers| - 1]), routers[|routers| - 1])
  }

  lemma {:induction false} ClosedAllRouters(s: State, routers: seq<Id>)
    requires Sound(s)
    ensures Sound(ClosedAll(s, routers))
    ensures ClosedAll(s, routers).forest.routers == s.forest.routers - Elements(routers)
  {
    if routers != [] {
      var n := |routers| - 1;
      ClosedAllRouters(s, routers[..n]);
      StepKeepsSound(ClosedAll(s, routers[..n]), RouterClosing(routers[n]));
      assert routers == routers[..n] + [routers[n]];
      ElementsOfAppend(routers[..n], routers[n]);
    }
  }

  /** The destructor leaves nothing behind: no router, transport, producer or consumer. */
  lemma ShutdownEmptiesTheForest(s: Site, routers: seq<Id>)
    requires Tidy(s) && Elements(routers) == RoutersOf(s.rooms, s.rooms.Keys)
    ensures ClosedAll(s.sfu, routers).forest == NoEntities
  {
    ClosedAllRouters(s.sfu, routers);
    var f := ClosedAll(s.sfu, routers).forest;
    forall r | r in s.sfu.forest.routers ensures r in Elements(routers) {
      var l :| l in s.rooms && s.rooms[l].routerId == r;
    }
    assert f.routers == map[];
    NoRoutersNoEntities(f, |ClosedAll(s.sfu, routers).nextIds|);
  }

  lemma NoRoutersNoEntities(f: Forest, workers: nat)
    requires Rooted(f, workers) && f.routers == map[]
    ensures f == NoEntities
  {
    if f.transports != map[] { HasValue(f.transports); }
    if f.producers != map[] { HasValue(f.producers); }
    if f.consumers != map[] { HasValue(f.consumers); }
  }

  lemma HasValue(m: map<Id, Id>)
    requires m != map[]
    ensures m.Values != {}
  {
    var k :| k in m;
    assert m[k] in m.Values;
  }

  // ------------------------------------------------------------------
  // The class
  // ------------------------------------------------------------------

  class RoomManager {
    const backend: SfuBackend
    var rooms: map<Location, RoomInfo>

    ghost function Abs(): Site
      reads this, backend
    {
      Site(backend.Abs(), rooms)
    }

    constructor (backend: SfuBackend)
      ensures this.backend == backend && Abs() == Site(backend.Abs(), map[])
    {
      this.backend, rooms := backend, map[];
    }

    method GetOrCreateRouter(location: Location, uuid: Option<Id>, reply: Reply) returns (result: Result<Id, SfuError>)
      requires Sound(backend.Abs())
      modifies this, backend
      ensures (Abs(), result) == Accessed(old(Abs()), location, uuid, reply)
    {
      if location in rooms {
        return Success(rooms[location].routerId);
      }
      result := backend.CreateRouter(uuid, reply);
      if result.Failure? {
        return;
      }
      rooms := rooms[location := RoomInfo(location, result.value, 0, 0)];
    }

    method DestroyRoom(location: Location, reply: Reply)
      requires Sound(backend.Abs())
      modifies this, backend
      ensures Abs() == Destroyed(old(Abs()), location)
    {
      if location !in rooms {
        return;
      }
      backend.CloseRouter(rooms[location].routerId, reply);
      rooms := rooms - {location};
    }

    method AddProducer(location: Location)
      modifies this`rooms
      ensures rooms == if location in old(rooms) then
                old(rooms)[location := old(rooms)[location].(producerCount := old(rooms)[location].producerCount + 1)]
              else old(rooms)
    {
      if location in rooms {
        rooms := rooms[location := rooms[location].(producerCount := rooms[location].producerCount + 1)];
      }
    }

    method RemoveProducer(location: Location)
      modifies this`rooms
      ensures rooms == if location in old(rooms) && old(rooms)[location].producerCount > 0 then
                old(rooms)[location := old(rooms)[location].(producerCount := old(rooms)[location].producerCount - 1)]
              else old(rooms)
    {
      if location in rooms && rooms[location].producerCount > 0 {
        rooms := rooms[location := rooms[location].(producerCount := rooms[location].producerCount - 1)];
      }
    }

    /** The destructor: replies are what the workers answer, in whatever order the rooms are visited. */
    method Shutdown(replies: map<Location, Reply>)
      requires Tidy(Abs())
      modifies this, backend
      ensures rooms == map[] && backend.Tracked() == NoEntities
    {
      ghost var start := Abs();
      ghost var routers: seq<Id> := [];
      var todo := rooms.Keys;
      while todo != {}
        invariant todo <= rooms.Keys && rooms == start.rooms
        invariant Elements(routers) == RoutersOf(rooms, rooms.Keys - todo)
        invariant backend.Abs() == ClosedAll(start.sfu, routers) && Sound(backend.Abs())
      {
        var l :| l in todo;
        var r := rooms[l].routerId;
        OneMoreRoom(rooms, routers, rooms.Keys - todo, l);
        OneMoreClosed(start.sfu, routers, r);
        StepKeepsSound(backend.Abs(), RouterClosing(r));
        backend.CloseRouter(r, if l in replies then replies[l] else None);
        routers := routers + [r];
        assert rooms.Keys - (todo - {l}) == rooms.Keys - todo + {l};
        todo := todo - {l};
      }
      assert rooms.Keys - todo == rooms.Keys;
      ShutdownEmptiesTheForest(start, routers);
      rooms := map[];
    }
  }
}
