/**
 The connection pool: tokens with a host, bounded in number over all hosts and for
 each, and evicted by age.

 Every public method runs under one mutex, so each is one step. Clock readings and
 the UUID generator's result are parameters.
 */
module ConnectionPool {
  import opened Wrappers

  type Token = string
  type Host = string
  type Time = int

  datatype PoolError = ConnectionLimitReached | InternalError

  datatype Limits = Limits(perHost: int, global: int, lifetime: Time, idle: Time)

  datatype Entry = Entry(hostname: Host, port: int, createdAt: Time, lastUsedAt: Time, idle: bool)

  type Pool = map<Token, Entry>

  function OfHost(p: Pool, host: Host): set<Token> {
    set t | t in p && p[t].hostname == host
  }

  function Hosts(p: Pool): set<Host> {
    set t | t in p :: p[t].hostname
  }

  predicate Full(p: Pool, limits: Limits, host: Host) {
    |p| >= limits.global || |OfHost(p, host)| >= limits.perHost
  }

  /** A token that is in use keeps its entry, although it is handed out again. */
  function Acquired(p: Pool, limits: Limits, host: Host, port: int, uuid: Option<Token>, now: Time)
    : (Pool, Result<Token, PoolError>)
  {
    if Full(p, limits, host) then (p, Failure(ConnectionLimitReached))
    else if uuid.None? then (p, Failure(InternalError))
    else if uuid.value in p then (p, Success(uuid.value))
    else (p[uuid.value := Entry(host, port, now, now, false)], Success(uuid.value))
  }

  function Released(p: Pool, token: Token, now: Time): Pool {
    if token in p then p[token := p[token].(idle := true, lastUsedAt := now)] else p
  }

  predicate Expired(e: Entry, limits: Limits, now: Time) {
    now - e.createdAt > limits.lifetime || (e.idle && now - e.lastUsedAt > limits.idle)
  }

  function Evicted(p: Pool, limits: Limits, now: Time): Pool {
    map t | t in p && !Expired(p[t], limits, now) :: p[t]
  }

  datatype Event =
    | Acquire(host: Host, port: int, uuid: Option<Token>, now: Time)
    | Release(token: Token, now: Time)
    | Evict(now: Time)

  function Step(p: Pool, limits: Limits, e: Event): Pool {
    match e
    case Acquire(host, port, uuid, now) => Acquired(p, limits, host, port, uuid, now).0
    case Release(token, now) => Released(p, token, now)
    case Evict(now) => Evicted(p, limits, now)
  }

  function Run(limits: Limits, es: seq<Event>): Pool
    decreases |es|
  {
    if es == [] then map[] else Step(Run(limits, es[..|es| - 1]), limits, es[|es| - 1])
  }

  // ------------------------------------------------------------------
  // The limits
  // ------------------------------------------------------------------

  ghost predicate WithinLimits(p: Pool, limits: Limits) {
    && (p != map[] ==> |p| <= limits.global)
    && (forall h :: OfHost(p, h) != {} ==> |OfHost(p, h)| <= limits.perHost)
  }

  lemma Subset<T>(a: set<T>, b: set<T>)
    requires a <= b
    ensures |a| <= |b|
  {
    if a != {} {
      var x :| x in a;
      Subset(a - {x}, b - {x});
    }
  }

  lemma AcquireKeepsLimits(p: Pool, limits: Limits, host: Host, port: int, uuid: Option<Token>, now: Time)
    requires WithinLimits(p, limits)
    ensures WithinLimits(Acquired(p, limits, host, port, uuid, now).0, limits)
  {
    if !Full(p, limits, host) && uuid.Some? && uuid.value !in p {
      var p' := p[uuid.value := Entry(host, port, now, now, false)];
      forall h | OfHost(p', h) != {} ensures |OfHost(p', h)| <= limits.perHost {
        OfHostAfterInsertion(p, uuid.value, Entry(host, port, now, now, false), h);
      }
    }
  }

  lemma OfHostAfterInsertion(p: Pool, token: Token, e: Entry, host: Host)
    requires token !in p
    ensures OfHost(p[token := e], host) == if host == e.hostname then OfHost(p, host) + {token} else OfHost(p, host)
    ensures |OfHost(p[token := e], host)| == |OfHost(p, host)| + if host == e.hostname then 1 else 0
  {
    assert OfHost(p[token := e], host) == if host == e.hostname then OfHost(p, host) + {token} else OfHost(p, host);
  }

  lemma StepKeepsLimits(p: Pool, limits: Limits, e: Event)
    requires WithinLimits(p, limits)
    ensures WithinLimits(Step(p, limits, e), limits)
  {
    var p' := Step(p, limits, e);
    match e {
      case Acquire(host, port, uuid, now) => AcquireKeepsLimits(p, limits, host, port, uuid, now);
      case Release(token, now) =>
        assert p'.Keys == p.Keys;
        assert |p'.Keys| == |p'|;
        forall h ensures OfHost(p', h) == OfHost(p, h) {}
      case Evict(now) =>
        Subset(p'.Keys, p.Keys);
        assert |p'.Keys| == |p'| && |p.Keys| == |p|;
        forall h | OfHost(p', h) != {} ensures |OfHost(p', h)| <= limits.perHost {
          Subset(OfHost(p', h), OfHost(p, h));
          assert OfHost(p, h) != {};
        }
    }
  }

  lemma {:induction false} RunIsWithinLimits(limits: Limits, es: seq<Event>)
    ensures WithinLimits(Run(limits, es), limits)
    decreases |es|
  {
    if es != [] {
      RunIsWithinLimits(limits, es[..|es| - 1]);
      StepKeepsLimits(Run(limits, es[..|es| - 1]), limits, es[|es| - 1]);
    }
  }

  lemma WithoutHost(p: Pool, h: Host)
    requires h in Hosts(p)
    ensures var others := p - OfHost(p, h);
            && Hosts(others) == Hosts(p) - {h}
            && |Hosts(p)| == |Hosts(others)| + 1
            && |p| == |others| + |OfHost(p, h)|
            && OfHost(p, h) != {}
  {
    var mine := OfHost(p, h);
    var others := p - mine;
    assert |p.Keys| == |others.Keys| + |mine| by {
      assert p.Keys == others.Keys + mine && others.Keys !! mine;
    }
    assert |p| == |p.Keys| && |others| == |others.Keys|;
    forall g | g in Hosts(p) && g != h ensures g in Hosts(others) {
      var t :| t in p && p[t].hostname == g;
      assert t in others && others[t].hostname == g;
    }
    assert Hosts(others) == Hosts(p) - {h};
    var t :| t in p && p[t].hostname == h;
    assert t in mine;
  }

  /** Every host has at least one entry and at most perHost of them. */
  lemma {:induction false} HostsBoundEntries(p: Pool, perHost: nat)
    requires forall h :: |OfHost(p, h)| <= perHost
    ensures |Hosts(p)| <= |p| <= |Hosts(p)| * perHost
    decreases |p|
  {
    if p != map[] {
      var t :| t in p;
      var h := p[t].hostname;
      WithoutHost(p, h);
      var others := p - OfHost(p, h);
      forall g ensures |OfHost(others, g)| <= perHost {
        Subset(OfHost(others, g), OfHost(p, g));
      }
      HostsBoundEntries(others, perHost);
      OneMore(|Hosts(others)|, perHost);
    }
  }

  lemma OneMore(n: nat, m: nat)
    ensures (n + 1) * m == n * m + m
  {}

  /** In every run the pool respects both limits, and its size lies between its host count and that times perHost. */
  lemma PoolIsBounded(limits: Limits, es: seq<Event>)
    ensures var p := Run(limits, es);
            && (p != map[] ==> |p| <= limits.global)
            && (forall h :: OfHost(p, h) != {} ==> |OfHost(p, h)| <= limits.perHost)
            && |Hosts(p)| <= |p| <= |Hosts(p)| * limits.perHost
  {
    var p := Run(limits, es);
    RunIsWithinLimits(limits, es);
    if p == map[] {
      assert Hosts(p) == {};
    } else {
      var t :| t in p;
      assert t in OfHost(p, p[t].hostname);
      forall h ensures |OfHost(p, h)| <= limits.perHost {}
      HostsBoundEntries(p, limits.perHost);
    }
  }

  /** Releasing makes no room: the next acquire ends as it would have without the release. */
  lemma ReleaseMakesNoRoom(p: Pool, limits: Limits, token: Token, at: Time,
                           host: Host, port: int, uuid: Option<Token>, now: Time)
    ensures Acquired(Released(p, token, at), limits, host, port, uuid, now).1
         == Acquired(p, limits, host, port, uuid, now).1
  {
    var p' := Released(p, token, at);
    assert p'.Keys == p.Keys && |p'.Keys| == |p'| && |p.Keys| == |p|;
    assert OfHost(p', host) == OfHost(p, host);
  }

  lemma ProperSubset<T>(a: set<T>, b: set<T>, x: T)
    requires a <= b && x in b && x !in a
    ensures |a| < |b|
  {
    Subset(a, b - {x});
  }

  /**
   A released entry does make room once an eviction finds it idle for too long: in any
   reachable pool, the next acquire for its host is then granted.
   */
  lemma EvictionMakesRoom(limits: Limits, es: seq<Event>, token: Token, at: Time, evictedAt: Time,
                          port: int, uuid: Token, now: Time)
    requires token in Run(limits, es) && evictedAt - at > limits.idle
    ensures var p := Run(limits, es);
            var p' := Evicted(Released(p, token, at), limits, evictedAt);
            var host := p[token].hostname;
            token !in p' && Acquired(p', limits, host, port, Some(uuid), now).1 == Success(uuid)
  {
    RunIsWithinLimits(limits, es);
    var p := Run(limits, es);
    var p' := Evicted(Released(p, token, at), limits, evictedAt);
    var host := p[token].hostname;
    ProperSubset(p'.Keys, p.Keys, token);
    assert |p'| == |p'.Keys| && |p| == |p.Keys|;
    assert token in OfHost(p, host);
    ProperSubset(OfHost(p', host), OfHost(p, host), token);
  }

  /** The hosts of entries in use. */
  function ActiveHosts(p: Pool): set<Host> {
    set t | t in p && !p[t].idle :: p[t].hostname
  }

  predicate InUse(p: Pool, host: Host) {
    exists t :: t in p && p[t].hostname == host && !p[t].idle
  }

  /** Every host has an entry in use. */
  predicate EveryHostIsActive(p: Pool) {
    forall h :: h in Hosts(p) ==> InUse(p, h)
  }

  lemma ActiveIffInUse(p: Pool, host: Host)
    ensures host in ActiveHosts(p) <==> InUse(p, host)
  {}

  lemma ActiveHostsAreAllIff(p: Pool)
    ensures ActiveHosts(p) <= Hosts(p)
    ensures ActiveHosts(p) == Hosts(p) <==> EveryHostIsActive(p)
  {
    forall h ensures h in ActiveHosts(p) <==> InUse(p, h) {
      ActiveIffInUse(p, h);
    }
  }

  lemma SameSize<T>(a: set<T>, b: set<T>)
    requires a <= b
    ensures |a| == |b| <==> a == b
  {
    if a != b {
      var x :| x in b && x !in a;
      ProperSubset(a, b, x);
    }
  }

  /**
   hostCount is documented as the number of hosts with active connections. It is that
   exactly when every host has an entry in use.
   */
  lemma HostCountIsActiveIff(p: Pool)
    ensures |Hosts(p)| == |ActiveHosts(p)| <==> EveryHostIsActive(p)
  {
    ActiveHostsAreAllIff(p);
    SameSize(ActiveHosts(p), Hosts(p));
  }

  /** One acquire and one release: a host is counted, and none has an active connection. */
  lemma IdleHostIsCounted(limits: Limits, host: Host, port: int, token: Token, now: Time, later: Time)
    requires limits.global > 0 && limits.perHost > 0
    ensures var p := Run(limits, [Acquire(host, port, Some(token), now), Release(token, later)]);
            |Hosts(p)| == 1 && ActiveHosts(p) == {}
  {
    var es := [Acquire(host, port, Some(token), now), Release(token, later)];
    assert es[..1] == [es[0]] && es[..1][..0] == [];
    assert OfHost(map[], host) == {};
    var entry := Entry(host, port, now, now, false);
    assert Run(limits, es[..1]) == map[token := entry];
    var p := Run(limits, es);
    assert p == map[token := entry.(idle := true, lastUsedAt := later)];
    assert Hosts(p) == {host};
  }

  /** A granted token stands for the host and port asked for exactly when it was not in use for others. */
  lemma GrantIsForTheCallerIff(p: Pool, limits: Limits, host: Host, port: int, token: Token, now: Time)
    requires !Full(p, limits, host)
    ensures var (p', r) := Acquired(p, limits, host, port, Some(token), now);
            && r == Success(token) && token in p'
            && (p'[token].hostname == host && p'[token].port == port
                <==> (token in p ==> p[token].hostname == host && p[token].port == port))
  {}

  // ------------------------------------------------------------------
  // The pool, told from the calls
  // ------------------------------------------------------------------

  /** Neither the pool nor the host has reached its limit. */
  predicate HasRoom(p: Pool, limits: Limits, host: Host) {
    && |p| < limits.global
    && |set t | t in p && p[t].hostname == host| < limits.perHost
  }

  /** The entry of a token: made when it is granted anew, idle since its last release, gone once it is too old or idle too long. */
  function EntryOf(limits: Limits, es: seq<Event>, token: Token): Option<Entry>
    decreases |es|
  {
    if es == [] then None
    else
      var before, e := es[..|es| - 1], es[|es| - 1];
      var entry := EntryOf(limits, before, token);
      match e
      case Acquire(host, port, uuid, now) =>
        if uuid == Some(token) && entry.None? && HasRoom(Run(limits, before), limits, host) then
          Some(Entry(host, port, now, now, false))
        else entry
      case Release(t, now) =>
        if t == token && entry.Some? then Some(entry.value.(idle := true, lastUsedAt := now)) else entry
      case Evict(now) =>
        if entry.None? then None
        else if entry.value.createdAt + limits.lifetime < now then None
        else if entry.value.idle && entry.value.lastUsedAt + limits.idle < now then None
        else entry
  }

  function At(p: Pool, token: Token): Option<Entry> {
    if token in p then Some(p[token]) else None
  }

  lemma RoomIff(p: Pool, limits: Limits, host: Host)
    ensures HasRoom(p, limits, host) <==> !Full(p, limits, host)
  {
    assert OfHost(p, host) == set t | t in p && p[t].hostname == host;
  }

  lemma EntryAfter(p: Pool, limits: Limits, e: Event, token: Token)
    ensures At(Step(p, limits, e), token) ==
              match e
              case Acquire(host, port, uuid, now) =>
                if uuid == Some(token) && token !in p && HasRoom(p, limits, host) then Some(Entry(host, port, now, now, false))
                else At(p, token)
              case Release(t, now) =>
                if t == token && token in p then Some(p[token].(idle := true, lastUsedAt := now)) else At(p, token)
              case Evict(now) =>
                if token in p && (p[token].createdAt + limits.lifetime < now
                                  || (p[token].idle && p[token].lastUsedAt + limits.idle < now)) then None
                else At(p, token)
  {
    if e.Acquire? { RoomIff(p, limits, e.host); }
  }

  /** In every run the pool holds exactly those entries. */
  lemma {:induction false} PoolIsAsLogged(limits: Limits, es: seq<Event>, token: Token)
    ensures At(Run(limits, es), token) == EntryOf(limits, es, token)
    decreases |es|
  {
    if es != [] {
      PoolIsAsLogged(limits, es[..|es| - 1], token);
      EntryAfter(Run(limits, es[..|es| - 1]), limits, es[|es| - 1], token);
    }
  }

  /** An acquire hands out the new token whenever there is room, and otherwise says what is missing. */
  lemma AcquireReturns(p: Pool, limits: Limits, host: Host, port: int, uuid: Option<Token>, now: Time)
    ensures Acquired(p, limits, host, port, uuid, now).1 ==
              if !HasRoom(p, limits, host) then Failure(ConnectionLimitReached)
              else match uuid case None => Failure(InternalError) case Some(token) => Success(token)
  {
    RoomIff(p, limits, host);
  }

  // ------------------------------------------------------------------
  // The class
  // ------------------------------------------------------------------

  class ConnectionPool {
    const limits: Limits
    var entries: Pool

    constructor (limits: Limits)
      ensures this.limits == limits && entries == map[]
    {
      this.limits, entries := limits, map[];
    }

    method Acquire(host: Host, port: int, uuid: Option<Token>, now: Time) returns (r: Result<Token, PoolError>)
      modifies this`entries
      ensures (entries, r) == Acquired(old(entries), limits, host, port, uuid, now)
    {
      if |entries| >= limits.global {
        return Failure(ConnectionLimitReached);
      }
      var n := CountHost(host);
      if n >= limits.perHost {
        return Failure(ConnectionLimitReached);
      }
      if uuid.None? {
        return Failure(InternalError);
      }
      if uuid.value !in entries {
        entries := entries[uuid.value := Entry(host, port, now, now, false)];
      }
      r := Success(uuid.value);
    }

    method CountHost(host: Host) returns (n: nat)
      ensures n == |OfHost(entries, host)|
    {
      n := 0;
      var todo := entries.Keys;
      ghost var counted: set<Token> := {};
      while todo != {}
        invariant todo <= entries.Keys && n == |counted|
        invariant counted == set t | t in entries.Keys - todo && entries[t].hostname == host
      {
        var t :| t in todo;
        if entries[t].hostname == host {
          counted := counted + {t};
          n := n + 1;
        }
        todo := todo - {t};
      }
      assert counted == OfHost(entries, host);
    }

    method Release(token: Token, now: Time)
      modifies this`entries
      ensures entries == Released(old(entries), token, now)
    {
      if token !in entries {
        return;
      }
      entries := entries[token := entries[token].(idle := true)];
      entries := entries[token := entries[token].(lastUsedAt := now)];
    }

    /** Whatever the order of iteration, exactly the expired entries go. */
    method EvictExpired(now: Time)
      modifies this`entries
      ensures entries == Evicted(old(entries), limits, now)
    {
      ghost var before := entries;
      var todo := entries.Keys;
      while todo != {}
        invariant todo <= before.Keys
        invariant forall t :: t in entries <==> t in before && (t in todo || !Expired(before[t], limits, now))
        invariant forall t :: t in entries ==> entries[t] == before[t]
      {
        var t :| t in todo;
        var lifetimeExpired := now - entries[t].createdAt > limits.lifetime;
        var idleExpired := entries[t].idle && now - entries[t].lastUsedAt > limits.idle;
        if lifetimeExpired || idleExpired {
          entries := entries - {t};
        }
        todo := todo - {t};
      }
    }

    method ActiveCount() returns (n: nat)
      ensures n == |set t | t in entries && !entries[t].idle|
    {
      n := 0;
      var todo := entries.Keys;
      ghost var counted: set<Token> := {};
      while todo != {}
        invariant todo <= entries.Keys && n == |counted|
        invariant counted == set t | t in entries.Keys - todo && !entries[t].idle
      {
        var t :| t in todo;
        if !entries[t].idle {
          counted := counted + {t};
          n := n + 1;
        }
        todo := todo - {t};
      }
      assert counted == set t | t in entries && !entries[t].idle;
    }

    /** The hosts of all entries, idle ones too. */
    method HostCount() returns (n: nat)
      ensures n == |Hosts(entries)|
    {
      var hosts: set<Host> := {};
      var todo := entries.Keys;
      while todo != {}
        invariant todo <= entries.Keys
        invariant hosts == set t | t in entries.Keys - todo :: entries[t].hostname
      {
        var t :| t in todo;
        hosts := hosts + {entries[t].hostname};
        todo := todo - {t};
      }
      assert hosts == Hosts(entries);
      n := |hosts|;
    }
  }
}
