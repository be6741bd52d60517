/**
 The request/reply channel between the server and one mediasoup worker.

 `Channel` is the shared state with every object named by the call that owns
 it, and `WorkerChannel` is the class that updates it in place. The protocol
 module runs the channel's critical sections in every interleaving.
 */
module Channels {
  import opened Wrappers
  import opened Arithmetic

  const ID_SPACE := 0x1_0000_0000
  type uint32 = n: nat | n < ID_SPACE
  type Bytes = seq<bv8>

  /** A FlatBuffers response, reduced to what the channel and its callers read. */
  datatype Response = Response(id: uint32, accepted: bool, bytes: Bytes)

  /** An outgoing message; `origin` names the call that sent a request and is not on the wire. */
  datatype Message = Message(data: Bytes, origin: Option<nat>)

  /** What a waiting call and the worker share. */
  datatype Slot = Slot(response: Option<Response>, completed: bool)

  datatype Channel = Channel(
    nextId: uint32,
    closed: bool,
    pending: map<uint32, nat>,
    slots: map<nat, Slot>,
    out: seq<Message>)

  const Fresh := Channel(0, false, map[], map[], [])

  function Increment(n: uint32): uint32 {
    (n + 1) % ID_SPACE
  }

  function NextId(n: uint32): uint32 {
    var id := Increment(n);
    if id == 0 then Increment(id) else id
  }

  function WithPending(ch: Channel, id: uint32, call: nat): Channel {
    ch.(pending := ch.pending[id := call], slots := ch.slots[call := Slot(None, false)])
  }

  function Pushed(ch: Channel, m: Message): Channel {
    ch.(out := ch.out + [m])
  }

  function Popped(ch: Channel): Channel
    requires ch.out != []
  {
    ch.(out := ch.out[1..])
  }

  function Resolved(ch: Channel, call: nat, r: Response): Channel {
    ch.(slots := ch.slots[call := Slot(Some(r), true)])
  }

  function WithoutPending(ch: Channel, id: uint32): Channel {
    ch.(pending := ch.pending - {id})
  }

  /** Completes the slot of every pending entry, without a response. */
  function AllCompleted(ch: Channel): Channel {
    ch.(slots := map c | c in ch.slots ::
                   if c in ch.pending.Values then ch.slots[c].(completed := true) else ch.slots[c])
  }

  // ------------------------------------------------------------------
  // Request ids
  // ------------------------------------------------------------------

  /** The k-th id generated from a counter value. */
  function Generated(n: uint32, k: nat): uint32 {
    if k == 0 then n else NextId(Generated(n, k - 1))
  }

  const PERIOD := ID_SPACE - 1

  lemma NextIdIs(n: uint32)
    ensures NextId(n) == if n == PERIOD then 1 else n + 1
  {}

  lemma {:induction false} GeneratedIs(n: uint32, k: nat, m: nat)
    requires k >= 1 && m == PERIOD
    ensures Generated(n, k) == 1 + (n + k - 1) % m
  {
    if k == 1 {
      NextIdIs(n);
      if n < m { MultipleModulo(0, m, n); } else { MultipleModulo(1, m, 0); }
    } else {
      GeneratedIs(n, k - 1, m);
      NextIdIs(Generated(n, k - 1));
      SuccessorModulo(n + k - 2, m);
    }
  }

  /** Any 2^32 - 1 consecutive ids are non-zero and distinct, and the next one repeats the first. */
  lemma GeneratedIdsDistinct(n: uint32, i: nat, j: nat)
    requires 1 <= i < j <= i + 0xFFFF_FFFF
    ensures Generated(n, i) != 0
    ensures Generated(n, i) == Generated(n, j) <==> j == i + 0xFFFF_FFFF
  {
    var m: nat, a: nat, b: nat := PERIOD, n + i - 1, n + j - 1;
    assert Generated(n, i) == 1 + a % m by { GeneratedIs(n, i, m); }
    assert Generated(n, j) == 1 + b % m by { GeneratedIs(n, j, m); }
    assert a % m == b % m <==> b == a + m by { CongruentWithin(a, b, m); }
  }

  // ------------------------------------------------------------------
  // The class
  // ------------------------------------------------------------------

  class PendingRequest {
    ghost const call: nat
    var response: Option<Response>
    var completed: bool

    constructor (ghost call: nat)
      ensures this.call == call && response == None && !completed
    {
      this.call := call;
      response, completed := None, false;
    }
  }

  class WorkerChannel {
    var nextId: uint32
    var closed: bool
    var outQueue: seq<Message>
    var pending: map<uint32, PendingRequest>
    ghost var made: map<nat, PendingRequest>  // every pending request so far, by the call that made it

    ghost predicate Valid()
      reads this, made.Values
    {
      && (forall c :: c in made ==> made[c].call == c)
      && (forall id :: id in pending ==> pending[id].call in made && made[pending[id].call] == pending[id])
    }

    ghost function Abs(): Channel
      requires Valid()
      reads this, made.Values
    {
      Channel(nextId, closed,
              map id | id in pending :: pending[id].call,
              map c | c in made :: Slot(made[c].response, made[c].completed),
              outQueue)
    }

    constructor ()
      ensures Valid() && Abs() == Fresh
    {
      nextId, closed, outQueue, pending, made := 0, false, [], map[], map[];
    }

    method GenRequestId() returns (id: uint32)
      requires Valid()
      modifies this`nextId
      ensures Valid()
      ensures id == NextId(old(nextId)) != 0
      ensures Abs() == old(Abs()).(nextId := id)
    {
      nextId := Increment(nextId);
      id := nextId;
      if id == 0 {
        nextId := Increment(nextId);
        id := nextId;
      }
    }

    method Register(id: uint32, ghost call: nat) returns (p: PendingRequest)
      requires Valid() && call !in made
      modifies this`pending, this`made
      ensures Valid() && fresh(p) && made == old(made)[call := p]
      ensures Abs() == WithPending(old(Abs()), id, call)
    {
      p := new PendingRequest(call);
      pending := pending[id := p];
      made := made[call := p];
      ghost var was := old(Abs());
      assert forall c :: c in old(made) ==> made[c] == old(made)[c];
      assert Abs().pending == was.pending[id := call] by {
        assert forall i :: i in old(pending) && i != id ==> pending[i] == old(pending)[i];
      }
      assert Abs().slots == was.slots[call := Slot(None, false)];
    }

    method Enqueue(m: Message)
      requires Valid()
      modifies this`outQueue
      ensures Valid() && Abs() == Pushed(old(Abs()), m)
    {
      outQueue := outQueue + [m];
    }

    method Notify(data: Bytes)
      requires Valid()
      modifies this`outQueue
      ensures Valid()
      ensures Abs() == if closed then old(Abs()) else Pushed(old(Abs()), Message(data, None))
    {
      if closed {
        return;
      }
      outQueue := outQueue + [Message(data, None)];
    }

    /** The worker's read; it does not look at `closed`. */
    method ChannelRead() returns (m: Option<Message>)
      requires Valid()
      modifies this`outQueue
      ensures Valid()
      ensures old(outQueue) == [] ==> m == None && Abs() == old(Abs())
      ensures old(outQueue) != [] ==> m == Some(old(outQueue)[0]) && Abs() == Popped(old(Abs()))
    {
      if outQueue == [] {
        return None;
      }
      m := Some(outQueue[0]);
      outQueue := outQueue[1..];
    }

    /** First half of a worker reply: find the pending entry. */
    method Find(id: uint32) returns (p: PendingRequest?)
      requires Valid()
      ensures p == null <==> id !in Abs().pending
      ensures p != null ==> p.call == Abs().pending[id] && p in made.Values
    {
      p := if id in pending then pending[id] else null;
    }

    /** Second half: store the response in the entry found before, pending or not. */
    method Resolve(p: PendingRequest, r: Response)
      requires Valid() && p in made.Values
      modifies p
      ensures Valid() && Abs() == Resolved(old(Abs()), p.call, r)
    {
      p.response := Some(r);
      p.completed := true;
    }

    method Erase(id: uint32)
      requires Valid()
      modifies this`pending
      ensures Valid() && Abs() == WithoutPending(old(Abs()), id)
    {
      pending := pending - {id};
      assert Abs().pending == WithoutPending(old(Abs()), id).pending;
    }

    lemma WaitingCalls()
      requires Valid()
      ensures forall c :: c in Abs().pending.Values <==> exists id :: id in pending && pending[id].call == c
    {
      forall id | id in pending ensures pending[id].call in Abs().pending.Values {
        assert Abs().pending[id] == pending[id].call;
      }
    }

    method Close()
      requires Valid()
      modifies this`closed, made.Values
      ensures Valid() && Abs() == AllCompleted(old(Abs()).(closed := true))
    {
      closed := true;
      var ids := pending.Keys;
      while ids != {}
        invariant Valid() && closed && ids <= pending.Keys
        invariant forall c :: c in made ==> made[c].response == old(made[c].response)
        invariant forall c :: c in made ==>
          made[c].completed == (old(made[c].completed) || exists id :: id in pending.Keys - ids && pending[id].call == c)
      {
        var id :| id in ids;
        pending[id].completed := true;
        ids := ids - {id};
      }
      ghost var was := old(Abs());
      assert Abs().pending == was.pending;
      WaitingCalls();
      assert Abs().slots == AllCompleted(was.(closed := true)).slots;
    }
  }
}
