/**
 The bounded queue between the capture and the encode thread: a push to a full queue
 drops the oldest item.

 Every public method runs under one mutex, so each is one step; a pop waits until
 there is something to return. Every list of events is a run.
 */
module FrameQueue {
  import opened Wrappers

  datatype Fate = Delivered | Dropped

  /** The queue, with everything pushed since the last reset and what became of its first items. */
  datatype Queue<T> = Queue(items: seq<T>, stopped: bool, pushed: seq<T>, fates: seq<Fate>)

  datatype Event<T> = Push(item: T) | Pop | Stop | Reset

  /** What a pop does: it waits, returns an item, or returns false. */
  datatype Outcome<T> = Waits | Returns(item: T) | Ends

  function EmptyQueue<T>(): Queue<T> {
    Queue([], false, [], [])
  }

  function Pushed<T>(q: Queue<T>, capacity: nat, item: T): Queue<T> {
    var (kept, fates) := if |q.items| >= capacity && q.items != [] then (q.items[1..], q.fates + [Dropped])
                         else (q.items, q.fates);
    Queue(kept + [item], q.stopped, q.pushed + [item], fates)
  }

  function OutcomeOf<T>(q: Queue<T>): Outcome<T> {
    if q.items != [] then Returns(q.items[0]) else if q.stopped then Ends else Waits
  }

  function Popped<T>(q: Queue<T>): Queue<T> {
    if q.items == [] then q else q.(items := q.items[1..], fates := q.fates + [Delivered])
  }

  function Step<T>(q: Queue<T>, capacity: nat, e: Event<T>): Queue<T> {
    match e
    case Push(item) => Pushed(q, capacity, item)
    case Pop => Popped(q)
    case Stop => q.(stopped := true)
    case Reset => EmptyQueue()
  }

  function Run<T>(capacity: nat, es: seq<Event<T>>): Queue<T>
    decreases |es|
  {
    if es == [] then EmptyQueue() else Step(Run(capacity, es[..|es| - 1]), capacity, es[|es| - 1])
  }

  // ------------------------------------------------------------------
  // What the queue holds
  // ------------------------------------------------------------------

  /** The queue holds the newest items, those without a fate, and was only ever cut when full. */
  ghost predicate Sound<T>(q: Queue<T>, capacity: nat) {
    && |q.items| <= capacity
    && |q.fates| <= |q.pushed|
    && q.items == q.pushed[|q.fates|..]
    && (forall i :: 0 <= i < |q.fates| && q.fates[i].Dropped? ==> i + capacity < |q.pushed|)
  }

  lemma StepKeepsSound<T>(q: Queue<T>, capacity: nat, e: Event<T>)
    requires Sound(q, capacity) && capacity > 0
    ensures Sound(Step(q, capacity, e), capacity)
  {}

  /** In every run the queue holds the last k <= capacity items; an item is dropped only once capacity newer ones came. */
  lemma {:induction false} HoldsTheNewest<T>(capacity: nat, es: seq<Event<T>>)
    requires capacity > 0
    ensures Sound(Run(capacity, es), capacity)
    decreases |es|
  {
    if es != [] {
      HoldsTheNewest(capacity, es[..|es| - 1]);
      StepKeepsSound(Run(capacity, es[..|es| - 1]), capacity, es[|es| - 1]);
    }
  }

  /** An item leaves unread exactly when it is the oldest of a full queue and one more is pushed. */
  lemma DroppedExactlyWhenFull<T>(capacity: nat, es: seq<Event<T>>, item: T)
    requires capacity > 0
    ensures var q, q' := Run(capacity, es), Pushed(Run(capacity, es), capacity, item);
            (q'.fates == q.fates <==> |q.items| < capacity)
            && (|q.items| == capacity ==> q'.fates == q.fates + [Dropped] && |q.pushed| == |q.fates| + capacity)
  {
    HoldsTheNewest(capacity, es);
  }

  /** The items pushed since the last reset, read off the log. */
  function PushedSince<T>(es: seq<Event<T>>): seq<T>
    decreases |es|
  {
    if es == [] then []
    else
      var before, e := es[..|es| - 1], es[|es| - 1];
      match e
      case Push(item) => PushedSince(before) + [item]
      case Reset => []
      case _ => PushedSince(before)
  }

  /** A stop came after the last reset. */
  function StoppedSince<T>(es: seq<Event<T>>): bool
    decreases |es|
  {
    es != [] && (es[|es| - 1].Stop? || (!es[|es| - 1].Reset? && StoppedSince(es[..|es| - 1])))
  }

  /** In every run the queue has recorded what was pushed, drops included, and whether it was stopped. */
  lemma {:induction false} PushesAreLogged<T>(capacity: nat, es: seq<Event<T>>)
    ensures Run(capacity, es).pushed == PushedSince(es)
    ensures Run(capacity, es).stopped <==> StoppedSince(es)
    decreases |es|
  {
    if es != [] {
      PushesAreLogged(capacity, es[..|es| - 1]);
    }
  }

  /** A pop returns the first item without a fate, which is one of the last capacity items pushed. */
  lemma PopReturnsTheNext<T>(capacity: nat, es: seq<Event<T>>)
    requires capacity > 0
    ensures var q, pushed := Run(capacity, es), PushedSince(es);
            match OutcomeOf(q)
            case Returns(item) => |q.fates| < |pushed| <= |q.fates| + capacity && item == pushed[|q.fates|]
            case Ends => StoppedSince(es) && |q.fates| == |pushed|
            case Waits => !StoppedSince(es) && |q.fates| == |pushed|
  {
    HoldsTheNewest(capacity, es);
    PushesAreLogged(capacity, es);
  }

  // ------------------------------------------------------------------
  // What the encoder sees
  // ------------------------------------------------------------------

  /** The items returned by pops since the last reset, in the order of return. */
  function Outputs<T>(capacity: nat, es: seq<Event<T>>): seq<T>
    decreases |es|
  {
    if es == [] then []
    else
      var before, e := es[..|es| - 1], es[|es| - 1];
      if e.Reset? then []
      else
        match OutcomeOf(Run(capacity, before))
        case Returns(item) => if e.Pop? then Outputs(capacity, before) + [item] else Outputs(capacity, before)
        case _ => Outputs(capacity, before)
  }

  function Delivery<T>(items: seq<T>, fates: seq<Fate>): (r: seq<T>)
    requires |fates| <= |items|
  {
    if fates == [] then []
    else
      var n := |fates| - 1;
      Delivery(items, fates[..n]) + if fates[n].Delivered? then [items[n]] else []
  }

  lemma {:induction false} DeliveryOfMore<T>(items: seq<T>, more: seq<T>, fates: seq<Fate>)
    requires |fates| <= |items|
    ensures Delivery(items + more, fates) == Delivery(items, fates)
    decreases |fates|
  {
    if fates != [] {
      DeliveryOfMore(items, more, fates[..|fates| - 1]);
    }
  }

  lemma DeliveryNext<T>(items: seq<T>, fates: seq<Fate>, fate: Fate)
    requires |fates| < |items|
    ensures Delivery(items, fates + [fate]) ==
              if fate.Delivered? then Delivery(items, fates) + [items[|fates|]] else Delivery(items, fates)
  {
    assert (fates + [fate])[..|fates|] == fates;
  }

  /** Items come out in the order of pushing, each at most once; the others were dropped or are still queued. */
  lemma {:induction false} OutputsAreDeliveries<T>(capacity: nat, es: seq<Event<T>>)
    requires capacity > 0
    ensures Sound(Run(capacity, es), capacity)
    ensures |Run(capacity, es).fates| <= |PushedSince(es)|
    ensures Outputs(capacity, es) == Delivery(PushedSince(es), Run(capacity, es).fates)
    decreases |es|
  {
    HoldsTheNewest(capacity, es);
    PushesAreLogged(capacity, es);
    if es != [] {
      var before, e := es[..|es| - 1], es[|es| - 1];
      var q := Run(capacity, before);
      OutputsAreDeliveries(capacity, before);
      PushesAreLogged(capacity, before);
      match e {
        case Push(item) =>
          DeliveryOfMore(q.pushed, [item], q.fates);
          DeliveryNext(q.pushed + [item], q.fates, Dropped);
        case Pop =>
          if q.items != [] {
            DeliveryNext(q.pushed, q.fates, Delivered);
          }
        case _ =>
      }
    }
  }

  ghost predicate Rising(xs: seq<int>) {
    forall i, j :: 0 <= i < j < |xs| ==> xs[i] < xs[j]
  }

  lemma {:induction false} DeliveryIsRising(stamps: seq<int>, fates: seq<Fate>)
    requires |fates| <= |stamps| && Rising(stamps)
    ensures Rising(Delivery(stamps, fates))
    ensures forall x :: x in Delivery(stamps, fates) ==> exists i :: 0 <= i < |fates| && stamps[i] == x
    decreases |fates|
  {
    if fates != [] {
      var n := |fates| - 1;
      DeliveryIsRising(stamps, fates[..n]);
      var front := Delivery(stamps, fates[..n]);
      forall k | 0 <= k < |front| ensures front[k] < stamps[n] {
        assert front[k] in front;
      }
    }
  }

  /** Frames captured with rising timestamps reach the encoder with rising timestamps, however many are dropped. */
  lemma TimestampsRise(capacity: nat, es: seq<Event<int>>)
    requires capacity > 0 && Rising(PushedSince(es))
    ensures Rising(Outputs(capacity, es))
  {
    PushesAreLogged(capacity, es);
    OutputsAreDeliveries(capacity, es);
    DeliveryIsRising(Run(capacity, es).pushed, Run(capacity, es).fates);
  }

  // ------------------------------------------------------------------
  // The class
  // ------------------------------------------------------------------

  class BoundedQueue<T> {
    const capacity: nat
    var q: seq<T>
    var stopped: bool
    ghost var pushed: seq<T>
    ghost var fates: seq<Fate>

    ghost function Abs(): Queue<T>
      reads this
    {
      Queue(q, stopped, pushed, fates)
    }

    constructor (capacity: nat)
      requires capacity > 0
      ensures this.capacity == capacity && Abs() == EmptyQueue()
    {
      this.capacity, q, stopped, pushed, fates := capacity, [], false, [], [];
    }

    method Push(item: T)
      requires capacity > 0
      modifies this
      ensures Abs() == Pushed(old(Abs()), capacity, item)
    {
      if |q| >= capacity {
        q := q[1..];
        fates := fates + [Dropped];
      }
      q := q + [item];
      pushed := pushed + [item];
    }

    /** The precondition is what the pop has waited for. */
    method Pop() returns (out: Option<T>)
      requires q != [] || stopped
      modifies this
      ensures Abs() == Popped(old(Abs()))
      ensures match OutcomeOf(old(Abs()))
              case Returns(item) => out == Some(item)
              case Ends => out == None
              case Waits => false
    {
      if stopped && q == [] {
        return None;
      }
      out := Some(q[0]);
      q := q[1..];
      fates := fates + [Delivered];
    }

    method Stop()
      modifies this`stopped
      ensures Abs() == Step(old(Abs()), capacity, Event.Stop)
    {
      stopped := true;
    }

    method Reset()
      modifies this
      ensures Abs() == EmptyQueue()
    {
      while q != []
        decreases |q|
      {
        q := q[1..];
      }
      stopped, pushed, fates := false, [], [];
    }

    /** Popping until a pop fails, once the queue is stopped and nothing is pushed any more. */
    method Drain() returns (items: seq<T>)
      requires stopped
      modifies this
      ensures items == old(q) && q == [] && stopped && pushed == old(pushed)
    {
      items := [];
      var out := Pop();
      while out.Some?
        invariant stopped && pushed == old(pushed)
        invariant if out.Some? then items + [out.value] + q == old(q) else items == old(q) && q == []
        decreases |q| + if out.Some? then 1 else 0
      {
        items := items + [out.value];
        out := Pop();
      }
    }
  }
}
