/**
 What a request returns and what the worker reads, told from the events alone.
 */
module RequestResults {
  import opened Wrappers
  import opened Channels
  import opened RequestProtocol

  // ------------------------------------------------------------------
  // The log
  // ------------------------------------------------------------------

  /** The call that a reply under the id finds: the last to register it, until a call of that id erases it. */
  function Listener(es: seq<Event>, id: uint32): Option<nat>
    decreases |es|
  {
    if es == [] then None
    else
      var before, e := es[..|es| - 1], es[|es| - 1];
      var s := Run(Init, before);
      if e.Register? && At(s, e.c, Open) && s.calls[e.c].id == id then Some(e.c)
      else if e.Erase? && At(s, e.c, Awake) && s.calls[e.c].id == id then None
      else Listener(before, id)
  }

  /** The reply that is found and not yet stored, with the call it goes to. */
  function InHand(es: seq<Event>): Option<(nat, Response)>
    decreases |es|
  {
    if es == [] then None
    else
      var before, e := es[..|es| - 1], es[|es| - 1];
      if e.Store? then None
      else if e.Reply? && InHand(before).None? && Listener(before, e.r.id).Some? then
        Some((Listener(before, e.r.id).value, e.r))
      else InHand(before)
  }

  /** The response that was stored last for the call. */
  function LastStored(es: seq<Event>, c: nat): Option<Response>
    decreases |es|
  {
    if es == [] then None
    else
      var before, e := es[..|es| - 1], es[|es| - 1];
      if e.Store? && InHand(before).Some? && InHand(before).value.0 == c then Some(InHand(before).value.1)
      else LastStored(before, c)
  }

  /** What the call has returned, once it has: nothing if it found the channel closed, else what was stored before. */
  function Outcome(es: seq<Event>, c: nat): Option<Option<Response>>
    decreases |es|
  {
    if es == [] then None
    else
      var before, e := es[..|es| - 1], es[|es| - 1];
      var s := Run(Init, before);
      if e == CheckClosed(c) && At(s, c, Drawn) && MarkClosed in before then Some(None)
      else if e == Return(c) && At(s, c, Unlisted) then Some(LastStored(before, c))
      else Outcome(before, c)
  }

  /** The messages pushed: those of listed requests and of notifications. */
  function Pushes(es: seq<Event>): seq<Message>
    decreases |es|
  {
    if es == [] then []
    else
      var before, e := es[..|es| - 1], es[|es| - 1];
      if e.Notify? then Pushes(before) + [Message(e.data, None)]
      else if e.Enqueue? && At(Run(Init, before), e.c, Listed) then Pushes(before) + [Message(e.data, Some(e.c))]
      else Pushes(before)
  }

  // ------------------------------------------------------------------
  // The state agrees with the log
  // ------------------------------------------------------------------

  function Found(pending: map<uint32, nat>, id: uint32): Option<nat> {
    if id in pending then Some(pending[id]) else None
  }

  function Stored(slots: map<nat, Slot>, c: nat): Option<Response> {
    if c in slots then slots[c].response else None
  }

  function Returned(calls: seq<Call>, c: nat): Option<Option<Response>> {
    if c < |calls| && calls[c].phase.Done? then Some(calls[c].phase.result) else None
  }

  lemma FoundAfter(s: State, e: Event, id: uint32)
    ensures Found(Step(s, e).ch.pending, id) ==
              if e.Register? && At(s, e.c, Open) && s.calls[e.c].id == id then Some(e.c)
              else if e.Erase? && At(s, e.c, Awake) && s.calls[e.c].id == id then None
              else Found(s.ch.pending, id)
  {}

  lemma StoredAfter(s: State, e: Event, c: nat)
    requires IdsMatch(s)
    ensures Stored(Step(s, e).ch.slots, c) ==
              if Stores(s, e, c) then Some(s.resolving.value.response) else Stored(s.ch.slots, c)
  {
    if e.Register? {
      RegisterStoresNothing(s, e.c, c);
    } else if !e.Store? {
      OtherStoresNothing(s, e, c);
    }
  }

  /** A call that registers has no slot yet. */
  lemma RegisterStoresNothing(s: State, d: nat, c: nat)
    requires TableMatches(s.ch.pending, s.ch.slots, s.calls)
    ensures Stored(Step(s, Register(d)).ch.slots, c) == Stored(s.ch.slots, c)
  {}

  lemma OtherStoresNothing(s: State, e: Event, c: nat)
    requires !e.Register? && !e.Store?
    ensures Stored(Step(s, e).ch.slots, c) == Stored(s.ch.slots, c)
  {}

  lemma ReturnedAfter(s: State, e: Event, c: nat)
    requires IdsMatch(s) && SlotsKept(s)
    ensures Returned(Step(s, e).calls, c) ==
              if e == CheckClosed(c) && At(s, c, Drawn) && s.ch.closed then Some(None)
              else if e == Return(c) && At(s, c, Unlisted) then Some(Stored(s.ch.slots, c))
              else Returned(s.calls, c)
  {}

  /** A call that has registered and not returned has a slot. */
  ghost predicate SlotsKept(s: State) {
    forall c :: 0 <= c < |s.calls| && (InTable(s.calls[c]) || s.calls[c].phase.Unlisted?) ==> c in s.ch.slots
  }

  lemma StepKeepsSlots(s: State, e: Event)
    requires SlotsKept(s)
    ensures SlotsKept(Step(s, e))
  {}

  lemma {:induction false} RunKeepsSlots(es: seq<Event>)
    ensures SlotsKept(Run(Init, es))
    decreases |es|
  {
    if es != [] {
      RunKeepsSlots(es[..|es| - 1]);
      StepKeepsSlots(Run(Init, es[..|es| - 1]), es[|es| - 1]);
    }
  }

  lemma {:induction false} ClosedIsMarked(es: seq<Event>)
    ensures Run(Init, es).ch.closed <==> MarkClosed in es
    decreases |es|
  {
    if es != [] {
      var n := |es| - 1;
      ClosedIsMarked(es[..n]);
      ClosedAfter(Run(Init, es[..n]), es[n]);
      assert es == es[..n] + [es[n]];
    }
  }

  lemma ClosedAfter(s: State, e: Event)
    ensures Step(s, e).ch.closed <==> s.ch.closed || e == MarkClosed
  {}

  lemma {:induction false} ListenerIsFound(es: seq<Event>, id: uint32)
    ensures Listener(es, id) == Found(Run(Init, es).ch.pending, id)
    decreases |es|
  {
    if es != [] {
      ListenerIsFound(es[..|es| - 1], id);
      FoundAfter(Run(Init, es[..|es| - 1]), es[|es| - 1], id);
    }
  }

  function Carried(resolving: Option<Delivery>): Option<(nat, Response)> {
    if resolving.Some? then Some((resolving.value.call, resolving.value.response)) else None
  }

  lemma CarriedAfter(s: State, e: Event)
    ensures Carried(Step(s, e).resolving) ==
              if e.Store? then None
              else if e.Reply? && s.resolving.None? && Found(s.ch.pending, e.r.id).Some? then
                Some((Found(s.ch.pending, e.r.id).value, e.r))
              else Carried(s.resolving)
  {}

  lemma {:induction false} InHandIsCarried(es: seq<Event>)
    ensures InHand(es) == Carried(Run(Init, es).resolving)
    decreases |es|
  {
    if es != [] {
      var before, e := es[..|es| - 1], es[|es| - 1];
      InHandIsCarried(before);
      CarriedAfter(Run(Init, before), e);
      if e.Reply? { ListenerIsFound(before, e.r.id); }
    }
  }

  lemma {:induction false} LastStoredIsStored(es: seq<Event>, c: nat)
    ensures LastStored(es, c) == Stored(Run(Init, es).ch.slots, c)
    decreases |es|
  {
    if es != [] {
      var before, e := es[..|es| - 1], es[|es| - 1];
      LastStoredIsStored(before, c);
      InHandIsCarried(before);
      RunKeepsIds(before);
      StoredAfter(Run(Init, before), e, c);
    }
  }

  /**
   In every run a request is over exactly when it has found the channel closed, which
   gives nothing, or has left the table and returned, which gives the response that was
   stored for it last before that, or nothing if none was.
   */
  lemma {:induction false} RequestReturnsLastStored(es: seq<Event>, c: nat)
    ensures var calls := Run(Init, es).calls;
            Outcome(es, c) == if c < |calls| && calls[c].phase.Done? then Some(calls[c].phase.result) else None
    decreases |es|
  {
    if es != [] {
      var before, e := es[..|es| - 1], es[|es| - 1];
      RequestReturnsLastStored(before, c);
      LastStoredIsStored(before, c);
      ClosedIsMarked(before);
      RunKeepsIds(before);
      RunKeepsSlots(before);
      ReturnedAfter(Run(Init, before), e, c);
    }
  }

  lemma SentAfter(s: State, e: Event)
    ensures Step(s, e).sent ==
              if e.Notify? then s.sent + [Message(e.data, None)]
              else if e.Enqueue? && At(s, e.c, Listed) then s.sent + [Message(e.data, Some(e.c))]
              else s.sent
  {}

  lemma {:induction false} SentIsPushed(es: seq<Event>)
    ensures Run(Init, es).sent == Pushes(es)
    decreases |es|
  {
    if es != [] {
      SentIsPushed(es[..|es| - 1]);
      SentAfter(Run(Init, es[..|es| - 1]), es[|es| - 1]);
    }
  }

  /** In every run the worker has read a prefix of the messages pushed, and the queue is the rest. */
  lemma WorkerReadsPushes(es: seq<Event>)
    ensures Pushes(es) == Run(Init, es).read + Run(Init, es).ch.out
  {
    SentIsPushed(es);
    ReadInOrder(es);
  }

  // ------------------------------------------------------------------
  // A request that nothing disturbs
  // ------------------------------------------------------------------

  /** The events of genRequestId and of request up to the wait; the second draw matters only after a 0. */
  function Asking(c: nat, data: Bytes): seq<Event> {
    [Begin, Draw(c), Draw(c), CheckClosed(c), Register(c), Enqueue(c, data)]
  }

  /** The reply, and the rest of request. */
  function Answering(c: nat, r: Response, origin: nat): seq<Event> {
    [Reply(r, origin), Store, Wake(c), Erase(c), Return(c)]
  }

  lemma RunOne(s: State, e: Event)
    ensures Run(s, [e]) == Step(s, e)
  {
    RunAppend(s, [], e);
    assert [] + [e] == [e];
  }

  lemma {:induction false} RunJoins(s: State, es: seq<Event>, more: seq<Event>)
    ensures Run(s, es + more) == Run(Run(s, es), more)
    decreases |more|
  {
    if more == [] {
      assert es + more == es;
    } else {
      RunSplits(s, es, more);
      RunJoins(s, es, more[..|more| - 1]);
    }
  }

  lemma RunFirst(s: State, e: Event, es: seq<Event>)
    ensures Run(s, [e] + es) == Run(Step(s, e), es)
  {
    RunJoins(s, [e], es);
    RunOne(s, e);
  }

  lemma RunThree(s: State, d: Event, e: Event, f: Event)
    ensures Run(s, [d, e, f]) == Step(Step(Step(s, d), e), f)
  {
    RunOne(s, d);
    RunAppend(s, [d], e);
    RunAppend(s, [d] + [e], f);
    assert [d] + [e] + [f] == [d, e, f];
  }

  lemma DrawnAfterTwo(s: State, c: nat)
    requires At(s, c, Drawing)
    ensures var s' := Step(Step(s, Draw(c)), Draw(c));
            At(s', c, Drawn) && s'.calls[c].id == NextId(s.ch.nextId) && |s'.calls| == |s.calls|
            && s'.ch == s.ch.(nextId := NextId(s.ch.nextId)) && s'.resolving == s.resolving && s'.sent == s.sent
  {}

  lemma DrawnIsWaiting(s: State, c: nat, data: Bytes)
    requires At(s, c, Drawn) && !s.ch.closed
    ensures var s' := Step(Step(Step(s, CheckClosed(c)), Register(c)), Enqueue(c, data));
            At(s', c, Waiting) && s'.calls[c].id == s.calls[c].id && |s'.calls| == |s.calls|
            && s'.ch == Pushed(WithPending(s.ch, s.calls[c].id, c), Message(data, Some(c)))
            && s'.resolving == s.resolving && s'.sent == s.sent + [Message(data, Some(c))]
  {
    var open := Step(s, CheckClosed(c));
    assert At(open, c, Open);
    assert At(Step(open, Register(c)), c, Listed);
  }

  lemma AskingRuns(s: State, c: nat, data: Bytes)
    ensures Run(s, Asking(c, data)) ==
              var drawn := Step(Step(Step(s, Begin), Draw(c)), Draw(c));
              Step(Step(Step(drawn, CheckClosed(c)), Register(c)), Enqueue(c, data))
  {
    assert Asking(c, data) == [Begin, Draw(c), Draw(c)] + [CheckClosed(c), Register(c), Enqueue(c, data)];
    RunJoins(s, [Begin, Draw(c), Draw(c)], [CheckClosed(c), Register(c), Enqueue(c, data)]);
    RunThree(s, Begin, Draw(c), Draw(c));
    RunThree(Run(s, [Begin, Draw(c), Draw(c)]), CheckClosed(c), Register(c), Enqueue(c, data));
  }

  lemma AskingWaits(s: State, data: Bytes)
    requires !s.ch.closed
    ensures var c, id := |s.calls|, NextId(s.ch.nextId);
            var s' := Run(s, Asking(c, data));
            && At(s', c, Waiting) && s'.calls[c].id == id && id in s'.ch.pending && s'.ch.pending[id] == c
            && s'.resolving == s.resolving && s'.sent == s.sent + [Message(data, Some(c))]
  {
    var c := |s.calls|;
    AskingRuns(s, c, data);
    var begun := Step(s, Begin);
    assert At(begun, c, Drawing) && begun == s.(calls := begun.calls);
    DrawnAfterTwo(begun, c);
    DrawnIsWaiting(Step(Step(begun, Draw(c)), Draw(c)), c, data);
  }

  lemma AnsweringRuns(s: State, c: nat, r: Response, origin: nat)
    ensures Run(s, Answering(c, r, origin)) ==
              Step(Step(Step(Step(Step(s, Reply(r, origin)), Store), Wake(c)), Erase(c)), Return(c))
  {
    var last := [Wake(c), Erase(c), Return(c)];
    assert Answering(c, r, origin) == [Reply(r, origin)] + ([Store] + last);
    RunFirst(s, Reply(r, origin), [Store] + last);
    RunFirst(Step(s, Reply(r, origin)), Store, last);
    RunThree(Step(Step(s, Reply(r, origin)), Store), Wake(c), Erase(c), Return(c));
  }

  lemma AnsweringReturns(s: State, c: nat, r: Response, origin: nat)
    requires At(s, c, Waiting) && s.calls[c].id == r.id && s.resolving.None?
    requires r.id in s.ch.pending && s.ch.pending[r.id] == c
    ensures var s' := Run(s, Answering(c, r, origin));
            At(s', c, Done(Some(r))) && s'.ch.pending == s.ch.pending - {r.id}
  {
    var found := Step(s, Reply(r, origin));
    var stored := Step(found, Store);
    assert At(stored, c, Waiting) && c in stored.ch.slots && stored.ch.slots[c].response == Some(r);
    WaitingReturns(stored, c);
    AnsweringRuns(s, c, r, origin);
  }

  lemma WaitingReturns(s: State, c: nat)
    requires At(s, c, Waiting) && c in s.ch.slots
    ensures var s' := Step(Step(Step(s, Wake(c)), Erase(c)), Return(c));
            At(s', c, Done(s.ch.slots[c].response)) && s'.ch.pending == s.ch.pending - {s.calls[c].id}
  {
    var awake := Step(s, Wake(c));
    assert At(awake, c, Awake);
    assert At(Step(awake, Erase(c)), c, Unlisted);
  }

  /**
   From every state that a run reaches with the channel open and no reply in hand, a new
   request sends its message and returns the reply to it, whatever other requests wait.
   */
  lemma UndisturbedRequestReturns(es: seq<Event>, data: Bytes, r: Response)
    requires MarkClosed !in es && InHand(es).None? && r.id == NextId(Run(Init, es).ch.nextId)
    ensures var c := |Run(Init, es).calls|;
            var asked, answered := es + Asking(c, data), es + Asking(c, data) + Answering(c, r, c);
            && Pushes(asked) == Pushes(es) + [Message(data, Some(c))]
            && Outcome(answered, c) == Some(Some(r))
            && Listener(answered, r.id) == None
  {
    var s := Run(Init, es);
    var c := |s.calls|;
    ClosedIsMarked(es);
    InHandIsCarried(es);
    AskingWaits(s, data);
    RunJoins(Init, es, Asking(c, data));
    SentIsPushed(es);
    SentIsPushed(es + Asking(c, data));
    AnsweringReturns(Run(s, Asking(c, data)), c, r, c);
    RunJoins(Init, es + Asking(c, data), Answering(c, r, c));
    RequestReturnsLastStored(es + Asking(c, data) + Answering(c, r, c), c);
    ListenerIsFound(es + Asking(c, data) + Answering(c, r, c), r.id);
  }
}
