/**
 Every interleaving of callers, the worker and close on one channel.

 A step is one critical section or one atomic access. A step that is not
 enabled leaves the state alone, so every list of events is a run.
 */
module RequestProtocol {
  import opened Wrappers
  import opened Arithmetic
  import opened Channels

  /**
   Where a caller is in genRequestId followed by request. A caller may time out
   whenever it waits, so waking needs no cause.
   */
  datatype Phase = Drawing | Drawn | Open | Listed | Waiting | Awake | Unlisted | Done(result: Option<Response>)

  /** `ticket` counts the counter's increments up to and including the one that gave `id`. */
  datatype Call = Call(phase: Phase, ticket: nat, id: uint32)

  /** A reply whose pending entry was found and that is not stored yet. */
  datatype Delivery = Delivery(call: nat, response: Response, origin: nat)

  datatype State = State(
    ch: Channel,
    draws: nat,                  // increments of the counter so far
    calls: seq<Call>,
    resolving: Option<Delivery>,
    origins: map<nat, nat>,      // by slot: the call whose request the stored reply answers
    sent: seq<Message>,
    read: seq<Message>)

  const Init := State(Fresh, 0, [], None, map[], [], [])

  datatype Event =
    | Begin
    | Draw(c: nat)                 // one increment; the loop draws again when it gives 0
    | CheckClosed(c: nat)
    | Register(c: nat)
    | Enqueue(c: nat, data: Bytes)
    | Notify(data: Bytes)          // the push; its closed check happened before
    | Wake(c: nat)
    | Erase(c: nat)
    | Return(c: nat)
    | Read
    | Reply(r: Response, origin: nat)
    | Store
    | MarkClosed
    | WakeAll

  predicate At(s: State, c: nat, phase: Phase) {
    c < |s.calls| && s.calls[c].phase == phase
  }

  function Moved(s: State, c: nat, phase: Phase): State
    requires c < |s.calls|
  {
    s.(calls := s.calls[c := s.calls[c].(phase := phase)])
  }

  function DrawStep(s: State, c: nat): State
    requires c < |s.calls|
  {
    var id := Increment(s.ch.nextId);
    var next := s.(ch := s.ch.(nextId := id), draws := s.draws + 1);
    if id == 0 then next else next.(calls := s.calls[c := Call(Drawn, s.draws + 1, id)])
  }

  function EnqueueStep(s: State, m: Message): State {
    s.(ch := Pushed(s.ch, m), sent := s.sent + [m])
  }

  function Step(s: State, e: Event): State {
    match e
    case Begin => s.(calls := s.calls + [Call(Drawing, 0, 0)])
    case Draw(c) => if At(s, c, Drawing) then DrawStep(s, c) else s
    case CheckClosed(c) =>
      if At(s, c, Drawn) then Moved(s, c, if s.ch.closed then Done(None) else Open) else s
    case Register(c) =>
      if At(s, c, Open) then
        Moved(s, c, Listed).(ch := WithPending(s.ch, s.calls[c].id, c))
      else s
    case Enqueue(c, data) =>
      if At(s, c, Listed) then EnqueueStep(Moved(s, c, Waiting), Message(data, Some(c))) else s
    case Notify(data) => EnqueueStep(s, Message(data, None))
    case Wake(c) => if At(s, c, Waiting) then Moved(s, c, Awake) else s
    case Erase(c) =>
      if At(s, c, Awake) then Moved(s, c, Unlisted).(ch := WithoutPending(s.ch, s.calls[c].id)) else s
    case Return(c) =>
      if At(s, c, Unlisted) && c in s.ch.slots then Moved(s, c, Done(s.ch.slots[c].response)) else s
    case Read =>
      if s.ch.out == [] then s else s.(ch := Popped(s.ch), read := s.read + [s.ch.out[0]])
    case Reply(r, origin) =>
      if s.resolving.None? && r.id in s.ch.pending then
        s.(resolving := Some(Delivery(s.ch.pending[r.id], r, origin)))
      else s
    case Store =>
      if s.resolving.Some? then
        var d := s.resolving.value;
        s.(ch := Resolved(s.ch, d.call, d.response), origins := s.origins[d.call := d.origin], resolving := None)
      else s
    case MarkClosed => s.(ch := s.ch.(closed := true))
    case WakeAll => s.(ch := AllCompleted(s.ch))
  }

  function Run(s: State, es: seq<Event>): State
    decreases |es|
  {
    if es == [] then s else Step(Run(s, es[..|es| - 1]), es[|es| - 1])
  }

  lemma RunAppend(s: State, es: seq<Event>, e: Event)
    ensures Run(s, es + [e]) == Step(Run(s, es), e)
  {
    assert (es + [e])[..|es|] == es;
  }

  /** The run of a continuation, seen from its last event. */
  lemma RunSplits(s: State, es: seq<Event>, more: seq<Event>)
    requires more != []
    ensures Run(s, es + more) == Step(Run(s, es + more[..|more| - 1]), more[|more| - 1])
  {
    var n := |more| - 1;
    assert es + more == es + more[..n] + [more[n]];
    RunAppend(s, es + more[..n], more[n]);
  }

  // ------------------------------------------------------------------
  // Replies carry the id they were asked for: no assumption needed
  // ------------------------------------------------------------------

  ghost predicate HasSlot(call: Call) {
    !(call.phase.Drawing? || call.phase.Drawn? || call.phase.Open?)
  }

  ghost predicate InTable(call: Call) {
    call.phase.Listed? || call.phase.Waiting? || call.phase.Awake?
  }

  ghost predicate TableMatches(pending: map<uint32, nat>, slots: map<nat, Slot>, calls: seq<Call>) {
    && (forall c :: c in slots ==> c < |calls| && HasSlot(calls[c]))
    && (forall id :: id in pending ==>
          var c := pending[id];
          c in slots && InTable(calls[c]) && calls[c].id == id)
  }

  ghost predicate StoredMatch(slots: map<nat, Slot>, calls: seq<Call>, origins: map<nat, nat>) {
    forall c :: c in slots && slots[c].response.Some? ==>
      c < |calls| && slots[c].response.value.id == calls[c].id && c in origins
  }

  ghost predicate ResolvingMatches(slots: map<nat, Slot>, calls: seq<Call>, resolving: Option<Delivery>) {
    resolving.Some? ==>
      var d := resolving.value;
      d.call in slots && d.call < |calls| && d.response.id == calls[d.call].id
  }

  ghost predicate ResultsMatch(calls: seq<Call>, origins: map<nat, nat>) {
    forall c :: 0 <= c < |calls| && calls[c].phase.Done? && calls[c].phase.result.Some? ==>
      calls[c].phase.result.value.id == calls[c].id && c in origins
  }

  ghost predicate IdsMatch(s: State) {
    && TableMatches(s.ch.pending, s.ch.slots, s.calls)
    && StoredMatch(s.ch.slots, s.calls, s.origins)
    && ResolvingMatches(s.ch.slots, s.calls, s.resolving)
    && ResultsMatch(s.calls, s.origins)
  }

  lemma CallUpdateKeepsIds(s: State, c: nat, call: Call)
    requires IdsMatch(s) && c < |s.calls|
    requires HasSlot(s.calls[c]) ==> HasSlot(call) && call.id == s.calls[c].id
    requires InTable(s.calls[c]) ==> InTable(call)
    requires call.phase.Done? ==> call.phase.result == None
    ensures IdsMatch(s.(calls := s.calls[c := call]))
  {}

  lemma CallerStepKeepsIds(s: State, e: Event)
    requires IdsMatch(s)
    requires e.Begin? || e.Draw? || e.CheckClosed? || e.Enqueue? || e.Wake?
    ensures IdsMatch(Step(s, e))
  {
    match e {
      case Draw(c) =>
        if At(s, c, Drawing) { CallUpdateKeepsIds(s, c, Call(Drawn, s.draws + 1, Increment(s.ch.nextId))); }
      case CheckClosed(c) =>
        if At(s, c, Drawn) { CallUpdateKeepsIds(s, c, s.calls[c].(phase := if s.ch.closed then Done(None) else Open)); }
      case Enqueue(c, _) =>
        if At(s, c, Listed) { CallUpdateKeepsIds(s, c, s.calls[c].(phase := Waiting)); }
      case Wake(c) =>
        if At(s, c, Waiting) { CallUpdateKeepsIds(s, c, s.calls[c].(phase := Awake)); }
      case _ =>
    }
  }

  lemma QueueStepKeepsIds(s: State, e: Event)
    requires IdsMatch(s)
    requires e.Notify? || e.Read? || e.MarkClosed? || e.Reply?
    ensures IdsMatch(Step(s, e))
  {}

  lemma RegisterKeepsIds(s: State, c: nat)
    requires IdsMatch(s)
    ensures IdsMatch(Step(s, Register(c)))
  {}

  lemma EraseKeepsIds(s: State, c: nat)
    requires IdsMatch(s)
    ensures IdsMatch(Step(s, Erase(c)))
  {}

  lemma ReturnKeepsIds(s: State, c: nat)
    requires IdsMatch(s)
    ensures IdsMatch(Step(s, Return(c)))
  {}

  lemma SlotStepKeepsIds(s: State, e: Event)
    requires IdsMatch(s)
    requires e.Store? || e.WakeAll?
    ensures IdsMatch(Step(s, e))
  {}

  lemma StepKeepsIds(s: State, e: Event)
    requires IdsMatch(s)
    ensures IdsMatch(Step(s, e))
  {
    match e {
      case Register(c) => RegisterKeepsIds(s, c);
      case Erase(c) => EraseKeepsIds(s, c);
      case Return(c) => ReturnKeepsIds(s, c);
      case Notify(_) => QueueStepKeepsIds(s, e);
      case Read => QueueStepKeepsIds(s, e);
      case MarkClosed => QueueStepKeepsIds(s, e);
      case Reply(_, _) => QueueStepKeepsIds(s, e);
      case Store => SlotStepKeepsIds(s, e);
      case WakeAll => SlotStepKeepsIds(s, e);
      case _ => CallerStepKeepsIds(s, e);
    }
  }

  lemma {:induction false} RunKeepsIds(es: seq<Event>)
    ensures IdsMatch(Run(Init, es))
  {
    if es != [] {
      RunKeepsIds(es[..|es| - 1]);
      StepKeepsIds(Run(Init, es[..|es| - 1]), es[|es| - 1]);
    }
  }

  /**
   In every run a finished request has returned nothing, or a response that
   carries its own id. This needs no assumption on ids, timeouts or the worker.
   */
  lemma ReturnedResponseHasRequestedId(es: seq<Event>, c: nat)
    ensures var calls := Run(Init, es).calls;
            c < |calls| && calls[c].phase.Done? && calls[c].phase.result.Some? ==>
              calls[c].phase.result.value.id == calls[c].id
  {
    RunKeepsIds(es);
  }

  /** A response whose id has no pending entry changes nothing. */
  lemma StrayResponseIsDropped(s: State, r: Response, origin: nat)
    ensures Step(s, Reply(r, origin)) == s <==> s.resolving.Some? || r.id !in s.ch.pending
  {}

  ghost predicate InOrder(s: State) {
    s.sent == s.read + s.ch.out
  }

  lemma StepKeepsOrder(s: State, e: Event)
    requires InOrder(s)
    ensures InOrder(Step(s, e))
  {
    match e {
      case Enqueue(c, data) =>
        var m := Message(data, Some(c));
        assert s.read + (s.ch.out + [m]) == s.read + s.ch.out + [m];
      case Notify(data) =>
        var m := Message(data, None);
        assert s.read + (s.ch.out + [m]) == s.read + s.ch.out + [m];
      case Read =>
        if s.ch.out != [] { assert s.read + [s.ch.out[0]] + s.ch.out[1..] == s.read + s.ch.out; }
      case _ =>
    }
  }

  /** Messages are read in the order they were pushed, each once. */
  lemma {:induction false} ReadInOrder(es: seq<Event>)
    ensures InOrder(Run(Init, es))
  {
    if es != [] {
      ReadInOrder(es[..|es| - 1]);
      StepKeepsOrder(Run(Init, es[..|es| - 1]), es[|es| - 1]);
    }
  }

  // ------------------------------------------------------------------
  // Replies answer the request that receives them
  // ------------------------------------------------------------------

  /** While a call is in the table, the counter does not run through the whole id space. */
  ghost predicate InWindow(s: State) {
    forall c :: 0 <= c < |s.calls| && InTable(s.calls[c]) ==> s.draws - s.calls[c].ticket < ID_SPACE
  }

  /** The worker answers a request it has read, under its id, before the id comes round again. */
  ghost predicate Honest(s: State, e: Event) {
    e.Reply? ==>
      && e.origin < |s.calls|
      && (exists m :: m in s.read && m.origin == Some(e.origin))
      && e.r.id == s.calls[e.origin].id
      && s.draws - s.calls[e.origin].ticket < ID_SPACE
  }

  ghost predicate GoodRun(es: seq<Event>)
    decreases |es|
  {
    es == [] ||
    (GoodRun(es[..|es| - 1]) && Honest(Run(Init, es[..|es| - 1]), es[|es| - 1]) && InWindow(Run(Init, es)))
  }

  ghost predicate TicketsDistinct(calls: seq<Call>, draws: nat) {
    && (forall c :: 0 <= c < |calls| && !calls[c].phase.Drawing? ==>
          0 < calls[c].ticket <= draws && calls[c].id == calls[c].ticket % ID_SPACE)
    && (forall c, d :: 0 <= c < d < |calls| && !calls[c].phase.Drawing? && !calls[d].phase.Drawing? ==>
          calls[c].ticket != calls[d].ticket)
  }

  ghost predicate SendersDrawn(sent: seq<Message>, calls: seq<Call>) {
    forall m :: m in sent && m.origin.Some? ==> m.origin.value < |calls| && HasSlot(calls[m.origin.value])
  }

  ghost predicate Owned(calls: seq<Call>, pending: map<uint32, nat>) {
    forall c :: 0 <= c < |calls| && InTable(calls[c]) ==> calls[c].id in pending && pending[calls[c].id] == c
  }

  ghost predicate OwnAnswers(origins: map<nat, nat>, resolving: Option<Delivery>) {
    && (forall c :: c in origins ==> origins[c] == c)
    && (resolving.Some? ==> resolving.value.call == resolving.value.origin)
  }

  ghost predicate Correlated(s: State) {
    && s.ch.nextId == s.draws % ID_SPACE
    && TicketsDistinct(s.calls, s.draws)
    && SendersDrawn(s.sent, s.calls)
    && Owned(s.calls, s.ch.pending)
    && OwnAnswers(s.origins, s.resolving)
  }

  /** Two drawn calls inside the window have different ids. */
  lemma IdsDistinctInWindow(calls: seq<Call>, draws: nat, c: nat, d: nat)
    requires TicketsDistinct(calls, draws)
    requires c < |calls| && d < |calls| && c != d
    requires !calls[c].phase.Drawing? && !calls[d].phase.Drawing?
    requires draws - calls[c].ticket < ID_SPACE && draws - calls[d].ticket < ID_SPACE
    ensures calls[c].id != calls[d].id
  {
    var t, u := calls[c].ticket, calls[d].ticket;
    if calls[c].id == calls[d].id {
      if t < u { CongruentApart(t, u, ID_SPACE); } else { CongruentApart(u, t, ID_SPACE); }
    }
  }

  lemma DrawKeepsCorrelated(s: State, c: nat)
    requires Correlated(s)
    ensures Correlated(Step(s, Draw(c)))
  {
    if At(s, c, Drawing) {
      var s' := Step(s, Draw(c));
      SuccessorModulo(s.draws, ID_SPACE);
      assert s'.ch.nextId == s'.draws % ID_SPACE;
      assert TicketsDistinct(s'.calls, s'.draws);
    }
  }

  lemma MoveKeepsCorrelated(s: State, c: nat, phase: Phase)
    requires Correlated(s) && c < |s.calls|
    requires !s.calls[c].phase.Drawing? && !phase.Drawing?
    requires InTable(s.calls[c].(phase := phase)) ==> InTable(s.calls[c])
    requires HasSlot(s.calls[c]) ==> HasSlot(s.calls[c].(phase := phase))
    ensures Correlated(Moved(s, c, phase))
  {}

  lemma CallerStepKeepsCorrelated(s: State, e: Event)
    requires Correlated(s)
    requires e.Begin? || e.CheckClosed? || e.Wake? || e.Return? || e.Read? || e.MarkClosed? || e.WakeAll?
    ensures Correlated(Step(s, e))
  {
    match e {
      case CheckClosed(c) =>
        if At(s, c, Drawn) { MoveKeepsCorrelated(s, c, if s.ch.closed then Done(None) else Open); }
      case Wake(c) => if At(s, c, Waiting) { MoveKeepsCorrelated(s, c, Awake); }
      case Return(c) =>
        if At(s, c, Unlisted) && c in s.ch.slots { MoveKeepsCorrelated(s, c, Done(s.ch.slots[c].response)); }
      case _ =>
    }
  }

  lemma SendKeepsCorrelated(s: State, e: Event)
    requires Correlated(s)
    requires e.Enqueue? || e.Notify?
    ensures Correlated(Step(s, e))
  {}

  lemma RegisterKeepsCorrelated(s: State, c: nat)
    requires Correlated(s)
    requires InWindow(Step(s, Register(c)))
    ensures Correlated(Step(s, Register(c)))
  {
    var s' := Step(s, Register(c));
    if At(s, c, Open) {
      forall d | 0 <= d < |s'.calls| && InTable(s'.calls[d])
        ensures s'.calls[d].id in s'.ch.pending && s'.ch.pending[s'.calls[d].id] == d
      {
        if d != c { IdsDistinctInWindow(s'.calls, s'.draws, c, d); }
      }
    }
  }

  lemma EraseKeepsCorrelated(s: State, c: nat)
    requires Correlated(s) && InWindow(s)
    ensures Correlated(Step(s, Erase(c)))
  {
    var s' := Step(s, Erase(c));
    if At(s, c, Awake) {
      forall d | 0 <= d < |s'.calls| && InTable(s'.calls[d])
        ensures s'.calls[d].id in s'.ch.pending && s'.ch.pending[s'.calls[d].id] == d
      {
        IdsDistinctInWindow(s.calls, s.draws, c, d);
      }
    }
  }

  /** An honest response finds its own request's entry, or none. */
  lemma HonestFindsOwn(s: State, r: Response, origin: nat)
    requires IdsMatch(s) && Correlated(s) && InWindow(s) && InOrder(s)
    requires Honest(s, Reply(r, origin))
    ensures r.id in s.ch.pending <==> InTable(s.calls[origin])
    ensures r.id in s.ch.pending ==> s.ch.pending[r.id] == origin
  {
    var m :| m in s.read && m.origin == Some(origin);
    assert m in s.sent;
    if r.id in s.ch.pending && s.ch.pending[r.id] != origin {
      IdsDistinctInWindow(s.calls, s.draws, s.ch.pending[r.id], origin);
    }
  }

  lemma StepKeepsCorrelated(s: State, e: Event)
    requires IdsMatch(s) && Correlated(s) && InOrder(s)
    requires InWindow(s) && InWindow(Step(s, e)) && Honest(s, e)
    ensures Correlated(Step(s, e))
  {
    match e {
      case Draw(c) => DrawKeepsCorrelated(s, c);
      case Register(c) => RegisterKeepsCorrelated(s, c);
      case Erase(c) => EraseKeepsCorrelated(s, c);
      case Enqueue(_, _) => SendKeepsCorrelated(s, e);
      case Notify(_) => SendKeepsCorrelated(s, e);
      case Reply(r, origin) => HonestFindsOwn(s, r, origin);
      case Store =>
      case _ => CallerStepKeepsCorrelated(s, e);
    }
  }

  lemma {:induction false} GoodRunIsCorrelated(es: seq<Event>)
    requires GoodRun(es)
    ensures var s := Run(Init, es); IdsMatch(s) && Correlated(s) && InWindow(s) && InOrder(s)
    decreases |es|
  {
    RunKeepsIds(es);
    ReadInOrder(es);
    if es != [] {
      var before := es[..|es| - 1];
      GoodRunIsCorrelated(before);
      StepKeepsCorrelated(Run(Init, before), es[|es| - 1]);
    }
  }

  /**
   With an honest worker and a window shorter than the id space, the response a
   request returns answers the message that this very request sent.
   */
  lemma ReturnedResponseAnswersRequest(es: seq<Event>, c: nat)
    requires GoodRun(es)
    ensures var s := Run(Init, es);
            c < |s.calls| && s.calls[c].phase.Done? && s.calls[c].phase.result.Some? ==>
              c in s.origins && s.origins[c] == c && s.calls[c].phase.result.value.id == s.calls[c].id
  {
    GoodRunIsCorrelated(es);
  }

  lemma ListedResponseIsStored(s: State, r: Response, origin: nat)
    requires s.resolving.None? && r.id in s.ch.pending && s.ch.pending[r.id] == origin
    ensures Step(Step(s, Reply(r, origin)), Store).ch.slots == s.ch.slots[origin := Slot(Some(r), true)]
  {}

  /** An honest response reaches its request exactly while that request is in the table. */
  lemma ResponseIsDeliveredIffListed(es: seq<Event>, r: Response, origin: nat)
    requires GoodRun(es) && Honest(Run(Init, es), Reply(r, origin))
    requires Run(Init, es).resolving.None?
    ensures var s := Run(Init, es);
            Step(s, Reply(r, origin)) ==
              if InTable(s.calls[origin]) then s.(resolving := Some(Delivery(origin, r, origin))) else s
    ensures var s := Run(Init, es);
            InTable(s.calls[origin]) ==>
              Step(Step(s, Reply(r, origin)), Store).ch.slots ==
                s.ch.slots[origin := Slot(Some(r), true)]
  {
    GoodRunIsCorrelated(es);
    var s := Run(Init, es);
    HonestFindsOwn(s, r, origin);
    if InTable(s.calls[origin]) { ListedResponseIsStored(s, r, origin); }
  }

  // ------------------------------------------------------------------
  // Close
  // ------------------------------------------------------------------

  /** The call has a slot and the slot is completed. */
  predicate IsCompleted(s: State, c: nat) {
    c in s.ch.slots && s.ch.slots[c].completed
  }

  ghost predicate IsListed(s: State, c: nat) {
    c < |s.calls| && InTable(s.calls[c])
  }

  /** The step stores a response for the call. */
  predicate Stores(s: State, e: Event, c: nat) {
    e.Store? && s.resolving.Some? && s.resolving.value.call == c
  }

  lemma IsListedIffPending(es: seq<Event>, c: nat)
    requires GoodRun(es)
    ensures IsListed(Run(Init, es), c) <==> c in Run(Init, es).ch.pending.Values
    ensures Run(Init, es).ch.pending.Values <= Run(Init, es).ch.slots.Keys
  {
    GoodRunIsCorrelated(es);
    RunKeepsIds(es);
    var s := Run(Init, es);
    if IsListed(s, c) {
      assert s.ch.pending[s.calls[c].id] == c;
    }
  }

  lemma WakingCompletes(ch: Channel, c: nat)
    requires ch.pending.Values <= ch.slots.Keys
    ensures var slots := AllCompleted(ch).slots;
            && slots.Keys == ch.slots.Keys
            && (c in slots ==>
                  && slots[c].completed == (ch.slots[c].completed || c in ch.pending.Values)
                  && slots[c].response == ch.slots[c].response)
  {}

  /** Waking completes exactly the calls in the table, and stores no response. */
  lemma WakeAllReachesTheTable(es: seq<Event>, c: nat)
    requires GoodRun(es)
    ensures var s, s' := Run(Init, es), Step(Run(Init, es), WakeAll);
            && (IsCompleted(s', c) <==> IsCompleted(s, c) || IsListed(s, c))
            && (c in s.ch.slots ==> c in s'.ch.slots && s'.ch.slots[c].response == s.ch.slots[c].response)
  {
    IsListedIffPending(es, c);
    WakingCompletes(Run(Init, es).ch, c);
  }

  lemma StepKeepsCompletion(s: State, e: Event, c: nat)
    requires IdsMatch(s) && e != WakeAll && !Stores(s, e, c)
    ensures IsCompleted(Step(s, e), c) <==> IsCompleted(s, c)
  {}

  /** After the wake-up nothing wakes all again, and no response is stored for the call. */
  ghost predicate NothingWakes(es: seq<Event>, more: seq<Event>, c: nat) {
    forall k :: 0 <= k < |more| ==> more[k] != WakeAll && !Stores(Run(Init, es + more[..k]), more[k], c)
  }

  lemma NothingWakesFront(es: seq<Event>, more: seq<Event>, c: nat)
    requires NothingWakes(es, more, c) && more != []
    ensures NothingWakes(es, more[..|more| - 1], c)
  {
    var n := |more| - 1;
    assert forall k :: 0 <= k < n ==> more[..n][..k] == more[..k];
  }

  lemma {:induction false} CompletionStays(es: seq<Event>, more: seq<Event>, c: nat)
    requires NothingWakes(es, more, c)
    ensures IsCompleted(Run(Init, es + more), c) <==> IsCompleted(Run(Init, es), c)
    decreases |more|
  {
    if more == [] {
      assert es + more == es;
    } else {
      var n := |more| - 1;
      NothingWakesFront(es, more, c);
      CompletionStays(es, more[..n], c);
      RunSplits(Init, es, more);
      RunKeepsIds(es + more[..n]);
      StepKeepsCompletion(Run(Init, es + more[..n]), more[n], c);
    }
  }

  /**
   Close wakes exactly the calls that are in the table when it does: whatever happens
   afterwards, without a response of its own a call is completed if and only if it was
   completed or listed at the wake-up.
   */
  lemma CloseCompletesIffListed(es: seq<Event>, more: seq<Event>, c: nat)
    requires GoodRun(es) && NothingWakes(es + [WakeAll], more, c)
    ensures IsCompleted(Run(Init, es + [WakeAll] + more), c) <==>
              IsCompleted(Run(Init, es), c) || IsListed(Run(Init, es), c)
  {
    CompletionStays(es + [WakeAll], more, c);
    RunAppend(Init, es, WakeAll);
    WakeAllReachesTheTable(es, c);
  }

  /**
   A caller that looked at `closed` before close and registers after the wake-up
   waits, on a closed channel, for a completion that close does not bring.
   */
  lemma CloseMissesLateRegistration(s: State, c: nat, data: Bytes)
    requires At(s, c, Open)
    ensures var s' := Step(Step(Step(Step(s, MarkClosed), WakeAll), Register(c)), Enqueue(c, data));
            s'.ch.closed && At(s', c, Waiting) && s'.ch.slots[c] == Slot(None, false)
  {
    var woken := Step(Step(s, MarkClosed), WakeAll);
    assert At(woken, c, Open);
    assert At(Step(woken, Register(c)), c, Listed);
  }

  /** A caller that has drawn its id and found the channel open. */
  const Opening := [Begin, Draw(0), CheckClosed(0)]

  lemma OpeningRuns()
    ensures var s := Run(Init, Opening);
            At(s, 0, Open) && s.ch == Fresh.(nextId := 1) && |s.calls| == 1 && s.read == []
  {
    RunAppend(Init, [], Begin);
    RunAppend(Init, [Begin], Draw(0));
    RunAppend(Init, [Begin, Draw(0)], CheckClosed(0));
    assert [] + [Begin] == [Begin] && [Begin] + [Draw(0)] == [Begin, Draw(0)];
    assert [Begin, Draw(0)] + [CheckClosed(0)] == Opening;
  }

  /** A run in which that happens: the request waits on the closed channel, and close is over. */
  lemma LateCallerWaits(data: Bytes)
    ensures var s := Run(Init, Opening + [MarkClosed] + [WakeAll] + [Register(0)] + [Enqueue(0, data)]);
            s.ch.closed && At(s, 0, Waiting) && 0 in s.ch.slots && s.ch.slots[0] == Slot(None, false)
  {
    OpeningRuns();
    CloseMissesLateRegistration(Run(Init, Opening), 0, data);
    RunAppend(Init, Opening, MarkClosed);
    RunAppend(Init, Opening + [MarkClosed], WakeAll);
    RunAppend(Init, Opening + [MarkClosed] + [WakeAll], Register(0));
    RunAppend(Init, Opening + [MarkClosed] + [WakeAll] + [Register(0)], Enqueue(0, data));
  }

  // ------------------------------------------------------------------
  // Reading a closed channel
  // ------------------------------------------------------------------

  /**
   Reads are documented to return nothing once the channel is closed. In every run a
   read of a closed channel returns nothing exactly when everything sent has been read.
   */
  lemma ClosedReadIsEmptyIff(es: seq<Event>)
    requires Run(Init, es).ch.closed
    ensures var s := Run(Init, es); Step(s, Read).read == s.read <==> s.sent == s.read
  {
    ReadInOrder(es);
  }

  lemma SentAndClosedIsRead(s: State, data: Bytes)
    requires At(s, 0, Open) && s.ch.out == [] && s.read == []
    ensures var sent := Step(Step(s, Register(0)), Enqueue(0, data));
            var s' := Step(Step(sent, MarkClosed), Read);
            s'.ch.closed && s'.read == [Message(data, Some(0))]
  {
    var listed := Step(s, Register(0));
    assert At(listed, 0, Listed) && listed.ch.out == [] && listed.read == [];
    var sent := Step(listed, Enqueue(0, data));
    assert sent.ch.out == [Message(data, Some(0))] && sent.read == [];
  }

  /** A run in which it returns a message. */
  lemma ClosedChannelIsRead(data: Bytes)
    ensures var s := Run(Init, Opening + [Register(0)] + [Enqueue(0, data)] + [MarkClosed] + [Read]);
            s.ch.closed && s.read == [Message(data, Some(0))]
  {
    OpeningRuns();
    SentAndClosedIsRead(Run(Init, Opening), data);
    RunAppend(Init, Opening, Register(0));
    RunAppend(Init, Opening + [Register(0)], Enqueue(0, data));
    RunAppend(Init, Opening + [Register(0)] + [Enqueue(0, data)], MarkClosed);
    RunAppend(Init, Opening + [Register(0)] + [Enqueue(0, data)] + [MarkClosed], Read);
  }
}
