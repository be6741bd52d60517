/**
 The fixed-size worker pool: an in-place class, and every interleaving of
 enqueue, shutdown and the worker loop around it.

 `shutdown` sets the stop flag without the mutex, so the mutex and the two
 halves of each critical section are modelled step by step.
 */
module ThreadPool {
  import opened Wrappers

  type Task = nat

  /** What a worker does next: sleep, leave, or run a task. */
  datatype Choice = Sleep | Leave | Run(task: Task)

  class ThreadPool {
    var tasks: seq<Task>
    var stopping: bool
    var active: nat

    constructor ()
      ensures tasks == [] && !stopping && active == 0
    {
      tasks, stopping, active := [], false, 0;
    }

    method Enqueue(task: Task) returns (accepted: bool)
      modifies this`tasks
      ensures accepted == !stopping
      ensures tasks == if accepted then old(tasks) + [task] else old(tasks)
    {
      if stopping {
        return false;
      }
      tasks := tasks + [task];
      accepted := true;
    }

    /** The flag is set by the first call only; later calls return at once. */
    method Shutdown() returns (first: bool)
      modifies this`stopping
      ensures stopping && first == !old(stopping)
    {
      first := !stopping;
      stopping := true;
    }

    /** One pass of the worker's critical section. */
    method Next() returns (choice: Choice)
      modifies this`tasks
      ensures choice == Sleep <==> !stopping && old(tasks) == []
      ensures choice == Leave <==> stopping && old(tasks) == []
      ensures choice.Run? ==> old(tasks) == [choice.task] + tasks
      ensures !choice.Run? ==> tasks == old(tasks)
    {
      if !(stopping || tasks != []) {
        return Sleep;
      }
      if stopping && tasks == [] {
        return Leave;
      }
      choice := Run(tasks[0]);
      tasks := tasks[1..];
    }

    /** A worker alone on a stopped pool drains the queue, in order, before it leaves. */
    method WorkerLoop() returns (started: seq<Task>)
      requires stopping
      modifies this`tasks, this`active
      ensures started == old(tasks) && tasks == [] && active == old(active)
    {
      started := [];
      while true
        invariant started + tasks == old(tasks) && active == old(active)
        decreases |tasks|
      {
        var choice := Next();
        if choice == Leave {
          return;
        }
        active := active + 1;
        started := started + [choice.task];
        active := active - 1;
      }
    }
  }

  // ------------------------------------------------------------------
  // Interleavings
  // ------------------------------------------------------------------

  datatype Worker =
    | Idle                  // running the loop or asleep, without the mutex
    | Testing               // holds the mutex, about to test the wait predicate
    | Passed                // holds the mutex, the predicate was true
    | Busy(task: Task)
    | Returned

  datatype Caller =
    | Calling(task: Task)
    | Checking(task: Task)  // holds the mutex, about to read the stop flag
    | Pushing(task: Task)   // holds the mutex, has read false
    | Finished(accepted: bool)

  datatype Holder = Free | ByWorker(w: nat) | ByCaller(q: nat)

  datatype State = State(
    mutex: Holder,
    stopping: bool,
    tasks: seq<Task>,
    workers: seq<Worker>,
    callers: seq<Caller>,
    accepted: seq<Task>,
    started: seq<Task>,
    finished: seq<Task>)

  function Init(n: nat): State {
    State(Free, false, [], seq(n, _ => Idle), [], [], [], [])
  }

  datatype Event =
    | Call(task: Task)
    | CallerLock(q: nat)
    | Check(q: nat)
    | Push(q: nat)
    | Stop
    | WorkerLock(w: nat)
    | Test(w: nat)
    | Decide(w: nat)
    | Finish(w: nat)

  function WithWorker(s: State, w: nat, worker: Worker): State
    requires w < |s.workers|
  {
    s.(workers := s.workers[w := worker])
  }

  function WithCaller(s: State, q: nat, caller: Caller): State
    requires q < |s.callers|
  {
    s.(callers := s.callers[q := caller])
  }

  predicate WorkerAt(s: State, w: nat, worker: Worker) {
    w < |s.workers| && s.workers[w] == worker
  }

  function CallerStep(s: State, e: Event): State {
    match e
    case Call(task) => s.(callers := s.callers + [Calling(task)])
    case CallerLock(q) =>
      if q < |s.callers| && s.callers[q].Calling? && s.mutex == Free then
        WithCaller(s, q, Checking(s.callers[q].task)).(mutex := ByCaller(q))
      else s
    case Check(q) =>
      if q < |s.callers| && s.callers[q].Checking? then
        if s.stopping then WithCaller(s, q, Finished(false)).(mutex := Free)
        else WithCaller(s, q, Pushing(s.callers[q].task))
      else s
    case Push(q) =>
      if q < |s.callers| && s.callers[q].Pushing? then
        var task := s.callers[q].task;
        WithCaller(s, q, Finished(true))
          .(mutex := Free, tasks := s.tasks + [task], accepted := s.accepted + [task])
      else s
    case _ => s
  }

  function WorkerStep(s: State, e: Event): State {
    match e
    case WorkerLock(w) =>
      if WorkerAt(s, w, Idle) && s.mutex == Free then WithWorker(s, w, Testing).(mutex := ByWorker(w)) else s
    case Test(w) =>
      if WorkerAt(s, w, Testing) then
        if s.stopping || s.tasks != [] then WithWorker(s, w, Passed)
        else WithWorker(s, w, Idle).(mutex := Free)
      else s
    case Decide(w) =>
      if WorkerAt(s, w, Passed) then
        if s.stopping && s.tasks == [] then WithWorker(s, w, Returned).(mutex := Free)
        else if s.tasks == [] then s  // popping an empty queue: PassedHasWork shows it is unreachable
        else
          WithWorker(s, w, Busy(s.tasks[0]))
            .(mutex := Free, tasks := s.tasks[1..], started := s.started + [s.tasks[0]])
      else s
    case Finish(w) =>
      if w < |s.workers| && s.workers[w].Busy? then
        WithWorker(s, w, Idle).(finished := s.finished + [s.workers[w].task])
      else s
    case _ => s
  }

  function Step(s: State, e: Event): State {
    if e.Stop? then s.(stopping := true)
    else if e.Call? || e.CallerLock? || e.Check? || e.Push? then CallerStep(s, e)
    else WorkerStep(s, e)
  }

  function Exec(s: State, es: seq<Event>): State
    decreases |es|
  {
    if es == [] then s else Step(Exec(s, es[..|es| - 1]), es[|es| - 1])
  }

  // ------------------------------------------------------------------
  // What every step keeps
  // ------------------------------------------------------------------

  ghost predicate MutexHeld(mutex: Holder, workers: seq<Worker>, callers: seq<Caller>) {
    && (mutex.ByWorker? ==> mutex.w < |workers|)
    && (mutex.ByCaller? ==> mutex.q < |callers|)
    && (forall w :: 0 <= w < |workers| ==> ((workers[w].Testing? || workers[w].Passed?) <==> mutex == ByWorker(w)))
    && (forall q :: 0 <= q < |callers| ==> ((callers[q].Checking? || callers[q].Pushing?) <==> mutex == ByCaller(q)))
  }

  ghost predicate PassedHasWork(workers: seq<Worker>, stopping: bool, tasks: seq<Task>) {
    forall w :: 0 <= w < |workers| && workers[w].Passed? ==> stopping || tasks != []
  }

  /** Once a worker has returned, the pool is stopped, empty, and nobody is about to push. */
  ghost predicate ReturnedIsFinal(workers: seq<Worker>, callers: seq<Caller>, stopping: bool, tasks: seq<Task>) {
    (exists w :: 0 <= w < |workers| && workers[w].Returned?) ==>
      stopping && tasks == [] && forall q :: 0 <= q < |callers| ==> !callers[q].Pushing?
  }

  function Runs(worker: Worker, task: Task): nat {
    if worker == Busy(task) then 1 else 0
  }

  /** How many workers are running a task. */
  function Held(workers: seq<Worker>, task: Task): nat {
    if workers == [] then 0 else Runs(workers[0], task) + Held(workers[1..], task)
  }

  function Count(tasks: seq<Task>, task: Task): nat {
    multiset(tasks)[task]
  }

  /** Every started task is finished or held by a worker. */
  ghost predicate Balanced(started: seq<Task>, finished: seq<Task>, workers: seq<Worker>) {
    forall task :: Count(started, task) == Count(finished, task) + Held(workers, task)
  }

  ghost predicate Inv(s: State) {
    && MutexHeld(s.mutex, s.workers, s.callers)
    && PassedHasWork(s.workers, s.stopping, s.tasks)
    && ReturnedIsFinal(s.workers, s.callers, s.stopping, s.tasks)
    && s.accepted == s.started + s.tasks
    && Balanced(s.started, s.finished, s.workers)
  }

  lemma {:induction false} HeldUpdate(workers: seq<Worker>, w: nat, worker: Worker, task: Task)
    requires w < |workers|
    ensures Held(workers[w := worker], task) + Runs(workers[w], task) == Held(workers, task) + Runs(worker, task)
  {
    var updated := workers[w := worker];
    if w == 0 {
      assert updated[1..] == workers[1..];
    } else {
      assert updated[1..] == workers[1..][w - 1 := worker];
      HeldUpdate(workers[1..], w - 1, worker, task);
    }
  }

  lemma {:induction false} NobodyRuns(workers: seq<Worker>, task: Task)
    requires forall w :: 0 <= w < |workers| ==> !workers[w].Busy?
    ensures Held(workers, task) == 0
  {
    if workers != [] { NobodyRuns(workers[1..], task); }
  }

  lemma WorkerUpdateKeepsBalance(
    started: seq<Task>, finished: seq<Task>, workers: seq<Worker>,
    started': seq<Task>, finished': seq<Task>, w: nat, worker: Worker)
    requires Balanced(started, finished, workers) && w < |workers|
    requires started' == if worker.Busy? then started + [worker.task] else started
    requires finished' == if workers[w].Busy? then finished + [workers[w].task] else finished
    ensures Balanced(started', finished', workers[w := worker])
  {
    forall task
      ensures Count(started', task) == Count(finished', task) + Held(workers[w := worker], task)
    {
      HeldUpdate(workers, w, worker, task);
    }
  }

  lemma CallerStepKeepsInv(s: State, e: Event)
    requires Inv(s) && (e.Call? || e.CallerLock? || e.Check? || e.Push?)
    ensures Inv(Step(s, e))
  {
    if e.Push? && e.q < |s.callers| && s.callers[e.q].Pushing? {
      var task := s.callers[e.q].task;
      assert s.started + (s.tasks + [task]) == s.started + s.tasks + [task];
    }
  }

  lemma WorkerStepKeepsInv(s: State, e: Event)
    requires Inv(s) && (e.WorkerLock? || e.Test? || e.Decide? || e.Finish?)
    requires Step(s, e) != s
    ensures Inv(Step(s, e))
  {
    var s' := Step(s, e);
    WorkerUpdateKeepsBalance(s.started, s.finished, s.workers, s'.started, s'.finished, e.w, s'.workers[e.w]);
    if e.Decide? && s.tasks != [] {
      assert s.started + s.tasks == s.started + [s.tasks[0]] + s.tasks[1..];
    }
  }

  lemma StepKeepsInv(s: State, e: Event)
    requires Inv(s)
    ensures Inv(Step(s, e)) && |Step(s, e).workers| == |s.workers|
  {
    if e.Stop? {
    } else if e.Call? || e.CallerLock? || e.Check? || e.Push? {
      CallerStepKeepsInv(s, e);
    } else if Step(s, e) != s {
      WorkerStepKeepsInv(s, e);
    }
  }

  lemma {:induction false} ExecKeepsInv(n: nat, es: seq<Event>)
    ensures Inv(Exec(Init(n), es)) && |Exec(Init(n), es).workers| == n
  {
    if es == [] {
      forall task ensures Held(Init(n).workers, task) == 0 { NobodyRuns(Init(n).workers, task); }
    } else {
      ExecKeepsInv(n, es[..|es| - 1]);
      StepKeepsInv(Exec(Init(n), es[..|es| - 1]), es[|es| - 1]);
    }
  }

  // ------------------------------------------------------------------
  // Main results
  // ------------------------------------------------------------------

  /** At every moment the started tasks are the oldest accepted ones, in enqueue order, each once. */
  lemma {:induction false} StartedInEnqueueOrder(n: nat, es: seq<Event>)
    ensures var s := Exec(Init(n), es); s.accepted == s.started + s.tasks
  {
    ExecKeepsInv(n, es);
  }

  /**
   When a pool of at least one worker has seen all its workers return, nothing
   is queued, every accepted task was started in enqueue order, and every
   accepted task was finished exactly once, even one whose enqueue raced the flag.
   */
  lemma AllReturnedMeansAllDone(n: nat, es: seq<Event>)
    requires n >= 1
    requires forall w :: 0 <= w < n ==> WorkerAt(Exec(Init(n), es), w, Returned)
    ensures var s := Exec(Init(n), es);
            && s.stopping && s.tasks == []
            && s.started == s.accepted
            && multiset(s.finished) == multiset(s.accepted)
  {
    ExecKeepsInv(n, es);
    var s := Exec(Init(n), es);
    assert WorkerAt(s, 0, Returned);
    forall w | 0 <= w < |s.workers| ensures s.workers[w] == Returned { assert WorkerAt(s, w, Returned); }
    forall task ensures Count(s.finished, task) == Count(s.accepted, task) {
      NobodyRuns(s.workers, task);
    }
    assert forall task :: multiset(s.finished)[task] == Count(s.finished, task);
    assert s.accepted == s.started + [];
  }

  lemma StepKeepsReturned(s: State, e: Event, w: nat)
    requires Inv(s) && WorkerAt(s, w, Returned)
    ensures Step(s, e).accepted == s.accepted && WorkerAt(Step(s, e), w, Returned)
  {}

  /** No worker returns before shutdown, and after the first return no task is ever accepted again. */
  lemma {:induction false} ReturnFreezesTheQueue(n: nat, es: seq<Event>, more: seq<Event>, w: nat)
    requires WorkerAt(Exec(Init(n), es), w, Returned)
    ensures var s, s' := Exec(Init(n), es), Exec(Init(n), es + more);
            s.stopping && s'.accepted == s.accepted && s'.tasks == [] && WorkerAt(s', w, Returned)
    decreases |more|
  {
    ExecKeepsInv(n, es);
    if more == [] {
      assert es + more == es;
    } else {
      var init, e := more[..|more| - 1], more[|more| - 1];
      assert (es + more)[..|es + more| - 1] == es + init;
      ReturnFreezesTheQueue(n, es, init, w);
      ExecKeepsInv(n, es + init);
      StepKeepsReturned(Exec(Init(n), es + init), e, w);
      ExecKeepsInv(n, es + more);
    }
  }

  /** Without workers nothing that is accepted ever starts. */
  lemma {:induction false} NoWorkersStartNothing(es: seq<Event>)
    ensures Exec(Init(0), es).started == []
    decreases |es|
  {
    if es != [] {
      NoWorkersStartNothing(es[..|es| - 1]);
      ExecKeepsInv(0, es[..|es| - 1]);
    }
  }

  lemma StopAfter(s: State, e: Event)
    ensures Step(s, e).stopping <==> s.stopping || e == Stop
  {}

  /** The pool is stopping exactly when someone has set the flag. */
  lemma {:induction false} StoppingIffStopped(n: nat, es: seq<Event>)
    ensures Exec(Init(n), es).stopping <==> Stop in es
    decreases |es|
  {
    if es != [] {
      var before, e := es[..|es| - 1], es[|es| - 1];
      StoppingIffStopped(n, before);
      StopAfter(Exec(Init(n), before), e);
      assert es == before + [e];
    }
  }

  // ------------------------------------------------------------------
  // The critical sections are the methods of the class
  // ------------------------------------------------------------------

  /** The steps that the holder of the mutex takes. */
  predicate Own(e: Event, holder: Holder) {
    match e
    case Check(q) => holder == ByCaller(q)
    case Push(q) => holder == ByCaller(q)
    case Test(w) => holder == ByWorker(w)
    case Decide(w) => holder == ByWorker(w)
    case _ => false
  }

  /** What the holder of the mutex relies on. */
  predicate SameForHolder(s: State, s': State) {
    && s'.mutex == s.mutex && s'.tasks == s.tasks && (s.stopping ==> s'.stopping)
    && (s.mutex.ByCaller? ==>
          s.mutex.q < |s.callers| && s.mutex.q < |s'.callers| && s'.callers[s.mutex.q] == s.callers[s.mutex.q])
    && (s.mutex.ByWorker? ==>
          s.mutex.w < |s.workers| && s.mutex.w < |s'.workers| && s'.workers[s.mutex.w] == s.workers[s.mutex.w])
  }

  lemma StepRespectsHolder(s: State, e: Event)
    requires Inv(s) && s.mutex != Free && !Own(e, s.mutex)
    ensures SameForHolder(s, Step(s, e))
  {}

  lemma {:induction false} OthersRespectHolder(s: State, es: seq<Event>)
    requires Inv(s) && s.mutex != Free && forall i :: 0 <= i < |es| ==> !Own(es[i], s.mutex)
    ensures Inv(Exec(s, es)) && SameForHolder(s, Exec(s, es))
    decreases |es|
  {
    if es != [] {
      var n := |es| - 1;
      OthersRespectHolder(s, es[..n]);
      StepKeepsInv(Exec(s, es[..n]), es[n]);
      StepRespectsHolder(Exec(s, es[..n]), es[n]);
    }
  }

  /**
   With anything the others do in between, stopping included, a caller's critical section is
   the method Enqueue at the moment at which it reads the flag.
   */
  lemma CallerStepsAreEnqueue(s: State, q: nat, xs: seq<Event>, ys: seq<Event>)
    requires Inv(s) && q < |s.callers| && s.callers[q].Calling? && s.mutex == Free
    requires forall e :: e in xs || e in ys ==> !Own(e, ByCaller(q))
    ensures var locked := Exec(Step(s, CallerLock(q)), xs);
            var checked := Step(locked, Check(q));
            var pushed := Step(Exec(checked, ys), Push(q));
            if locked.stopping then
              q < |checked.callers| && checked.callers[q] == Finished(false)
              && checked.tasks == s.tasks && checked.mutex == Free
            else
              q < |pushed.callers| && pushed.callers[q] == Finished(true)
              && pushed.tasks == s.tasks + [s.callers[q].task] && pushed.mutex == Free
  {
    StepKeepsInv(s, CallerLock(q));
    OthersRespectHolder(Step(s, CallerLock(q)), xs);
    var locked := Exec(Step(s, CallerLock(q)), xs);
    var checked := Step(locked, Check(q));
    StepKeepsInv(locked, Check(q));
    if !locked.stopping {
      OthersRespectHolder(checked, ys);
    }
  }

  /** In the same way a worker's critical section is the method Next at the moment of its test. */
  lemma WorkerStepsAreNext(s: State, w: nat, xs: seq<Event>, ys: seq<Event>)
    requires Inv(s) && WorkerAt(s, w, Idle) && s.mutex == Free
    requires forall e :: e in xs || e in ys ==> !Own(e, ByWorker(w))
    ensures var locked := Exec(Step(s, WorkerLock(w)), xs);
            var tested := Step(locked, Test(w));
            var decided := Step(Exec(tested, ys), Decide(w));
            if s.tasks != [] then
              WorkerAt(decided, w, Busy(s.tasks[0])) && decided.tasks == s.tasks[1..] && decided.mutex == Free
            else if locked.stopping then
              WorkerAt(decided, w, Returned) && decided.tasks == [] && decided.mutex == Free
            else
              WorkerAt(tested, w, Idle) && tested.tasks == [] && tested.mutex == Free
  {
    StepKeepsInv(s, WorkerLock(w));
    OthersRespectHolder(Step(s, WorkerLock(w)), xs);
    var locked := Exec(Step(s, WorkerLock(w)), xs);
    StepKeepsInv(locked, Test(w));
    if s.tasks != [] || locked.stopping {
      OthersRespectHolder(Step(locked, Test(w)), ys);
    }
  }

  // ------------------------------------------------------------------
  // Draining
  // ------------------------------------------------------------------

  /** One pass of the worker's loop with nobody in between. */
  function Pass(w: nat): seq<Event> {
    [WorkerLock(w), Test(w), Decide(w), Finish(w)]
  }

  lemma PassRuns(s: State, w: nat)
    ensures Exec(s, Pass(w)) == Step(Step(Step(Step(s, WorkerLock(w)), Test(w)), Decide(w)), Finish(w))
  {
    var es := Pass(w);
    assert es[..3][..2] == es[..2] && es[..2][..1] == es[..1] && es[..1][..0] == [];
    assert Exec(s, es[..1]) == Step(s, WorkerLock(w));
    assert Exec(s, es[..2]) == Step(Exec(s, es[..1]), Test(w));
    assert Exec(s, es[..3]) == Step(Exec(s, es[..2]), Decide(w));
  }

  lemma PassTakesOne(s: State, w: nat)
    requires Inv(s) && s.stopping && s.mutex == Free && WorkerAt(s, w, Idle)
    ensures var s' := Exec(s, Pass(w));
            && s'.stopping && s'.mutex == Free && s'.accepted == s.accepted
            && if s.tasks == [] then
                 WorkerAt(s', w, Returned) && s'.tasks == [] && s'.started == s.started && s'.finished == s.finished
               else
                 && WorkerAt(s', w, Idle) && s'.tasks == s.tasks[1..]
                 && s'.started == s.started + [s.tasks[0]] && s'.finished == s.finished + [s.tasks[0]]
  {
    PassRuns(s, w);
  }

  function Passes(w: nat, k: nat): seq<Event> {
    if k == 0 then [] else Pass(w) + Passes(w, k - 1)
  }

  lemma ExecAppend(s: State, es: seq<Event>, e: Event)
    ensures Exec(s, es + [e]) == Step(Exec(s, es), e)
  {
    assert (es + [e])[..|es|] == es;
  }

  lemma ExecSplits(s: State, es: seq<Event>, more: seq<Event>)
    requires more != []
    ensures Exec(s, es + more) == Step(Exec(s, es + more[..|more| - 1]), more[|more| - 1])
  {
    var n := |more| - 1;
    assert es + more == es + more[..n] + [more[n]];
    ExecAppend(s, es + more[..n], more[n]);
  }

  lemma {:induction false} ExecJoins(s: State, es: seq<Event>, more: seq<Event>)
    ensures Exec(s, es + more) == Exec(Exec(s, es), more)
    decreases |more|
  {
    if more == [] {
      assert es + more == es;
    } else {
      ExecSplits(s, es, more);
      ExecJoins(s, es, more[..|more| - 1]);
    }
  }

  lemma {:induction false} ExecKeepsInvFrom(s: State, es: seq<Event>)
    requires Inv(s)
    ensures Inv(Exec(s, es))
    decreases |es|
  {
    if es != [] {
      ExecKeepsInvFrom(s, es[..|es| - 1]);
      StepKeepsInv(Exec(s, es[..|es| - 1]), es[|es| - 1]);
    }
  }

  /** What draining s comes to. */
  ghost predicate Drained(s: State, s': State, w: nat) {
    && s'.tasks == [] && WorkerAt(s', w, Returned)
    && s'.started == s.started + s.tasks && s'.finished == s.finished + s.tasks
  }

  lemma DrainedByOneMore(s: State, passed: State, s': State, w: nat)
    requires s.tasks != [] && passed.tasks == s.tasks[1..]
    requires passed.started == s.started + [s.tasks[0]] && passed.finished == s.finished + [s.tasks[0]]
    requires Drained(passed, s', w)
    ensures Drained(s, s', w)
  {
    assert s.tasks == [s.tasks[0]] + s.tasks[1..];
  }

  lemma {:induction false} PassesDrain(s: State, w: nat, k: nat)
    requires Inv(s) && s.stopping && s.mutex == Free && WorkerAt(s, w, Idle) && k == |s.tasks|
    ensures Drained(s, Exec(s, Passes(w, k + 1)), w)
    decreases k
  {
    var passed := Exec(s, Pass(w));
    PassTakesOne(s, w);
    ExecJoins(s, Pass(w), Passes(w, k));
    if k > 0 {
      ExecKeepsInvFrom(s, Pass(w));
      PassesDrain(passed, w, k - 1);
      DrainedByOneMore(s, passed, Exec(passed, Passes(w, k)), w);
    } else {
      LastPassDrains(s, passed, w);
    }
  }

  lemma LastPassDrains(s: State, passed: State, w: nat)
    requires s.tasks == [] && passed == Exec(s, Pass(w))
    requires Inv(s) && s.stopping && s.mutex == Free && WorkerAt(s, w, Idle)
    ensures Drained(s, Exec(passed, Passes(w, 0)), w)
  {
    PassTakesOne(s, w);
  }

  /**
   From every state that a run reaches after the flag was set, one idle worker alone can run
   all queued tasks in order and return, which leaves every accepted task started.
   */
  lemma StoppedPoolDrains(n: nat, es: seq<Event>, w: nat)
    requires Stop in es && Exec(Init(n), es).mutex == Free && WorkerAt(Exec(Init(n), es), w, Idle)
    ensures var s := Exec(Init(n), es);
            var s' := Exec(Init(n), es + Passes(w, |s.tasks| + 1));
            && WorkerAt(s', w, Returned) && s'.tasks == []
            && s'.started == s.accepted && s'.finished == s.finished + s.tasks
  {
    var s := Exec(Init(n), es);
    ExecKeepsInv(n, es);
    StoppingIffStopped(n, es);
    PassesDrain(s, w, |s.tasks|);
    ExecJoins(Init(n), es, Passes(w, |s.tasks| + 1));
  }
}
