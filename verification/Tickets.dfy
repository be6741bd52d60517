/**
 Password-change tickets and the students they act on: the rows of three tables,
 changed by SQL statements each of which may fail.

 The repositories hold the database mutex for the length of a method, so each method
 is one step. What the database engine answers, the clock, the UUID generator and the
 password hasher are parameters. A failed statement changes nothing, and ROLLBACK
 brings back the rows as they were at BEGIN.
 */
module Tickets {
  import opened Wrappers

  type Id = string
  type Time = int

  datatype Status = Pending | Accepted | Rejected

  datatype Ticket = Ticket(
    tenantId: Id, fromId: Id, fromRole: string, toId: Id, toRole: string,
    kind: string, payload: string,
    status: Status, createdAt: Time, resolvedAt: Option<Time>)

  datatype Student = Student(
    tenantId: Id, classId: Id, fullName: string, username: string, passwordHash: string,
    machineId: Option<string>, isActivated: bool, activatedAt: Option<Time>, createdAt: Time)

  datatype Tables = Tables(tickets: map<Id, Ticket>, students: map<Id, Student>, teacherHashes: map<Id, string>)

  datatype DbError = InternalError | NotFound | Conflict | InvalidRequest

  /** How a statement ends. */
  datatype Outcome = PrepareFails | StepFails | Done

  // ------------------------------------------------------------------
  // Statements
  // ------------------------------------------------------------------

  predicate Cancels(t: Ticket, fromId: Id, kind: string) {
    t.fromId == fromId && t.kind == kind && t.status.Pending?
  }

  /** UPDATE pending_requests SET status='rejected' WHERE from_id AND type AND status='pending' */
  function Cancelled(tickets: map<Id, Ticket>, fromId: Id, kind: string, now: Time): map<Id, Ticket> {
    map id | id in tickets ::
      if Cancels(tickets[id], fromId, kind) then tickets[id].(status := Rejected, resolvedAt := Some(now)) else tickets[id]
  }

  predicate IsPending(tickets: map<Id, Ticket>, id: Id) {
    id in tickets && tickets[id].status.Pending?
  }

  /** UPDATE pending_requests SET status, resolved_at WHERE id AND status='pending' */
  function Resolved(tickets: map<Id, Ticket>, id: Id, status: Status, now: Time): map<Id, Ticket> {
    if IsPending(tickets, id) then tickets[id := tickets[id].(status := status, resolvedAt := Some(now))] else tickets
  }

  function Unbound(s: Student): Student {
    s.(machineId := None, isActivated := false, activatedAt := None)
  }

  predicate HasSubject(db: Tables, role: string, id: Id) {
    if role == "student" then id in db.students else id in db.teacherHashes
  }

  /** The password update of acceptAndApplyPassword, in the table that the role names. */
  function WithHash(db: Tables, role: string, id: Id, hash: string): Tables {
    if !HasSubject(db, role, id) then db
    else if role == "student" then
      db.(students := db.students[id := Unbound(db.students[id]).(passwordHash := hash)])
    else db.(teacherHashes := db.teacherHashes[id := hash])
  }

  const HASH_PREFIX := "$argon2id$"

  // ------------------------------------------------------------------
  // Methods of the repositories
  // ------------------------------------------------------------------

  datatype Draft = Draft(tenantId: Id, fromId: Id, fromRole: string, toId: Id, toRole: string, kind: string, payload: string)

  function NewTicket(d: Draft, now: Time): Ticket {
    Ticket(d.tenantId, d.fromId, d.fromRole, d.toId, d.toRole, d.kind, d.payload, Pending, now, None)
  }

  /** A failed cancel statement is not noticed, unless it cannot be prepared. */
  function Submitted(db: Tables, d: Draft, uuid: Option<Id>, cancel: Outcome, insert: Outcome, now: Time)
    : (Tables, Result<Id, DbError>)
  {
    if uuid.None? || cancel.PrepareFails? then (db, Failure(InternalError))
    else
      var cleared := if cancel.Done? then db.(tickets := Cancelled(db.tickets, d.fromId, d.kind, now)) else db;
      if !insert.Done? || uuid.value in db.tickets then (cleared, Failure(InternalError))
      else (cleared.(tickets := cleared.tickets[uuid.value := NewTicket(d, now)]), Success(uuid.value))
  }

  /** accept and reject. */
  function Decided(db: Tables, id: Id, status: Status, update: Outcome, now: Time): (Tables, Result<(), DbError>) {
    if !update.Done? then (db, Failure(InternalError))
    else if !IsPending(db.tickets, id) then (db, Failure(NotFound))
    else (db.(tickets := Resolved(db.tickets, id, status, now)), Success(()))
  }

  /** How the five statements of acceptAndApplyPassword end. */
  datatype Acceptance = Acceptance(begins: bool, password: Outcome, accept: Outcome, commits: bool)

  /** The outcome that the documentation promises: both tables change, or neither does. */
  function Applied(db: Tables, id: Id, role: string, subject: Id, hash: string, a: Acceptance, now: Time)
    : (Tables, Result<(), DbError>)
  {
    if !(HASH_PREFIX <= hash) then (db, Failure(InvalidRequest))
    else if !a.begins || !a.password.Done? then (db, Failure(InternalError))
    else if !HasSubject(db, role, subject) then (db, Failure(NotFound))
    else if !a.accept.Done? then (db, Failure(InternalError))
    else if !IsPending(db.tickets, id) then (db, Failure(NotFound))
    else if !a.commits then (db, Failure(InternalError))
    else
      (WithHash(db, role, subject, hash).(tickets := Resolved(db.tickets, id, Accepted, now)), Success(()))
  }

  predicate Taken(students: map<Id, Student>, tenantId: Id, username: string) {
    exists id :: id in students && students[id].tenantId == tenantId && students[id].username == username
  }

  function Created(db: Tables, tenantId: Id, classId: Id, fullName: string, username: string,
                   hash: Option<string>, uuid: Option<Id>, insert: Outcome, now: Time): (Tables, Result<Id, DbError>)
  {
    if hash.None? || uuid.None? || insert.PrepareFails? then (db, Failure(InternalError))
    else if uuid.value in db.students then (db, Failure(InternalError))
    else if Taken(db.students, tenantId, username) then (db, Failure(Conflict))
    else if insert.StepFails? then (db, Failure(InternalError))
    else
      (db.(students := db.students[uuid.value :=
             Student(tenantId, classId, fullName, username, hash.value, None, false, None, now)]),
       Success(uuid.value))
  }

  function Activated(db: Tables, id: Id, machine: string, check: Outcome, update: Outcome, now: Time)
    : (Tables, Result<(), DbError>)
  {
    if !check.Done? then (db, Failure(InternalError))
    else if id !in db.students then (db, Failure(NotFound))
    else if db.students[id].isActivated then (db, Failure(Conflict))
    else if !update.Done? then (db, Failure(InternalError))
    else
      (db.(students := db.students[id := db.students[id].(machineId := Some(machine), isActivated := true,
                                                           activatedAt := Some(now))]),
       Success(()))
  }

  /** resetMachine, and with a hash changePassword and applyPasswordHash. */
  function Unbinding(db: Tables, id: Id, hash: Option<string>, update: Outcome): (Tables, Result<(), DbError>) {
    if !update.Done? then (db, Failure(InternalError))
    else if id !in db.students then (db, Failure(NotFound))
    else
      var s := Unbound(db.students[id]);
      (db.(students := db.students[id := if hash.Some? then s.(passwordHash := hash.value) else s]), Success(()))
  }

  datatype Event =
    | Submit(draft: Draft, uuid: Option<Id>, cancel: Outcome, insert: Outcome, now: Time)
    | Decide(id: Id, status: Status, update: Outcome, now: Time)
    | Apply(id: Id, role: string, subject: Id, hash: string, acceptance: Acceptance, now: Time)
    | CreateStudent(tenantId: Id, classId: Id, fullName: string, username: string,
                    newHash: Option<string>, uuid: Option<Id>, insert: Outcome, now: Time)
    | Activate(id: Id, machine: string, check: Outcome, update: Outcome, now: Time)
    | Unbind(id: Id, newHash: Option<string>, update: Outcome)
    | RemoveStudent(id: Id)
    | SetTeacher(id: Id, hash: string)
    | RemoveTeacher(id: Id)

  function Step(db: Tables, e: Event): Tables {
    match e
    case Submit(d, uuid, cancel, insert, now) => Submitted(db, d, uuid, cancel, insert, now).0
    case Decide(id, status, update, now) => if status.Pending? then db else Decided(db, id, status, update, now).0
    case Apply(id, role, subject, hash, a, now) => Applied(db, id, role, subject, hash, a, now).0
    case CreateStudent(tenantId, classId, fullName, username, hash, uuid, insert, now) =>
      Created(db, tenantId, classId, fullName, username, hash, uuid, insert, now).0
    case Activate(id, machine, check, update, now) => Activated(db, id, machine, check, update, now).0
    case Unbind(id, hash, update) => Unbinding(db, id, hash, update).0
    case RemoveStudent(id) => db.(students := db.students - {id})
    case SetTeacher(id, hash) => db.(teacherHashes := db.teacherHashes[id := hash])
    case RemoveTeacher(id) => db.(teacherHashes := db.teacherHashes - {id})
  }

  function Run(es: seq<Event>): Tables
    decreases |es|
  {
    if es == [] then Tables(map[], map[], map[]) else Step(Run(es[..|es| - 1]), es[|es| - 1])
  }

  // ------------------------------------------------------------------
  // Rows
  // ------------------------------------------------------------------

  /** resolved_at is set exactly when a ticket is resolved; the three activation columns go together. */
  ghost predicate Dated(tickets: map<Id, Ticket>) {
    forall id :: id in tickets ==> (tickets[id].status.Pending? <==> tickets[id].resolvedAt.None?)
  }

  ghost predicate Bound(students: map<Id, Student>) {
    forall id :: id in students ==>
      var s := students[id]; s.isActivated == s.machineId.Some? == s.activatedAt.Some?
  }

  ghost predicate Consistent(db: Tables) {
    Dated(db.tickets) && Bound(db.students)
  }

  lemma StepKeepsDated(db: Tables, e: Event)
    requires Dated(db.tickets)
    ensures Dated(Step(db, e).tickets)
  {}

  lemma StepKeepsBound(db: Tables, e: Event)
    requires Bound(db.students)
    ensures Bound(Step(db, e).students)
  {}

  lemma StepKeepsConsistent(db: Tables, e: Event)
    requires Consistent(db)
    ensures Consistent(Step(db, e))
  {
    StepKeepsDated(db, e);
    StepKeepsBound(db, e);
  }

  /** Whatever statements fail. */
  lemma {:induction false} RowsAreConsistent(es: seq<Event>)
    ensures Consistent(Run(es))
    decreases |es|
  {
    if es != [] {
      RowsAreConsistent(es[..|es| - 1]);
      StepKeepsConsistent(Run(es[..|es| - 1]), es[|es| - 1]);
    }
  }

  // ------------------------------------------------------------------
  // At most one pending ticket per sender and kind
  // ------------------------------------------------------------------

  ghost predicate OnePending(tickets: map<Id, Ticket>) {
    forall id, id' ::
      (IsPending(tickets, id) && IsPending(tickets, id')
       && tickets[id].fromId == tickets[id'].fromId && tickets[id].kind == tickets[id'].kind) ==> id == id'
  }

  /** No pending ticket that a submission would have to cancel. */
  ghost predicate Clear(tickets: map<Id, Ticket>, fromId: Id, kind: string) {
    forall id :: id in tickets ==> !Cancels(tickets[id], fromId, kind)
  }

  lemma ResolvingKeepsOnePending(tickets: map<Id, Ticket>, tickets': map<Id, Ticket>)
    requires OnePending(tickets)
    requires forall id :: IsPending(tickets', id) ==> id in tickets && tickets'[id] == tickets[id]
    ensures OnePending(tickets')
  {}

  lemma SubmitKeepsOnePending(db: Tables, d: Draft, uuid: Option<Id>, cancel: Outcome, insert: Outcome, now: Time)
    requires OnePending(db.tickets) && (cancel != StepFails || Clear(db.tickets, d.fromId, d.kind))
    ensures OnePending(Submitted(db, d, uuid, cancel, insert, now).0.tickets)
  {}

  lemma OtherStepOnlyResolves(db: Tables, e: Event)
    requires !e.Submit?
    ensures var tickets' := Step(db, e).tickets;
            forall id :: IsPending(tickets', id) ==> id in db.tickets && tickets'[id] == db.tickets[id]
  {}

  lemma StepKeepsOnePending(db: Tables, e: Event)
    requires OnePending(db.tickets)
    requires e.Submit? ==> e.cancel != StepFails || Clear(db.tickets, e.draft.fromId, e.draft.kind)
    ensures OnePending(Step(db, e).tickets)
  {
    if e.Submit? {
      SubmitKeepsOnePending(db, e.draft, e.uuid, e.cancel, e.insert, e.now);
    } else {
      OtherStepOnlyResolves(db, e);
      ResolvingKeepsOnePending(db.tickets, Step(db, e).tickets);
    }
  }

  lemma {:induction false} OnePendingPerSender(es: seq<Event>)
    requires forall i :: 0 <= i < |es| && es[i].Submit? ==> es[i].cancel != StepFails
    ensures OnePending(Run(es).tickets)
    decreases |es|
  {
    if es != [] {
      OnePendingPerSender(es[..|es| - 1]);
      StepKeepsOnePending(Run(es[..|es| - 1]), es[|es| - 1]);
    }
  }

  /** A submission whose cancel statement fails unnoticed breaks this exactly when there was something to cancel. */
  lemma SubmitKeepsOnePendingIff(db: Tables, d: Draft, id: Id, cancel: Outcome, now: Time)
    requires OnePending(db.tickets) && id !in db.tickets && cancel != PrepareFails
    ensures OnePending(Submitted(db, d, Some(id), cancel, Done, now).0.tickets)
        <==> cancel.Done? || Clear(db.tickets, d.fromId, d.kind)
  {
    var tickets := Submitted(db, d, Some(id), cancel, Done, now).0.tickets;
    if !cancel.Done? && !Clear(db.tickets, d.fromId, d.kind) {
      var prior :| prior in db.tickets && Cancels(db.tickets[prior], d.fromId, d.kind);
      assert IsPending(tickets, prior) && IsPending(tickets, id);
    }
  }

  /** submit runs without a transaction: one that fails at the insert has still cancelled the earlier ticket. */
  lemma FailedSubmitChangesNothingIff(db: Tables, d: Draft, uuid: Option<Id>, cancel: Outcome, insert: Outcome, now: Time)
    requires Submitted(db, d, uuid, cancel, insert, now).1.Failure?
    ensures Submitted(db, d, uuid, cancel, insert, now).0 == db
        <==> uuid.None? || !cancel.Done? || Clear(db.tickets, d.fromId, d.kind)
  {
    var tickets := Cancelled(db.tickets, d.fromId, d.kind, now);
    if Clear(db.tickets, d.fromId, d.kind) {
      assert tickets == db.tickets;
    } else {
      var prior :| prior in db.tickets && Cancels(db.tickets[prior], d.fromId, d.kind);
      assert tickets[prior].status == Rejected;
    }
  }

  // ------------------------------------------------------------------
  // Resolved tickets
  // ------------------------------------------------------------------

  /** A ticket keeps what was submitted, and keeps everything once it is resolved. */
  predicate Later(t: Ticket, t': Ticket) {
    && t' == t.(status := t'.status, resolvedAt := t'.resolvedAt)
    && (!t.status.Pending? ==> t' == t)
  }

  ghost predicate AllLater(tickets: map<Id, Ticket>, tickets': map<Id, Ticket>) {
    forall id :: id in tickets ==> id in tickets' && Later(tickets[id], tickets'[id])
  }

  lemma StepIsLater(db: Tables, e: Event)
    ensures AllLater(db.tickets, Step(db, e).tickets)
  {}

  /** No ticket is ever deleted, rewritten or resolved twice. */
  lemma {:induction false} ResolutionIsFinal(es: seq<Event>, more: seq<Event>)
    ensures AllLater(Run(es).tickets, Run(es + more).tickets)
    decreases |more|
  {
    if more == [] {
      assert es + more == es;
    } else {
      var n := |more| - 1;
      var all, front := es + more, es + more[..n];
      assert all[..|all| - 1] == front && all[|all| - 1] == more[n];
      ResolutionIsFinal(es, more[..n]);
      StepIsLater(Run(front), more[n]);
    }
  }

  // ------------------------------------------------------------------
  // Accepting
  // ------------------------------------------------------------------

  /** Both tables change or neither does, whichever statement fails. */
  lemma BothTablesOrNeither(db: Tables, id: Id, role: string, subject: Id, hash: string, a: Acceptance, now: Time)
    ensures var (db', r) := Applied(db, id, role, subject, hash, a, now);
            && (r.Failure? ==> db' == db)
            && (r.Success? ==>
                  && IsPending(db.tickets, id)
                  && db'.tickets == db.tickets[id := db.tickets[id].(status := Accepted, resolvedAt := Some(now))]
                  && HASH_PREFIX <= hash
                  && (if role == "student" then
                        && subject in db.students && db'.teacherHashes == db.teacherHashes
                        && db'.students == db.students[subject := db.students[subject].(
                             passwordHash := hash, machineId := None, isActivated := false, activatedAt := None)]
                      else
                        && subject in db.teacherHashes && db'.students == db.students
                        && db'.teacherHashes == db.teacherHashes[subject := hash]))
  {}

  /**
   The controller reads a ticket and accepts it in two steps, with anything in between.
   If the second succeeds, the ticket was pending until then and what it applied is what
   the ticket asks for; from then on every attempt to decide the ticket again fails.
   */
  lemma AcceptedTicketIsApplied(es: seq<Event>, between: seq<Event>, id: Id, hashOf: string -> Option<string>,
                                a: Acceptance, now: Time)
    requires id in Run(es).tickets && hashOf(Run(es).tickets[id].payload).Some?
    ensures var t, db := Run(es).tickets[id], Run(es + between);
            var hash := hashOf(t.payload).value;
            var (db', r) := Applied(db, id, t.fromRole, t.fromId, hash, a, now);
            r.Success? ==>
              && t.status.Pending? && IsPending(db.tickets, id)
              && hashOf(db'.tickets[id].payload) == Some(hash) && db'.tickets[id].status == Accepted
              && (if t.fromRole == "student" then db'.students[t.fromId].passwordHash == hash && !db'.students[t.fromId].isActivated
                  else db'.teacherHashes[t.fromId] == hash)
  {
    ResolutionIsFinal(es, between);
    var t := Run(es).tickets[id];
    assert Later(t, Run(es + between).tickets[id]);
  }

  lemma DecidedOnce(es: seq<Event>, more: seq<Event>, id: Id)
    requires id in Run(es).tickets && !Run(es).tickets[id].status.Pending?
    ensures var db := Run(es + more);
            && (forall status, update, now :: Decided(db, id, status, update, now).1.Failure?)
            && (forall role, subject, hash, a, now :: Applied(db, id, role, subject, hash, a, now).1.Failure?)
  {
    ResolutionIsFinal(es, more);
    assert Later(Run(es).tickets[id], Run(es + more).tickets[id]);
  }
}
