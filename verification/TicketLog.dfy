/** What the tables hold after a run, row by row, told from the calls and how their statements ended. */
module TicketLog {
  import opened Wrappers
  import opened Tickets

  // ------------------------------------------------------------------
  // The log
  // ------------------------------------------------------------------

  predicate Open(t: Option<Ticket>) {
    t.Some? && t.value.status == Pending
  }

  function Settled(t: Option<Ticket>, status: Status, now: Time): Option<Ticket>
    requires t.Some?
  {
    Some(t.value.(status := status, resolvedAt := Some(now)))
  }

  /** All five statements of an acceptance succeed: the subject is there, the ticket is pending, the hash is one. */
  predicate Applies(before: seq<Event>, e: Event)
    decreases |before|, 1
  {
    && e.Apply? && "$argon2id$" <= e.hash
    && e.acceptance.begins && e.acceptance.password.Done? && e.acceptance.accept.Done? && e.acceptance.commits
    && (if e.role == "student" then StudentOf(before, e.subject).Some? else TeacherOf(before, e.subject).Some?)
    && Open(TicketOf(before, e.id))
  }

  function TicketOf(es: seq<Event>, id: Id): Option<Ticket>
    decreases |es|, 0
  {
    if es == [] then None
    else
      var before, e := es[..|es| - 1], es[|es| - 1];
      var t := TicketOf(before, id);
      match e
      case Submit(d, uuid, cancel, insert, now) =>
        if uuid.None? || cancel == PrepareFails then t
        else if t.None? then
          if uuid == Some(id) && insert == Done then
            Some(Ticket(d.tenantId, d.fromId, d.fromRole, d.toId, d.toRole, d.kind, d.payload, Pending, now, None))
          else None
        else if cancel == Done && Open(t) && t.value.fromId == d.fromId && t.value.kind == d.kind then
          Settled(t, Rejected, now)
        else t
      case Decide(ticket, status, update, now) =>
        if ticket == id && status != Pending && update == Done && Open(t) then Settled(t, status, now) else t
      case Apply(ticket, _, _, _, _, now) =>
        if ticket == id && Applies(before, e) then Settled(t, Accepted, now) else t
      case _ => t
  }

  /** A student of the tenant has the username. */
  predicate NameInUse(before: seq<Event>, tenantId: Id, username: string) {
    exists id :: id in Run(before).students
                 && Run(before).students[id].tenantId == tenantId && Run(before).students[id].username == username
  }

  function StudentOf(es: seq<Event>, id: Id): Option<Student>
    decreases |es|, 0
  {
    if es == [] then None
    else
      var before, e := es[..|es| - 1], es[|es| - 1];
      var s := StudentOf(before, id);
      match e
      case CreateStudent(tenantId, classId, fullName, username, hash, uuid, insert, now) =>
        if s.None? && uuid == Some(id) && hash.Some? && insert == Done && !NameInUse(before, tenantId, username) then
          Some(Student(tenantId, classId, fullName, username, hash.value, None, false, None, now))
        else s
      case Activate(student, machine, check, update, now) =>
        if student == id && s.Some? && !s.value.isActivated && check == Done && update == Done then
          Some(s.value.(machineId := Some(machine), isActivated := true, activatedAt := Some(now)))
        else s
      case Unbind(student, hash, update) =>
        if student == id && s.Some? && update == Done then
          Some(s.value.(machineId := None, isActivated := false, activatedAt := None,
                        passwordHash := if hash.Some? then hash.value else s.value.passwordHash))
        else s
      case Apply(_, role, subject, hash, _, _) =>
        if role == "student" && subject == id && Applies(before, e) && s.Some? then
          Some(s.value.(machineId := None, isActivated := false, activatedAt := None, passwordHash := hash))
        else s
      case RemoveStudent(student) => if student == id then None else s
      case _ => s
  }

  function TeacherOf(es: seq<Event>, id: Id): Option<string>
    decreases |es|, 0
  {
    if es == [] then None
    else
      var before, e := es[..|es| - 1], es[|es| - 1];
      match e
      case SetTeacher(teacher, hash) => if teacher == id then Some(hash) else TeacherOf(before, id)
      case RemoveTeacher(teacher) => if teacher == id then None else TeacherOf(before, id)
      case Apply(_, role, subject, hash, _, _) =>
        if role != "student" && subject == id && Applies(before, e) then Some(hash) else TeacherOf(before, id)
      case _ => TeacherOf(before, id)
  }

  // ------------------------------------------------------------------
  // One call
  // ------------------------------------------------------------------

  function Row<T>(table: map<Id, T>, id: Id): Option<T> {
    if id in table then Some(table[id]) else None
  }

  predicate AppliesNow(db: Tables, e: Event) {
    && e.Apply? && "$argon2id$" <= e.hash
    && e.acceptance.begins && e.acceptance.password.Done? && e.acceptance.accept.Done? && e.acceptance.commits
    && (if e.role == "student" then e.subject in db.students else e.subject in db.teacherHashes)
    && Open(Row(db.tickets, e.id))
  }

  lemma TicketAfter(db: Tables, e: Event, id: Id)
    ensures var t := Row(db.tickets, id);
            Row(Step(db, e).tickets, id) ==
              match e
              case Submit(d, uuid, cancel, insert, now) =>
                if uuid.None? || cancel == PrepareFails then t
                else if t.None? then
                  if uuid == Some(id) && insert == Done then
                    Some(Ticket(d.tenantId, d.fromId, d.fromRole, d.toId, d.toRole, d.kind, d.payload, Pending, now, None))
                  else None
                else if cancel == Done && Open(t) && t.value.fromId == d.fromId && t.value.kind == d.kind then
                  Settled(t, Rejected, now)
                else t
              case Decide(ticket, status, update, now) =>
                if ticket == id && status != Pending && update == Done && Open(t) then Settled(t, status, now) else t
              case Apply(ticket, _, _, _, _, now) =>
                if ticket == id && AppliesNow(db, e) then Settled(t, Accepted, now) else t
              case _ => t
  {}

  lemma StudentAfter(db: Tables, e: Event, id: Id)
    ensures var s := Row(db.students, id);
            Row(Step(db, e).students, id) ==
              match e
              case CreateStudent(tenantId, classId, fullName, username, hash, uuid, insert, now) =>
                if s.None? && uuid == Some(id) && hash.Some? && insert == Done && !Taken(db.students, tenantId, username) then
                  Some(Student(tenantId, classId, fullName, username, hash.value, None, false, None, now))
                else s
              case Activate(student, machine, check, update, now) =>
                if student == id && s.Some? && !s.value.isActivated && check == Done && update == Done then
                  Some(s.value.(machineId := Some(machine), isActivated := true, activatedAt := Some(now)))
                else s
              case Unbind(student, hash, update) =>
                if student == id && s.Some? && update == Done then
                  Some(s.value.(machineId := None, isActivated := false, activatedAt := None,
                                passwordHash := if hash.Some? then hash.value else s.value.passwordHash))
                else s
              case Apply(_, role, subject, hash, _, _) =>
                if role == "student" && subject == id && AppliesNow(db, e) && s.Some? then
                  Some(s.value.(machineId := None, isActivated := false, activatedAt := None, passwordHash := hash))
                else s
              case RemoveStudent(student) => if student == id then None else s
              case _ => s
  {}

  lemma TeacherAfter(db: Tables, e: Event, id: Id)
    ensures Row(Step(db, e).teacherHashes, id) ==
              match e
              case SetTeacher(teacher, hash) => if teacher == id then Some(hash) else Row(db.teacherHashes, id)
              case RemoveTeacher(teacher) => if teacher == id then None else Row(db.teacherHashes, id)
              case Apply(_, role, subject, hash, _, _) =>
                if role != "student" && subject == id && AppliesNow(db, e) then Some(hash) else Row(db.teacherHashes, id)
              case _ => Row(db.teacherHashes, id)
  {}

  // ------------------------------------------------------------------
  // Whole runs
  // ------------------------------------------------------------------

  lemma AppliesIsLogged(before: seq<Event>, e: Event)
    ensures AppliesNow(Run(before), e) <==> Applies(before, e)
    decreases |before|, 1
  {
    if e.Apply? {
      TicketsAreAsLogged(before, e.id);
      StudentsAreAsLogged(before, e.subject);
      TeachersAreAsLogged(before, e.subject);
    }
  }

  /** In every run, whatever fails, the tickets are exactly those that the calls leave. */
  lemma {:induction false} TicketsAreAsLogged(es: seq<Event>, id: Id)
    ensures Row(Run(es).tickets, id) == TicketOf(es, id)
    decreases |es|, 0
  {
    if es != [] {
      var before, e := es[..|es| - 1], es[|es| - 1];
      TicketsAreAsLogged(before, id);
      AppliesIsLogged(before, e);
      TicketAfter(Run(before), e, id);
    }
  }

  lemma {:induction false} StudentsAreAsLogged(es: seq<Event>, id: Id)
    ensures Row(Run(es).students, id) == StudentOf(es, id)
    decreases |es|, 0
  {
    if es != [] {
      var before, e := es[..|es| - 1], es[|es| - 1];
      StudentsAreAsLogged(before, id);
      AppliesIsLogged(before, e);
      StudentAfter(Run(before), e, id);
    }
  }

  lemma {:induction false} TeachersAreAsLogged(es: seq<Event>, id: Id)
    ensures Row(Run(es).teacherHashes, id) == TeacherOf(es, id)
    decreases |es|, 0
  {
    if es != [] {
      var before, e := es[..|es| - 1], es[|es| - 1];
      TeachersAreAsLogged(before, id);
      AppliesIsLogged(before, e);
      TeacherAfter(Run(before), e, id);
    }
  }

  // ------------------------------------------------------------------
  // What the calls return
  // ------------------------------------------------------------------

  /** A decision succeeds exactly when the statement runs and the ticket is pending, and then the ticket has its status. */
  lemma DecisionReturns(es: seq<Event>, id: Id, status: Status, update: Outcome, now: Time)
    requires status != Pending
    ensures var r := Decided(Run(es), id, status, update, now).1;
            && (r.Success? <==> update == Done && Open(TicketOf(es, id)))
            && (r == Failure(NotFound) <==> update == Done && !Open(TicketOf(es, id)))
            && (r.Success? ==> TicketOf(es + [Decide(id, status, update, now)], id) == Settled(TicketOf(es, id), status, now))
  {
    TicketsAreAsLogged(es, id);
    assert (es + [Decide(id, status, update, now)])[..|es|] == es;
  }

  /** An acceptance succeeds exactly when all its statements do, and is the subject's or the ticket's fault only if it is missing. */
  lemma AcceptanceReturns(es: seq<Event>, e: Event)
    requires e.Apply?
    ensures var r := Applied(Run(es), e.id, e.role, e.subject, e.hash, e.acceptance, e.now).1;
            && (r.Success? <==> Applies(es, e))
            && (r == Failure(InvalidRequest) <==> !("$argon2id$" <= e.hash))
            && (r == Failure(NotFound) ==>
                  || !Open(TicketOf(es, e.id))
                  || (if e.role == "student" then StudentOf(es, e.subject).None? else TeacherOf(es, e.subject).None?))
  {
    AppliesIsLogged(es, e);
    TicketsAreAsLogged(es, e.id);
    StudentsAreAsLogged(es, e.subject);
    TeachersAreAsLogged(es, e.subject);
  }

  /** An activated student is refused as a conflict, an unknown one as not found. */
  lemma ActivationReturns(es: seq<Event>, id: Id, machine: string, check: Outcome, update: Outcome, now: Time)
    ensures var s, r := StudentOf(es, id), Activated(Run(es), id, machine, check, update, now).1;
            && (r.Success? <==> check == Done && update == Done && s.Some? && !s.value.isActivated)
            && (r == Failure(Conflict) <==> check == Done && s.Some? && s.value.isActivated)
            && (r == Failure(NotFound) <==> check == Done && s.None?)
  {
    StudentsAreAsLogged(es, id);
  }

  /** A submission succeeds exactly when its id is new and the insert runs; the cancel need not have. */
  lemma SubmissionReturns(es: seq<Event>, d: Draft, uuid: Option<Id>, cancel: Outcome, insert: Outcome, now: Time)
    ensures var r := Submitted(Run(es), d, uuid, cancel, insert, now).1;
            && (r.Success? <==> uuid.Some? && cancel != PrepareFails && insert == Done && TicketOf(es, uuid.value).None?)
            && (r.Success? ==> r.value == uuid.value)
  {
    if uuid.Some? { TicketsAreAsLogged(es, uuid.value); }
  }

  /** A creation is a conflict exactly when everything else is in order and the tenant has the username. */
  lemma CreationReturns(es: seq<Event>, tenantId: Id, classId: Id, fullName: string, username: string,
                        hash: Option<string>, uuid: Option<Id>, insert: Outcome, now: Time)
    ensures var r := Created(Run(es), tenantId, classId, fullName, username, hash, uuid, insert, now).1;
            var ready := hash.Some? && uuid.Some? && insert != PrepareFails && StudentOf(es, uuid.value).None?;
            && (r.Success? <==> ready && insert == Done && !NameInUse(es, tenantId, username))
            && (r.Success? ==> r.value == uuid.value)
            && (r == Failure(Conflict) <==> ready && NameInUse(es, tenantId, username))
  {
    if uuid.Some? { StudentsAreAsLogged(es, uuid.value); }
  }

  /** Unbinding fails only with the statement, or for an unknown student. */
  lemma UnbindingReturns(es: seq<Event>, id: Id, hash: Option<string>, update: Outcome)
    ensures var r := Unbinding(Run(es), id, hash, update).1;
            && (r.Success? <==> update == Done && StudentOf(es, id).Some?)
            && (r == Failure(NotFound) <==> update == Done && StudentOf(es, id).None?)
  {
    StudentsAreAsLogged(es, id);
  }
}
