/** The repository classes, statement by statement, over the tables of one database. */
module Repositories {
  import opened Wrappers
  import opened Tickets

  /**
   The rows, and those that a ROLLBACK would bring back. Each method is one statement;
   the outcome says how the engine ends it, and changes counts the rows it changed.
   */
  class Database {
    var tickets: map<Id, Ticket>
    var students: map<Id, Student>
    var teacherHashes: map<Id, string>
    var saved: Option<Tables>

    ghost function Rows(): Tables
      reads this
    {
      Tables(tickets, students, teacherHashes)
    }

    constructor ()
      ensures Rows() == Tables(map[], map[], map[]) && saved == None
    {
      tickets, students, teacherHashes, saved := map[], map[], map[], None;
    }

    method Begin(begins: bool)
      modifies this`saved
      ensures saved == if begins then Some(Rows()) else old(saved)
    {
      if begins {
        saved := Some(Tables(tickets, students, teacherHashes));
      }
    }

    method Commit(commits: bool)
      modifies this`saved
      ensures saved == if commits then None else old(saved)
    {
      if commits {
        saved := None;
      }
    }

    method Rollback()
      modifies this
      ensures saved == None && Rows() == if old(saved).Some? then old(saved).value else old(Rows())
    {
      if saved.Some? {
        tickets, students, teacherHashes := saved.value.tickets, saved.value.students, saved.value.teacherHashes;
        saved := None;
      }
    }

    method CancelPending(fromId: Id, kind: string, now: Time, outcome: Outcome)
      modifies this`tickets
      ensures tickets == if outcome.Done? then Cancelled(old(tickets), fromId, kind, now) else old(tickets)
    {
      if outcome.Done? {
        tickets := Cancelled(tickets, fromId, kind, now);
      }
    }

    method InsertTicket(id: Id, t: Ticket, outcome: Outcome) returns (rc: Outcome)
      modifies this`tickets
      ensures rc == (if outcome.Done? && id in old(tickets) then StepFails else outcome)
      ensures tickets == if rc.Done? then old(tickets)[id := t] else old(tickets)
    {
      if outcome.Done? && id in tickets {
        return StepFails;
      }
      rc := outcome;
      if rc.Done? {
        tickets := tickets[id := t];
      }
    }

    method ResolveTicket(id: Id, status: Status, now: Time, outcome: Outcome) returns (changes: nat)
      modifies this`tickets
      ensures tickets == if outcome.Done? then Resolved(old(tickets), id, status, now) else old(tickets)
      ensures changes == if outcome.Done? && IsPending(old(tickets), id) then 1 else 0
    {
      changes := 0;
      if outcome.Done? && id in tickets && tickets[id].status == Pending {
        tickets := tickets[id := tickets[id].(status := status, resolvedAt := Some(now))];
        changes := 1;
      }
    }

    method SetTeacherHash(id: Id, hash: string, outcome: Outcome) returns (changes: nat)
      modifies this`teacherHashes
      ensures if outcome.Done? && id in old(teacherHashes) then teacherHashes == old(teacherHashes)[id := hash] && changes == 1
              else teacherHashes == old(teacherHashes) && changes == 0
    {
      changes := 0;
      if outcome.Done? && id in teacherHashes {
        teacherHashes := teacherHashes[id := hash];
        changes := 1;
      }
    }

    /** SET machine_id=NULL, is_activated=0, activated_at=NULL, and password_hash if one is given */
    method UnbindStudent(id: Id, hash: Option<string>, outcome: Outcome) returns (changes: nat)
      modifies this`students
      ensures if outcome.Done? && id in old(students) then
                var s := Unbound(old(students)[id]);
                students == old(students)[id := if hash.Some? then s.(passwordHash := hash.value) else s] && changes == 1
              else students == old(students) && changes == 0
    {
      changes := 0;
      if outcome.Done? && id in students {
        var s := students[id];
        if hash.Some? {
          s := s.(passwordHash := hash.value);
        }
        s := s.(machineId := None);
        s := s.(isActivated := false);
        s := s.(activatedAt := None);
        students := students[id := s];
        changes := 1;
      }
    }
  }

  class PendingRequestRepository {
    const db: Database

    constructor (db: Database)
      ensures this.db == db
    {
      this.db := db;
    }

    method Submit(d: Draft, uuid: Option<Id>, cancel: Outcome, insert: Outcome, now: Time) returns (r: Result<Id, DbError>)
      modifies db`tickets
      ensures (db.Rows(), r) == Submitted(old(db.Rows()), d, uuid, cancel, insert, now)
    {
      if uuid.None? {
        return Failure(InternalError);
      }
      if cancel.PrepareFails? {
        return Failure(InternalError);
      }
      db.CancelPending(d.fromId, d.kind, now, cancel);
      var rc := db.InsertTicket(uuid.value, NewTicket(d, now), insert);
      if !rc.Done? {
        return Failure(InternalError);
      }
      r := Success(uuid.value);
    }

    method Accept(id: Id, update: Outcome, now: Time) returns (r: Result<(), DbError>)
      modifies db`tickets
      ensures (db.Rows(), r) == Decided(old(db.Rows()), id, Accepted, update, now)
    {
      var changes := db.ResolveTicket(id, Accepted, now, update);
      if !update.Done? {
        return Failure(InternalError);
      }
      if changes == 0 {
        return Failure(NotFound);
      }
      r := Success(());
    }

    method Reject(id: Id, update: Outcome, now: Time) returns (r: Result<(), DbError>)
      modifies db`tickets
      ensures (db.Rows(), r) == Decided(old(db.Rows()), id, Rejected, update, now)
    {
      var changes := db.ResolveTicket(id, Rejected, now, update);
      if !update.Done? {
        return Failure(InternalError);
      }
      if changes == 0 {
        return Failure(NotFound);
      }
      r := Success(());
    }

    /** The transaction: wherever it stops, the rows are those of Applied, and none is left open. */
    method AcceptAndApplyPassword(id: Id, role: string, subject: Id, hash: string, a: Acceptance, now: Time)
      returns (r: Result<(), DbError>)
      requires db.saved == None
      modifies db
      ensures (db.Rows(), r) == Applied(old(db.Rows()), id, role, subject, hash, a, now)
      ensures db.saved == None
    {
      if !(HASH_PREFIX <= hash) {
        return Failure(InvalidRequest);
      }
      db.Begin(a.begins);
      if !a.begins {
        return Failure(InternalError);
      }
      var changes;
      if role == "student" {
        changes := db.UnbindStudent(subject, Some(hash), a.password);
      } else {
        changes := db.SetTeacherHash(subject, hash, a.password);
      }
      if !a.password.Done? {
        db.Rollback();
        return Failure(InternalError);
      }
      if changes == 0 {
        db.Rollback();
        return Failure(NotFound);
      }
      changes := db.ResolveTicket(id, Accepted, now, a.accept);
      if !a.accept.Done? {
        db.Rollback();
        return Failure(InternalError);
      }
      if changes == 0 {
        db.Rollback();
        return Failure(NotFound);
      }
      db.Commit(a.commits);
      if !a.commits {
        db.Rollback();
        return Failure(InternalError);
      }
      r := Success(());
    }
  }

  class StudentRepository {
    const db: Database

    constructor (db: Database)
      ensures this.db == db
    {
      this.db := db;
    }

    /** hash is what the password hasher returns. */
    method Create(tenantId: Id, classId: Id, fullName: string, username: string,
                  hash: Option<string>, uuid: Option<Id>, insert: Outcome, now: Time)
      returns (r: Result<Id, DbError>)
      modifies db`students
      ensures (db.Rows(), r) == Created(old(db.Rows()), tenantId, classId, fullName, username, hash, uuid, insert, now)
    {
      if hash.None? {
        return Failure(InternalError);
      }
      if uuid.None? {
        return Failure(InternalError);
      }
      if insert.PrepareFails? || uuid.value in db.students {
        return Failure(InternalError);
      }
      var taken := UsernameTaken(tenantId, username);
      if taken {
        return Failure(Conflict);
      }
      if insert.StepFails? {
        return Failure(InternalError);
      }
      db.students := db.students[uuid.value :=
        Student(tenantId, classId, fullName, username, hash.value, None, false, None, now)];
      r := Success(uuid.value);
    }

    /** The constraint UNIQUE(tenant_id, username). */
    method UsernameTaken(tenantId: Id, username: string) returns (taken: bool)
      ensures taken == Taken(db.students, tenantId, username)
    {
      var todo := db.students.Keys;
      while todo != {}
        invariant todo <= db.students.Keys
        invariant forall id :: id in db.students.Keys - todo ==>
                    !(db.students[id].tenantId == tenantId && db.students[id].username == username)
      {
        var id :| id in todo;
        if db.students[id].tenantId == tenantId && db.students[id].username == username {
          return true;
        }
        todo := todo - {id};
      }
      taken := false;
    }

    method Activate(id: Id, machine: string, check: Outcome, update: Outcome, now: Time) returns (r: Result<(), DbError>)
      modifies db`students
      ensures (db.Rows(), r) == Activated(old(db.Rows()), id, machine, check, update, now)
    {
      if !check.Done? {
        return Failure(InternalError);
      }
      if id !in db.students {
        return Failure(NotFound);
      }
      if db.students[id].isActivated {
        return Failure(Conflict);
      }
      if !update.Done? {
        return Failure(InternalError);
      }
      db.students := db.students[id := db.students[id].(machineId := Some(machine), isActivated := true,
                                                        activatedAt := Some(now))];
      r := Success(());
    }

    method ResetMachine(id: Id, update: Outcome) returns (r: Result<(), DbError>)
      modifies db`students
      ensures (db.Rows(), r) == Unbinding(old(db.Rows()), id, None, update)
    {
      var changes := db.UnbindStudent(id, None, update);
      if !update.Done? {
        return Failure(InternalError);
      }
      if changes == 0 {
        return Failure(NotFound);
      }
      r := Success(());
    }

    method ChangePassword(id: Id, newHash: Option<string>, update: Outcome) returns (r: Result<(), DbError>)
      modifies db`students
      ensures newHash.None? ==> db.Rows() == old(db.Rows()) && r == Failure(InternalError)
      ensures newHash.Some? ==> (db.Rows(), r) == Unbinding(old(db.Rows()), id, newHash, update)
    {
      if newHash.None? {
        return Failure(InternalError);
      }
      r := ApplyPasswordHash(id, newHash.value, update);
    }

    method ApplyPasswordHash(id: Id, hash: string, update: Outcome) returns (r: Result<(), DbError>)
      modifies db`students
      ensures (db.Rows(), r) == Unbinding(old(db.Rows()), id, Some(hash), update)
    {
      var changes := db.UnbindStudent(id, Some(hash), update);
      if !update.Done? {
        return Failure(InternalError);
      }
      if changes == 0 {
        return Failure(NotFound);
      }
      r := Success(());
    }
  }
}
