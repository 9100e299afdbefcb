/** The employee, client and owner services.  The three keep one profile row
    per user in their own table and behave alike, so the table logic is
    written once, as functions on a profile table, and each service applies
    it to its own table. */
module Profiles {
  import opened Common
  import opened Store

  /** The body of a profile update; `userId` is None when left out. */
  datatype ProfilePatch = ProfilePatch(userId: Option<Id>, fields: map<string, string>)

  /** `userId` already has a row in the table. */
  predicate HasProfile(t: Table<Profile>, userId: Id) {
    exists k :: k in t.rows && t.rows[k].userId == userId
  }

  /** The user exists and has chosen `role`. */
  predicate HasRole(users: map<Id, User>, userId: Id, role: Role) {
    userId in users && users[userId].roles == Some(role)
  }

  /** The ids of the rows of `userId` (at most one). */
  function ProfileOf(t: Table<Profile>, userId: Id): set<Id> {
    set k | k in t.rows && t.rows[k].userId == userId
  }

  /** `create`: NotFound unless the user exists with `role` and has no row
      yet; otherwise a new row for the user with the given columns. */
  function AddProfile(users: map<Id, User>, t: Table<Profile>, role: Role, fields: map<string, string>, userId: Id)
    : (res: (Result<Profile>, Table<Profile>))
    requires ProfilesOk(t)
    ensures ProfilesOk(res.1)
    ensures res.0.Ok? <==> HasRole(users, userId, role) && !HasProfile(t, userId)
    ensures res.0.Err? ==> res.0.error == NotFound && res.1 == t
    ensures res.0.Ok? ==> res.0.value == Profile(t.nextId, userId, fields) && res.1 == t.Insert(res.0.value)
    ensures HasProfile(res.1, userId) <==> HasProfile(t, userId) || res.0.Ok?
  {
    if HasRole(users, userId, role) && !HasProfile(t, userId) then
      var p := Profile(t.nextId, userId, fields);
      assert p.userId == userId && t.Insert(p).rows[t.nextId] == p;
      (Ok(p), t.Insert(p))
    else
      (Err(NotFound), t)
  }

  /** The row with `id`, or null. */
  function FindProfile(t: Table<Profile>, id: Id): (r: Option<Profile>)
    requires ProfilesOk(t)
    ensures r.Some? <==> id in t.rows
    ensures r.Some? ==> r.value.id == id && r.value == t.rows[id]
  {
    if id in t.rows then Some(t.rows[id]) else None
  }

  /** `update`: the given columns overwrite the old ones, the others stay.
      An unknown id, or a user that already has another row, is an
      InternalServerError with no change. */
  function PatchProfile(t: Table<Profile>, id: Id, p: ProfilePatch): (res: (Result<Profile>, Table<Profile>))
    requires ProfilesOk(t)
    ensures ProfilesOk(res.1)
    ensures id !in t.rows ==> res == (Err(InternalServerError), t)
    ensures res.0.Ok? ==>
              && id in t.rows && res.0.value.id == id
              && res.0.value.userId == p.userId.GetOr(t.rows[id].userId)
              && res.0.value.fields.Keys == t.rows[id].fields.Keys + p.fields.Keys
              && (forall f :: f in p.fields ==> res.0.value.fields[f] == p.fields[f])
              && (forall f :: f in t.rows[id].fields && f !in p.fields ==> res.0.value.fields[f] == t.rows[id].fields[f])
              && res.1 == t.(rows := t.rows[id := res.0.value])
    ensures res.0.Err? ==> res.1 == t && res.0.error == InternalServerError
    ensures res.0.Ok? <==>
              && id in t.rows
              && !(exists k :: k in t.rows && k != id && t.rows[k].userId == p.userId.GetOr(t.rows[id].userId))
    ensures id in t.rows && (p.userId.None? || p.userId == Some(t.rows[id].userId)) ==> res.0.Ok?
  {
    if id !in t.rows then (Err(InternalServerError), t)
    else
      var e := t.rows[id];
      var n := Profile(id, p.userId.GetOr(e.userId), e.fields + p.fields);
      if exists k :: k in t.rows && k != id && t.rows[k].userId == n.userId then (Err(InternalServerError), t)
      else (Ok(n), t.(rows := t.rows[id := n]))
  }

  /** `remove`: an unknown id is an InternalServerError. */
  function DropProfile(t: Table<Profile>, id: Id): (res: (Result<Profile>, Table<Profile>))
    requires ProfilesOk(t)
    ensures ProfilesOk(res.1)
    ensures res.0.Ok? <==> id in t.rows
    ensures res.0.Err? ==> res == (Err(InternalServerError), t)
    ensures res.0.Ok? ==> res.0.value == t.rows[id] && id !in res.1.rows && res.1 == t.Delete({id})
  {
    if id in t.rows then (Ok(t.rows[id]), t.Delete({id})) else (Err(InternalServerError), t)
  }

  /** Removing the profile a user has under their current role, before the
      role changes: nothing for an unknown user or one without a role; the
      employee or client row, which must exist (an InternalServerError
      otherwise); the owner row if there is one. */
  method RemovePreviousRole(prisma: Database, userId: Id) returns (r: Result<()>)
    requires prisma.Valid()
    modifies prisma`employees, prisma`clients, prisma`owners
    ensures prisma.Valid()
    ensures userId !in prisma.users.rows || prisma.users.rows[userId].roles.None? ==>
              && r == Ok(()) && prisma.employees == old(prisma.employees)
              && prisma.clients == old(prisma.clients) && prisma.owners == old(prisma.owners)
    ensures HasRole(prisma.users.rows, userId, EMPLOYEE) ==>
              && prisma.clients == old(prisma.clients) && prisma.owners == old(prisma.owners)
              && (r.Ok? <==> HasProfile(old(prisma.employees), userId))
              && (r.Err? ==> r.error == InternalServerError)
              && prisma.employees == old(prisma.employees).Delete(ProfileOf(old(prisma.employees), userId))
    ensures HasRole(prisma.users.rows, userId, CLIENT) ==>
              && prisma.employees == old(prisma.employees) && prisma.owners == old(prisma.owners)
              && (r.Ok? <==> HasProfile(old(prisma.clients), userId))
              && (r.Err? ==> r.error == InternalServerError)
              && prisma.clients == old(prisma.clients).Delete(ProfileOf(old(prisma.clients), userId))
    ensures HasRole(prisma.users.rows, userId, OWNER) ==>
              && prisma.employees == old(prisma.employees) && prisma.clients == old(prisma.clients)
              && r == Ok(())
              && prisma.owners == old(prisma.owners).Delete(ProfileOf(old(prisma.owners), userId))
    ensures r.Ok? ==> !HasProfile(prisma.employees, userId) || !HasRole(prisma.users.rows, userId, EMPLOYEE)
    ensures r.Ok? ==> !HasProfile(prisma.clients, userId) || !HasRole(prisma.users.rows, userId, CLIENT)
    ensures !HasProfile(prisma.owners, userId) || !HasRole(prisma.users.rows, userId, OWNER)
  {
    if userId !in prisma.users.rows || prisma.users.rows[userId].roles.None? {
      return Ok(());
    }
    match prisma.users.rows[userId].roles.value {
      case EMPLOYEE =>
        if !HasProfile(prisma.employees, userId) {
          return Err(InternalServerError);
        }
        prisma.employees := prisma.employees.Delete(ProfileOf(prisma.employees, userId));
      case CLIENT =>
        if !HasProfile(prisma.clients, userId) {
          return Err(InternalServerError);
        }
        prisma.clients := prisma.clients.Delete(ProfileOf(prisma.clients, userId));
      case OWNER =>
        prisma.owners := prisma.owners.Delete(ProfileOf(prisma.owners, userId));
    }
    r := Ok(());
  }

  class EmployeesService {
    const prisma: Database

    constructor (prisma: Database)
      ensures this.prisma == prisma
    {
      this.prisma := prisma;
    }

    method Create(fields: map<string, string>, userId: Id) returns (r: Result<Profile>)
      requires prisma.Valid()
      modifies prisma`employees
      ensures prisma.Valid()
      ensures (r, prisma.employees) == AddProfile(prisma.users.rows, old(prisma.employees), EMPLOYEE, fields, userId)
    {
      var res := AddProfile(prisma.users.rows, prisma.employees, EMPLOYEE, fields, userId);
      r := res.0;
      prisma.employees := res.1;
    }

    method FindOne(id: Id) returns (r: Option<Profile>)
      requires prisma.Valid()
      ensures r == FindProfile(prisma.employees, id)
    {
      r := FindProfile(prisma.employees, id);
    }

    method Update(id: Id, data: ProfilePatch) returns (r: Result<Profile>)
      requires prisma.Valid()
      modifies prisma`employees
      ensures prisma.Valid()
      ensures (r, prisma.employees) == PatchProfile(old(prisma.employees), id, data)
    {
      var res := PatchProfile(prisma.employees, id, data);
      r := res.0;
      prisma.employees := res.1;
    }

    method Remove(id: Id) returns (r: Result<Profile>)
      requires prisma.Valid()
      modifies prisma`employees
      ensures prisma.Valid()
      ensures (r, prisma.employees) == DropProfile(old(prisma.employees), id)
    {
      var res := DropProfile(prisma.employees, id);
      r := res.0;
      prisma.employees := res.1;
    }
  }

  class ClientsService {
    const prisma: Database

    constructor (prisma: Database)
      ensures this.prisma == prisma
    {
      this.prisma := prisma;
    }

    method Create(fields: map<string, string>, userId: Id) returns (r: Result<Profile>)
      requires prisma.Valid()
      modifies prisma`clients
      ensures prisma.Valid()
      ensures (r, prisma.clients) == AddProfile(prisma.users.rows, old(prisma.clients), CLIENT, fields, userId)
    {
      var res := AddProfile(prisma.users.rows, prisma.clients, CLIENT, fields, userId);
      r := res.0;
      prisma.clients := res.1;
    }

    method FindOne(id: Id) returns (r: Option<Profile>)
      requires prisma.Valid()
      ensures r == FindProfile(prisma.clients, id)
    {
      r := FindProfile(prisma.clients, id);
    }

    method Update(id: Id, data: ProfilePatch) returns (r: Result<Profile>)
      requires prisma.Valid()
      modifies prisma`clients
      ensures prisma.Valid()
      ensures (r, prisma.clients) == PatchProfile(old(prisma.clients), id, data)
    {
      var res := PatchProfile(prisma.clients, id, data);
      r := res.0;
      prisma.clients := res.1;
    }

    method Remove(id: Id) returns (r: Result<Profile>)
      requires prisma.Valid()
      modifies prisma`clients
      ensures prisma.Valid()
      ensures (r, prisma.clients) == DropProfile(old(prisma.clients), id)
    {
      var res := DropProfile(prisma.clients, id);
      r := res.0;
      prisma.clients := res.1;
    }
  }

  class OwnersService {
    const prisma: Database

    constructor (prisma: Database)
      ensures this.prisma == prisma
    {
      this.prisma := prisma;
    }

    method Create(fields: map<string, string>, userId: Id) returns (r: Result<Profile>)
      requires prisma.Valid()
      modifies prisma`owners
      ensures prisma.Valid()
      ensures (r, prisma.owners) == AddProfile(prisma.users.rows, old(prisma.owners), OWNER, fields, userId)
    {
      var res := AddProfile(prisma.users.rows, prisma.owners, OWNER, fields, userId);
      r := res.0;
      prisma.owners := res.1;
    }

    method FindOne(id: Id) returns (r: Option<Profile>)
      requires prisma.Valid()
      ensures r == FindProfile(prisma.owners, id)
    {
      r := FindProfile(prisma.owners, id);
    }

    method Update(id: Id, data: ProfilePatch) returns (r: Result<Profile>)
      requires prisma.Valid()
      modifies prisma`owners
      ensures prisma.Valid()
      ensures (r, prisma.owners) == PatchProfile(old(prisma.owners), id, data)
    {
      var res := PatchProfile(prisma.owners, id, data);
      r := res.0;
      prisma.owners := res.1;
    }

    method Remove(id: Id) returns (r: Result<Profile>)
      requires prisma.Valid()
      modifies prisma`owners
      ensures prisma.Valid()
      ensures (r, prisma.owners) == DropProfile(old(prisma.owners), id)
    {
      var res := DropProfile(prisma.owners, id);
      r := res.0;
      prisma.owners := res.1;
    }
  }
}
