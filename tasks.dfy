/** The task service: creation with the owner taken from the listing and
    de-duplication on (appointmentId, contactId, estateId), queries scoped
    to the requesting user, and removal that cascades to the task's
    appointment and, when no other task refers to it, its contact. */
module Tasks {
  import opened Common
  import opened Store

  /** The body of a create request; a field left out of the body is None. */
  datatype TaskInput = TaskInput(
    status: string,
    description: string,
    userId: Option<Id>,
    estateId: Option<Id>,
    appointmentId: Option<Id>,
    contactId: Option<Id>)

  /** The body of an update request; a field left out is None. */
  datatype TaskPatch = TaskPatch(
    status: Option<string>,
    description: Option<string>,
    userId: Option<Id>,
    contactId: Option<Id>,
    estateId: Option<Id>,
    appointmentId: Option<Id>)

  /** The de-duplication filter `{ appointmentId, contactId, estateId }`: a
      field left out of the body constrains nothing. */
  predicate SameKey(t: Task, data: TaskInput) {
    && (data.appointmentId.Some? ==> t.appointmentId == data.appointmentId)
    && (data.contactId.Some? ==> t.contactId == data.contactId)
    && (data.estateId.Some? ==> t.estateId == data.estateId)
  }

  /** The owner a task gets: the owner of its listing, when the listing is
      given and exists. */
  function ListingOwner(estates: map<Id, RealEstate>, estateId: Option<Id>): Option<Id> {
    if Present(estateId) && estateId.value in estates then estates[estateId.value].userId else None
  }

  function Patched(t: Task, p: TaskPatch): (u: Task)
    ensures u.id == t.id
  {
    Task(t.id,
         p.status.GetOr(t.status),
         p.description.GetOr(t.description),
         if p.userId.Some? then p.userId else t.userId,
         if p.contactId.Some? then p.contactId else t.contactId,
         if p.estateId.Some? then p.estateId else t.estateId,
         if p.appointmentId.Some? then p.appointmentId else t.appointmentId)
  }

  /** The tasks that refer to a contact. */
  function TasksOfContact(tasks: map<Id, Task>, contactId: Id): set<Id> {
    set k | k in tasks && tasks[k].contactId == Some(contactId)
  }

  /** The appointment `remove` deletes with a task: its own, if it exists. */
  function LinkedAppointment(t: Task, appointments: map<Id, Appointment>): set<Id> {
    if t.appointmentId.Some? && t.appointmentId.value in appointments then {t.appointmentId.value} else {}
  }

  /** The contact `remove` deletes with a task: its own, if it exists and no
      task that is left refers to it. */
  function OrphanedContact(t: Task, contacts: map<Id, Contact>, remaining: map<Id, Task>): set<Id> {
    if t.contactId.Some? && t.contactId.value in contacts && TasksOfContact(remaining, t.contactId.value) == {}
    then {t.contactId.value} else {}
  }

  class TasksService {
    const prisma: Database

    constructor (prisma: Database)
      ensures this.prisma == prisma
    {
      this.prisma := prisma;
    }

    /** Create a task owned by the owner of its listing.  Without a listing
        that has an owner it is a BadRequest; if a task with the same key
        exists, that task is returned and nothing is written. */
    method Create(data: TaskInput) returns (r: Result<Task>)
      requires prisma.Valid()
      modifies prisma`tasks
      ensures prisma.Valid()
      ensures !Present(ListingOwner(prisma.realEstates.rows, data.estateId)) ==>
                r == Err(BadRequest) && prisma.tasks == old(prisma.tasks)
      ensures Present(ListingOwner(prisma.realEstates.rows, data.estateId))
              && (exists k :: k in old(prisma.tasks.rows) && SameKey(old(prisma.tasks.rows)[k], data)) ==>
                && r.Ok? && r.value.id in old(prisma.tasks.rows) && old(prisma.tasks.rows)[r.value.id] == r.value
                && prisma.tasks == old(prisma.tasks)
      ensures Present(ListingOwner(prisma.realEstates.rows, data.estateId))
              && !(exists k :: k in old(prisma.tasks.rows) && SameKey(old(prisma.tasks.rows)[k], data)) ==>
                && r == Ok(Task(old(prisma.tasks.nextId), data.status, data.description,
                                ListingOwner(prisma.realEstates.rows, data.estateId),
                                data.contactId, data.estateId, data.appointmentId))
                && prisma.tasks == old(prisma.tasks).Insert(r.value)
      ensures r.Ok? ==> SameKey(r.value, data) && r.value.id in prisma.tasks.rows
    {
      var userId := ListingOwner(prisma.realEstates.rows, data.estateId);
      if !Present(userId) {
        return Err(BadRequest);
      }
      if k :| k in prisma.tasks.rows && SameKey(prisma.tasks.rows[k], data) {
        return Ok(prisma.tasks.rows[k]);
      }
      var created := Task(prisma.tasks.nextId, data.status, data.description, userId,
                          data.contactId, data.estateId, data.appointmentId);
      prisma.tasks := prisma.tasks.Insert(created);
      r := Ok(created);
    }

    /** Creating the same task twice adds at most one row, and the second
        call returns a task with the requested key. */
    method CreateTwice(data: TaskInput) returns (first: Result<Task>, second: Result<Task>)
      requires prisma.Valid()
      modifies prisma`tasks
      ensures prisma.Valid()
      ensures first.Ok? ==> second.Ok? && SameKey(second.value, data)
      ensures prisma.tasks.rows.Keys <= old(prisma.tasks.rows.Keys) + {old(prisma.tasks.nextId)}
    {
      first := Create(data);
      second := Create(data);
    }

    /** A task is reached only through its id and its owner. */
    method FindOne(id: Id, userId: Id) returns (r: Result<Task>)
      requires prisma.Valid()
      ensures r.Ok? <==> id in prisma.tasks.rows && prisma.tasks.rows[id].userId == Some(userId)
      ensures r.Ok? ==> r.value == prisma.tasks.rows[id]
      ensures r.Err? ==> r.error == NotFound
    {
      if id in prisma.tasks.rows && prisma.tasks.rows[id].userId == Some(userId) {
        r := Ok(prisma.tasks.rows[id]);
      } else {
        r := Err(NotFound);
      }
    }

    /** Update a task the requester owns; any other id is NotFound. */
    method Update(id: Id, data: TaskPatch, userId: Id) returns (r: Result<Task>)
      requires prisma.Valid()
      modifies prisma`tasks
      ensures prisma.Valid()
      ensures !(id in old(prisma.tasks.rows) && old(prisma.tasks.rows)[id].userId == Some(userId)) ==>
                r == Err(NotFound) && prisma.tasks == old(prisma.tasks)
      ensures id in old(prisma.tasks.rows) && old(prisma.tasks.rows)[id].userId == Some(userId) ==>
                && r == Ok(Patched(old(prisma.tasks.rows)[id], data))
                && prisma.tasks == old(prisma.tasks).(rows := old(prisma.tasks.rows)[id := r.value])
    {
      if !(id in prisma.tasks.rows && prisma.tasks.rows[id].userId == Some(userId)) {
        return Err(NotFound);
      }
      var updated := Patched(prisma.tasks.rows[id], data);
      prisma.tasks := prisma.tasks.(rows := prisma.tasks.rows[id := updated]);
      r := Ok(updated);
    }

    /** Remove a task the requester owns, then its appointment, then its
        contact if no task that is left refers to it. */
    method Remove(id: Id, userId: Id) returns (r: Result<Task>)
      requires prisma.Valid()
      modifies prisma`tasks, prisma`appointments, prisma`contacts
      ensures prisma.Valid()
      ensures !(id in old(prisma.tasks.rows) && old(prisma.tasks.rows)[id].userId == Some(userId)) ==>
                && r == Err(NotFound) && prisma.tasks == old(prisma.tasks)
                && prisma.appointments == old(prisma.appointments) && prisma.contacts == old(prisma.contacts)
      ensures id in old(prisma.tasks.rows) && old(prisma.tasks.rows)[id].userId == Some(userId) ==>
                var t := old(prisma.tasks.rows)[id];
                && r == Ok(t)
                && prisma.tasks == old(prisma.tasks).Delete({id})
                && prisma.appointments == old(prisma.appointments).Delete(LinkedAppointment(t, old(prisma.appointments.rows)))
                && prisma.contacts == old(prisma.contacts).Delete(OrphanedContact(t, old(prisma.contacts.rows), prisma.tasks.rows))
      ensures r.Ok? && r.value.contactId.Some? && r.value.contactId.value in old(prisma.contacts.rows) ==>
                (r.value.contactId.value !in prisma.contacts.rows <==>
                 TasksOfContact(prisma.tasks.rows, r.value.contactId.value) == {})
    {
      if !(id in prisma.tasks.rows && prisma.tasks.rows[id].userId == Some(userId)) {
        return Err(NotFound);
      }
      var task := prisma.tasks.rows[id];
      prisma.tasks := prisma.tasks.Delete({id});
      prisma.appointments := prisma.appointments.Delete(LinkedAppointment(task, prisma.appointments.rows));
      prisma.contacts := prisma.contacts.Delete(OrphanedContact(task, prisma.contacts.rows, prisma.tasks.rows));
      r := Ok(task);
    }
  }
}
