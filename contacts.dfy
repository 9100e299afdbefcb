/** The contact service: plain creation with a unique e-mail, the public
    sign-up that upserts a contact and opens a task for the listing's owner,
    queries scoped to the requesting user, and removal that cascades to the
    contact's tasks and appointments. */
module Contacts {
  import opened Common
  import opened Store
  import opened RealEstates
  import Tasks

  /** The contact columns of a request body; an absent `phone` or `userId`
      is None. */
  datatype ContactInput = ContactInput(name: string, email: string, phone: Option<string>, userId: Option<Id>)

  /** The body of the public sign-up: contact columns plus the task to open. */
  datatype BasicContactInput = BasicContactInput(
    contact: ContactInput,
    taskStatus: string,
    taskDescription: string,
    estateId: Id)

  /** The body of an update; a field left out is None. */
  datatype ContactPatch = ContactPatch(
    name: Option<string>,
    email: Option<string>,
    phone: Option<string>,
    userId: Option<Id>)

  /** The row `contact.create` writes: absent columns are null. */
  function NewContact(id: Id, c: ContactInput): (n: Contact)
    ensures n.id == id && n.email == c.email
  {
    Contact(id, c.name, c.email, c.phone, c.userId)
  }

  /** The row `contact.update` writes from the same body: absent columns
      keep their value. */
  function Refreshed(old_: Contact, c: ContactInput): (n: Contact)
    ensures n.id == old_.id && n.name == c.name
    ensures c.phone.None? ==> n.phone == old_.phone
    ensures c.userId.None? ==> n.userId == old_.userId
  {
    Contact(old_.id, c.name, c.email,
            if c.phone.Some? then c.phone else old_.phone,
            if c.userId.Some? then c.userId else old_.userId)
  }

  function Patched(c: Contact, p: ContactPatch): (n: Contact)
    ensures n.id == c.id
  {
    Contact(c.id, p.name.GetOr(c.name), p.email.GetOr(c.email),
            if p.phone.Some? then p.phone else c.phone,
            if p.userId.Some? then p.userId else c.userId)
  }

  predicate EmailTaken(rows: map<Id, Contact>, email: string, except: Option<Id>) {
    exists k :: k in rows && Some(k) != except && rows[k].email == email
  }

  /** The upsert by e-mail of the sign-up: the contact that has the e-mail,
      updated from the body, or a new contact; and the id it lives under. */
  ghost function Upserted(t: Table<Contact>, c: ContactInput): (res: (Table<Contact>, Id))
    requires ContactsOk(t)
    ensures ContactsOk(res.0)
    ensures res.0.rows.Keys == t.rows.Keys + {res.1}
    ensures res.1 in res.0.rows && res.0.rows[res.1].email == c.email
    ensures EmailTaken(t.rows, c.email, None) <==> res.1 in t.rows
    ensures forall k :: k in t.rows && k != res.1 ==> res.0.rows[k] == t.rows[k]
  {
    if EmailTaken(t.rows, c.email, None) then
      var k :| k in t.rows && t.rows[k].email == c.email;
      (t.(rows := t.rows[k := Refreshed(t.rows[k], c)]), k)
    else
      (t.Insert(NewContact(t.nextId, c)), t.nextId)
  }

  /** The requester may not remove a contact another user (or nobody) still
      has a task with. */
  predicate HeldByOthers(tasks: map<Id, Task>, contactId: Id, userId: Id) {
    exists k :: k in tasks && tasks[k].contactId == Some(contactId) && tasks[k].userId != Some(userId)
  }

  /** The appointments removed with a contact: those of its tasks and those
      booked for it directly. */
  function AppointmentsOfContact(tasks: map<Id, Task>, appointments: map<Id, Appointment>, contactId: Id): set<Id> {
    (set k | k in tasks && tasks[k].contactId == Some(contactId) && tasks[k].appointmentId.Some?
                         && tasks[k].appointmentId.value in appointments :: tasks[k].appointmentId.value)
    + (set a | a in appointments && appointments[a].contactId == contactId)
  }

  class ContactsService {
    const prisma: Database
    const realEstatesService: RealestatesService

    /** Both services work on the same database. */
    predicate Wired() {
      realEstatesService.prisma == prisma
    }

    constructor (prisma: Database, realEstatesService: RealestatesService)
      requires realEstatesService.prisma == prisma
      ensures this.prisma == prisma && this.realEstatesService == realEstatesService
      ensures Wired()
    {
      this.prisma := prisma;
      this.realEstatesService := realEstatesService;
    }

    /** Create a contact; an e-mail in use is a BadRequest. */
    method Create(data: ContactInput) returns (r: Result<Contact>)
      requires prisma.Valid()
      modifies prisma`contacts
      ensures prisma.Valid()
      ensures EmailTaken(old(prisma.contacts.rows), data.email, None) ==>
                r == Err(BadRequest) && prisma.contacts == old(prisma.contacts)
      ensures !EmailTaken(old(prisma.contacts.rows), data.email, None) ==>
                && r == Ok(NewContact(old(prisma.contacts.nextId), data))
                && prisma.contacts == old(prisma.contacts).Insert(r.value)
    {
      if k :| k in prisma.contacts.rows && prisma.contacts.rows[k].email == data.email {
        return Err(BadRequest);
      }
      var created := NewContact(prisma.contacts.nextId, data);
      prisma.contacts := prisma.contacts.Insert(created);
      r := Ok(created);
    }

    /** The first step of the sign-up: update the contact with the body's
        e-mail, or create it. */
    method UpsertByEmail(c: ContactInput) returns (contactId: Id)
      requires prisma.Valid()
      modifies prisma`contacts
      ensures prisma.Valid()
      ensures prisma.contacts == Upserted(old(prisma.contacts), c).0
      ensures contactId == Upserted(old(prisma.contacts), c).1
    {
      ghost var up := Upserted(prisma.contacts, c);
      if k :| k in prisma.contacts.rows && prisma.contacts.rows[k].email == c.email {
        prisma.contacts := prisma.contacts.(rows := prisma.contacts.rows[k := Refreshed(prisma.contacts.rows[k], c)]);
        contactId := k;
      } else {
        contactId := prisma.contacts.nextId;
        prisma.contacts := prisma.contacts.Insert(NewContact(contactId, c));
      }
    }

    /** The last step of the sign-up: give the contact to the listing's
        owner and open a task for the owner, with its notification. */
    method HandOver(contactId: Id, owner: Option<Id>, data: BasicContactInput) returns (contact: Contact)
      requires prisma.Valid() && contactId in prisma.contacts.rows
      modifies prisma`contacts, prisma`tasks, prisma`notifications
      ensures prisma.Valid()
      ensures contact == old(prisma.contacts.rows)[contactId].(userId := owner)
      ensures prisma.contacts == old(prisma.contacts).(rows := old(prisma.contacts.rows)[contactId := contact])
      ensures prisma.tasks == old(prisma.tasks).Insert(
                Task(old(prisma.tasks.nextId), data.taskStatus, data.taskDescription,
                     owner, Some(contactId), Some(data.estateId), None))
      ensures prisma.notifications == old(prisma.notifications).Insert(
                Notification(old(prisma.notifications.nextId), old(prisma.tasks.nextId)))
    {
      contact := prisma.contacts.rows[contactId].(userId := owner);
      prisma.contacts := prisma.contacts.(rows := prisma.contacts.rows[contactId := contact]);
      var task := Task(prisma.tasks.nextId, data.taskStatus, data.taskDescription,
                       owner, Some(contactId), Some(data.estateId), None);
      prisma.tasks := prisma.tasks.Insert(task);
      prisma.notifications := prisma.notifications.Insert(Notification(prisma.notifications.nextId, task.id));
    }

    /** The public sign-up for a listing: upsert the contact by e-mail, count
        a view of the listing, hand the contact to the listing's owner and
        open a task for them with a notification.  A missing listing or a
        listing without owner fails with an InternalServerError after the
        upsert (and, for the second, the view), which are kept. */
    method CreateContactBasic(data: BasicContactInput) returns (r: Result<Contact>)
      requires prisma.Valid() && Wired()
      modifies prisma`contacts, prisma`realEstates, prisma`tasks, prisma`notifications
      ensures prisma.Valid()
      ensures data.estateId !in old(prisma.realEstates.rows) ==>
                && r == Err(InternalServerError)
                && prisma.contacts == Upserted(old(prisma.contacts), data.contact).0
                && prisma.realEstates == old(prisma.realEstates)
                && prisma.tasks == old(prisma.tasks) && prisma.notifications == old(prisma.notifications)
      ensures data.estateId in old(prisma.realEstates.rows) && !Present(old(prisma.realEstates.rows)[data.estateId].userId) ==>
                && r == Err(InternalServerError)
                && prisma.contacts == Upserted(old(prisma.contacts), data.contact).0
                && prisma.realEstates == CountView(old(prisma.realEstates), data.estateId)
                && prisma.tasks == old(prisma.tasks) && prisma.notifications == old(prisma.notifications)
      ensures data.estateId in old(prisma.realEstates.rows) && Present(old(prisma.realEstates.rows)[data.estateId].userId) ==>
                var owner := old(prisma.realEstates.rows)[data.estateId].userId;
                var up := Upserted(old(prisma.contacts), data.contact);
                var contact := up.0.rows[up.1].(userId := owner);
                && r == Ok(contact)
                && prisma.contacts == up.0.(rows := up.0.rows[up.1 := contact])
                && prisma.realEstates == CountView(old(prisma.realEstates), data.estateId)
                && prisma.tasks == old(prisma.tasks).Insert(
                     Task(old(prisma.tasks.nextId), data.taskStatus, data.taskDescription,
                          owner, Some(contact.id), Some(data.estateId), None))
                && prisma.notifications == old(prisma.notifications).Insert(
                     Notification(old(prisma.notifications.nextId), old(prisma.tasks.nextId)))
    {
      var contactId := UpsertByEmail(data.contact);
      var found := realEstatesService.FindOne(data.estateId);
      if found.Err? {
        return Err(InternalServerError);
      }
      var owner := found.value.userId;
      if !Present(owner) {
        return Err(InternalServerError);
      }
      var contact := HandOver(contactId, owner, data);
      r := Ok(contact);
    }

    /** A contact is reached only through its id and its owner. */
    method FindOne(id: Id, userId: Id) returns (r: Result<Contact>)
      requires prisma.Valid()
      ensures r.Ok? <==> id in prisma.contacts.rows && prisma.contacts.rows[id].userId == Some(userId)
      ensures r.Ok? ==> r.value == prisma.contacts.rows[id]
      ensures r.Err? ==> r.error == NotFound
    {
      if id in prisma.contacts.rows && prisma.contacts.rows[id].userId == Some(userId) {
        r := Ok(prisma.contacts.rows[id]);
      } else {
        r := Err(NotFound);
      }
    }

    /** Update a contact the requester owns; any other id is NotFound, and an
        e-mail another contact has is an InternalServerError. */
    method Update(id: Id, data: ContactPatch, userId: Id) returns (r: Result<Contact>)
      requires prisma.Valid()
      modifies prisma`contacts
      ensures prisma.Valid()
      ensures !(id in old(prisma.contacts.rows) && old(prisma.contacts.rows)[id].userId == Some(userId)) ==>
                r == Err(NotFound) && prisma.contacts == old(prisma.contacts)
      ensures id in old(prisma.contacts.rows) && old(prisma.contacts.rows)[id].userId == Some(userId) ==>
                var n := Patched(old(prisma.contacts.rows)[id], data);
                if EmailTaken(old(prisma.contacts.rows), n.email, Some(id))
                then r == Err(InternalServerError) && prisma.contacts == old(prisma.contacts)
                else r == Ok(n) && prisma.contacts == old(prisma.contacts).(rows := old(prisma.contacts.rows)[id := n])
    {
      if !(id in prisma.contacts.rows && prisma.contacts.rows[id].userId == Some(userId)) {
        return Err(NotFound);
      }
      var updated := Patched(prisma.contacts.rows[id], data);
      if k :| k in prisma.contacts.rows && k != id && prisma.contacts.rows[k].email == updated.email {
        return Err(InternalServerError);
      }
      prisma.contacts := prisma.contacts.(rows := prisma.contacts.rows[id := updated]);
      r := Ok(updated);
    }

    /** Remove a contact the requester owns together with its tasks and
        every appointment linked to it; refused with a BadRequest while a
        task of another user refers to it. */
    method Remove(id: Id, userId: Id) returns (r: Result<()>)
      requires prisma.Valid()
      modifies prisma`contacts, prisma`tasks, prisma`appointments
      ensures prisma.Valid()
      ensures !(id in old(prisma.contacts.rows) && old(prisma.contacts.rows)[id].userId == Some(userId)) ==>
                && r == Err(NotFound) && prisma.contacts == old(prisma.contacts)
                && prisma.tasks == old(prisma.tasks) && prisma.appointments == old(prisma.appointments)
      ensures id in old(prisma.contacts.rows) && old(prisma.contacts.rows)[id].userId == Some(userId)
              && HeldByOthers(old(prisma.tasks.rows), id, userId) ==>
                && r == Err(BadRequest) && prisma.contacts == old(prisma.contacts)
                && prisma.tasks == old(prisma.tasks) && prisma.appointments == old(prisma.appointments)
      ensures id in old(prisma.contacts.rows) && old(prisma.contacts.rows)[id].userId == Some(userId)
              && !HeldByOthers(old(prisma.tasks.rows), id, userId) ==>
                && r == Ok(())
                && prisma.contacts == old(prisma.contacts).Delete({id})
                && prisma.tasks == old(prisma.tasks).Delete(Tasks.TasksOfContact(old(prisma.tasks.rows), id))
                && prisma.appointments == old(prisma.appointments).Delete(
                     AppointmentsOfContact(old(prisma.tasks.rows), old(prisma.appointments.rows), id))
      ensures r.Ok? ==>
                && (forall k :: k in prisma.tasks.rows ==> prisma.tasks.rows[k].contactId != Some(id))
                && (forall a :: a in prisma.appointments.rows ==> prisma.appointments.rows[a].contactId != id)
    {
      if !(id in prisma.contacts.rows && prisma.contacts.rows[id].userId == Some(userId)) {
        return Err(NotFound);
      }
      if k :| k in prisma.tasks.rows && prisma.tasks.rows[k].contactId == Some(id) && prisma.tasks.rows[k].userId != Some(userId) {
        return Err(BadRequest);
      }
      prisma.appointments := prisma.appointments.Delete(AppointmentsOfContact(prisma.tasks.rows, prisma.appointments.rows, id));
      prisma.tasks := prisma.tasks.Delete(Tasks.TasksOfContact(prisma.tasks.rows, id));
      prisma.contacts := prisma.contacts.Delete({id});
      r := Ok(());
    }
  }
}
