/** The appointment service: booking a visit to a listing (which resolves or
    creates the contact, refuses a time slot already booked, and opens a
    task with a notification for the listing's owner), and the plain
    lookup, update and removal of appointments. */
module Appointments {
  import opened Common
  import opened Store
  import opened RealEstates

  /** The status a booking task ends in. */
  const AWAITING_VISIT := "Aguardando Visita"

  /** The body of a booking; an absent field is None. */
  datatype AppointmentInput = AppointmentInput(
    estateId: Id,
    contactId: Option<Id>,
    contactName: Option<string>,
    contactEmail: Option<string>,
    contactPhone: Option<string>,
    taskStatus: string,
    taskDescription: string,
    visitDate: int)

  /** The body of an update; a field left out is None. */
  datatype AppointmentPatch = AppointmentPatch(
    visitDate: Option<int>,
    visitApproved: Option<bool>,
    userId: Option<Id>,
    estateId: Option<Id>,
    contactId: Option<Id>)

  /** The booking names its contact: by id, or by e-mail and name. */
  predicate NamesContact(data: AppointmentInput) {
    Present(data.contactId) || (NonEmpty(data.contactEmail) && NonEmpty(data.contactName))
  }

  /** Some appointment is already booked for `visitDate`. */
  predicate DateTaken(rows: map<Id, Appointment>, visitDate: int) {
    exists a :: a in rows && rows[a].visitDate == visitDate
  }

  /** The contact a booking is for, and the contact table once it is found:
      the contact with the given id (NotFound if there is none); otherwise
      the contact with the given e-mail, its name and phone refreshed, or a
      new contact with that name, e-mail and phone. */
  ghost function ResolvedContact(t: Table<Contact>, data: AppointmentInput): (res: Result<(Table<Contact>, Id)>)
    requires ContactsOk(t) && NamesContact(data)
    ensures res.Err? <==> Present(data.contactId) && data.contactId.value !in t.rows
    ensures res.Err? ==> res.error == NotFound
    ensures res.Ok? ==> ContactsOk(res.value.0) && res.value.1 in res.value.0.rows
    ensures res.Ok? && Present(data.contactId) ==> res.value == (t, data.contactId.value)
    ensures res.Ok? && !Present(data.contactId) ==>
              && res.value.0.rows[res.value.1].email == data.contactEmail.value
              && res.value.0.rows[res.value.1].name == data.contactName.value
              && res.value.0.rows.Keys == t.rows.Keys + {res.value.1}
              && (res.value.1 in t.rows <==> exists k :: k in t.rows && t.rows[k].email == data.contactEmail.value)
              && (forall k :: k in t.rows && k != res.value.1 ==> res.value.0.rows[k] == t.rows[k])
    ensures res.Ok? && !Present(data.contactId) && res.value.1 in t.rows ==>
              res.value.0.rows[res.value.1] ==
                t.rows[res.value.1].(name := data.contactName.value,
                                     phone := if data.contactPhone.Some? then data.contactPhone else t.rows[res.value.1].phone)
    ensures res.Ok? && !Present(data.contactId) && res.value.1 !in t.rows ==>
              && res.value.1 == t.nextId
              && res.value.0.rows[res.value.1] ==
                   Contact(t.nextId, data.contactName.value, data.contactEmail.value, data.contactPhone, None)
  {
    if Present(data.contactId) then
      if data.contactId.value in t.rows then Ok((t, data.contactId.value)) else Err(NotFound)
    else if exists k :: k in t.rows && t.rows[k].email == data.contactEmail.value then
      var k :| k in t.rows && t.rows[k].email == data.contactEmail.value;
      var c := t.rows[k];
      var refreshed := c.(name := data.contactName.value,
                          phone := if data.contactPhone.Some? then data.contactPhone else c.phone);
      Ok((t.(rows := t.rows[k := refreshed]), k))
    else
      var created := Contact(t.nextId, data.contactName.value, data.contactEmail.value, data.contactPhone, None);
      Ok((t.Insert(created), t.nextId))
  }

  function Patched(a: Appointment, p: AppointmentPatch): (n: Appointment)
    ensures n.id == a.id
  {
    Appointment(a.id, p.visitDate.GetOr(a.visitDate), p.visitApproved.GetOr(a.visitApproved),
                p.userId.GetOr(a.userId), p.estateId.GetOr(a.estateId), p.contactId.GetOr(a.contactId))
  }

  class AppointmentsService {
    const prisma: Database
    const realEstatesService: RealestatesService

    /** Both services work on the same database. */
    predicate Wired() {
      realEstatesService.prisma == prisma
    }

    constructor (prisma: Database, realEstatesService: RealestatesService)
      requires realEstatesService.prisma == prisma
      ensures this.prisma == prisma && this.realEstatesService == realEstatesService
      ensures Wired()
    {
      this.prisma := prisma;
      this.realEstatesService := realEstatesService;
    }

    /** The contact step of a booking. */
    method ResolveContact(data: AppointmentInput) returns (r: Result<Id>)
      requires prisma.Valid() && NamesContact(data)
      modifies prisma`contacts
      ensures prisma.Valid()
      ensures ResolvedContact(old(prisma.contacts), data).Err? ==>
                r == Err(NotFound) && prisma.contacts == old(prisma.contacts)
      ensures ResolvedContact(old(prisma.contacts), data).Ok? ==>
                && r == Ok(ResolvedContact(old(prisma.contacts), data).value.1)
                && prisma.contacts == ResolvedContact(old(prisma.contacts), data).value.0
    {
      if Present(data.contactId) {
        if data.contactId.value !in prisma.contacts.rows {
          return Err(NotFound);
        }
        return Ok(data.contactId.value);
      }
      var email := data.contactEmail.value;
      if k :| k in prisma.contacts.rows && prisma.contacts.rows[k].email == email {
        var c := prisma.contacts.rows[k];
        var refreshed := c.(name := data.contactName.value,
                            phone := if data.contactPhone.Some? then data.contactPhone else c.phone);
        prisma.contacts := prisma.contacts.(rows := prisma.contacts.rows[k := refreshed]);
        r := Ok(k);
      } else {
        var id := prisma.contacts.nextId;
        prisma.contacts := prisma.contacts.Insert(Contact(id, data.contactName.value, email, data.contactPhone, None));
        r := Ok(id);
      }
    }

    /** The writing step of a booking: the task, the appointment, the task
        moved to "Aguardando Visita" with its appointment, the notification. */
    method Book(data: AppointmentInput, owner: Id, contactId: Id) returns (a: Appointment)
      requires prisma.Valid()
      modifies prisma`tasks, prisma`appointments, prisma`notifications
      ensures prisma.Valid()
      ensures a == Appointment(old(prisma.appointments.nextId), data.visitDate, false, owner, data.estateId, contactId)
      ensures prisma.appointments == old(prisma.appointments).Insert(a)
      ensures prisma.tasks == old(prisma.tasks).Insert(
                Task(old(prisma.tasks.nextId), AWAITING_VISIT, data.taskDescription,
                     Some(owner), Some(contactId), Some(data.estateId), Some(a.id)))
      ensures prisma.notifications == old(prisma.notifications).Insert(
                Notification(old(prisma.notifications.nextId), old(prisma.tasks.nextId)))
    {
      var task := Task(prisma.tasks.nextId, data.taskStatus, data.taskDescription,
                       Some(owner), Some(contactId), Some(data.estateId), None);
      prisma.tasks := prisma.tasks.Insert(task);
      a := Appointment(prisma.appointments.nextId, data.visitDate, false, owner, data.estateId, contactId);
      prisma.appointments := prisma.appointments.Insert(a);
      task := task.(appointmentId := Some(a.id), status := AWAITING_VISIT);
      prisma.tasks := prisma.tasks.(rows := prisma.tasks.rows[task.id := task]);
      assert prisma.tasks == old(prisma.tasks).Insert(task);
      prisma.notifications := prisma.notifications.Insert(Notification(prisma.notifications.nextId, task.id));
    }

    /** The booking once the listing's owner is known: resolve the contact,
        refuse a taken time slot (keeping the contact step), then book. */
    method Schedule(data: AppointmentInput, owner: Id) returns (r: Result<Appointment>)
      requires prisma.Valid() && NamesContact(data)
      modifies prisma`contacts, prisma`tasks, prisma`appointments, prisma`notifications
      ensures prisma.Valid()
      ensures ResolvedContact(old(prisma.contacts), data).Err? ==>
                && r == Err(NotFound) && prisma.contacts == old(prisma.contacts)
                && prisma.tasks == old(prisma.tasks) && prisma.appointments == old(prisma.appointments)
                && prisma.notifications == old(prisma.notifications)
      ensures ResolvedContact(old(prisma.contacts), data).Ok? ==>
                prisma.contacts == ResolvedContact(old(prisma.contacts), data).value.0
      ensures ResolvedContact(old(prisma.contacts), data).Ok? && DateTaken(old(prisma.appointments.rows), data.visitDate) ==>
                && r == Err(NotFound)
                && prisma.tasks == old(prisma.tasks) && prisma.appointments == old(prisma.appointments)
                && prisma.notifications == old(prisma.notifications)
      ensures ResolvedContact(old(prisma.contacts), data).Ok? && !DateTaken(old(prisma.appointments.rows), data.visitDate) ==>
                var a := Appointment(old(prisma.appointments.nextId), data.visitDate, false,
                                     owner, data.estateId, ResolvedContact(old(prisma.contacts), data).value.1);
                && r == Ok(a)
                && prisma.appointments == old(prisma.appointments).Insert(a)
                && prisma.tasks == old(prisma.tasks).Insert(
                     Task(old(prisma.tasks.nextId), AWAITING_VISIT, data.taskDescription,
                          Some(owner), Some(a.contactId), Some(data.estateId), Some(a.id)))
                && prisma.notifications == old(prisma.notifications).Insert(
                     Notification(old(prisma.notifications.nextId), old(prisma.tasks.nextId)))
      ensures r.Ok? ==> forall a :: a in prisma.appointments.rows && a != r.value.id ==>
                          prisma.appointments.rows[a].visitDate != r.value.visitDate
    {
      var contactId := ResolveContact(data);
      if contactId.Err? {
        return Err(NotFound);
      }
      if a :| a in prisma.appointments.rows && prisma.appointments.rows[a].visitDate == data.visitDate {
        return Err(NotFound);
      }
      var booked := Book(data, owner, contactId.value);
      r := Ok(booked);
    }

    /** Book a visit.  In order: a booking that names no contact is a
        BadRequest; an unknown listing is NotFound; a listing without owner
        is an InternalServerError; the rest is `Schedule`, after the view of
        the listing has been counted. */
    method Create(data: AppointmentInput) returns (r: Result<Appointment>)
      requires prisma.Valid() && Wired()
      modifies prisma`realEstates, prisma`contacts, prisma`tasks, prisma`appointments, prisma`notifications
      ensures prisma.Valid()
      ensures !NamesContact(data) ==>
                && r == Err(BadRequest) && prisma.realEstates == old(prisma.realEstates)
                && prisma.contacts == old(prisma.contacts) && prisma.tasks == old(prisma.tasks)
                && prisma.appointments == old(prisma.appointments) && prisma.notifications == old(prisma.notifications)
      ensures NamesContact(data) && data.estateId !in old(prisma.realEstates.rows) ==>
                && r == Err(NotFound) && prisma.realEstates == old(prisma.realEstates)
                && prisma.contacts == old(prisma.contacts) && prisma.tasks == old(prisma.tasks)
                && prisma.appointments == old(prisma.appointments) && prisma.notifications == old(prisma.notifications)
      ensures NamesContact(data) && data.estateId in old(prisma.realEstates.rows) ==>
                prisma.realEstates == CountView(old(prisma.realEstates), data.estateId)
      ensures NamesContact(data) && data.estateId in old(prisma.realEstates.rows)
              && !Present(old(prisma.realEstates.rows)[data.estateId].userId) ==>
                && r == Err(InternalServerError)
                && prisma.contacts == old(prisma.contacts) && prisma.tasks == old(prisma.tasks)
                && prisma.appointments == old(prisma.appointments) && prisma.notifications == old(prisma.notifications)
      ensures r.Ok? ==>
                && NamesContact(data) && data.estateId in old(prisma.realEstates.rows)
                && Some(r.value.userId) == old(prisma.realEstates.rows)[data.estateId].userId
                && r.value.estateId == data.estateId && r.value.visitDate == data.visitDate && !r.value.visitApproved
                && r.value.id !in old(prisma.appointments.rows) && prisma.appointments == old(prisma.appointments).Insert(r.value)
                && !DateTaken(old(prisma.appointments.rows), data.visitDate)
    {
      if !NamesContact(data) {
        return Err(BadRequest);
      }
      var found := realEstatesService.FindOne(data.estateId);
      if found.Err? {
        return Err(NotFound);
      }
      var owner := found.value.userId;
      if !Present(owner) {
        return Err(InternalServerError);
      }
      r := Schedule(data, owner.value);
    }

    /** The appointment with `id`, or null. */
    method FindOne(id: Id) returns (r: Option<Appointment>)
      requires prisma.Valid()
      ensures r.Some? <==> id in prisma.appointments.rows
      ensures r.Some? ==> r.value == prisma.appointments.rows[id] && r.value.id == id
    {
      if id in prisma.appointments.rows {
        r := Some(prisma.appointments.rows[id]);
      } else {
        r := None;
      }
    }

    /** Update an appointment; an unknown id is an InternalServerError. */
    method Update(id: Id, data: AppointmentPatch) returns (r: Result<Appointment>)
      requires prisma.Valid()
      modifies prisma`appointments
      ensures prisma.Valid()
      ensures id !in old(prisma.appointments.rows) ==>
                r == Err(InternalServerError) && prisma.appointments == old(prisma.appointments)
      ensures id in old(prisma.appointments.rows) ==>
                && r == Ok(Patched(old(prisma.appointments.rows)[id], data))
                && prisma.appointments == old(prisma.appointments).(rows := old(prisma.appointments.rows)[id := r.value])
    {
      if id !in prisma.appointments.rows {
        return Err(InternalServerError);
      }
      var updated := Patched(prisma.appointments.rows[id], data);
      prisma.appointments := prisma.appointments.(rows := prisma.appointments.rows[id := updated]);
      r := Ok(updated);
    }

    /** Delete an appointment; an unknown id is an InternalServerError. */
    method Remove(id: Id) returns (r: Result<Appointment>)
      requires prisma.Valid()
      modifies prisma`appointments
      ensures prisma.Valid()
      ensures id !in old(prisma.appointments.rows) ==>
                r == Err(InternalServerError) && prisma.appointments == old(prisma.appointments)
      ensures id in old(prisma.appointments.rows) ==>
                && r == Ok(old(prisma.appointments.rows)[id])
                && prisma.appointments == old(prisma.appointments).Delete({id})
    {
      if id !in prisma.appointments.rows {
        return Err(InternalServerError);
      }
      r := Ok(prisma.appointments.rows[id]);
      prisma.appointments := prisma.appointments.Delete({id});
    }
  }
}
