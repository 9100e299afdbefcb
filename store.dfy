/** The relational store the services talk to, held in memory: one table per
    model, each a map from autoincremented id to row, plus the unique keys
    the services rely on.  Foreign keys, cascades and transactions of the
    database are not part of it: only the checks the services make. */
module Store {
  import opened Common

  type Id = nat

  /** The role tag of a user; `roles` is null until a role is chosen. */
  datatype Role = EMPLOYEE | CLIENT | OWNER

  datatype User = User(
    id: Id,
    name: string,
    user: string,             // the login handle
    email: string,
    password: string,         // the bcrypt hash
    roles: Option<Role>,
    image: string,
    resetCode: Option<string>)

  /** A row of the employee, client or owner table: the owning user and the
      remaining profile columns, name by name. */
  datatype Profile = Profile(id: Id, userId: Id, fields: map<string, string>)

  datatype RealEstate = RealEstate(
    id: Id,
    registration: string,
    street: string, number: string, complement: string, district: string,
    zipCode: string, city: string, state: string,
    builtArea: int, totalArea: int,
    bedrooms: int, bathrooms: int, livingRooms: int, kitchens: int,
    garage: bool,
    estateType: string,       // the `type` column
    description: string,
    salePrice: Option<int>,
    status: bool,             // available for sale
    yard: bool, pool: bool,
    isPosted: bool,
    images: seq<string>,
    viewsCount: nat,
    userId: Option<Id>)

  datatype Contact = Contact(id: Id, name: string, email: string, phone: Option<string>, userId: Option<Id>)

  datatype Task = Task(
    id: Id,
    status: string,
    description: string,
    userId: Option<Id>,
    contactId: Option<Id>,
    estateId: Option<Id>,
    appointmentId: Option<Id>)

  datatype Appointment = Appointment(
    id: Id,
    visitDate: int,           // the visit timestamp
    visitApproved: bool,
    userId: Id,
    estateId: Id,
    contactId: Id)

  datatype Notification = Notification(id: Id, taskId: Id)

  /** A table: its rows by id and the id the next insert receives. */
  datatype Table<T> = Table(rows: map<Id, T>, nextId: Id) {

    /** Ids start at 1 and every stored id was handed out before. */
    ghost predicate KeysIssued() {
      1 <= nextId && forall k :: k in rows ==> 1 <= k < nextId
    }

    /** Inserting a row gives it the next id. */
    function Insert(row: T): Table<T> {
      Table(rows[nextId := row], nextId + 1)
    }

    /** Deleting rows by id. */
    function Delete(ids: set<Id>): Table<T> {
      Table(rows - ids, nextId)
    }
  }

  function EmptyTable<T>(): Table<T> {
    Table(map[], 1)
  }

  ghost predicate UsersOk(t: Table<User>) {
    && t.KeysIssued()
    && (forall k :: k in t.rows ==> t.rows[k].id == k)
    && (forall i, j :: i in t.rows && j in t.rows && t.rows[i].email == t.rows[j].email ==> i == j)
    && (forall i, j :: i in t.rows && j in t.rows && t.rows[i].user == t.rows[j].user ==> i == j)
  }

  /** At most one profile row per user, as the `userId` unique key says. */
  ghost predicate ProfilesOk(t: Table<Profile>) {
    && t.KeysIssued()
    && (forall k :: k in t.rows ==> t.rows[k].id == k)
    && (forall i, j :: i in t.rows && j in t.rows && t.rows[i].userId == t.rows[j].userId ==> i == j)
  }

  ghost predicate RealEstatesOk(t: Table<RealEstate>) {
    && t.KeysIssued()
    && (forall k :: k in t.rows ==> t.rows[k].id == k)
    && (forall i, j :: i in t.rows && j in t.rows && t.rows[i].registration == t.rows[j].registration ==> i == j)
  }

  ghost predicate ContactsOk(t: Table<Contact>) {
    && t.KeysIssued()
    && (forall k :: k in t.rows ==> t.rows[k].id == k)
    && (forall i, j :: i in t.rows && j in t.rows && t.rows[i].email == t.rows[j].email ==> i == j)
  }

  ghost predicate TasksOk(t: Table<Task>) {
    t.KeysIssued() && forall k :: k in t.rows ==> t.rows[k].id == k
  }

  ghost predicate AppointmentsOk(t: Table<Appointment>) {
    t.KeysIssued() && forall k :: k in t.rows ==> t.rows[k].id == k
  }

  ghost predicate NotificationsOk(t: Table<Notification>) {
    t.KeysIssued() && forall k :: k in t.rows ==> t.rows[k].id == k
  }

  /** The database the services share. */
  class Database {
    var users: Table<User>
    var employees: Table<Profile>
    var clients: Table<Profile>
    var owners: Table<Profile>
    var realEstates: Table<RealEstate>
    var contacts: Table<Contact>
    var tasks: Table<Task>
    var appointments: Table<Appointment>
    var notifications: Table<Notification>

    ghost predicate Valid()
      reads this
    {
      && UsersOk(users)
      && ProfilesOk(employees) && ProfilesOk(clients) && ProfilesOk(owners)
      && RealEstatesOk(realEstates)
      && ContactsOk(contacts)
      && TasksOk(tasks)
      && AppointmentsOk(appointments)
      && NotificationsOk(notifications)
    }

    constructor ()
      ensures Valid()
      ensures users.rows == map[] && employees.rows == map[] && clients.rows == map[]
      ensures owners.rows == map[] && realEstates.rows == map[] && contacts.rows == map[]
      ensures tasks.rows == map[] && appointments.rows == map[] && notifications.rows == map[]
    {
      users := EmptyTable();
      employees := EmptyTable();
      clients := EmptyTable();
      owners := EmptyTable();
      realEstates := EmptyTable();
      contacts := EmptyTable();
      tasks := EmptyTable();
      appointments := EmptyTable();
      notifications := EmptyTable();
    }
  }
}
