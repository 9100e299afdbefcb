# Real-estate back-end service layer, modelled in Dafny

The system is a NestJS back-end for a real-estate agency on a relational
database reached through Prisma. Agents (users) publish listings. Visitors
leave their contact details or book visits for a listing. Each such request
opens a task, with a notification, for the listing's owner. Users carry one
role (employee, client or owner) and one profile row for it. Passwords are
stored as bcrypt hashes, can be reset by a six-character code sent by
e-mail, and are checked at login, which issues a signed token.

This project models the service layer over an in-memory database:

- `store.dfy`: the `Database` class. It has one table per model, each a map
  from autoincremented id to row. `Valid()` states the unique keys the
  services rely on: user e-mail and handle, contact e-mail, listing
  registration, and one employee, client or owner row per user.
- `common.dfy`: `Result` (a value or one of the four HTTP errors), `Option`,
  and JavaScript truthiness of optional values.
- `strings.dfy`: JavaScript `trim` and the database's case-insensitive
  `contains`.
- One file per service. Each service is a class that holds the shared
  `Database`. Each method names the tables it may change in `modifies`,
  and its `ensures` state the new contents of those tables in every case,
  error cases included. There are three exceptions. `CreateTwice` and
  `ResetTwice` are property methods that state how two calls relate.
  `AppointmentsService.Create` leaves its later steps to `Schedule`,
  which states them.

Outside effects are given to the model as values. This covers the result of
an object-storage upload, the reset code, whether the reset e-mail was
delivered, the password hash and compare functions, and the token signer.
Errors map as follows:

- A plain `Error` and any database error the service does not catch reach
  the client as a 500. They are modelled as `InternalServerError`.
- A database update or delete of a missing row fails.
- A write that breaks a unique key fails.

In both failing cases nothing is written.

## Model

| member | source | states |
|---|---|---|
| Strings.Trim | src/realestates/realestates.service.ts:222-224 | The trimmed text neither starts nor ends with white space. It is a slice of the input, and only white space lies outside that slice. |
| Strings.ContainsIgnoringCaseIsOccurrence | src/realestates/realestates.service.ts:180-188 | The position-by-position case-insensitive search succeeds exactly when the needle occurs somewhere in the text, case ignored. |
| RealEstates.ParseFlag | src/realestates/realestates.service.ts:222-224 | A boolean search field is a condition only when its text is non-empty. It is true exactly when the trimmed text is "true". |
| RealEstates.AdvanceConditions | src/realestates/realestates.service.ts:209-270 | The `where` object the advanced search builds selects exactly the listings that meet every given filter, and it never constrains the owner or the status. Counts and type apply only when given, a price bound only when non-zero, a flag only when its text is non-empty. |
| RealEstates.AdvanceWhere | src/realestates/realestates.service.ts:209-270 | The conditions, filled one field at a time, are exactly that `where` object. |
| RealEstates.ReportWhere | src/realestates/realestates.service.ts:437-463 | The report filter is always scoped to the requester. Either price bound brings in the price range, with a missing minimum of 0 and a missing maximum of MAX_SAFE_INTEGER. A given `status` means "is 'true'". |
| RealEstates.Select | src/realestates/realestates.service.ts:136-152 | A `findMany` lists every row that satisfies the condition, once each, and nothing else. |
| RealEstates.SortByViewsCorrect | src/realestates/realestates.service.ts:140-151 | Ordering by views keeps the same listings (as a multiset) and puts the most viewed first. |
| RealEstates.SortByViewsDistinct | src/realestates/realestates.service.ts:140-151 | Ordering by views keeps the ids of the listings distinct. |
| RealEstates.InsertByViewsSorted | src/realestates/realestates.service.ts:140-151 | Inserting a listing into a list ordered by views keeps it ordered. |
| RealEstates.SortedListsExactly | src/realestates/realestates.service.ts:136-152 | A query result ordered by views is still exactly the query result, now ordered most viewed first. |
| RealEstates.Merged | src/realestates/realestates.service.ts:309-367 | The merged row keeps the id, owner and view count, and takes the given images. |
| RealEstates.EmptyPatchKeepsListing | src/realestates/realestates.service.ts:309-367 | An update with no fields and no files leaves the listing unchanged. |
| RealEstates.MergeIdempotent | src/realestates/realestates.service.ts:296-367 | Applying the same update twice gives the same row as applying it once. |
| RealEstates.MergeCannotClear | src/realestates/realestates.service.ts:309-331 | Because falsy values fall back to the old value, an update cannot empty any of the ten text fields or zero any of the six counts. |
| RealEstates.CountView | src/realestates/realestates.service.ts:167-174 | One detail view raises the listing's count by one. It leaves every other column of that listing and every other row as they were. |
| RealEstates.RealestatesService.Create | src/realestates/realestates.service.ts:39-134 | A registration already in use is a BadRequest before any upload or write. A failed upload is an InternalServerError with no write. Otherwise one row is inserted with the requester as owner, zero views, the uploaded images, and each flag set to the truthiness of its input. |
| RealEstates.RealestatesService.FindAll | src/realestates/realestates.service.ts:136-145 | Returns exactly the requester's listings, most viewed first. |
| RealEstates.RealestatesService.FindAllAvailable | src/realestates/realestates.service.ts:147-158 | Returns exactly the listings with `status` true, most viewed first. |
| RealEstates.RealestatesService.FindOne | src/realestates/realestates.service.ts:160-176 | An unknown id is NotFound with no change. Otherwise it returns the row as read, and the stored view count becomes one higher. |
| RealEstates.RealestatesService.SearchRealEstate | src/realestates/realestates.service.ts:178-194 | Returns exactly the listings whose type contains the text, case ignored. |
| RealEstates.RealestatesService.AdvanceSearch | src/realestates/realestates.service.ts:196-286 | Returns exactly the listings that meet every given filter, as `AdvanceCriteria` spells out. |
| RealEstates.RealestatesService.Update | src/realestates/realestates.service.ts:288-425 | An unknown id is NotFound. A failed upload, or a registration another listing holds, is an InternalServerError with no write. Otherwise the row becomes the field-by-field merge, with the new images when files were sent and the old ones otherwise. |
| RealEstates.RealestatesService.Remove | src/realestates/realestates.service.ts:427-435 | An unknown id is an InternalServerError. Otherwise exactly that row is deleted and returned. |
| RealEstates.RealestatesService.ReportListings | src/realestates/realestates.service.ts:437-475 | Returns exactly the requester's listings that meet the report filters. |
| Tasks.TasksService.Create | src/tasks/tasks.service.ts:13-55 | No listing id, an unknown listing, or a listing without an owner is a BadRequest with no write. A task with the same (appointment, contact, listing) key, where an omitted field matches anything, is returned with no row added. Otherwise one task is inserted, owned by the listing's owner whatever the body says. |
| Tasks.TasksService.CreateTwice | src/tasks/tasks.service.ts:31-41 | Creating the same task twice adds at most one row. If the first call succeeds, the second returns a task with the requested key. |
| Tasks.TasksService.FindOne | src/tasks/tasks.service.ts:73-88 | Succeeds exactly for a task with both that id and that owner. Anything else is NotFound. |
| Tasks.TasksService.Update | src/tasks/tasks.service.ts:89-107 | A task that is not the requester's is NotFound with no change. Otherwise the given fields replace the old ones. |
| Tasks.TasksService.Remove | src/tasks/tasks.service.ts:109-160 | A task that is not the requester's is NotFound with no change. Otherwise it deletes the task and its appointment, if that exists. It deletes the task's contact if and only if no remaining task refers to it. |
| Contacts.Upserted | src/contacts/contacts.service.ts:46-59 | The upsert by e-mail keeps e-mails unique. It adds a row exactly when the e-mail was new, and changes no other contact. |
| Contacts.ContactsService.Create | src/contacts/contacts.service.ts:19-41 | An e-mail already in use is a BadRequest with no write. Otherwise one contact is inserted. |
| Contacts.ContactsService.UpsertByEmail | src/contacts/contacts.service.ts:46-59 | Updates the contact with the body's e-mail, keeping columns the body leaves out, or creates it. |
| Contacts.ContactsService.HandOver | src/contacts/contacts.service.ts:65-92 | Sets the contact's owner. Adds exactly one task (given status and description, the owner, the contact, the listing, no appointment) and one notification for that task. |
| Contacts.ContactsService.CreateContactBasic | src/contacts/contacts.service.ts:43-103 | Upserts the contact, counts a view of the listing, hands the contact to the listing's owner, and opens a task with a notification. A missing listing or a listing without an owner is an InternalServerError, and the upsert (and the counted view) stay. |
| Contacts.ContactsService.FindOne | src/contacts/contacts.service.ts:119-127 | Succeeds exactly for a contact with both that id and that owner. Anything else is NotFound. |
| Contacts.ContactsService.Update | src/contacts/contacts.service.ts:129-144 | A contact that is not the requester's is NotFound with no change. An e-mail another contact has is an InternalServerError with no change. Otherwise the given fields replace the old ones. |
| Contacts.ContactsService.Remove | src/contacts/contacts.service.ts:146-217 | A contact that is not the requester's is NotFound. A task of another user (or of no user) that refers to it gives a BadRequest, and nothing is deleted. Otherwise the contact, its tasks, their appointments and the appointments booked for it are deleted, and no task or appointment refers to it afterwards. |
| Appointments.ResolvedContact | src/appointments/appointments.service.ts:45-74 | With a contact id the contact must exist (NotFound otherwise), and nothing changes. Without one, the contact is reused exactly when a contact has that e-mail. A reused contact gets the new name, and the new phone when one is given; its other columns stay. Otherwise a new contact is made with the next id, the name, e-mail and phone, and no owner. No other contact changes, and e-mails stay unique. |
| Appointments.AppointmentsService.ResolveContact | src/appointments/appointments.service.ts:45-74 | Performs the contact step exactly as `ResolvedContact` describes. |
| Appointments.AppointmentsService.Book | src/appointments/appointments.service.ts:84-116 | Adds exactly one appointment (not approved; owner, listing, contact), one task and one notification for that task. The task ends linked to the appointment with status "Aguardando Visita", whatever status was sent. |
| Appointments.AppointmentsService.Schedule | src/appointments/appointments.service.ts:45-124 | An unknown contact id is NotFound with no change. A visit date some appointment already has is NotFound after the contact step, with no task, appointment or notification. Otherwise it books, and the new appointment's date is held by no other appointment. |
| Appointments.AppointmentsService.Create | src/appointments/appointments.service.ts:16-125 | Without a contact id, a missing e-mail or name is a BadRequest before any lookup. An unknown listing is NotFound. A listing without an owner is an InternalServerError after its view is counted. A successful booking is unapproved, belongs to the listing's owner, and has a date no earlier appointment had. |
| Appointments.AppointmentsService.FindOne | src/appointments/appointments.service.ts:137-146 | Returns the appointment with that id, or null. |
| Appointments.AppointmentsService.Update | src/appointments/appointments.service.ts:148-154 | An unknown id is an InternalServerError. Otherwise the given fields replace the old ones. |
| Appointments.AppointmentsService.Remove | src/appointments/appointments.service.ts:156-161 | An unknown id is an InternalServerError. Otherwise exactly that appointment is deleted. |
| Users.Patched | src/users/users.service.ts:107-114 | A non-empty new password is stored hashed and an empty one as sent. Without a new password the old one stays. The image changes only when a file was uploaded. |
| Users.UsersService.Create | src/users/users.service.ts:33-72 | A used e-mail, or else a used handle, is a BadRequest with no write. A failed upload, or a hash equal to the password, is an InternalServerError with no write. Otherwise it inserts the user with the hashed password, the uploaded or default image, and no reset code. The stored password never equals the one sent. |
| Users.UsersService.FindOne | src/users/users.service.ts:82-90 | Returns the user with that id, or NotFound. |
| Users.UsersService.FindByUser | src/users/users.service.ts:92-100 | Returns the one user with that handle, or NotFound when there is none. |
| Users.UsersService.Update | src/users/users.service.ts:102-126 | A failed upload, an unknown id, or an e-mail or handle another user has is an InternalServerError with no write. Otherwise the row becomes the patched user. |
| Users.UsersService.Remove | src/users/users.service.ts:128-138 | An unknown id is an InternalServerError. Otherwise exactly that user is deleted. |
| Profiles.AddProfile | src/employees/employees.service.ts:8-37 | Succeeds exactly when the user exists with the required role and has no row yet. Then exactly one row is added for that user, and a user never gets two rows. Otherwise it is NotFound with no write. |
| Profiles.EmployeesService.Create | src/employees/employees.service.ts:8-37 | The employee table changes as `AddProfile` with role EMPLOYEE describes. |
| Profiles.ClientsService.Create | src/clients/clients.service.ts:12-36 | The client table changes as `AddProfile` with role CLIENT describes. |
| Profiles.OwnersService.Create | src/owners/owners.service.ts:11-34 | The owner table changes as `AddProfile` with role OWNER describes. |
| Profiles.FindProfile | src/employees/employees.service.ts:67-75 | Returns the row with that id, or null. |
| Profiles.EmployeesService.FindOne | src/employees/employees.service.ts:67-75 | Returns the employee row with that id, or null. |
| Profiles.ClientsService.FindOne | src/clients/clients.service.ts:84-92 | Returns the client row with that id, or null. |
| Profiles.OwnersService.FindOne | src/owners/owners.service.ts:84-92 | Returns the owner row with that id, or null. |
| Profiles.PatchProfile | src/employees/employees.service.ts:77-83 | Acts by id only. The update succeeds exactly when the id exists and no other row belongs to the resulting user. Failure is an InternalServerError with no change. The given columns overwrite the old ones and the others stay. |
| Profiles.EmployeesService.Update | src/employees/employees.service.ts:77-83 | The employee table changes as `PatchProfile` describes. |
| Profiles.ClientsService.Update | src/clients/clients.service.ts:94-100 | The client table changes as `PatchProfile` describes. |
| Profiles.OwnersService.Update | src/owners/owners.service.ts:94-100 | The owner table changes as `PatchProfile` describes. |
| Profiles.DropProfile | src/employees/employees.service.ts:85-90 | Acts by id only. An unknown id is an InternalServerError. Otherwise exactly that row is deleted and returned. |
| Profiles.EmployeesService.Remove | src/employees/employees.service.ts:85-90 | The employee table changes as `DropProfile` describes. |
| Profiles.ClientsService.Remove | src/clients/clients.service.ts:102-107 | The client table changes as `DropProfile` describes. |
| Profiles.OwnersService.Remove | src/owners/owners.service.ts:102-107 | The owner table changes as `DropProfile` describes. |
| Profiles.RemovePreviousRole | src/clients/clients.service.ts:37-74 | Does nothing for an unknown user or a user without a role. For an employee or client it deletes the row, which must exist (InternalServerError otherwise). For an owner it deletes the row if there is one. The other tables do not change. The owners service has the same private method (src/owners/owners.service.ts:36-73). |
| ForgotPassword.ForgotPasswordService.SendResetCode | src/forgot-password/forgot-password.service.ts:18-52 | An unknown e-mail is NotFound with no change. Otherwise the code is stored on that user only, and no other field changes. A failed delivery is an InternalServerError, but the code stays stored. |
| ForgotPassword.ForgotPasswordService.ResetPassword | src/forgot-password/forgot-password.service.ts:54-86 | An unknown e-mail is NotFound. A code that differs from the stored one is a BadRequest with no change. A null code counts as equal to an absent stored code. Otherwise the password becomes the hash of the new one and the code is cleared. |
| ForgotPassword.ForgotPasswordService.ResetTwice | src/forgot-password/forgot-password.service.ts:67-79 | A code works once: repeating a successful reset with the same non-null code is a BadRequest. A null code succeeds again, because the first reset cleared the stored code. |
| Auth.AuthService.ValidateUser | src/auth/auth.service.ts:38-56 | Succeeds exactly when a user with that handle has a stored hash the password matches. It then returns that user with the plain password in place of the hash. An unknown handle and a wrong password give the same Unauthorized. |
| Auth.AuthService.Login | src/auth/auth.service.ts:15-36 | Succeeds exactly when `ValidateUser` does. The token is the signature over the user's id and handle, and the user name is the handle. The only failure is Unauthorized, so the service's own Unauthorized branch cannot be reached. |

## Left out

- Object storage (S3) uploads are not modelled. Each upload is an outcome given to the method: no files, the stored URLs, or a failure.
- Posting a listing to the Facebook page is not modelled. It only writes `isPosted = true` when `isPosted` is already true, so it changes no state.
- PDF rendering of the listing report and the contact report is not modelled. So is the date window of the contact report, which depends on the local clock and time zone.
- Sending the reset e-mail is not modelled. The model takes the delivery outcome as a parameter.
- bcrypt, JWT and uuid internals are not modelled. The hash, compare and sign functions are parameters of the services.
- Users.UsersService.Create: the hash is a fixed function of the password. bcrypt's random salt, which makes two hashes of one password differ, is not modelled.
- Price parsing (`parseFloat`, `Number`) works on floating point and is not modelled. Prices and counts arrive as already-parsed integers.
- The contract and notification services, the CRECI lookup, the controllers and the module wiring are not modelled. They hold no rules of their own.
- The plain `findAll` listings of contacts, tasks, users, appointments, employees, clients and owners are not modelled. Each is an unfiltered or owner-filtered `findMany`, and `Select` states the meaning of such a query.
- Database foreign keys, cascades and transactions are not modelled. The model accepts a row that refers to a missing row, and a delete the database would refuse because of references. Multi-step flows are not atomic, and the model keeps their partial effects as the code does.
- Timestamps (`createdAt`, `updatedAt`) are not modelled.
- Contacts.ContactsService.Remove: the list of appointment ids keeps an `undefined` entry for a task without an appointment. How the database treats that entry is not modelled: the model deletes the appointments that exist.
- Tasks.TasksService.Create: when several tasks match the key, the model returns one of them. The database's `findFirst` returns the one with the lowest id.
- Appointments.AppointmentsService.Create: the visit date is required. The database's treatment of an absent date, where the slot filter matches any appointment, is not modelled. The contract states the outcome of the first three steps and the shape of a successful booking. The later steps are stated by Appointments.AppointmentsService.Schedule, which it calls.
- Appointment update and removal follow the code: they send no messages and are not scoped to a user.
- Request bodies are modelled with the columns the services read. Other columns a body might carry are not modelled.
- Tasks.TasksService.Create: a key field is either given or omitted, and an omitted field matches any task. A key field sent as null is not modelled; the database would read it as an "is null" filter.
- Auth.AuthService.ValidateUser: the login body is taken to carry a handle. A body without `user` is not modelled; the source's lookup with an undefined handle matches the first user and checks the password against that user's hash.
- Case folding (Strings.Lower) covers only ASCII letters. The database's full Unicode case folding in `contains` is not modelled.
- Error message texts and logging are not modelled.
