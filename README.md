# Hospital management web application: a Dafny model of its request handlers

The application is a small Flask site backed by SQLAlchemy on SQLite. Patients
register and log in, and book appointments with doctors. The admin (a patient
row with `is_admin` set) creates doctor accounts. Doctors log in separately,
see their appointments in date order, and record a diagnosis, a prescription
and notes. Recording these marks the appointment "completed". At start-up the
application creates the tables and seeds an `admin` patient if none exists.

The model has these parts:

- `Common` (common.dfy): `Option`, `Result`, and `Blank`, which is Python's
  falsiness for a form field that is absent or empty.
- `Security` (security.dfy): werkzeug's `generate_password_hash` and
  `check_password_hash`, as a salted, injective symbolic digest.
- `Models` (models.dfy):
  - one datatype per table;
  - the `password` property of `Patient`;
  - the column constraints the application relies on, collected in
    `TablesValid`;
  - `filter_by(...).first()` resolved to the lowest matching key. The
    database may return any matching row, but in every lookup here at most
    one row matches, since usernames are unique and an appointment has at
    most one treatment;
  - the `Store` class. Its map fields are the tables, and its methods are
    `db.session.add`/`commit` and the column updates.
- `Sessions` (sessions.dfy): the per-client `session` dictionary, as a value
  and as the `Session` class that handlers update in place.
- `RouteSpec` (route_spec.dfy): every handler that changes state, plus the
  doctor dashboard, as a function from the tables and session before the request to the tables,
  session and response after it, with lemmas that relate several requests.
- `Routes` (routes.dfy): the same handlers as methods on a `Store` and a
  `Session`. Each is proved to leave exactly the state its `RouteSpec`
  function describes, and to keep the store valid.
- `App` (app.dfy): the admin seeding at start-up.
- `Server` (server.dfy): the application as a state machine. It seeds once
  and then handles one client's requests in sequence. It has
  induction-style lemmas over any request sequence: the store stays valid, no
  row is deleted, a completed appointment stays completed, and sessions keep
  their well-formed shapes.

Row ids come from a per-table counter. `TablesValid` keeps every key below
its counter, which matches SQLite's rowid allocation when nothing is ever
deleted. The handlers never delete rows.

The handlers check less than a reader might expect:

- Booking stores whatever doctor id the form holds and does not check that a
  doctor with that id exists (`RouteSpec.BookingAcceptsUnknownDoctor`).
- Doctor creation stores whatever department id the form holds
  (`RouteSpec.CreateDoctorAcceptsUnknownDepartment`).
- Seeding looks only for the username `admin`, and never promotes an
  existing `admin` row that lacks the admin flag
  (`App.SeedDoesNotPromoteExistingAdmin`).

Saving a treatment does check the doctor: a doctor who is not assigned to
the appointment is redirected to the doctor dashboard with a notice, and
nothing changes (`RouteSpec.SaveTreatmentStep`).

## Model

| member | source | states |
|---|---|---|
| Security.GeneratePasswordHash | models.py:23 | the stored hash keeps the drawn salt, and checking it succeeds for exactly the hashed password |
| Security.SaltedHashesDiffer | models.py:23 | two hashes of one password under different salts differ, and both verify the password |
| Models.AtOrBeforeTotal | routes.py:238 | any two appointment date-times are ordered one way or the other, so ordering by date-time is total |
| Models.NewPatient | models.py:14 | a new patient object has the given username and name and no password yet; its admin flag is set iff `is_admin=True` was passed (column default False) |
| Models.SetPassword | models.py:21-26 | the password setter stores a hash and leaves the other columns alone; afterwards `check_password`, the check of an attempt against the stored hash (`Models.CheckPassword`), accepts exactly the given password |
| Models.ReadPassword | models.py:17-19 | reading the password always fails |
| Models.FirstKey | routes.py:52 | `.first()` returns a key whose row matches (the lowest, which is the only one in every lookup made here), or None exactly when no row in range matches |
| Models.PatientByUsername | routes.py:52 | the patient lookup by username returns a row with that username, and None iff no patient has it |
| Models.DoctorByUsername | routes.py:212 | the doctor lookup by username returns a row with that username, and None iff no doctor has it |
| Models.TreatmentOf | models.py:79 | `appt.treatment` gives a treatment row of that appointment, and None iff it has none |
| Models.Store.constructor | app.py:15 | on first start with a new database file, the created tables are empty and valid |
| Models.Store.AddPatient | routes.py:99-100 | adding a patient inserts it under the next key, advances the counter and changes nothing else |
| Models.Store.AddDoctor | routes.py:151-152 | adding a doctor inserts it under the next key and changes nothing else |
| Models.Store.AddAppointment | routes.py:193-194 | adding an appointment inserts it under the next key and changes nothing else |
| Models.Store.AddTreatment | routes.py:272-278 | adding a treatment inserts it under the next key and changes nothing else |
| Models.Store.UpdateTreatment | routes.py:281-283 | overwriting a treatment's columns replaces that row only |
| Models.Store.SetStatus | routes.py:286 | setting an appointment's status changes that field of that row only |
| Sessions.PatientSession | routes.py:62-65 | after patient login the session holds `user_id` and `is_admin`, no `doctor_id`, and role "admin" exactly when the flag is set, otherwise "patient" |
| Sessions.DoctorSession | routes.py:222-224 | after doctor login the session holds `doctor_id` and role "doctor" and nothing else |
| Sessions.Session.constructor | routes.py:14 | a new client starts with Flask's empty session, which holds no key, so the guard's first check sends it to login |
| Sessions.Session.Clear | routes.py:75 | `session.clear()` removes every key |
| RouteSpec.LoginRequired | routes.py:10-25 | the guard lets a request through iff `user_id` is present and, on admin routes, `is_admin` is true; otherwise it redirects to login (no user) or to the index (not admin) |
| RouteSpec.LoginStep | routes.py:38-71 | login succeeds iff both fields are non-empty and a patient with that username accepts the password; then the session is that patient's and the redirect depends on the admin flag; on failure the session is kept; the tables never change |
| RouteSpec.LogoutStep | routes.py:73-77 | logout empties the session and redirects to login |
| RouteSpec.RegisterStep | routes.py:79-102 | registration succeeds iff both fields are non-empty and the username is free; then exactly one row is added with that username and name, no admin flag, and a hash that accepts exactly the password; otherwise nothing changes |
| RouteSpec.CreateDoctorStep | routes.py:124-154 | the admin guard runs first; a doctor is added iff both fields are non-empty and the doctor username is free; the new row has that name and department and accepts exactly the password; otherwise nothing changes, and past the guard the request is sent back to the creation form |
| RouteSpec.BookStep | routes.py:164-196 | behind the login guard, an appointment is added iff doctor, date and time are present and `date T time` parses; the new row is pending, for the session's user and the given doctor at the parsed time; otherwise nothing changes, and past the guard the request is sent back to the booking form |
| RouteSpec.DoctorLoginStep | routes.py:200-226 | doctor login succeeds iff both fields are non-empty and a doctor with that username accepts the password; then the session is that doctor's only; the tables never change |
| RouteSpec.AppointmentsOf | routes.py:238 | the filter returns each of the doctor's appointment keys in range, in increasing key order, and only those |
| RouteSpec.InsertByTime | routes.py:238 | inserting one appointment into a date-ordered list keeps it date-ordered and adds exactly that key |
| RouteSpec.SortByTime | routes.py:238 | ordering by date-time returns a permutation of its input in chronological order |
| RouteSpec.IncreasingHoldsEachOnce | routes.py:238 | a strictly increasing list of keys holds each key at most once |
| RouteSpec.DoctorDashboardStep | routes.py:228-240 | a non-doctor session is sent to doctor login; a doctor session without `doctor_id` fails; otherwise the page shows that doctor's row (if any) and each of its appointments exactly once, in date order |
| RouteSpec.UpsertTreatment | routes.py:270-283 | an existing treatment of the appointment is overwritten in place under its own key; otherwise the submitted one is added under the next treatment key and that counter advances; nothing else changes |
| RouteSpec.Complete | routes.py:286 | the appointment becomes completed whatever its status was; no other row or field changes |
| RouteSpec.SaveTreatmentStep | routes.py:242-290 | a non-doctor session is sent to doctor login; an unknown appointment gives 404; a doctor not assigned to it is redirected to the dashboard; blank diagnosis or prescription redirects back to the detail page; missing notes give a server error; otherwise the save succeeds: the appointment's existing treatment is overwritten under its key, or a new one is added under the next treatment key, and the appointment is completed, with the other tables and counters unchanged; on every path but success the tables are unchanged |
| RouteSpec.RegisterTwiceConflicts | routes.py:88-94 | registering the same username again is refused with nothing added, with the username-conflict notice whenever a password is given, and exactly one patient has that username |
| RouteSpec.RegisterRefusesTakenUsername | routes.py:92-94 | registering a username some patient already holds adds nothing |
| RouteSpec.SavedTreatmentIsSole | routes.py:270-288 | after a successful save the appointment has exactly one treatment, the one just submitted |
| RouteSpec.SaveTreatmentTwiceUpdates | routes.py:270-286 | saving twice for one appointment leaves one treatment row, holding the second submission, with the appointment completed |
| RouteSpec.LoginReplacesSession | routes.py:62-65 | a successful login gives the same result whatever session the client held before |
| RouteSpec.DoctorSessionFailsPatientGuard | routes.py:14-16 | a logged-in doctor has no `user_id`, so every `login_required` route sends the doctor to the login page |
| RouteSpec.PatientSessionCannotSaveTreatment | routes.py:245-247 | a patient or admin session cannot save a treatment; nothing changes |
| RouteSpec.LogoutClosesGuardedRoutes | routes.py:75 | after logout every guarded route redirects to login |
| RouteSpec.BookingAcceptsUnknownDoctor | routes.py:173-194 | an appointment is booked for a doctor id that names no doctor |
| RouteSpec.CreateDoctorAcceptsUnknownDepartment | routes.py:145-152 | a doctor is created with a department id that names no department |
| Routes.Login | routes.py:38-71 | the imperative login leaves exactly the tables, session and response of `LoginStep` |
| Routes.Logout | routes.py:73-77 | the imperative logout leaves exactly the state and response of `LogoutStep` |
| Routes.Register | routes.py:79-102 | the imperative registration leaves exactly the state of `RegisterStep` and keeps the store valid |
| Routes.CreateDoctor | routes.py:124-154 | the imperative doctor creation leaves exactly the state of `CreateDoctorStep` and keeps the store valid |
| Routes.Book | routes.py:164-196 | the imperative booking leaves exactly the state of `BookStep` and keeps the store valid |
| Routes.DoctorLogin | routes.py:200-226 | the imperative doctor login leaves exactly the state of `DoctorLoginStep` |
| Routes.DoctorDashboard | routes.py:228-240 | the dashboard lists each of the doctor's appointments once, in date order, as `DoctorDashboardStep` does |
| Routes.SaveTreatment | routes.py:242-290 | the imperative save leaves exactly the state of `SaveTreatmentStep` and keeps the store valid |
| App.SeedStep | app.py:16-21 | after seeding an `admin` patient exists and the tables are valid; if one existed nothing changes, otherwise exactly one row is added, with the admin flag, name "Admin" and the hash of "admin" |
| App.SeedAdmin | app.py:16-21 | the imperative seeding leaves exactly the tables of `SeedStep` |
| App.SeedIdempotent | app.py:17-18 | seeding again, with any salt, changes nothing |
| App.SeedEmptyStore | app.py:16-21 | on an empty database seeding leaves a single patient, `admin`, flagged admin and accepting only the password "admin" |
| App.SeedDoesNotPromoteExistingAdmin | app.py:17-18 | an existing `admin` row without the admin flag is left as it is |
| Server.Handle | routes.py:38-290 | any request keeps the tables valid and deletes no row; patient, doctor and department rows never change, appointments change only by being completed, and treatment rows may be overwritten but stay on their appointment; a well-formed session stays well-formed |
| Server.Run | routes.py:38-290 | over any sequence of requests from any valid store, the tables stay valid and no row is deleted; appointments change only by being completed, and treatment rows may be overwritten but stay on their appointment; sessions stay well-formed |
| Server.Serve | app.py:13-21 | after a first start on an empty database and any requests the tables are valid, the session is well-formed, and an `admin` patient with the admin flag exists |
| Server.HandleKeepsReachable | routes.py:167-194 | one request keeps the tables valid, the session well-formed, a logged-in `user_id` naming an existing patient, and every appointment's patient existing |
| Server.RunKeepsReachable | routes.py:38-290 | any sequence of requests keeps the same reachability invariant, by induction on the requests |
| Server.ServeAppointmentsHavePatients | routes.py:167-194 | after start-up and any requests, every appointment references an existing patient, since booking takes the patient from `user_id`, which only login writes, from a found row |
| Server.CompletedStaysCompleted | routes.py:286 | a completed appointment is still present and unchanged after any sequence of requests |
| Server.DashboardNeverFailsOnReachableSession | routes.py:234 | no session the application produces makes the doctor dashboard fail on a missing `doctor_id` |
| Server.RegisterThenLogin | routes.py:79-102 | after registering a new username, logging in with it yields a plain patient session for the new row and the patient dashboard |
| Server.DoctorLoginWithOwnPassword | routes.py:212-226 | a doctor whose hash was made from a password logs in with it to a session for its own row |
| Server.DoctorTreatsAppointment | routes.py:242-290 | the assigned doctor logs in and saves a treatment: the appointment is completed with exactly that one treatment |
| Server.PatientRegistersAndBooks | routes.py:164-196 | a new patient registers, logs in and books: exactly one pending appointment is added for the new row and the chosen doctor |

## Left out

- GET branches and templates: rendering is not modelled. Responses are redirect targets with their flash text, plus the data the doctor dashboard shows.
- The index page, admin dashboard, doctor list and patient dashboard (routes.py:27-34, 104-122 and 156-162) are left out: they only read and render.
- The detail page's GET branch (routes.py:257-259) is left out because it renders only; the POST path is modelled.
- Form ids (`doctor_id`, `department_id`) are modelled as optional integers. SQLite would also store a non-numeric string in these columns, and that case is not modelled.
- Column length limits (`String(32)`, `String(64)`) are not modelled: SQLite does not enforce them.
- SQLite does not enforce foreign keys in this configuration. The appointment's doctor and the doctor's department are not checked by the handlers, so the model does not require them to exist. The appointment's patient holds in every reachable state, because `user_id` is only written from an existing row (`Server.ServeAppointmentsHavePatients`). A treatment's appointment is kept by the `get_or_404` lookup before the insert, and `TablesValid` states it.
- `datetime.fromisoformat` is a parameter: the model does not contain an ISO-8601 parser.
- werkzeug's key derivation is a symbolic collision-free digest, and the random salt is a parameter.
- SQLAlchemy sessions, lazy relationships and backrefs are not modelled; a handler commits all of its writes or none.
- Failed commits are modelled as `ServerError` with nothing changed. A treatment posted without a `notes` field violates NOT NULL and takes this path.
- Concurrency and multiple clients are not modelled: `Server.Run` serves one client's requests in order.
- Departments are not created by any handler, so that table only ever holds what was already there.
- config.py, `app.run` and Flask's request routing are left out.
- `db.create_all` on an existing database file keeps its tables and rows; the `Store` constructor, and so `Server.Serve`, model only the first start on an empty file. `App.SeedStep` and `Server.Run` hold for any valid store, which covers later starts.
- Models.SetPassword: the `password` setter is modelled on values, returning the updated record rather than assigning in place, because rows are datatype values stored in the maps.
- A whole visit is covered by `Server.PatientRegistersAndBooks` followed by `Server.DoctorTreatsAppointment`: the two compose, because `BookStep` keeps `TablesValid`, and the second lemma needs only `TablesValid`, the booked appointment, and a doctor row for it whose hash was made from the password used.
