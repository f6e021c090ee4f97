/** The application as a sequential state machine: the database is seeded
    once at start-up, then one client's requests are handled one after the
    other, each atomically. */
module Server {
  import opened Common
  import opened Security
  import opened Models
  import opened Sessions
  import opened RouteSpec
  import opened App

  /** The requests of every handler that changes state, plus the doctor
      dashboard, with their form fields; a salt travels with the requests
      that hash a password. */
  datatype Request =
    | LoginRequest(username: Option<string>, password: Option<string>)
    | LogoutRequest
    | RegisterRequest(username: Option<string>, password: Option<string>, name: Option<string>, salt: string)
    | CreateDoctorRequest(username: Option<string>, password: Option<string>, name: Option<string>,
                          departmentId: Option<int>, salt: string)
    | BookRequest(doctorId: Option<int>, date: Option<string>, time: Option<string>)
    | DoctorLoginRequest(username: Option<string>, password: Option<string>)
    | DoctorDashboardRequest
    | SaveTreatmentRequest(appointmentId: int, diagnosis: Option<string>, prescription: Option<string>,
                           notes: Option<string>)

  /** How the tables may change between two moments: no row is ever
      deleted; patient, doctor and department rows never change; an
      appointment changes at most by its status becoming "completed"; a
      treatment never moves to another appointment. */
  ghost predicate Evolves(a: Tables, b: Tables) {
    && (forall k :: k in a.patients ==> k in b.patients && b.patients[k] == a.patients[k])
    && (forall k :: k in a.doctors ==> k in b.doctors && b.doctors[k] == a.doctors[k])
    && b.departments == a.departments
    && (forall k :: k in a.appointments ==>
          && k in b.appointments
          && (b.appointments[k] == a.appointments[k] || b.appointments[k] == a.appointments[k].(status := Completed)))
    && (forall k :: k in a.treatments ==>
          k in b.treatments && b.treatments[k].appointmentId == a.treatments[k].appointmentId)
  }

  /** Dispatches one request to its handler. */
  function Handle(t: Tables, s: SessionData, req: Request, fromIsoFormat: string -> Option<DateTime>): (r: Response)
    requires TablesValid(t)
    ensures TablesValid(r.db) && Evolves(t, r.db)
    ensures SessionWellFormed(s) ==> SessionWellFormed(r.session)
  {
    match req
    case LoginRequest(u, p) => LoginStep(t, s, u, p)
    case LogoutRequest => LogoutStep(t, s)
    case RegisterRequest(u, p, n, salt) => RegisterStep(t, s, u, p, n, salt)
    case CreateDoctorRequest(u, p, n, dept, salt) => CreateDoctorStep(t, s, u, p, n, dept, salt)
    case BookRequest(d, date, time) => BookStep(t, s, d, date, time, fromIsoFormat)
    case DoctorLoginRequest(u, p) => DoctorLoginStep(t, s, u, p)
    case DoctorDashboardRequest => DoctorDashboardStep(t, s)
    case SaveTreatmentRequest(id, diag, presc, notes) => SaveTreatmentStep(t, s, id, diag, presc, notes)
  }

  /** Handles `reqs` in order; the result is the final database and session. */
  function Run(t: Tables, s: SessionData, reqs: seq<Request>, fromIsoFormat: string -> Option<DateTime>): (w: (Tables, SessionData))
    requires TablesValid(t)
    ensures TablesValid(w.0) && Evolves(t, w.0)
    ensures SessionWellFormed(s) ==> SessionWellFormed(w.1)
    decreases |reqs|
  {
    if reqs == [] then (t, s)
    else
      var r := Handle(t, s, reqs[0], fromIsoFormat);
      Run(r.db, r.session, reqs[1..], fromIsoFormat)
  }

  /** Start-up followed by a client's requests, from an empty database and
      an empty session. */
  function Serve(salt: string, reqs: seq<Request>, fromIsoFormat: string -> Option<DateTime>): (w: (Tables, SessionData))
    ensures TablesValid(w.0) && SessionWellFormed(w.1)
    ensures exists k :: k in w.0.patients && w.0.patients[k].username == "admin" && w.0.patients[k].isAdmin
  {
    var seeded := SeedStep(EmptyTables, salt);
    assert !HasPatientNamed(EmptyTables, "admin");
    assert 1 in seeded.patients && seeded.patients[1].username == "admin" && seeded.patients[1].isAdmin;
    var w := Run(seeded, EmptySession, reqs, fromIsoFormat);
    assert 1 in w.0.patients && w.0.patients[1] == seeded.patients[1];
    w
  }

  /** What holds of every state the application reaches from start-up: the
      tables are valid, the session has one of its well-formed shapes, a
      logged-in `user_id` names an existing patient, and every appointment
      references an existing patient. */
  ghost predicate Reachable(t: Tables, s: SessionData) {
    && TablesValid(t)
    && SessionWellFormed(s)
    && (s.userId.Some? ==> s.userId.value in t.patients)
    && forall k :: k in t.appointments ==> t.appointments[k].patientId in t.patients
  }

  /** One request keeps `Reachable`: booking takes the patient from
      `user_id`, which only login writes, from the row it has just found. */
  lemma HandleKeepsReachable(t: Tables, s: SessionData, req: Request, fromIsoFormat: string -> Option<DateTime>)
    requires Reachable(t, s)
    ensures var r := Handle(t, s, req, fromIsoFormat); Reachable(r.db, r.session)
  {
    var r := Handle(t, s, req, fromIsoFormat);
    match req
    case LoginRequest(u, p) =>
      if r.outcome.to != LoginPage {
        var k :| PatientCredentials(t, u.value, p.value, k) && r.session == PatientSession(k, t.patients[k].isAdmin);
      }
    case _ =>
  }

  /** Every request sequence keeps `Reachable`. */
  lemma {:induction false} RunKeepsReachable(t: Tables, s: SessionData, reqs: seq<Request>,
                                             fromIsoFormat: string -> Option<DateTime>)
    requires Reachable(t, s)
    ensures var w := Run(t, s, reqs, fromIsoFormat); Reachable(w.0, w.1)
    decreases |reqs|
  {
    if reqs != [] {
      var r := Handle(t, s, reqs[0], fromIsoFormat);
      HandleKeepsReachable(t, s, reqs[0], fromIsoFormat);
      RunKeepsReachable(r.db, r.session, reqs[1..], fromIsoFormat);
    }
  }

  /** After start-up and any requests, every appointment references an
      existing patient, although booking does not look the patient up. */
  lemma ServeAppointmentsHavePatients(salt: string, reqs: seq<Request>, fromIsoFormat: string -> Option<DateTime>)
    ensures var w := Serve(salt, reqs, fromIsoFormat);
            forall k :: k in w.0.appointments ==> w.0.appointments[k].patientId in w.0.patients
  {
    var seeded := SeedStep(EmptyTables, salt);
    assert Reachable(seeded, EmptySession);
    RunKeepsReachable(seeded, EmptySession, reqs, fromIsoFormat);
  }

  /** In every reachable state, a completed appointment stays completed:
      the status only ever moves to "completed". */
  lemma CompletedStaysCompleted(t: Tables, s: SessionData, reqs: seq<Request>,
                                                    fromIsoFormat: string -> Option<DateTime>, id: int)
    requires TablesValid(t) && id in t.appointments && t.appointments[id].status == Completed
    ensures var w := Run(t, s, reqs, fromIsoFormat);
            id in w.0.appointments && w.0.appointments[id] == t.appointments[id]
  {
  }

  /** A session the application itself produced never makes the doctor
      dashboard fail on a missing `doctor_id`. */
  lemma DashboardNeverFailsOnReachableSession(salt: string, reqs: seq<Request>,
                                              fromIsoFormat: string -> Option<DateTime>)
    ensures var w := Serve(salt, reqs, fromIsoFormat);
            DoctorDashboardStep(w.0, w.1).outcome != ServerError
  {
  }

  /** Registering a new username and logging in with it yields a plain
      patient session for the new row. */
  lemma RegisterThenLogin(t: Tables, s: SessionData, username: string, password: string,
                          name: Option<string>, salt: string)
    requires TablesValid(t) && username != "" && password != ""
    requires forall k :: k in t.patients ==> t.patients[k].username != username
    ensures var r1 := RegisterStep(t, s, Some(username), Some(password), name, salt);
            var r2 := LoginStep(r1.db, r1.session, Some(username), Some(password));
            && r2.db == r1.db
            && r2.session == PatientSession(t.nextPatientId, false)
            && r2.outcome.to == PatientDashboardPage
  {
    var r1 := RegisterStep(t, s, Some(username), Some(password), name, salt);
    var id := t.nextPatientId;
    assert PatientCredentials(r1.db, username, password, id);
    var r2 := LoginStep(r1.db, r1.session, Some(username), Some(password));
    var k :| PatientCredentials(r1.db, username, password, k) && r2.session == PatientSession(k, r1.db.patients[k].isAdmin);
    assert k == id by {
      assert PatientUsernamesUnique(r1.db.patients);
    }
  }

  /** A doctor whose stored hash was made from `password` logs in to a
      doctor session for its own row. */
  lemma DoctorLoginWithOwnPassword(t: Tables, s: SessionData, id: int, password: string, salt: string)
    requires TablesValid(t) && id in t.doctors && t.doctors[id].username != "" && password != ""
    requires t.doctors[id].passhash == GeneratePasswordHash(password, salt)
    ensures var r := DoctorLoginStep(t, s, Some(t.doctors[id].username), Some(password));
            r.db == t && r.session == DoctorSession(id) && r.outcome.to == DoctorDashboardPage
  {
    var u := t.doctors[id].username;
    assert DoctorCredentials(t, u, password, id);
    var r := DoctorLoginStep(t, s, Some(u), Some(password));
    var k :| DoctorCredentials(t, u, password, k) && r.session == DoctorSession(k);
    assert k == id by {
      assert DoctorUsernamesUnique(t.doctors);
    }
  }

  /** The doctor assigned to an appointment logs in and records a treatment:
      the appointment ends "completed" with exactly that treatment. */
  lemma DoctorTreatsAppointment(t: Tables, s: SessionData, appointmentId: int, password: string, doctorSalt: string,
                                diagnosis: string, prescription: string, notes: string)
    requires TablesValid(t) && appointmentId in t.appointments
    requires t.appointments[appointmentId].doctorId in t.doctors
    requires t.doctors[t.appointments[appointmentId].doctorId].username != ""
    requires t.doctors[t.appointments[appointmentId].doctorId].passhash == GeneratePasswordHash(password, doctorSalt)
    requires password != "" && diagnosis != "" && prescription != ""
    ensures var d := t.appointments[appointmentId].doctorId;
            var r4 := DoctorLoginStep(t, s, Some(t.doctors[d].username), Some(password));
            var r5 := SaveTreatmentStep(r4.db, r4.session, appointmentId, Some(diagnosis), Some(prescription), Some(notes));
            && r5.outcome == TreatmentSaved
            && r5.db.appointments[appointmentId].status == Completed
            && SoleTreatment(r5.db, appointmentId, Treatment(appointmentId, diagnosis, prescription, notes))
  {
    var d := t.appointments[appointmentId].doctorId;
    DoctorLoginWithOwnPassword(t, s, d, password, doctorSalt);
    var r4 := DoctorLoginStep(t, s, Some(t.doctors[d].username), Some(password));
    var r5 := SaveTreatmentStep(r4.db, r4.session, appointmentId, Some(diagnosis), Some(prescription), Some(notes));
    assert r5.outcome == TreatmentSaved;
    SavedTreatmentIsSole(r4.db, r4.session, appointmentId, diagnosis, prescription, notes);
  }

  /** The first half of a visit: a new patient registers, logs in and
      books; the appointment is added "pending", for the new patient's row
      and the chosen doctor. */
  lemma PatientRegistersAndBooks(t: Tables, username: string, password: string, name: Option<string>,
                                 salt: string, doctorId: int, date: string, time: string,
                                 fromIsoFormat: string -> Option<DateTime>)
    requires TablesValid(t) && username != "" && password != "" && date != "" && time != ""
    requires forall k :: k in t.patients ==> t.patients[k].username != username
    requires fromIsoFormat(IsoStamp(date, time)).Some?
    ensures var r1 := RegisterStep(t, EmptySession, Some(username), Some(password), name, salt);
            var r2 := LoginStep(r1.db, r1.session, Some(username), Some(password));
            var r3 := BookStep(r2.db, r2.session, Some(doctorId), Some(date), Some(time), fromIsoFormat);
            && r3.outcome.to == PatientDashboardPage
            && r3.db.doctors == t.doctors
            && r3.db.appointments == t.appointments[t.nextAppointmentId :=
                 Appointment(t.nextPatientId, doctorId, fromIsoFormat(IsoStamp(date, time)).value, Pending)]
  {
    RegisterThenLogin(t, EmptySession, username, password, name, salt);
  }
}
