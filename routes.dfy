/** The state-changing handlers of the web application, and the doctor
    dashboard, as imperative code over the
    store and the client's session. Each handler performs its checks in the
    order the route function does, writes the session or the tables step by
    step, and is proved to end in the state and response its step function
    in RouteSpec describes. */
module Routes {
  import opened Common
  import opened Security
  import opened Models
  import opened Sessions
  import opened RouteSpec

  /** POST /login: clears the session, then writes `user_id`, `is_admin` and `role`. */
  method Login(db: Store, s: Session, username: Option<string>, password: Option<string>) returns (o: Outcome)
    requires db.Valid()
    modifies s
    ensures Response(db.State(), s.Data(), o) == LoginStep(db.State(), old(s.Data()), username, password)
  {
    if Blank(username) || Blank(password) {
      return Redirect(LoginPage, Some("Username or password cannot be empty."));
    }
    var found := PatientByUsername(db.State(), username.value);
    if found.None? {
      return Redirect(LoginPage, Some("User does not exist."));
    }
    var patient := db.patients[found.value];
    if !CheckPassword(patient, password.value) {
      return Redirect(LoginPage, Some("Incorrect password."));
    }
    s.Clear();
    s.userId := Some(found.value);
    s.isAdmin := Some(patient.isAdmin);
    s.role := Some(if patient.isAdmin then AdminRole else PatientRole);
    if patient.isAdmin {
      o := Redirect(AdminDashboardPage, None);
    } else {
      o := Redirect(PatientDashboardPage, None);
    }
  }

  /** GET /logout. */
  method Logout(db: Store, s: Session) returns (o: Outcome)
    modifies s
    ensures Response(db.State(), s.Data(), o) == LogoutStep(db.State(), old(s.Data()))
  {
    s.Clear();
    o := Redirect(LoginPage, Some("Logged out."));
  }

  /** POST /register. */
  method Register(db: Store, s: Session, username: Option<string>, password: Option<string>,
                  name: Option<string>, salt: string) returns (o: Outcome)
    requires db.Valid()
    modifies db
    ensures db.Valid()
    ensures Response(db.State(), s.Data(), o) == RegisterStep(old(db.State()), s.Data(), username, password, name, salt)
  {
    if Blank(username) || Blank(password) {
      return Redirect(RegisterPage, Some("Username or password cannot be empty."));
    }
    var existing := PatientByUsername(db.State(), username.value);
    if existing.Some? {
      return Redirect(RegisterPage, Some("Patient with this username already exists."));
    }
    var patient := NewPatient(username.value, name, None);
    patient := SetPassword(patient, password.value, salt);
    var _ := db.AddPatient(patient);
    o := Redirect(LoginPage, Some("User successfully registered! Please login."));
  }

  /** POST /admin/doctors/new, behind `login_required(role='admin')`. */
  method CreateDoctor(db: Store, s: Session, username: Option<string>, password: Option<string>,
                      name: Option<string>, departmentId: Option<int>, salt: string) returns (o: Outcome)
    requires db.Valid()
    modifies db
    ensures db.Valid()
    ensures Response(db.State(), s.Data(), o)
         == CreateDoctorStep(old(db.State()), s.Data(), username, password, name, departmentId, salt)
  {
    var gate := LoginRequired(s.Data(), AdminOnly);
    if gate.Deny? {
      return gate.outcome;
    }
    if Blank(username) || Blank(password) {
      return Redirect(AdminDoctorsNewPage, Some("Username and password required."));
    }
    var existing := DoctorByUsername(db.State(), username.value);
    if existing.Some? {
      return Redirect(AdminDoctorsNewPage, Some("Doctor with this username already exists."));
    }
    var doc := Doctor(username.value, GeneratePasswordHash(password.value, salt), name, departmentId);
    var _ := db.AddDoctor(doc);
    o := Redirect(AdminDoctorsPage, Some("Doctor created successfully."));
  }

  /** POST /patient/appointments/new, behind `login_required()`. */
  method Book(db: Store, s: Session, doctorId: Option<int>, date: Option<string>, time: Option<string>,
              fromIsoFormat: string -> Option<DateTime>) returns (o: Outcome)
    requires db.Valid()
    modifies db
    ensures db.Valid()
    ensures Response(db.State(), s.Data(), o) == BookStep(old(db.State()), s.Data(), doctorId, date, time, fromIsoFormat)
  {
    var gate := LoginRequired(s.Data(), AnyUser);
    if gate.Deny? {
      return gate.outcome;
    }
    var patientId := s.userId.value;
    if doctorId.None? || Blank(date) || Blank(time) {
      return Redirect(PatientAppointmentsNewPage, Some("Doctor, date and time are required."));
    }
    var parsed := fromIsoFormat(IsoStamp(date.value, time.value));
    if parsed.None? {
      return Redirect(PatientAppointmentsNewPage, Some("Invalid date/time format."));
    }
    var _ := db.AddAppointment(Appointment(patientId, doctorId.value, parsed.value, Pending));
    o := Redirect(PatientDashboardPage, Some("Appointment booked!"));
  }

  /** POST /doctor/login: clears the session, then writes `doctor_id` and `role`. */
  method DoctorLogin(db: Store, s: Session, username: Option<string>, password: Option<string>) returns (o: Outcome)
    requires db.Valid()
    modifies s
    ensures Response(db.State(), s.Data(), o) == DoctorLoginStep(db.State(), old(s.Data()), username, password)
  {
    if Blank(username) || Blank(password) {
      return Redirect(DoctorLoginPage, Some("Username and password are required."));
    }
    var found := DoctorByUsername(db.State(), username.value);
    if found.None? {
      return Redirect(DoctorLoginPage, Some("Doctor does not exist."));
    }
    if !CheckPasswordHash(db.doctors[found.value].passhash, password.value) {
      return Redirect(DoctorLoginPage, Some("Incorrect password."));
    }
    s.Clear();
    s.doctorId := Some(found.value);
    s.role := Some(DoctorRole);
    o := Redirect(DoctorDashboardPage, None);
  }

  /** GET /doctor: reads only. */
  method DoctorDashboard(db: Store, s: Session) returns (o: Outcome)
    requires db.Valid()
    ensures o == DoctorDashboardStep(db.State(), s.Data()).outcome
    ensures s.role == Some(DoctorRole) && s.doctorId.Some? ==>
      && o.DoctorDashboardView?
      && (forall k :: k in o.appointments <==> k in db.appointments && db.appointments[k].doctorId == s.doctorId.value)
      && Chronological(o.appointments, db.appointments)
  {
    if s.role != Some(DoctorRole) {
      return Redirect(DoctorLoginPage, Some("Doctor access only. Please login as doctor."));
    }
    if s.doctorId.None? {
      return ServerError;
    }
    var d := s.doctorId.value;
    var doctor := if d in db.doctors then Some(db.doctors[d]) else None;
    var mine := AppointmentsOf(db.appointments, d, 1, db.nextAppointmentId);
    IncreasingHoldsEachOnce(mine);
    o := DoctorDashboardView(doctor, SortByTime(mine, db.appointments));
    assert forall k :: k in o.appointments <==> multiset(o.appointments)[k] > 0;
  }

  /** POST /doctor/appointments/<appointment_id>. A request without `notes`
      reaches the NOT NULL column at commit and is rolled back, so it is
      refused here before anything is written. */
  method SaveTreatment(db: Store, s: Session, appointmentId: int, diagnosis: Option<string>,
                       prescription: Option<string>, notes: Option<string>) returns (o: Outcome)
    requires db.Valid()
    modifies db
    ensures db.Valid()
    ensures Response(db.State(), s.Data(), o)
         == SaveTreatmentStep(old(db.State()), s.Data(), appointmentId, diagnosis, prescription, notes)
  {
    if s.role != Some(DoctorRole) {
      return Redirect(DoctorLoginPage, Some("Doctor access only. Please login as doctor."));
    }
    if appointmentId !in db.appointments {
      return NotFound;
    }
    var appt := db.appointments[appointmentId];
    if Some(appt.doctorId) != s.doctorId {
      return Redirect(DoctorDashboardPage, Some("You are not assigned to this appointment."));
    }
    if Blank(diagnosis) || Blank(prescription) {
      return Redirect(DoctorAppointmentDetailPage(appointmentId), Some("Diagnosis and prescription are required."));
    }
    if notes.None? {
      return ServerError;
    }
    var tr := Treatment(appointmentId, diagnosis.value, prescription.value, notes.value);
    var existing := TreatmentOf(db.State(), appointmentId);
    if existing.None? {
      var _ := db.AddTreatment(tr);
    } else {
      db.UpdateTreatment(existing.value, tr);
    }
    db.SetStatus(appointmentId, Completed);
    o := TreatmentSaved;
  }
}
