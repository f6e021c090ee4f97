/** The relational schema of the application: one record type per table,
    the constraints its columns declare, the two password members of
    Patient, and the in-memory store that stands in for the database. */
module Models {
  import opened Common
  import opened Security

  /** A value of the `DateTime` column, as `datetime.fromisoformat` builds it. */
  datatype DateTime = DateTime(year: int, month: int, day: int,
                               hour: int, minute: int, second: int, microsecond: int)

  /** Chronological order on date-times (`ORDER BY datetime`). */
  predicate AtOrBefore(a: DateTime, b: DateTime) {
    if a.year != b.year then a.year < b.year
    else if a.month != b.month then a.month < b.month
    else if a.day != b.day then a.day < b.day
    else if a.hour != b.hour then a.hour < b.hour
    else if a.minute != b.minute then a.minute < b.minute
    else if a.second != b.second then a.second < b.second
    else a.microsecond <= b.microsecond
  }

  lemma AtOrBeforeTotal(a: DateTime, b: DateTime)
    ensures AtOrBefore(a, b) || AtOrBefore(b, a)
  {
  }

  /** The two values the application ever writes to `appointments.status`. */
  datatype Status = Pending | Completed

  /** A row of `patients`. `passhash` is None only on an object that has
      been built but has not had its password set yet; the column is NOT
      NULL, so no stored row has None (see TablesValid). */
  datatype Patient = Patient(username: string, passhash: Option<PassHash>,
                             name: Option<string>, isAdmin: bool)

  /** A row of `doctors`; the department reference is a nullable foreign key. */
  datatype Doctor = Doctor(username: string, passhash: PassHash,
                           name: Option<string>, departmentId: Option<int>)

  /** A row of `departments`; every column but the id is nullable free text. */
  datatype Department = Department(name: Option<string>, description: Option<string>,
                                   doctorsRegistered: Option<string>)

  /** A row of `appointments`; both references and the date-time are NOT NULL. */
  datatype Appointment = Appointment(patientId: int, doctorId: int,
                                     datetime: DateTime, status: Status)

  /** A row of `treatments`; every column is NOT NULL. */
  datatype Treatment = Treatment(appointmentId: int, diagnosis: string,
                                 prescription: string, notes: string)

  /** `Patient(username=..., name=..., [is_admin=...])`: an omitted `is_admin`
      takes the column default False, and no password is set yet. */
  function NewPatient(username: string, name: Option<string>, isAdmin: Option<bool>): (p: Patient)
    ensures p.username == username && p.name == name && p.passhash.None?
    ensures p.isAdmin <==> isAdmin == Some(true)
  {
    Patient(username, None, name, if isAdmin.Some? then isAdmin.value else false)
  }

  /** The `password` property setter: it stores only the salted hash, and
      afterwards exactly the given password is accepted. */
  function SetPassword(p: Patient, password: string, salt: string): (q: Patient)
    ensures q.passhash.Some?
    ensures q.username == p.username && q.name == p.name && q.isAdmin == p.isAdmin
    ensures forall attempt :: CheckPassword(q, attempt) <==> attempt == password
  {
    p.(passhash := Some(GeneratePasswordHash(password, salt)))
  }

  /** `Patient.check_password`: delegates to werkzeug's check on the stored hash. */
  predicate CheckPassword(p: Patient, attempt: string)
    requires p.passhash.Some?
  {
    CheckPasswordHash(p.passhash.value, attempt)
  }

  /** The `password` property getter: it always raises AttributeError, so no
      caller can read a password back. */
  function ReadPassword(p: Patient): (r: Result<string, string>)
    ensures r.Err?
  {
    Err("Password is not a readable attribute")
  }

  /** The whole database as a value: each table maps primary keys to rows,
      with the next key the store will hand out. */
  datatype Tables = Tables(
    patients: map<int, Patient>,
    doctors: map<int, Doctor>,
    departments: map<int, Department>,
    appointments: map<int, Appointment>,
    treatments: map<int, Treatment>,
    nextPatientId: int,
    nextDoctorId: int,
    nextAppointmentId: int,
    nextTreatmentId: int)

  const EmptyTables := Tables(map[], map[], map[], map[], map[], 1, 1, 1, 1)

  /** Every key of `m` is a key the store has already handed out. */
  ghost predicate IdsBelow<T>(m: map<int, T>, next: int) {
    forall k :: k in m ==> 1 <= k < next
  }

  /** `patients.username` is UNIQUE. */
  ghost predicate PatientUsernamesUnique(m: map<int, Patient>) {
    forall i, j :: i in m && j in m && m[i].username == m[j].username ==> i == j
  }

  /** `doctors.username` is UNIQUE, independently of `patients`. */
  ghost predicate DoctorUsernamesUnique(m: map<int, Doctor>) {
    forall i, j :: i in m && j in m && m[i].username == m[j].username ==> i == j
  }

  /** `Appointment.treatment` is declared with `uselist=False`: an
      appointment has at most one treatment. */
  ghost predicate AtMostOneTreatmentEach(m: map<int, Treatment>) {
    forall i, j :: i in m && j in m && m[i].appointmentId == m[j].appointmentId ==> i == j
  }

  /** Every treatment refers to an existing appointment, at most one each. */
  ghost predicate TreatmentsValid(treatments: map<int, Treatment>, appointments: map<int, Appointment>) {
    && (forall k :: k in treatments ==> treatments[k].appointmentId in appointments)
    && AtMostOneTreatmentEach(treatments)
  }

  /** The invariant every state of the store reached by the application keeps. */
  ghost predicate TablesValid(t: Tables) {
    && t.nextPatientId >= 1 && t.nextDoctorId >= 1 && t.nextAppointmentId >= 1 && t.nextTreatmentId >= 1
    && IdsBelow(t.patients, t.nextPatientId)
    && IdsBelow(t.doctors, t.nextDoctorId)
    && IdsBelow(t.appointments, t.nextAppointmentId)
    && IdsBelow(t.treatments, t.nextTreatmentId)
    && (forall k :: k in t.patients ==> t.patients[k].passhash.Some?)
    && PatientUsernamesUnique(t.patients)
    && DoctorUsernamesUnique(t.doctors)
    && TreatmentsValid(t.treatments, t.appointments)
  }

  /** `filter_by(...).first()` over keys lo..hi-1, resolved to the lowest
      key whose row satisfies `p`. Without `order_by` the database may
      return any matching row; the choice is immaterial for every lookup
      here, because usernames are unique and an appointment has at most one
      treatment (see TablesValid), so at most one row ever matches. */
  function FirstKey<T>(m: map<int, T>, p: T -> bool, lo: int, hi: int): (r: Option<int>)
    decreases hi - lo
    ensures r.Some? ==> lo <= r.value < hi && r.value in m && p(m[r.value])
    ensures r.Some? ==> forall k :: lo <= k < r.value && k in m ==> !p(m[k])
    ensures r.None? ==> forall k :: lo <= k < hi && k in m ==> !p(m[k])
  {
    if lo >= hi then None
    else if lo in m && p(m[lo]) then Some(lo)
    else FirstKey(m, p, lo + 1, hi)
  }

  /** `Patient.query.filter_by(username=u).first()`, as a key. */
  function PatientByUsername(t: Tables, u: string): (r: Option<int>)
    requires IdsBelow(t.patients, t.nextPatientId)
    ensures r.Some? ==> r.value in t.patients && t.patients[r.value].username == u
    ensures r.None? <==> forall k :: k in t.patients ==> t.patients[k].username != u
  {
    FirstKey(t.patients, (p: Patient) => p.username == u, 1, t.nextPatientId)
  }

  /** `Doctor.query.filter_by(username=u).first()`, as a key. */
  function DoctorByUsername(t: Tables, u: string): (r: Option<int>)
    requires IdsBelow(t.doctors, t.nextDoctorId)
    ensures r.Some? ==> r.value in t.doctors && t.doctors[r.value].username == u
    ensures r.None? <==> forall k :: k in t.doctors ==> t.doctors[k].username != u
  {
    FirstKey(t.doctors, (d: Doctor) => d.username == u, 1, t.nextDoctorId)
  }

  /** `appt.treatment`: the key of the treatment row that refers to the appointment. */
  function TreatmentOf(t: Tables, appointmentId: int): (r: Option<int>)
    requires IdsBelow(t.treatments, t.nextTreatmentId)
    ensures r.Some? ==> r.value in t.treatments && t.treatments[r.value].appointmentId == appointmentId
    ensures r.None? <==> forall k :: k in t.treatments ==> t.treatments[k].appointmentId != appointmentId
  {
    FirstKey(t.treatments, (tr: Treatment) => tr.appointmentId == appointmentId, 1, t.nextTreatmentId)
  }

  /** The database the handlers read and write. Each field is one table;
      `db.session.add` followed by `commit` is one of the Add methods. */
  class Store {
    var patients: map<int, Patient>
    var doctors: map<int, Doctor>
    var departments: map<int, Department>
    var appointments: map<int, Appointment>
    var treatments: map<int, Treatment>
    var nextPatientId: int
    var nextDoctorId: int
    var nextAppointmentId: int
    var nextTreatmentId: int

    function State(): Tables
      reads this
    {
      Tables(patients, doctors, departments, appointments, treatments,
                    nextPatientId, nextDoctorId, nextAppointmentId, nextTreatmentId)
    }

    ghost predicate Valid()
      reads this
    {
      TablesValid(State())
    }

    /** `db.create_all()` on a fresh database: every table empty. */
    constructor ()
      ensures State() == EmptyTables && Valid()
    {
      patients, doctors, departments, appointments, treatments := map[], map[], map[], map[], map[];
      nextPatientId, nextDoctorId, nextAppointmentId, nextTreatmentId := 1, 1, 1, 1;
    }

    method AddPatient(p: Patient) returns (id: int)
      modifies this
      ensures id == old(nextPatientId)
      ensures State() == old(State()).(patients := old(patients)[id := p], nextPatientId := id + 1)
    {
      id := nextPatientId;
      patients := patients[id := p];
      nextPatientId := id + 1;
    }

    method AddDoctor(d: Doctor) returns (id: int)
      modifies this
      ensures id == old(nextDoctorId)
      ensures State() == old(State()).(doctors := old(doctors)[id := d], nextDoctorId := id + 1)
    {
      id := nextDoctorId;
      doctors := doctors[id := d];
      nextDoctorId := id + 1;
    }

    method AddAppointment(a: Appointment) returns (id: int)
      modifies this
      ensures id == old(nextAppointmentId)
      ensures State() == old(State()).(appointments := old(appointments)[id := a],
                                          nextAppointmentId := id + 1)
    {
      id := nextAppointmentId;
      appointments := appointments[id := a];
      nextAppointmentId := id + 1;
    }

    method AddTreatment(tr: Treatment) returns (id: int)
      modifies this
      ensures id == old(nextTreatmentId)
      ensures State() == old(State()).(treatments := old(treatments)[id := tr],
                                          nextTreatmentId := id + 1)
    {
      id := nextTreatmentId;
      treatments := treatments[id := tr];
      nextTreatmentId := id + 1;
    }

    /** Overwrites the columns of an existing treatment row in place. */
    method UpdateTreatment(id: int, tr: Treatment)
      requires id in treatments
      modifies this
      ensures State() == old(State()).(treatments := old(treatments)[id := tr])
    {
      treatments := treatments[id := tr];
    }

    /** Assigns `appt.status` of an existing appointment row. */
    method SetStatus(id: int, status: Status)
      requires id in appointments
      modifies this
      ensures State() == old(State()).(appointments := old(appointments)[id := old(appointments)[id].(status := status)])
    {
      appointments := appointments[id := appointments[id].(status := status)];
    }
  }
}
