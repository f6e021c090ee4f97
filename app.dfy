/** Application start-up: after the tables exist, make sure a patient named
    "admin" exists, creating it (with the admin flag, the display name
    "Admin" and the password "admin") only when the lookup finds none. */
module App {
  import opened Common
  import opened Security
  import opened Models

  /** Some patient row carries `username`. */
  ghost predicate HasPatientNamed(t: Tables, username: string) {
    exists k :: k in t.patients && t.patients[k].username == username
  }

  /** The seeding block as a transition of the tables; `salt` is the random
      salt the password hash draws. */
  function SeedStep(t: Tables, salt: string): (t': Tables)
    requires TablesValid(t)
    ensures TablesValid(t') && HasPatientNamed(t', "admin")
    ensures HasPatientNamed(t, "admin") ==> t' == t
    ensures !HasPatientNamed(t, "admin") ==>
      var id := t.nextPatientId;
      && id !in t.patients && id in t'.patients
      && t' == t.(patients := t.patients[id := t'.patients[id]], nextPatientId := id + 1)
      && |t'.patients| == |t.patients| + 1
      && t'.patients[id].username == "admin"
      && t'.patients[id].isAdmin
      && t'.patients[id].name == Some("Admin")
      && t'.patients[id].passhash == Some(GeneratePasswordHash("admin", salt))
  {
    if PatientByUsername(t, "admin").Some? then t
    else
      var admin := SetPassword(NewPatient("admin", Some("Admin"), Some(true)), "admin", salt);
      var id := t.nextPatientId;
      var t' := t.(patients := t.patients[id := admin], nextPatientId := id + 1);
      assert t'.patients[id].username == "admin";
      t'
  }

  /** The seeding block run against the store. */
  method SeedAdmin(db: Store, salt: string)
    requires db.Valid()
    modifies db
    ensures db.Valid()
    ensures db.State() == SeedStep(old(db.State()), salt)
  {
    var admin := PatientByUsername(db.State(), "admin");
    if admin.None? {
      var p := NewPatient("admin", Some("Admin"), Some(true));
      p := SetPassword(p, "admin", salt);
      var _ := db.AddPatient(p);
    }
  }

  /** Seeding a second time, with any salt, changes nothing. */
  lemma SeedIdempotent(t: Tables, salt1: string, salt2: string)
    requires TablesValid(t)
    ensures SeedStep(SeedStep(t, salt1), salt2) == SeedStep(t, salt1)
  {
  }

  /** On an empty database seeding leaves exactly one patient: "admin",
      with the admin flag, accepting only the password "admin". */
  lemma SeedEmptyStore(salt: string)
    ensures var t := SeedStep(EmptyTables, salt);
            && t.patients.Keys == {1}
            && t.patients[1].username == "admin" && t.patients[1].isAdmin
            && forall a :: CheckPassword(t.patients[1], a) <==> a == "admin"
  {
    var t := SeedStep(EmptyTables, salt);
    assert !HasPatientNamed(EmptyTables, "admin");
    assert t.patients == map[1 := t.patients[1]];
  }

  /** A pre-existing "admin" row without the admin flag keeps it unset:
      seeding checks only the username. */
  lemma SeedDoesNotPromoteExistingAdmin(salt: string, hash: PassHash)
    ensures var before := EmptyTables.(patients := map[1 := Patient("admin", Some(hash), None, false)],
                                       nextPatientId := 2);
            && TablesValid(before)
            && SeedStep(before, salt) == before
            && !SeedStep(before, salt).patients[1].isAdmin
  {
    var before := EmptyTables.(patients := map[1 := Patient("admin", Some(hash), None, false)],
                               nextPatientId := 2);
    assert 1 in before.patients && before.patients[1].username == "admin";
  }
}
