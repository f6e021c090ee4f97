/** Flask's per-client `session` dictionary, restricted to the four keys the
    application uses: `user_id`, `is_admin`, `doctor_id` and `role`. A key
    that is not present is None. */
module Sessions {
  import opened Common

  /** The values the application writes under `role`. */
  datatype Role = AdminRole | PatientRole | DoctorRole

  datatype SessionData = SessionData(userId: Option<int>, isAdmin: Option<bool>,
                                     doctorId: Option<int>, role: Option<Role>)

  const EmptySession := SessionData(None, None, None, None)

  /** What patient login writes after clearing: exactly `user_id`,
      `is_admin` and `role`. */
  function PatientSession(id: int, isAdmin: bool): (s: SessionData)
    ensures s.userId == Some(id) && s.isAdmin == Some(isAdmin) && s.doctorId.None?
    ensures s.role == Some(AdminRole) <==> isAdmin
    ensures s.role.Some? && s.role != Some(DoctorRole)
  {
    SessionData(Some(id), Some(isAdmin), None, Some(if isAdmin then AdminRole else PatientRole))
  }

  /** What doctor login writes after clearing: exactly `doctor_id` and `role`. */
  function DoctorSession(id: int): (s: SessionData)
    ensures s.doctorId == Some(id) && s.role == Some(DoctorRole)
    ensures s.userId.None? && s.isAdmin.None?
  {
    SessionData(None, None, Some(id), Some(DoctorRole))
  }

  /** The shapes a session can take when only the application writes it:
      empty, a patient or admin login, or a doctor login. */
  ghost predicate SessionWellFormed(s: SessionData) {
    || s == EmptySession
    || (s.userId.Some? && s.isAdmin.Some? && s == PatientSession(s.userId.value, s.isAdmin.value))
    || (s.doctorId.Some? && s == DoctorSession(s.doctorId.value))
  }

  /** The session of one client, updated in place by the handlers. */
  class Session {
    var userId: Option<int>
    var isAdmin: Option<bool>
    var doctorId: Option<int>
    var role: Option<Role>

    function Data(): SessionData
      reads this
    {
      SessionData(userId, isAdmin, doctorId, role)
    }

    /** A new client starts with an empty session. */
    constructor ()
      ensures Data() == EmptySession
    {
      userId, isAdmin, doctorId, role := None, None, None, None;
    }

    /** `session.clear()`: removes every key. */
    method Clear()
      modifies this
      ensures Data() == EmptySession
    {
      userId, isAdmin, doctorId, role := None, None, None, None;
    }
  }
}
