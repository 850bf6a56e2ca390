/** How the database resolves a session's foreign keys when a query includes its related rows:
    each key is looked up by id, and a null or dangling key gives no related row. */
module Tables {
  import opened Opt
  import opened Models
  import opened Sorting

  /** `findUnique({ where: { id } })` on a table keyed by `key`: a row with the id, or none when
      no row has it (or no id is given). */
  function FindById<T>(rows: seq<T>, key: T -> nat, id: Option<nat>): (r: Option<T>)
    ensures r.Some? ==> id == Some(key(r.value)) && r.value in rows
    ensures r.None? ==> id.None? || forall i :: 0 <= i < |rows| ==> key(rows[i]) != id.value
  {
    if id.None? || rows == [] then None
    else if key(rows[0]) == id.value then Some(rows[0])
    else FindById(rows[1..], key, id)
  }

  function PatientId(p: Patient): nat { p.id }

  function TherapistId(t: Therapist): nat { t.id }

  /** `include: { patients: true, therapists: true }` for one session. */
  function Relate(patients: seq<Patient>, therapists: seq<Therapist>, s: Session): (r: SessionWithRelations)
    ensures r.session == s
  {
    SessionWithRelations(s, FindById(patients, PatientId, s.patient_id), FindById(therapists, TherapistId, s.therapist_id))
  }

  /** Every session with its related rows, in table order. */
  function RelateAll(patients: seq<Patient>, therapists: seq<Therapist>, sessions: seq<Session>): (r: seq<SessionWithRelations>)
    ensures |r| == |sessions|
    ensures forall i :: 0 <= i < |r| ==> r[i].session == sessions[i]
  {
    Map(sessions, s => Relate(patients, therapists, s))
  }
}
