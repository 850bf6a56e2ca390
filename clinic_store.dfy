/** The admin create and list endpoints (src/app/api/admin/patients/route.ts,
    src/app/api/admin/therapists/route.ts, src/app/api/admin/sessions/route.ts) and the public
    status update (src/lib/sessionUpdate.ts), over an in-memory clinic database. Each handler's
    result is what `withErrorHandler` makes of the outcome its operation reaches. */
module ClinicStore {
  import opened Opt
  import opened Strings
  import opened Sorting
  import opened Models
  import opened Js
  import opened Tables
  import opened AdminValidation
  import opened ApiHelpers

  const AdminCookie := "admin-session"
  const AuthenticatedValue := "authenticated"
  const UnauthorizedMessage := "Unauthorized"
  const PatientNotFound := "Patient not found"
  const TherapistNotFound := "Therapist not found"
  const InvalidInput := "Invalid input"
  /** The database's error for an update whose row does not exist. */
  const RecordToUpdateNotFound := "Record to update not found."
  const RecordNotFoundCode := "P2025"

  /** `checkAdminAuth`: the `admin-session` cookie is present with the value "authenticated". */
  predicate IsAdmin(cookies: map<string, string>) {
    AdminCookie in cookies && cookies[AdminCookie] == AuthenticatedValue
  }

  /** What `request.json()` yields: the parsed body, or the message of the SyntaxError it throws. */
  datatype RequestBody = Parsed(json: Json) | Malformed(syntaxError: string)

  /** The steps every POST takes before its own work: the cookie gate, then reading the body. */
  function GateAndRead(cookies: map<string, string>, body: RequestBody): (o: Outcome<Json>)
    ensures !IsAdmin(cookies) ==> o == Threw(Error(UnauthorizedMessage, None))
    ensures o.Returned? <==> IsAdmin(cookies) && body.Parsed?
    ensures o.Returned? ==> o.value == body.json
  {
    if !IsAdmin(cookies) then Threw(Error(UnauthorizedMessage, None))
    else match body
      case Malformed(m) => Threw(Error(m, None))
      case Parsed(json) => Returned(json)
  }

  /** Chains a step after a previous one: a failure is passed on untouched. */
  function Then<A, B>(o: Outcome<A>, step: A -> Outcome<B>): (r: Outcome<B>)
    ensures o.Threw? ==> r == Threw(o.error)
    ensures o.Returned? ==> r == step(o.value)
  {
    match o
    case Threw(e) => Threw(e)
    case Returned(a) => step(a)
  }

  /** `validatedData.dob ? new Date(validatedData.dob) : null`. */
  function StoredDob(dob: Option<string>, parseDate: string -> Option<int>): Option<int> {
    if dob.Some? && dob.value != [] then parseDate(dob.value) else None
  }

  /** `validatedData.specialty || null`. */
  function StoredSpecialty(specialty: Option<string>): (r: Option<string>)
    ensures r.Some? ==> r.value != []
  {
    if specialty.Some? && specialty.value != [] then specialty else None
  }

  /** The patient a POST to the admin patients endpoint creates, or what it throws. */
  function PatientCreation(cookies: map<string, string>, body: RequestBody, parseDate: string -> Option<int>,
                           now: int, nextId: nat): (o: Outcome<Patient>)
    ensures !IsAdmin(cookies) ==> o == Threw(Error(UnauthorizedMessage, None))
    ensures o.Returned? <==>
      IsAdmin(cookies) && body.Parsed? && CreatePatient(body.json, parseDate, now).Accepted?
    ensures o.Returned? ==> (var v := CreatePatient(body.json, parseDate, now).value;
      o.value.id == nextId && o.value.name == v.name
      && (o.value.dob.None? <==> v.dob.None? || v.dob.value == [])
      && (o.value.dob.Some? ==> o.value.dob == parseDate(v.dob.value) && o.value.dob.value <= now))
    ensures IsAdmin(cookies) && body.Parsed? && CreatePatient(body.json, parseDate, now).Rejected? ==>
      o == ParseOrThrow<Patient>(Rejected(CreatePatient(body.json, parseDate, now).issues))
  {
    Then(GateAndRead(cookies, body), (json: Json) =>
      match CreatePatient(json, parseDate, now)
      case Rejected(issues) => ParseOrThrow(Rejected(issues))
      case Accepted(v) => Returned(Patient(nextId, v.name, StoredDob(v.dob, parseDate))))
  }

  /** The therapist a POST to the admin therapists endpoint creates, or what it throws. */
  function TherapistCreation(cookies: map<string, string>, body: RequestBody, nextId: nat): (o: Outcome<Therapist>)
    ensures !IsAdmin(cookies) ==> o == Threw(Error(UnauthorizedMessage, None))
    ensures o.Returned? <==> IsAdmin(cookies) && body.Parsed? && CreateTherapist(body.json).Accepted?
    ensures o.Returned? ==> (var v := CreateTherapist(body.json).value;
      o.value.id == nextId && o.value.name == v.name
      && (o.value.specialty.None? <==> v.specialty.None? || v.specialty.value == [])
      && (o.value.specialty.Some? ==> o.value.specialty == v.specialty))
    ensures IsAdmin(cookies) && body.Parsed? && CreateTherapist(body.json).Rejected? ==>
      o == ParseOrThrow<Therapist>(Rejected(CreateTherapist(body.json).issues))
  {
    Then(GateAndRead(cookies, body), (json: Json) =>
      match CreateTherapist(json)
      case Rejected(issues) => ParseOrThrow(Rejected(issues))
      case Accepted(v) => Returned(Therapist(nextId, v.name, StoredSpecialty(v.specialty))))
  }

  /** `validatedData.status || 'Scheduled'`. */
  function StoredStatus(status: string): (r: string)
    ensures r != []
  {
    if status != [] then status else ScheduledStatus
  }

  /** The session a POST to the admin sessions endpoint creates, with its patient and
      therapist, or what it throws: both referenced rows must exist, the patient checked first. */
  function SessionCreation(cookies: map<string, string>, body: RequestBody, parseDate: string -> Option<int>,
                           patients: seq<Patient>, therapists: seq<Therapist>, nextId: nat): (o: Outcome<SessionWithRelations>)
    ensures !IsAdmin(cookies) ==> o == Threw(Error(UnauthorizedMessage, None))
    ensures IsAdmin(cookies) && body.Parsed? && CreateSession(body.json, parseDate).Rejected? ==>
      o == ParseOrThrow<SessionWithRelations>(Rejected(CreateSession(body.json, parseDate).issues))
    ensures IsAdmin(cookies) && body.Parsed? && CreateSession(body.json, parseDate).Accepted? ==>
      (var v := CreateSession(body.json, parseDate).value;
       var patient := FindById(patients, PatientId, Some(v.patient_id));
       var therapist := FindById(therapists, TherapistId, Some(v.therapist_id));
       if patient.None? then o == Threw(Error(PatientNotFound, None))
       else if therapist.None? then o == Threw(Error(TherapistNotFound, None))
       else o == Returned(SessionWithRelations(
         Session(nextId, Some(v.therapist_id), Some(v.patient_id), parseDate(v.date).value, Some(v.status)),
         patient, therapist)))
  {
    Then(GateAndRead(cookies, body), (json: Json) =>
      match CreateSession(json, parseDate)
      case Rejected(issues) => ParseOrThrow(Rejected(issues))
      case Accepted(v) =>
        var patient := FindById(patients, PatientId, Some(v.patient_id));
        var therapist := FindById(therapists, TherapistId, Some(v.therapist_id));
        if patient.None? then Threw(Error(PatientNotFound, None))
        else if therapist.None? then Threw(Error(TherapistNotFound, None))
        else Returned(SessionWithRelations(
          Session(nextId, Some(v.therapist_id), Some(v.patient_id), parseDate(v.date).value, Some(StoredStatus(v.status))),
          patient, therapist)))
  }

  /** A session row in the patient listing: `sessions: { select: { id, status } }`. */
  datatype SessionSummary = SessionSummary(id: nat, status: Option<string>)

  datatype PatientWithSessions = PatientWithSessions(patient: Patient, sessions: seq<SessionSummary>)

  /** A session row in the therapist listing: id, status and the patient's name, if any. */
  datatype TherapistSession = TherapistSession(id: nat, status: Option<string>, patientName: Option<string>)

  datatype TherapistWithSessions = TherapistWithSessions(therapist: Therapist, sessions: seq<TherapistSession>)

  function PatientKey(p: Patient): Key { StrKey(p.name) }
  function TherapistKey(t: Therapist): Key { StrKey(t.name) }
  function SessionDateKey(s: SessionWithRelations): Key { IntKey(s.session.date) }

  /** The sessions whose patient key is the given id, in table order. */
  function SessionsOfPatient(sessions: seq<Session>, id: nat): (r: seq<SessionSummary>)
    ensures |r| <= |sessions|
  {
    Map(Filter(sessions, (s: Session) => s.patient_id == Some(id)), (s: Session) => SessionSummary(s.id, s.status))
  }

  function SessionsOfTherapist(sessions: seq<Session>, patients: seq<Patient>, id: nat): (r: seq<TherapistSession>)
    ensures |r| <= |sessions|
  {
    Map(Filter(sessions, OfTherapist(id)), AsTherapistSession(patients))
  }

  function OfTherapist(id: nat): Session -> bool {
    (s: Session) => s.therapist_id == Some(id)
  }

  /** The name of the patient a session references, if that patient exists. */
  function PatientNameOf(patients: seq<Patient>, s: Session): Option<string> {
    match FindById(patients, PatientId, s.patient_id) case Some(p) => Some(p.name) case None => None
  }

  function AsTherapistSession(patients: seq<Patient>): Session -> TherapistSession {
    (s: Session) => TherapistSession(s.id, s.status, PatientNameOf(patients, s))
  }

  /** The admin patients listing: every patient by name, each with its sessions. */
  function PatientListing(patients: seq<Patient>, sessions: seq<Session>): (r: seq<PatientWithSessions>)
    ensures |r| == |patients|
  {
    Map(Sort(patients, PatientKey, Asc), (p: Patient) => PatientWithSessions(p, SessionsOfPatient(sessions, p.id)))
  }

  /** The admin therapists listing: every therapist by name, each with its sessions. */
  function TherapistListing(therapists: seq<Therapist>, patients: seq<Patient>, sessions: seq<Session>): (r: seq<TherapistWithSessions>)
    ensures |r| == |therapists|
  {
    Map(Sort(therapists, TherapistKey, Asc), (t: Therapist) => TherapistWithSessions(t, SessionsOfTherapist(sessions, patients, t.id)))
  }

  /** The admin sessions listing: every session with its relations, latest first. */
  function SessionListing(patients: seq<Patient>, therapists: seq<Therapist>, sessions: seq<Session>): (r: seq<SessionWithRelations>)
    ensures |r| == |sessions|
  {
    Sort(RelateAll(patients, therapists, sessions), SessionDateKey, Desc)
  }

  /** A GET of an admin listing: the cookie gate, then the listing. */
  function Listing<T>(cookies: map<string, string>, list: T): (o: Outcome<T>)
    ensures o.Returned? <==> IsAdmin(cookies)
    ensures o.Returned? ==> o.value == list
    ensures o.Threw? ==> o.error == Error(UnauthorizedMessage, None)
  {
    if IsAdmin(cookies) then Returned(list) else Threw(Error(UnauthorizedMessage, None))
  }

  /** The database call a handler makes once its checks have passed: it returns what the checks
      produced, or throws `failure`, what the call threw, if it threw. */
  function DatabaseCall<T>(o: Outcome<T>, failure: Option<Thrown>): (r: Outcome<T>)
    ensures r.Returned? <==> o.Returned? && failure.None?
    ensures r.Returned? ==> r == o
    ensures o.Threw? ==> r == o
    ensures o.Returned? && failure.Some? ==> r == Threw(failure.value)
  {
    if o.Returned? && failure.Some? then Threw(failure.value) else o
  }

  /** A database error raised after the checks, whose message names neither a missing record
      nor a refused delete, is answered from the code table. */
  lemma DatabaseFailureUsesCodeTable<T>(o: Outcome<T>, message: string, code: string)
    requires o.Returned?
    requires message != UnauthorizedMessage
    requires !Contains(message, "not found") && !Contains(message, "Cannot delete")
    ensures WithErrorHandler(DatabaseCall(o, Some(Error(message, Some(code))))) == HandleDatabaseError(Some(code))
  {
    FirstApplicableRuleWins<T>(Error(message, Some(code)), 4);
  }

  /** The guard of `updateSessionStatus`: a truthy number id and a non-empty string status. */
  predicate ValidUpdateInput(id: Value, status: Value) {
    Truthy(id) && id.Num? && Truthy(status) && status.Str?
  }

  /** The position of the row whose id equals the number, if any. */
  function IndexOfSession(sessions: seq<Session>, n: Number): (r: Option<nat>)
    ensures r.Some? ==> r.value < |sessions| && n == Finite(sessions[r.value].id as real)
    ensures r.None? ==> forall i :: 0 <= i < |sessions| ==> n != Finite(sessions[i].id as real)
  {
    if sessions == [] then None
    else if n == Finite(sessions[0].id as real) then Some(0)
    else match IndexOfSession(sessions[1..], n)
      case Some(k) => Some(k + 1)
      case None => None
  }

  datatype StatusUpdate = StatusUpdate(id: nat, status: string)

  /** What `updateSessionStatus` returns or throws. */
  function StatusUpdateOutcome(sessions: seq<Session>, id: Value, status: Value): (o: Outcome<StatusUpdate>)
    ensures !ValidUpdateInput(id, status) ==> o == Threw(Error(InvalidInput, None))
    ensures ValidUpdateInput(id, status) && IndexOfSession(sessions, id.n).None? ==>
      o == Threw(Error(RecordToUpdateNotFound, Some(RecordNotFoundCode)))
    ensures o.Returned? ==> (ValidUpdateInput(id, status) && IndexOfSession(sessions, id.n).Some?
      && o.value == StatusUpdate(sessions[IndexOfSession(sessions, id.n).value].id, status.s))
  {
    if !ValidUpdateInput(id, status) then Threw(Error(InvalidInput, None))
    else match IndexOfSession(sessions, id.n)
      case None => Threw(Error(RecordToUpdateNotFound, Some(RecordNotFoundCode)))
      case Some(k) => Returned(StatusUpdate(sessions[k].id, status.s))
  }

  /** The sessions table after `updateSessionStatus`. */
  function StatusUpdated(sessions: seq<Session>, id: Value, status: Value): (r: seq<Session>)
    ensures |r| == |sessions|
  {
    if ValidUpdateInput(id, status) && IndexOfSession(sessions, id.n).Some? then
      var k := IndexOfSession(sessions, id.n).value;
      sessions[k := sessions[k].(status := Some(status.s))]
    else sessions
  }

  predicate IsUnauthorizedResponse<T>(r: Response<T>) {
    r.status == 401 && r.body.data.None? && !r.body.success
    && r.body.error == Some(ApiError("Authentication required", Some("UNAUTHORIZED"), None))
  }

  /** Every admin handler refuses a request without the admin cookie with a 401, whatever
      the body; the POSTs then write nothing, since their outcome is not a returned row. */
  lemma UnauthenticatedRejected(cookies: map<string, string>, body: RequestBody, parseDate: string -> Option<int>,
                                now: int, patients: seq<Patient>, therapists: seq<Therapist>, nextId: nat)
    requires !IsAdmin(cookies)
    ensures IsUnauthorizedResponse(WithErrorHandler(PatientCreation(cookies, body, parseDate, now, nextId)))
    ensures IsUnauthorizedResponse(WithErrorHandler(TherapistCreation(cookies, body, nextId)))
    ensures IsUnauthorizedResponse(WithErrorHandler(SessionCreation(cookies, body, parseDate, patients, therapists, nextId)))
    ensures IsUnauthorizedResponse(WithErrorHandler(Listing(cookies, patients)))
  {
    UnauthorizedIs401<Patient>();
    UnauthorizedIs401<Therapist>();
    UnauthorizedIs401<SessionWithRelations>();
    UnauthorizedIs401<seq<Patient>>();
  }

  /** A session naming neither an existing patient nor an existing therapist is refused with
      the patient's message, as a 404. */
  lemma PatientCheckedFirst(cookies: map<string, string>, body: RequestBody, parseDate: string -> Option<int>,
                            patients: seq<Patient>, therapists: seq<Therapist>, nextId: nat)
    requires IsAdmin(cookies) && body.Parsed? && CreateSession(body.json, parseDate).Accepted?
    requires FindById(patients, PatientId, Some(CreateSession(body.json, parseDate).value.patient_id)).None?
    ensures WithErrorHandler(SessionCreation(cookies, body, parseDate, patients, therapists, nextId))
         == CreateErrorResponse(PatientNotFound, 404, Some("NOT_FOUND"), None)
  {
    var m := PatientNotFound;
    assert OccursAt(m, "not found", 8);
  }

  /** A session with an existing patient and a missing therapist is refused with a 404 naming
      the therapist. */
  lemma TherapistChecked(cookies: map<string, string>, body: RequestBody, parseDate: string -> Option<int>,
                         patients: seq<Patient>, therapists: seq<Therapist>, nextId: nat)
    requires IsAdmin(cookies) && body.Parsed? && CreateSession(body.json, parseDate).Accepted?
    requires FindById(patients, PatientId, Some(CreateSession(body.json, parseDate).value.patient_id)).Some?
    requires FindById(therapists, TherapistId, Some(CreateSession(body.json, parseDate).value.therapist_id)).None?
    ensures WithErrorHandler(SessionCreation(cookies, body, parseDate, patients, therapists, nextId))
         == CreateErrorResponse(TherapistNotFound, 404, Some("NOT_FOUND"), None)
  {
    var m := TherapistNotFound;
    assert OccursAt(m, "not found", 10);
  }

  /** A created session references rows that exist, and a body without a status creates a
      "Scheduled" session. */
  lemma CreatedSessionReferencesRows(cookies: map<string, string>, body: RequestBody, parseDate: string -> Option<int>,
                                     patients: seq<Patient>, therapists: seq<Therapist>, nextId: nat)
    requires SessionCreation(cookies, body, parseDate, patients, therapists, nextId).Returned?
    ensures var s := SessionCreation(cookies, body, parseDate, patients, therapists, nextId).value.session;
      (exists i :: 0 <= i < |patients| && s.patient_id == Some(patients[i].id))
      && (exists j :: 0 <= j < |therapists| && s.therapist_id == Some(therapists[j].id))
      && s.id == nextId
      && ("status" !in body.json.fields ==> s.status == Some(ScheduledStatus))
  {
    var v := CreateSession(body.json, parseDate).value;
    var p := FindById(patients, PatientId, Some(v.patient_id)).value;
    var t := FindById(therapists, TherapistId, Some(v.therapist_id)).value;
    var i :| 0 <= i < |patients| && patients[i] == p;
    var j :| 0 <= j < |therapists| && therapists[j] == t;
  }

  /** `updateSessionStatus` changes the status of exactly the row with the given id, to the
      given string, and nothing else; when it throws, the table is unchanged. */
  lemma StatusUpdateTouchesOneRow(sessions: seq<Session>, id: Value, status: Value)
    requires forall i, j :: 0 <= i < j < |sessions| ==> sessions[i].id != sessions[j].id
    ensures var o := StatusUpdateOutcome(sessions, id, status);
      var updated := StatusUpdated(sessions, id, status);
      (o.Threw? ==> updated == sessions)
      && (o.Returned? ==> forall i :: 0 <= i < |sessions| ==>
            updated[i] == if Finite(sessions[i].id as real) == id.n
                          then sessions[i].(status := Some(status.s)) else sessions[i])
  {
    var o := StatusUpdateOutcome(sessions, id, status);
    if o.Returned? {
      var k := IndexOfSession(sessions, id.n).value;
      forall i | 0 <= i < |sessions| && Finite(sessions[i].id as real) == id.n
        ensures i == k
      {
      }
    }
  }

  /** Any non-empty status text is written for an existing row; there is no check against the
      four statuses the admin schemas know. */
  lemma AnyStatusTextAccepted(sessions: seq<Session>, k: nat, text: string)
    requires k < |sessions| && sessions[k].id > 0 && text != []
    requires forall i, j :: 0 <= i < j < |sessions| ==> sessions[i].id != sessions[j].id
    ensures StatusUpdateOutcome(sessions, Num(Finite(sessions[k].id as real)), Str(text))
         == Returned(StatusUpdate(sessions[k].id, text))
  {
    var n := Finite(sessions[k].id as real);
    var found := IndexOfSession(sessions, n);
    assert found.Some?;
    assert sessions[found.value].id == sessions[k].id;
  }

  /** Updating a row that does not exist throws the database's not-found error. The second
      ensures is hypothetical: no handler passes this error to the error translator, which
      would answer it with a 404 from its message rule. */
  lemma MissingRowNotFound(sessions: seq<Session>, v: real, text: string)
    requires v != 0.0 && text != []
    requires forall i :: 0 <= i < |sessions| ==> sessions[i].id as real != v
    ensures StatusUpdateOutcome(sessions, Num(Finite(v)), Str(text))
         == Threw(Error(RecordToUpdateNotFound, Some(RecordNotFoundCode)))
    ensures WithErrorHandler<StatusUpdate>(Threw(Error(RecordToUpdateNotFound, Some(RecordNotFoundCode)))).status == 404
  {
    var m := RecordToUpdateNotFound;
    assert OccursAt(m, "not found", 17);
  }

  /** The patients listing holds every patient once per occurrence, ordered by name, each with
      the sessions that reference it. */
  lemma PatientListingSpec(patients: seq<Patient>, sessions: seq<Session>)
    ensures var r := PatientListing(patients, sessions);
      multiset(Map(r, (x: PatientWithSessions) => x.patient)) == multiset(patients)
      && (forall i, j :: 0 <= i < j < |r| ==> StrLeq(r[i].patient.name, r[j].patient.name))
      && (forall i :: 0 <= i < |r| ==> r[i].sessions == SessionsOfPatient(sessions, r[i].patient.id))
  {
    var sorted := Sort(patients, PatientKey, Asc);
    var r := PatientListing(patients, sessions);
    assert Map(r, (x: PatientWithSessions) => x.patient) == sorted;
    SortSorted(patients, PatientKey, Asc);
    forall i, j | 0 <= i < j < |r|
      ensures StrLeq(r[i].patient.name, r[j].patient.name)
    {
      SortedAllPairs(sorted, PatientKey, Asc, i, j);
    }
  }

  /** A patient's listed sessions are exactly the summaries of the rows whose patient key is
      that patient's id. */
  lemma SessionsOfPatientMembers(sessions: seq<Session>, id: nat, x: SessionSummary)
    ensures x in SessionsOfPatient(sessions, id) <==>
      exists s :: s in sessions && s.patient_id == Some(id) && x == SessionSummary(s.id, s.status)
  {
    var selected := Filter(sessions, (s: Session) => s.patient_id == Some(id));
    var r := SessionsOfPatient(sessions, id);
    if x in r {
      var k :| 0 <= k < |r| && r[k] == x;
      assert selected[k] in sessions;
    }
    if exists s :: s in sessions && s.patient_id == Some(id) && x == SessionSummary(s.id, s.status) {
      var s :| s in sessions && s.patient_id == Some(id) && x == SessionSummary(s.id, s.status);
      var k :| 0 <= k < |selected| && selected[k] == s;
      assert r[k] == x;
    }
  }

  /** The therapists listing holds every therapist once per occurrence, ordered by name, each
      with the sessions that reference it and the name of each session's patient. */
  lemma TherapistListingSpec(therapists: seq<Therapist>, patients: seq<Patient>, sessions: seq<Session>)
    ensures var r := TherapistListing(therapists, patients, sessions);
      multiset(Map(r, (x: TherapistWithSessions) => x.therapist)) == multiset(therapists)
      && (forall i, j :: 0 <= i < j < |r| ==> StrLeq(r[i].therapist.name, r[j].therapist.name))
      && (forall i :: 0 <= i < |r| ==> r[i].sessions == SessionsOfTherapist(sessions, patients, r[i].therapist.id))
  {
    var sorted := Sort(therapists, TherapistKey, Asc);
    var r := TherapistListing(therapists, patients, sessions);
    assert Map(r, (x: TherapistWithSessions) => x.therapist) == sorted;
    SortSorted(therapists, TherapistKey, Asc);
    forall i, j | 0 <= i < j < |r|
      ensures StrLeq(r[i].therapist.name, r[j].therapist.name)
    {
      SortedAllPairs(sorted, TherapistKey, Asc, i, j);
    }
  }

  /** A therapist's listed sessions are the rows whose therapist key is its id, each with the
      name of the patient it references, if that patient exists. */
  lemma SessionsOfTherapistMembers(sessions: seq<Session>, patients: seq<Patient>, id: nat, x: TherapistSession)
    ensures x in SessionsOfTherapist(sessions, patients, id) <==>
      exists s :: s in sessions && s.therapist_id == Some(id) && x == TherapistSession(s.id, s.status, PatientNameOf(patients, s))
  {
    var selected := Filter(sessions, OfTherapist(id));
    var r := SessionsOfTherapist(sessions, patients, id);
    if x in r {
      var k :| 0 <= k < |r| && r[k] == x;
      assert selected[k] in sessions && OfTherapist(id)(selected[k]);
      assert x == AsTherapistSession(patients)(selected[k]);
    }
    if exists s :: s in sessions && s.therapist_id == Some(id) && x == TherapistSession(s.id, s.status, PatientNameOf(patients, s)) {
      var s :| s in sessions && s.therapist_id == Some(id) && x == TherapistSession(s.id, s.status, PatientNameOf(patients, s));
      assert OfTherapist(id)(s);
      var k :| 0 <= k < |selected| && selected[k] == s;
      assert r[k] == x;
    }
  }

  /** The sessions listing holds every session with its relations, latest first. */
  lemma SessionListingSpec(patients: seq<Patient>, therapists: seq<Therapist>, sessions: seq<Session>)
    ensures var r := SessionListing(patients, therapists, sessions);
      multiset(r) == multiset(RelateAll(patients, therapists, sessions))
      && forall i, j :: 0 <= i < j < |r| ==> r[i].session.date >= r[j].session.date
  {
    var all := RelateAll(patients, therapists, sessions);
    var r := SessionListing(patients, therapists, sessions);
    SortSorted(all, SessionDateKey, Desc);
    forall i, j | 0 <= i < j < |r|
      ensures r[i].session.date >= r[j].session.date
    {
      SortedAllPairs(r, SessionDateKey, Desc, i, j);
    }
  }

  /** Ids are positive, below the next id to hand out, and pairwise distinct. */
  ghost predicate FreshIds(ids: seq<nat>, next: nat) {
    (forall i :: 0 <= i < |ids| ==> 0 < ids[i] < next)
    && (forall i, j :: 0 <= i < j < |ids| ==> ids[i] != ids[j])
  }

  /** Handing out the next id keeps the ids fresh. */
  lemma AppendNextId(ids: seq<nat>, next: nat)
    requires FreshIds(ids, next) && next > 0
    ensures FreshIds(ids + [next], next + 1)
  {
  }

  function PatientIds(ps: seq<Patient>): seq<nat> { Map(ps, (p: Patient) => p.id) }
  function TherapistIds(ts: seq<Therapist>): seq<nat> { Map(ts, (t: Therapist) => t.id) }
  function SessionIds(ss: seq<Session>): seq<nat> { Map(ss, (s: Session) => s.id) }

  /** The clinic database: three tables and the next id each table hands out. */
  class Store {
    var patients: seq<Patient>
    var therapists: seq<Therapist>
    var sessions: seq<Session>
    var nextPatientId: nat
    var nextTherapistId: nat
    var nextSessionId: nat

    /** Ids are positive, below the next id to hand out, and unique within each table. */
    ghost predicate Valid()
      reads this
    {
      nextPatientId > 0 && nextTherapistId > 0 && nextSessionId > 0
      && FreshIds(PatientIds(patients), nextPatientId)
      && FreshIds(TherapistIds(therapists), nextTherapistId)
      && FreshIds(SessionIds(sessions), nextSessionId)
    }

    constructor()
      ensures Valid()
      ensures patients == [] && therapists == [] && sessions == []
    {
      patients, therapists, sessions := [], [], [];
      nextPatientId, nextTherapistId, nextSessionId := 1, 1, 1;
    }

    /** `POST /api/admin/patients`: adds the created patient, or writes nothing. */
    method PostPatient(cookies: map<string, string>, body: RequestBody, parseDate: string -> Option<int>, now: int,
                       failure: Option<Thrown>)
      returns (r: Response<Patient>)
      requires Valid()
      modifies this
      ensures Valid()
      ensures var o := DatabaseCall(PatientCreation(cookies, body, parseDate, now, old(nextPatientId)), failure);
        r == WithErrorHandler(o) && patients == old(patients) + (if o.Returned? then [o.value] else [])
        && nextPatientId == old(nextPatientId) + (if o.Returned? then 1 else 0)
      ensures therapists == old(therapists) && sessions == old(sessions)
      ensures nextTherapistId == old(nextTherapistId) && nextSessionId == old(nextSessionId)
    {
      var o := DatabaseCall(PatientCreation(cookies, body, parseDate, now, nextPatientId), failure);
      if o.Returned? {
        AddPatient(o.value);
      }
      r := WithErrorHandler(o);
    }

    /** Appends a patient carrying the next patient id. */
    method AddPatient(p: Patient)
      requires Valid() && p.id == nextPatientId
      modifies this
      ensures Valid()
      ensures patients == old(patients) + [p] && nextPatientId == old(nextPatientId) + 1
      ensures therapists == old(therapists) && sessions == old(sessions)
      ensures nextTherapistId == old(nextTherapistId) && nextSessionId == old(nextSessionId)
    {
      MapConcat(patients, [p], (q: Patient) => q.id);
      AppendNextId(PatientIds(patients), nextPatientId);
      patients := patients + [p];
      nextPatientId := nextPatientId + 1;
    }

    /** `POST /api/admin/therapists`: adds the created therapist, or writes nothing. */
    method PostTherapist(cookies: map<string, string>, body: RequestBody, failure: Option<Thrown>)
      returns (r: Response<Therapist>)
      requires Valid()
      modifies this
      ensures Valid()
      ensures var o := DatabaseCall(TherapistCreation(cookies, body, old(nextTherapistId)), failure);
        r == WithErrorHandler(o) && therapists == old(therapists) + (if o.Returned? then [o.value] else [])
        && nextTherapistId == old(nextTherapistId) + (if o.Returned? then 1 else 0)
      ensures patients == old(patients) && sessions == old(sessions)
      ensures nextPatientId == old(nextPatientId) && nextSessionId == old(nextSessionId)
    {
      var o := DatabaseCall(TherapistCreation(cookies, body, nextTherapistId), failure);
      if o.Returned? {
        AddTherapist(o.value);
      }
      r := WithErrorHandler(o);
    }

    /** Appends a therapist carrying the next therapist id. */
    method AddTherapist(t: Therapist)
      requires Valid() && t.id == nextTherapistId
      modifies this
      ensures Valid()
      ensures therapists == old(therapists) + [t] && nextTherapistId == old(nextTherapistId) + 1
      ensures patients == old(patients) && sessions == old(sessions)
      ensures nextPatientId == old(nextPatientId) && nextSessionId == old(nextSessionId)
    {
      MapConcat(therapists, [t], (u: Therapist) => u.id);
      AppendNextId(TherapistIds(therapists), nextTherapistId);
      therapists := therapists + [t];
      nextTherapistId := nextTherapistId + 1;
    }

    /** `POST /api/admin/sessions`: adds the created session, or writes nothing. */
    method PostSession(cookies: map<string, string>, body: RequestBody, parseDate: string -> Option<int>,
                       failure: Option<Thrown>)
      returns (r: Response<SessionWithRelations>)
      requires Valid()
      modifies this
      ensures Valid()
      ensures var o := DatabaseCall(SessionCreation(cookies, body, parseDate, patients, therapists, old(nextSessionId)), failure);
        r == WithErrorHandler(o) && sessions == old(sessions) + (if o.Returned? then [o.value.session] else [])
        && nextSessionId == old(nextSessionId) + (if o.Returned? then 1 else 0)
      ensures patients == old(patients) && therapists == old(therapists)
      ensures nextPatientId == old(nextPatientId) && nextTherapistId == old(nextTherapistId)
    {
      var o := DatabaseCall(SessionCreation(cookies, body, parseDate, patients, therapists, nextSessionId), failure);
      if o.Returned? {
        MapConcat(sessions, [o.value.session], (s: Session) => s.id);
        AppendNextId(SessionIds(sessions), nextSessionId);
        sessions := sessions + [o.value.session];
        nextSessionId := nextSessionId + 1;
      }
      r := WithErrorHandler(o);
    }

    /** `updateSessionStatus`: writes the status of one row, or nothing. */
    method UpdateSessionStatus(id: Value, status: Value, failure: Option<Thrown>) returns (o: Outcome<StatusUpdate>)
      requires Valid()
      modifies this
      ensures Valid()
      ensures o == DatabaseCall(StatusUpdateOutcome(old(sessions), id, status), failure)
      ensures sessions == if failure.None? then StatusUpdated(old(sessions), id, status) else old(sessions)
      ensures patients == old(patients) && therapists == old(therapists)
      ensures nextPatientId == old(nextPatientId) && nextTherapistId == old(nextTherapistId)
      ensures nextSessionId == old(nextSessionId)
    {
      o := DatabaseCall(StatusUpdateOutcome(sessions, id, status), failure);
      if failure.None? {
        var updated := StatusUpdated(sessions, id, status);
        assert SessionIds(updated) == SessionIds(sessions);
        sessions := updated;
      }
    }

    /** `GET /api/admin/patients`. */
    function GetPatients(cookies: map<string, string>, failure: Option<Thrown>): (r: Response<seq<PatientWithSessions>>)
      reads this
      ensures r.body.success <==> IsAdmin(cookies) && failure.None?
      ensures IsAdmin(cookies) && failure.None? ==> r == CreateSuccessResponse(PatientListing(patients, sessions))
      ensures !IsAdmin(cookies) ==> IsUnauthorizedResponse(r)
      ensures IsAdmin(cookies) && failure.Some? ==> r == WithErrorHandler<seq<PatientWithSessions>>(Threw(failure.value))
    {
      WithErrorHandler(DatabaseCall(Listing(cookies, PatientListing(patients, sessions)), failure))
    }

    /** `GET /api/admin/therapists`. */
    function GetTherapists(cookies: map<string, string>, failure: Option<Thrown>): (r: Response<seq<TherapistWithSessions>>)
      reads this
      ensures r.body.success <==> IsAdmin(cookies) && failure.None?
      ensures IsAdmin(cookies) && failure.None? ==> r == CreateSuccessResponse(TherapistListing(therapists, patients, sessions))
      ensures !IsAdmin(cookies) ==> IsUnauthorizedResponse(r)
      ensures IsAdmin(cookies) && failure.Some? ==> r == WithErrorHandler<seq<TherapistWithSessions>>(Threw(failure.value))
    {
      WithErrorHandler(DatabaseCall(Listing(cookies, TherapistListing(therapists, patients, sessions)), failure))
    }

    /** `GET /api/admin/sessions`. */
    function GetSessions(cookies: map<string, string>, failure: Option<Thrown>): (r: Response<seq<SessionWithRelations>>)
      reads this
      ensures r.body.success <==> IsAdmin(cookies) && failure.None?
      ensures IsAdmin(cookies) && failure.None? ==> r == CreateSuccessResponse(SessionListing(patients, therapists, sessions))
      ensures !IsAdmin(cookies) ==> IsUnauthorizedResponse(r)
      ensures IsAdmin(cookies) && failure.Some? ==> r == WithErrorHandler<seq<SessionWithRelations>>(Threw(failure.value))
    {
      WithErrorHandler(DatabaseCall(Listing(cookies, SessionListing(patients, therapists, sessions)), failure))
    }
  }
}
