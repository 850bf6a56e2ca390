/** The admin request schemas (src/lib/adminValidation.ts), stated as what each accepts and
    the normalised value it yields. The checks of one field run in the written order and all
    of them report; the fields of an object are checked in the order the schema lists them. */
module AdminValidation {
  import opened Opt
  import opened Strings
  import opened Js
  import opened Models

  /** A parsed JSON request body. A number holds the exact value of its literal; the double
      `JSON.parse` makes of it is `FromReal` of that value, taken where the number is checked. */
  datatype Json =
    | JNull
    | JBool(b: bool)
    | JNum(n: real)
    | JStr(s: string)
    | JArr(items: seq<Json>)
    | JObj(fields: map<string, Json>)

  /** One validation failure: the path of the offending field and its message. */
  datatype Issue = Issue(path: seq<string>, message: string)

  /** What a schema makes of its input: the normalised value, or the issues it found. */
  datatype Checked<T> = Accepted(value: T) | Rejected(issues: seq<Issue>)

  // The messages the schemas name.
  const NameRequired := "Name is required"
  const NameTooLong := "Name must be less than 100 characters"
  const DobInvalid := "Date of birth must be a valid date in the past"
  const SpecialtyTooLong := "Specialty must be less than 100 characters"
  const PatientIdNotInteger := "Patient ID must be an integer"
  const PatientIdNotPositive := "Patient ID must be positive"
  const TherapistIdNotInteger := "Therapist ID must be an integer"
  const TherapistIdNotPositive := "Therapist ID must be positive"
  const DateInvalid := "Date must be a valid date"
  const IdInvalid := "ID must be a positive integer"
  // The schema library's own messages: a missing field, a value of the wrong type, and a
  // string outside an enum, which quotes the value it received.
  const Required := "Required"
  const StatusOptions := "'Scheduled' | 'Completed' | 'Cancelled' | 'No-show'"

  const MaxNameLength := 100
  const MaxSpecialtyLength := 100

  /** The type name the schema library reports for a value it did not expect. */
  function TypeName(j: Json): string {
    match j
    case JNull => "null"
    case JBool(_) => "boolean"
    case JNum(_) => "number"
    case JStr(_) => "string"
    case JArr(_) => "array"
    case JObj(_) => "object"
  }

  function InvalidType(expected: string, j: Json): string {
    "Expected " + expected + ", received " + TypeName(j)
  }

  function InvalidEnumValue(s: string): string {
    "Invalid enum value. Expected " + StatusOptions + ", received '" + s + "'"
  }

  /** The four values of the session status enum. */
  predicate IsSessionStatus(s: string) {
    s == ScheduledStatus || s == CompletedStatus || s == CancelledStatus || s == NoShowStatus
  }

  /** The value of a field of an object body, absent when the key is missing. */
  function Field(fields: map<string, Json>, key: string): Option<Json> {
    if key in fields then Some(fields[key]) else None
  }

  function IssuesOf<T>(c: Checked<T>): seq<Issue> {
    if c.Rejected? then c.issues else []
  }

  /** Every issue points at the given field. */
  predicate AllAt(issues: seq<Issue>, key: string) {
    forall i :: 0 <= i < |issues| ==> issues[i].path == [key]
  }

  // What each field rule accepts, stated on the value as sent. Lengths are JavaScript lengths.

  predicate NameOk(v: Option<Json>) {
    v.Some? && v.value.JStr? && 1 <= Utf16Length(v.value.s) <= MaxNameLength
  }

  predicate DobOk(v: Option<Json>, parseDate: string -> Option<int>, now: int) {
    v.None? || (v.value.JStr? &&
      (v.value.s == [] || (parseDate(v.value.s).Some? && parseDate(v.value.s).value <= now)))
  }

  predicate SpecialtyOk(v: Option<Json>) {
    v.None? || (v.value.JStr? && Utf16Length(v.value.s) <= MaxSpecialtyLength)
  }

  predicate PositiveIntOk(v: Option<Json>) {
    v.Some? && v.value.JNum? && IsPositiveInteger(FromReal(v.value.n))
  }

  predicate DateOk(v: Option<Json>, parseDate: string -> Option<int>) {
    v.Some? && v.value.JStr? && parseDate(v.value.s).Some?
  }

  predicate StatusOk(v: Option<Json>) {
    v.None? || (v.value.JStr? && IsSessionStatus(v.value.s))
  }

  /** `z.string().min(1).max(100).trim()`: the length bounds are checked on the string as sent,
      and the accepted value is the trimmed string. */
  function NameRule(key: string, v: Option<Json>): (r: Checked<string>)
    ensures r.Accepted? <==> NameOk(v)
    ensures r.Accepted? ==> r.value == Trim(v.value.s)
    ensures r.Rejected? ==> |r.issues| == 1 && AllAt(r.issues, key)
    ensures v.Some? && v.value.JStr? && |v.value.s| == 0 ==> r == Rejected([Issue([key], NameRequired)])
  {
    match v
    case None => Rejected([Issue([key], Required)])
    case Some(JStr(s)) =>
      var issues := (if Utf16Length(s) < 1 then [Issue([key], NameRequired)] else [])
                  + (if Utf16Length(s) > MaxNameLength then [Issue([key], NameTooLong)] else []);
      if issues == [] then Accepted(Trim(s)) else Rejected(issues)
    case Some(j) => Rejected([Issue([key], InvalidType("string", j))])
  }

  /** A name of white space only passes both length checks, which run before the trim, and
      comes out empty. */
  lemma BlankNameAccepted(key: string, s: string)
    requires 1 <= Utf16Length(s) <= MaxNameLength && AllSpace(s)
    ensures NameRule(key, Some(JStr(s))) == Accepted([])
  {
    BlankIffAllSpace(s);
  }

  /** The length limit counts UTF-16 code units: 51 characters beyond the Basic Multilingual
      Plane are 102 units, too long for a name. */
  lemma AstralNameTooLong(key: string, s: string)
    requires |s| == 51 && forall i :: 0 <= i < |s| ==> IsAstral(s[i])
    ensures NameRule(key, Some(JStr(s))) == Rejected([Issue([key], NameTooLong)])
  {
    Utf16LengthAstral(s);
  }

  /** The optional date of birth: absent or empty is accepted as it is; any other string must
      parse to a date not after `now`. */
  function DobRule(v: Option<Json>, parseDate: string -> Option<int>, now: int): (r: Checked<Option<string>>)
    ensures r.Accepted? <==> DobOk(v, parseDate, now)
    ensures r.Accepted? ==> r.value == if v.None? then None else Some(v.value.s)
    ensures r.Rejected? ==> |r.issues| == 1 && AllAt(r.issues, "dob")
  {
    match v
    case None => Accepted(None)
    case Some(JStr(s)) =>
      if s == [] then Accepted(Some(s))
      else
        var parsed := parseDate(s);
        if parsed.Some? && parsed.value <= now then Accepted(Some(s))
        else Rejected([Issue(["dob"], DobInvalid)])
    case Some(j) => Rejected([Issue(["dob"], InvalidType("string", j))])
  }

  /** The optional specialty: at most 100 UTF-16 code units as sent, trimmed when accepted. */
  function SpecialtyRule(v: Option<Json>): (r: Checked<Option<string>>)
    ensures r.Accepted? <==> SpecialtyOk(v)
    ensures r.Accepted? ==> r.value == if v.None? then None else Some(Trim(v.value.s))
    ensures r.Rejected? ==> |r.issues| == 1 && AllAt(r.issues, "specialty")
  {
    match v
    case None => Accepted(None)
    case Some(JStr(s)) =>
      if Utf16Length(s) > MaxSpecialtyLength then Rejected([Issue(["specialty"], SpecialtyTooLong)])
      else Accepted(Some(Trim(s)))
    case Some(j) => Rejected([Issue(["specialty"], InvalidType("string", j))])
  }

  /** `z.number().int().positive()` on the parsed double: both checks run, so a negative fraction
      reports twice. An infinity is a number but not an integer. */
  function PositiveIntRule(key: string, notInteger: string, notPositive: string, v: Option<Json>): (r: Checked<nat>)
    ensures r.Accepted? <==> PositiveIntOk(v)
    ensures r.Accepted? ==> r.value > 0 && r.value as real == v.value.n
    ensures r.Rejected? ==> 1 <= |r.issues| <= 2 && AllAt(r.issues, key)
  {
    match v
    case None => Rejected([Issue([key], Required)])
    case Some(JNum(n)) =>
      var num := FromReal(n);
      var issues := (if !IsInteger(num) then [Issue([key], notInteger)] else [])
                  + (if !PositiveOrInfinite(num) then [Issue([key], notPositive)] else []);
      if issues == [] then Accepted(n.Floor) else Rejected(issues)
    case Some(j) => Rejected([Issue([key], InvalidType("number", j))])
  }

  /** A number literal too large for a double parses to Infinity: it passes `positive()` and
      fails `int()`; its negative counterpart fails both. */
  lemma OverflowingIdNotInteger(key: string, notInteger: string, notPositive: string, n: real)
    requires n >= OverflowThreshold as real || n <= -(OverflowThreshold as real)
    ensures PositiveIntRule(key, notInteger, notPositive, Some(JNum(n))) ==
      if n > 0.0 then Rejected([Issue([key], notInteger)])
      else Rejected([Issue([key], notInteger), Issue([key], notPositive)])
  {
  }

  /** `z.string().refine(valid date)`: the string is kept as sent. */
  function DateRule(v: Option<Json>, parseDate: string -> Option<int>): (r: Checked<string>)
    ensures r.Accepted? <==> DateOk(v, parseDate)
    ensures r.Accepted? ==> r.value == v.value.s
    ensures r.Rejected? ==> |r.issues| == 1 && AllAt(r.issues, "date")
  {
    match v
    case None => Rejected([Issue(["date"], Required)])
    case Some(JStr(s)) =>
      if parseDate(s).Some? then Accepted(s) else Rejected([Issue(["date"], DateInvalid)])
    case Some(j) => Rejected([Issue(["date"], InvalidType("string", j))])
  }

  /** `z.enum([...]).optional()`: absent stays absent; a present value must be one of the four,
      and a string outside them is quoted back in the issue. */
  function StatusRule(v: Option<Json>): (r: Checked<Option<string>>)
    ensures r.Accepted? <==> StatusOk(v)
    ensures r.Accepted? ==> r.value == if v.None? then None else Some(v.value.s)
    ensures r.Rejected? ==> |r.issues| == 1 && AllAt(r.issues, "status")
    ensures v.Some? && v.value.JStr? && !IsSessionStatus(v.value.s) ==>
      r == Rejected([Issue(["status"], InvalidEnumValue(v.value.s))])
  {
    match v
    case None => Accepted(None)
    case Some(JStr(s)) =>
      if IsSessionStatus(s) then Accepted(Some(s)) else Rejected([Issue(["status"], InvalidEnumValue(s))])
    case Some(j) => Rejected([Issue(["status"], InvalidType(StatusOptions, j))])
  }

  /** `.optional()` around a rule: an absent field is accepted as absent, a present one is
      subject to the rule. */
  function Optional<T>(v: Option<Json>, rule: Checked<T>): (r: Checked<Option<T>>)
    ensures v.None? ==> r == Accepted(None)
    ensures v.Some? ==> (r.Accepted? <==> rule.Accepted?)
    ensures v.Some? && r.Accepted? ==> r.value == Some(rule.value)
    ensures r.Rejected? ==> r.issues == IssuesOf(rule)
  {
    if v.None? then Accepted(None)
    else match rule
      case Accepted(x) => Accepted(Some(x))
      case Rejected(issues) => Rejected(issues)
  }

  /** What `z.object` reports for a body that is not an object. */
  function NotAnObject<T>(body: Json): Checked<T> {
    Rejected([Issue([], InvalidType("object", body))])
  }

  datatype PatientInput = PatientInput(name: string, dob: Option<string>)
  datatype PatientPatch = PatientPatch(name: Option<string>, dob: Option<string>)
  datatype TherapistInput = TherapistInput(name: string, specialty: Option<string>)
  datatype TherapistPatch = TherapistPatch(name: Option<string>, specialty: Option<string>)
  datatype SessionInput = SessionInput(patient_id: nat, therapist_id: nat, date: string, status: string)
  datatype SessionPatch = SessionPatch(
    patient_id: Option<nat>, therapist_id: Option<nat>, date: Option<string>, status: Option<string>)

  /** `CreatePatientSchema.parse`: an object with an acceptable name and date of birth, which
      become the trimmed name and the date of birth as sent. */
  function CreatePatient(body: Json, parseDate: string -> Option<int>, now: int): (r: Checked<PatientInput>)
    ensures r.Accepted? <==> (
      body.JObj? && NameOk(Field(body.fields, "name")) && DobOk(Field(body.fields, "dob"), parseDate, now))
    ensures r.Accepted? ==> r.value == PatientInput(Trim(body.fields["name"].s),
      if "dob" in body.fields then Some(body.fields["dob"].s) else None)
    ensures r.Rejected? ==> |r.issues| > 0
    ensures !body.JObj? ==> r == NotAnObject(body)
    ensures body.JObj? && r.Rejected? ==>
      r.issues ==
        IssuesOf(NameRule("name", Field(body.fields, "name"))) + IssuesOf(DobRule(Field(body.fields, "dob"), parseDate, now))
  {
    if !body.JObj? then NotAnObject(body)
    else
      var name := NameRule("name", Field(body.fields, "name"));
      var dob := DobRule(Field(body.fields, "dob"), parseDate, now);
      if name.Accepted? && dob.Accepted? then Accepted(PatientInput(name.value, dob.value))
      else Rejected(IssuesOf(name) + IssuesOf(dob))
  }

  /** `UpdatePatientSchema` = `CreatePatientSchema.partial()`: any subset of the fields, each
      present one subject to its create rule. */
  function UpdatePatient(body: Json, parseDate: string -> Option<int>, now: int): (r: Checked<PatientPatch>)
    ensures r.Accepted? <==> (body.JObj?
      && ("name" in body.fields ==> NameOk(Field(body.fields, "name")))
      && DobOk(Field(body.fields, "dob"), parseDate, now))
    ensures r.Accepted? ==> r.value == PatientPatch(
      if "name" in body.fields then Some(Trim(body.fields["name"].s)) else None,
      if "dob" in body.fields then Some(body.fields["dob"].s) else None)
    ensures r.Rejected? ==> |r.issues| > 0
    ensures !body.JObj? ==> r == NotAnObject(body)
    ensures body.JObj? && r.Rejected? ==>
      r.issues ==
        IssuesOf(Optional(Field(body.fields, "name"), NameRule("name", Field(body.fields, "name"))))
        + IssuesOf(DobRule(Field(body.fields, "dob"), parseDate, now))
  {
    if !body.JObj? then NotAnObject(body)
    else
      var nameField := Field(body.fields, "name");
      var name := Optional(nameField, NameRule("name", nameField));
      var dob := DobRule(Field(body.fields, "dob"), parseDate, now);
      if name.Accepted? && dob.Accepted? then Accepted(PatientPatch(name.value, dob.value))
      else Rejected(IssuesOf(name) + IssuesOf(dob))
  }

  /** `CreateTherapistSchema.parse`: an object with an acceptable name and optional specialty,
      both trimmed. */
  function CreateTherapist(body: Json): (r: Checked<TherapistInput>)
    ensures r.Accepted? <==> (
      body.JObj? && NameOk(Field(body.fields, "name")) && SpecialtyOk(Field(body.fields, "specialty")))
    ensures r.Accepted? ==> r.value == TherapistInput(Trim(body.fields["name"].s),
      if "specialty" in body.fields then Some(Trim(body.fields["specialty"].s)) else None)
    ensures r.Rejected? ==> |r.issues| > 0
    ensures !body.JObj? ==> r == NotAnObject(body)
    ensures body.JObj? && r.Rejected? ==>
      r.issues ==
        IssuesOf(NameRule("name", Field(body.fields, "name"))) + IssuesOf(SpecialtyRule(Field(body.fields, "specialty")))
  {
    if !body.JObj? then NotAnObject(body)
    else
      var name := NameRule("name", Field(body.fields, "name"));
      var specialty := SpecialtyRule(Field(body.fields, "specialty"));
      if name.Accepted? && specialty.Accepted? then Accepted(TherapistInput(name.value, specialty.value))
      else Rejected(IssuesOf(name) + IssuesOf(specialty))
  }

  /** `UpdateTherapistSchema` = `CreateTherapistSchema.partial()`. */
  function UpdateTherapist(body: Json): (r: Checked<TherapistPatch>)
    ensures r.Accepted? <==> (body.JObj?
      && ("name" in body.fields ==> NameOk(Field(body.fields, "name")))
      && SpecialtyOk(Field(body.fields, "specialty")))
    ensures r.Accepted? ==> r.value == TherapistPatch(
      if "name" in body.fields then Some(Trim(body.fields["name"].s)) else None,
      if "specialty" in body.fields then Some(Trim(body.fields["specialty"].s)) else None)
    ensures r.Rejected? ==> |r.issues| > 0
    ensures !body.JObj? ==> r == NotAnObject(body)
    ensures body.JObj? && r.Rejected? ==>
      r.issues ==
        IssuesOf(Optional(Field(body.fields, "name"), NameRule("name", Field(body.fields, "name"))))
        + IssuesOf(SpecialtyRule(Field(body.fields, "specialty")))
  {
    if !body.JObj? then NotAnObject(body)
    else
      var nameField := Field(body.fields, "name");
      var name := Optional(nameField, NameRule("name", nameField));
      var specialty := SpecialtyRule(Field(body.fields, "specialty"));
      if name.Accepted? && specialty.Accepted? then Accepted(TherapistPatch(name.value, specialty.value))
      else Rejected(IssuesOf(name) + IssuesOf(specialty))
  }

  function PatientIdRule(v: Option<Json>): Checked<nat> {
    PositiveIntRule("patient_id", PatientIdNotInteger, PatientIdNotPositive, v)
  }

  function TherapistIdRule(v: Option<Json>): Checked<nat> {
    PositiveIntRule("therapist_id", TherapistIdNotInteger, TherapistIdNotPositive, v)
  }

  /** The issues of the four session fields, in the order the schema lists them. */
  function SessionIssues<A, B, C, D>(patient: Checked<A>, therapist: Checked<B>, date: Checked<C>, status: Checked<D>): seq<Issue> {
    IssuesOf(patient) + IssuesOf(therapist) + IssuesOf(date) + IssuesOf(status)
  }

  /** `CreateSessionSchema.parse`: both ids required and positive integers, a valid date, and a
      status that defaults to "Scheduled". */
  function CreateSession(body: Json, parseDate: string -> Option<int>): (r: Checked<SessionInput>)
    ensures r.Accepted? <==> (body.JObj?
      && PositiveIntOk(Field(body.fields, "patient_id")) && PositiveIntOk(Field(body.fields, "therapist_id"))
      && DateOk(Field(body.fields, "date"), parseDate) && StatusOk(Field(body.fields, "status")))
    ensures r.Accepted? ==> (r.value.patient_id > 0 && r.value.therapist_id > 0
      && body.fields["patient_id"] == JNum(r.value.patient_id as real)
      && body.fields["therapist_id"] == JNum(r.value.therapist_id as real))
    ensures r.Accepted? ==> parseDate(r.value.date).Some? && body.fields["date"] == JStr(r.value.date)
    ensures r.Accepted? ==> IsSessionStatus(r.value.status)
    ensures r.Accepted? ==>
      if "status" in body.fields then body.fields["status"] == JStr(r.value.status)
      else r.value.status == ScheduledStatus
    ensures r.Rejected? ==> |r.issues| > 0
    ensures !body.JObj? ==> r == NotAnObject(body)
    ensures body.JObj? && r.Rejected? ==> r.issues == SessionIssues(
      PatientIdRule(Field(body.fields, "patient_id")), TherapistIdRule(Field(body.fields, "therapist_id")),
      DateRule(Field(body.fields, "date"), parseDate), StatusRule(Field(body.fields, "status")))
  {
    if !body.JObj? then NotAnObject(body)
    else
      var patient := PatientIdRule(Field(body.fields, "patient_id"));
      var therapist := TherapistIdRule(Field(body.fields, "therapist_id"));
      var date := DateRule(Field(body.fields, "date"), parseDate);
      var status := StatusRule(Field(body.fields, "status"));
      if patient.Accepted? && therapist.Accepted? && date.Accepted? && status.Accepted? then
        Accepted(SessionInput(patient.value, therapist.value, date.value,
                              if status.value.Some? then status.value.value else ScheduledStatus))
      else Rejected(SessionIssues(patient, therapist, date, status))
  }

  /** `UpdateSessionSchema.parse`: every field optional, each present one subject to the create
      rule, and an absent status stays absent. */
  function UpdateSession(body: Json, parseDate: string -> Option<int>): (r: Checked<SessionPatch>)
    ensures r.Accepted? <==> (body.JObj?
      && ("patient_id" in body.fields ==> PositiveIntOk(Field(body.fields, "patient_id")))
      && ("therapist_id" in body.fields ==> PositiveIntOk(Field(body.fields, "therapist_id")))
      && ("date" in body.fields ==> DateOk(Field(body.fields, "date"), parseDate))
      && StatusOk(Field(body.fields, "status")))
    ensures r.Accepted? ==>
      (r.value.patient_id.None? <==> "patient_id" !in body.fields)
      && (r.value.patient_id.Some? ==> body.fields["patient_id"] == JNum(r.value.patient_id.value as real))
    ensures r.Accepted? ==>
      (r.value.therapist_id.None? <==> "therapist_id" !in body.fields)
      && (r.value.therapist_id.Some? ==> body.fields["therapist_id"] == JNum(r.value.therapist_id.value as real))
    ensures r.Accepted? ==>
      r.value.date == if "date" in body.fields then Some(body.fields["date"].s) else None
    ensures r.Accepted? ==>
      r.value.status == if "status" in body.fields then Some(body.fields["status"].s) else None
    ensures r.Rejected? ==> |r.issues| > 0
    ensures !body.JObj? ==> r == NotAnObject(body)
    ensures body.JObj? && r.Rejected? ==> r.issues == SessionIssues(
      Optional(Field(body.fields, "patient_id"), PatientIdRule(Field(body.fields, "patient_id"))),
      Optional(Field(body.fields, "therapist_id"), TherapistIdRule(Field(body.fields, "therapist_id"))),
      Optional(Field(body.fields, "date"), DateRule(Field(body.fields, "date"), parseDate)),
      StatusRule(Field(body.fields, "status")))
  {
    if !body.JObj? then NotAnObject(body)
    else
      var pf, tf, df := Field(body.fields, "patient_id"), Field(body.fields, "therapist_id"), Field(body.fields, "date");
      var patient := Optional(pf, PatientIdRule(pf));
      var therapist := Optional(tf, TherapistIdRule(tf));
      var date := Optional(df, DateRule(df, parseDate));
      var status := StatusRule(Field(body.fields, "status"));
      if patient.Accepted? && therapist.Accepted? && date.Accepted? && status.Accepted? then
        Accepted(SessionPatch(patient.value, therapist.value, date.value, status.value))
      else Rejected(SessionIssues(patient, therapist, date, status))
  }

  /** `IdParamSchema.parse`: the id string is accepted when `parseInt(id, 10)` is neither NaN
      nor at most 0, and becomes that number, which is Infinity for a digit run past the
      overflow threshold. */
  function IdParam(body: Json): (r: Checked<Number>)
    ensures r.Accepted? <==> (body.JObj? && "id" in body.fields && body.fields["id"].JStr?
      && PositiveOrInfinite(ParseInt(body.fields["id"].s)))
    ensures r.Accepted? ==> r.value == ParseInt(body.fields["id"].s)
    ensures r.Accepted? ==> IsPositiveInteger(r.value) || r.value == Infinity(false)
  {
    if !body.JObj? then NotAnObject(body)
    else match Field(body.fields, "id")
      case None => Rejected([Issue(["id"], Required)])
      case Some(JStr(s)) =>
        var num := ParseInt(s);
        if PositiveOrInfinite(num) then Accepted(num) else Rejected([Issue(["id"], IdInvalid)])
      case Some(j) => Rejected([Issue(["id"], InvalidType("string", j))])
  }

  /** `!isNaN(num) && num > 0`. */
  predicate PositiveOrInfinite(num: Number) {
    match num
    case NaN => false
    case Finite(v) => v > 0.0
    case Infinity(negative) => !negative
  }

  /** The id parameter takes the leading digits and ignores a trailing non-digit suffix
      (`"12abc"` is 12); digits past the overflow threshold are accepted as Infinity. */
  lemma IdParamLeadingDigits(d: string, rest: string)
    requires d != [] && AllDigits(d) && DigitsValue(d) > 0
    requires rest == [] || !IsDigit(rest[0])
    ensures IdParam(JObj(map["id" := JStr(d + rest)])) ==
      Accepted(if DigitsValue(d) < OverflowThreshold then Finite(DigitsValue(d) as real) else Infinity(false))
  {
    var body := JObj(map["id" := JStr(d + rest)]);
    assert Field(body.fields, "id") == Some(JStr(d + rest));
    ParseIntLeadingDigits(d, rest);
  }

  /** An update body that supplies the required field is accepted exactly when the create
      schema accepts it, and with the same values: the partial schema keeps every field's rule. */
  lemma UpdatePatientKeepsRules(body: Json, parseDate: string -> Option<int>, now: int)
    requires body.JObj? && "name" in body.fields
    ensures UpdatePatient(body, parseDate, now).Accepted? <==> CreatePatient(body, parseDate, now).Accepted?
    ensures CreatePatient(body, parseDate, now).Accepted? ==>
      UpdatePatient(body, parseDate, now).value ==
        PatientPatch(Some(CreatePatient(body, parseDate, now).value.name), CreatePatient(body, parseDate, now).value.dob)
  {
  }

  lemma UpdateTherapistKeepsRules(body: Json)
    requires body.JObj? && "name" in body.fields
    ensures UpdateTherapist(body).Accepted? <==> CreateTherapist(body).Accepted?
    ensures CreateTherapist(body).Accepted? ==>
      UpdateTherapist(body).value ==
        TherapistPatch(Some(CreateTherapist(body).value.name), CreateTherapist(body).value.specialty)
  {
  }

  /** A session update body that supplies both ids and the date is accepted exactly when the
      create schema accepts it, with the same ids and date; only the status default differs. */
  lemma UpdateSessionKeepsRules(body: Json, parseDate: string -> Option<int>)
    requires body.JObj? && "patient_id" in body.fields && "therapist_id" in body.fields && "date" in body.fields
    ensures UpdateSession(body, parseDate).Accepted? <==> CreateSession(body, parseDate).Accepted?
    ensures CreateSession(body, parseDate).Accepted? ==>
      var c, u := CreateSession(body, parseDate).value, UpdateSession(body, parseDate).value;
      u.patient_id == Some(c.patient_id) && u.therapist_id == Some(c.therapist_id) && u.date == Some(c.date)
      && (u.status.Some? ==> u.status.value == c.status)
      && (u.status.None? ==> c.status == ScheduledStatus)
  {
  }

  /** An empty update body is accepted and changes nothing. */
  lemma EmptyUpdatesAccepted(parseDate: string -> Option<int>, now: int)
    ensures UpdatePatient(JObj(map[]), parseDate, now) == Accepted(PatientPatch(None, None))
    ensures UpdateTherapist(JObj(map[])) == Accepted(TherapistPatch(None, None))
    ensures UpdateSession(JObj(map[]), parseDate) == Accepted(SessionPatch(None, None, None, None))
  {
  }

  /** A session body without a status is created "Scheduled"; an update without one leaves the
      status absent. */
  lemma StatusDefaultsOnCreateOnly(p: nat, t: nat, date: string, parseDate: string -> Option<int>)
    requires 0 < p < OverflowThreshold && 0 < t < OverflowThreshold && parseDate(date).Some?
    ensures var body := JObj(map["patient_id" := JNum(p as real), "therapist_id" := JNum(t as real),
                                 "date" := JStr(date)]);
      CreateSession(body, parseDate) == Accepted(SessionInput(p, t, date, ScheduledStatus))
      && UpdateSession(body, parseDate) == Accepted(SessionPatch(Some(p), Some(t), Some(date), None))
  {
  }
}
