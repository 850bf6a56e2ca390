/** The uniform `{success, data, error}` envelope of the admin endpoints and the translator from
    a failure to an HTTP status and error code (src/lib/apiHelpers.ts). */
module ApiHelpers {
  import opened Opt
  import opened Strings
  import opened AdminValidation

  /** `details` of an error: the field errors of a validation failure, or a database code. */
  datatype Details = FieldErrorDetails(fieldErrors: map<string, string>) | PrismaCodeDetails(prismaCode: string)

  datatype ApiError = ApiError(message: string, code: Option<string>, details: Option<Details>)

  datatype Envelope<T> = Envelope(success: bool, data: Option<T>, error: Option<ApiError>)

  /** A JSON response: HTTP status and envelope. */
  datatype Response<T> = Response(status: int, body: Envelope<T>)

  /** What an operation can throw: an `Error` (a database client error is one, with a `code`),
      a `ZodError` (also an `Error`, whose message serialises its issues), or any other value,
      which may be an object with a `code` property. */
  datatype Thrown =
    | Error(message: string, code: Option<string>)
    | ZodError(message: string, issues: seq<Issue>)
    | NonError(code: Option<string>)
  {
    predicate IsErrorInstance() { Error? || ZodError? }
    function CodeProperty(): Option<string> {
      match this
      case Error(_, c) => c
      case ZodError(_, _) => None
      case NonError(c) => c
    }
  }

  /** The result of running an operation: its value, or what it threw. */
  datatype Outcome<T> = Returned(value: T) | Threw(error: Thrown)

  /** The message of the error `schema.parse` throws: its issues serialised as a JSON array. */
  function ZodErrorMessage(issues: seq<Issue>): (m: string)
    ensures |m| >= 2 && m[0] == '['
  {
    "[" + IssueMessages(issues) + "]"
  }

  function IssueMessages(issues: seq<Issue>): string {
    if issues == [] then []
    else "\"" + issues[0].message + "\"" + (if |issues| > 1 then "," else "") + IssueMessages(issues[1..])
  }

  /** `schema.parse(body)`: the accepted value, or a thrown ZodError. */
  function ParseOrThrow<T>(c: Checked<T>): (o: Outcome<T>)
    ensures c.Accepted? ==> o == Returned(c.value)
    ensures c.Rejected? ==> o.Threw? && o.error.ZodError? && o.error.issues == c.issues
  {
    match c
    case Accepted(v) => Returned(v)
    case Rejected(issues) => Threw(ZodError(ZodErrorMessage(issues), issues))
  }

  function CreateSuccessResponse<T>(data: T): (r: Response<T>)
    ensures r.status == 200 && r.body.success && r.body.data == Some(data) && r.body.error.None?
  {
    Response(200, Envelope(true, Some(data), None))
  }

  function CreateErrorResponse<T>(message: string, status: int, code: Option<string>, details: Option<Details>): (r: Response<T>)
    ensures r.status == status && !r.body.success && r.body.data.None?
    ensures r.body.error == Some(ApiError(message, code, details))
  {
    Response(status, Envelope(false, None, Some(ApiError(message, code, details))))
  }

  /** `err.path.join('.')`. */
  function JoinPath(path: seq<string>): string {
    if |path| == 0 then []
    else if |path| == 1 then path[0]
    else path[0] + "." + JoinPath(path[1..])
  }

  /** The `reduce` of handleValidationError: each issue, in order, stores its message under its
      dot-joined path, overwriting what an earlier issue stored there. */
  function FieldErrors(issues: seq<Issue>): map<string, string>
    decreases |issues|
  {
    if issues == [] then map[]
    else
      var last := issues[|issues| - 1];
      FieldErrors(issues[..|issues| - 1])[JoinPath(last.path) := last.message]
  }

  /** No later issue has the same joined path as issue i. */
  ghost predicate LastForPath(issues: seq<Issue>, i: nat)
    requires i < |issues|
  {
    forall j :: i < j < |issues| ==> JoinPath(issues[j].path) != JoinPath(issues[i].path)
  }

  /** The field errors hold exactly the joined paths of the issues. */
  lemma {:induction false} FieldErrorsKeys(issues: seq<Issue>)
    ensures forall k :: k in FieldErrors(issues) <==>
      exists i :: 0 <= i < |issues| && JoinPath(issues[i].path) == k
    decreases |issues|
  {
    if issues != [] {
      var n := |issues| - 1;
      var init := issues[..n];
      FieldErrorsKeys(init);
      forall k
        ensures k in FieldErrors(issues) <==> exists i :: 0 <= i < |issues| && JoinPath(issues[i].path) == k
      {
        if k in FieldErrors(init) {
          var i :| 0 <= i < n && JoinPath(init[i].path) == k;
          assert JoinPath(issues[i].path) == k;
        }
        if exists i :: 0 <= i < |issues| && JoinPath(issues[i].path) == k {
          var i :| 0 <= i < |issues| && JoinPath(issues[i].path) == k;
          if i < n {
            assert JoinPath(init[i].path) == k;
          }
        }
      }
    }
  }

  /** The path of the last issue on it maps to that issue's message. */
  lemma {:induction false} FieldErrorsLast(issues: seq<Issue>, i: nat)
    requires i < |issues| && LastForPath(issues, i)
    ensures JoinPath(issues[i].path) in FieldErrors(issues)
    ensures FieldErrors(issues)[JoinPath(issues[i].path)] == issues[i].message
    decreases |issues|
  {
    var n := |issues| - 1;
    if i < n {
      var init := issues[..n];
      assert init[i] == issues[i];
      assert LastForPath(init, i) by {
        forall j | i < j < n ensures JoinPath(init[j].path) != JoinPath(init[i].path) {
          assert init[j] == issues[j];
        }
      }
      FieldErrorsLast(init, i);
      assert JoinPath(issues[n].path) != JoinPath(issues[i].path);
    }
  }

  /** The field errors hold exactly the joined paths of the issues, and each path maps to the
      message of the last issue on it. */
  lemma FieldErrorsSpec(issues: seq<Issue>)
    ensures forall k :: k in FieldErrors(issues) <==>
      exists i :: 0 <= i < |issues| && JoinPath(issues[i].path) == k
    ensures forall i :: 0 <= i < |issues| && LastForPath(issues, i) ==>
      FieldErrors(issues)[JoinPath(issues[i].path)] == issues[i].message
  {
    FieldErrorsKeys(issues);
    forall i | 0 <= i < |issues| && LastForPath(issues, i)
      ensures FieldErrors(issues)[JoinPath(issues[i].path)] == issues[i].message
    {
      FieldErrorsLast(issues, i);
    }
  }

  /** `handleValidationError`: 400, VALIDATION_ERROR, with the field errors as details. */
  function HandleValidationError<T>(issues: seq<Issue>): (r: Response<T>)
    ensures r.status == 400 && !r.body.success
    ensures r.body.error == Some(ApiError("Validation failed", Some("VALIDATION_ERROR"),
                                          Some(FieldErrorDetails(FieldErrors(issues)))))
  {
    CreateErrorResponse("Validation failed", 400, Some("VALIDATION_ERROR"), Some(FieldErrorDetails(FieldErrors(issues))))
  }

  /** `handleDatabaseError`: the known database codes map to fixed responses; any other code is
      a 500 carrying that code; a value without a code is a plain 500. */
  function HandleDatabaseError<T>(code: Option<string>): (r: Response<T>)
    ensures !r.body.success && r.body.error.Some?
    ensures code == Some("P2002") ==> r.status == 409 && r.body.error.value.code == Some("DUPLICATE_RECORD")
    ensures code == Some("P2025") ==> r.status == 404 && r.body.error.value.code == Some("RECORD_NOT_FOUND")
    ensures code == Some("P2003") ==> r.status == 400 && r.body.error.value.code == Some("FOREIGN_KEY_CONSTRAINT")
    ensures code == Some("P2014") ==> r.status == 400 && r.body.error.value.code == Some("INVALID_DATA")
    ensures r.status == 500 <==> code.None? || code.value !in {"P2002", "P2025", "P2003", "P2014"}
    ensures r.status == 500 ==> (r.body.error.value.code == Some("DATABASE_ERROR") &&
      r.body.error.value.details == if code.Some? then Some(PrismaCodeDetails(code.value)) else None)
  {
    match code
    case Some("P2002") => CreateErrorResponse("A record with this information already exists", 409, Some("DUPLICATE_RECORD"), None)
    case Some("P2025") => CreateErrorResponse("Record not found", 404, Some("RECORD_NOT_FOUND"), None)
    case Some("P2003") => CreateErrorResponse("Related record not found", 400, Some("FOREIGN_KEY_CONSTRAINT"), None)
    case Some("P2014") => CreateErrorResponse("Invalid data provided", 400, Some("INVALID_DATA"), None)
    case Some(c) => CreateErrorResponse("Database operation failed", 500, Some("DATABASE_ERROR"), Some(PrismaCodeDetails(c)))
    case None => CreateErrorResponse("Database operation failed", 500, Some("DATABASE_ERROR"), None)
  }

  /** `withErrorHandler`: a result is wrapped in a success envelope; a failure is classified by
      the first rule that applies. */
  function WithErrorHandler<T>(o: Outcome<T>): (r: Response<T>)
    ensures r.body.success <==> o.Returned?
    ensures o.Returned? ==> r == CreateSuccessResponse(o.value)
    ensures o.Threw? ==> r.body.data.None? && r.body.error.Some?
    ensures r.status in {200, 400, 401, 404, 409, 500}
    ensures r.status == 200 <==> o.Returned?
  {
    match o
    case Returned(v) => CreateSuccessResponse(v)
    case Threw(e) =>
      if e.IsErrorInstance() && e.message == "Unauthorized" then
        CreateErrorResponse("Authentication required", 401, Some("UNAUTHORIZED"), None)
      else if e.IsErrorInstance() && Contains(e.message, "not found") then
        CreateErrorResponse(e.message, 404, Some("NOT_FOUND"), None)
      else if e.IsErrorInstance() && Contains(e.message, "Cannot delete") then
        CreateErrorResponse(e.message, 400, Some("CONSTRAINT_VIOLATION"), None)
      else if e.ZodError? then
        HandleValidationError(e.issues)
      else if e.CodeProperty().Some? then
        HandleDatabaseError(e.CodeProperty())
      else
        CreateErrorResponse("An unexpected error occurred", 500, Some("INTERNAL_SERVER_ERROR"), None)
  }

  /** The classification rules of withErrorHandler, in the order it tries them. */
  datatype Rule = UnauthorizedRule | NotFoundRule | CannotDeleteRule | ValidationRule | DatabaseRule | InternalRule

  const RuleOrder: seq<Rule> :=
    [UnauthorizedRule, NotFoundRule, CannotDeleteRule, ValidationRule, DatabaseRule, InternalRule]

  /** Whether a rule applies to a thrown value, taken on its own. */
  predicate Applies(rule: Rule, e: Thrown) {
    match rule
    case UnauthorizedRule => e.IsErrorInstance() && e.message == "Unauthorized"
    case NotFoundRule => e.IsErrorInstance() && Contains(e.message, "not found")
    case CannotDeleteRule => e.IsErrorInstance() && Contains(e.message, "Cannot delete")
    case ValidationRule => e.ZodError?
    case DatabaseRule => e.CodeProperty().Some?
    case InternalRule => true
  }

  /** The HTTP status and error code a rule answers with. */
  function RuleAnswer(rule: Rule, e: Thrown): (int, Option<string>) {
    match rule
    case UnauthorizedRule => (401, Some("UNAUTHORIZED"))
    case NotFoundRule => (404, Some("NOT_FOUND"))
    case CannotDeleteRule => (400, Some("CONSTRAINT_VIOLATION"))
    case ValidationRule => (400, Some("VALIDATION_ERROR"))
    case DatabaseRule =>
      var c := e.CodeProperty();
      if c == Some("P2002") then (409, Some("DUPLICATE_RECORD"))
      else if c == Some("P2025") then (404, Some("RECORD_NOT_FOUND"))
      else if c == Some("P2003") then (400, Some("FOREIGN_KEY_CONSTRAINT"))
      else if c == Some("P2014") then (400, Some("INVALID_DATA"))
      else (500, Some("DATABASE_ERROR"))
    case InternalRule => (500, Some("INTERNAL_SERVER_ERROR"))
  }

  /** The message a rule answers with: the thrown message itself for the two phrase rules, a
      fixed text otherwise. */
  function RuleMessage(rule: Rule, e: Thrown): string {
    match rule
    case UnauthorizedRule => "Authentication required"
    case NotFoundRule => if e.IsErrorInstance() then e.message else []
    case CannotDeleteRule => if e.IsErrorInstance() then e.message else []
    case ValidationRule => "Validation failed"
    case DatabaseRule =>
      var c := e.CodeProperty();
      if c == Some("P2002") then "A record with this information already exists"
      else if c == Some("P2025") then "Record not found"
      else if c == Some("P2003") then "Related record not found"
      else if c == Some("P2014") then "Invalid data provided"
      else "Database operation failed"
    case InternalRule => "An unexpected error occurred"
  }

  /** The failure response is the answer of the first rule, in RuleOrder, that applies: its
      status, its code and its message. */
  lemma FirstApplicableRuleWins<T>(e: Thrown, k: nat)
    requires k < |RuleOrder| && Applies(RuleOrder[k], e)
    requires forall j :: 0 <= j < k ==> !Applies(RuleOrder[j], e)
    ensures var r := WithErrorHandler<T>(Threw(e));
      (r.status, r.body.error.value.code) == RuleAnswer(RuleOrder[k], e)
      && r.body.error.value.message == RuleMessage(RuleOrder[k], e)
  {
    if k > 0 { assert !Applies(RuleOrder[0], e); }
    if k > 1 { assert !Applies(RuleOrder[1], e); }
    if k > 2 { assert !Applies(RuleOrder[2], e); }
    if k > 3 { assert !Applies(RuleOrder[3], e); }
    if k > 4 { assert !Applies(RuleOrder[4], e); }
  }

  /** A message naming both a missing record and a refused delete is a 404: the not-found rule
      is tried first; the message is passed through. */
  lemma NotFoundBeforeCannotDelete<T>(message: string, code: Option<string>)
    requires Contains(message, "not found") && Contains(message, "Cannot delete")
    ensures WithErrorHandler<T>(Threw(Error(message, code))) ==
      CreateErrorResponse(message, 404, Some("NOT_FOUND"), None)
  {
  }

  /** A database error whose message says "not found" is answered by the message rule with
      NOT_FOUND, never by the code table's RECORD_NOT_FOUND. */
  lemma CodedNotFoundMessageWins<T>(message: string, code: string)
    requires Contains(message, "not found") && message != "Unauthorized"
    ensures WithErrorHandler<T>(Threw(Error(message, Some(code)))).body.error.value.code == Some("NOT_FOUND")
  {
  }

  /** A schema failure whose serialised issues mention neither phrase is a 400 with the field
      errors of its issues. */
  lemma SchemaFailureIsValidationError<T>(issues: seq<Issue>)
    requires !Contains(ZodErrorMessage(issues), "not found") && !Contains(ZodErrorMessage(issues), "Cannot delete")
    ensures WithErrorHandler<T>(ParseOrThrow<T>(Rejected(issues))) == HandleValidationError(issues)
  {
    assert ZodErrorMessage(issues)[0] != "Unauthorized"[0];
  }

  /** A message of an issue, and so any text in it, appears in the serialised issues. */
  lemma {:induction false} IssueMessagesContain(issues: seq<Issue>, i: nat, t: string)
    requires i < |issues| && Contains(issues[i].message, t)
    ensures Contains(IssueMessages(issues), t)
    decreases |issues|
  {
    var rest := IssueMessages(issues[1..]);
    var sep: string := if |issues| > 1 then "," else "";
    var head := "\"" + issues[0].message + "\"" + sep;
    assert IssueMessages(issues) == head + rest;
    if i == 0 {
      ContainsExtended("\"", issues[0].message, "\"" + sep + rest, t);
      assert "\"" + issues[0].message + ("\"" + sep + rest) == head + rest;
    } else {
      assert issues[1..][i - 1] == issues[i];
      IssueMessagesContain(issues[1..], i - 1, t);
      ContainsExtended(head, rest, [], t);
      assert head + rest + [] == head + rest;
    }
  }

  /** A schema failure one of whose issue messages says "not found" is a 404 NOT_FOUND carrying
      the serialised issues, not a validation error: the converse of
      SchemaFailureIsValidationError. */
  lemma SchemaFailureMentioningNotFound<T>(issues: seq<Issue>, i: nat)
    requires i < |issues| && Contains(issues[i].message, "not found")
    ensures WithErrorHandler<T>(ParseOrThrow<T>(Rejected(issues))) ==
      CreateErrorResponse(ZodErrorMessage(issues), 404, Some("NOT_FOUND"), None)
  {
    IssueMessagesContain(issues, i, "not found");
    ContainsExtended("[", IssueMessages(issues), "]", "not found");
    assert ZodErrorMessage(issues)[0] != "Unauthorized"[0];
  }

  /** None of the four session statuses says "not found". */
  lemma StatusesDoNotSayNotFound(s: string)
    requires IsSessionStatus(s)
    ensures !Contains(s, "not found")
  {
    forall i: nat | i <= |s| ensures !OccursAt(s, "not found", i) {
      if i + 9 <= |s| {
        assert s[i..i + 9][0] == s[i];
      }
    }
  }

  /** The enum message echoes the status it refuses, so a created session whose status text says
      "not found" is answered 404 NOT_FOUND rather than 400 VALIDATION_ERROR. */
  lemma EchoedStatusIsNotFound<T>(body: Json, parseDate: string -> Option<int>, s: string)
    requires body.JObj? && Field(body.fields, "status") == Some(JStr(s)) && Contains(s, "not found")
    ensures CreateSession(body, parseDate).Rejected?
    ensures WithErrorHandler<T>(ParseOrThrow<T>(Rejected(CreateSession(body, parseDate).issues))) ==
      CreateErrorResponse(ZodErrorMessage(CreateSession(body, parseDate).issues), 404, Some("NOT_FOUND"), None)
  {
    if IsSessionStatus(s) {
      StatusesDoNotSayNotFound(s);
    }
    var status := StatusRule(Field(body.fields, "status"));
    assert status == Rejected([Issue(["status"], InvalidEnumValue(s))]);
    var c := CreateSession(body, parseDate);
    ContainsExtended("Invalid enum value. Expected " + StatusOptions + ", received '", s, "'", "not found");
    var issues := c.issues;
    assert issues[|issues| - 1] == Issue(["status"], InvalidEnumValue(s));
    SchemaFailureMentioningNotFound<T>(issues, |issues| - 1);
  }

  /** An operation that fails with `Unauthorized` is a 401 without data, whatever else it did. */
  lemma UnauthorizedIs401<T>()
    ensures WithErrorHandler<T>(Threw(Error("Unauthorized", None))) ==
      CreateErrorResponse("Authentication required", 401, Some("UNAUTHORIZED"), None)
  {
  }
}
