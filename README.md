# Clinic administration app: a Dafny model

This project models the core of a small clinic application: patients, therapists and the therapy sessions between them. It covers:

- the public read-only endpoints;
- the cookie-protected admin endpoints that create records and list them with their sessions;
- the validation and error-to-response layer those endpoints share;
- the client components that query the public endpoints and show the admin dashboards.

The model states what each piece does and proves properties about it.

## Parts of the model

- **Id parsing.** `Validation` models `parseNumericId` and `parseIdFromRequestUrl`. JavaScript values (`Js.Value`) and `Number()` / `parseInt` conversions (`Js`) are modelled explicitly.
- **Admin schemas.** `AdminValidation` models each schema as a function from a JSON body to either the normalised value or the list of issues. The rules run in the order they are written, so the length checks on a name see the string before it is trimmed.
- **Error-to-response layer.** `ApiHelpers` builds the uniform `{ success, data, error }` envelope. `WithErrorHandler` is the rule chain of `withErrorHandler`. `HandleDatabaseError` is its database-code table.
- **Public queries.**
  - `SessionsLib` models the sessions query as a where clause, then a stable date sort, then the projection to `SessionWithNames`.
  - `SessionsRoute`, `PatientsRoute` and `TherapistsRoute` are the public `GET` handlers. `PublicReply` holds their shared catch block.
- **Admin endpoints.**
  - `ClinicStore` models them. Its pure functions state what a request creates or throws.
  - The class `ClinicStore.Store` holds the three tables and the next id of each. Its methods perform the inserts and the status update of `updateSessionStatus`.
  - `Tables` resolves a session's patient and therapist, as the database's `include` does.
- **Client components.**
  - The browser's side of a request is `ClientFetch`: the URL a component builds, and the response or exception it receives.
  - `SessionsList.SessionsTable` and `TherapistsList.TherapistsDirectory` are classes whose fields are the component state.
  - The three admin dashboards share `AdminFetch.AdminList`, the list fetch that redirects to the login page on a 401.
  - The dashboards' counters and row figures are pure functions in `AdminSessionsPage`, `AdminTherapistsPage` and `AdminPatientsPage`.

## What the parameters stand for

- Dates are integer timestamps.
- Date parsing (`new Date(s)`) is the parameter `parseDate`, which yields no value for an invalid date. The current time is the parameter `now`.
- A database call that throws is the parameter `failure`: what the call threw, if it threw. The public routes and the admin handlers take one each.
- A client request's answer is a `FetchResult`, a `PatchResult` or an `AdminFetchResult`. A network exception is an alternative of that type; whether it was an abort is a flag.
- URLs are modelled as a path plus an ordered list of query pairs.

## Observations on the source

- `updateSessionStatus` (src/lib/sessionUpdate.ts) calls the database's `update`. For a missing row that call throws the database's not-found error with code `P2025`; it never returns null.
  - So the `if (!session)` branch is unreachable and is not modelled.
  - `withErrorHandler` would answer that error with 404 `NOT_FOUND`, because its message contains "not found" (`ClinicStore.MissingRowNotFound`). The public route that calls `updateSessionStatus` answers any error with 500; that route is not part of this model.
- `getAllSessionsWithNames` always returns an array. So the `!Array.isArray` 400 branch of the public sessions route is unreachable and is not modelled.
- The name schemas check `min(1)` and `max(100)` before `.trim()`, and count UTF-16 code units, so a character outside the Basic Multilingual Plane counts twice (`AdminValidation.AstralNameTooLong`). A name made only of white space is therefore accepted and stored as the empty string (`AdminValidation.BlankNameAccepted`).
- The status enum's rejection message repeats the string received. The error handler tests every message for "not found" before it recognises a validation error. A session body whose status contains "not found" is therefore answered 404 `NOT_FOUND` rather than 400 `VALIDATION_ERROR` (`ApiHelpers.EchoedStatusIsNotFound`).
- `parseInt` of a run of 309 or more digits is Infinity, which is neither NaN nor at most 0. So the admin id parameter accepts it (`AdminValidation.IdParam`).
- A stored empty-string status is shown as "Scheduled" on the admin dashboard. The public list shows it as the empty string (`AdminSessionsPage.DisplayAgreesWithPublicList`).

## Model

| member | source | states |
|---|---|---|
| Strings.Utf16Length | src/lib/adminValidation.ts:5-8 | The JavaScript length of a string lies between its number of characters and twice that, and is 0 only for the empty string. |
| Strings.Utf16LengthBmp | src/lib/adminValidation.ts:5-8 | A string without characters outside the Basic Multilingual Plane has a JavaScript length equal to its number of characters. |
| Strings.Utf16LengthAstral | src/lib/adminValidation.ts:5-8 | A string made only of characters outside the Basic Multilingual Plane has a JavaScript length twice its number of characters. |
| Strings.TrimPadded | src/lib/validation.ts:6 | `trim()` of a string padded on both sides by white space, including every Unicode space separator, is the string itself, when it does not start or end with white space. |
| Strings.TrimIdempotent | src/lib/validation.ts:6 | Trimming a trimmed string changes nothing. |
| Validation.ParseNumericId | src/lib/validation.ts:3-13 | The result is null or a positive integer. A number is kept exactly when it is a positive integer, and then unchanged. A string is trimmed; a blank one gives null; otherwise it is kept exactly when `Number()` of it is a finite positive integer, and the result is that value. Any value that is neither a number nor a string gives null. |
| Validation.ParseDigitString | src/lib/validation.ts:5-10 | A run of decimal digits, with white space around it, parses to its decimal value, computed exactly. The result is null when that value is 0, or when it is at least 2^1024 - 2^970, where `Number()` gives Infinity. |
| Validation.ParsePrefixedString | src/lib/validation.ts:5-10 | A `0x`, `0o` or `0b` integer, with white space around it, is an id too: it parses to its value in that base, or to null when that is 0 or at least 2^1024 - 2^970. |
| Validation.QueryGet | src/lib/validation.ts:19 | `searchParams.get` finds a value exactly when some parameter has the name, and then it is the value of the first such parameter. |
| Validation.ParseIdFromRequestUrl | src/lib/validation.ts:15-29 | An unparseable URL gives null. A positive `?id=` value takes precedence. Otherwise the result is the parse of the last non-empty path segment. Any result is positive. |
| Validation.TrailingSlashIgnored | src/lib/validation.ts:23-25 | A trailing slash on the path does not change the id. |
| Validation.LastSegmentSpec | src/lib/validation.ts:23-25 | The last non-empty segment found by splitting on `/` and dropping empty pieces is the one read from the right: the run without slashes before the trailing slashes. There is none exactly when the path holds only slashes, and a found one is never empty. |
| Validation.FinalRun | src/lib/validation.ts:23-25 | The final run of a string is its longest suffix without the separator: a suffix, separator-free, and preceded by the separator when shorter than the string. |
| Js.ParseIntLeadingDigits | src/lib/adminValidation.ts:76 | `parseInt(s, 10)` of a digit run followed by a non-digit suffix is the number the digit run denotes: its exact value, or Infinity from 2^1024 - 2^970 on. |
| Js.FromReal | src/lib/validation.ts:8 | The number a literal of exact value v denotes is finite exactly when its magnitude is below 2^1024 - 2^970, and is then v. Otherwise it is the infinity of v's sign. |
| Js.RadixLiterals | src/lib/validation.ts:8 | `Number()` reads `0b101` as 5, `0o17` as 15 and `0x1F` as 31. |
| Js.PrefixedToNumber | src/lib/validation.ts:8 | A `0x`, `0o` or `0b` integer converts with `Number()` to its value in that base. |
| Js.SignedPrefixedIsNaN | src/lib/validation.ts:8 | A sign before a `0x`, `0o` or `0b` integer makes `Number()` NaN. |
| Js.DigitsWithExponentToNumber | src/lib/validation.ts:8 | `Number()` of digits, `e`, and an exponent with an optional sign is the digits' value scaled by ten to the exponent. |
| Js.DigitsToNumber | src/lib/validation.ts:8 | A run of decimal digits converts with `Number()` to the number its value denotes. |
| AdminValidation.NameRule | src/lib/adminValidation.ts:5-8 | A name is accepted exactly when it is a string whose length before trimming, in UTF-16 code units, is 1 to 100. The accepted value is the trimmed string. A rejection carries one issue at the field, and an empty string is rejected with "Name is required". |
| AdminValidation.BlankNameAccepted | src/lib/adminValidation.ts:5-8 | A name of white space only, 1 to 100 UTF-16 code units long, is accepted as the empty string. |
| AdminValidation.AstralNameTooLong | src/lib/adminValidation.ts:5-8 | A name of 51 characters outside the Basic Multilingual Plane is 102 UTF-16 code units long, and is rejected as too long. |
| AdminValidation.DobRule | src/lib/adminValidation.ts:9-16 | The date of birth is accepted exactly when it is absent, or a string that is empty or parses to a date not after now. The accepted value is the string as sent. A rejection carries one issue at `dob`. |
| AdminValidation.SpecialtyRule | src/lib/adminValidation.ts:27-31 | The specialty is accepted exactly when it is absent or a string of at most 100 UTF-16 code units as sent. The accepted value is the trimmed string. |
| AdminValidation.PositiveIntRule | src/lib/adminValidation.ts:37-42 | An id is accepted exactly when it is a number whose double, Infinity from 2^1024 - 2^970 on, is an integer and positive. It is then kept unchanged. A rejection carries one or two issues at the field. |
| AdminValidation.OverflowingIdNotInteger | src/lib/adminValidation.ts:37-42 | A number literal too large for a double parses to Infinity. A positive one is rejected only as not an integer; a negative one is rejected as neither an integer nor positive. |
| AdminValidation.DateRule | src/lib/adminValidation.ts:43-47 | A session date is accepted exactly when it is a string that parses to a date, and it is kept as sent. |
| AdminValidation.StatusRule | src/lib/adminValidation.ts:48-50 | A present status is accepted exactly when it is one of Scheduled, Completed, Cancelled and No-show. An absent one stays absent. A string outside the four is rejected with the enum message, which repeats the string received. |
| AdminValidation.Optional | src/lib/adminValidation.ts:53-70 | `.optional()`: an absent field is accepted as absent. A present field is accepted exactly when its rule accepts it, with the rule's value and issues. |
| AdminValidation.CreatePatient | src/lib/adminValidation.ts:4-17 | A body is accepted exactly when it is an object whose name and dob pass their rules. The value is the trimmed name and the dob as sent, absent exactly when not sent. A non-object gets the single "Expected object" issue. An object is rejected with the name issues followed by the dob issues. |
| AdminValidation.UpdatePatient | src/lib/adminValidation.ts:19 | A body is accepted exactly when it is an object whose name, when sent, and dob pass their rules. Each field of the value is absent exactly when not sent, and otherwise the trimmed name or the dob as sent. The issues are those of the optional name rule followed by the dob rule. |
| AdminValidation.UpdatePatientKeepsRules | src/lib/adminValidation.ts:19 | A patient update that supplies a name is accepted exactly when the create schema accepts it, and with the same values. |
| AdminValidation.CreateTherapist | src/lib/adminValidation.ts:22-31 | A body is accepted exactly when it is an object whose name and specialty pass their rules. The value is the trimmed name and the trimmed specialty, absent exactly when not sent. A non-object gets the single "Expected object" issue. An object is rejected with the name issues followed by the specialty issues. |
| AdminValidation.UpdateTherapist | src/lib/adminValidation.ts:33 | A body is accepted exactly when it is an object whose name, when sent, and specialty pass their rules. Each field of the value is absent exactly when not sent, and otherwise trimmed. The issues are those of the optional name rule followed by the specialty rule. |
| AdminValidation.UpdateTherapistKeepsRules | src/lib/adminValidation.ts:33 | A therapist update that supplies a name is accepted exactly when the create schema accepts it, and with the same values. |
| AdminValidation.CreateSession | src/lib/adminValidation.ts:36-51 | A body is accepted exactly when it is an object with both ids integral and positive, a date string that parses, and an absent or known status. The value holds the ids and date as sent; the status is the one sent, or "Scheduled" when none was. An object is rejected with the issues of the four rules in field order. |
| AdminValidation.UpdateSession | src/lib/adminValidation.ts:53-70 | A body is accepted exactly when it is an object whose sent ids and date pass the create rules and whose status is absent or known. Each field of the value is absent exactly when not sent, and otherwise the value sent. The issues are those of the three optional rules and the status rule, in field order. |
| AdminValidation.UpdateSessionKeepsRules | src/lib/adminValidation.ts:53-70 | A session update that supplies both ids and the date is accepted exactly when the create schema accepts it, with the same ids and date. Its status is the created one when sent; otherwise the create schema defaults it to "Scheduled". |
| AdminValidation.EmptyUpdatesAccepted | src/lib/adminValidation.ts:19-70 | An empty object is accepted by the three update schemas and changes no field. |
| AdminValidation.StatusDefaultsOnCreateOnly | src/lib/adminValidation.ts:48-69 | A session body without a status is created "Scheduled". An update without a status leaves it absent. |
| AdminValidation.IdParam | src/lib/adminValidation.ts:73-80 | The id parameter is accepted exactly when `parseInt(id, 10)` is neither NaN nor at most 0, and the result is that number: a positive integer, or Infinity for a digit run of 2^1024 - 2^970 or more. |
| AdminValidation.IdParamLeadingDigits | src/lib/adminValidation.ts:75-79 | An id of positive leading digits followed by a non-digit suffix is accepted as the value of the digits, or as Infinity from 2^1024 - 2^970 on. |
| ApiHelpers.ParseOrThrow | src/app/api/admin/patients/route.ts:23 | `schema.parse` returns the accepted value, or throws a ZodError carrying exactly the schema's issues. |
| ApiHelpers.ZodErrorMessage | src/lib/apiHelpers.ts:139-141 | The message of a thrown ZodError is a serialised array: it starts with `[`. |
| ApiHelpers.CreateSuccessResponse | src/lib/apiHelpers.ts:16-21 | The response has status 200 and `success` true, and carries the data unchanged. |
| ApiHelpers.CreateErrorResponse | src/lib/apiHelpers.ts:23-40 | The response has the given status and `success` false, and carries the given message, code and details. |
| ApiHelpers.FieldErrorsSpec | src/lib/apiHelpers.ts:43-47 | The field-error map has as keys exactly the dot-joined paths of the issues. A path maps to the message of the last issue on it. |
| ApiHelpers.FieldErrorsKeys | src/lib/apiHelpers.ts:43-47 | A path is a key of the field-error map exactly when some issue has that dot-joined path. |
| ApiHelpers.FieldErrorsLast | src/lib/apiHelpers.ts:43-47 | The issue that is the last one on its path supplies that path's message. |
| ApiHelpers.HandleValidationError | src/lib/apiHelpers.ts:42-55 | The response is 400 `VALIDATION_ERROR`, "Validation failed", with the field-error map as details. |
| ApiHelpers.HandleDatabaseError | src/lib/apiHelpers.ts:57-102 | P2002 gives 409 `DUPLICATE_RECORD`, P2025 gives 404 `RECORD_NOT_FOUND`, P2003 gives 400 `FOREIGN_KEY_CONSTRAINT` and P2014 gives 400 `INVALID_DATA`. The status is 500 `DATABASE_ERROR` exactly for any other code or no code; the code, when present, is carried in the details. |
| ApiHelpers.WithErrorHandler | src/lib/apiHelpers.ts:104-153 | A returned value gives the success envelope of that value, with status 200. A thrown value gives an error envelope without data, with one of the statuses 400, 401, 404, 409 and 500. |
| ApiHelpers.FirstApplicableRuleWins | src/lib/apiHelpers.ts:113-151 | A thrown value is answered with the status, code and message of the first rule that applies, in the order: Unauthorized, "not found", "Cannot delete", ZodError, database code, fallback 500. The two phrase rules pass the thrown message through; the others answer with fixed text. |
| ApiHelpers.NotFoundBeforeCannotDelete | src/lib/apiHelpers.ts:122-136 | An error whose message contains both "not found" and "Cannot delete" is a 404 `NOT_FOUND` carrying that message. |
| ApiHelpers.CodedNotFoundMessageWins | src/lib/apiHelpers.ts:122-145 | A coded database error whose message contains "not found" is answered `NOT_FOUND`, never by the code table. |
| ApiHelpers.SchemaFailureIsValidationError | src/lib/apiHelpers.ts:113-141 | A schema failure whose serialised issues contain neither phrase is answered by `handleValidationError` with its issues. |
| ApiHelpers.SchemaFailureMentioningNotFound | src/lib/apiHelpers.ts:113-141 | A schema failure with an issue message that contains "not found" is answered 404 `NOT_FOUND` with the serialised issues as the message, not as a validation error. |
| ApiHelpers.IssueMessagesContain | src/lib/apiHelpers.ts:139-141 | Any text inside an issue message appears in the serialised issues. |
| ApiHelpers.StatusesDoNotSayNotFound | src/lib/adminValidation.ts:48-50 | None of the four session statuses contains "not found". |
| ApiHelpers.EchoedStatusIsNotFound | src/app/api/admin/sessions/route.ts:14-23 | A session body whose status string contains "not found" is rejected, and the error handler answers it 404 `NOT_FOUND`, because the enum message repeats the status. |
| ApiHelpers.UnauthorizedIs401 | src/lib/apiHelpers.ts:114-120 | An `Unauthorized` error is a 401 `UNAUTHORIZED`, "Authentication required", without data. |
| SessionsLib.SortOrderOf | src/lib/sessions.ts:21 | An omitted sort order is ascending. |
| SessionsLib.ToSessionWithNames | src/lib/sessions.ts:73-79 | The projection keeps id and date. A null status reads "Scheduled". Each name is copied from the related patient or therapist, and a missing relation gives the empty name. |
| SessionsLib.GetAllSessionsWithNames | src/lib/sessions.ts:20-80 | The result has no more rows than the table. |
| SessionsLib.GetAllSessionsWithNamesSpec | src/lib/sessions.ts:60-80 | The result is a permutation of the projections of the rows the where clause admits. It is ordered by date in the requested direction. |
| SessionsLib.AdmittedRowsReturned | src/lib/sessions.ts:23-71 | Every row the where clause admits appears, projected, in the result. |
| SessionsLib.ReturnedRowsAdmitted | src/lib/sessions.ts:23-79 | Every result is the projection of a row that the where clause admits. |
| SessionsLib.NoFilterReturnsEverySession | src/lib/sessions.ts:32-61 | Without parameters every session is returned. Blank search and status terms are the same as absent ones. |
| SessionsLib.SearchTermTrimmed | src/lib/sessions.ts:32-51 | White space around the search term does not change the result. |
| SessionsLib.NullStatusShownButNotFiltered | src/lib/sessions.ts:54-76 | A session with a null status is shown as "Scheduled" but is not matched by a "Scheduled" status filter. |
| SessionsLib.NullStatusNotFiltered | src/lib/sessions.ts:54-58 | No non-blank status filter admits a session whose stored status is null. |
| SessionsLib.SameTermsSameResult | src/lib/sessions.ts:32-76 | Two parameter sets with the same non-blank trimmed search and status and the same order give the same result. |
| SessionsLib.SearchMatchesEitherName | src/lib/sessions.ts:32-51 | A session is found by a case-insensitive match on its patient's name, even when its therapist is missing. |
| SessionsRoute.NonEmptyParam | src/app/api/sessions/route.ts:9-10 | `get(name) \|\| undefined` gives a value exactly when the parameter is present and non-empty, and it is that parameter's value. |
| SessionsRoute.RequestedOrder | src/app/api/sessions/route.ts:11-16 | The order is descending exactly when the `sortOrder` parameter is exactly "desc". |
| SessionsRoute.Get | src/app/api/sessions/route.ts:5-33 | A thrown failure gives 500 with the error's message, or "Unknown error". Otherwise the status is 200 with the query result, or 404 with "No sessions found". |
| SessionsRoute.NotFoundIffNothingMatches | src/app/api/sessions/route.ts:22-24 | The route answers 404 exactly when the query succeeded and no session passes the filters. |
| SessionsRoute.EmptyParamsIgnored | src/app/api/sessions/route.ts:9-16 | Empty `search` and `status` values, and any sort order other than "desc", give the same answer as no parameters. |
| PublicReply.FailureReply | src/app/api/sessions/route.ts:26-32 | The catch block answers 500 with the message of an `Error`, or with the fallback text for any other thrown value. |
| PatientsRoute.Get | src/app/api/patients/route.ts:5-35 | A thrown failure gives the 500 failure reply. Otherwise the answer is 200 with the selected patients, even when there are none. |
| PatientsRoute.QueryMembers | src/app/api/patients/route.ts:14-25 | A patient is listed exactly when it is in the table and its name contains the trimmed non-blank term, ignoring case. |
| PatientsRoute.QueryOrdered | src/app/api/patients/route.ts:21-25 | The listed patients are a permutation of the selected ones, in ascending name order. |
| PatientsRoute.NoFilterListsAll | src/app/api/patients/route.ts:14-22 | Without a name filter the whole table is listed, each patient as often as it occurs. |
| TherapistsRoute.Get | src/app/api/therapists/route.ts:5-43 | A thrown failure gives the 500 failure reply. Otherwise the answer is 200 with the selected therapists, even when there are none. |
| TherapistsRoute.QueryMembers | src/app/api/therapists/route.ts:16-33 | A therapist is listed exactly when it is in the table, its name contains the trimmed non-blank name term ignoring case, and its specialty equals the trimmed non-blank specialty term. |
| TherapistsRoute.QueryOrdered | src/app/api/therapists/route.ts:29-33 | The listed therapists are a permutation of the selected ones, in ascending name order. |
| TherapistsRoute.SpecialtyCaseSensitive | src/app/api/therapists/route.ts:23-27 | A therapist whose specialty differs from the trimmed term, even only in case, is not listed. |
| Tables.FindById | src/app/api/admin/sessions/route.ts:26-29 | The lookup, keyed by an id projection, finds a row of the table with the id, or there is none with that id (or no id is given). |
| Tables.RelateAll | src/app/api/admin/sessions/route.ts:65-69 | Every session, in table order, carries its related rows. |
| ClinicStore.GateAndRead | src/app/api/admin/patients/route.ts:7-22 | Without the `admin-session` cookie set to "authenticated", the request throws `Unauthorized` before the body is read. With the cookie, a parsed body is passed on. |
| ClinicStore.Then | src/lib/apiHelpers.ts:107-110 | A failure is passed on untouched; a value goes to the next step. |
| ClinicStore.StoredSpecialty | src/app/api/admin/therapists/route.ts:29 | An absent or empty specialty is stored as null. |
| ClinicStore.PatientCreation | src/app/api/admin/patients/route.ts:13-34 | Without the cookie the request throws `Unauthorized`. A patient is created exactly when the body parses and validates. It gets the next id and the trimmed name, and its dob is null when absent or empty. A rejected body throws the schema's issues. |
| ClinicStore.TherapistCreation | src/app/api/admin/therapists/route.ts:13-34 | Without the cookie the request throws `Unauthorized`. A therapist is created exactly when the body parses and validates. It gets the next id and the trimmed name; an absent or empty specialty is null. |
| ClinicStore.StoredStatus | src/app/api/admin/sessions/route.ts:44 | The stored status is never empty: `status \|\| 'Scheduled'`. |
| ClinicStore.SessionCreation | src/app/api/admin/sessions/route.ts:13-54 | Without the cookie the request throws `Unauthorized`. A rejected body throws its issues. A missing patient throws "Patient not found" before a missing therapist throws "Therapist not found". Otherwise the session gets the next id, the ids and parsed date, the validated status, and both related rows. |
| ClinicStore.PatientCheckedFirst | src/app/api/admin/sessions/route.ts:31-33 | A session whose patient is missing is answered 404 "Patient not found", whether or not the therapist exists. |
| ClinicStore.TherapistChecked | src/app/api/admin/sessions/route.ts:34-36 | A session with an existing patient and a missing therapist is answered 404 "Therapist not found". |
| ClinicStore.CreatedSessionReferencesRows | src/app/api/admin/sessions/route.ts:39-50 | A created session references a patient and a therapist that exist. Its status is the validated one, "Scheduled" when none was sent. |
| ClinicStore.UnauthenticatedRejected | src/app/api/admin/sessions/route.ts:16-19 | Without the cookie every create and list request is a 401, whatever the body. |
| ClinicStore.SessionsOfPatient | src/app/api/admin/patients/route.ts:47-54 | A patient's listed sessions are no more than the table's. |
| ClinicStore.SessionsOfPatientMembers | src/app/api/admin/patients/route.ts:47-54 | A summary is listed for a patient exactly when it is the id and status of a session whose patient key is the patient's id. |
| ClinicStore.SessionsOfTherapist | src/app/api/admin/therapists/route.ts:47-58 | A therapist's listed sessions are no more than the table's. |
| ClinicStore.SessionsOfTherapistMembers | src/app/api/admin/therapists/route.ts:47-58 | A session is listed for a therapist exactly when its therapist key is the therapist's id. It carries the session's id and status and its patient's name, if any. |
| ClinicStore.PatientListing | src/app/api/admin/patients/route.ts:46-58 | The listing has one entry per patient. |
| ClinicStore.PatientListingSpec | src/app/api/admin/patients/route.ts:46-58 | The listing is a permutation of the patients, in ascending name order, each with its own sessions. |
| ClinicStore.TherapistListing | src/app/api/admin/therapists/route.ts:46-63 | The listing has one entry per therapist. |
| ClinicStore.TherapistListingSpec | src/app/api/admin/therapists/route.ts:46-63 | The listing is a permutation of the therapists, in ascending name order, each with its own sessions. |
| ClinicStore.SessionListing | src/app/api/admin/sessions/route.ts:65-73 | The listing has one entry per session. |
| ClinicStore.SessionListingSpec | src/app/api/admin/sessions/route.ts:65-73 | The listing is a permutation of the sessions with their relations, latest first. |
| ClinicStore.Listing | src/app/api/admin/patients/route.ts:37-61 | A listing GET returns the list exactly when the cookie is present, and otherwise throws `Unauthorized`. |
| ClinicStore.DatabaseCall | src/app/api/admin/patients/route.ts:26-31 | The database call after the checks returns what they produced exactly when the checks passed and the call does not throw. A failed check is passed on, and a throwing call throws its error. |
| ClinicStore.DatabaseFailureUsesCodeTable | src/lib/apiHelpers.ts:143-145 | An error the database throws after the checks, whose message names neither a missing record nor a refused delete, is answered from the database code table. |
| ClinicStore.IndexOfSession | src/lib/sessionUpdate.ts:8-12 | The position found holds a row with the id. When none is found, no row has the id. |
| ClinicStore.StatusUpdateOutcome | src/lib/sessionUpdate.ts:3-19 | A falsy or non-number id, or an empty or non-string status, throws "Invalid input". A missing row throws the database's P2025 not-found error. Otherwise the result is the id and the new status. |
| ClinicStore.StatusUpdated | src/lib/sessionUpdate.ts:8-12 | The table keeps its length. Which row changes, and how, is stated by `ClinicStore.StatusUpdateTouchesOneRow`. |
| ClinicStore.StatusUpdateTouchesOneRow | src/lib/sessionUpdate.ts:8-18 | With unique ids, a successful update changes only the status of the one row with the id, and the result is that row's id and new status. A failed update changes nothing. |
| ClinicStore.AnyStatusTextAccepted | src/lib/sessionUpdate.ts:4-10 | Any non-empty status text is written for an existing row; there is no enum check. |
| ClinicStore.MissingRowNotFound | src/lib/sessionUpdate.ts:8-16 | Updating a missing row throws the P2025 not-found error. The second ensures is hypothetical, because no modelled route passes this error to the error handler: if one did, the answer would be 404. |
| ClinicStore.AppendNextId | src/app/api/admin/patients/route.ts:26-31 | Handing out the next id keeps the ids positive, below the next id and distinct. |
| ClinicStore.Store.constructor | src/app/api/admin/patients/route.ts:26-31 | The store starts with three empty tables, in a valid state. |
| ClinicStore.Store.PostPatient | src/app/api/admin/patients/route.ts:13-34 | The response is the error handler's answer to the patient creation followed by the insert, which may throw. A created and inserted patient is appended and the next patient id advances by one. Otherwise nothing is written. The other tables and counters are unchanged, and the id invariant is kept. |
| ClinicStore.Store.PostTherapist | src/app/api/admin/therapists/route.ts:13-34 | The response is the error handler's answer to the therapist creation followed by the insert, which may throw. A created and inserted therapist is appended and the next therapist id advances by one. Otherwise nothing is written. The other tables and counters are unchanged. |
| ClinicStore.Store.PostSession | src/app/api/admin/sessions/route.ts:13-54 | The response is the error handler's answer to the session creation followed by the insert, which may throw. A created and inserted session is appended and the next session id advances by one. Otherwise nothing is written. Patients, therapists and their counters are unchanged. |
| ClinicStore.Store.UpdateSessionStatus | src/lib/sessionUpdate.ts:3-19 | The outcome is the modelled update, or what the database threw. When the database does not throw, the sessions table becomes the updated table; when it throws, nothing is written. The other tables and every counter are unchanged. |
| ClinicStore.Store.GetPatients | src/app/api/admin/patients/route.ts:37-61 | Without the cookie the response is a 401. With it, the response succeeds exactly when the query does not throw, and then carries the patient listing. A thrown error is classified by the error handler. |
| ClinicStore.Store.GetTherapists | src/app/api/admin/therapists/route.ts:37-66 | Without the cookie the response is a 401. With it, the response succeeds exactly when the query does not throw, and then carries the therapist listing. A thrown error is classified by the error handler. |
| ClinicStore.Store.GetSessions | src/app/api/admin/sessions/route.ts:56-77 | Without the cookie the response is a 401. With it, the response succeeds exactly when the query does not throw, and then carries the sessions listing. A thrown error is classified by the error handler. |
| ClientFetch.AppendNonBlank | src/components/therapists/TherapistsList.tsx:44-48 | A term is appended, trimmed, exactly when it is non-blank. |
| ClientFetch.QueryString | src/components/therapists/TherapistsList.tsx:49 | A non-empty parameter list serialises to a string holding `=`. |
| ClientFetch.RequestUrl | src/components/therapists/TherapistsList.tsx:49-50 | Without parameters the URL is the path. A path without `?` gains one exactly when there are parameters. |
| SessionsList.AfterFetch | src/components/sessions/SessionsList.tsx:68-89 | The state settles. A 404 shows an empty list with the not-found flag. An ok response with a body shows it, with the not-found flag exactly when it is empty. Any other response shows "Failed to load sessions". An abort shows "Request timed out"; any other exception shows the load failure. |
| SessionsList.ServerReadsClientQuery | src/components/sessions/SessionsList.tsx:62-67 | The sessions route reads the component's query back as the same search, status and order, so it answers with the rows the component asked for. |
| SessionsList.SearchReadBack | src/components/sessions/SessionsList.tsx:62-64 | The route reads back the trimmed non-blank search term. |
| SessionsList.StatusReadBack | src/components/sessions/SessionsList.tsx:64-65 | The route reads back the trimmed non-blank status. |
| SessionsList.OrderReadBack | src/components/sessions/SessionsList.tsx:66-67 | The route reads back the requested order, or ascending when none was given. |
| SessionsList.NextSort | src/components/sessions/SessionsList.tsx:111-121 | The clicked column is selected. The same column flips the direction; another column sorts ascending. |
| SessionsList.SameColumnTwiceRestores | src/components/sessions/SessionsList.tsx:111-121 | Clicking the same column twice restores the order it had. |
| SessionsList.SortSessionsSpec | src/components/sessions/SessionsList.tsx:124-150 | Null data gives no rows. Otherwise the rows are a permutation of the fetched ones, ordered by the column's key in the chosen direction. |
| SessionsList.MarkedCompleted | src/components/sessions/SessionsList.tsx:177-180 | Null data stays null. Otherwise the list keeps its length. |
| SessionsList.MarkedCompletedSpec | src/components/sessions/SessionsList.tsx:177-180 | Exactly the rows with the id change, and only their status, which becomes "Completed". |
| SessionsList.MarkTwiceIsOnce | src/components/sessions/SessionsList.tsx:177-180 | Marking a session completed twice is the same as marking it once. |
| SessionsList.AfterMark | src/components/sessions/SessionsList.tsx:158-187 | An ok answer marks the rows. A non-ok answer sets "Failed to update session". An abort sets "Request timed out", and any other exception the update failure. Loading and not-found are kept. |
| SessionsList.FailedMarkKeepsRows | src/components/sessions/SessionsList.tsx:170-187 | A failed update keeps the rows shown and sets an error. |
| SessionsList.SessionsTable.constructor | src/components/sessions/SessionsList.tsx:21-33 | The table starts loading, with empty filters and ascending date order. |
| SessionsList.SessionsTable.FetchSessions | src/components/sessions/SessionsList.tsx:55-90 | The request URL carries the query built from the arguments. The state becomes the settled state for the answer, and the controls are unchanged. |
| SessionsList.SessionsTable.HandleSearch | src/components/sessions/SessionsList.tsx:94-96 | The table fetches with the current search, status and order. |
| SessionsList.SessionsTable.HandleStatusChange | src/components/sessions/SessionsList.tsx:98-101 | The status filter is stored, and the table fetches with it. |
| SessionsList.SessionsTable.HandleReset | src/components/sessions/SessionsList.tsx:103-109 | Both filters are cleared and the sort becomes date ascending. The request is `/api/sessions?sortOrder=asc`. |
| SessionsList.SessionsTable.HandleColumnSort | src/components/sessions/SessionsList.tsx:111-121 | Only the sort controls change, as `NextSort` says, and no request is sent. |
| SessionsList.SessionsTable.MarkCompleted | src/components/sessions/SessionsList.tsx:152-188 | An id that is not a positive integer sends nothing and only sets the error. Otherwise the id is sent and the state becomes the state after the answer. The controls are unchanged. |
| TherapistsList.AfterTherapistFetch | src/components/therapists/TherapistsList.tsx:52-67 | Loading stops. The list is shown exactly when the answer is ok with a body, and then there is no error. An abort shows "Request timed out"; any other failure shows "Failed to load therapists". |
| TherapistsList.ServerReadsTherapistQuery | src/components/therapists/TherapistsList.tsx:44-48 | The therapists route reads back the trimmed non-blank terms. A therapist is listed exactly when it is in the table and matches them. |
| TherapistsList.Dedupe | src/components/therapists/TherapistsList.tsx:78 | `new Set` keeps the same values, each once. |
| TherapistsList.UniqueSpecialtiesSpec | src/components/therapists/TherapistsList.tsx:76-81 | The choices are distinct and in ascending order. A value is a choice exactly when some therapist has it as a non-empty specialty. |
| TherapistsList.UniqueSpecialtiesSorted | src/components/therapists/TherapistsList.tsx:76-81 | The choices have no duplicates and are in ascending order. |
| TherapistsList.UniqueSpecialtiesMembers | src/components/therapists/TherapistsList.tsx:76-81 | A value is a choice exactly when some therapist offers it as a non-empty specialty. |
| TherapistsList.TherapistsDirectory.constructor | src/components/therapists/TherapistsList.tsx:20-30 | The directory starts loading, with empty filters and no choices. |
| TherapistsList.TherapistsDirectory.FetchTherapists | src/components/therapists/TherapistsList.tsx:38-81 | The request URL carries the query built from the arguments. The state becomes the state after the answer. The choices are recomputed when data arrives and kept otherwise. |
| TherapistsList.TherapistsDirectory.HandleSearch | src/components/therapists/TherapistsList.tsx:83-85 | The directory fetches with both current filters. |
| TherapistsList.TherapistsDirectory.HandleSpecialtyChange | src/components/therapists/TherapistsList.tsx:87-90 | The specialty is stored, and the directory fetches with it. |
| TherapistsList.TherapistsDirectory.HandleReset | src/components/therapists/TherapistsList.tsx:92-96 | Both filters are cleared, and the request has no parameters. |
| AdminFetch.ErrorText | src/app/admin/sessions/page.tsx:48 | `result.error?.message \|\| fallback` is the server's message when it is non-empty, and never empty when the fallback is not. |
| AdminFetch.Decide | src/app/admin/sessions/page.tsx:37-56 | A 401 redirects to the login page. A success envelope loads its data. Every other answer, and any exception, fails with the server's message or the fallback. |
| AdminFetch.RouteResponseReachesPage | src/app/admin/sessions/page.tsx:37-56 | An admin route's response reaches the page as the list itself on success, as a redirect on a 401, and otherwise as a failure with the server's message. |
| AdminFetch.MessageNotEmpty | src/lib/apiHelpers.ts:113-151 | Every error envelope of the error handler carries a non-empty message. |
| AdminFetch.AdminList.constructor | src/app/admin/sessions/page.tsx:30-34 | A list page starts loading, empty and without an error. |
| AdminFetch.AdminList.Fetch | src/app/admin/sessions/page.tsx:37-56 | Loading stops. A 401 only redirects, a success only replaces the items (an earlier error line stays), and a failure only sets the error. |
| AdminSessionsPage.ToggleStatus | src/app/admin/sessions/page.tsx:84 | The new status is "Completed" exactly when the current one is "Scheduled", and "Scheduled" otherwise, including for null and "Cancelled". |
| AdminSessionsPage.ToggleSwaps | src/app/admin/sessions/page.tsx:84-315 | On the sessions that show the toggle, it swaps the two statuses and can be undone. |
| AdminSessionsPage.DisplayStatus | src/app/admin/sessions/page.tsx:303 | The shown status is the stored one when non-empty, and "Scheduled" otherwise. |
| AdminSessionsPage.DisplayAgreesWithPublicList | src/app/admin/sessions/page.tsx:303 | The dashboard shows a status as the public list does, except a stored empty string. |
| AdminSessionsPage.Stats | src/app/admin/sessions/page.tsx:194-232 | The counters are every session, the completed ones and the scheduled ones. |
| AdminSessionsPage.StatsBounded | src/app/admin/sessions/page.tsx:194-232 | Completed plus scheduled never exceeds the total. |
| AdminSessionsPage.AdminSessions.constructor | src/app/admin/sessions/page.tsx:30-34 | The page starts with a loading, empty list whose fallback is "Failed to fetch sessions". |
| AdminSessionsPage.AdminSessions.HandleToggleStatus | src/app/admin/sessions/page.tsx:83-102 | The toggled status is sent. A refused update leaves the list unchanged. An accepted one refetches it: a loaded list replaces the rows, a failure sets the error, and a 401 sets the redirect to the login page; the other two fields keep their values in each case. |
| AdminTherapistsPage.Stats | src/app/admin/therapists/page.tsx:167-205 | The counters are every therapist, those with a completed session, and the distinct non-empty specialties. Active never exceeds the total. |
| AdminTherapistsPage.SpecialtiesMatchDirectoryChoices | src/app/admin/therapists/page.tsx:205 | The specialties counter equals the number of choices the public directory offers for the same therapists. |
| AdminTherapistsPage.PatientNamesBounded | src/app/admin/therapists/page.tsx:250-254 | There are no more distinct patient names than sessions with a patient. |
| AdminTherapistsPage.Row | src/app/admin/therapists/page.tsx:248-301 | A row counts the sessions, the completed ones and the distinct patient names; neither count exceeds the total. Delete is disabled exactly when there are sessions, so always when one is completed. |
| AdminTherapistsPage.SameNameCountsOnce | src/app/admin/therapists/page.tsx:250-254 | Two sessions with same-named patients count as one patient. |
| AdminPatientsPage.Stats | src/app/admin/patients/page.tsx:167-205 | The counters are every patient, those with a completed session, and the left-to-right sum of their session counts, 0 for no patients. Active never exceeds either the total or the session sum. |
| AdminPatientsPage.ActiveHaveSessions | src/app/admin/patients/page.tsx:186-205 | There are at least as many sessions as active patients. |
| AdminPatientsPage.SumSessionsAppend | src/app/admin/patients/page.tsx:205 | Adding a patient adds its sessions to the total. |
| AdminPatientsPage.StatsSessionsAddRow | src/app/admin/patients/page.tsx:205-293 | Adding a patient to the list adds the total shown on its row to the sessions counter; a single patient's counter is its row total. |
| AdminPatientsPage.Row | src/app/admin/patients/page.tsx:248-293 | A row counts the sessions and the completed ones, with completed never above the total. Delete is disabled exactly when there are sessions. |
| AdminPatientsPage.ActiveNotDeletable | src/app/admin/patients/page.tsx:186-293 | A patient counted as active cannot be deleted from the dashboard. |

## Left out

- Rendering: all markup, styling, layout, loading and error pages, the modal, and the `STATUS_CLASSES` colour lookup.
- The admin forms and the public patients list component are not part of this model. They copy fields and forward results, and their query building is the same as the therapists directory's.
- Reading the cookie store (src/lib/auth.ts) is not part of this model. Each admin route's check is modelled as a predicate on a map of cookies.
- Network and browser effects: `fetch`, the abort timer, the router, `alert`, `confirm` and console logging. A request's answer or exception is an input, and a redirect is recorded as the path the router is sent to.
- The per-id admin handlers (update, delete) are not part of this model. The dashboards' create, delete and logout handlers, and their `isSubmitting` and modal state, are not modelled either.
- The age column of the patients dashboard computes in floating point and is not modelled.
- Date parsing and the clock are parameters. No calendar arithmetic or formatting is modelled.
- Js.StringToNumber: the exact value of a literal is kept, without rounding to the nearest double. A literal whose value needs more than 53 significant bits is therefore not rounded. The overflow to Infinity from 2^1024 - 2^970 on is modelled. Fractions, exponents, signs and `0x`, `0o` and `0b` integers are read; numeric separators are not valid in `Number()` and are not read.
- Js.ParseInt: the digit run's exact value is kept, without rounding to 53 significant bits; the overflow to Infinity is modelled.
- Js.ParseIntLeadingDigits: states the exact value of the digits, not the double nearest to it, for the reason given for `Js.ParseInt`.
- Validation.ParseNumericId: a string's value is the exact value of its literal, for the reason given for `Js.StringToNumber`. An id above 2^53 is therefore not rounded.
- Validation.ParseDigitString: the value is the exact decimal value of the digits, not rounded to 53 significant bits.
- AdminValidation.IdParam: the accepted number is `parseInt`'s exact value, not rounded to 53 significant bits.
- AdminValidation.IdParamLeadingDigits: the accepted number is the digits' exact value, not rounded to 53 significant bits.
- ApiHelpers.ZodErrorMessage: only the issues' messages are serialised, without JSON escaping or pretty-printing. The other fields of each issue (code, path) are not part of the message text in the model.
- SessionsList.SessionsTable.FetchSessions: the pending state (`loading` true, error cleared) that the component shows while the request is in flight is not represented. The method states only the final state, which overwrites it.
- Query strings are not URL-encoded or decoded. The model sends and reads back the same name and value pairs.
- Case-insensitive matching lower-cases ASCII letters only. Unicode case folding is not modelled.
- String order is code-point order, and ties keep table order. The database's collation and JavaScript's UTF-16 order are not modelled.
- AdminValidation.PositiveIntRule: a JSON number keeps the exact value of its literal, without rounding to the nearest double. So `1.0000000000000001` is not an integer in the model, though `JSON.parse` rounds it to 1. The overflow to Infinity is modelled.
- ClinicStore.Store.PostSession: `failure` stands for the insert. A failure of the two existence lookups before it is not modelled separately; it would reach the error handler the same way.
- ClinicStore.Store.PostPatient, PostTherapist and PostSession: a failed insert does not consume an id. A database sequence that skips a value after a failed insert is not modelled.
- The database is atomic and sequential. The race between the existence checks and the insert of a new session is not modelled.
- AdminFetch.Decide: requires a success envelope to carry its data, as every envelope the error handler builds does. A success envelope without data is not modelled.
- AdminFetch.AdminList.Fetch: has the same requirement as `Decide`.
