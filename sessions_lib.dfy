/** The public sessions query (src/lib/sessions.ts): a where clause built from the search
    parameters, the database's filter and date ordering, and the projection of each row to the
    flattened `SessionWithNames` shape. */
module SessionsLib {
  import opened Opt
  import opened Strings
  import opened Sorting
  import opened Models

  datatype GetSessionsParams = GetSessionsParams(search: Option<string>, status: Option<string>, sortOrder: Option<Order>)

  /** The where clause: the name-search term and the status, each set only when non-blank. */
  datatype WhereClause = WhereClause(nameContains: Option<string>, statusEquals: Option<string>) {
    /** A row is kept when its therapist's or patient's name contains the term, ignoring case,
        and its stored status equals the status; an unset part admits every row. */
    predicate Admits(row: SessionWithRelations) {
      AdmitsName(row) && AdmitsStatus(row)
    }

    predicate AdmitsName(row: SessionWithRelations) {
      nameContains.None?
      || (row.therapist.Some? && ContainsInsensitive(row.therapist.value.name, nameContains.value))
      || (row.patient.Some? && ContainsInsensitive(row.patient.value.name, nameContains.value))
    }

    predicate AdmitsStatus(row: SessionWithRelations) {
      statusEquals.None? || row.session.status == Some(statusEquals.value)
    }
  }

  function BuildWhere(params: Option<GetSessionsParams>): WhereClause {
    match params
    case None => WhereClause(None, None)
    case Some(p) => WhereClause(NonBlankTrimmed(p.search), NonBlankTrimmed(p.status))
  }

  /** `sortOrder = 'asc'` in the destructuring: an omitted order is ascending. */
  function SortOrderOf(params: Option<GetSessionsParams>): (o: Order)
    ensures (params.None? || params.value.sortOrder.None?) ==> o == Asc
  {
    if params.Some? && params.value.sortOrder.Some? then params.value.sortOrder.value else Asc
  }

  /** The rows the where clause keeps, in table order. */
  function Selected(rows: seq<SessionWithRelations>, w: WhereClause): seq<SessionWithRelations> {
    Filter(rows, AdmittedBy(w))
  }

  /** The where clause as the filter's predicate. */
  function AdmittedBy(w: WhereClause): SessionWithRelations -> bool {
    row => w.Admits(row)
  }

  function DateKey(row: SessionWithRelations): Key {
    IntKey(row.session.date)
  }

  /** The projection: a null status reads "Scheduled", a missing relation the empty name. */
  function ToSessionWithNames(row: SessionWithRelations): (r: SessionWithNames)
    ensures r.id == row.session.id && r.date == row.session.date
    ensures r.status == if row.session.status.Some? then row.session.status.value else ScheduledStatus
    ensures r.therapistName == if row.therapist.Some? then row.therapist.value.name else []
    ensures r.patientName == if row.patient.Some? then row.patient.value.name else []
  {
    SessionWithNames(
      row.session.id,
      row.session.date,
      match row.session.status case Some(s) => s case None => ScheduledStatus,
      match row.therapist case Some(t) => t.name case None => [],
      match row.patient case Some(p) => p.name case None => [])
  }

  /** `getAllSessionsWithNames` over the sessions joined with their relations. */
  function GetAllSessionsWithNames(rows: seq<SessionWithRelations>, params: Option<GetSessionsParams>): (r: seq<SessionWithNames>)
    ensures |r| <= |rows|
  {
    var w := BuildWhere(params);
    Map(Sort(Selected(rows, w), DateKey, SortOrderOf(params)), ToSessionWithNames)
  }

  /** The result is exactly the projections of the admitted rows, each as often as it occurs,
      ordered by date in the requested direction. */
  lemma GetAllSessionsWithNamesSpec(rows: seq<SessionWithRelations>, params: Option<GetSessionsParams>)
    ensures var r := GetAllSessionsWithNames(rows, params);
      multiset(r) == multiset(Map(Selected(rows, BuildWhere(params)), ToSessionWithNames))
    ensures var r := GetAllSessionsWithNames(rows, params);
      forall i, j :: 0 <= i < j < |r| ==>
        if SortOrderOf(params) == Asc then r[i].date <= r[j].date else r[i].date >= r[j].date
  {
    var sel := Selected(rows, BuildWhere(params));
    ProjectSortedSpec(sel, SortOrderOf(params));
  }

  /** Sorting by date and projecting keeps the rows and orders the projections by date. */
  lemma ProjectSortedSpec(sel: seq<SessionWithRelations>, o: Order)
    ensures var r := Map(Sort(sel, DateKey, o), ToSessionWithNames);
      multiset(r) == multiset(Map(sel, ToSessionWithNames))
    ensures var r := Map(Sort(sel, DateKey, o), ToSessionWithNames);
      forall i, j :: 0 <= i < j < |r| ==>
        if o == Asc then r[i].date <= r[j].date else r[i].date >= r[j].date
  {
    var sorted := Sort(sel, DateKey, o);
    MapPermutation(sorted, sel, ToSessionWithNames);
    SortSorted(sel, DateKey, o);
    var r := Map(sorted, ToSessionWithNames);
    forall i, j | 0 <= i < j < |r|
      ensures if o == Asc then r[i].date <= r[j].date else r[i].date >= r[j].date
    {
      SortedAllPairs(sorted, DateKey, o, i, j);
    }
  }

  /** Every row the where clause admits is in the result. */
  lemma AdmittedRowsReturned(rows: seq<SessionWithRelations>, params: Option<GetSessionsParams>, row: SessionWithRelations)
    requires row in rows && BuildWhere(params).Admits(row)
    ensures ToSessionWithNames(row) in GetAllSessionsWithNames(rows, params)
  {
    var sel := Selected(rows, BuildWhere(params));
    var i :| 0 <= i < |sel| && sel[i] == row;
    var projected := Map(sel, ToSessionWithNames);
    assert projected[i] == ToSessionWithNames(row);
    GetAllSessionsWithNamesSpec(rows, params);
    assert ToSessionWithNames(row) in multiset(projected);
  }

  /** Every result is the projection of a row the where clause admits. */
  lemma ReturnedRowsAdmitted(rows: seq<SessionWithRelations>, params: Option<GetSessionsParams>, x: SessionWithNames)
    requires x in GetAllSessionsWithNames(rows, params)
    ensures exists row :: row in rows && BuildWhere(params).Admits(row) && x == ToSessionWithNames(row)
  {
    var w := BuildWhere(params);
    var sel := Selected(rows, w);
    var sorted := Sort(sel, DateKey, SortOrderOf(params));
    var r := Map(sorted, ToSessionWithNames);
    var k :| 0 <= k < |r| && r[k] == x;
    SortedMember(sel, DateKey, SortOrderOf(params), k);
    var i :| 0 <= i < |sel| && sel[i] == sorted[k];
    SelectedAdmitted(rows, w, i);
  }

  /** Every selected row is a row of the table that the where clause admits. */
  lemma SelectedAdmitted(rows: seq<SessionWithRelations>, w: WhereClause, i: nat)
    requires i < |Selected(rows, w)|
    ensures Selected(rows, w)[i] in rows && w.Admits(Selected(rows, w)[i])
  {
    assert AdmittedBy(w)(Selected(rows, w)[i]);
  }

  /** With no parameters, or only blank ones, every session is returned. */
  lemma NoFilterReturnsEverySession(rows: seq<SessionWithRelations>, search: string, status: string, o: Option<Order>)
    requires IsBlank(search) && IsBlank(status)
    ensures |GetAllSessionsWithNames(rows, None)| == |rows|
    ensures GetAllSessionsWithNames(rows, Some(GetSessionsParams(Some(search), Some(status), o)))
         == GetAllSessionsWithNames(rows, Some(GetSessionsParams(None, None, o)))
  {
    SelectAll(rows);
    SameTermsSameResult(rows, GetSessionsParams(Some(search), Some(status), o), GetSessionsParams(None, None, o));
  }

  /** The empty where clause selects every row. */
  lemma SelectAll(rows: seq<SessionWithRelations>)
    ensures Selected(rows, BuildWhere(None)) == rows
  {
    var none := WhereClause(None, None);
    assert forall i :: 0 <= i < |rows| ==> AdmittedBy(none)(rows[i]);
    FilterAll(rows, AdmittedBy(none));
  }

  /** Search terms are trimmed: surrounding white space does not change the result. */
  lemma SearchTermTrimmed(rows: seq<SessionWithRelations>, search: string, status: Option<string>, o: Option<Order>)
    ensures GetAllSessionsWithNames(rows, Some(GetSessionsParams(Some(search), status, o)))
         == GetAllSessionsWithNames(rows, Some(GetSessionsParams(Some(Trim(search)), status, o)))
  {
    NonBlankTrimmedOfTrim(search);
    SameTermsSameResult(rows, GetSessionsParams(Some(search), status, o), GetSessionsParams(Some(Trim(search)), status, o));
  }

  /** The result depends on the parameters only through the non-blank trimmed terms and the
      order. */
  lemma SameTermsSameResult(rows: seq<SessionWithRelations>, p: GetSessionsParams, q: GetSessionsParams)
    requires NonBlankTrimmed(p.search) == NonBlankTrimmed(q.search)
    requires NonBlankTrimmed(p.status) == NonBlankTrimmed(q.status)
    requires p.sortOrder == q.sortOrder
    ensures GetAllSessionsWithNames(rows, Some(p)) == GetAllSessionsWithNames(rows, Some(q))
  {
    assert BuildWhere(Some(p)) == BuildWhere(Some(q));
  }

  /** A session whose stored status is null is shown as "Scheduled" but is not matched by a
      "Scheduled" status filter, which compares the stored value. */
  lemma NullStatusShownButNotFiltered(row: SessionWithRelations, search: Option<string>, o: Option<Order>)
    requires row.session.status.None?
    ensures ToSessionWithNames(row).status == ScheduledStatus
    ensures !BuildWhere(Some(GetSessionsParams(search, Some(ScheduledStatus), o))).Admits(row)
  {
    ScheduledNotBlank();
    NullStatusNotFiltered(row, search, ScheduledStatus, o);
  }

  /** A session whose stored status is null is matched by no status filter. */
  lemma NullStatusNotFiltered(row: SessionWithRelations, search: Option<string>, status: string, o: Option<Order>)
    requires row.session.status.None? && !IsBlank(status)
    ensures !BuildWhere(Some(GetSessionsParams(search, Some(status), o))).Admits(row)
  {
    StatusFilterExcludesNull(BuildWhere(Some(GetSessionsParams(search, Some(status), o))), row);
  }

  /** A status filter never admits a row whose stored status is null. */
  lemma StatusFilterExcludesNull(w: WhereClause, row: SessionWithRelations)
    requires w.statusEquals.Some? && row.session.status.None?
    ensures !w.Admits(row)
  {
  }

  /** "Scheduled" is not blank, so it sets the status filter. */
  lemma ScheduledNotBlank()
    ensures !IsBlank(ScheduledStatus)
  {
    TrimPadded([], ScheduledStatus, []);
    assert [] + ScheduledStatus + [] == ScheduledStatus;
  }

  /** The name filter looks at both relations: a session is found by its patient's name even
      when its therapist is missing. */
  lemma SearchMatchesEitherName(row: SessionWithRelations, term: string, o: Option<Order>)
    requires !IsBlank(term)
    requires row.patient.Some? && ContainsInsensitive(row.patient.value.name, Trim(term))
    ensures BuildWhere(Some(GetSessionsParams(Some(term), None, o))).Admits(row)
  {
  }
}
