/** The public sessions table (src/components/sessions/SessionsList.tsx): the fetch state
    machine, the query it sends, client-side column sorting and the "mark completed" action. */
module SessionsList {
  import opened Opt
  import opened Strings
  import opened Sorting
  import opened Js
  import opened Models
  import opened Validation
  import opened SessionsLib
  import opened SessionsRoute
  import opened ClientFetch

  /** What the table shows: the rows (null before the first answer and after a failure),
      whether a request is in flight, the error line, and whether the server found nothing. */
  datatype FetchState = FetchState(data: Option<seq<SessionWithNames>>, loading: bool, error: Option<string>, notFound: bool)

  const InitialState := FetchState(None, true, None, false)
  const SessionsPath := "/api/sessions"
  const LoadFailed := "Failed to load sessions"
  const UpdateFailed := "Failed to update session"
  const InvalidIdOnClient := "Cannot update: invalid session id on client."

  /** A state the table can rest in: not loading, rows shown exactly when there is no error,
      and "nothing found" only over an empty list. */
  predicate Settled(s: FetchState) {
    !s.loading && (s.data.Some? <==> s.error.None?) && (s.notFound ==> s.data == Some([]))
  }

  function OrderText(o: Order): string {
    match o
    case Asc => "asc"
    case Desc => "desc"
  }

  /** The query parameters of `fetchSessions(search, status, sort)`. */
  function SessionsQuery(search: Option<string>, status: Option<string>, sort: Option<Order>): seq<(string, string)> {
    var filters := AppendNonBlank(AppendNonBlank([], "search", search), "status", status);
    if sort.Some? then filters + [("sortOrder", OrderText(sort.value))] else filters
  }

  /** The URL `fetchSessions` requests for the given controls. */
  function SessionsUrl(search: Option<string>, status: Option<string>, sort: Option<Order>): string {
    RequestUrl(SessionsPath, SessionsQuery(search, status, sort))
  }

  /** The state `fetchSessions` settles in once the request has answered or failed. */
  function AfterFetch(r: FetchResult<seq<SessionWithNames>>): (s: FetchState)
    ensures Settled(s)
    ensures r.Responded? && r.status == 404 ==> s == FetchState(Some([]), false, None, true)
    ensures r.Responded? && r.status != 404 && IsOk(r.status) && r.json.Some? ==>
      s == FetchState(r.json, false, None, r.json.value == [])
    ensures r.Responded? && r.status != 404 && (!IsOk(r.status) || r.json.None?) ==>
      s == FetchState(None, false, Some(LoadFailed), false)
    ensures r.FetchFailed? ==>
      s == FetchState(None, false, Some(if r.aborted then TimedOut else LoadFailed), false)
  {
    match r
    case Responded(status, json) =>
      if status == 404 then FetchState(Some([]), false, None, true)
      else if !IsOk(status) then FetchState(None, false, Some(LoadFailed), false)
      else if json.None? then FetchState(None, false, Some(LoadFailed), false)
      else FetchState(json, false, None, |json.value| == 0)
    case FetchFailed(aborted) =>
      FetchState(None, false, Some(if aborted then TimedOut else LoadFailed), false)
  }

  /** The query the component sends is read back by the sessions route as the same filters
      and order: the server answers with `getAllSessionsWithNames` of the component's own
      arguments. */
  lemma ServerReadsClientQuery(rows: seq<SessionWithRelations>, search: Option<string>, status: Option<string>, sort: Option<Order>)
    ensures GetAllSessionsWithNames(rows, Some(RouteParams(SessionsQuery(search, status, sort))))
         == GetAllSessionsWithNames(rows, Some(GetSessionsParams(search, status, sort)))
  {
    var q := SessionsQuery(search, status, sort);
    SearchReadBack(search, status, sort);
    StatusReadBack(search, status, sort);
    OrderReadBack(search, status, sort);
    assert BuildWhere(Some(RouteParams(q))) == BuildWhere(Some(GetSessionsParams(search, status, sort)));
    assert SortOrderOf(Some(RouteParams(q))) == SortOrderOf(Some(GetSessionsParams(search, status, sort)));
  }

  function SearchPart(search: Option<string>): seq<(string, string)> {
    if NonBlankTrimmed(search).Some? then [("search", NonBlankTrimmed(search).value)] else []
  }

  function StatusPart(status: Option<string>): seq<(string, string)> {
    if NonBlankTrimmed(status).Some? then [("status", NonBlankTrimmed(status).value)] else []
  }

  function OrderPart(sort: Option<Order>): seq<(string, string)> {
    if sort.Some? then [("sortOrder", OrderText(sort.value))] else []
  }

  /** The query is the search part, then the status part, then the order part. */
  lemma QueryParts(search: Option<string>, status: Option<string>, sort: Option<Order>)
    ensures SessionsQuery(search, status, sort) == SearchPart(search) + (StatusPart(status) + OrderPart(sort))
  {
    var a, b, c := SearchPart(search), StatusPart(status), OrderPart(sort);
    var filters := AppendNonBlank(AppendNonBlank([], "search", search), "status", status);
    assert filters == a + b by {
      assert AppendNonBlank([], "search", search) == a;
    }
    if sort.Some? {
      assert SessionsQuery(search, status, sort) == filters + c;
    } else {
      assert SessionsQuery(search, status, sort) == filters && c == [];
    }
    AssociateParts(a, b, c);
  }

  lemma AssociateParts(a: seq<(string, string)>, b: seq<(string, string)>, c: seq<(string, string)>)
    ensures (a + b) + c == a + (b + c)
  {
  }

  lemma SearchReadBack(search: Option<string>, status: Option<string>, sort: Option<Order>)
    ensures NonBlankTrimmed(NonEmptyParam(SessionsQuery(search, status, sort), "search")) == NonBlankTrimmed(search)
  {
    QueryParts(search, status, sort);
    var a := NonBlankTrimmed(search);
    if a.Some? {
      assert QueryGet(SessionsQuery(search, status, sort), "search") == Some(a.value);
      KeepsTrimmed(a.value);
    } else {
      QueryGetSkips(StatusPart(status), OrderPart(sort), "search");
      assert QueryGet(OrderPart(sort), "search") == None;
    }
  }

  lemma StatusReadBack(search: Option<string>, status: Option<string>, sort: Option<Order>)
    ensures NonBlankTrimmed(NonEmptyParam(SessionsQuery(search, status, sort), "status")) == NonBlankTrimmed(status)
  {
    QueryParts(search, status, sort);
    QueryGetSkips(SearchPart(search), StatusPart(status) + OrderPart(sort), "status");
    var b := NonBlankTrimmed(status);
    if b.Some? {
      assert QueryGet(StatusPart(status) + OrderPart(sort), "status") == Some(b.value);
      KeepsTrimmed(b.value);
    } else {
      assert QueryGet(OrderPart(sort), "status") == None;
    }
  }

  lemma OrderReadBack(search: Option<string>, status: Option<string>, sort: Option<Order>)
    ensures RequestedOrder(SessionsQuery(search, status, sort)) == SortOrderOf(Some(GetSessionsParams(search, status, sort)))
  {
    OrderParam(search, status, sort);
    match sort
    case None =>
    case Some(o) =>
      assert OrderText(o) == "desc" <==> o == Desc;
  }

  lemma OrderParam(search: Option<string>, status: Option<string>, sort: Option<Order>)
    ensures QueryGet(SessionsQuery(search, status, sort), "sortOrder")
         == if sort.Some? then Some(OrderText(sort.value)) else None
  {
    QueryParts(search, status, sort);
    PartSkips(SearchPart(search), StatusPart(status) + OrderPart(sort), "search", "sortOrder");
    PartSkips(StatusPart(status), OrderPart(sort), "status", "sortOrder");
  }

  /** With blank filters and ascending order the request carries only the order. */
  lemma ResetUrl()
    ensures RequestUrl(SessionsPath, SessionsQuery(Some([]), Some([]), Some(Asc))) == SessionsPath + "?sortOrder=asc"
  {
    assert IsBlank([]);
    var q := SessionsQuery(Some([]), Some([]), Some(Asc));
    assert q == [("sortOrder", "asc")];
    assert QueryString(q) == "sortOrder=asc";
  }

  /** A part holding at most one parameter, under another name, is passed over. */
  lemma PartSkips(part: seq<(string, string)>, rest: seq<(string, string)>, key: string, name: string)
    requires |part| <= 1 && (part != [] ==> part[0].0 == key) && key != name
    ensures QueryGet(part + rest, name) == QueryGet(rest, name)
  {
    QueryGetSkips(part, rest, name);
  }

  /** A lookup passes over parameters with other names. */
  lemma {:induction false} QueryGetSkips(pre: seq<(string, string)>, rest: seq<(string, string)>, name: string)
    requires forall i :: 0 <= i < |pre| ==> pre[i].0 != name
    ensures QueryGet(pre + rest, name) == QueryGet(rest, name)
    decreases |pre|
  {
    if pre != [] {
      var whole := pre + rest;
      assert whole[0] == pre[0] && whole[0].0 != name;
      assert whole[1..] == pre[1..] + rest;
      assert QueryGet(whole, name) == QueryGet(whole[1..], name);
      QueryGetSkips(pre[1..], rest, name);
    } else {
      assert pre + rest == rest;
    }
  }

  /** A trimmed non-blank term is its own trimmed form. */
  lemma KeepsTrimmed(t: string)
    requires t != [] && Trim(t) == t
    ensures !IsBlank(t) && NonBlankTrimmed(Some(t)) == Some(t)
  {
  }

  /** The columns the table sorts by. */
  datatype SortField = TherapistColumn | PatientColumn | DateColumn | StatusColumn

  /** `handleColumnSort`: the same column flips the direction; another column sorts ascending. */
  function NextSort(field: SortField, order: Order, clicked: SortField): (r: (SortField, Order))
    ensures r.0 == clicked
    ensures clicked != field ==> r.1 == Asc
    ensures clicked == field ==> r.1 != order
  {
    if field == clicked then (clicked, if order == Asc then Desc else Asc) else (clicked, Asc)
  }

  /** Clicking the same column twice restores the order it had. */
  lemma SameColumnTwiceRestores(field: SortField, order: Order)
    ensures var (f, o) := NextSort(field, order, field); NextSort(f, o, field) == (field, order)
  {
  }

  /** The compared value of a row: lower-cased names and status, the date's timestamp. */
  function SortKey(field: SortField): (SessionWithNames -> Key) {
    match field
    case TherapistColumn => (s: SessionWithNames) => StrKey(Lower(s.therapistName))
    case PatientColumn => (s: SessionWithNames) => StrKey(Lower(s.patientName))
    case DateColumn => (s: SessionWithNames) => IntKey(s.date)
    case StatusColumn => (s: SessionWithNames) => StrKey(Lower(s.status))
  }

  /** `sortedSessions`: the rows (none while data is null) sorted by the column. */
  function SortSessions(data: Option<seq<SessionWithNames>>, field: SortField, order: Order): seq<SessionWithNames> {
    Sort(if data.Some? then data.value else [], SortKey(field), order)
  }

  /** The client sort shows every row exactly as often as it was fetched, ordered by the column
      in the chosen direction. */
  lemma SortSessionsSpec(data: Option<seq<SessionWithNames>>, field: SortField, order: Order)
    ensures data.None? ==> SortSessions(data, field, order) == []
    ensures data.Some? ==> multiset(SortSessions(data, field, order)) == multiset(data.value)
    ensures var r := SortSessions(data, field, order);
      forall i, j :: 0 <= i < j < |r| ==> InOrder(SortKey(field)(r[i]), SortKey(field)(r[j]), order)
  {
    var rows := if data.Some? then data.value else [];
    SortSorted(rows, SortKey(field), order);
    var r := SortSessions(data, field, order);
    forall i, j | 0 <= i < j < |r|
      ensures InOrder(SortKey(field)(r[i]), SortKey(field)(r[j]), order)
    {
      SortedAllPairs(r, SortKey(field), order, i, j);
    }
  }

  /** The optimistic refresh: each row with the id reads "Completed"; null stays null. */
  function MarkedCompleted(data: Option<seq<SessionWithNames>>, id: nat): (r: Option<seq<SessionWithNames>>)
    ensures r.Some? <==> data.Some?
    ensures r.Some? ==> |r.value| == |data.value|
  {
    match data
    case None => None
    case Some(rows) =>
      Some(Map(rows, (s: SessionWithNames) => if s.id == id then s.(status := CompletedStatus) else s))
  }

  /** Exactly the rows with the id change, and only in their status. */
  lemma MarkedCompletedSpec(rows: seq<SessionWithNames>, id: nat, i: nat)
    requires i < |rows|
    ensures var r := MarkedCompleted(Some(rows), id).value;
      (rows[i].id == id ==> r[i] == rows[i].(status := CompletedStatus))
      && (rows[i].id != id ==> r[i] == rows[i])
  {
  }

  /** Marking a session twice is marking it once. */
  lemma MarkTwiceIsOnce(data: Option<seq<SessionWithNames>>, id: nat)
    ensures MarkedCompleted(MarkedCompleted(data, id), id) == MarkedCompleted(data, id)
  {
    if data.Some? {
      var once := MarkedCompleted(data, id).value;
      var twice := MarkedCompleted(Some(once), id).value;
      assert forall i :: 0 <= i < |twice| ==> twice[i] == once[i];
      assert twice == once;
    }
  }

  /** How the PATCH request ends: with a status, or with an exception. */
  datatype PatchResult = PatchResponded(status: int) | PatchFailed(aborted: bool)

  /** The state after the PATCH for a positive id: a success marks the rows and keeps the
      error line; a failure sets the error line and keeps the rows. */
  function AfterMark(prev: FetchState, id: nat, r: PatchResult): (s: FetchState)
    ensures s.loading == prev.loading && s.notFound == prev.notFound
    ensures r.PatchResponded? && IsOk(r.status) ==> s == prev.(data := MarkedCompleted(prev.data, id))
    ensures r.PatchResponded? && !IsOk(r.status) ==> s == prev.(error := Some(UpdateFailed))
    ensures r.PatchFailed? ==> s == prev.(error := Some(if r.aborted then TimedOut else UpdateFailed))
  {
    match r
    case PatchResponded(status) =>
      if IsOk(status) then prev.(data := MarkedCompleted(prev.data, id))
      else prev.(error := Some(UpdateFailed))
    case PatchFailed(aborted) => prev.(error := Some(if aborted then TimedOut else UpdateFailed))
  }

  /** A failed update leaves a settled table settled with the rows it showed. */
  lemma FailedMarkKeepsRows(prev: FetchState, id: nat, r: PatchResult)
    requires Settled(prev) && prev.data.Some?
    requires !(r.PatchResponded? && IsOk(r.status))
    ensures AfterMark(prev, id, r).data == prev.data
    ensures AfterMark(prev, id, r).error.Some?
  {
  }

  /** The component: the fetch state and the controls' state. */
  class SessionsTable {
    var state: FetchState
    var searchTerm: string
    var filterStatus: string
    var sortField: SortField
    var sortOrder: Order

    constructor()
      ensures state == InitialState && searchTerm == [] && filterStatus == []
      ensures sortField == DateColumn && sortOrder == Asc
    {
      state := InitialState;
      searchTerm := [];
      filterStatus := [];
      sortField := DateColumn;
      sortOrder := Asc;
    }

    /** `fetchSessions`: sends the query and settles on the answer; `result` is what the
        network gave back. Returns the URL requested. The loading state with the error cleared,
        which lasts only while the request is pending, is overwritten before the method ends. */
    method FetchSessions(search: Option<string>, status: Option<string>, sort: Option<Order>,
                         result: FetchResult<seq<SessionWithNames>>) returns (url: string)
      modifies this
      ensures url == SessionsUrl(search, status, sort)
      ensures state == AfterFetch(result)
      ensures searchTerm == old(searchTerm) && filterStatus == old(filterStatus)
      ensures sortField == old(sortField) && sortOrder == old(sortOrder)
    {
      url := SessionsUrl(search, status, sort);
      state := AfterFetch(result);
    }

    /** `handleSearch`: fetches with the current controls. */
    method HandleSearch(result: FetchResult<seq<SessionWithNames>>) returns (url: string)
      modifies this
      ensures url == SessionsUrl(Some(old(searchTerm)), Some(old(filterStatus)), Some(old(sortOrder)))
      ensures state == AfterFetch(result)
      ensures searchTerm == old(searchTerm) && filterStatus == old(filterStatus)
      ensures sortField == old(sortField) && sortOrder == old(sortOrder)
    {
      url := FetchSessions(Some(searchTerm), Some(filterStatus), Some(sortOrder), result);
    }

    /** `handleStatusChange`: stores the status filter and fetches with it. */
    method HandleStatusChange(newStatus: string, result: FetchResult<seq<SessionWithNames>>) returns (url: string)
      modifies this
      ensures filterStatus == newStatus
      ensures url == SessionsUrl(Some(old(searchTerm)), Some(newStatus), Some(old(sortOrder)))
      ensures state == AfterFetch(result)
      ensures searchTerm == old(searchTerm) && sortField == old(sortField) && sortOrder == old(sortOrder)
    {
      filterStatus := newStatus;
      url := FetchSessions(Some(searchTerm), Some(newStatus), Some(sortOrder), result);
    }

    /** `handleReset`: clears the controls and fetches everything in ascending date order. */
    method HandleReset(result: FetchResult<seq<SessionWithNames>>) returns (url: string)
      modifies this
      ensures searchTerm == [] && filterStatus == [] && sortField == DateColumn && sortOrder == Asc
      ensures url == SessionsPath + "?sortOrder=asc"
      ensures state == AfterFetch(result)
    {
      searchTerm := [];
      filterStatus := [];
      sortField := DateColumn;
      sortOrder := Asc;
      url := FetchSessions(Some([]), Some([]), Some(Asc), result);
      ResetUrl();
    }

    /** `handleColumnSort`: changes only the sort controls; no request is sent. */
    method HandleColumnSort(clicked: SortField)
      modifies this
      ensures (sortField, sortOrder) == NextSort(old(sortField), old(sortOrder), clicked)
      ensures state == old(state) && searchTerm == old(searchTerm) && filterStatus == old(filterStatus)
    {
      var next := NextSort(sortField, sortOrder, clicked);
      sortField := next.0;
      sortOrder := next.1;
    }

    /** The rows as the table lists them. */
    function SortedSessions(): seq<SessionWithNames>
      reads this
    {
      SortSessions(state.data, sortField, sortOrder)
    }

    /** `markCompleted(id)`: an id that is not a positive integer only sets the error line and
        sends nothing; otherwise the PATCH is sent and its result applied. Returns the id whose
        update was requested, if any. */
    method MarkCompleted(id: Number, result: PatchResult) returns (sent: Option<nat>)
      modifies this
      ensures !IsPositiveInteger(id) ==> sent.None? && state == old(state).(error := Some(InvalidIdOnClient))
      ensures IsPositiveInteger(id) ==>
        sent == Some(id.v.Floor) && id.v.Floor as real == id.v && state == AfterMark(old(state), id.v.Floor, result)
      ensures searchTerm == old(searchTerm) && filterStatus == old(filterStatus)
      ensures sortField == old(sortField) && sortOrder == old(sortOrder)
    {
      if !IsPositiveInteger(id) {
        state := state.(error := Some(InvalidIdOnClient));
        return None;
      }
      var n: nat := id.v.Floor;
      sent := Some(n);
      state := AfterMark(state, n, result);
    }
  }
}
