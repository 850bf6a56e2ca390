/** `GET /api/sessions` (src/app/api/sessions/route.ts): reads the query parameters, runs the
    sessions query and answers 404 when nothing matches. */
module SessionsRoute {
  import opened Opt
  import opened Strings
  import opened Sorting
  import opened Models
  import opened Validation
  import opened ApiHelpers
  import opened SessionsLib
  import opened PublicReply

  const NoSessionsFound := "No sessions found"
  const UnknownError := "Unknown error"

  /** `searchParams.get(name) || undefined`: an empty value counts as absent. */
  function NonEmptyParam(query: seq<(string, string)>, name: string): (r: Option<string>)
    ensures r.Some? <==> QueryGet(query, name).Some? && QueryGet(query, name).value != []
    ensures r.Some? ==> r == QueryGet(query, name)
  {
    var v := QueryGet(query, name);
    if v.Some? && v.value != [] then v else None
  }

  /** Only the exact value "desc" selects descending order. */
  function RequestedOrder(query: seq<(string, string)>): (o: Order)
    ensures o == Desc <==> QueryGet(query, "sortOrder") == Some("desc")
  {
    if QueryGet(query, "sortOrder") == Some("desc") then Desc else Asc
  }

  function RouteParams(query: seq<(string, string)>): GetSessionsParams {
    GetSessionsParams(NonEmptyParam(query, "search"), NonEmptyParam(query, "status"), Some(RequestedOrder(query)))
  }

  /** The handler; `failure` is what the database call threw, if it threw. */
  function Get(url: ParsedUrl, rows: seq<SessionWithRelations>, failure: Option<Thrown>): (r: Reply<seq<SessionWithNames>>)
    ensures failure.Some? ==> r == FailureReply(failure.value, UnknownError)
    ensures failure.None? ==> (r.status == 200 || r.status == 404)
    ensures r.status == 200 ==> (r.body == Payload(GetAllSessionsWithNames(rows, Some(RouteParams(url.query))))
      && |r.body.data| > 0)
    ensures r.status == 404 ==> r.body == ErrorBody(NoSessionsFound)
  {
    match failure
    case Some(e) => FailureReply(e, UnknownError)
    case None =>
      var sessions := GetAllSessionsWithNames(rows, Some(RouteParams(url.query)));
      if |sessions| == 0 then Reply(404, ErrorBody(NoSessionsFound)) else Reply(200, Payload(sessions))
  }

  /** The route answers 404 exactly when the query succeeded and no session passes the
      filters built from the request. */
  lemma NotFoundIffNothingMatches(url: ParsedUrl, rows: seq<SessionWithRelations>, failure: Option<Thrown>)
    ensures Get(url, rows, failure).status == 404 <==>
      failure.None? && forall row :: row in rows ==> !BuildWhere(Some(RouteParams(url.query))).Admits(row)
  {
    var params := Some(RouteParams(url.query));
    var result := GetAllSessionsWithNames(rows, params);
    if failure.None? {
      if |result| > 0 {
        ReturnedRowsAdmitted(rows, params, result[0]);
      } else {
        forall row | row in rows
          ensures !BuildWhere(params).Admits(row)
        {
          if BuildWhere(params).Admits(row) {
            AdmittedRowsReturned(rows, params, row);
          }
        }
      }
    }
  }

  /** Empty `search` and `status` values are the same as leaving them out, and any sort order
      other than "desc" is ascending. */
  lemma EmptyParamsIgnored(pathname: string, rows: seq<SessionWithRelations>, order: string)
    requires order != "desc"
    ensures Get(ParsedUrl(pathname, [("search", []), ("status", []), ("sortOrder", order)]), rows, None)
         == Get(ParsedUrl(pathname, []), rows, None)
  {
    var q := [("search", []), ("status", []), ("sortOrder", order)];
    assert QueryGet(q, "search") == Some([]);
    assert QueryGet(q, "status") == Some([]);
    assert q[1..][1..] == [("sortOrder", order)];
    assert QueryGet(q[1..][1..], "sortOrder") == Some(order);
    assert QueryGet(q, "sortOrder") == Some(order);
    assert RouteParams(q) == RouteParams([]);
  }
}
