/** The list fetch the three admin dashboards share (`fetchSessions`, `fetchTherapists`,
    `fetchPatients` in the three admin pages): a 401 sends the browser to the login page,
    a success envelope replaces the list, anything else sets the error line. */
module AdminFetch {
  import opened Opt
  import opened ApiHelpers

  /** How the request ends: a response with its status and its body parsed as an envelope
      (None when the body is not JSON), or an exception from `fetch` itself. */
  datatype AdminFetchResult<T> = AdminResponded(status: int, envelope: Option<Envelope<seq<T>>>) | AdminFetchFailed

  /** A success envelope carries its data, as every envelope `withErrorHandler` builds does. */
  predicate WellFormed<T>(e: Envelope<T>) {
    e.success ==> e.data.Some?
  }

  predicate Acceptable<T>(r: AdminFetchResult<T>) {
    r.AdminResponded? && r.envelope.Some? ==> WellFormed(r.envelope.value)
  }

  const LoginPath := "/admin/login"

  /** What the page does with the result. */
  datatype Verdict<T> = RedirectToLogin | Loaded(items: seq<T>) | Failed(message: string)

  /** `result.error?.message || fallback`. */
  function ErrorText<T>(e: Envelope<T>, fallback: string): (m: string)
    ensures fallback != [] ==> m != []
    ensures e.error.Some? && e.error.value.message != [] ==> m == e.error.value.message
  {
    if e.error.Some? && e.error.value.message != [] then e.error.value.message else fallback
  }

  function Decide<T>(r: AdminFetchResult<T>, fallback: string): (v: Verdict<T>)
    requires Acceptable(r)
    ensures v.RedirectToLogin? <==> r.AdminResponded? && r.status == 401
    ensures v.Loaded? <==> r.AdminResponded? && r.status != 401 && r.envelope.Some? && r.envelope.value.success
    ensures v.Loaded? ==> Some(v.items) == r.envelope.value.data
    ensures v.Failed? && r.AdminResponded? && r.envelope.Some? ==> v.message == ErrorText(r.envelope.value, fallback)
    ensures v.Failed? && !(r.AdminResponded? && r.envelope.Some?) ==> v.message == fallback
  {
    match r
    case AdminFetchFailed => Failed(fallback)
    case AdminResponded(status, envelope) =>
      if status == 401 then RedirectToLogin
      else if envelope.None? then Failed(fallback)
      else if envelope.value.success then Loaded(envelope.value.data.value)
      else Failed(ErrorText(envelope.value, fallback))
  }

  /** A response the admin routes produce reaches the page as the list itself on success and
      as the route's own message otherwise. */
  lemma RouteResponseReachesPage<T>(o: Outcome<seq<T>>, fallback: string)
    ensures var r := WithErrorHandler(o);
      var v := Decide(AdminResponded(r.status, Some(r.body)), fallback);
      (o.Returned? ==> v == Loaded(o.value))
      && (o.Threw? && r.status != 401 ==> v == Failed(ErrorText(r.body, fallback)) && v.message != [] )
  {
    var r := WithErrorHandler(o);
    if o.Threw? && r.status != 401 {
      assert r.body.error.Some?;
      MessageNotEmpty<seq<T>>(o.error);
    }
  }

  /** The error envelopes carry a non-empty message. */
  lemma MessageNotEmpty<T>(e: Thrown)
    ensures var r: Response<T> := WithErrorHandler(Threw(e));
      r.status != 401 ==> r.body.error.value.message != []
  {
    var r: Response<T> := WithErrorHandler(Threw(e));
    assert r.body.error.Some?;
  }

  /** A list page: the rows, the loading flag, the error line and where the router was sent. */
  class AdminList<T> {
    var items: seq<T>
    var loading: bool
    var error: Option<string>
    var redirect: Option<string>
    const fallback: string

    constructor(fallback: string)
      ensures items == [] && loading && error.None? && redirect.None? && this.fallback == fallback
    {
      items := [];
      loading := true;
      error := None;
      redirect := None;
      this.fallback := fallback;
    }

    /** The fetch: the loading flag always drops; a 401 only redirects; a success only
        replaces the list and leaves an earlier error line in place; a failure only sets the
        error line. */
    method Fetch(r: AdminFetchResult<T>)
      requires Acceptable(r)
      modifies this
      ensures !loading
      ensures var v := Decide(r, fallback);
        (v.RedirectToLogin? ==> redirect == Some(LoginPath) && items == old(items) && error == old(error))
        && (v.Loaded? ==> items == v.items && error == old(error) && redirect == old(redirect))
        && (v.Failed? ==> error == Some(v.message) && items == old(items) && redirect == old(redirect))
    {
      var v := Decide(r, fallback);
      match v {
        case RedirectToLogin => redirect := Some(LoginPath);
        case Loaded(rows) => items := rows;
        case Failed(m) => error := Some(m);
      }
      loading := false;
    }
  }
}
