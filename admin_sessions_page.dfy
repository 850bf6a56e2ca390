/** The admin sessions dashboard (src/app/admin/sessions/page.tsx): the status toggle, which
    sessions offer it, how a status is displayed, and the three counters. */
module AdminSessionsPage {
  import opened Opt
  import opened Sorting
  import opened Models
  import opened SessionsLib
  import opened AdminFetch

  const FetchSessionsFailed := "Failed to fetch sessions"

  /** `handleToggleStatus`: a scheduled session becomes completed; every other status,
      null included, becomes scheduled. */
  function ToggleStatus(current: Option<string>): (s: string)
    ensures s == CompletedStatus <==> current == Some(ScheduledStatus)
    ensures s == ScheduledStatus <==> current != Some(ScheduledStatus)
  {
    if current == Some(ScheduledStatus) then CompletedStatus else ScheduledStatus
  }

  /** The toggle button is offered for scheduled and completed sessions only. */
  predicate ShowToggle(status: Option<string>) {
    status == Some(ScheduledStatus) || status == Some(CompletedStatus)
  }

  /** On the sessions that offer it, the toggle swaps the two statuses: the new status offers
      the toggle again, and toggling twice gives back the status it started from. */
  lemma ToggleSwaps(status: Option<string>)
    requires ShowToggle(status)
    ensures ShowToggle(Some(ToggleStatus(status)))
    ensures ToggleStatus(Some(ToggleStatus(status))) == status.value
    ensures ToggleStatus(status) != status.value
  {
  }

  /** `session.status || 'Scheduled'`. */
  function DisplayStatus(status: Option<string>): (s: string)
    ensures s != []
    ensures status.Some? && status.value != [] ==> s == status.value
    ensures status.None? || status.value == [] ==> s == ScheduledStatus
  {
    if status.Some? && status.value != [] then status.value else ScheduledStatus
  }

  /** The dashboard shows a status as the public sessions list does, except an empty stored
      status, which the dashboard shows as "Scheduled" and the public list as empty. */
  lemma DisplayAgreesWithPublicList(row: SessionWithRelations)
    ensures row.session.status != Some([]) ==> DisplayStatus(row.session.status) == ToSessionWithNames(row).status
    ensures row.session.status == Some([]) ==>
      DisplayStatus(row.session.status) == ScheduledStatus && ToSessionWithNames(row).status == []
  {
  }

  predicate IsCompleted(s: SessionWithRelations) {
    s.session.status == Some(CompletedStatus)
  }

  predicate IsScheduled(s: SessionWithRelations) {
    s.session.status == Some(ScheduledStatus)
  }

  datatype SessionStats = SessionStats(total: nat, completed: nat, scheduled: nat)

  /** The three counters: every session, the completed ones, the scheduled ones. */
  function Stats(sessions: seq<SessionWithRelations>): (st: SessionStats)
    ensures st.total == |sessions|
    ensures st.completed == |Filter(sessions, IsCompleted)| && st.scheduled == |Filter(sessions, IsScheduled)|
  {
    SessionStats(|sessions|, Count(sessions, IsCompleted), Count(sessions, IsScheduled))
  }

  /** No session is counted twice: completed and scheduled together never exceed the total;
      sessions with a null status are counted in neither. */
  lemma StatsBounded(sessions: seq<SessionWithRelations>)
    ensures Stats(sessions).completed + Stats(sessions).scheduled <= Stats(sessions).total
  {
    CountDisjoint(sessions, IsCompleted, IsScheduled);
  }

  /** The page: the list state and the toggle handler. */
  class AdminSessions {
    const list: AdminList<SessionWithRelations>

    constructor()
      ensures fresh(list) && list.items == [] && list.loading && list.fallback == FetchSessionsFailed
    {
      list := new AdminList(FetchSessionsFailed);
    }

    /** `handleToggleStatus`: sends the toggled status; when the server accepts it the list is
        fetched again, otherwise (an alert) nothing on the page changes. Returns the status sent. */
    method HandleToggleStatus(current: Option<string>, accepted: bool, refetch: AdminFetchResult<SessionWithRelations>)
      returns (sent: string)
      requires Acceptable(refetch)
      modifies list
      ensures sent == ToggleStatus(current)
      ensures !accepted ==> unchanged(list)
      ensures accepted ==> !list.loading && var v := Decide(refetch, list.fallback);
        (v.Loaded? ==> list.items == v.items && list.error == old(list.error) && list.redirect == old(list.redirect))
        && (v.Failed? ==> list.error == Some(v.message) && list.items == old(list.items) && list.redirect == old(list.redirect))
        && (v.RedirectToLogin? ==> list.redirect == Some(LoginPath) && list.items == old(list.items) && list.error == old(list.error))
    {
      sent := ToggleStatus(current);
      if accepted {
        list.Fetch(refetch);
      }
    }
  }
}
