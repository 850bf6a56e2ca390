/** The admin patients dashboard (src/app/admin/patients/page.tsx): the three counters and the
    figures shown on each patient's row. */
module AdminPatientsPage {
  import opened Opt
  import opened Sorting
  import opened Models
  import opened ClinicStore

  const FetchPatientsFallback := "Failed to fetch patients"

  predicate SummaryCompleted(s: SessionSummary) {
    s.status == Some(CompletedStatus)
  }

  /** `p.sessions.some(s => s.status === 'Completed')`. */
  predicate HasCompleted(p: PatientWithSessions) {
    exists i :: 0 <= i < |p.sessions| && SummaryCompleted(p.sessions[i])
  }

  /** `patients.reduce((sum, p) => sum + p.sessions.length, 0)`, accumulated left to right. */
  function SumSessions(acc: nat, ps: seq<PatientWithSessions>): nat
    decreases |ps|
  {
    if ps == [] then acc else SumSessions(acc + |ps[0].sessions|, ps[1..])
  }

  /** The sum is the accumulator plus each patient's count. */
  lemma {:induction false} SumSessionsSplits(acc: nat, ps: seq<PatientWithSessions>)
    ensures SumSessions(acc, ps) == acc + SumSessions(0, ps)
    decreases |ps|
  {
    if ps != [] {
      SumSessionsSplits(acc + |ps[0].sessions|, ps[1..]);
      SumSessionsSplits(|ps[0].sessions|, ps[1..]);
    }
  }

  datatype PatientStats = PatientStats(total: nat, active: nat, totalSessions: nat)

  /** The counters: every patient, those with a completed session, and all their sessions. */
  function Stats(ps: seq<PatientWithSessions>): (st: PatientStats)
    ensures st.total == |ps| && st.active <= st.total
    ensures st.active == |Filter(ps, HasCompleted)|
    ensures st.active <= st.totalSessions
    ensures st.totalSessions == SumSessions(0, ps)
    ensures ps == [] ==> st.totalSessions == 0
  {
    ActiveHaveSessions(ps);
    PatientStats(|ps|, Count(ps, HasCompleted), SumSessions(0, ps))
  }

  /** An active patient has at least one session, so there are at least as many sessions as
      active patients. */
  lemma {:induction false} ActiveHaveSessions(ps: seq<PatientWithSessions>)
    ensures Count(ps, HasCompleted) <= SumSessions(0, ps)
    decreases |ps|
  {
    if ps != [] {
      ActiveHaveSessions(ps[1..]);
      SumSessionsSplits(|ps[0].sessions|, ps[1..]);
      assert ps == [ps[0]] + ps[1..];
    }
  }

  /** Adding a patient adds its sessions to the total. */
  lemma {:induction false} SumSessionsAppend(ps: seq<PatientWithSessions>, p: PatientWithSessions)
    ensures SumSessions(0, ps + [p]) == SumSessions(0, ps) + |p.sessions|
    decreases |ps|
  {
    if ps == [] {
      assert [] + [p] == [p];
    } else {
      assert (ps + [p])[1..] == ps[1..] + [p];
      SumSessionsAppend(ps[1..], p);
      SumSessionsSplits(|ps[0].sessions|, ps[1..] + [p]);
      SumSessionsSplits(|ps[0].sessions|, ps[1..]);
    }
  }

  /** The figures on a patient's row. */
  datatype PatientRow = PatientRow(completed: nat, total: nat, deleteDisabled: bool)

  function Row(p: PatientWithSessions): (r: PatientRow)
    ensures r.total == |p.sessions| && r.completed == |Filter(p.sessions, SummaryCompleted)|
    ensures r.completed <= r.total
    ensures r.deleteDisabled <==> r.total > 0
  {
    PatientRow(Count(p.sessions, SummaryCompleted), |p.sessions|, |p.sessions| > 0)
  }

  /** The sessions counter grows by the total on the row of each patient added to the list. */
  lemma StatsSessionsAddRow(ps: seq<PatientWithSessions>, p: PatientWithSessions)
    ensures Stats(ps + [p]).totalSessions == Stats(ps).totalSessions + Row(p).total
    ensures Stats([p]).totalSessions == Row(p).total
  {
    SumSessionsAppend(ps, p);
    SumSessionsAppend([], p);
    assert [] + [p] == [p];
  }

  /** A patient shown as active cannot be deleted from the dashboard. */
  lemma ActiveNotDeletable(p: PatientWithSessions)
    requires HasCompleted(p)
    ensures Row(p).deleteDisabled && Row(p).completed > 0
  {
    var i :| 0 <= i < |p.sessions| && SummaryCompleted(p.sessions[i]);
    assert p.sessions[i] in Filter(p.sessions, SummaryCompleted);
  }
}
