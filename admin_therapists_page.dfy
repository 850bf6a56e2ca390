/** The admin therapists dashboard (src/app/admin/therapists/page.tsx): the three counters and
    the figures shown on each therapist's row. */
module AdminTherapistsPage {
  import opened Opt
  import opened Sorting
  import opened Models
  import opened ClinicStore
  import opened TherapistsList
  import opened AdminFetch

  const FetchTherapistsFallback := "Failed to fetch therapists"

  predicate SessionCompleted(s: TherapistSession) {
    s.status == Some(CompletedStatus)
  }

  /** `t.sessions.some(s => s.status === 'Completed')`. */
  predicate HasCompleted(t: TherapistWithSessions) {
    exists i :: 0 <= i < |t.sessions| && SessionCompleted(t.sessions[i])
  }

  /** `new Set(therapists.map(t => t.specialty).filter(Boolean))`. */
  function SpecialtySet(ts: seq<TherapistWithSessions>): set<string> {
    set t | t in ts && OffersSpecialty(t.therapist) :: t.therapist.specialty.value
  }

  datatype TherapistStats = TherapistStats(total: nat, active: nat, specialties: nat)

  /** The counters: every therapist, those with a completed session, the distinct non-empty
      specialties. */
  function Stats(ts: seq<TherapistWithSessions>): (st: TherapistStats)
    ensures st.total == |ts| && st.active <= st.total
    ensures st.active == |Filter(ts, HasCompleted)|
    ensures st.specialties == |SpecialtySet(ts)|
  {
    TherapistStats(|ts|, Count(ts, HasCompleted), |SpecialtySet(ts)|)
  }

  /** A list without repeats has as many elements as its set. */
  lemma {:induction false} DistinctCard(r: seq<string>)
    requires forall i, j :: 0 <= i < j < |r| ==> r[i] != r[j]
    ensures |set x | x in r| == |r|
    decreases |r|
  {
    if r != [] {
      var rest := r[1..];
      DistinctCard(rest);
      assert (set x | x in r) == (set x | x in rest) + {r[0]};
      assert r[0] !in rest;
    }
  }

  /** The specialties counter equals the number of choices the public directory offers for the
      same therapists. */
  lemma SpecialtiesMatchDirectoryChoices(ts: seq<TherapistWithSessions>)
    ensures Stats(ts).specialties == |UniqueSpecialties(Map(ts, (t: TherapistWithSessions) => t.therapist))|
  {
    var data := Map(ts, (t: TherapistWithSessions) => t.therapist);
    var r := UniqueSpecialties(data);
    UniqueSpecialtiesSpec(data);
    DistinctCard(r);
    forall x
      ensures x in r <==> x in SpecialtySet(ts)
    {
      if x in r {
        var th :| th in data && th.specialty == Some(x) && x != [];
        var k :| 0 <= k < |data| && data[k] == th;
        assert ts[k] in ts && OffersSpecialty(ts[k].therapist);
      }
      if x in SpecialtySet(ts) {
        var t :| t in ts && OffersSpecialty(t.therapist) && t.therapist.specialty.value == x;
        var k :| 0 <= k < |ts| && ts[k] == t;
        assert data[k] == t.therapist;
      }
    }
    assert (set x | x in r) == SpecialtySet(ts);
  }

  predicate HasPatient(s: TherapistSession) {
    s.patientName.Some?
  }

  /** `new Set(sessions.filter(s => s.patients).map(s => s.patients?.name))`. */
  function PatientNames(ss: seq<TherapistSession>): set<string> {
    set s | s in ss && HasPatient(s) :: s.patientName.value
  }

  /** Each session adds at most one name. */
  lemma {:induction false} PatientNamesBounded(ss: seq<TherapistSession>)
    ensures |PatientNames(ss)| <= Count(ss, HasPatient)
    decreases |ss|
  {
    if ss != [] {
      var rest := ss[1..];
      PatientNamesBounded(rest);
      assert ss == [ss[0]] + rest;
      if HasPatient(ss[0]) {
        assert PatientNames(ss) == PatientNames(rest) + {ss[0].patientName.value};
      } else {
        assert PatientNames(ss) == PatientNames(rest);
      }
    }
  }

  /** The figures on a therapist's row. */
  datatype TherapistRow = TherapistRow(completed: nat, total: nat, uniquePatients: nat, deleteDisabled: bool)

  function Row(t: TherapistWithSessions): (r: TherapistRow)
    ensures r.total == |t.sessions| && r.completed == |Filter(t.sessions, SessionCompleted)|
    ensures r.uniquePatients == |PatientNames(t.sessions)|
    ensures r.completed <= r.total && r.uniquePatients <= r.total
    ensures r.deleteDisabled <==> r.total > 0
    ensures r.completed > 0 ==> r.deleteDisabled
  {
    PatientNamesBounded(t.sessions);
    TherapistRow(Count(t.sessions, SessionCompleted), |t.sessions|, |PatientNames(t.sessions)|, |t.sessions| > 0)
  }

  /** Patients are counted by name: two sessions with same-named patients count once. */
  lemma SameNameCountsOnce(t: TherapistWithSessions, a: TherapistSession, b: TherapistSession, name: string)
    requires t.sessions == [a, b] && a.patientName == Some(name) && b.patientName == Some(name)
    ensures Row(t).uniquePatients == 1 && Row(t).total == 2
  {
    assert PatientNames(t.sessions) == {name};
  }
}
