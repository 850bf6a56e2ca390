/** The public therapists directory (src/components/therapists/TherapistsList.tsx): the fetch
    state machine, the query it sends and the specialty choices derived from the answer. */
module TherapistsList {
  import opened Opt
  import opened Strings
  import opened Sorting
  import opened Models
  import opened Validation
  import opened TherapistsRoute
  import opened ClientFetch

  datatype TherapistFetchState = TherapistFetchState(data: Option<seq<Therapist>>, loading: bool, error: Option<string>)

  const InitialTherapistState := TherapistFetchState(None, true, None)
  const TherapistsPath := "/api/therapists"
  const LoadTherapistsFailed := "Failed to load therapists"

  /** The state `fetchTherapists` settles in: the list on a successful answer, otherwise no
      list and an error line, which names a timeout when the request was aborted. */
  function AfterTherapistFetch(r: FetchResult<seq<Therapist>>): (s: TherapistFetchState)
    ensures !s.loading
    ensures s.data.Some? <==> s.error.None?
    ensures s.data.Some? <==> r.Responded? && IsOk(r.status) && r.json.Some?
    ensures s.data.Some? ==> s.data == r.json
    ensures r.FetchFailed? && r.aborted ==> s.error == Some(TimedOut)
    ensures !(r.FetchFailed? && r.aborted) && s.error.Some? ==> s.error == Some(LoadTherapistsFailed)
  {
    match r
    case Responded(status, json) =>
      if !IsOk(status) || json.None? then TherapistFetchState(None, false, Some(LoadTherapistsFailed))
      else TherapistFetchState(json, false, None)
    case FetchFailed(aborted) =>
      TherapistFetchState(None, false, Some(if aborted then TimedOut else LoadTherapistsFailed))
  }

  /** The query parameters of `fetchTherapists(name, specialty)`. */
  function TherapistsQuery(name: Option<string>, specialty: Option<string>): seq<(string, string)> {
    AppendNonBlank(AppendNonBlank([], "name", name), "specialty", specialty)
  }

  /** The therapists route reads back the trimmed non-blank terms the component sent, so it
      lists exactly the therapists that match the component's own filters. */
  lemma ServerReadsTherapistQuery(therapists: seq<Therapist>, name: Option<string>, specialty: Option<string>, t: Therapist)
    ensures var q := TherapistsQuery(name, specialty);
      NonBlankTrimmed(QueryGet(q, "name")) == NonBlankTrimmed(name)
      && NonBlankTrimmed(QueryGet(q, "specialty")) == NonBlankTrimmed(specialty)
    ensures t in Query(TherapistsQuery(name, specialty), therapists) <==>
      t in therapists && Matches(NonBlankTrimmed(name), NonBlankTrimmed(specialty), t)
  {
    var q := TherapistsQuery(name, specialty);
    var a := NonBlankTrimmed(name);
    var b := NonBlankTrimmed(specialty);
    if a.Some? {
      assert QueryGet(q, "name") == Some(a.value);
      assert Trim(a.value) == a.value && !IsBlank(a.value);
    } else {
      assert QueryGet(q, "name") == None;
    }
    if b.Some? {
      assert QueryGet(q, "specialty") == QueryGet(q[|q| - 1..], "specialty");
      assert Trim(b.value) == b.value && !IsBlank(b.value);
    } else {
      assert QueryGet(q, "specialty") == None;
    }
    QueryMembers(q, therapists, t);
  }

  /** A specialty worth offering: set and not empty (`.filter(Boolean)`). */
  predicate OffersSpecialty(t: Therapist) {
    t.specialty.Some? && t.specialty.value != []
  }

  function SpecialtyText(t: Therapist): string {
    match t.specialty
    case Some(x) => x
    case None => []
  }

  /** `new Set(...)`: the first occurrence of each value, in order. */
  function Dedupe(s: seq<string>): (r: seq<string>)
    ensures forall x :: x in r <==> x in s
    ensures forall i, j :: 0 <= i < j < |r| ==> r[i] != r[j]
  {
    if s == [] then []
    else
      var d := Dedupe(s[..|s| - 1]);
      assert forall x :: x in s <==> x in s[..|s| - 1] || x == s[|s| - 1] by {
        assert s == s[..|s| - 1] + [s[|s| - 1]];
      }
      if s[|s| - 1] in d then d else d + [s[|s| - 1]]
  }

  /** `data.map(t => t.specialty).filter(Boolean)`: the non-empty specialties, in order. */
  function Offered(data: seq<Therapist>): seq<string> {
    Map(Filter(data, OffersSpecialty), SpecialtyText)
  }

  function SpecialtyKey(x: string): Key {
    StrKey(x)
  }

  /** The specialty choices: the distinct non-empty specialties, sorted. */
  function UniqueSpecialties(data: seq<Therapist>): seq<string> {
    Sort(Dedupe(Offered(data)), SpecialtyKey, Asc)
  }

  /** A list without repeats holds each value at most once. */
  lemma {:induction false} DistinctCounts(d: seq<string>, x: string)
    requires forall i, j :: 0 <= i < j < |d| ==> d[i] != d[j]
    ensures multiset(d)[x] <= 1
    decreases |d|
  {
    if d != [] {
      assert d == [d[0]] + d[1..];
      DistinctCounts(d[1..], x);
      if x == d[0] {
        assert x !in d[1..];
      }
    }
  }

  /** Two equal entries count twice. */
  lemma TwoOccurrences(r: seq<string>, i: nat, j: nat)
    requires i < j < |r| && r[i] == r[j]
    ensures multiset(r)[r[i]] >= 2
  {
    assert r == r[..i] + [r[i]] + r[i + 1..j] + [r[j]] + r[j + 1..];
  }

  /** A value is offered exactly when some therapist has it as a non-empty specialty. */
  lemma OfferedMembers(data: seq<Therapist>, x: string)
    ensures x in Offered(data) <==> exists t :: t in data && t.specialty == Some(x) && x != []
  {
    var f := Filter(data, OffersSpecialty);
    if x in Offered(data) {
      var k :| 0 <= k < |f| && Offered(data)[k] == x;
      assert f[k] in data;
    }
    if t :| t in data && t.specialty == Some(x) && x != [] {
      assert t in f;
      var k :| 0 <= k < |f| && f[k] == t;
      assert Offered(data)[k] == x;
    }
  }

  /** The choices are pairwise distinct and in ascending order. */
  lemma UniqueSpecialtiesSorted(data: seq<Therapist>)
    ensures var r := UniqueSpecialties(data);
      forall i, j :: 0 <= i < j < |r| ==> r[i] != r[j] && StrLeq(r[i], r[j])
  {
    var d := Dedupe(Offered(data));
    var r := UniqueSpecialties(data);
    SortSorted(d, SpecialtyKey, Asc);
    forall i, j | 0 <= i < j < |r|
      ensures r[i] != r[j] && StrLeq(r[i], r[j])
    {
      SortedAllPairs(r, SpecialtyKey, Asc, i, j);
      if r[i] == r[j] {
        TwoOccurrences(r, i, j);
        DistinctCounts(d, r[i]);
      }
    }
  }

  /** The choices are the offered specialties. */
  lemma UniqueSpecialtiesMembers(data: seq<Therapist>, x: string)
    ensures x in UniqueSpecialties(data) <==> exists t :: t in data && t.specialty == Some(x) && x != []
  {
    var d := Dedupe(Offered(data));
    assert x in UniqueSpecialties(data) <==> x in multiset(UniqueSpecialties(data));
    assert x in d <==> x in multiset(d);
    OfferedMembers(data, x);
  }

  /** The choices are exactly the non-empty specialties in the data, each once, in strictly
      increasing order. */
  lemma UniqueSpecialtiesSpec(data: seq<Therapist>)
    ensures var r := UniqueSpecialties(data);
      forall i, j :: 0 <= i < j < |r| ==> r[i] != r[j] && StrLeq(r[i], r[j])
    ensures forall x :: x in UniqueSpecialties(data) <==>
      exists t :: t in data && t.specialty == Some(x) && x != []
  {
    UniqueSpecialtiesSorted(data);
    forall x
      ensures x in UniqueSpecialties(data) <==> exists t :: t in data && t.specialty == Some(x) && x != []
    {
      UniqueSpecialtiesMembers(data, x);
    }
  }

  /** The component: the fetch state, the two filters and the specialty choices. */
  class TherapistsDirectory {
    var state: TherapistFetchState
    var searchName: string
    var filterSpecialty: string
    var specialties: seq<string>

    constructor()
      ensures state == InitialTherapistState && searchName == [] && filterSpecialty == [] && specialties == []
    {
      state := InitialTherapistState;
      searchName := [];
      filterSpecialty := [];
      specialties := [];
    }

    /** `fetchTherapists` followed by the effect on `state.data`: the choices are recomputed
        from every list that arrives and kept when the request fails. Returns the URL requested. */
    method FetchTherapists(name: Option<string>, specialty: Option<string>, result: FetchResult<seq<Therapist>>)
      returns (url: string)
      modifies this
      ensures url == RequestUrl(TherapistsPath, TherapistsQuery(name, specialty))
      ensures state == AfterTherapistFetch(result)
      ensures specialties == if state.data.Some? then UniqueSpecialties(state.data.value) else old(specialties)
      ensures searchName == old(searchName) && filterSpecialty == old(filterSpecialty)
    {
      state := state.(loading := true, error := None);
      url := RequestUrl(TherapistsPath, TherapistsQuery(name, specialty));
      state := AfterTherapistFetch(result);
      if state.data.Some? {
        specialties := UniqueSpecialties(state.data.value);
      }
    }

    /** `handleSearch`: fetches with both filters. */
    method HandleSearch(result: FetchResult<seq<Therapist>>) returns (url: string)
      modifies this
      ensures url == RequestUrl(TherapistsPath, TherapistsQuery(Some(old(searchName)), Some(old(filterSpecialty))))
      ensures state == AfterTherapistFetch(result)
      ensures specialties == if state.data.Some? then UniqueSpecialties(state.data.value) else old(specialties)
      ensures searchName == old(searchName) && filterSpecialty == old(filterSpecialty)
    {
      url := FetchTherapists(Some(searchName), Some(filterSpecialty), result);
    }

    /** `handleSpecialtyChange`: stores the specialty and fetches with it. */
    method HandleSpecialtyChange(newSpecialty: string, result: FetchResult<seq<Therapist>>) returns (url: string)
      modifies this
      ensures filterSpecialty == newSpecialty && searchName == old(searchName)
      ensures url == RequestUrl(TherapistsPath, TherapistsQuery(Some(old(searchName)), Some(newSpecialty)))
      ensures state == AfterTherapistFetch(result)
      ensures specialties == if state.data.Some? then UniqueSpecialties(state.data.value) else old(specialties)
    {
      filterSpecialty := newSpecialty;
      url := FetchTherapists(Some(searchName), Some(newSpecialty), result);
    }

    /** `handleReset`: clears both filters and fetches the whole directory. */
    method HandleReset(result: FetchResult<seq<Therapist>>) returns (url: string)
      modifies this
      ensures searchName == [] && filterSpecialty == []
      ensures url == TherapistsPath
      ensures state == AfterTherapistFetch(result)
      ensures specialties == if state.data.Some? then UniqueSpecialties(state.data.value) else old(specialties)
    {
      searchName := [];
      filterSpecialty := [];
      url := FetchTherapists(None, None, result);
    }
  }
}
