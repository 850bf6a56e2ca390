/** `GET /api/patients` (src/app/api/patients/route.ts): the patients whose name contains the
    `name` parameter, ignoring case, ordered by name. */
module PatientsRoute {
  import opened Opt
  import opened Strings
  import opened Sorting
  import opened Models
  import opened Validation
  import opened ApiHelpers
  import opened PublicReply

  const FetchPatientsFailed := "Failed to fetch patients"

  /** A patient passes when there is no name filter or its name contains the term. */
  predicate NameMatches(filter: Option<string>, p: Patient) {
    filter.None? || ContainsInsensitive(p.name, filter.value)
  }

  function NameKey(p: Patient): Key {
    StrKey(p.name)
  }

  /** The patients the request selects, in table order. */
  function Selected(query: seq<(string, string)>, patients: seq<Patient>): seq<Patient> {
    var filter := NonBlankTrimmed(QueryGet(query, "name"));
    Filter(patients, p => NameMatches(filter, p))
  }

  /** The patients the request selects, ordered by name. */
  function Query(query: seq<(string, string)>, patients: seq<Patient>): seq<Patient> {
    Sort(Selected(query, patients), NameKey, Asc)
  }

  /** The handler; `failure` is what the database call threw, if it threw. An empty result is
      still a 200. */
  function Get(url: ParsedUrl, patients: seq<Patient>, failure: Option<Thrown>): (r: Reply<seq<Patient>>)
    ensures failure.Some? ==> r == FailureReply(failure.value, FetchPatientsFailed)
    ensures failure.None? ==> r == Reply(200, Payload(Query(url.query, patients)))
  {
    match failure
    case Some(e) => FailureReply(e, FetchPatientsFailed)
    case None => Reply(200, Payload(Query(url.query, patients)))
  }

  /** A patient is listed exactly when it is in the table and its name contains the trimmed
      term, ignoring case; with an absent or blank term every patient is listed. */
  lemma QueryMembers(query: seq<(string, string)>, patients: seq<Patient>, p: Patient)
    ensures p in Query(query, patients) <==>
      p in patients && (var name := QueryGet(query, "name");
        name.None? || IsBlank(name.value) || ContainsInsensitive(p.name, Trim(name.value)))
  {
    var filter := NonBlankTrimmed(QueryGet(query, "name"));
    SortFilterMembers(patients, p => NameMatches(filter, p), NameKey, Asc, p);
  }

  /** The listed patients are a rearrangement of the selected ones, in ascending name order. */
  lemma QueryOrdered(query: seq<(string, string)>, patients: seq<Patient>)
    ensures var r := Query(query, patients);
      multiset(r) == multiset(Selected(query, patients))
      && forall i, j :: 0 <= i < j < |r| ==> StrLeq(r[i].name, r[j].name)
  {
    var selected := Selected(query, patients);
    var r := Query(query, patients);
    SortSorted(selected, NameKey, Asc);
    forall i, j | 0 <= i < j < |r|
      ensures StrLeq(r[i].name, r[j].name)
    {
      SortedAllPairs(r, NameKey, Asc, i, j);
    }
  }

  /** Without a name filter the whole table is listed, each patient as often as it occurs. */
  lemma NoFilterListsAll(patients: seq<Patient>)
    ensures multiset(Query([], patients)) == multiset(patients)
  {
    FilterAll(patients, p => NameMatches(None, p));
  }
}
