/** `GET /api/therapists` (src/app/api/therapists/route.ts): the therapists selected by a
    case-insensitive name search and an exact specialty, ordered by name. */
module TherapistsRoute {
  import opened Opt
  import opened Strings
  import opened Sorting
  import opened Models
  import opened Validation
  import opened ApiHelpers
  import opened PublicReply

  const FetchTherapistsFailed := "Failed to fetch therapists"

  /** Both filters must pass; an unset filter passes every therapist. */
  predicate Matches(name: Option<string>, specialty: Option<string>, t: Therapist) {
    (name.None? || ContainsInsensitive(t.name, name.value))
    && (specialty.None? || t.specialty == Some(specialty.value))
  }

  function NameKey(t: Therapist): Key {
    StrKey(t.name)
  }

  /** The therapists the request selects, in table order. */
  function Selected(query: seq<(string, string)>, therapists: seq<Therapist>): seq<Therapist> {
    var name := NonBlankTrimmed(QueryGet(query, "name"));
    var specialty := NonBlankTrimmed(QueryGet(query, "specialty"));
    Filter(therapists, t => Matches(name, specialty, t))
  }

  /** The therapists the request selects, ordered by name. */
  function Query(query: seq<(string, string)>, therapists: seq<Therapist>): seq<Therapist> {
    Sort(Selected(query, therapists), NameKey, Asc)
  }

  /** The handler; `failure` is what the database call threw, if it threw. An empty result is
      still a 200. */
  function Get(url: ParsedUrl, therapists: seq<Therapist>, failure: Option<Thrown>): (r: Reply<seq<Therapist>>)
    ensures failure.Some? ==> r == FailureReply(failure.value, FetchTherapistsFailed)
    ensures failure.None? ==> r == Reply(200, Payload(Query(url.query, therapists)))
  {
    match failure
    case Some(e) => FailureReply(e, FetchTherapistsFailed)
    case None => Reply(200, Payload(Query(url.query, therapists)))
  }

  /** A therapist is listed exactly when it is in the table, its name contains the trimmed
      name term (ignoring case) and its specialty equals the trimmed specialty, each condition
      dropped when its parameter is absent or blank. */
  lemma QueryMembers(query: seq<(string, string)>, therapists: seq<Therapist>, t: Therapist)
    ensures t in Query(query, therapists) <==>
      t in therapists
      && (var name := QueryGet(query, "name");
          name.None? || IsBlank(name.value) || ContainsInsensitive(t.name, Trim(name.value)))
      && (var specialty := QueryGet(query, "specialty");
          specialty.None? || IsBlank(specialty.value) || t.specialty == Some(Trim(specialty.value)))
  {
    var name := NonBlankTrimmed(QueryGet(query, "name"));
    var specialty := NonBlankTrimmed(QueryGet(query, "specialty"));
    SortFilterMembers(therapists, t => Matches(name, specialty, t), NameKey, Asc, t);
  }

  lemma QueryOrdered(query: seq<(string, string)>, therapists: seq<Therapist>)
    ensures var r := Query(query, therapists);
      multiset(r) == multiset(Selected(query, therapists))
      && forall i, j :: 0 <= i < j < |r| ==> StrLeq(r[i].name, r[j].name)
  {
    var r := Query(query, therapists);
    SortSorted(Selected(query, therapists), NameKey, Asc);
    forall i, j | 0 <= i < j < |r|
      ensures StrLeq(r[i].name, r[j].name)
    {
      SortedAllPairs(r, NameKey, Asc, i, j);
    }
  }

  /** The specialty filter is case-sensitive: a therapist whose specialty differs from the
      term only in case is not listed. */
  lemma SpecialtyCaseSensitive(therapists: seq<Therapist>, t: Therapist, term: string)
    requires !IsBlank(term) && t.specialty.Some? && t.specialty.value != Trim(term)
    ensures t !in Query([("specialty", term)], therapists)
  {
    QueryMembers([("specialty", term)], therapists, t);
  }
}
