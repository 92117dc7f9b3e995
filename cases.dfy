/**
 * The case record shown on the dashboard, and the four-way filter (search
 * term, status, module, severity) that the dashboard page and the case
 * table apply identically.
 */
module Cases {
  import opened Text
  import opened Seqs

  /** A case; its ISO-8601 dates are represented by their millisecond timestamps. */
  datatype Case = Case(
    id: string,
    title: string,
    description: string,
    status: string,
    moduleName: string,
    severity: string,
    expertAccepted: bool,
    createdAt: int,
    updatedAt: int)

  /** The dashboard's filter inputs; the empty string means "no filter". */
  datatype Filters = Filters(
    searchTerm: string,
    status: string,
    moduleName: string,
    severity: string)

  const NoFilters := Filters("", "", "", "")

  /** The title or the description contains the search term, ignoring case. */
  predicate MatchesSearch(c: Case, term: string)
  {
    Contains(Lower(c.title), Lower(term)) || Contains(Lower(c.description), Lower(term))
  }

  /** An empty filter value accepts every field value; otherwise they must be equal. */
  predicate MatchesField(filter: string, value: string)
  {
    filter == "" || value == filter
  }

  predicate MatchesFilters(c: Case, f: Filters)
  {
    && MatchesSearch(c, f.searchTerm)
    && MatchesField(f.status, c.status)
    && MatchesField(f.moduleName, c.moduleName)
    && MatchesField(f.severity, c.severity)
  }

  /** The cases passing the filters, in their original order. */
  function FilterCases(cases: seq<Case>, f: Filters): seq<Case>
  {
    Filter(cases, c => MatchesFilters(c, f))
  }

  /**
   * The filter keeps, in original order and with their multiplicity,
   * exactly the cases whose title or description contains the search term
   * (ignoring case) and whose status, module and severity equal each
   * non-empty filter value.
   */
  lemma FilterCasesSpec(cases: seq<Case>, f: Filters)
    ensures forall c :: c in FilterCases(cases, f) <==>
      && c in cases
      && (Contains(Lower(c.title), Lower(f.searchTerm)) || Contains(Lower(c.description), Lower(f.searchTerm)))
      && (f.status == "" || c.status == f.status)
      && (f.moduleName == "" || c.moduleName == f.moduleName)
      && (f.severity == "" || c.severity == f.severity)
    ensures forall c :: multiset(FilterCases(cases, f))[c] == if MatchesFilters(c, f) then multiset(cases)[c] else 0
    ensures IsSubsequence(FilterCases(cases, f), cases)
  {
    var keep := (c: Case) => MatchesFilters(c, f);
    assert FilterCases(cases, f) == Filter(cases, keep);
    FilterMultiset(cases, keep);
    FilterIsSubsequence(cases, keep);
  }

  /** With every filter empty, every case passes. */
  lemma NoFiltersKeepAll(cases: seq<Case>)
    ensures FilterCases(cases, NoFilters) == cases
  {
    forall i | 0 <= i < |cases| ensures MatchesFilters(cases[i], NoFilters) {
      ContainsEmpty(Lower(cases[i].title));
    }
    FilterKeepsAll(cases, c => MatchesFilters(c, NoFilters));
  }

  /** The case filter coincides with any predicate that agrees with it on every case. */
  lemma FilterCasesBy(cases: seq<Case>, f: Filters, p: Case -> bool)
    requires forall i :: 0 <= i < |cases| ==> MatchesFilters(cases[i], f) == p(cases[i])
    ensures FilterCases(cases, f) == Filter(cases, p)
  {
    FilterCongruent(cases, c => MatchesFilters(c, f), p);
  }

  /** The ids of the cases, in order (`cases.map(c => c.id)`). */
  function Ids(cases: seq<Case>): (r: seq<string>)
    ensures |r| == |cases|
    ensures forall i :: 0 <= i < |cases| ==> r[i] == cases[i].id
  {
    seq(|cases|, i requires 0 <= i < |cases| => cases[i].id)
  }
}
