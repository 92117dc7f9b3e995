/**
 * The case-management dashboard's state: the case list, the selected case
 * ids and the four filter inputs, with the handlers that replace them.
 */
module Dashboard {
  import opened Seqs
  import opened Text
  import opened Cases
  import QuickStats

  /** A status that counts as active: open, in progress or with an expert assigned. */
  predicate IsActive(c: Case)
  {
    c.status in ["open", "in-progress", "expert-assigned"]
  }

  /** `activeCases`: the number of active cases. */
  function ActiveCount(cases: seq<Case>): nat
  {
    |Filter(cases, IsActive)|
  }

  /** The active count is the sum of the Open, In Progress and Expert Assigned stat cards. */
  lemma ActiveIsSumOfStatusCounts(cases: seq<Case>)
    ensures ActiveCount(cases)
         == QuickStats.CountStatus(cases, "open") + QuickStats.CountStatus(cases, "in-progress")
            + QuickStats.CountStatus(cases, "expert-assigned")
    ensures ActiveCount(cases) <= |cases|
  {
    var open := (c: Case) => c.status == "open";
    var progress := (c: Case) => c.status == "in-progress";
    var expertAssigned := (c: Case) => c.status == "expert-assigned";
    var openOrProgress := (c: Case) => c.status == "open" || c.status == "in-progress";
    var active := (c: Case) => c.status == "open" || c.status == "in-progress" || c.status == "expert-assigned";
    FilterCountDisjoint(cases, open, progress, openOrProgress);
    FilterCountDisjoint(cases, openOrProgress, expertAssigned, active);
    FilterCongruent(cases, active, IsActive);
  }

  /** The status filter a stat card sets, for the cards that set one. */
  function StatusOfCard(name: string): string
  {
    match name
    case "Open Cases" => "open"
    case "In Progress" => "in-progress"
    case "Expert Assigned" => "expert-assigned"
    case "Resolved Today" => "resolved"
    case _ => ""
  }

  /**
   * The filters after `handleQuickStatClick(name)`: search and module are
   * kept; Critical Issues selects critical severity and clears the status;
   * the Open, In Progress, Expert Assigned and Resolved Today cards select
   * their status and clear the severity; Total Cases and any other name
   * clear both.
   */
  function StatClickFilters(name: string, f: Filters): (r: Filters)
    ensures r.searchTerm == f.searchTerm && r.moduleName == f.moduleName
    ensures name == "Critical Issues" ==> r.status == "" && r.severity == "critical"
    ensures name == "Open Cases" ==> r.status == "open" && r.severity == ""
    ensures name == "In Progress" ==> r.status == "in-progress" && r.severity == ""
    ensures name == "Expert Assigned" ==> r.status == "expert-assigned" && r.severity == ""
    ensures name == "Resolved Today" ==> r.status == "resolved" && r.severity == ""
    ensures name !in ["Critical Issues", "Open Cases", "In Progress", "Expert Assigned", "Resolved Today"]
            ==> r.status == "" && r.severity == ""
  {
    if name == "Critical Issues" then f.(status := "", severity := "critical")
    else f.(status := StatusOfCard(name), severity := "")
  }

  /** With no search term and no module filter, filtering by one status shows exactly the cases with it. */
  lemma StatusFilterCount(cases: seq<Case>, f: Filters, status: string)
    requires f.searchTerm == "" && f.moduleName == "" && status != ""
    ensures |FilterCases(cases, f.(status := status, severity := ""))| == QuickStats.CountStatus(cases, status)
  {
    var g := f.(status := status, severity := "");
    forall i | 0 <= i < |cases| ensures MatchesFilters(cases[i], g) == (cases[i].status == status) {
      ContainsEmpty(Lower(cases[i].title));
    }
    FilterCasesBy(cases, g, (c: Case) => c.status == status);
  }

  /**
   * With no search term and no module filter, clicking a card shows as many
   * cases as the card counts (Resolved Today shows every resolved case, so
   * at least as many as it counts).
   */
  lemma StatClickShowsCardCount(cases: seq<Case>, f: Filters, todayStart: int)
    requires f.searchTerm == "" && f.moduleName == ""
    ensures |FilterCases(cases, StatClickFilters("Total Cases", f))| == |cases|
    ensures |FilterCases(cases, StatClickFilters("Open Cases", f))| == QuickStats.CountStatus(cases, "open")
    ensures |FilterCases(cases, StatClickFilters("In Progress", f))| == QuickStats.CountStatus(cases, "in-progress")
    ensures |FilterCases(cases, StatClickFilters("Expert Assigned", f))| == QuickStats.CountStatus(cases, "expert-assigned")
    ensures |FilterCases(cases, StatClickFilters("Critical Issues", f))| == QuickStats.CountCritical(cases)
    ensures |FilterCases(cases, StatClickFilters("Resolved Today", f))| >= QuickStats.CountResolvedToday(cases, todayStart)
  {
    assert StatClickFilters("Total Cases", f) == NoFilters;
    NoFiltersKeepAll(cases);
    StatusFilterCount(cases, f, "open");
    StatusFilterCount(cases, f, "in-progress");
    StatusFilterCount(cases, f, "expert-assigned");
    StatusFilterCount(cases, f, "resolved");
    var critical := StatClickFilters("Critical Issues", f);
    forall i | 0 <= i < |cases| ensures MatchesFilters(cases[i], critical) == (cases[i].severity == "critical") {
      ContainsEmpty(Lower(cases[i].title));
    }
    FilterCasesBy(cases, critical, (c: Case) => c.severity == "critical");
    QuickStats.StatusCountsWithinTotal(cases, todayStart);
  }

  /** The page's state. */
  class DashboardState {
    var cases: seq<Case>
    var selectedCases: seq<string>
    var searchTerm: string
    var statusFilter: string
    var moduleFilter: string
    var severityFilter: string

    /** The page starts from the loaded case list, with nothing selected and no filter. */
    constructor (initial: seq<Case>)
      ensures cases == initial && selectedCases == []
      ensures CurrentFilters() == NoFilters
    {
      cases := initial;
      selectedCases := [];
      searchTerm, statusFilter, moduleFilter, severityFilter := "", "", "", "";
    }

    function CurrentFilters(): Filters
      reads this
    {
      Filters(searchTerm, statusFilter, moduleFilter, severityFilter)
    }

    /** `filteredCases`. */
    function FilteredCases(): seq<Case>
      reads this
    {
      FilterCases(cases, CurrentFilters())
    }

    /** `activeCases`. */
    function ActiveCases(): nat
      reads this
    {
      ActiveCount(cases)
    }

    /** The new case goes before all others; nothing else changes. */
    method AddNewCase(c: Case)
      modifies this
      ensures cases == [c] + old(cases)
      ensures selectedCases == old(selectedCases) && CurrentFilters() == old(CurrentFilters())
    {
      cases := [c] + cases;
    }

    /** Removes every case with the id, and the id from the selection. */
    method DeleteCase(id: string)
      modifies this
      ensures cases == Filter(old(cases), (c: Case) => c.id != id)
      ensures selectedCases == Filter(old(selectedCases), (s: string) => s != id)
      ensures forall c :: c in cases <==> c in old(cases) && c.id != id
      ensures id !in selectedCases
      ensures CurrentFilters() == old(CurrentFilters())
    {
      cases := Filter(cases, (c: Case) => c.id != id);
      selectedCases := Filter(selectedCases, (s: string) => s != id);
    }

    /** Removes every case whose id is selected and empties the selection. */
    method DeleteSelectedCases()
      modifies this
      ensures cases == Filter(old(cases), (c: Case) => c.id !in old(selectedCases))
      ensures forall c :: c in cases <==> c in old(cases) && c.id !in old(selectedCases)
      ensures selectedCases == []
      ensures CurrentFilters() == old(CurrentFilters())
    {
      var selected := selectedCases;
      cases := Filter(cases, (c: Case) => c.id !in selected);
      selectedCases := [];
    }

    /** Selecting appends the id (duplicates allowed); deselecting removes every occurrence. */
    method HandleCaseSelect(id: string, isSelected: bool)
      modifies this
      ensures isSelected ==> selectedCases == old(selectedCases) + [id]
      ensures !isSelected ==> selectedCases == Filter(old(selectedCases), (s: string) => s != id)
      ensures !isSelected ==> forall s :: s in selectedCases <==> s in old(selectedCases) && s != id
      ensures cases == old(cases) && CurrentFilters() == old(CurrentFilters())
    {
      if isSelected {
        selectedCases := selectedCases + [id];
      } else {
        selectedCases := Filter(selectedCases, (s: string) => s != id);
      }
    }

    /** Selecting all takes exactly the ids of the filtered cases, in order; deselecting all empties the selection. */
    method HandleSelectAll(isSelected: bool)
      modifies this
      ensures selectedCases == if isSelected then Ids(old(FilteredCases())) else []
      ensures cases == old(cases) && CurrentFilters() == old(CurrentFilters())
    {
      selectedCases := if isSelected then Ids(FilteredCases()) else [];
    }

    method HandleClearFilters()
      modifies this
      ensures CurrentFilters() == NoFilters
      ensures cases == old(cases) && selectedCases == old(selectedCases)
    {
      searchTerm := "";
      statusFilter := "";
      moduleFilter := "";
      severityFilter := "";
    }

    method HandleQuickStatClick(name: string)
      modifies this
      ensures CurrentFilters() == StatClickFilters(name, old(CurrentFilters()))
      ensures cases == old(cases) && selectedCases == old(selectedCases)
    {
      match name
      case "Open Cases" =>
        statusFilter := "open";
        severityFilter := "";
      case "In Progress" =>
        statusFilter := "in-progress";
        severityFilter := "";
      case "Expert Assigned" =>
        statusFilter := "expert-assigned";
        severityFilter := "";
      case "Critical Issues" =>
        severityFilter := "critical";
        statusFilter := "";
      case "Resolved Today" =>
        statusFilter := "resolved";
        severityFilter := "";
      case "Total Cases" =>
        statusFilter := "";
        severityFilter := "";
      case _ =>
        statusFilter := "";
        severityFilter := "";
    }

    method SetSearchTerm(term: string)
      modifies this
      ensures CurrentFilters() == old(CurrentFilters()).(searchTerm := term)
      ensures cases == old(cases) && selectedCases == old(selectedCases)
    {
      searchTerm := term;
    }

    method SetStatusFilter(status: string)
      modifies this
      ensures CurrentFilters() == old(CurrentFilters()).(status := status)
      ensures cases == old(cases) && selectedCases == old(selectedCases)
    {
      statusFilter := status;
    }

    method SetModuleFilter(moduleName: string)
      modifies this
      ensures CurrentFilters() == old(CurrentFilters()).(moduleName := moduleName)
      ensures cases == old(cases) && selectedCases == old(selectedCases)
    {
      moduleFilter := moduleName;
    }

    method SetSeverityFilter(severity: string)
      modifies this
      ensures CurrentFilters() == old(CurrentFilters()).(severity := severity)
      ensures cases == old(cases) && selectedCases == old(selectedCases)
    {
      severityFilter := severity;
    }
  }
}
