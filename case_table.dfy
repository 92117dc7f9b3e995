/**
 * The dashboard's case table: the filtered cases sorted by the column the
 * user chose, the sort configuration that clicking a column header toggles,
 * the "all selected" checkbox and the status and severity badges.
 */
module CaseTable {
  import opened Base
  import opened Seqs
  import opened Text
  import opened Cases
  import StableSort

  // ---------------------------------------------------------------------------
  // Sort configuration

  /** The sortable columns. */
  datatype SortKey = IdKey | TitleKey | StatusKey | ModuleKey | SeverityKey | CreatedAtKey

  datatype Direction = Asc | Desc

  datatype SortConfig = SortConfig(key: SortKey, direction: Direction)

  /** Newest cases first. */
  const InitialSortConfig := SortConfig(CreatedAtKey, Desc)

  /**
   * `handleSort(key)`: the clicked column becomes the key; the direction is
   * descending only when that column was already sorted ascending.
   */
  function NextSortConfig(prev: SortConfig, key: SortKey): (r: SortConfig)
    ensures r.key == key
    ensures r.direction == Desc <==> prev.key == key && prev.direction == Asc
  {
    SortConfig(key, if prev.key == key && prev.direction == Asc then Desc else Asc)
  }

  /** Clicking the same column twice from ascending returns to ascending; a new column always starts ascending. */
  lemma SortToggles(prev: SortConfig, key: SortKey)
    ensures prev.key != key ==> NextSortConfig(prev, key).direction == Asc
    ensures NextSortConfig(NextSortConfig(SortConfig(key, Asc), key), key) == SortConfig(key, Asc)
  {
  }

  /** The header icons. */
  datatype SortIconName = ArrowUpDown | ArrowUp | ArrowDown

  /** `getSortIcon(column)`: neutral for every column but the sorted one, which shows the direction. */
  function SortIcon(config: SortConfig, column: SortKey): (r: SortIconName)
    ensures r.ArrowUpDown? <==> column != config.key
    ensures r.ArrowUp? <==> column == config.key && config.direction.Asc?
    ensures r.ArrowDown? <==> column == config.key && config.direction.Desc?
  {
    if config.key != column then ArrowUpDown
    else if config.direction == Asc then ArrowUp else ArrowDown
  }

  // ---------------------------------------------------------------------------
  // The comparator

  /** `a[key] < b[key]`: creation dates compare as instants, the other columns as strings. */
  predicate KeyLess(key: SortKey, a: Case, b: Case)
  {
    match key
    case IdKey => StrLess(a.id, b.id)
    case TitleKey => StrLess(a.title, b.title)
    case StatusKey => StrLess(a.status, b.status)
    case ModuleKey => StrLess(a.moduleName, b.moduleName)
    case SeverityKey => StrLess(a.severity, b.severity)
    case CreatedAtKey => a.createdAt < b.createdAt
  }

  /** "a before b" for the comparator the table passes to `sort`: ascending or descending by the key. */
  predicate Before(config: SortConfig, a: Case, b: Case)
  {
    if config.direction == Asc then KeyLess(config.key, a, b) else KeyLess(config.key, b, a)
  }

  function Comparator(config: SortConfig): (Case, Case) -> bool
  {
    (a: Case, b: Case) => Before(config, a, b)
  }

  lemma KeyLessOrder(key: SortKey, a: Case, b: Case, c: Case)
    ensures KeyLess(key, a, b) ==> !KeyLess(key, b, a)
    ensures KeyLess(key, a, c) ==> KeyLess(key, a, b) || KeyLess(key, b, c)
  {
    match key
    case IdKey => StrLessStrictOrder(a.id, b.id, c.id);
    case TitleKey => StrLessStrictOrder(a.title, b.title, c.title);
    case StatusKey => StrLessStrictOrder(a.status, b.status, c.status);
    case ModuleKey => StrLessStrictOrder(a.moduleName, b.moduleName, c.moduleName);
    case SeverityKey => StrLessStrictOrder(a.severity, b.severity, c.severity);
    case CreatedAtKey =>
  }

  /** Every configuration's comparator is a strict weak order, so sorting by it is well defined. */
  lemma ComparatorOrder(config: SortConfig)
    ensures StableSort.StrictWeakOrder(Comparator(config))
  {
    forall a: Case, b: Case, c: Case
      ensures Before(config, a, b) ==> !Before(config, b, a)
      ensures Before(config, a, c) ==> Before(config, a, b) || Before(config, b, c)
    {
      KeyLessOrder(config.key, a, b, c);
      KeyLessOrder(config.key, c, b, a);
      KeyLessOrder(config.key, b, a, c);
    }
  }

  /** Severity sorts as text, not by rank: ascending order is critical, high, low, medium. */
  lemma SeveritySortsAlphabetically(a: Case, b: Case, c: Case, d: Case)
    requires a.severity == "critical" && b.severity == "high" && c.severity == "low" && d.severity == "medium"
    ensures Before(SortConfig(SeverityKey, Asc), a, b)
    ensures Before(SortConfig(SeverityKey, Asc), b, c)
    ensures Before(SortConfig(SeverityKey, Asc), c, d)
  {
    assert StrLess("critical", "high");
    assert StrLess("high", "low");
    assert StrLess("low", "medium");
  }

  // ---------------------------------------------------------------------------
  // Filtered and sorted cases

  /** `filteredAndSortedCases`: the cases passing the filters, stably sorted by the configuration. */
  function FilteredAndSorted(cases: seq<Case>, f: Filters, config: SortConfig): seq<Case>
  {
    StableSort.Sort(FilterCases(cases, f), Comparator(config))
  }

  /**
   * The table lists each case passing the filters exactly as often as it
   * occurs, and no other; no row has a key value that belongs before the
   * one of an earlier row; rows with equal key values keep their order.
   */
  lemma FilteredAndSortedSpec(cases: seq<Case>, f: Filters, config: SortConfig)
    ensures var r := FilteredAndSorted(cases, f, config);
      && multiset(r) == multiset(FilterCases(cases, f))
      && (forall c :: c in r <==> c in cases && MatchesFilters(c, f))
      && (forall i, j :: 0 <= i < j < |r| ==> !Before(config, r[j], r[i]))
      && (forall k :: StableSort.ClassOf(r, k, Comparator(config)) == StableSort.ClassOf(FilterCases(cases, f), k, Comparator(config)))
  {
    var r := FilteredAndSorted(cases, f, config);
    var filtered := FilterCases(cases, f);
    ComparatorOrder(config);
    StableSort.SortIsStable(filtered, Comparator(config));
    forall c ensures c in r <==> c in filtered {
      assert c in r <==> c in multiset(r);
    }
  }

  /** No row belongs before the first one. */
  lemma FirstRowFirst(cases: seq<Case>, f: Filters, config: SortConfig)
    requires FilterCases(cases, f) != []
    ensures var r := FilteredAndSorted(cases, f, config);
            r != [] && forall i :: 0 <= i < |r| ==> !Before(config, r[i], r[0])
  {
    var filtered := FilterCases(cases, f);
    ComparatorOrder(config);
    StableSort.SortIsStable(filtered, Comparator(config));
    StableSort.SortLength(filtered, Comparator(config));
  }

  /** Sorted ascending, the first row has the least key value; sorted descending, the greatest. */
  lemma FirstRowIsExtreme(cases: seq<Case>, f: Filters, key: SortKey)
    requires FilterCases(cases, f) != []
    ensures var up := FilteredAndSorted(cases, f, SortConfig(key, Asc));
            up != [] && forall i :: 0 <= i < |up| ==> !KeyLess(key, up[i], up[0])
    ensures var down := FilteredAndSorted(cases, f, SortConfig(key, Desc));
            down != [] && forall i :: 0 <= i < |down| ==> !KeyLess(key, down[0], down[i])
  {
    FirstRowFirst(cases, f, SortConfig(key, Asc));
    FirstRowFirst(cases, f, SortConfig(key, Desc));
  }

  // ---------------------------------------------------------------------------
  // Selection, badges, empty state

  /** `allSelected`: there is a row, and every row's id is selected. */
  predicate AllSelected(rows: seq<Case>, selected: seq<string>)
  {
    |rows| > 0 && forall i :: 0 <= i < |rows| ==> rows[i].id in selected
  }

  /**
   * After "select all" on the dashboard (the selection becomes the filtered
   * ids), the table's header checkbox is checked exactly when some case
   * passes the filters; after "deselect all" it is unchecked.
   */
  lemma SelectAllChecksHeader(cases: seq<Case>, f: Filters, config: SortConfig)
    ensures AllSelected(FilteredAndSorted(cases, f, config), Ids(FilterCases(cases, f))) <==> FilterCases(cases, f) != []
    ensures !AllSelected(FilteredAndSorted(cases, f, config), [])
  {
    var rows := FilteredAndSorted(cases, f, config);
    var filtered := FilterCases(cases, f);
    FilteredAndSortedSpec(cases, f, config);
    assert |rows| == |filtered| by {
      assert |multiset(rows)| == |multiset(filtered)|;
    }
    forall i | 0 <= i < |rows| ensures rows[i].id in Ids(filtered) {
      assert rows[i] in multiset(filtered);
      var j :| 0 <= j < |filtered| && filtered[j] == rows[i];
      assert Ids(filtered)[j] == rows[i].id;
    }
  }

  /** A badge's text colour, background and label. */
  datatype Badge = Badge(color: string, bg: string, text: string)

  const OpenBadge := Badge("text-primary", "bg-primary/10", "Open")
  const LowBadge := Badge("text-success", "bg-success/10", "Low")

  /** `statusConfig[status] || statusConfig.open`. */
  function StatusBadge(status: string): (r: Badge)
    ensures status !in ["open", "in-progress", "expert-assigned", "resolved", "closed"] ==> r == OpenBadge
    ensures status == "resolved" ==> r.text == "Resolved"
  {
    match status
    case "in-progress" => Badge("text-warning", "bg-warning/10", "In Progress")
    case "expert-assigned" => Badge("text-accent", "bg-accent/10", "Expert Assigned")
    case "resolved" => Badge("text-success", "bg-success/10", "Resolved")
    case "closed" => Badge("text-muted-foreground", "bg-muted", "Closed")
    case _ => OpenBadge
  }

  /** `severityConfig[severity] || severityConfig.low`. */
  function SeverityBadge(severity: string): (r: Badge)
    ensures severity !in ["low", "medium", "high", "critical"] ==> r == LowBadge
    ensures severity == "critical" ==> r.text == "Critical"
  {
    match severity
    case "medium" => Badge("text-warning", "bg-warning/10", "Medium")
    case "high" => Badge("text-error", "bg-error/10", "High")
    case "critical" => Badge("text-destructive", "bg-destructive/10", "Critical")
    case _ => LowBadge
  }

  /** The known statuses have distinct labels, so only unknown statuses share the Open badge. */
  lemma StatusBadgeFallback(status: string)
    ensures StatusBadge(status) == OpenBadge <==> status !in ["in-progress", "expert-assigned", "resolved", "closed"]
  {
  }

  /**
   * The empty-state text, shown exactly when there is no row: a hint to
   * adjust the filters when any filter is set, otherwise that no case exists.
   */
  function EmptyState(rows: seq<Case>, f: Filters): (r: Option<string>)
    ensures r.Some? <==> |rows| == 0
    ensures r.Some? ==> (r.value == "Try adjusting your filters or search terms" <==> f != NoFilters)
  {
    if |rows| != 0 then None
    else if f.searchTerm != "" || f.status != "" || f.moduleName != "" || f.severity != "" then
      Some("Try adjusting your filters or search terms")
    else
      Some("No cases have been created yet")
  }

  // ---------------------------------------------------------------------------
  // The component's state

  /** The table's own state: the sort configuration. */
  class CaseTableView {
    var sortConfig: SortConfig

    constructor ()
      ensures sortConfig == InitialSortConfig
    {
      sortConfig := InitialSortConfig;
    }

    method HandleSort(key: SortKey)
      modifies this
      ensures sortConfig == NextSortConfig(old(sortConfig), key)
    {
      sortConfig := SortConfig(key, if sortConfig.key == key && sortConfig.direction == Asc then Desc else Asc);
    }

    function GetSortIcon(column: SortKey): SortIconName
      reads this
    {
      SortIcon(sortConfig, column)
    }

    /** Filters the cases into a fresh array and sorts it in place by the current configuration. */
    method FilteredAndSortedCases(cases: seq<Case>, f: Filters) returns (r: seq<Case>)
      ensures r == FilteredAndSorted(cases, f, sortConfig)
    {
      var filtered := FilterCases(cases, f);
      var a := new Case[|filtered|](i requires 0 <= i < |filtered| => filtered[i]);
      assert a[..] == filtered;
      ComparatorOrder(sortConfig);
      StableSort.SortInPlace(a, Comparator(sortConfig));
      r := a[..];
    }
  }
}
