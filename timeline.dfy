/**
 * The case timeline's entry list: a text search over title, description and
 * actor, an activity-type filter, a date-range filter relative to the start
 * of the current day, and the newest-first ordering.
 */
module Timeline {
  import opened Base
  import opened Seqs
  import opened Text
  import StableSort

  /** One millisecond day, the step of `setDate(getDate() - 1)` in a day without a clock change. */
  const Day := 86_400_000

  /** A timeline entry; its ISO-8601 timestamp is represented by its millisecond instant. */
  datatype Entry = Entry(
    id: nat,
    entryType: string,
    title: string,
    description: string,
    actor: string,
    timestamp: int)

  /**
   * The filter panel: an activity type or "all", a range name or "all", and
   * the custom range's start and end dates (the instant of the start of each
   * day), absent when the date input is empty.
   */
  datatype TimelineFilters = TimelineFilters(
    activityType: string,
    dateRange: string,
    startDate: Option<int>,
    endDate: Option<int>)

  const DefaultFilters := TimelineFilters("all", "all", None, None)

  /** The title, the description or the actor contains the query, ignoring case. */
  predicate MatchesQuery(e: Entry, query: string)
  {
    || Contains(Lower(e.title), Lower(query))
    || Contains(Lower(e.description), Lower(query))
    || Contains(Lower(e.actor), Lower(query))
  }

  /**
   * Whether an instant lies in the named range, given the instant the
   * current day starts. A custom range without both dates, and a range name
   * not listed, let everything through.
   */
  predicate InDateRange(ts: int, f: TimelineFilters, todayStart: int)
  {
    match f.dateRange
    case "today" => ts >= todayStart
    case "yesterday" => todayStart - Day <= ts < todayStart
    case "last_7_days" => ts >= todayStart - 7 * Day
    case "last_30_days" => ts >= todayStart - 30 * Day
    case "custom" =>
      if f.startDate.Some? && f.endDate.Some? then
        f.startDate.value <= ts <= f.endDate.value + Day - 1
      else true
    case _ => true
  }

  /** Each of the three filters, each switched off by its neutral value. */
  predicate PassesSearch(e: Entry, query: string)
  {
    query != "" ==> MatchesQuery(e, query)
  }

  predicate PassesType(e: Entry, f: TimelineFilters)
  {
    f.activityType != "all" ==> e.entryType == f.activityType
  }

  predicate PassesDate(e: Entry, f: TimelineFilters, todayStart: int)
  {
    f.dateRange != "all" ==> InDateRange(e.timestamp, f, todayStart)
  }

  predicate Keep(e: Entry, query: string, f: TimelineFilters, todayStart: int)
  {
    PassesSearch(e, query) && PassesType(e, f) && PassesDate(e, f, todayStart)
  }

  /** `new Date(b.timestamp) - new Date(a.timestamp) < 0`: `a` is the newer one. */
  predicate Newer(a: Entry, b: Entry)
  {
    a.timestamp > b.timestamp
  }

  lemma NewerOrder()
    ensures StableSort.StrictWeakOrder(Newer)
  {
  }

  /** `filteredEntries`: the entries passing every filter, newest first, ties in their listed order. */
  function FilteredEntries(entries: seq<Entry>, query: string, f: TimelineFilters, todayStart: int): seq<Entry>
  {
    StableSort.Sort(Filter(entries, e => Keep(e, query, f, todayStart)), Newer)
  }

  // ---------------------------------------------------------------------------
  // Properties

  /**
   * The list shows each entry passing the search, type and date filters as
   * often as it occurs and no other, newest first, and entries with the same
   * instant in their listed order.
   */
  lemma FilteredEntriesSpec(entries: seq<Entry>, query: string, f: TimelineFilters, todayStart: int)
    ensures var r := FilteredEntries(entries, query, f, todayStart);
      && (forall e :: e in r <==> e in entries && PassesSearch(e, query) && PassesType(e, f) && PassesDate(e, f, todayStart))
      && (forall e :: multiset(r)[e] == if Keep(e, query, f, todayStart) then multiset(entries)[e] else 0)
      && (forall i, j :: 0 <= i < j < |r| ==> r[i].timestamp >= r[j].timestamp)
      && (forall k :: StableSort.ClassOf(r, k, Newer) == StableSort.ClassOf(Filter(entries, e => Keep(e, query, f, todayStart)), k, Newer))
  {
    var keep := (e: Entry) => Keep(e, query, f, todayStart);
    var filtered := Filter(entries, keep);
    var r := FilteredEntries(entries, query, f, todayStart);
    StableSort.SortIsStable(filtered, Newer);
    FilterMultiset(entries, keep);
    forall e ensures e in r <==> e in filtered {
      assert e in r <==> e in multiset(r);
    }
  }

  /** With no query and both selectors on "all", every entry is listed, newest first. */
  lemma DefaultShowsEverything(entries: seq<Entry>, todayStart: int)
    ensures var r := FilteredEntries(entries, "", DefaultFilters, todayStart);
      && multiset(r) == multiset(entries)
      && (forall i, j :: 0 <= i < j < |r| ==> r[i].timestamp >= r[j].timestamp)
  {
    var keep := (e: Entry) => Keep(e, "", DefaultFilters, todayStart);
    FilterKeepsAll(entries, keep);
    StableSort.SortIsStable(entries, Newer);
  }

  /** "Yesterday" is the whole day before today and nothing of today. */
  lemma YesterdayIsTheDayBefore(ts: int, f: TimelineFilters, todayStart: int)
    requires f.dateRange == "yesterday"
    ensures InDateRange(ts, f, todayStart) <==> todayStart - Day <= ts && ts < todayStart
    ensures InDateRange(ts, f, todayStart) ==> !InDateRange(ts, f.(dateRange := "today"), todayStart)
  {
  }

  /** The ranges nest: today and yesterday lie in the last 7 days, which lie in the last 30. */
  lemma RangesNest(ts: int, f: TimelineFilters, todayStart: int)
    ensures InDateRange(ts, f.(dateRange := "today"), todayStart) ==> InDateRange(ts, f.(dateRange := "last_7_days"), todayStart)
    ensures InDateRange(ts, f.(dateRange := "yesterday"), todayStart) ==> InDateRange(ts, f.(dateRange := "last_7_days"), todayStart)
    ensures InDateRange(ts, f.(dateRange := "last_7_days"), todayStart) ==> InDateRange(ts, f.(dateRange := "last_30_days"), todayStart)
  {
  }

  /**
   * A custom range with both dates takes in the whole end day, up to its
   * last millisecond, and nothing after it; with a date missing it lets
   * everything through.
   */
  lemma CustomRangeCoversEndDay(ts: int, f: TimelineFilters, todayStart: int)
    requires f.dateRange == "custom"
    ensures f.startDate.Some? && f.endDate.Some? ==>
      (InDateRange(ts, f, todayStart) <==> f.startDate.value <= ts < f.endDate.value + Day)
    ensures f.startDate.None? || f.endDate.None? ==> InDateRange(ts, f, todayStart)
  {
  }

  // ---------------------------------------------------------------------------
  // The computation, filter by filter

  /** The filters of `filteredEntries`, each applied in turn when it is active. */
  method ApplyFilters(entries: seq<Entry>, query: string, f: TimelineFilters, todayStart: int)
    returns (filtered: seq<Entry>)
    ensures filtered == Filter(entries, e => Keep(e, query, f, todayStart))
  {
    var search := (e: Entry) => PassesSearch(e, query);
    var searchAndType := (e: Entry) => PassesSearch(e, query) && PassesType(e, f);
    var keep := (e: Entry) => Keep(e, query, f, todayStart);

    filtered := entries;
    if query != "" {
      filtered := Filter(filtered, (e: Entry) => MatchesQuery(e, query));
    }
    assert filtered == Filter(entries, search) by {
      if query != "" {
        FilterCongruent(entries, (e: Entry) => MatchesQuery(e, query), search);
      } else {
        FilterKeepsAll(entries, search);
      }
    }

    var activityType := f.activityType;
    if activityType != "all" {
      filtered := Filter(filtered, (e: Entry) => e.entryType == activityType);
    }
    assert filtered == Filter(entries, searchAndType) by {
      if activityType != "all" {
        FilterCompose(entries, search, (e: Entry) => e.entryType == activityType, searchAndType);
      } else {
        FilterCongruent(entries, search, searchAndType);
      }
    }

    if f.dateRange != "all" {
      filtered := Filter(filtered, (e: Entry) => InDateRange(e.timestamp, f, todayStart));
    }
    assert filtered == Filter(entries, keep) by {
      if f.dateRange != "all" {
        FilterCompose(entries, searchAndType, (e: Entry) => InDateRange(e.timestamp, f, todayStart), keep);
      } else {
        FilterCongruent(entries, searchAndType, keep);
      }
    }
  }

  /**
   * `filteredEntries` as the page computes it: copy the list, filter the
   * copy, sort the result in place. The listed entries themselves are left
   * as they are.
   */
  method ComputeFilteredEntries(timelineEntries: array<Entry>, query: string, f: TimelineFilters, todayStart: int)
    returns (r: seq<Entry>)
    ensures r == FilteredEntries(timelineEntries[..], query, f, todayStart)
  {
    var filtered := ApplyFilters(timelineEntries[..], query, f, todayStart);
    var a := new Entry[|filtered|](i requires 0 <= i < |filtered| => filtered[i]);
    assert a[..] == filtered;
    NewerOrder();
    StableSort.SortInPlace(a, Newer);
    r := a[..];
  }
}
