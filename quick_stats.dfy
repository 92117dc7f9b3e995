/**
 * The six dashboard stat cards: their counts over the case list and the
 * click and keyboard handlers that forward a card's label to the page.
 */
module QuickStats {
  import opened Base
  import opened Seqs
  import opened Cases

  /** Milliseconds in a calendar day (daylight-saving changes are not modelled). */
  const Day: int := 86_400_000

  datatype Stat = Stat(name: string, value: nat)

  /** `cases.filter(c => c.status === status).length`. */
  function CountStatus(cases: seq<Case>, status: string): nat
  {
    |Filter(cases, (c: Case) => c.status == status)|
  }

  function CountCritical(cases: seq<Case>): nat
  {
    |Filter(cases, (c: Case) => c.severity == "critical")|
  }

  /** Resolved, and last updated on the day starting at `todayStart`. */
  predicate ResolvedOn(c: Case, todayStart: int)
  {
    c.status == "resolved" && todayStart <= c.updatedAt < todayStart + Day
  }

  function CountResolvedToday(cases: seq<Case>, todayStart: int): nat
  {
    |Filter(cases, (c: Case) => ResolvedOn(c, todayStart))|
  }

  /** The cards in display order, each with its label and count. */
  function Stats(cases: seq<Case>, todayStart: int): (r: seq<Stat>)
    ensures |r| == 6
    ensures forall i :: 0 <= i < 6 ==> r[i].value <= |cases|
  {
    [
      Stat("Total Cases", |cases|),
      Stat("Open Cases", CountStatus(cases, "open")),
      Stat("In Progress", CountStatus(cases, "in-progress")),
      Stat("Expert Assigned", CountStatus(cases, "expert-assigned")),
      Stat("Critical Issues", CountCritical(cases)),
      Stat("Resolved Today", CountResolvedToday(cases, todayStart))
    ]
  }

  /**
   * A case has one status, so the Open, In Progress and Expert Assigned
   * counts never add up to more than the total; Resolved Today never
   * exceeds the number of resolved cases.
   */
  lemma StatusCountsWithinTotal(cases: seq<Case>, todayStart: int)
    ensures CountStatus(cases, "open") + CountStatus(cases, "in-progress") + CountStatus(cases, "expert-assigned") <= |cases|
    ensures CountResolvedToday(cases, todayStart) <= CountStatus(cases, "resolved")
  {
    var open := (c: Case) => c.status == "open";
    var progress := (c: Case) => c.status == "in-progress";
    var expertAssigned := (c: Case) => c.status == "expert-assigned";
    var openOrProgress := (c: Case) => c.status == "open" || c.status == "in-progress";
    var active := (c: Case) => c.status == "open" || c.status == "in-progress" || c.status == "expert-assigned";
    FilterCountDisjoint(cases, open, progress, openOrProgress);
    FilterCountDisjoint(cases, openOrProgress, expertAssigned, active);
    FilterCountMonotone(cases, (c: Case) => ResolvedOn(c, todayStart), (c: Case) => c.status == "resolved");
  }

  /** `handleCardClick`: the label passed to the callback, or nothing when no callback is supplied. */
  function HandleCardClick(stat: Stat, hasCallback: bool): (r: Option<string>)
    ensures r.Some? <==> hasCallback
    ensures r.Some? ==> r.value == stat.name
  {
    if hasCallback then Some(stat.name) else None
  }

  /** What a key press on a card does: whether the default is prevented and what the callback receives. */
  datatype KeyOutcome = KeyOutcome(preventDefault: bool, callback: Option<string>)

  /** `handleKeyDown`: Enter and Space act as a click, every other key does nothing. */
  function HandleKeyDown(key: string, stat: Stat, hasCallback: bool): (r: KeyOutcome)
    ensures r.preventDefault <==> key == "Enter" || key == " "
    ensures r.preventDefault ==> r.callback == HandleCardClick(stat, hasCallback)
    ensures !r.preventDefault ==> r.callback == None
  {
    if key == "Enter" || key == " " then KeyOutcome(true, HandleCardClick(stat, hasCallback))
    else KeyOutcome(false, None)
  }
}
