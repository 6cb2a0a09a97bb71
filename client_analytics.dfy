/**
 * The arithmetic and selection logic of the tenant analytics page: the window of page numbers
 * the pager shows, the previous/next guards, which statistics block is displayed, the query
 * parameters of an events request, and the label of an event type. Rendering and the React
 * state updates are not modelled.
 */
module ClientAnalytics {
  import opened Wrappers
  import opened Text

  const WINDOW: int := 5
  const EVENTS_LIMIT: nat := 15
  const ALL_TYPES: string := "all"

  // ---------------------------------------------------------------------------------------------
  // The pager.

  /** `Math.min(5, totalPages)`, and `Array.from` reads a negative length as 0. */
  function WindowLength(totalPages: int): (n: nat)
    ensures n <= WINDOW && n <= (if totalPages < 0 then 0 else totalPages)
    ensures n == WINDOW || n == totalPages || (totalPages < 0 && n == 0)
  {
    var m := if totalPages < WINDOW then totalPages else WINDOW;
    if m < 0 then 0 else m
  }

  /** The first number shown, from the four branches that choose `pageNum` for `i = 0`. */
  function WindowStart(page: int, totalPages: int): int {
    if totalPages <= WINDOW then 1
    else if page <= 3 then 1
    else if page >= totalPages - 2 then totalPages - 4
    else page - 2
  }

  /** `pageNum` for the `i`-th link. */
  function PageNum(i: int, page: int, totalPages: int): int {
    if totalPages <= WINDOW then i + 1
    else if page <= 3 then i + 1
    else if page >= totalPages - 2 then totalPages - 4 + i
    else page - 2 + i
  }

  /** The page numbers the pager links to, left to right. */
  function PageWindow(page: int, totalPages: int): (w: seq<int>)
    ensures |w| == WindowLength(totalPages)
    ensures forall i :: 0 <= i < |w| ==> w[i] == WindowStart(page, totalPages) + i
  {
    seq(WindowLength(totalPages), i requires 0 <= i < WindowLength(totalPages) => PageNum(i, page, totalPages))
  }

  /** The window holds `min(5, totalPages)` consecutive, ascending page numbers. */
  lemma WindowConsecutive(page: int, totalPages: int)
    requires totalPages >= 0
    ensures var w := PageWindow(page, totalPages);
      && |w| == (if totalPages < 5 then totalPages else 5)
      && (forall i :: 0 <= i < |w| - 1 ==> w[i + 1] == w[i] + 1)
  {
  }

  /**
   * For a current page in range, every number shown is a real page and the current page is
   * among them; once there are more than five pages, it sits in the middle whenever two pages
   * exist on each side of it.
   */
  lemma WindowCoversPage(page: int, totalPages: int)
    requires 1 <= page <= totalPages
    ensures var w := PageWindow(page, totalPages);
      && (forall i :: 0 <= i < |w| ==> 1 <= w[i] <= totalPages)
      && page in w
      && (totalPages > 5 && 3 < page < totalPages - 2 ==> w[2] == page)
  {
    var w := PageWindow(page, totalPages);
    var k := page - WindowStart(page, totalPages);
    assert 0 <= k < |w|;
    assert w[k] == page;
  }

  /** The pager is rendered only when there is more than one page. */
  predicate PagerShown(totalPages: int) {
    totalPages > 1
  }

  /** The page Previous loads, if it loads one. */
  function Previous(page: int): (r: Option<int>)
    ensures r.Some? <==> page > 1
    ensures r.Some? ==> r.value == page - 1
  {
    if page > 1 then Some(page - 1) else None
  }

  /** The page Next loads, if it loads one. */
  function Next(page: int, totalPages: int): (r: Option<int>)
    ensures r.Some? <==> page < totalPages
    ensures r.Some? ==> r.value == page + 1
  {
    if page < totalPages then Some(page + 1) else None
  }

  /** Previous and Next never leave `[1, totalPages]` from a page inside it. */
  lemma NavigationStaysInRange(page: int, totalPages: int)
    requires 1 <= page <= totalPages
    ensures Previous(page).Some? ==> 1 <= Previous(page).value <= totalPages
    ensures Next(page, totalPages).Some? ==> 1 <= Next(page, totalPages).value <= totalPages
    ensures PagerShown(totalPages) ==> Previous(page).Some? || Next(page, totalPages).Some?
  {
  }

  // ---------------------------------------------------------------------------------------------
  // Which statistics are shown.

  datatype Counts = Counts(leads: nat, appointments: nat, messages: nat, handoffs: nat, newConversations: nat)

  /** `StatsData`: each block may be missing from the response. */
  datatype StatsData = StatsData(lifetime: Option<Counts>, monthly: Option<Counts>, filtered: Option<Counts>)

  datatype ViewMode = Monthly | Lifetime

  /** `getStatsForView`; `None` is `null` or `undefined`, which the cards render the same way. */
  function StatsForView(stats: Option<StatsData>, isFiltered: bool, viewMode: ViewMode): (r: Option<Counts>)
    ensures stats.None? ==> r.None?
    ensures stats.Some? && isFiltered && stats.value.filtered.Some? ==> r == stats.value.filtered
    ensures stats.Some? && !(isFiltered && stats.value.filtered.Some?) ==>
      r == (if viewMode == Monthly then stats.value.monthly else stats.value.lifetime)
  {
    if stats.None? then None
    else if isFiltered && stats.value.filtered.Some? then stats.value.filtered
    else if viewMode == Monthly then stats.value.monthly
    else stats.value.lifetime
  }

  /** The shown block is always one the response carried: nothing is invented or mixed. */
  lemma StatsFromResponse(stats: Option<StatsData>, isFiltered: bool, viewMode: ViewMode)
    ensures var r := StatsForView(stats, isFiltered, viewMode);
      r.Some? ==> stats.Some? && r in {stats.value.lifetime, stats.value.monthly, stats.value.filtered}
    ensures !isFiltered ==> StatsForView(stats, isFiltered, viewMode) == StatsForView(stats, false, viewMode)
  {
  }

  /** A filtered view with no filtered block falls back to the view mode. */
  lemma FilteredFallsBack(stats: StatsData, viewMode: ViewMode)
    requires stats.filtered.None?
    ensures StatsForView(Some(stats), true, viewMode) == StatsForView(Some(stats), false, viewMode)
  {
  }

  // ---------------------------------------------------------------------------------------------
  // Events requests and labels.

  datatype EventParams = EventParams(page: int, limit: nat, startDate: Option<string>, endDate: Option<string>,
                                     eventType: Option<string>)

  /** The `params` of `loadEvents(pageNum)`: dates only when set, the type only when not `'all'`. */
  function LoadEventsParams(pageNum: int, startDate: string, endDate: string, eventTypeFilter: string): (p: EventParams)
    ensures p.page == pageNum && p.limit == EVENTS_LIMIT
    ensures p.startDate.Some? <==> startDate != ""
    ensures p.endDate.Some? <==> endDate != ""
    ensures p.eventType.Some? <==> eventTypeFilter != ALL_TYPES
    ensures p.startDate.Some? ==> p.startDate.value == startDate
    ensures p.endDate.Some? ==> p.endDate.value == endDate
    ensures p.eventType.Some? ==> p.eventType.value == eventTypeFilter
  {
    EventParams(pageNum, EVENTS_LIMIT,
                if startDate != "" then Some(startDate) else None,
                if endDate != "" then Some(endDate) else None,
                if eventTypeFilter != ALL_TYPES then Some(eventTypeFilter) else None)
  }

  /** `eventTypeLabels`. */
  const EVENT_TYPE_LABELS: map<string, string> := map[
    "LEAD" := "Lead",
    "APPOINTMENT" := "Cita",
    "MESSAGE" := "Mensaje",
    "HANDOFF" := "Handoff",
    "NEW_CONVERSATION" := "Nueva Conv."]

  /** `eventTypeLabels[eventType] || eventType`. */
  function EventLabel(eventType: string): (shown: string)
    ensures eventType !in EVENT_TYPE_LABELS ==> shown == eventType
    ensures eventType in EVENT_TYPE_LABELS ==> shown == EVENT_TYPE_LABELS[eventType]
  {
    if eventType in EVENT_TYPE_LABELS && EVENT_TYPE_LABELS[eventType] != "" then EVENT_TYPE_LABELS[eventType]
    else eventType
  }
}
