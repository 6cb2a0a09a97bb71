/**
 * The Google Calendar tools: `parseInputDate`, `calendarCheckAvailability` and
 * `calendarCreateAppointment`.
 *
 * Instants are milliseconds since the epoch; `None` is JavaScript's Invalid Date (a `NaN` time).
 * The date library is injected through `Env`: the current time, native `Date` parsing, the
 * server-local `new Date(y, m, d, h, mi)` constructor, the tenant-zone `toLocaleDateString('en-CA')`
 * and `toLocaleTimeString('es-MX')` renderings, and the ISO window the availability search is
 * widened to. The calendar service is `CalendarProvider`: a store of events per calendar with an
 * uninterpreted window test standing for what `events.list` returns for a time range.
 */
module Calendar {
  import opened Wrappers
  import opened Text
  import opened Tenants
  import Seqs

  const PER_LOCATION: string := "PER_LOCATION"
  const GLOBAL: string := "GLOBAL"
  const FREE_DAY: string := "Todo el día está libre."
  const DAY_HEADER: string := "Agenda del día:\n"
  const INVALID_DATE: string := "Invalid Date"
  const SUMMARY_PREFIX: string := "Evaluación Dental: "

  // ---------------------------------------------------------------------------------------------
  // Events, queries and collaborators.

  /** A calendar event: `start.dateTime`, `end.dateTime`, `summary`, `description`, and its id. */
  datatype Event = Event(id: nat, start: Option<string>, end: Option<string>, summary: Option<string>,
                         description: Option<string>)

  /** The `timeMin`/`timeMax` pair of an `events.list` call. */
  datatype Query = Query(timeMin: string, timeMax: string)

  datatype Env = Env(
    now: int,
    nativeParse: string -> Option<int>,
    localDate: (int, int, int, int, int) -> Option<int>,
    localDay: (int, string) -> string,
    localTime: (int, string) -> string,
    searchWindow: int -> Query)

  datatype CalendarError = ClientNotFound(clientId: string) | LocationNotFound(sede: string) | CreateFailed

  // ---------------------------------------------------------------------------------------------
  // parseInputDate

  /**
   * What `parseInputDate` recognised: the `DD.MM.YYYY[ HH:mm]` or `YYYY-MM-DD` shapes, passed to
   * the local-time constructor with a 0-based month, or any other text, passed to native parsing.
   */
  datatype DateShape = LocalDate(year: int, month0: int, day: int, hour: int, minute: int) | Native(text: string)

  /** `n` ASCII digits (`\d`) at position `i`. */
  predicate DigitsAt(s: string, i: int, n: nat) {
    0 <= i && i + n <= |s| && AllDigits(s[i..i + n])
  }

  /** `parseInt(s[i..i+n], 10)` of a run of digits. */
  function NumberAt(s: string, i: int, n: nat): nat
    requires DigitsAt(s, i, n)
  {
    DigitsValue(s[i..i + n])
  }

  /** `s` is a run of `\s` characters. */
  predicate AllSpace(s: string)
    decreases |s|
  {
    |s| == 0 || (IsJsSpace(s[0]) && AllSpace(s[1..]))
  }

  /** The optional `(?:\s+(\d{2}):(\d{2}))?` tail after `DD.MM.YYYY`, up to the end of input. */
  predicate TimeTail(r: string) {
    r == "" || (|r| >= 6 && AllSpace(r[..|r| - 5]) && DigitsAt(r, |r| - 5, 2) && r[|r| - 3] == ':'
                && DigitsAt(r, |r| - 2, 2))
  }

  /** `(\d{2})\.(\d{2})\.(\d{4})`. */
  predicate DmyDate(d: string) {
    |d| == 10 && DigitsAt(d, 0, 2) && d[2] == '.' && DigitsAt(d, 3, 2) && d[5] == '.' && DigitsAt(d, 6, 4)
  }

  predicate IsDmy(s: string) {
    |s| >= 10 && DmyDate(s[..10]) && TimeTail(s[10..])
  }

  predicate IsYmd(s: string) {
    |s| == 10 && DigitsAt(s, 0, 4) && s[4] == '-' && DigitsAt(s, 5, 2) && s[7] == '-' && DigitsAt(s, 8, 2)
  }

  /** `dmYMatch[4] ? parseInt(dmYMatch[4], 10) : 0`, and the same for the minute. */
  function TailHour(t: string): nat
    requires TimeTail(t)
  {
    if t == "" then 0 else NumberAt(t, |t| - 5, 2)
  }

  function TailMinute(t: string): nat
    requires TimeTail(t)
  {
    if t == "" then 0 else NumberAt(t, |t| - 2, 2)
  }

  function DmyShape(date: string, tail: string): DateShape
    requires DmyDate(date) && TimeTail(tail)
  {
    LocalDate(NumberAt(date, 6, 4), NumberAt(date, 3, 2) - 1, NumberAt(date, 0, 2), TailHour(tail), TailMinute(tail))
  }

  function ParseShape(s: string): (r: DateShape)
    ensures r.Native? <==> !IsDmy(s) && !IsYmd(s)
    ensures r.Native? ==> r.text == s
  {
    if IsDmy(s) then DmyShape(s[..10], s[10..])
    else if IsYmd(s) then
      LocalDate(NumberAt(s, 0, 4), NumberAt(s, 5, 2) - 1, NumberAt(s, 8, 2), 0, 0)
    else
      Native(s)
  }

  /** `parseInputDate(s).getTime()`. */
  function ParseInputDate(s: string, env: Env): Option<int> {
    match ParseShape(s)
    case LocalDate(y, m0, d, h, mi) => env.localDate(y, m0, d, h, mi)
    case Native(t) => env.nativeParse(t)
  }

  predicate DigitString(s: string, n: nat) {
    |s| == n && AllDigits(s)
  }

  /** The `DD.MM.YYYY` text of three digit strings. */
  function DmyText(dd: string, mm: string, yyyy: string): string {
    dd + "." + mm + "." + yyyy
  }

  /** The three numbers of a `DD.MM.YYYY` date. */
  lemma DmyDateParts(dd: string, mm: string, yyyy: string)
    requires DigitString(dd, 2) && DigitString(mm, 2) && DigitString(yyyy, 4)
    ensures DmyDate(DmyText(dd, mm, yyyy))
    ensures NumberAt(DmyText(dd, mm, yyyy), 0, 2) == DigitsValue(dd)
    ensures NumberAt(DmyText(dd, mm, yyyy), 3, 2) == DigitsValue(mm)
    ensures NumberAt(DmyText(dd, mm, yyyy), 6, 4) == DigitsValue(yyyy)
  {
    var d := DmyText(dd, mm, yyyy);
    assert d[0..2] == dd && d[3..5] == mm && d[6..10] == yyyy;
  }

  /** A date followed by a well-formed tail is parsed from its two parts. */
  lemma DmyConcat(d: string, t: string)
    requires DmyDate(d) && TimeTail(t)
    ensures ParseShape(d + t) == DmyShape(d, t)
  {
    assert (d + t)[..10] == d && (d + t)[10..] == t;
  }

  /** `DD.MM.YYYY` gives that day, month made 0-based, at 00:00. */
  lemma ParseDmy(dd: string, mm: string, yyyy: string)
    requires DigitString(dd, 2) && DigitString(mm, 2) && DigitString(yyyy, 4)
    ensures ParseShape(DmyText(dd, mm, yyyy))
         == LocalDate(DigitsValue(yyyy), DigitsValue(mm) - 1, DigitsValue(dd), 0, 0)
  {
    var d := DmyText(dd, mm, yyyy);
    DmyDateParts(dd, mm, yyyy);
    DmyConcat(d, "");
    assert d + "" == d;
  }

  /** The ` HH:mm` tail after the date, with any non-empty run of white space before the time. */
  function TimeSuffix(gap: string, hh: string, mi: string): string {
    gap + hh + ":" + mi
  }

  lemma TimeTailParts(gap: string, hh: string, mi: string)
    requires |gap| > 0 && AllSpace(gap) && DigitString(hh, 2) && DigitString(mi, 2)
    ensures TimeTail(TimeSuffix(gap, hh, mi))
    ensures TailHour(TimeSuffix(gap, hh, mi)) == DigitsValue(hh)
    ensures TailMinute(TimeSuffix(gap, hh, mi)) == DigitsValue(mi)
  {
    var t := TimeSuffix(gap, hh, mi);
    assert t[..|t| - 5] == gap;
    assert t[|t| - 5..|t| - 3] == hh;
    assert t[|t| - 2..|t|] == mi;
  }

  /** `DD.MM.YYYY HH:mm` gives that day, month made 0-based, at that hour and minute. */
  lemma ParseDmyTime(dd: string, mm: string, yyyy: string, gap: string, hh: string, mi: string)
    requires DigitString(dd, 2) && DigitString(mm, 2) && DigitString(yyyy, 4)
    requires |gap| > 0 && AllSpace(gap) && DigitString(hh, 2) && DigitString(mi, 2)
    ensures ParseShape(DmyText(dd, mm, yyyy) + TimeSuffix(gap, hh, mi))
         == LocalDate(DigitsValue(yyyy), DigitsValue(mm) - 1, DigitsValue(dd), DigitsValue(hh), DigitsValue(mi))
  {
    TimeTailParts(gap, hh, mi);
    ParseDmyTail(dd, mm, yyyy, TimeSuffix(gap, hh, mi));
  }

  /** A date followed by any well-formed tail takes its hour and minute from the tail. */
  lemma ParseDmyTail(dd: string, mm: string, yyyy: string, t: string)
    requires DigitString(dd, 2) && DigitString(mm, 2) && DigitString(yyyy, 4) && TimeTail(t)
    ensures ParseShape(DmyText(dd, mm, yyyy) + t)
         == LocalDate(DigitsValue(yyyy), DigitsValue(mm) - 1, DigitsValue(dd), TailHour(t), TailMinute(t))
  {
    DmyDateParts(dd, mm, yyyy);
    DmyConcat(DmyText(dd, mm, yyyy), t);
  }

  /** `YYYY-MM-DD` gives that day, month made 0-based, at 00:00. */
  lemma ParseYmd(yyyy: string, mm: string, dd: string)
    requires DigitString(yyyy, 4) && DigitString(mm, 2) && DigitString(dd, 2)
    ensures ParseShape(yyyy + "-" + mm + "-" + dd)
         == LocalDate(DigitsValue(yyyy), DigitsValue(mm) - 1, DigitsValue(dd), 0, 0)
  {
    YmdParts(yyyy, mm, dd);
  }

  /** The three numbers of a `YYYY-MM-DD` date, which is not also a `DD.MM.YYYY` one. */
  lemma YmdParts(yyyy: string, mm: string, dd: string)
    requires DigitString(yyyy, 4) && DigitString(mm, 2) && DigitString(dd, 2)
    ensures var s := yyyy + "-" + mm + "-" + dd;
      && IsYmd(s) && !IsDmy(s)
      && NumberAt(s, 0, 4) == DigitsValue(yyyy) && NumberAt(s, 5, 2) == DigitsValue(mm)
      && NumberAt(s, 8, 2) == DigitsValue(dd)
  {
    var s := yyyy + "-" + mm + "-" + dd;
    assert s[0..4] == yyyy && s[5..7] == mm && s[8..10] == dd;
    assert !IsDmy(s) by {
      assert IsDigit(s[2]);
    }
  }

  // ---------------------------------------------------------------------------------------------
  // Calendar-set selection.

  /** `clientConfig.availabilityStrategy || 'PER_LOCATION'`. */
  function Strategy(cfg: ClientConfig): string {
    if Given(cfg.availabilityStrategy) then cfg.availabilityStrategy.value else PER_LOCATION
  }

  /** The calendars `calendarCheckAvailability` reads. */
  function AvailabilitySelection(cfg: ClientConfig, sede: Option<string>): Result<seq<string>, CalendarError> {
    if Strategy(cfg) == GLOBAL then Ok(cfg.google.availabilityCalendars)
    else if Given(sede) then
      if sede.value in cfg.locations then Ok(cfg.locations[sede.value].google.availabilityCalendars)
      else Err(LocationNotFound(sede.value))
    else Ok(cfg.google.availabilityCalendars)
  }

  /** Where a booking is written and which calendars its conflict check reads. */
  datatype BookingPlan = BookingPlan(check: seq<string>, bookingCalendarId: string, location: Option<Location>)

  function BookingSelection(cfg: ClientConfig, sede: Option<string>): Result<BookingPlan, CalendarError> {
    var top := cfg.google.availabilityCalendars;
    var strategy := Strategy(cfg);
    if Given(sede) then
      if sede.value in cfg.locations then
        var loc := cfg.locations[sede.value];
        var scoped := if strategy == PER_LOCATION then loc.google.availabilityCalendars else top;
        Ok(BookingPlan(if strategy == GLOBAL then top else scoped, loc.google.bookingCalendarId, Some(loc)))
      else Err(LocationNotFound(sede.value))
    else
      Ok(BookingPlan(top, cfg.google.bookingCalendarId, None))
  }

  /**
   * Check-availability selection: GLOBAL always reads the top-level calendars and never rejects a
   * sede; otherwise (the default) a known sede reads its own calendars, an unknown one is an error,
   * and no sede reads the top-level calendars.
   */
  lemma AvailabilitySelectionRules(cfg: ClientConfig, sede: Option<string>)
    ensures var r := AvailabilitySelection(cfg, sede);
      && (!Given(cfg.availabilityStrategy) ==> Strategy(cfg) == PER_LOCATION)
      && (Strategy(cfg) == GLOBAL ==> r == Ok(cfg.google.availabilityCalendars))
      && (Strategy(cfg) != GLOBAL && Given(sede) && sede.value in cfg.locations ==>
            r == Ok(cfg.locations[sede.value].google.availabilityCalendars))
      && (Strategy(cfg) != GLOBAL && Given(sede) && sede.value !in cfg.locations ==>
            r == Err(LocationNotFound(sede.value)))
      && (!Given(sede) ==> r == Ok(cfg.google.availabilityCalendars))
      && (r.Err? <==> Strategy(cfg) != GLOBAL && Given(sede) && sede.value !in cfg.locations)
  {
  }

  /**
   * Booking selection: a named sede always books into its own booking calendar and an unknown sede
   * is an error under every strategy; the conflict check is scoped to the sede's calendars only
   * under PER_LOCATION.
   */
  lemma BookingSelectionRules(cfg: ClientConfig, sede: Option<string>)
    ensures var r := BookingSelection(cfg, sede);
      && (r.Err? <==> Given(sede) && sede.value !in cfg.locations)
      && (Given(sede) && sede.value in cfg.locations ==>
            var loc := cfg.locations[sede.value];
            && r.value.bookingCalendarId == loc.google.bookingCalendarId
            && r.value.location == Some(loc)
            && r.value.check == (if Strategy(cfg) == PER_LOCATION then loc.google.availabilityCalendars
                                 else cfg.google.availabilityCalendars))
      && (!Given(sede) ==> r == Ok(BookingPlan(cfg.google.availabilityCalendars, cfg.google.bookingCalendarId, None)))
  {
  }

  /**
   * The two selections disagree on a sede unknown to a GLOBAL tenant: checking availability
   * ignores it, booking rejects it.
   */
  lemma SelectionsDisagreeOnUnknownSede(cfg: ClientConfig, sede: string)
    requires Strategy(cfg) == GLOBAL && sede != "" && sede !in cfg.locations
    ensures AvailabilitySelection(cfg, Some(sede)).Ok?
    ensures BookingSelection(cfg, Some(sede)) == Err(LocationNotFound(sede))
  {
  }

  // ---------------------------------------------------------------------------------------------
  // Fetching events.

  /** The calendar service's state: events per calendar, plus what a listing for a window returns. */
  datatype Store = Store(events: map<string, seq<Event>>, matches: (Event, Query) -> bool)

  /** One `events.list` call: `None` when it errors (an unknown calendar). */
  function Listed(store: Store, calId: string, q: Query): Option<seq<Event>> {
    if calId in store.events then Some(Seqs.Filter(store.events[calId], e => store.matches(e, q))) else None
  }

  /** `Promise.all(calendars.map(list-or-[]))` followed by `.flat()`. */
  function FetchAll(store: Store, calendars: seq<string>, q: Query): (r: seq<Event>)
    ensures forall e :: e in r <==>
      exists i :: 0 <= i < |calendars| && calendars[i] in store.events && e in store.events[calendars[i]]
                  && store.matches(e, q)
    decreases |calendars|
  {
    if |calendars| == 0 then []
    else
      var rest := FetchAll(store, calendars[1..], q);
      assert forall i :: 1 <= i < |calendars| ==> calendars[1..][i - 1] == calendars[i];
      Listed(store, calendars[0], q).GetOr([]) + rest
  }

  lemma {:induction false} FetchAllAppend(store: Store, a: seq<string>, b: seq<string>, q: Query)
    ensures FetchAll(store, a + b, q) == FetchAll(store, a, q) + FetchAll(store, b, q)
    decreases |a|
  {
    if |a| == 0 {
      assert a + b == b;
    } else {
      assert (a + b)[0] == a[0];
      assert (a + b)[1..] == a[1..] + b;
      FetchAllAppend(store, a[1..], b, q);
    }
  }

  /** Calendars whose events did not change give the same listing. */
  lemma {:induction false} FetchAllUnchanged(s1: Store, s2: Store, calendars: seq<string>, q: Query)
    requires s1.matches == s2.matches
    requires forall c :: c in calendars ==>
      (c in s1.events <==> c in s2.events) && (c in s1.events ==> s1.events[c] == s2.events[c])
    ensures FetchAll(s1, calendars, q) == FetchAll(s2, calendars, q)
    decreases |calendars|
  {
    if |calendars| > 0 {
      assert calendars[0] in calendars;
      assert forall c :: c in calendars[1..] ==> c in calendars;
      FetchAllUnchanged(s1, s2, calendars[1..], q);
    }
  }

  /** A calendar whose listing errors contributes nothing; the other calendars are still read. */
  lemma FailingCalendarContributesNothing(store: Store, before: seq<string>, bad: string, after: seq<string>, q: Query)
    requires bad !in store.events
    ensures FetchAll(store, before + [bad] + after, q) == FetchAll(store, before, q) + FetchAll(store, after, q)
  {
    var b, a := FetchAll(store, before, q), FetchAll(store, after, q);
    FetchAllAppend(store, before + [bad], after, q);
    FetchAllAppend(store, before, [bad], q);
    UnknownCalendarEmpty(store, bad, q);
    assert FetchAll(store, before + [bad], q) == b + [];
    assert b + [] == b;
  }

  /** Listing an unknown calendar fails, and its failure is read as no events. */
  lemma UnknownCalendarEmpty(store: Store, bad: string, q: Query)
    requires bad !in store.events
    ensures FetchAll(store, [bad], q) == []
  {
    assert [bad][1..] == [];
    assert FetchAll(store, [bad][1..], q) == [];
  }

  // ---------------------------------------------------------------------------------------------
  // Day filter and sort.

  /** `toLocaleDateString('en-CA', { timeZone })`; an invalid date renders as `Invalid Date`. */
  function DayLabel(t: Option<int>, tz: string, env: Env): string {
    if t.Some? then env.localDay(t.value, tz) else INVALID_DATE
  }

  /** The day filter: a `start.dateTime`, whose local day in the tenant's zone is the target. */
  predicate OnDay(e: Event, tz: string, target: string, env: Env) {
    Given(e.start) && DayLabel(env.nativeParse(e.start.value), tz, env) == target
  }

  /** The sort key `new Date(a.start?.dateTime || 0).getTime()`. */
  function StartKey(e: Event, env: Env): int {
    if Given(e.start) then env.nativeParse(e.start.value).GetOr(0) else 0
  }

  predicate SortedBy(s: seq<Event>, env: Env) {
    forall i, j :: 0 <= i < j < |s| ==> StartKey(s[i], env) <= StartKey(s[j], env)
  }

  /**
   * Insert `e` before the first element whose key is not smaller; inserting each element into
   * the sorted rest keeps equal keys in their input order, as the stable `Array.prototype.sort` does.
   */
  function InsertByStart(e: Event, s: seq<Event>, env: Env): (r: seq<Event>)
    requires SortedBy(s, env)
    ensures SortedBy(r, env)
    ensures multiset(r) == multiset(s) + multiset{e}
    decreases |s|
  {
    if |s| == 0 then [e]
    else if StartKey(e, env) <= StartKey(s[0], env) then
      SortedHead(s, env);
      SortedCons(e, s, env);
      [e] + s
    else
      var rest := InsertByStart(e, s[1..], env);
      assert multiset(s) == multiset{s[0]} + multiset(s[1..]) by {
        assert s == [s[0]] + s[1..];
      }
      SortedHead(s, env);
      assert forall y :: y in rest ==> y == e || y in s[1..] by {
        forall y | y in rest ensures y == e || y in s[1..] {
          assert y in multiset(rest);
        }
      }
      SortedCons(s[0], rest, env);
      [s[0]] + rest
  }

  /** The head of a sorted sequence has the least key. */
  lemma SortedHead(s: seq<Event>, env: Env)
    requires |s| > 0 && SortedBy(s, env)
    ensures forall i :: 0 <= i < |s| ==> StartKey(s[0], env) <= StartKey(s[i], env)
    ensures forall x :: x in s[1..] ==> StartKey(s[0], env) <= StartKey(x, env)
  {
    forall x | x in s[1..] ensures StartKey(s[0], env) <= StartKey(x, env) {
      var j :| 0 <= j < |s[1..]| && s[1..][j] == x;
      assert s[j + 1] == x;
    }
  }

  /**
   * An event whose key is no greater than any in a sorted sequence can go in front of it; what
   * results holds that event and the sequence's own elements.
   */
  lemma SortedCons(x: Event, s: seq<Event>, env: Env)
    requires SortedBy(s, env)
    requires forall y :: y in s ==> StartKey(x, env) <= StartKey(y, env)
    ensures SortedBy([x] + s, env)
    ensures multiset([x] + s) == multiset{x} + multiset(s)
    ensures forall i :: 0 < i < |[x] + s| ==> ([x] + s)[i] == s[i - 1]
  {
    var r := [x] + s;
    forall i, j | 0 <= i < j < |r| ensures StartKey(r[i], env) <= StartKey(r[j], env) {
      assert r[j] == s[j - 1];
      if i > 0 {
        assert r[i] == s[i - 1];
      } else {
        assert s[j - 1] in s;
      }
    }
  }

  /** The ascending sort by start time. */
  function SortByStart(s: seq<Event>, env: Env): (r: seq<Event>)
    ensures SortedBy(r, env)
    ensures multiset(r) == multiset(s)
    decreases |s|
  {
    if |s| == 0 then []
    else
      assert s == [s[0]] + s[1..];
      InsertByStart(s[0], SortByStart(s[1..], env), env)
  }

  /** The events of the target day, ascending by start. */
  function DayEvents(all: seq<Event>, tz: string, target: string, env: Env): seq<Event> {
    SortByStart(Seqs.Filter(all, e => OnDay(e, tz, target, env)), env)
  }

  /**
   * The kept events are fetched events of the target day, every fetched event of the target day
   * is kept, with its multiplicity, and they are in ascending start order.
   */
  lemma DayEventsSpec(all: seq<Event>, tz: string, target: string, env: Env)
    ensures var r := DayEvents(all, tz, target, env);
      && SortedBy(r, env)
      && (forall e :: e in r <==> e in all && OnDay(e, tz, target, env))
      && multiset(r) == multiset(Seqs.Filter(all, e => OnDay(e, tz, target, env)))
  {
    var kept := Seqs.Filter(all, e => OnDay(e, tz, target, env));
    var r := DayEvents(all, tz, target, env);
    assert forall e :: e in r <==> e in multiset(r);
    assert forall e :: e in kept <==> e in multiset(kept);
  }

  // ---------------------------------------------------------------------------------------------
  // Busy slots and the slot check.

  /** `toLocaleTimeString('es-MX', …)` of an optional `dateTime`: `N/A` when absent. */
  function TimeLabel(dateTime: Option<string>, tz: string, env: Env): string {
    if Given(dateTime) then
      var t := env.nativeParse(dateTime.value);
      if t.Some? then env.localTime(t.value, tz) else INVALID_DATE
    else "N/A"
  }

  function BusySlot(e: Event, tz: string, env: Env): string {
    TimeLabel(e.start, tz, env) + " - " + TimeLabel(e.end, tz, env) + " (Ocupado)"
  }

  function BusySlots(events: seq<Event>, tz: string, env: Env): (r: seq<string>)
    ensures |r| == |events|
    ensures forall i :: 0 <= i < |r| ==> r[i] == BusySlot(events[i], tz, env)
  {
    seq(|events|, i requires 0 <= i < |events| => BusySlot(events[i], tz, env))
  }

  function DayContext(slots: seq<string>): string {
    if |slots| > 0 then DAY_HEADER + Join(slots, "\n") else FREE_DAY
  }

  /** The day is reported free exactly when no slot is busy; otherwise the header and the slots. */
  lemma DayContextSpec(slots: seq<string>)
    ensures DayContext(slots) == FREE_DAY <==> |slots| == 0
    ensures |slots| > 0 ==>
      StartsWith(DayContext(slots), DAY_HEADER) && DayContext(slots)[|DAY_HEADER|..] == Join(slots, "\n")
  {
    if |slots| > 0 {
      assert DayContext(slots)[0] == 'A' != FREE_DAY[0];
    }
  }

  /** `a < b` on JavaScript times: false when either side is `NaN`. */
  predicate Before(a: Option<int>, b: Option<int>) {
    a.Some? && b.Some? && a.value < b.value
  }

  /** `new Date(e.start?.dateTime || '')`: missing or empty is Invalid Date. */
  function EventTime(dateTime: Option<string>, env: Env): Option<int> {
    if Given(dateTime) then env.nativeParse(dateTime.value) else None
  }

  /** The half-open overlap test `checkStart < eventEnd && checkEnd > eventStart`. */
  predicate Overlaps(checkStart: Option<int>, checkEnd: Option<int>, e: Event, env: Env) {
    Before(checkStart, EventTime(e.end, env)) && Before(EventTime(e.start, env), checkEnd)
  }

  /** `events.find(overlapping)`. */
  function FirstConflict(events: seq<Event>, checkStart: Option<int>, checkEnd: Option<int>, env: Env): (r: Option<Event>)
    ensures r.None? <==> forall i :: 0 <= i < |events| ==> !Overlaps(checkStart, checkEnd, events[i], env)
    ensures r.Some? ==> exists i :: 0 <= i < |events| && events[i] == r.value
                                     && Overlaps(checkStart, checkEnd, events[i], env)
                                     && forall j :: 0 <= j < i ==> !Overlaps(checkStart, checkEnd, events[j], env)
    decreases |events|
  {
    if |events| == 0 then None
    else if Overlaps(checkStart, checkEnd, events[0], env) then Some(events[0])
    else
      var r := FirstConflict(events[1..], checkStart, checkEnd, env);
      assert forall i :: 1 <= i < |events| ==> events[1..][i - 1] == events[i];
      if r.Some? then
        var k :| 0 <= k < |events[1..]| && events[1..][k] == r.value
                 && Overlaps(checkStart, checkEnd, events[1..][k], env)
                 && forall j :: 0 <= j < k ==> !Overlaps(checkStart, checkEnd, events[1..][j], env);
        assert events[k + 1] == r.value;
        assert forall j :: 1 <= j < k + 1 ==> events[j] == events[1..][j - 1];
        r
      else r
  }

  /** Touching intervals do not overlap: a slot that starts when an event ends is free of it. */
  lemma TouchingIsFree(checkStart: int, checkEnd: int, e: Event, env: Env)
    requires EventTime(e.end, env) == Some(checkStart)
    ensures !Overlaps(Some(checkStart), Some(checkEnd), e, env)
  {
  }

  // ---------------------------------------------------------------------------------------------
  // calendarCheckAvailability

  datatype CheckArgs = CheckArgs(clientId: string, startTime: Option<string>, endTime: Option<string>,
                                 queryDate: Option<string>, sede: Option<string>)

  datatype ConflictDetails = ConflictDetails(start: Option<string>, end: Option<string>, summary: Option<string>)

  datatype Availability = Availability(available: bool, status: string, dayContext: string,
                                       conflict: Option<ConflictDetails>)

  /** The instant the search window is built around: the slot start, the query date, or now. */
  function TargetDate(args: CheckArgs, env: Env): Option<int> {
    if Given(args.startTime) then ParseInputDate(args.startTime.value, env)
    else if Given(args.queryDate) then ParseInputDate(args.queryDate.value, env)
    else Some(env.now)
  }

  /** The day string events are compared with: the literal query date when there is one. */
  function TargetDay(args: CheckArgs, tz: string, env: Env): string {
    if Given(args.queryDate) then args.queryDate.value
    else if Given(args.startTime) then DayLabel(ParseInputDate(args.startTime.value, env), tz, env)
    else env.localDay(env.now, tz)
  }

  /**
   * The fetched events: around an invalid target date every listing throws while building its
   * `toISOString()` window, inside the per-calendar `try`, so every calendar contributes nothing.
   */
  function FetchForCheck(store: Store, calendars: seq<string>, target: Option<int>, env: Env): seq<Event> {
    if target.Some? then FetchAll(store, calendars, env.searchWindow(target.value)) else []
  }

  function CheckAvailability(clients: Clients, store: Store, env: Env, args: CheckArgs): (r: Result<Availability, CalendarError>)
    ensures args.clientId !in clients <==> r == Err(ClientNotFound(args.clientId))
    ensures r.Ok? ==> (r.value.available <==> r.value.conflict.None?)
    ensures r.Ok? ==> r.value.status == (if r.value.available then "Slot available" else "Slot busy")
    ensures r.Ok? && !(Given(args.startTime) && Given(args.endTime)) ==> r.value.available
  {
    if args.clientId !in clients then Err(ClientNotFound(args.clientId))
    else
      var cfg := clients[args.clientId];
      match AvailabilitySelection(cfg, args.sede)
      case Err(e) => Err(e)
      case Ok(calendars) =>
        var events := DayEvents(FetchForCheck(store, calendars, TargetDate(args, env), env),
                                cfg.timezone, TargetDay(args, cfg.timezone, env), env);
        var context := DayContext(BusySlots(events, cfg.timezone, env));
        var conflict :=
          if Given(args.startTime) && Given(args.endTime)
          then FirstConflict(events, ParseInputDate(args.startTime.value, env), ParseInputDate(args.endTime.value, env), env)
          else None;
        var available := conflict.None?;
        Ok(Availability(available, if available then "Slot available" else "Slot busy", context,
                        if conflict.Some? then Some(ConflictDetails(conflict.value.start, conflict.value.end, conflict.value.summary))
                        else None))
  }

  /**
   * With both slot ends given, the slot is busy iff some event of the target day overlaps it,
   * and the reported conflict is the first such event in start order.
   */
  lemma SlotBusyIff(clients: Clients, store: Store, env: Env, args: CheckArgs)
    requires args.clientId in clients && Given(args.startTime) && Given(args.endTime)
    requires AvailabilitySelection(clients[args.clientId], args.sede).Ok?
    ensures var cfg := clients[args.clientId];
      var calendars := AvailabilitySelection(cfg, args.sede).value;
      var events := DayEvents(FetchForCheck(store, calendars, TargetDate(args, env), env),
                              cfg.timezone, TargetDay(args, cfg.timezone, env), env);
      var cs := ParseInputDate(args.startTime.value, env);
      var ce := ParseInputDate(args.endTime.value, env);
      var r := CheckAvailability(clients, store, env, args);
      && r.Ok?
      && (!r.value.available <==> exists i :: 0 <= i < |events| && Overlaps(cs, ce, events[i], env))
      && (!r.value.available ==>
            exists i :: (0 <= i < |events| && Overlaps(cs, ce, events[i], env)
              && r.value.conflict == Some(ConflictDetails(events[i].start, events[i].end, events[i].summary))
              && forall j :: 0 <= j < i ==> !Overlaps(cs, ce, events[j], env)))
  {
  }

  /**
   * The returned `dayContext` describes the kept events: the free-day text iff none are kept,
   * otherwise the header followed by one busy line per kept event, in start order.
   */
  lemma DayContextIff(clients: Clients, store: Store, env: Env, args: CheckArgs)
    requires args.clientId in clients
    requires AvailabilitySelection(clients[args.clientId], args.sede).Ok?
    ensures var cfg := clients[args.clientId];
      var calendars := AvailabilitySelection(cfg, args.sede).value;
      var events := DayEvents(FetchForCheck(store, calendars, TargetDate(args, env), env),
                              cfg.timezone, TargetDay(args, cfg.timezone, env), env);
      var r := CheckAvailability(clients, store, env, args);
      && r.Ok?
      && (r.value.dayContext == FREE_DAY <==> |events| == 0)
      && (|events| > 0 ==> r.value.dayContext == DAY_HEADER + Join(BusySlots(events, cfg.timezone, env), "\n"))
  {
    var cfg := clients[args.clientId];
    var calendars := AvailabilitySelection(cfg, args.sede).value;
    var events := DayEvents(FetchForCheck(store, calendars, TargetDate(args, env), env),
                            cfg.timezone, TargetDay(args, cfg.timezone, env), env);
    DayContextSpec(BusySlots(events, cfg.timezone, env));
  }

  /** An unknown sede is an error under the default strategy, and never under GLOBAL. */
  lemma CheckUnknownSede(clients: Clients, store: Store, env: Env, args: CheckArgs)
    requires args.clientId in clients && Given(args.sede) && args.sede.value !in clients[args.clientId].locations
    ensures var r := CheckAvailability(clients, store, env, args);
      r.Err? <==> Strategy(clients[args.clientId]) != GLOBAL
  {
  }

  // ---------------------------------------------------------------------------------------------
  // calendarCreateAppointment

  datatype BookArgs = BookArgs(clientId: string, nombre: string, telefono: string, startTime: string,
                               endTime: string, description: string, sede: Option<string>)

  /** The `scheduleAppointmentReminders` call; it resolves or rejects. */
  datatype ReminderRequest = ReminderRequest(clientId: string, phone: string, startTime: string, nombre: string,
                                             location: Option<Location>)

  /** `trackScheduleEvent`, started without waiting for it. */
  datatype ScheduleTracking = ScheduleTracking(clientId: string, phone: string)

  datatype BookingOutcome = Booked(eventId: nat, tracking: ScheduleTracking) | Refused

  datatype Booking = Booking(events: map<string, seq<Event>>, nextId: nat, outcome: Result<BookingOutcome, CalendarError>)

  /** The event a booking writes. */
  function NewEvent(id: nat, args: BookArgs): Event {
    Event(id, Some(args.startTime), Some(args.endTime), Some(SUMMARY_PREFIX + args.nombre), Some(args.description))
  }

  /**
   * The booking as a function of the calendar state: unknown tenant or sede, a refused slot when
   * any event comes back for the window, an insert, and then the reminders, whose failure is an
   * error although the event stays inserted.
   */
  function Book(clients: Clients, store: Store, nextId: nat, args: BookArgs, reminders: ReminderRequest -> bool): Booking {
    if args.clientId !in clients then Booking(store.events, nextId, Err(ClientNotFound(args.clientId)))
    else
      match BookingSelection(clients[args.clientId], args.sede)
      case Err(e) => Booking(store.events, nextId, Err(e))
      case Ok(plan) =>
        if |FetchAll(store, plan.check, Query(args.startTime, args.endTime))| > 0 then
          Booking(store.events, nextId, Ok(Refused))
        else if plan.bookingCalendarId !in store.events then
          Booking(store.events, nextId, Err(CreateFailed))
        else
          var cal := plan.bookingCalendarId;
          var written := store.events[cal := store.events[cal] + [NewEvent(nextId, args)]];
          if reminders(ReminderRequest(args.clientId, args.telefono, args.startTime, args.nombre, plan.location))
          then Booking(written, nextId + 1, Ok(Booked(nextId, ScheduleTracking(args.clientId, args.telefono))))
          else Booking(written, nextId + 1, Err(CreateFailed))
  }

  /**
   * The commit rule: a booking is refused, with nothing written, exactly when the conflict check
   * returns some event; unknown tenants are rejected before anything is read.
   */
  lemma BookingCommitRule(clients: Clients, store: Store, nextId: nat, args: BookArgs, reminders: ReminderRequest -> bool)
    ensures var b := Book(clients, store, nextId, args, reminders);
      && (args.clientId !in clients ==> b == Booking(store.events, nextId, Err(ClientNotFound(args.clientId))))
      && (args.clientId in clients && BookingSelection(clients[args.clientId], args.sede).Ok? ==>
            var plan := BookingSelection(clients[args.clientId], args.sede).value;
            var found := FetchAll(store, plan.check, Query(args.startTime, args.endTime));
            && (b.outcome == Ok(Refused) <==> |found| > 0)
            && (|found| > 0 ==> b.events == store.events && b.nextId == nextId))
  {
  }

  /**
   * A booking that gets past the conflict check appends exactly one event, with summary
   * `Evaluación Dental: <nombre>` and the requested start and end, to the booking calendar and
   * touches no other calendar; the reminders receive the sede's configuration.
   */
  lemma BookingWritesOneEvent(clients: Clients, store: Store, nextId: nat, args: BookArgs, reminders: ReminderRequest -> bool)
    requires args.clientId in clients && BookingSelection(clients[args.clientId], args.sede).Ok?
    ensures var plan := BookingSelection(clients[args.clientId], args.sede).value;
      var b := Book(clients, store, nextId, args, reminders);
      b.outcome.Ok? && b.outcome.value.Booked? ==>
        && plan.bookingCalendarId in store.events
        && b.events == store.events[plan.bookingCalendarId := store.events[plan.bookingCalendarId] + [NewEvent(nextId, args)]]
        && NewEvent(nextId, args).summary == Some(SUMMARY_PREFIX + args.nombre)
        && b.outcome.value.eventId == nextId
        && reminders(ReminderRequest(args.clientId, args.telefono, args.startTime, args.nombre, plan.location))
  {
  }

  /**
   * The same slot cannot be booked twice while the conflict check reads the booking calendar and
   * the provider lists the first booking for that window.
   */
  lemma SecondBookingRefused(clients: Clients, store: Store, nextId: nat, args: BookArgs, reminders: ReminderRequest -> bool)
    requires args.clientId in clients && BookingSelection(clients[args.clientId], args.sede).Ok?
    requires var plan := BookingSelection(clients[args.clientId], args.sede).value;
      plan.bookingCalendarId in plan.check
    requires store.matches(NewEvent(nextId, args), Query(args.startTime, args.endTime))
    requires Book(clients, store, nextId, args, reminders).outcome.Ok?
    requires Book(clients, store, nextId, args, reminders).outcome.value.Booked?
    ensures var b := Book(clients, store, nextId, args, reminders);
      Book(clients, Store(b.events, store.matches), b.nextId, args, reminders).outcome == Ok(Refused)
  {
    var plan := BookingSelection(clients[args.clientId], args.sede).value;
    var b := Book(clients, store, nextId, args, reminders);
    var after := Store(b.events, store.matches);
    var cal := plan.bookingCalendarId;
    var e := NewEvent(nextId, args);
    assert e in after.events[cal];
    var i :| 0 <= i < |plan.check| && plan.check[i] == cal;
    assert e in FetchAll(after, plan.check, Query(args.startTime, args.endTime));
  }

  /**
   * Under GLOBAL a sede's booking calendar is written but is not read by the conflict check unless
   * it is also among the top-level calendars: two identical bookings can then both succeed.
   */
  lemma GlobalDoubleBooking(clients: Clients, store: Store, nextId: nat, args: BookArgs, reminders: ReminderRequest -> bool)
    requires args.clientId in clients && Strategy(clients[args.clientId]) == GLOBAL
    requires Given(args.sede) && args.sede.value in clients[args.clientId].locations
    requires var loc := clients[args.clientId].locations[args.sede.value];
      loc.google.bookingCalendarId !in clients[args.clientId].google.availabilityCalendars
    requires Book(clients, store, nextId, args, reminders).outcome.Ok?
    requires Book(clients, store, nextId, args, reminders).outcome.value.Booked?
    ensures var b := Book(clients, store, nextId, args, reminders);
      Book(clients, Store(b.events, store.matches), b.nextId, args, reminders).outcome.Ok?
      && Book(clients, Store(b.events, store.matches), b.nextId, args, reminders).outcome.value.Booked?
  {
    var cfg := clients[args.clientId];
    var plan := BookingSelection(cfg, args.sede).value;
    var b := Book(clients, store, nextId, args, reminders);
    var after := Store(b.events, store.matches);
    var q := Query(args.startTime, args.endTime);
    var cal := plan.bookingCalendarId;
    assert plan.check == cfg.google.availabilityCalendars;
    assert |FetchAll(store, plan.check, q)| == 0;
    BookingWritesOneEvent(clients, store, nextId, args, reminders);
    assert after.events == store.events[cal := store.events[cal] + [NewEvent(nextId, args)]];
    FetchAllUnchanged(after, store, plan.check, q);
  }

  // ---------------------------------------------------------------------------------------------
  // The calendar service and the booking method.

  class CalendarProvider {
    var calendars: map<string, seq<Event>>
    var nextId: nat
    const matches: (Event, Query) -> bool

    function State(): Store
      reads this
    {
      Store(calendars, matches)
    }

    constructor (initial: map<string, seq<Event>>, listing: (Event, Query) -> bool)
      ensures calendars == initial && nextId == 0 && matches == listing
    {
      calendars := initial;
      nextId := 0;
      matches := listing;
    }

    /** `events.insert`: fails for an unknown calendar, else appends the event under a fresh id. */
    method Insert(calendarId: string, args: BookArgs) returns (id: Option<nat>)
      modifies this
      ensures calendarId !in old(calendars) ==> id.None? && calendars == old(calendars) && nextId == old(nextId)
      ensures calendarId in old(calendars) ==>
        && id == Some(old(nextId))
        && calendars == old(calendars)[calendarId := old(calendars)[calendarId] + [NewEvent(old(nextId), args)]]
        && nextId == old(nextId) + 1
    {
      if calendarId !in calendars {
        return None;
      }
      calendars := calendars[calendarId := calendars[calendarId] + [NewEvent(nextId, args)]];
      id := Some(nextId);
      nextId := nextId + 1;
    }
  }

  /** `calendarCreateAppointment` against the provider; it does what `Book` describes. */
  method CreateAppointment(provider: CalendarProvider, clients: Clients, args: BookArgs,
                           reminders: ReminderRequest -> bool)
    returns (outcome: Result<BookingOutcome, CalendarError>)
    modifies provider
    ensures Booking(provider.calendars, provider.nextId, outcome)
         == Book(clients, old(provider.State()), old(provider.nextId), args, reminders)
  {
    if args.clientId !in clients {
      return Err(ClientNotFound(args.clientId));
    }
    var selection := BookingSelection(clients[args.clientId], args.sede);
    if selection.Err? {
      return Err(selection.error);
    }
    var plan := selection.value;
    var conflictingEvents := FetchAll(provider.State(), plan.check, Query(args.startTime, args.endTime));
    if |conflictingEvents| > 0 {
      return Ok(Refused);
    }
    var id := provider.Insert(plan.bookingCalendarId, args);
    if id.None? {
      return Err(CreateFailed);
    }
    var reminded := reminders(ReminderRequest(args.clientId, args.telefono, args.startTime, args.nombre, plan.location));
    if !reminded {
      return Err(CreateFailed);
    }
    outcome := Ok(Booked(id.value, ScheduleTracking(args.clientId, args.telefono)));
  }
}
