# EmyFlow core, modelled in Dafny

EmyFlow is a multi-tenant WhatsApp automation back end for dental clinics. This project models:

- **The WhatsApp webhook router.** It handles human-agent handoff suppression, the `humano` label, lead deduplication through a TTL cache, and per-conversation message debouncing.
- **The cache-cleanup test** that exercises the router's sweep.
- **The Google Calendar tools:** `parseInputDate`, the availability check and appointment booking.
- **The Meta Conversions API tool.**
- **The Wassenger CRM tools.**
- **The admin back end:** its input schemas and the paginated client list endpoint.
- **The tenant migration script.**
- **The HTTP entry point:** the bounded in-memory log, MCP-over-SSE session bookkeeping, and the `/messages` and catch-all routes.
- **Two admin pages:** the analytics pager and statistics selection, and the client search.

One Dafny module per source file (listed under Modules below) follows that file's own style:

- **Imperative code** becomes classes over the state the code mutates:
  - `Webhook.WebhookRouter` holds the three process-wide maps;
  - `CacheCleanupTest.TestCaches`, `Server.MemoryLog`, `Server.SessionRegistry` and `Calendar.CalendarProvider`.
  - Each class method is proved equal to a pure step function on a state value. The properties that relate several steps are lemmas about those functions.
- **Pure code** becomes functions and lemmas.

Collaborators are parameters: the tenant store, the calendar service, Wassenger and the Graph API, sha256, AES-GCM, Prisma, zod's URL and e-mail checks, and the clock. JavaScript truthiness of an optional string is `Text.Given`: present and non-empty.

Three behaviours of the code worth noting:

- **Check order.** The router checks the temporary handoff before the `humano` label (`src/routes/webhooks.ts:115-144`).
- **Cache keys.** The handoff and buffer maps are keyed by the bare JID and the bare phone number, not by tenant-prefixed keys. Only the lead cache key carries the slug, and an unresolved slug interpolates as `null` (`src/routes/webhooks.ts:178`).
- **Unknown strategy string.** Availability selection treats it like `PER_LOCATION`. Booking applies neither the `PER_LOCATION` scoping nor the `GLOBAL` override for it (`src/tools/calendar.ts:50-65`, `src/tools/calendar.ts:219-240`).

Modules: `Wrappers` (Option, Result), `Text` (JavaScript string operations), `Seqs` (`filter`), `Tenants` (static tenant configuration), `TtlCache`, `Webhook`, `CacheCleanupTest`, `Calendar`, `Marketing`, `Crm`, `Validators`, `ClientsController`, `MigrateClients`, `Server`, `ClientAnalytics`, `ClientList`.

## Model

| member | source | states |
|---|---|---|
| TtlCache.Swept | src/routes/webhooks.ts:35-59 | Definition of a sweep's result: the entries whose age is not above the TTL. `TtlCache.Sweep`, `LiveSurvivesSweep` and `SweepIdempotent` state its properties. |
| TtlCache.Sweep | src/routes/webhooks.ts:35-59 | The loop deletes exactly the entries whose age is strictly above the TTL. It keeps the others unchanged and counts the deletions. |
| TtlCache.LiveSurvivesSweep | src/routes/webhooks.ts:42 | An entry the request path considers live (age below the TTL) is never removed by a sweep. |
| TtlCache.BoundaryNeitherLiveNorSwept | src/routes/webhooks.ts:179 | At age exactly the TTL, an entry is not live, yet the sweep keeps it. The two tests are not complementary. |
| TtlCache.SweepIdempotent | src/routes/webhooks.ts:35-59 | A second sweep at the same instant removes nothing more. |
| Webhook.Handle | src/routes/webhooks.ts:69-273 | Definition of one delivery's step: new state, reply and effects. The `Webhook` lemmas below state its properties, `ClaimIff` and `StepKeepsLiveClaim` among them. |
| Webhook.Outbound | src/routes/webhooks.ts:76-102 | Definition of the outbound branch. `OutboundStampsHandoff` states its properties. |
| Webhook.OutboundStampsHandoff | src/routes/webhooks.ts:76-102 | A human-agent outbound message with a `to` sets `handoff[to] = now` and replies OK, leaving the lead cache, the buffer and the in-flight calls unchanged. Any other outbound event changes nothing. |
| Webhook.MissingDataAcknowledged | src/routes/webhooks.ts:104-107 | An inbound event without `fromNumber` or `body` is acknowledged with no state change and no effect. |
| Webhook.HandoffSuppressionIff | src/routes/webhooks.ts:115-126 | An inbound message is suppressed by handoff iff the sender's JID record is live, and then nothing changes. A record found expired is deleted. |
| Webhook.LabelAlwaysSuppresses | src/routes/webhooks.ts:140-144 | With the `humano` label, the reply is a suppression: by handoff if that record is live, else by label. Nothing is buffered, claimed or started. |
| Webhook.CrmLabelSuppresses | src/tools/crm.ts:71-83 | The label `crmHandoffHuman` requests is the one the router suppresses on. Such a chat is never buffered. |
| Webhook.LeadStage | src/routes/webhooks.ts:173-186 | Definition of the lead stage: check, claim, sweep and tracking call. `LeadStageClaims` and `ClaimIff` state its properties. |
| Webhook.LeadStageClaims | src/routes/webhooks.ts:173-186 | When every condition holds, the lead stage writes the cache key at `now`, starts exactly one tracking call and keeps every live entry. Otherwise it changes nothing. |
| Webhook.ClaimIff | src/routes/webhooks.ts:156-186 | A webhook delivery claims a lead iff all claim conditions hold. A claim writes the key at `now`, adds the call to the in-flight set and fires exactly one tracking call for that key. Without a claim, no lead entry is added or changed and no tracking call starts. |
| Webhook.ConversationEventsUntracked | src/routes/webhooks.ts:161-166 | The MESSAGE and NEW_CONVERSATION records are never tracking calls. |
| Webhook.FiredAppend | src/routes/webhooks.ts:190 | The tracking calls for a key in two effect lists add up. |
| Webhook.FiredNone | src/routes/webhooks.ts:190 | A list with no tracking call fires none for any key. |
| Webhook.FiredSingle | src/routes/webhooks.ts:190 | A single effect fires one call for a key iff it is that key's tracking call. |
| Webhook.StepKeepsLiveClaim | src/routes/webhooks.ts:179-181 | While a claim is live, no event of any kind changes it or starts another tracking call for that key. |
| Webhook.LeadResult | src/routes/webhooks.ts:195-213 | Definition of a settled tracking call. `LeadResultReleasesOnFailure` and `FailedLeadCanRetry` state its properties. |
| Webhook.LeadResultReleasesOnFailure | src/routes/webhooks.ts:195-213 | A settled call leaves the in-flight set. On success the claim is kept and the LEAD record and the metadata mark are started. On failure or rejection the key is deleted. |
| Webhook.FailedLeadCanRetry | src/routes/webhooks.ts:173-213 | After a failed tracking call, the next delivery for the same key that meets the other claim conditions claims again, even within the TTL, and fires exactly one new tracking call. |
| Webhook.BufferStage | src/routes/webhooks.ts:224-236 | Definition of buffering a body and replacing the timer. `BufferAppends` and `DebounceAccumulates` state its properties. |
| Webhook.BufferAppends | src/routes/webhooks.ts:224-236 | Buffering appends the body in arrival order and replaces the entry's single timer by one due 15 s later that captured this event. Other conversations are untouched. |
| Webhook.Flush | src/routes/webhooks.ts:236-265 | Definition of the timer callback. `FlushJoinsAndDeletes` and `DebouncedFlushJoinsAll` state its properties. |
| Webhook.FlushJoinsAndDeletes | src/routes/webhooks.ts:236-265 | A fired flush deletes the entry and joins its bodies with single spaces. It delivers iff the captured device's tenant has a webhook URL, and the delivered data is the captured data with the joined body. |
| Webhook.SweepKeepsLive | src/routes/webhooks.ts:186 | The sweep that follows a claim keeps every live lead entry. |
| Webhook.LiveClaimBlocksRefire | src/routes/webhooks.ts:177-186 | While a claim is within its TTL, no sequence of deliveries starts a second tracking call for it, and the claim is kept. |
| Webhook.BurstFiresOnce | src/routes/webhooks.ts:177-186 | A burst of deliveries within the TTL of the claiming one fires `trackLeadEvent` exactly once for that conversation. |
| Webhook.DebounceAccumulates | src/routes/webhooks.ts:115-236 | Consecutive deliveries for one number, with no live handoff record for the sender's JID and no `humano` label, accumulate all their bodies in order in one entry. Its one timer is due 15 s after the last delivery. |
| Webhook.BuffersHead | src/routes/webhooks.ts:115-236 | The first buffered delivery of a run appends its body and sets the timer from its own time. The handoff map only loses entries and keeps the stamps of the rest, so a record that was not live stays not live. |
| Webhook.DebouncedFlushJoinsAll | src/routes/webhooks.ts:224-238 | The flush after a debounced burst empties the entry, and what it delivers is all the bodies joined by spaces. |
| Webhook.WebhookRouter.constructor | src/routes/webhooks.ts:20-28 | The three maps start empty. |
| Webhook.WebhookRouter.CleanupAllCaches | src/routes/webhooks.ts:35-59 | Both caches are swept with their own TTLs, and the removal counts are returned. |
| Webhook.WebhookRouter.OnWebhook | src/routes/webhooks.ts:69-273 | The handler's new state, reply and effects are those of the step function. |
| Webhook.WebhookRouter.OnOutbound | src/routes/webhooks.ts:76-102 | The outbound branch, field by field. |
| Webhook.WebhookRouter.OnInbound | src/routes/webhooks.ts:104-126 | The shape check, then the handoff check with deletion of an expired record. |
| Webhook.WebhookRouter.OnUnsuppressed | src/routes/webhooks.ts:140-168 | The label check, then the tenant lookup (a rejection is a 500), the analytics records, the lead stage and buffering. |
| Webhook.WebhookRouter.ClaimLead | src/routes/webhooks.ts:173-219 | Check-then-claim: the cache is written and swept before the tracking call starts. |
| Webhook.WebhookRouter.BufferMessage | src/routes/webhooks.ts:224-236 | Appends the body and replaces the timer. |
| Webhook.WebhookRouter.FireFlush | src/routes/webhooks.ts:236-265 | The timer callback: join, delete, then deliver, skip or drop. |
| Webhook.WebhookRouter.OnLeadResult | src/routes/webhooks.ts:195-213 | The tracking promise settles: keep or release the claim. |
| CacheCleanupTest.TestCaches.constructor | test/test-cache-cleanup.ts:14-15 | Both caches start empty. |
| CacheCleanupTest.TestCaches.AddLead | test/test-cache-cleanup.ts:49-51 | Writes one lead entry. |
| CacheCleanupTest.TestCaches.AddHandoff | test/test-cache-cleanup.ts:52-53 | Writes one handoff entry. |
| CacheCleanupTest.TestCaches.CleanupAllCaches | test/test-cache-cleanup.ts:17-39 | Sweeps with the test TTLs (3 s, 5 s) and returns the removal counts. |
| CacheCleanupTest.SweptUniform | test/test-cache-cleanup.ts:23-36 | A cache whose entries share one timestamp is swept entirely or not at all. |
| CacheCleanupTest.LeadSeedSize | test/test-cache-cleanup.ts:49-51 | The scenario writes three distinct lead keys. |
| CacheCleanupTest.HandoffSeedSize | test/test-cache-cleanup.ts:52-53 | The scenario writes two distinct handoff keys. |
| CacheCleanupTest.TestCacheCleanup | test/test-cache-cleanup.ts:41-117 | Sweeps before 3 s, between 3 s and 5 s, and after 5 s remove (0, 0), (3, 0) and (0, 2) entries, and both caches end empty: the test's five checks. |
| Calendar.ParseInputDate | src/tools/calendar.ts:15-37 | Definition of `parseInputDate`. `ParseShape`, `ParseDmy`, `ParseDmyTime` and `ParseYmd` state its properties. |
| Calendar.ParseShape | src/tools/calendar.ts:15-37 | Native parsing is used iff the text is neither `DD.MM.YYYY[ HH:mm]` nor `YYYY-MM-DD`, and then on the text unchanged. |
| Calendar.DmyDateParts | src/tools/calendar.ts:17-21 | The three capture groups of a `DD.MM.YYYY` date read as the day, month and year digits. |
| Calendar.DmyConcat | src/tools/calendar.ts:17 | A date followed by a well-formed time tail is parsed from its two parts. |
| Calendar.ParseDmy | src/tools/calendar.ts:17-24 | `DD.MM.YYYY` gives that day at 00:00, with a 0-based month. |
| Calendar.TimeTailParts | src/tools/calendar.ts:17-23 | The ` HH:mm` tail after any run of white space gives that hour and minute. |
| Calendar.ParseDmyTime | src/tools/calendar.ts:17-24 | `DD.MM.YYYY HH:mm` gives that day, hour and minute, with a 0-based month. |
| Calendar.ParseDmyTail | src/tools/calendar.ts:17-24 | The hour and minute come from the tail, or are 0 without one. |
| Calendar.ParseYmd | src/tools/calendar.ts:28-34 | `YYYY-MM-DD` gives that local day at 00:00, with a 0-based month. |
| Calendar.YmdParts | src/tools/calendar.ts:28-32 | A `YYYY-MM-DD` text is not a `DD.MM.YYYY` one, and its groups read as its digits. |
| Calendar.AvailabilitySelection | src/tools/calendar.ts:48-65 | Definition of the calendars the check reads. `AvailabilitySelectionRules` states its properties. |
| Calendar.BookingSelection | src/tools/calendar.ts:216-240 | Definition of the booking calendar and the calendars its check reads. `BookingSelectionRules` states its properties. |
| Calendar.AvailabilitySelectionRules | src/tools/calendar.ts:48-65 | GLOBAL reads the top-level calendars and never rejects a sede. Otherwise a known sede reads its own calendars, an unknown one is an error, and no sede reads the top-level list. It errs iff the strategy is not GLOBAL and the sede is unknown. |
| Calendar.BookingSelectionRules | src/tools/calendar.ts:216-240 | Booking errs iff the sede is named and unknown, under every strategy. A known sede books into its own calendar and passes its configuration on. The conflict check is scoped to the sede only under PER_LOCATION. |
| Calendar.SelectionsDisagreeOnUnknownSede | src/tools/calendar.ts:52-62 | For a GLOBAL tenant, an unknown sede is accepted by the availability check and rejected by booking. |
| Calendar.FetchAll | src/tools/calendar.ts:95-112 | An event is fetched iff some listed calendar is known, holds it, and lists it for the window. |
| Calendar.FetchAllAppend | src/tools/calendar.ts:111-112 | Fetching a concatenation of calendar lists is concatenating the fetches. |
| Calendar.FetchAllUnchanged | src/tools/calendar.ts:250-267 | Calendars whose events did not change give the same listing. |
| Calendar.FailingCalendarContributesNothing | src/tools/calendar.ts:105-107 | A calendar whose listing errors contributes no events, and the others are still read. |
| Calendar.UnknownCalendarEmpty | src/tools/calendar.ts:105-107 | Listing an unknown calendar alone gives no events. |
| Calendar.InsertByStart | src/tools/calendar.ts:134-138 | Inserting into a start-ordered list keeps it ordered and adds exactly that event. |
| Calendar.SortedHead | src/tools/calendar.ts:134-138 | The head of a start-ordered list has the least start. |
| Calendar.SortedCons | src/tools/calendar.ts:134-138 | An event no later than all others can be put in front. |
| Calendar.SortByStart | src/tools/calendar.ts:134-138 | The sort orders by start time and is a permutation of its input. |
| Calendar.DayEvents | src/tools/calendar.ts:130-138 | Definition of the events kept for the day. `DayEventsSpec` states its properties. |
| Calendar.DayEventsSpec | src/tools/calendar.ts:130-138 | The kept events are exactly the fetched events whose local day in the tenant's zone is the target, with their multiplicities, in ascending start order. |
| Calendar.BusySlots | src/tools/calendar.ts:140-144 | One `start - end (Ocupado)` line per event, in event order. |
| Calendar.DayContextSpec | src/tools/calendar.ts:146-148 | The day is reported free iff no slot is busy. Otherwise the text is the header followed by the slots joined by newlines. |
| Calendar.FirstConflict | src/tools/calendar.ts:158-162 | There is no conflict iff no event overlaps. Otherwise the conflict is the first overlapping event in order. |
| Calendar.TouchingIsFree | src/tools/calendar.ts:161 | The overlap test is half-open: a slot starting when an event ends is free. |
| Calendar.CheckAvailability | src/tools/calendar.ts:39-191 | An unknown tenant is an error. Available iff there is no conflict, and the status matches. Without both slot ends, the day is available. |
| Calendar.DayContextIff | src/tools/calendar.ts:140-148 | The returned day context is the free-day text iff no event of the target day is kept. Otherwise it is the header followed by one busy line per kept event, in start order. |
| Calendar.SlotBusyIff | src/tools/calendar.ts:150-185 | With both slot ends, the slot is busy iff some event of the target day overlaps it. The reported conflict is the first such event in start order. |
| Calendar.CheckUnknownSede | src/tools/calendar.ts:52-64 | An unknown sede is an error iff the strategy is not GLOBAL. |
| Calendar.Book | src/tools/calendar.ts:200-308 | Definition of `calendarCreateAppointment` on values. `BookingCommitRule`, `BookingWritesOneEvent`, `SecondBookingRefused` and `GlobalDoubleBooking` state its properties. |
| Calendar.BookingCommitRule | src/tools/calendar.ts:250-271 | A booking is refused iff the conflict check returns some event, and then nothing is written. An unknown tenant is rejected first. |
| Calendar.BookingWritesOneEvent | src/tools/calendar.ts:273-293 | A successful booking appends exactly one `Evaluación Dental: <nombre>` event to the booking calendar and touches no other calendar. The reminders get the sede configuration. |
| Calendar.SecondBookingRefused | src/tools/calendar.ts:250-271 | Booking the same slot again is refused when the conflict check reads the booking calendar and the service lists the first booking for the window. |
| Calendar.GlobalDoubleBooking | src/tools/calendar.ts:237-240 | Under GLOBAL, a sede booking calendar outside the top-level list is written but never checked, so the same slot can be booked twice. |
| Calendar.CalendarProvider.constructor | src/tools/calendar.ts:247 | A service with the given calendars and listing test. |
| Calendar.CalendarProvider.Insert | src/tools/calendar.ts:281-284 | `events.insert` fails for an unknown calendar. Otherwise it appends the event under a fresh id. |
| Calendar.CreateAppointment | src/tools/calendar.ts:200-308 | Booking against the service does what `Book` describes, including a reminder failure reported as an error after the insert. |
| Marketing.DigitsOnly | src/tools/marketing.ts:15 | `replace(/[^0-9]/g, '')` leaves only digits: each digit of the input as often as it occurs, in the input's order. |
| Marketing.IfGiven | src/tools/marketing.ts:16-19 | A field is copied iff it is truthy. |
| Marketing.HashUserData | src/tools/marketing.ts:13-19 | `em` and `ph` are present iff the e-mail and the phone are given, hashed after normalisation. The other four identifiers are copied iff given. |
| Marketing.BuildCapiPayload | src/tools/marketing.ts:10-35 | One event with the name and the current second (the floor of `now / 1000`). The action source defaults to `website`. The URL and id are set only when given, the user data is hashed as above, and the tenant's access token is attached. |
| Marketing.EventsUrl | src/tools/marketing.ts:63 | The Graph API v18.0 prefix, then the pixel id, then `/events`. |
| Marketing.CapiSendEvent | src/tools/marketing.ts:37-71 | An unknown tenant is rejected before anything is built or sent. Otherwise one event with the hashed user data, the current second, the action source and the optional URL and id, with the tenant's token, goes to the pixel's URL. The tool fails iff the POST does, with its message. |
| Marketing.DigitsOnlyIdempotent | src/tools/marketing.ts:15 | Normalising a phone twice is normalising it once. |
| Marketing.NormalizedEmailIdempotent | src/tools/marketing.ts:14 | An e-mail already lower-cased and trimmed normalises to itself. |
| Marketing.LowerPiece | src/tools/marketing.ts:14 | A piece of a lower-cased string is lower case. |
| Crm.ChatWid | src/tools/crm.ts:14 | The chat id contains `@c.us` and starts with the phone. It is the phone itself when the phone already contains the suffix, and the phone followed by `@c.us` otherwise. |
| Crm.ChatWidIdempotent | src/tools/crm.ts:14 | Normalising a chat id twice is normalising it once. |
| Crm.FormatMetadata | src/tools/crm.ts:51 | One `{key, value}` pair per record entry, in order. |
| Crm.FormatMetadataRoundTrip | src/tools/crm.ts:51 | Reading the pairs back gives the record's entries. |
| Crm.AddLabelToChat | src/tools/crm.ts:4-31 | Throws iff the tenant is unknown. Otherwise it PATCHes the tenant's device and chat, and succeeds iff the PATCH is delivered. |
| Crm.UpdateContactMetadata | src/tools/crm.ts:33-69 | The same contract, for the formatted metadata. |
| Crm.CrmHandoffHuman | src/tools/crm.ts:71-83 | Requests exactly `["humano"]`. Succeeds iff that PATCH is delivered, and otherwise throws with its reason. |
| Validators.Check | src/admin/utils/validators.util.ts:5-30 | One check reports no issue iff it passes. |
| Validators.ParseConfig | src/admin/utils/validators.util.ts:4-33 | Fails iff some issue is found, and then reports all of them in schema order. On success the fields are kept, and `isActive`, `timezone` and `reminderTemplates` get their defaults. |
| Validators.ParseUser | src/admin/utils/validators.util.ts:36-40 | Fails iff some issue is found, with all of them. Otherwise it returns the input. |
| Validators.SlugRule | src/admin/utils/validators.util.ts:5 | A slug passes iff its JavaScript length, in UTF-16 code units, is at least 3 and all its characters are in `[a-z0-9_]`. A passing slug has one code unit per character. |
| Validators.PixelIdRule | src/admin/utils/validators.util.ts:12 | A pixel id passes iff it is absent, empty, or all digits. |
| Validators.ConfigAccepted | src/admin/utils/validators.util.ts:4-33 | A configuration is accepted iff each of the five checks passes. |
| Validators.UserAccepted | src/admin/utils/validators.util.ts:36-40 | A user is accepted iff: username length ≥ 3, the e-mail check passes, password length ≥ 6. Both lengths are JavaScript lengths, in UTF-16 code units. |
| Validators.AstralPasswordLongEnough | src/admin/utils/validators.util.ts:39 | Three characters outside the Basic Multilingual Plane, such as three emoji, are six code units: such a password is not too short. |
| ClientsController.ParseInt | src/admin/controllers/clients.controller.ts:10-11 | Definition of `parseInt(x)` in base 10 or 16. `ParseDecimal`, `NegativeKept`, `NotANumber` and `DecimalPrefix` state its properties. |
| ClientsController.DigitRun | src/admin/controllers/clients.controller.ts:10-11 | The longest prefix of digits in the given base. |
| ClientsController.IntParam | src/admin/controllers/clients.controller.ts:10-11 | `parseInt(x) \|\| fallback`: the result is the fallback or the parsed number. A non-zero number is kept, NaN and 0 fall back, and a non-zero fallback never yields 0. |
| ClientsController.DecimalValue | src/admin/controllers/clients.controller.ts:10-11 | The base-10 value of a digit string. |
| ClientsController.ParseDecimal | src/admin/controllers/clients.controller.ts:10-11 | A plain digit string parses to its value. |
| ClientsController.Unsigned | src/admin/controllers/clients.controller.ts:10-11 | Text starting with a digit skips no space or sign. |
| ClientsController.PlainDecimal | src/admin/controllers/clients.controller.ts:10-11 | A digit string is never read as hexadecimal. |
| ClientsController.DecimalPrefix | src/admin/controllers/clients.controller.ts:10-11 | Digits followed by a non-digit read as those digits, unless they form a `0x` prefix. |
| ClientsController.DecimalRun | src/admin/controllers/clients.controller.ts:10-11 | The same at the level of the digit run. |
| ClientsController.RunOfDigits | src/admin/controllers/clients.controller.ts:10-11 | The digit run of digits followed by a non-digit is exactly the digits. |
| ClientsController.NegativeKept | src/admin/controllers/clients.controller.ts:10 | `page=-5` gives page -5: nothing clamps a negative page. |
| ClientsController.Negated | src/admin/controllers/clients.controller.ts:10-11 | A minus sign negates the digits' value, and only zero falls back. |
| ClientsController.FallbackCases | src/admin/controllers/clients.controller.ts:10-11 | An absent, empty, non-numeric or zero parameter falls back. |
| ClientsController.NotANumber | src/admin/controllers/clients.controller.ts:10-11 | Text starting with anything but space, a sign or a digit is NaN. |
| ClientsController.IsActiveParam | src/admin/controllers/clients.controller.ts:13 | `true` and `false` select, and anything else leaves the filter out. |
| ClientsController.GetClients | src/admin/controllers/clients.controller.ts:8-63 | A 500 iff the transaction fails. Otherwise the rows and total the transaction returned, with the page and limit it was run for: the reported limit is the rows taken, and the rows skipped are the pages before the reported one. |
| ClientsController.Request | src/admin/controllers/clients.controller.ts:15-34 | Definition of the `findMany` request. `RequestShape` states its properties. |
| ClientsController.RequestShape | src/admin/controllers/clients.controller.ts:15-34 | It takes `limit` rows after skipping `(page - 1) * limit`. The search filter is present iff the text is non-empty, and the `isActive` filter as selected. |
| MigrateClients.DisplayName | src/db/migrate-clients.ts:18 | Definition of the display name derived from a slug. `DisplayNameShape`, `DisplayNameIdempotent` and `SlugRoundTrip` state its properties. |
| MigrateClients.SpacedOut | src/db/migrate-clients.ts:18 | Every `_` becomes a space, and every other character stays. |
| MigrateClients.CapitalizeWords | src/db/migrate-clients.ts:18 | Every word-start character is upper-cased, and every other one stays. |
| MigrateClients.DisplayNameShape | src/db/migrate-clients.ts:18 | The name has the slug's length and no `_`. Word starts are upper-cased. |
| MigrateClients.CapitalizeKeepsStarts | src/db/migrate-clients.ts:18 | Capitalising does not move word starts. |
| MigrateClients.DisplayNameIdempotent | src/db/migrate-clients.ts:18 | Deriving the name from a name changes nothing. |
| MigrateClients.SlugOf | src/db/migrate-clients.ts:18 | The inverse of the name derivation, character by character. |
| MigrateClients.SlugRoundTrip | src/db/migrate-clients.ts:18 | A schema-valid slug is recovered from its display name. |
| MigrateClients.Sealed | src/db/migrate-clients.ts:36-40 | A secret is stored encrypted when given, else as `''`. |
| MigrateClients.MigrateRecord | src/db/migrate-clients.ts:16-42 | Definition of one migrated record. `MigrationDefaults` states its properties. |
| MigrateClients.MigrationDefaults | src/db/migrate-clients.ts:16-42 | Every migrated tenant is active, keeps its slug, timezone, calendars and locations, defaults to PER_LOCATION, and stores its secrets encrypted or empty. |
| Server.LastN | src/index.ts:30-33 | The last `n` lines, or all of them. |
| Server.Appended | src/index.ts:25-34 | Definition of one append to the memory log. `AppendedBounded` and `AppendedAllKeepsNewest` state its properties. |
| Server.AppendedBounded | src/index.ts:25-34 | One append keeps at most 500 lines, with the new one last, and shifts out the oldest only on overflow. |
| Server.AppendedAllKeepsNewest | src/index.ts:22-34 | After any run of messages, the log is exactly the most recent 500 lines, oldest first. |
| Server.LastNAppend | src/index.ts:30-33 | Trimming, appending and trimming again is trimming once. |
| Server.MemoryLog.constructor | src/index.ts:22 | The log starts empty. |
| Server.MemoryLog.LogToMemory | src/index.ts:25-34 | Pushes `[timestamp] message` and shifts out the oldest beyond 500. |
| Server.Connected | src/index.ts:95-100 | Definition of a session's registration. `ConnectCloseKeepPaired` and `ConnectedReachable` state its properties. |
| Server.Closed | src/index.ts:103-120 | Definition of a session's removal. `CloseUndoesConnect` and `ConnectedReachable` state its properties. |
| Server.ConnectCloseKeepPaired | src/index.ts:95-120 | Connecting and closing keep the transport and server maps on the same sessions. |
| Server.CloseUndoesConnect | src/index.ts:95-120 | A session opened and closed leaves the registry as it was. |
| Server.ConnectedReachable | src/index.ts:95-138 | An open session is found by `/messages`, and a closed one is not. |
| Server.SessionRegistry.constructor | src/index.ts:68-69 | Both maps start empty. |
| Server.SessionRegistry.OnConnect | src/index.ts:95-100 | Stores the session in both maps when it has an id. |
| Server.SessionRegistry.OnClose | src/index.ts:103-120 | Removes the session from both maps, whether or not closing the server fails. |
| Server.Messages | src/index.ts:123-149 | 400 iff no session id. 404 iff the session is unknown. Otherwise handled by the transport iff it throws nothing, and 500 with the thrown message when it throws. |
| Server.CatchAll | src/index.ts:153-163 | 404 iff the path is under `/api`, `/sse` or `/webhooks`. Otherwise `index.html` iff it exists, else the fallback text. |
| Server.ApiPrefixRefused | src/index.ts:154-155 | Every path that starts with an API prefix is refused, even one that merely extends the prefix. |
| ClientAnalytics.WindowLength | frontend/src/pages/ClientAnalytics.tsx:445 | At most 5 links, and at most the page count. |
| ClientAnalytics.PageWindow | frontend/src/pages/ClientAnalytics.tsx:445-455 | The links are consecutive numbers from the window start. |
| ClientAnalytics.WindowConsecutive | frontend/src/pages/ClientAnalytics.tsx:445-455 | The window holds `min(5, totalPages)` ascending, consecutive pages. |
| ClientAnalytics.WindowCoversPage | frontend/src/pages/ClientAnalytics.tsx:445-455 | For a page in range, every link is a real page and the current page is shown. It is centred when two pages exist on each side. |
| ClientAnalytics.Previous | frontend/src/pages/ClientAnalytics.tsx:440 | Previous loads `page - 1` iff `page > 1`. |
| ClientAnalytics.Next | frontend/src/pages/ClientAnalytics.tsx:472 | Next loads `page + 1` iff `page < totalPages`. |
| ClientAnalytics.NavigationStaysInRange | frontend/src/pages/ClientAnalytics.tsx:433-474 | Previous and Next stay within `[1, totalPages]`. When the pager is shown, one of them is enabled. |
| ClientAnalytics.StatsForView | frontend/src/pages/ClientAnalytics.tsx:217-223 | The filtered block when filtering and present. Otherwise the monthly or lifetime block by view mode. |
| ClientAnalytics.StatsFromResponse | frontend/src/pages/ClientAnalytics.tsx:217-223 | The block shown is always one the response carried. |
| ClientAnalytics.FilteredFallsBack | frontend/src/pages/ClientAnalytics.tsx:219-222 | A filtered view without a filtered block falls back to the view mode. |
| ClientAnalytics.LoadEventsParams | frontend/src/pages/ClientAnalytics.tsx:184-190 | Page and limit 15. Dates are included iff set. The type is included iff not `all`. |
| ClientAnalytics.EventLabel | frontend/src/pages/ClientAnalytics.tsx:414 | A known type shows its label, and an unknown one its own name. |
| ClientList.FilteredClients | frontend/src/pages/ClientList.tsx:53-56 | A client is kept iff its lower-cased name or slug contains the lower-cased search. The kept clients stay in order. |
| ClientList.EmptySearchKeepsAll | frontend/src/pages/ClientList.tsx:53-56 | An empty search keeps every client in order. |
| ClientList.SearchIgnoresCase | frontend/src/pages/ClientList.tsx:53-56 | Lower-casing the search changes nothing. |
| ClientList.LowerIdempotent | frontend/src/pages/ClientList.tsx:54 | Lower-casing twice is lower-casing once. |
| ClientList.TableBody | frontend/src/pages/ClientList.tsx:96-109 | `Loading...` iff loading. `No clients found.` iff no client matches. Otherwise the filtered rows. |
| Text.ToLower | frontend/src/pages/ClientList.tsx:54 | `toLowerCase`, character by character. |
| Text.JsLength | src/admin/utils/validators.util.ts:5-39 | `.length` counts UTF-16 code units: one or two per character, and 0 only for the empty text. |
| Text.JsLengthBmp | src/admin/utils/validators.util.ts:5-39 | Text of Basic Multilingual Plane characters has one code unit per character. |
| Text.JsLengthAstral | src/admin/utils/validators.util.ts:5-39 | Each character outside the Basic Multilingual Plane counts twice. |
| Text.TrimStart | src/admin/controllers/clients.controller.ts:10 | Drops exactly the leading run of white space. |
| Text.TrimEnd | src/tools/marketing.ts:14 | Drops exactly the trailing run of white space. |
| Text.Trim | src/tools/marketing.ts:14 | The result is a piece of the text that neither starts nor ends with white space. |
| Text.TrimDropsOnlyEdgeSpace | src/tools/marketing.ts:14 | The trim is the slice of the text between a blank prefix and a blank suffix: only white space is dropped, and only from the two ends. |
| Text.TrimTrimmed | src/tools/marketing.ts:14 | Text already trimmed is its own trim. |
| Text.JoinSnoc | src/routes/webhooks.ts:237 | Joining one more part adds one separator and the part. |
| Seqs.Filter | src/tools/calendar.ts:130-133 | `filter` keeps each passing element as often as it occurs, and drops every other. |
| Seqs.FilterAll | frontend/src/pages/ClientList.tsx:53-56 | Nothing is dropped iff every element passes. |
| Seqs.FilterSubsequence | frontend/src/pages/ClientList.tsx:53-56 | Filtering only deletes, keeping order. |

## Left out

- I/O is outside the model:
  - Express routing, middleware, the SSE headers, the padding write, `startServer` and the MCP protocol;
  - every `console` line;
  - log lines other than those `LogToMemory` stores;
  - reading the service-account files;
  - the upsert loop of the migration.
- React state and rendering are outside the model. Only the values the two pages compute are modelled.
- Timers are explicit steps:
  - `setInterval(cleanupAllCaches, ...)` is a call to `CleanupAllCaches` at any time;
  - a `setTimeout` flush is `FireFlush`, which the scheduler runs no earlier than due;
  - `clearTimeout` is the replacement of the entry's one timer.
- Concurrency follows JavaScript's single thread:
  - each webhook delivery runs atomically;
  - the `await` of the tenant lookup (`src/routes/webhooks.ts:156`) is not an interleaving point. Interleavings of two deliveries at that `await` are not modelled.
- Webhook.FlushJoinsAndDeletes: a failure of the POST to the tenant's webhook is caught and only logged. The model treats the POST as delivered. The delivered payload carries only the URL, the device id and `data` with the joined `body`. The other top-level fields of the original request body, which the POST spreads back in, are not modelled.
- Calendar, instants and dates:
  - JavaScript dates are injected functions: native parsing, the local-time constructor, the tenant-zone date and time renderings, and the search window.
  - An invalid start date is given sort key 0, whereas JavaScript's comparator sees NaN.
  - An invalid time zone, which makes the renderings throw, is not modelled.
- Calendar.CheckAvailability: the Google client's own failures outside `events.list` are not modelled. Neither is the rethrow for an invalid time zone.
- Calendar.SortByStart: the contract states order and permutation, not stability. The definition inserts stably.
- Calendar.Book: between the conflict check and the insert, another booking could write the same slot. The model runs the booking as one step, so this gap is not captured.
- Calendar.CreateAppointment: `trackScheduleEvent` is started without waiting. Its result is only the `ScheduleTracking` value.
- Keys named like `Object.prototype` members (`__proto__`, `constructor`) behave like any other key in the model.
- Text.ToLower: case mapping covers ASCII letters only, where `toLowerCase` also maps non-ASCII letters. The `\b\w` of the display-name derivation loses nothing: without the `u` flag JavaScript's `\w` is ASCII `[A-Za-z0-9_]`, which is what `MigrateClients.WordChar` is.
- Validators:
  - zod's URL and e-mail checks are injected predicates;
  - inputs are already of the right JSON type;
  - a field of the wrong type is not modelled.
- ClientsController.IntParam:
  - `parseInt` is modelled on unbounded integers, with no loss of precision beyond 2^53;
  - a query parameter given twice (an array) is not modelled.
- ClientsController.GetClients: Prisma's `findMany`/`count` are one collaborator call. The `contains` filter and the `createdAt` order are its business.
- CacheCleanupTest.TestCacheCleanup: the test stamps each entry with its own `Date.now()`. The model writes all entries at one instant `t0`.
- Server.SessionRegistry.OnClose: a failure of the MCP server's `close()` is only logged. The server is still removed.
- The sha256 digest and AES-GCM encryption are uninterpreted functions.
- MigrateClients.MigrationDefaults: the record leaves out the `location` and `reminderTemplates` fields. It also leaves out any `google`, `meta` or `wassenger` fields beyond those of `Tenants.ClientConfig`, which holds only the fields the core reads. The spread copies those extra fields unchanged.
