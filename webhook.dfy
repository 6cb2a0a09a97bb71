/**
 * The `POST /webhooks/whatsapp` router: three process-wide maps changed by arriving events and
 * by timers.
 *
 *   humanHandoffState   chat JID -> time a human agent last wrote (30-minute suppression)
 *   leadSentCache       "<slug>:<fromNumber>" -> time a lead was claimed (5-minute dedup)
 *   messageBuffer       fromNumber -> pending bodies + the one pending flush timer
 *
 * Each step of the router is first a pure function on a `State` value (so that properties
 * relating several steps can be stated and proved), and class `WebhookRouter` holds the three maps
 * as fields, with one method per step proved to produce exactly that function's new state, reply
 * and effects. Time is an injected `now`; a timer is the `PendingFlush` stored with a buffer entry,
 * fired by the scheduler step `FireFlush` once it is due; the lead-tracking promise is a
 * `LeadCall` in flight, settled by the step `OnLeadResult`.
 */
module Webhook {
  import opened Wrappers
  import opened Text
  import TtlCache
  import Crm

  const HUMAN_HANDOFF_TIMEOUT_MS: int := 30 * 60 * 1000
  const LEAD_CACHE_TTL_MS: int := 5 * 60 * 1000
  const BUFFER_DELAY_MS: int := 15000

  const OUTBOUND_EVENT: string := "message:out:new"
  const HUMANO_LABEL: string := "humano"
  const LEAD_SENT_KEY: string := "capi_lead_enviado"
  const INBOUND_FLOW: string := "inbound"

  // ---------------------------------------------------------------------------------------------
  // The webhook payload, as far as the router reads it.

  datatype MetadataEntry = MetadataEntry(key: string, value: string)

  /** `data.meta`; `isFirstMessage` is compared with `=== true` / `=== false`. */
  datatype Meta = Meta(isFirstMessage: Option<bool>)

  /** `data`, with `chat.contact.metadata` and `chat.labels` already defaulted to `[]`. */
  datatype Data = Data(
    agent: Option<string>,
    to: Option<string>,
    fromNumber: Option<string>,
    from: Option<string>,
    body: Option<string>,
    flow: Option<string>,
    meta: Option<Meta>,
    metadata: seq<MetadataEntry>,
    labels: seq<string>)

  datatype Payload = Payload(event: Option<string>, deviceId: Option<string>, data: Option<Data>)

  // ---------------------------------------------------------------------------------------------
  // Collaborators.

  datatype Tenant = Tenant(slug: string, webhookUrl: Option<string>)

  /**
   * The tenant store as `clientService.getClientByDeviceId` sees it during one step; when it is
   * not reachable every lookup rejects.
   */
  datatype Directory = Directory(byDevice: map<string, Tenant>, reachable: bool)

  datatype Lookup = Found(tenant: Tenant) | NotFound | LookupFailed

  function Resolve(dir: Directory, deviceId: Option<string>): Lookup {
    if !dir.reachable then LookupFailed
    else if deviceId.Some? && deviceId.value in dir.byDevice then Found(dir.byDevice[deviceId.value])
    else NotFound
  }

  /** The HTTP reply: `OK`, the two suppression texts, `Buffered`, or a 500. */
  datatype Reply = Acknowledged | SuppressedByHandoff | SuppressedByLabel | Buffered | InternalError

  datatype EventKind = MessageEvent | NewConversationEvent | LeadEvent | HandoffEvent

  /** One `trackLeadEvent` call that has been started and not yet settled. */
  datatype LeadCall = LeadCall(cacheKey: string, slug: string, phone: string)

  /**
   * Calls into collaborators whose result the router does not wait for: analytics records,
   * the lead tracking call, and the metadata patch that marks the lead as sent.
   */
  datatype Effect =
    | Record(slug: string, kind: EventKind, subject: string)
    | TrackLead(call: LeadCall)
    | MarkLeadSent(slug: string, phone: string)

  // ---------------------------------------------------------------------------------------------
  // Router state.

  /** The pending `setTimeout` of a buffer entry: the event context it captured and when it is due. */
  datatype PendingFlush = PendingFlush(deviceId: Option<string>, data: Data, due: int)

  datatype BufferEntry = BufferEntry(messages: seq<string>, timer: PendingFlush)

  datatype State = State(
    handoff: map<string, int>,
    lead: map<string, int>,
    buffer: map<string, BufferEntry>,
    inFlight: multiset<LeadCall>)

  datatype Step = Step(state: State, reply: Reply, effects: seq<Effect>)

  datatype Staged = Staged(state: State, effects: seq<Effect>)

  /** What a fired flush does: post the joined body to the tenant's webhook, or nothing. */
  datatype FlushOutcome = Delivered(url: string, deviceId: Option<string>, data: Data) | NoWebhookUrl | Dropped

  datatype Flushed = Flushed(state: State, outcome: FlushOutcome)

  const Initial: State := State(map[], map[], map[], multiset{})

  // ---------------------------------------------------------------------------------------------
  // The steps as functions.

  /** `cleanupAllCaches`. */
  function SweepState(s: State, now: int): State {
    s.(lead := TtlCache.Swept(s.lead, now, LEAD_CACHE_TTL_MS),
       handoff := TtlCache.Swept(s.handoff, now, HUMAN_HANDOFF_TIMEOUT_MS))
  }

  /** The router entry: outbound events return before any inbound processing. */
  function Handle(s: State, now: int, p: Payload, dir: Directory): Step {
    if p.event == Some(OUTBOUND_EVENT) then Outbound(s, now, p, dir) else Inbound(s, now, p, dir)
  }

  /** A message written by a human agent (it carries `agent`) starts the handoff window for `to`. */
  function Outbound(s: State, now: int, p: Payload, dir: Directory): Step {
    if p.data.Some? && Given(p.data.value.agent) && Given(p.data.value.to) then
      var to := p.data.value.to.value;
      var lookup := Resolve(dir, p.deviceId);
      Step(s.(handoff := s.handoff[to := now]), Acknowledged,
           if Given(p.deviceId) && lookup.Found? then [Record(lookup.tenant.slug, HandoffEvent, to)] else [])
    else
      Step(s, Acknowledged, [])
  }

  /** The event carries the two fields inbound handling needs. */
  predicate InboundShape(p: Payload) {
    p.data.Some? && Given(p.data.value.fromNumber) && Given(p.data.value.body)
  }

  function Inbound(s: State, now: int, p: Payload, dir: Directory): Step {
    if !InboundShape(p) then Step(s, Acknowledged, [])
    else if HandoffLive(s, now, p) then Step(s, SuppressedByHandoff, [])
    else AfterHandoff(ClearExpiredHandoff(s, p), now, p, dir)
  }

  /** A handoff record found for the sender but no longer live is deleted. */
  function ClearExpiredHandoff(s: State, p: Payload): State
    requires p.data.Some?
  {
    var jid := p.data.value.from;
    if Given(jid) && jid.value in s.handoff && s.handoff[jid.value] != 0
    then s.(handoff := s.handoff - {jid.value}) else s
  }

  /** Label check, tenant lookup, lead stage and buffering: everything after the handoff check. */
  function AfterHandoff(s: State, now: int, p: Payload, dir: Directory): Step
    requires InboundShape(p)
  {
    var d := p.data.value;
    if HUMANO_LABEL in d.labels then Step(s, SuppressedByLabel, [])
    else
      var lookup := if Given(p.deviceId) then Resolve(dir, p.deviceId) else NotFound;
      if lookup.LookupFailed? then Step(s, InternalError, [])
      else
        var slug := if lookup.Found? then Some(lookup.tenant.slug) else None;
        var lead := LeadStage(s, now, p, slug);
        Step(BufferStage(lead.state, now, p), Buffered, ConversationEvents(slug, d) + lead.effects)
  }

  /** The MESSAGE and NEW_CONVERSATION analytics records, when the tenant was found. */
  function ConversationEvents(slug: Option<string>, d: Data): seq<Effect>
    requires Given(d.fromNumber)
  {
    if slug.None? then []
    else
      [Record(slug.value, MessageEvent, d.fromNumber.value)]
      + (if d.meta.Some? && d.meta.value.isFirstMessage == Some(true)
         then [Record(slug.value, NewConversationEvent, d.fromNumber.value)] else [])
  }

  /** An inbound, non-first message of a conversation. */
  predicate LeadEligible(d: Data) {
    d.flow == Some(INBOUND_FLOW) && d.meta.Some? && d.meta.value.isFirstMessage == Some(false)
  }

  predicate LeadAlreadySent(d: Data) {
    MetadataEntry(LEAD_SENT_KEY, "true") in d.metadata
  }

  /** `${clientSlug}:${userId}`; an unresolved slug interpolates as `null`. */
  function LeadCacheKey(slug: Option<string>, userId: string): string {
    (if slug.Some? then slug.value else "null") + ":" + userId
  }

  /** The check-then-claim of a lead, with no suspension point in between. */
  function LeadStage(s: State, now: int, p: Payload, slug: Option<string>): Staged
    requires InboundShape(p)
  {
    var d := p.data.value;
    var key := LeadCacheKey(slug, d.fromNumber.value);
    if LeadEligible(d) && !LeadAlreadySent(d) && !TtlCache.Live(s.lead, key, now, LEAD_CACHE_TTL_MS)
       && Given(p.deviceId) && Given(slug)
    then
      var call := LeadCall(key, slug.value, d.fromNumber.value);
      var claimed := s.(lead := s.lead[key := now], inFlight := s.inFlight + multiset{call});
      Staged(SweepState(claimed, now), [TrackLead(call)])
    else
      Staged(s, [])
  }

  /** Append the body and replace the entry's timer by one due `BUFFER_DELAY_MS` from now. */
  function BufferStage(s: State, now: int, p: Payload): State
    requires InboundShape(p)
  {
    var d := p.data.value;
    var userId := d.fromNumber.value;
    var messages := if userId in s.buffer then s.buffer[userId].messages + [d.body.value] else [d.body.value];
    s.(buffer := s.buffer[userId := BufferEntry(messages, PendingFlush(p.deviceId, d, now + BUFFER_DELAY_MS))])
  }

  /** The timer callback: join, delete the entry, then deliver to the tenant's webhook URL if any. */
  function Flush(s: State, key: string, dir: Directory): Flushed
    requires key in s.buffer
  {
    var e := s.buffer[key];
    var after := s.(buffer := s.buffer - {key});
    var combined := Join(e.messages, " ");
    match Resolve(dir, e.timer.deviceId)
    case LookupFailed => Flushed(after, Dropped)
    case NotFound => Flushed(after, NoWebhookUrl)
    case Found(t) =>
      if Given(t.webhookUrl)
      then Flushed(after, Delivered(t.webhookUrl.value, e.timer.deviceId, e.timer.data.(body := Some(combined))))
      else Flushed(after, NoWebhookUrl)
  }

  /** The settled `trackLeadEvent` promise: success keeps the claim, failure releases it. */
  function LeadResult(s: State, call: LeadCall, success: bool): Staged
    requires call in s.inFlight
  {
    var settled := s.(inFlight := s.inFlight - multiset{call});
    if success then Staged(settled, [Record(call.slug, LeadEvent, call.phone), MarkLeadSent(call.slug, call.phone)])
    else Staged(settled.(lead := settled.lead - {call.cacheKey}), [])
  }

  // ---------------------------------------------------------------------------------------------
  // Properties of single steps.

  /** A human-agent outbound message stamps `handoff[to] = now`; nothing else changes. */
  lemma OutboundStampsHandoff(s: State, now: int, p: Payload, dir: Directory)
    requires p.event == Some(OUTBOUND_EVENT)
    ensures var st := Handle(s, now, p, dir);
      && st.reply == Acknowledged
      && st.state.lead == s.lead && st.state.buffer == s.buffer && st.state.inFlight == s.inFlight
      && (if p.data.Some? && Given(p.data.value.agent) && Given(p.data.value.to)
          then st.state.handoff == s.handoff[p.data.value.to.value := now]
          else st.state == s && st.effects == [])
  {
  }

  /** An inbound event without `fromNumber` or `body` is acknowledged and changes nothing. */
  lemma MissingDataAcknowledged(s: State, now: int, p: Payload, dir: Directory)
    requires p.event != Some(OUTBOUND_EVENT) && !InboundShape(p)
    ensures Handle(s, now, p, dir) == Step(s, Acknowledged, [])
  {
  }

  /** A live handoff record for the sender's JID. */
  predicate HandoffLive(s: State, now: int, p: Payload)
    requires p.data.Some?
  {
    Given(p.data.value.from) && TtlCache.Live(s.handoff, p.data.value.from.value, now, HUMAN_HANDOFF_TIMEOUT_MS)
  }

  /**
   * An inbound message is suppressed by the handoff check iff the sender's record is live, and then
   * nothing changes; a record found expired is deleted and processing goes on.
   */
  lemma HandoffSuppressionIff(s: State, now: int, p: Payload, dir: Directory)
    requires p.event != Some(OUTBOUND_EVENT) && InboundShape(p)
    ensures var st := Handle(s, now, p, dir);
      && (st.reply == SuppressedByHandoff <==> HandoffLive(s, now, p))
      && (HandoffLive(s, now, p) ==> st.state == s && st.effects == [])
      && (var jid := p.data.value.from;
          Given(jid) && jid.value in s.handoff && s.handoff[jid.value] != 0 && !HandoffLive(s, now, p)
          ==> jid.value !in st.state.handoff)
  {
  }

  /**
   * The `humano` label always suppresses automation once it is reached (after the handoff check):
   * nothing is buffered, no lead is claimed, no effect is started.
   */
  lemma LabelAlwaysSuppresses(s: State, now: int, p: Payload, dir: Directory)
    requires p.event != Some(OUTBOUND_EVENT) && InboundShape(p)
    requires HUMANO_LABEL in p.data.value.labels
    ensures var st := Handle(s, now, p, dir);
      && st.reply == (if HandoffLive(s, now, p) then SuppressedByHandoff else SuppressedByLabel)
      && st.state.lead == s.lead && st.state.buffer == s.buffer && st.state.inFlight == s.inFlight
      && st.effects == []
  {
  }

  /** The label `crmHandoffHuman` requests is exactly the one this router suppresses on. */
  lemma CrmLabelSuppresses(s: State, now: int, p: Payload, dir: Directory)
    requires p.event != Some(OUTBOUND_EVENT) && InboundShape(p)
    requires Crm.HANDOFF_LABEL in p.data.value.labels
    ensures Handle(s, now, p, dir).reply in {SuppressedByHandoff, SuppressedByLabel}
    ensures Handle(s, now, p, dir).state.buffer == s.buffer
  {
    LabelAlwaysSuppresses(s, now, p, dir);
  }

  /** All the conditions under which an event claims the lead for its cache key. */
  predicate Claims(s: State, now: int, p: Payload, dir: Directory) {
    && p.event != Some(OUTBOUND_EVENT) && InboundShape(p)
    && !HandoffLive(s, now, p)
    && HUMANO_LABEL !in p.data.value.labels
    && Given(p.deviceId)
    && Resolve(dir, p.deviceId).Found?
    && LeadEligible(p.data.value)
    && !LeadAlreadySent(p.data.value)
    && Given(Some(Resolve(dir, p.deviceId).tenant.slug))
    && !TtlCache.Live(s.lead, ClaimKey(p, dir), now, LEAD_CACHE_TTL_MS)
  }

  /** The cache key an event would claim once its tenant is resolved. */
  function ClaimKey(p: Payload, dir: Directory): string
    requires InboundShape(p) && Resolve(dir, p.deviceId).Found?
  {
    LeadCacheKey(Some(Resolve(dir, p.deviceId).tenant.slug), p.data.value.fromNumber.value)
  }

  /** Number of `trackLeadEvent` calls for `key` among the effects. */
  function Fired(effects: seq<Effect>, key: string): nat
    decreases |effects|
  {
    if |effects| == 0 then 0
    else (if effects[0].TrackLead? && effects[0].call.cacheKey == key then 1 else 0) + Fired(effects[1..], key)
  }

  lemma {:induction false} FiredAppend(a: seq<Effect>, b: seq<Effect>, key: string)
    ensures Fired(a + b, key) == Fired(a, key) + Fired(b, key)
    decreases |a|
  {
    if |a| == 0 {
      assert a + b == b;
    } else {
      assert (a + b)[0] == a[0];
      assert (a + b)[1..] == a[1..] + b;
      FiredAppend(a[1..], b, key);
    }
  }

  lemma FiredNone(a: seq<Effect>, key: string)
    requires forall i :: 0 <= i < |a| ==> !a[i].TrackLead?
    ensures Fired(a, key) == 0
    decreases |a|
  {
    if |a| > 0 {
      FiredNone(a[1..], key);
    }
  }

  /** The lead stage alone: a claim writes the key at `now` and starts exactly one call. */
  lemma LeadStageClaims(s: State, now: int, p: Payload, slug: Option<string>)
    requires InboundShape(p)
    ensures var r := LeadStage(s, now, p, slug); var d := p.data.value;
      var key := LeadCacheKey(slug, d.fromNumber.value);
      if LeadEligible(d) && !LeadAlreadySent(d) && !TtlCache.Live(s.lead, key, now, LEAD_CACHE_TTL_MS)
         && Given(p.deviceId) && Given(slug)
      then
        && r.effects == [TrackLead(LeadCall(key, slug.value, d.fromNumber.value))]
        && key in r.state.lead && r.state.lead[key] == now
        && r.state.inFlight == s.inFlight + multiset{LeadCall(key, slug.value, d.fromNumber.value)}
        && (forall k :: k in s.lead && TtlCache.Live(s.lead, k, now, LEAD_CACHE_TTL_MS) ==>
              k in r.state.lead && r.state.lead[k] == s.lead[k])
      else r == Staged(s, [])
  {
  }

  /** The analytics records started on the way are never tracking calls. */
  lemma ConversationEventsUntracked(slug: Option<string>, d: Data, key: string)
    requires Given(d.fromNumber)
    ensures forall e :: e in ConversationEvents(slug, d) ==> !e.TrackLead?
    ensures Fired(ConversationEvents(slug, d), key) == 0
  {
    FiredNone(ConversationEvents(slug, d), key);
  }

  /**
   * A lead is claimed, with the cache written at `now` before `trackLeadEvent` is started, exactly
   * when all claim conditions hold; otherwise the cache and the in-flight calls are unchanged and
   * nothing is tracked.
   */
  lemma ClaimIff(s: State, now: int, p: Payload, dir: Directory)
    ensures var st := Handle(s, now, p, dir);
      if Claims(s, now, p, dir) then
        var key := ClaimKey(p, dir);
        var call := LeadCall(key, Resolve(dir, p.deviceId).tenant.slug, p.data.value.fromNumber.value);
        && key in st.state.lead && st.state.lead[key] == now
        && st.state.inFlight == s.inFlight + multiset{call}
        && TrackLead(call) in st.effects
        && Fired(st.effects, key) == 1
      else
        && (forall k :: k in st.state.lead ==> k in s.lead && st.state.lead[k] == s.lead[k])
        && st.state.inFlight == s.inFlight
        && (forall e :: e in st.effects ==> !e.TrackLead?)
  {
    var st := Handle(s, now, p, dir);
    if p.event != Some(OUTBOUND_EVENT) && InboundShape(p) && !HandoffLive(s, now, p) {
      var d := p.data.value;
      var s1 := ClearExpiredHandoff(s, p);
      assert s1.lead == s.lead && s1.inFlight == s.inFlight;
      assert st == AfterHandoff(s1, now, p, dir);
      var lookup := if Given(p.deviceId) then Resolve(dir, p.deviceId) else NotFound;
      if HUMANO_LABEL !in d.labels && !lookup.LookupFailed? {
        var slug := if lookup.Found? then Some(lookup.tenant.slug) else None;
        var lead := LeadStage(s1, now, p, slug);
        assert st.effects == ConversationEvents(slug, d) + lead.effects;
        assert st.state.lead == lead.state.lead && st.state.inFlight == lead.state.inFlight;
        LeadStageClaims(s1, now, p, slug);
        var key := LeadCacheKey(slug, d.fromNumber.value);
        ConversationEventsUntracked(slug, d, key);
        if Claims(s, now, p, dir) {
          var call := LeadCall(key, slug.value, d.fromNumber.value);
          FiredAppend(ConversationEvents(slug, d), lead.effects, key);
          FiredSingle(TrackLead(call), key);
          assert st.effects[|st.effects| - 1] == TrackLead(call);
        }
      }
    }
  }

  lemma FiredSingle(e: Effect, key: string)
    ensures Fired([e], key) == if e.TrackLead? && e.call.cacheKey == key then 1 else 0
  {
    assert [e][1..] == [];
  }

  /** While a claim is live, no event of any kind starts another tracking call for that key. */
  lemma StepKeepsLiveClaim(s: State, now: int, p: Payload, dir: Directory, key: string)
    requires TtlCache.Live(s.lead, key, now, LEAD_CACHE_TTL_MS)
    ensures var st := Handle(s, now, p, dir);
      key in st.state.lead && st.state.lead[key] == s.lead[key] && Fired(st.effects, key) == 0
  {
    var st := Handle(s, now, p, dir);
    if p.event != Some(OUTBOUND_EVENT) && InboundShape(p) && !HandoffLive(s, now, p) {
      var d := p.data.value;
      var s1 := ClearExpiredHandoff(s, p);
      assert s1.lead == s.lead;
      assert st == AfterHandoff(s1, now, p, dir);
      var lookup := if Given(p.deviceId) then Resolve(dir, p.deviceId) else NotFound;
      if HUMANO_LABEL !in d.labels && !lookup.LookupFailed? {
        var slug := if lookup.Found? then Some(lookup.tenant.slug) else None;
        var lead := LeadStage(s1, now, p, slug);
        assert st.effects == ConversationEvents(slug, d) + lead.effects;
        assert st.state.lead == lead.state.lead;
        LeadStageClaims(s1, now, p, slug);
        ConversationEventsUntracked(slug, d, key);
        FiredAppend(ConversationEvents(slug, d), lead.effects, key);
        if lead.effects != [] {
          FiredSingle(lead.effects[0], key);
          assert lead.effects == [lead.effects[0]];
        }
      }
    } else {
      FiredNone(st.effects, key);
    }
  }

  /** A settled failure releases the claim; a settled success keeps it. */
  lemma LeadResultReleasesOnFailure(s: State, call: LeadCall, success: bool)
    requires call in s.inFlight
    ensures var st := LeadResult(s, call, success);
      && st.state.inFlight == s.inFlight - multiset{call}
      && st.state.buffer == s.buffer && st.state.handoff == s.handoff
      && (success ==> st.state.lead == s.lead
                      && st.effects == [Record(call.slug, LeadEvent, call.phone), MarkLeadSent(call.slug, call.phone)])
      && (!success ==> st.state.lead == s.lead - {call.cacheKey} && st.effects == [])
  {
  }

  /**
   * After a failed tracking call, the next delivery for the same conversation that meets every
   * other claim condition claims the lead again and starts exactly one new tracking call, even
   * though the failed claim would still have been within its TTL.
   */
  lemma FailedLeadCanRetry(s: State, call: LeadCall, now: int, p: Payload, dir: Directory)
    requires call in s.inFlight
    requires p.event != Some(OUTBOUND_EVENT) && InboundShape(p)
    requires !HandoffLive(s, now, p) && HUMANO_LABEL !in p.data.value.labels
    requires Given(p.deviceId) && Resolve(dir, p.deviceId).Found? && Resolve(dir, p.deviceId).tenant.slug != ""
    requires LeadEligible(p.data.value) && !LeadAlreadySent(p.data.value)
    requires ClaimKey(p, dir) == call.cacheKey
    ensures var s1 := LeadResult(s, call, false).state;
      && Claims(s1, now, p, dir)
      && Fired(Handle(s1, now, p, dir).effects, call.cacheKey) == 1
      && Handle(s1, now, p, dir).state.lead[call.cacheKey] == now
  {
    var s1 := LeadResult(s, call, false).state;
    assert s1.handoff == s.handoff;
    assert call.cacheKey !in s1.lead;
    assert Claims(s1, now, p, dir);
    ClaimIff(s1, now, p, dir);
  }

  /**
   * Buffering appends the body in arrival order, replaces the single timer of the entry by one due
   * `BUFFER_DELAY_MS` from now that captured this event, and leaves every other conversation's
   * entry alone.
   */
  lemma BufferAppends(s: State, now: int, p: Payload, dir: Directory)
    requires Handle(s, now, p, dir).reply == Buffered
    ensures InboundShape(p)
    ensures var st := Handle(s, now, p, dir); var d := p.data.value; var k := d.fromNumber.value;
      && k in st.state.buffer
      && st.state.buffer[k].messages
         == (if k in s.buffer then s.buffer[k].messages else []) + [d.body.value]
      && st.state.buffer[k].timer == PendingFlush(p.deviceId, d, now + BUFFER_DELAY_MS)
      && (forall other :: other != k ==>
            (other in st.state.buffer <==> other in s.buffer)
            && (other in s.buffer ==> st.state.buffer[other] == s.buffer[other]))
  {
  }

  /**
   * A fired flush empties the entry, joins its bodies with single spaces in arrival order, and
   * delivers only when the tenant found for the captured device has a webhook URL.
   */
  lemma FlushJoinsAndDeletes(s: State, key: string, dir: Directory)
    requires key in s.buffer
    ensures var f := Flush(s, key, dir); var e := s.buffer[key];
      && f.state == s.(buffer := s.buffer - {key})
      && (f.outcome.Delivered? <==>
           Resolve(dir, e.timer.deviceId).Found? && Given(Resolve(dir, e.timer.deviceId).tenant.webhookUrl))
      && (f.outcome.Delivered? ==>
           f.outcome.data == e.timer.data.(body := Some(Join(e.messages, " ")))
           && f.outcome.url == Resolve(dir, e.timer.deviceId).tenant.webhookUrl.value)
  {
  }

  /** The sweep run after a claim keeps every lead entry that is still live. */
  lemma SweepKeepsLive(s: State, now: int, key: string)
    requires TtlCache.Live(s.lead, key, now, LEAD_CACHE_TTL_MS)
    ensures key in SweepState(s, now).lead && SweepState(s, now).lead[key] == s.lead[key]
  {
  }

  // ---------------------------------------------------------------------------------------------
  // Properties of runs of events.

  datatype Timed = Timed(now: int, payload: Payload, dir: Directory)

  datatype Trace = Trace(state: State, effects: seq<Effect>)

  /** The router's effect on a sequence of webhook deliveries, handled one after the other. */
  function Run(s: State, events: seq<Timed>): Trace
    decreases |events|
  {
    if |events| == 0 then Trace(s, [])
    else
      var first := Handle(s, events[0].now, events[0].payload, events[0].dir);
      var rest := Run(first.state, events[1..]);
      Trace(rest.state, first.effects + rest.effects)
  }

  /**
   * While a lead claim stays within its TTL, no sequence of webhook deliveries (for this
   * conversation or any other) starts a second tracking call for it, and the claim is kept.
   */
  lemma {:induction false} LiveClaimBlocksRefire(s: State, events: seq<Timed>, key: string)
    requires key in s.lead && s.lead[key] != 0
    requires forall i :: 0 <= i < |events| ==> events[i].now - s.lead[key] < LEAD_CACHE_TTL_MS
    ensures var r := Run(s, events);
      key in r.state.lead && r.state.lead[key] == s.lead[key] && Fired(r.effects, key) == 0
    decreases |events|
  {
    if |events| > 0 {
      var e := events[0];
      StepKeepsLiveClaim(s, e.now, e.payload, e.dir, key);
      var first := Handle(s, e.now, e.payload, e.dir);
      LiveClaimBlocksRefire(first.state, events[1..], key);
      FiredAppend(first.effects, Run(first.state, events[1..]).effects, key);
    }
  }

  /**
   * A burst of deliveries within the lead TTL of the one that claims fires `trackLeadEvent`
   * exactly once for that conversation (the five-concurrent-messages scenario of the lead
   * deduplication test is the case of four followers).
   */
  lemma BurstFiresOnce(s: State, first: Timed, rest: seq<Timed>)
    requires Claims(s, first.now, first.payload, first.dir) && first.now != 0
    requires forall i :: 0 <= i < |rest| ==> 0 <= rest[i].now - first.now < LEAD_CACHE_TTL_MS
    ensures Fired(Run(s, [first] + rest).effects, ClaimKey(first.payload, first.dir)) == 1
  {
    var key := ClaimKey(first.payload, first.dir);
    var events := [first] + rest;
    var st := Handle(s, first.now, first.payload, first.dir);
    ClaimIff(s, first.now, first.payload, first.dir);
    assert events[1..] == rest;
    LiveClaimBlocksRefire(st.state, rest, key);
    FiredAppend(st.effects, Run(st.state, rest).effects, key);
  }

  /** The bodies carried by a run of deliveries, in order. */
  function Bodies(events: seq<Timed>): seq<string>
    decreases |events|
  {
    if |events| == 0 then []
    else
      (if InboundShape(events[0].payload) then [events[0].payload.data.value.body.value] else [])
      + Bodies(events[1..])
  }

  /**
   * Deliveries that reach the buffer for conversation `userId` while the handoff map is `h`:
   * the sender's JID, when the payload carries one, has no live handoff record.
   */
  predicate Buffers(e: Timed, userId: string, h: map<string, int>) {
    && e.payload.event != Some(OUTBOUND_EVENT)
    && InboundShape(e.payload)
    && e.payload.data.value.fromNumber == Some(userId)
    && (Given(e.payload.data.value.from) ==>
          !TtlCache.Live(h, e.payload.data.value.from.value, e.now, HUMAN_HANDOFF_TIMEOUT_MS))
    && HUMANO_LABEL !in e.payload.data.value.labels
    && e.dir.reachable
  }

  /** `a` keeps some of the entries of `b`, unchanged. */
  predicate SubMap(a: map<string, int>, b: map<string, int>) {
    forall k :: k in a ==> k in b && a[k] == b[k]
  }

  /** Deliveries that reach the buffer still do once handoff records have been deleted. */
  lemma BuffersTail(events: seq<Timed>, userId: string, a: map<string, int>, b: map<string, int>)
    requires |events| > 0 && SubMap(a, b)
    requires forall i :: 0 <= i < |events| ==> Buffers(events[i], userId, b)
    ensures forall i :: 0 <= i < |events[1..]| ==> Buffers(events[1..][i], userId, a)
  {
    forall i | 0 <= i < |events[1..]| ensures Buffers(events[1..][i], userId, a) {
      assert events[1..][i] == events[i + 1];
      assert Buffers(events[i + 1], userId, b);
    }
  }

  /**
   * Debounce: deliveries for one conversation, starting with no pending entry, accumulate all
   * their bodies in arrival order in a single entry whose one timer is due `BUFFER_DELAY_MS` after
   * the LAST delivery. When every gap is shorter than `BUFFER_DELAY_MS`, each delivery arrives
   * before the timer set by the previous one is due, so no flush can run in between; the one
   * flush that follows then carries all bodies joined by single spaces.
   */
  lemma {:induction false} DebounceAccumulates(s: State, events: seq<Timed>, userId: string, prefix: seq<string>)
    requires |events| > 0
    requires forall i :: 0 <= i < |events| ==> Buffers(events[i], userId, s.handoff)
    requires if prefix == [] then userId !in s.buffer
             else userId in s.buffer && s.buffer[userId].messages == prefix
    ensures var r := Run(s, events);
      && userId in r.state.buffer
      && r.state.buffer[userId].messages == prefix + Bodies(events)
      && r.state.buffer[userId].timer.due == events[|events| - 1].now + BUFFER_DELAY_MS
    decreases |events|
  {
    var st := BuffersHead(s, events, userId);
    var tail := events[1..];
    var next := prefix + [events[0].payload.data.value.body.value];
    if |events| == 1 {
      assert Run(st, tail).state == st;
      BodiesOne(events);
    } else {
      BuffersTail(events, userId, st.handoff, s.handoff);
      DebounceAccumulates(st, tail, userId, next);
      AppendBodies(prefix, events[0].payload.data.value.body.value, Bodies(tail), Bodies(events));
      assert tail[|tail| - 1] == events[|events| - 1];
    }
  }

  /** A run of one delivery leaves no bodies after the first. */
  lemma BodiesOne(events: seq<Timed>)
    requires |events| == 1
    ensures Bodies(events[1..]) == []
  {
  }

  /** Appending the first body to the prefix, then the rest, is appending all bodies. */
  lemma AppendBodies(prefix: seq<string>, body: string, rest: seq<string>, all: seq<string>)
    requires all == [body] + rest
    ensures (prefix + [body]) + rest == prefix + all
  {
  }

  /** The first of a run of buffered deliveries for `userId`: its body is appended, its timer set. */
  lemma BuffersHead(s: State, events: seq<Timed>, userId: string) returns (st: State)
    requires |events| > 0 && Buffers(events[0], userId, s.handoff)
    ensures Run(s, events).state == Run(st, events[1..]).state
    ensures SubMap(st.handoff, s.handoff)
    ensures Bodies(events) == [events[0].payload.data.value.body.value] + Bodies(events[1..])
    ensures userId in st.buffer
    ensures st.buffer[userId].messages
         == (if userId in s.buffer then s.buffer[userId].messages else []) + [events[0].payload.data.value.body.value]
    ensures st.buffer[userId].timer.due == events[0].now + BUFFER_DELAY_MS
  {
    var e := events[0];
    var p := e.payload;
    st := Handle(s, e.now, p, e.dir).state;
    var s1 := ClearExpiredHandoff(s, p);
    assert SubMap(s1.handoff, s.handoff);
    assert Handle(s, e.now, p, e.dir) == AfterHandoff(s1, e.now, p, e.dir);
    var slug := if Resolve(e.dir, p.deviceId).Found? && Given(p.deviceId)
                then Some(Resolve(e.dir, p.deviceId).tenant.slug) else None;
    var lead := LeadStage(s1, e.now, p, slug);
    assert SubMap(lead.state.handoff, s1.handoff);
    assert st.handoff == lead.state.handoff;
    assert Handle(s, e.now, p, e.dir).reply == Buffered;
    BufferAppends(s, e.now, p, e.dir);
  }

  /**
   * The flush after a debounced burst delivers all bodies joined by single spaces. The gap
   * requirement is what lets the scheduler run no flush before the last delivery: each delivery
   * arrives before the timer set by the previous one is due (the proof itself needs only the
   * run of buffered deliveries).
   */
  lemma DebouncedFlushJoinsAll(s: State, events: seq<Timed>, userId: string, dir: Directory)
    requires |events| > 0 && userId !in s.buffer
    requires forall i :: 0 <= i < |events| ==> Buffers(events[i], userId, s.handoff)
    requires forall i :: 0 <= i < |events| - 1 ==> events[i + 1].now < events[i].now + BUFFER_DELAY_MS
    ensures var r := Run(s, events);
      userId in r.state.buffer &&
      var f := Flush(r.state, userId, dir);
      && userId !in f.state.buffer
      && (f.outcome.Delivered? ==> f.outcome.data.body == Some(Join(Bodies(events), " ")))
  {
    DebounceAccumulates(s, events, userId, []);
    assert [] + Bodies(events) == Bodies(events);
  }

  // ---------------------------------------------------------------------------------------------
  // The router object.

  class WebhookRouter {
    var humanHandoffState: map<string, int>
    var leadSentCache: map<string, int>
    var messageBuffer: map<string, BufferEntry>
    var leadCallsInFlight: multiset<LeadCall>

    function Snapshot(): State
      reads this
    {
      State(humanHandoffState, leadSentCache, messageBuffer, leadCallsInFlight)
    }

    constructor ()
      ensures Snapshot() == Initial
    {
      humanHandoffState := map[];
      leadSentCache := map[];
      messageBuffer := map[];
      leadCallsInFlight := multiset{};
    }

    /** `cleanupAllCaches`, fired by the 5-minute interval or after a lead claim. */
    method CleanupAllCaches(now: int) returns (leadsCleaned: nat, handoffsCleaned: nat)
      modifies this
      ensures Snapshot() == SweepState(old(Snapshot()), now)
      ensures leadsCleaned == |old(leadSentCache)| - |leadSentCache|
      ensures handoffsCleaned == |old(humanHandoffState)| - |humanHandoffState|
    {
      leadSentCache, leadsCleaned := TtlCache.Sweep(leadSentCache, now, LEAD_CACHE_TTL_MS);
      humanHandoffState, handoffsCleaned := TtlCache.Sweep(humanHandoffState, now, HUMAN_HANDOFF_TIMEOUT_MS);
    }

    /** `router.post('/whatsapp', ...)`. */
    method OnWebhook(now: int, p: Payload, dir: Directory) returns (reply: Reply, effects: seq<Effect>)
      modifies this
      ensures Step(Snapshot(), reply, effects) == Handle(old(Snapshot()), now, p, dir)
    {
      if p.event == Some(OUTBOUND_EVENT) {
        reply, effects := OnOutbound(now, p, dir);
      } else {
        reply, effects := OnInbound(now, p, dir);
      }
    }

    method OnOutbound(now: int, p: Payload, dir: Directory) returns (reply: Reply, effects: seq<Effect>)
      modifies this
      ensures Step(Snapshot(), reply, effects) == Outbound(old(Snapshot()), now, p, dir)
    {
      effects := [];
      if p.data.Some? && Given(p.data.value.agent) {
        var targetId := p.data.value.to;
        if Given(targetId) {
          humanHandoffState := humanHandoffState[targetId.value := now];
          if Given(p.deviceId) {
            var lookup := Resolve(dir, p.deviceId);
            if lookup.Found? {
              effects := [Record(lookup.tenant.slug, HandoffEvent, targetId.value)];
            }
          }
        }
      }
      reply := Acknowledged;
    }

    method OnInbound(now: int, p: Payload, dir: Directory) returns (reply: Reply, effects: seq<Effect>)
      modifies this
      ensures Step(Snapshot(), reply, effects) == Inbound(old(Snapshot()), now, p, dir)
    {
      if !InboundShape(p) {
        return Acknowledged, [];
      }
      var userJid := p.data.value.from;
      if Given(userJid) && userJid.value in humanHandoffState && humanHandoffState[userJid.value] != 0 {
        var timeElapsed := now - humanHandoffState[userJid.value];
        if timeElapsed < HUMAN_HANDOFF_TIMEOUT_MS {
          return SuppressedByHandoff, [];
        }
        humanHandoffState := humanHandoffState - {userJid.value};
      }
      reply, effects := OnUnsuppressed(now, p, dir);
    }

    /** Everything after the handoff check: label, tenant lookup, analytics, lead, buffer. */
    method OnUnsuppressed(now: int, p: Payload, dir: Directory) returns (reply: Reply, effects: seq<Effect>)
      requires InboundShape(p)
      modifies this
      ensures Step(Snapshot(), reply, effects) == AfterHandoff(old(Snapshot()), now, p, dir)
    {
      var d := p.data.value;
      if HUMANO_LABEL in d.labels {
        return SuppressedByLabel, [];
      }
      var clientSlug: Option<string> := None;
      if Given(p.deviceId) {
        var lookup := Resolve(dir, p.deviceId);
        if lookup.LookupFailed? {
          return InternalError, [];
        }
        if lookup.Found? {
          clientSlug := Some(lookup.tenant.slug);
        }
      }
      var leadEffects := ClaimLead(now, p, clientSlug);
      effects := ConversationEvents(clientSlug, d) + leadEffects;
      BufferMessage(now, p);
      reply := Buffered;
    }

    /** The lead check-then-claim: the cache is written before the tracking call is started. */
    method ClaimLead(now: int, p: Payload, clientSlug: Option<string>) returns (effects: seq<Effect>)
      requires InboundShape(p)
      modifies this
      ensures Staged(Snapshot(), effects) == LeadStage(old(Snapshot()), now, p, clientSlug)
    {
      effects := [];
      var d := p.data.value;
      if LeadEligible(d) {
        var isLeadSent := LeadAlreadySent(d);
        var leadCacheKey := LeadCacheKey(clientSlug, d.fromNumber.value);
        var isLeadInCache := leadCacheKey in leadSentCache && leadSentCache[leadCacheKey] != 0
                             && now - leadSentCache[leadCacheKey] < LEAD_CACHE_TTL_MS;
        if !isLeadSent && !isLeadInCache && Given(p.deviceId) && Given(clientSlug) {
          leadSentCache := leadSentCache[leadCacheKey := now];
          var call := LeadCall(leadCacheKey, clientSlug.value, d.fromNumber.value);
          leadCallsInFlight := leadCallsInFlight + multiset{call};
          var _, _ := CleanupAllCaches(now);
          effects := [TrackLead(call)];
        }
      }
    }

    /** Append the body to the conversation's entry and replace its pending timer. */
    method BufferMessage(now: int, p: Payload)
      requires InboundShape(p)
      modifies this
      ensures Snapshot() == BufferStage(old(Snapshot()), now, p)
    {
      var d := p.data.value;
      var userId := d.fromNumber.value;
      var messages := if userId in messageBuffer then messageBuffer[userId].messages + [d.body.value] else [d.body.value];
      messageBuffer := messageBuffer[userId := BufferEntry(messages, PendingFlush(p.deviceId, d, now + BUFFER_DELAY_MS))];
    }

    /** The pending timer of `key` fires; the scheduler runs it no earlier than it is due. */
    method FireFlush(key: string, now: int, dir: Directory) returns (outcome: FlushOutcome)
      requires key in messageBuffer && now >= messageBuffer[key].timer.due
      modifies this
      ensures Flushed(Snapshot(), outcome) == Flush(old(Snapshot()), key, dir)
    {
      var entry := messageBuffer[key];
      var combinedMessage := Join(entry.messages, " ");
      messageBuffer := messageBuffer - {key};
      var lookup := Resolve(dir, entry.timer.deviceId);
      if lookup.LookupFailed? {
        return Dropped;
      }
      if lookup.NotFound? || !Given(lookup.tenant.webhookUrl) {
        return NoWebhookUrl;
      }
      outcome := Delivered(lookup.tenant.webhookUrl.value, entry.timer.deviceId, entry.timer.data.(body := Some(combinedMessage)));
    }

    /** The `trackLeadEvent` promise of `call` settles. */
    method OnLeadResult(call: LeadCall, success: bool) returns (effects: seq<Effect>)
      requires call in leadCallsInFlight
      modifies this
      ensures Staged(Snapshot(), effects) == LeadResult(old(Snapshot()), call, success)
    {
      leadCallsInFlight := leadCallsInFlight - multiset{call};
      if success {
        effects := [Record(call.slug, LeadEvent, call.phone), MarkLeadSent(call.slug, call.phone)];
      } else {
        leadSentCache := leadSentCache - {call.cacheKey};
        effects := [];
      }
    }
  }
}
