/**
 * The Meta Conversions API tool: `buildCapiPayload` and the guard and send of `capiSendEvent`.
 * The sha256 digest is an uninterpreted function passed in as `hash`; the clock is the `now`
 * parameter (milliseconds); the Graph API POST is a collaborator from URL and payload to outcome.
 */
module Marketing {
  import opened Wrappers
  import opened Text
  import opened Tenants
  import Seqs

  const DEFAULT_ACTION_SOURCE: string := "website"
  const GRAPH_PREFIX: string := "https://graph.facebook.com/v18.0/"
  const EVENTS_PATH: string := "/events"

  datatype UserData = UserData(phone: Option<string>, email: Option<string>, fbp: Option<string>,
                               fbc: Option<string>, clientUserAgent: Option<string>,
                               clientIpAddress: Option<string>)

  /** The tool's arguments; `actionSource` is `None` when the caller leaves it undefined. */
  datatype CapiArgs = CapiArgs(clientId: string, eventName: string, userData: UserData,
                               eventSourceUrl: Option<string>, eventId: Option<string>,
                               actionSource: Option<string>)

  /** `hashedUserData`; a field is `None` when the object does not carry it. */
  datatype HashedUserData = HashedUserData(em: Option<string>, ph: Option<string>, fbp: Option<string>,
                                           fbc: Option<string>, clientUserAgent: Option<string>,
                                           clientIpAddress: Option<string>)

  /** One element of `data`; an optional field is `None` when the object does not carry it. */
  datatype EventData = EventData(eventName: string, eventTime: int, userData: HashedUserData,
                                 actionSource: string, eventSourceUrl: Option<string>,
                                 eventId: Option<string>)

  datatype CapiPayload = CapiPayload(data: seq<EventData>, accessToken: Option<string>)

  datatype CapiError = ClientNotFound(clientId: string) | SendFailed(message: string)

  /** What the POST returned: a response body, or a transport error message. */
  datatype Transport = Delivered(data: string) | TransportError(message: string)

  /** `email.toLowerCase().trim()`. */
  function NormalizedEmail(email: string): string {
    Trim(ToLower(email))
  }

  /**
   * `phone.replace(/[^0-9]/g, '')`: every digit of `phone`, as often as it occurs and in its
   * order, and nothing else.
   */
  function DigitsOnly(phone: string): (r: string)
    ensures AllDigits(r)
    ensures forall c :: c in r <==> c in phone && IsDigit(c)
    ensures forall c :: c in phone ==> multiset(r)[c] == (if IsDigit(c) then multiset(phone)[c] else 0)
    ensures Seqs.Subsequence(r, phone)
  {
    var r := Seqs.Filter(phone, c => IsDigit(c));
    assert forall i :: 0 <= i < |r| ==> r[i] in r;
    Seqs.FilterSubsequence(phone, c => IsDigit(c));
    r
  }

  /** Keeps `value` when it is truthy, the way `if (x) obj.k = x` does. */
  function IfGiven(value: Option<string>): (r: Option<string>)
    ensures r.Some? <==> Given(value)
    ensures r.Some? ==> r == value
  {
    if Given(value) then value else None
  }

  /**
   * `buildCapiPayload`: one event stamped with the current second, the user data hashed or copied
   * field by field, and the tenant's access token.
   */
  method BuildCapiPayload(args: CapiArgs, cfg: ClientConfig, now: int, hash: string -> string)
    returns (payload: CapiPayload)
    ensures |payload.data| == 1 && payload.accessToken == cfg.meta.accessToken
    ensures var e := payload.data[0];
      && e.eventName == args.eventName
      && e.eventTime * 1000 <= now < (e.eventTime + 1) * 1000
      && e.actionSource == args.actionSource.GetOr(DEFAULT_ACTION_SOURCE)
      && e.eventSourceUrl == IfGiven(args.eventSourceUrl)
      && e.eventId == IfGiven(args.eventId)
    ensures HashedFrom(payload.data[0].userData, args.userData, hash)
    ensures SentEvent(payload.data[0], args, now, hash)
  {
    var hashed := HashUserData(args.userData, hash);
    var event := EventData(args.eventName, now / 1000, hashed, args.actionSource.GetOr(DEFAULT_ACTION_SOURCE),
                           None, None);
    if Given(args.eventSourceUrl) {
      event := event.(eventSourceUrl := args.eventSourceUrl);
    }
    if Given(args.eventId) {
      event := event.(eventId := args.eventId);
    }
    payload := CapiPayload([event], cfg.meta.accessToken);
  }

  /**
   * The one event built for `args` at `now`: its name, the current second, the action source
   * defaulting to `website`, the URL and id only when given, and the user data hashed.
   */
  predicate SentEvent(e: EventData, args: CapiArgs, now: int, hash: string -> string) {
    && e.eventName == args.eventName
    && e.eventTime * 1000 <= now < (e.eventTime + 1) * 1000
    && e.actionSource == args.actionSource.GetOr(DEFAULT_ACTION_SOURCE)
    && e.eventSourceUrl == IfGiven(args.eventSourceUrl)
    && e.eventId == IfGiven(args.eventId)
    && HashedFrom(e.userData, args.userData, hash)
  }

  /**
   * The `user_data` sent for `d`: the e-mail and the phone only when given, hashed after
   * normalisation; the browser and network identifiers only when given, unhashed.
   */
  predicate HashedFrom(u: HashedUserData, d: UserData, hash: string -> string) {
    && (u.em.Some? <==> Given(d.email)) && (u.em.Some? ==> u.em.value == hash(NormalizedEmail(d.email.value)))
    && (u.ph.Some? <==> Given(d.phone)) && (u.ph.Some? ==> u.ph.value == hash(DigitsOnly(d.phone.value)))
    && u.fbp == IfGiven(d.fbp) && u.fbc == IfGiven(d.fbc)
    && u.clientUserAgent == IfGiven(d.clientUserAgent) && u.clientIpAddress == IfGiven(d.clientIpAddress)
  }

  /** The `hashedUserData` object, filled field by field. */
  method HashUserData(d: UserData, hash: string -> string) returns (hashed: HashedUserData)
    ensures HashedFrom(hashed, d, hash)
  {
    hashed := HashedUserData(None, None, None, None, None, None);
    if Given(d.email) {
      hashed := hashed.(em := Some(hash(NormalizedEmail(d.email.value))));
    }
    if Given(d.phone) {
      hashed := hashed.(ph := Some(hash(DigitsOnly(d.phone.value))));
    }
    if Given(d.fbp) {
      hashed := hashed.(fbp := d.fbp);
    }
    if Given(d.fbc) {
      hashed := hashed.(fbc := d.fbc);
    }
    if Given(d.clientUserAgent) {
      hashed := hashed.(clientUserAgent := d.clientUserAgent);
    }
    if Given(d.clientIpAddress) {
      hashed := hashed.(clientIpAddress := d.clientIpAddress);
    }
  }

  /** The Graph API endpoint of a pixel. */
  function EventsUrl(pixelId: string): (url: string)
    ensures StartsWith(url, GRAPH_PREFIX) && Includes(url, pixelId)
    ensures url[|GRAPH_PREFIX|..] == pixelId + EVENTS_PATH
  {
    assert OccursAt(GRAPH_PREFIX + pixelId + EVENTS_PATH, pixelId, |GRAPH_PREFIX|) by {
      assert (GRAPH_PREFIX + pixelId + EVENTS_PATH)[|GRAPH_PREFIX|..|GRAPH_PREFIX| + |pixelId|] == pixelId;
    }
    GRAPH_PREFIX + pixelId + EVENTS_PATH
  }

  /**
   * `capiSendEvent`: an unknown tenant is rejected before any payload is built or sent (`sent` is
   * `None`); otherwise the payload is posted to the tenant's pixel and the tool fails exactly
   * when the POST does.
   */
  method CapiSendEvent(clients: Clients, args: CapiArgs, now: int, hash: string -> string,
                       post: (string, CapiPayload) -> Transport)
    returns (r: Result<string, CapiError>, sent: Option<CapiPayload>)
    ensures args.clientId !in clients <==> sent.None?
    ensures args.clientId !in clients ==> r == Err(ClientNotFound(args.clientId))
    ensures args.clientId in clients ==>
      var outcome := post(EventsUrl(clients[args.clientId].meta.pixelId), sent.value);
      && |sent.value.data| == 1 && sent.value.accessToken == clients[args.clientId].meta.accessToken
      && SentEvent(sent.value.data[0], args, now, hash)
      && (r.Ok? <==> outcome.Delivered?)
      && (r.Ok? ==> r.value == outcome.data)
      && (r.Err? ==> r.error == SendFailed(outcome.message))
  {
    if args.clientId !in clients {
      return Err(ClientNotFound(args.clientId)), None;
    }
    var cfg := clients[args.clientId];
    var payload := BuildCapiPayload(args, cfg, now, hash);
    sent := Some(payload);
    match post(EventsUrl(cfg.meta.pixelId), payload)
    case Delivered(data) =>
      r := Ok(data);
    case TransportError(message) =>
      r := Err(SendFailed(message));
  }

  /** A phone number is hashed by its digits alone: reformatting it does not change `ph`. */
  lemma {:induction false} DigitsOnlyIdempotent(phone: string)
    ensures DigitsOnly(DigitsOnly(phone)) == DigitsOnly(phone)
  {
    var p := DigitsOnly(phone);
    Seqs.FilterAll(p, c => IsDigit(c));
  }

  /** An email that is already lower-cased and trimmed hashes to the same `em`. */
  lemma NormalizedEmailIdempotent(email: string)
    ensures NormalizedEmail(NormalizedEmail(email)) == NormalizedEmail(email)
  {
    var t := NormalizedEmail(email);
    LowerPiece(ToLower(email), t);
    TrimTrimmed(t);
  }

  /** A piece of a lower-cased string is already lower case. */
  lemma LowerPiece(lower: string, t: string)
    requires forall k :: 0 <= k < |lower| ==> ToLowerChar(lower[k]) == lower[k]
    requires Includes(lower, t)
    ensures ToLower(t) == t
  {
    var i :| 0 <= i <= |lower| - |t| && OccursAt(lower, t, i);
    forall k | 0 <= k < |t| ensures ToLowerChar(t[k]) == t[k] {
      assert t[k] == lower[i + k];
    }
  }
}
