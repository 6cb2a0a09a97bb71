/**
 * The admin API's input schemas: `ConfigSchema` for a tenant configuration and `UserSchema` for an
 * admin user. A parse either succeeds with the defaults filled in or fails with every issue found,
 * in schema order. The URL and e-mail format checks are injected predicates. Inputs are already
 * typed: a field of the wrong JSON type is not modelled. An optional field is `None` when it is
 * undefined.
 */
module Validators {
  import opened Wrappers
  import opened Text

  const MIN_SLUG_LENGTH: nat := 3
  const MIN_USERNAME_LENGTH: nat := 3
  const MIN_PASSWORD_LENGTH: nat := 6
  const DEFAULT_TIMEZONE: string := "America/Mexico_City"

  datatype Issue =
    | SlugTooShort | SlugPattern | NameEmpty | InvalidUrl | PixelIdPattern | NoLocations
    | UsernameTooShort | InvalidEmail | PasswordTooShort

  datatype MetaInput = MetaInput(pixelId: Option<string>, accessToken: Option<string>)

  datatype WassengerInput = WassengerInput(apiKey: Option<string>, deviceId: Option<string>)

  datatype LocationGoogle = LocationGoogle(bookingCalendarId: string, availabilityCalendars: seq<string>)

  datatype LocationInput = LocationInput(name: string, address: string, phone: Option<string>,
                                         mapUrl: string, google: LocationGoogle)

  datatype ConfigInput = ConfigInput(
    slug: string,
    name: string,
    isActive: Option<bool>,
    webhookUrl: string,
    timezone: Option<string>,
    meta: Option<MetaInput>,
    wassenger: Option<WassengerInput>,
    locations: seq<LocationInput>,
    reminderTemplates: Option<map<string, string>>)

  /** The parsed configuration, with every default applied. */
  datatype ConfigOutput = ConfigOutput(
    slug: string,
    name: string,
    isActive: bool,
    webhookUrl: string,
    timezone: string,
    meta: Option<MetaInput>,
    wassenger: Option<WassengerInput>,
    locations: seq<LocationInput>,
    reminderTemplates: map<string, string>)

  datatype UserInput = UserInput(username: string, email: string, password: string)

  /** `[a-z0-9_]`. */
  predicate SlugChar(c: char) {
    'a' <= c <= 'z' || '0' <= c <= '9' || c == '_'
  }

  /** The issues of one check: none when it passes. */
  function Check(ok: bool, issue: Issue): (r: seq<Issue>)
    ensures r == [] <==> ok
    ensures !ok ==> issue in r
  {
    if ok then [] else [issue]
  }

  /**
   * `z.string().min(3).regex(/^[a-z0-9_]+$/)`: both checks run and report independently. zod's
   * `min` compares the JavaScript length, in UTF-16 code units.
   */
  function SlugIssues(slug: string): seq<Issue> {
    Check(JsLength(slug) >= MIN_SLUG_LENGTH, SlugTooShort)
      + Check(|slug| > 0 && forall i :: 0 <= i < |slug| ==> SlugChar(slug[i]), SlugPattern)
  }

  /** `z.string().regex(/^\d+$/).optional().or(z.literal(''))`. */
  function PixelIdIssues(pixelId: Option<string>): seq<Issue> {
    match pixelId
    case None => []
    case Some(p) => Check(p == "" || (|p| > 0 && AllDigits(p)), PixelIdPattern)
  }

  function MetaIssues(meta: Option<MetaInput>): seq<Issue> {
    if meta.None? then [] else PixelIdIssues(meta.value.pixelId)
  }

  /** Every issue of a configuration, in schema order. */
  function ConfigIssues(input: ConfigInput, isUrl: string -> bool): seq<Issue> {
    SlugIssues(input.slug)
      + Check(JsLength(input.name) >= 1, NameEmpty)
      + Check(isUrl(input.webhookUrl), InvalidUrl)
      + MetaIssues(input.meta)
      + Check(|input.locations| >= 1, NoLocations)
  }

  /** `ConfigSchema.safeParse`: the defaults for `isActive`, `timezone` and `reminderTemplates`. */
  function ParseConfig(input: ConfigInput, isUrl: string -> bool): (r: Result<ConfigOutput, seq<Issue>>)
    ensures r.Err? <==> ConfigIssues(input, isUrl) != []
    ensures r.Err? ==> r.error == ConfigIssues(input, isUrl)
    ensures r.Ok? ==>
      && r.value.slug == input.slug && r.value.name == input.name && r.value.webhookUrl == input.webhookUrl
      && r.value.isActive == input.isActive.GetOr(true)
      && r.value.timezone == input.timezone.GetOr(DEFAULT_TIMEZONE)
      && r.value.reminderTemplates == input.reminderTemplates.GetOr(map[])
      && r.value.meta == input.meta && r.value.wassenger == input.wassenger
      && r.value.locations == input.locations
  {
    var issues := ConfigIssues(input, isUrl);
    if issues != [] then Err(issues)
    else
      Ok(ConfigOutput(input.slug, input.name, input.isActive.GetOr(true), input.webhookUrl,
                      input.timezone.GetOr(DEFAULT_TIMEZONE), input.meta, input.wassenger,
                      input.locations, input.reminderTemplates.GetOr(map[])))
  }

  /** `UserSchema.safeParse`; both `min` checks compare UTF-16 lengths. */
  function UserIssues(input: UserInput, isEmail: string -> bool): seq<Issue> {
    Check(JsLength(input.username) >= MIN_USERNAME_LENGTH, UsernameTooShort)
      + Check(isEmail(input.email), InvalidEmail)
      + Check(JsLength(input.password) >= MIN_PASSWORD_LENGTH, PasswordTooShort)
  }

  function ParseUser(input: UserInput, isEmail: string -> bool): (r: Result<UserInput, seq<Issue>>)
    ensures r.Err? <==> UserIssues(input, isEmail) != []
    ensures r.Ok? ==> r.value == input
    ensures r.Err? ==> r.error == UserIssues(input, isEmail)
  {
    var issues := UserIssues(input, isEmail);
    if issues != [] then Err(issues) else Ok(input)
  }

  /** A slug is accepted iff it has at least three characters, all of them in `[a-z0-9_]`. */
  lemma SlugRule(slug: string)
    ensures SlugIssues(slug) == [] <==> JsLength(slug) >= 3 && forall c :: c in slug ==> SlugChar(c)
    ensures SlugIssues(slug) == [] ==> JsLength(slug) == |slug|
  {
    if forall c :: c in slug ==> SlugChar(c) {
      assert forall i :: 0 <= i < |slug| ==> slug[i] in slug;
      JsLengthBmp(slug);
    }
  }

  /** `pixelId` is accepted iff it is absent, empty, or a run of digits. */
  lemma PixelIdRule(pixelId: Option<string>)
    ensures PixelIdIssues(pixelId) == [] <==>
      pixelId.None? || pixelId.value == "" || forall c :: c in pixelId.value ==> IsDigit(c)
  {
    if pixelId.Some? && forall c :: c in pixelId.value ==> IsDigit(c) {
      var p := pixelId.value;
      assert forall i :: 0 <= i < |p| ==> p[i] in p;
    }
  }

  /**
   * A configuration is accepted iff its slug, name, URL, pixel id and location count each pass:
   * the five checks are independent and none of them masks another.
   */
  lemma {:induction false} ConfigAccepted(input: ConfigInput, isUrl: string -> bool)
    ensures ParseConfig(input, isUrl).Ok? <==>
      && SlugIssues(input.slug) == []
      && input.name != ""
      && isUrl(input.webhookUrl)
      && MetaIssues(input.meta) == []
      && |input.locations| >= 1
  {
    var a, b, c, d, e := SlugIssues(input.slug), Check(JsLength(input.name) >= 1, NameEmpty),
      Check(isUrl(input.webhookUrl), InvalidUrl), MetaIssues(input.meta), Check(|input.locations| >= 1, NoLocations);
    assert ConfigIssues(input, isUrl) == a + b + c + d + e;
    assert |a + b + c + d + e| == |a| + |b| + |c| + |d| + |e|;
  }

  /** A user is accepted iff the username has three characters, the e-mail passes, the password six. */
  lemma {:induction false} UserAccepted(input: UserInput, isEmail: string -> bool)
    ensures ParseUser(input, isEmail).Ok? <==>
      JsLength(input.username) >= 3 && isEmail(input.email) && JsLength(input.password) >= 6
  {
    var a, b, c := Check(JsLength(input.username) >= MIN_USERNAME_LENGTH, UsernameTooShort),
      Check(isEmail(input.email), InvalidEmail), Check(JsLength(input.password) >= MIN_PASSWORD_LENGTH, PasswordTooShort);
    assert |a + b + c| == |a| + |b| + |c|;
  }

  /**
   * A password of three characters outside the Basic Multilingual Plane (three emoji, say) is six
   * UTF-16 code units long, so it is not too short.
   */
  lemma AstralPasswordLongEnough(input: UserInput, isEmail: string -> bool)
    requires |input.password| == 3 && forall i :: 0 <= i < 3 ==> input.password[i] as int >= 0x1_0000
    ensures PasswordTooShort !in UserIssues(input, isEmail)
  {
    JsLengthAstral(input.password);
  }
}
