/**
 * The one-off migration of the static tenant configuration into the database, as far as it
 * computes the record it upserts: the display name derived from the slug, the defaults, and the
 * encrypted secrets. The loop over tenants, the database and the service-account files are I/O.
 * `encrypt` is the AES-GCM wrapper, passed in as an uninterpreted function.
 */
module MigrateClients {
  import opened Wrappers
  import opened Text
  import opened Tenants

  const PER_LOCATION: string := "PER_LOCATION"

  /** JavaScript's `\w` (ASCII letters, digits and `_`). */
  predicate WordChar(c: char) {
    'a' <= c <= 'z' || 'A' <= c <= 'Z' || '0' <= c <= '9' || c == '_'
  }

  /** `\b\w` matches at `i`: a word character not preceded by one. */
  predicate WordStart(s: string, i: int)
    requires 0 <= i < |s|
  {
    WordChar(s[i]) && (i == 0 || !WordChar(s[i - 1]))
  }

  /** `s.replace(/_/g, ' ')`. */
  function SpacedOut(s: string): (r: string)
    ensures |r| == |s|
    ensures forall i :: 0 <= i < |s| ==> r[i] == (if s[i] == '_' then ' ' else s[i])
  {
    seq(|s|, i requires 0 <= i < |s| => if s[i] == '_' then ' ' else s[i])
  }

  /** `s.replace(/\b\w/g, c => c.toUpperCase())`. */
  function CapitalizeWords(s: string): (r: string)
    ensures |r| == |s|
    ensures forall i :: 0 <= i < |s| ==> r[i] == (if WordStart(s, i) then ToUpperChar(s[i]) else s[i])
  {
    seq(|s|, i requires 0 <= i < |s| => if WordStart(s, i) then ToUpperChar(s[i]) else s[i])
  }

  /** The display name stored for a tenant. */
  function DisplayName(slug: string): string {
    CapitalizeWords(SpacedOut(slug))
  }

  /**
   * The display name has the slug's length and no `_`; every character that starts a word is
   * upper-cased and every other character is the slug's own, with `_` read as a space.
   */
  lemma DisplayNameShape(slug: string)
    ensures var n := DisplayName(slug);
      && |n| == |slug|
      && (forall i :: 0 <= i < |n| ==> n[i] != '_')
      && (forall i :: 0 <= i < |n| ==>
            n[i] == (if WordStart(SpacedOut(slug), i) then ToUpperChar(slug[i]) else SpacedOut(slug)[i]))
  {
    var s := SpacedOut(slug);
    forall i | 0 <= i < |s| ensures DisplayName(slug)[i] != '_' {
      assert s[i] != '_';
    }
  }

  /** Upper-casing keeps word characters word characters, so word starts stay where they were. */
  lemma CapitalizeKeepsStarts(s: string)
    ensures forall i :: 0 <= i < |s| ==> (WordStart(CapitalizeWords(s), i) <==> WordStart(s, i))
  {
  }

  /** Deriving the name from a display name changes nothing more: the derivation is idempotent. */
  lemma DisplayNameIdempotent(slug: string)
    ensures DisplayName(DisplayName(slug)) == DisplayName(slug)
  {
    var n := DisplayName(slug);
    DisplayNameShape(slug);
    assert SpacedOut(n) == n;
    CapitalizeKeepsStarts(SpacedOut(slug));
    assert CapitalizeWords(n) == n;
  }

  /** The slug a display name came from: lower case, spaces back to `_`. */
  function SlugOf(name: string): (r: string)
    ensures |r| == |name|
  {
    seq(|name|, i requires 0 <= i < |name| => if name[i] == ' ' then '_' else ToLowerChar(name[i]))
  }

  /** A slug made of `[a-z0-9_]`, as the configuration schema requires, is recovered from its name. */
  lemma SlugRoundTrip(slug: string)
    requires forall i :: 0 <= i < |slug| ==> 'a' <= slug[i] <= 'z' || '0' <= slug[i] <= '9' || slug[i] == '_'
    ensures SlugOf(DisplayName(slug)) == slug
  {
    var n := DisplayName(slug);
    DisplayNameShape(slug);
    forall i | 0 <= i < |slug| ensures SlugOf(n)[i] == slug[i] {
      if slug[i] == '_' {
        assert n[i] == ' ';
      }
    }
  }

  datatype MetaRecord = MetaRecord(pixelId: string, accessToken: string)

  datatype WassengerRecord = WassengerRecord(deviceId: string, apiKey: string)

  /** The `clientData` upserted for one tenant. */
  datatype ClientRecord = ClientRecord(
    slug: string,
    name: string,
    isActive: bool,
    timezone: string,
    availabilityStrategy: string,
    google: GoogleCalendars,
    locations: map<string, Location>,
    meta: MetaRecord,
    wassenger: WassengerRecord)

  /** `secret ? encrypt(secret) : ''`. */
  function Sealed(secret: Option<string>, encrypt: string -> string): (r: string)
    ensures Given(secret) ==> r == encrypt(secret.value)
    ensures !Given(secret) ==> r == ""
  {
    if Given(secret) then encrypt(secret.value) else ""
  }

  function MigrateRecord(slug: string, cfg: ClientConfig, encrypt: string -> string): ClientRecord {
    ClientRecord(
      slug,
      DisplayName(slug),
      true,
      cfg.timezone,
      if Given(cfg.availabilityStrategy) then cfg.availabilityStrategy.value else PER_LOCATION,
      cfg.google,
      cfg.locations,
      MetaRecord(cfg.meta.pixelId, Sealed(cfg.meta.accessToken, encrypt)),
      WassengerRecord(cfg.wassenger.deviceId, Sealed(Some(cfg.wassenger.apiKey), encrypt)))
  }

  /**
   * Every migrated tenant is active, keeps its slug, timezone and calendars, falls back to
   * `PER_LOCATION` when it names no strategy, and stores its secrets encrypted, or `''` when it
   * has none; the plaintext secret itself is never stored unless `encrypt` returns it.
   */
  lemma MigrationDefaults(slug: string, cfg: ClientConfig, encrypt: string -> string)
    ensures var r := MigrateRecord(slug, cfg, encrypt);
      && r.isActive && r.slug == slug && r.name == DisplayName(slug)
      && r.timezone == cfg.timezone && r.google == cfg.google && r.locations == cfg.locations
      && (!Given(cfg.availabilityStrategy) ==> r.availabilityStrategy == PER_LOCATION)
      && (Given(cfg.availabilityStrategy) ==> r.availabilityStrategy == cfg.availabilityStrategy.value)
      && r.meta.accessToken == (if Given(cfg.meta.accessToken) then encrypt(cfg.meta.accessToken.value) else "")
      && r.wassenger.apiKey == (if cfg.wassenger.apiKey != "" then encrypt(cfg.wassenger.apiKey) else "")
  {
  }
}
