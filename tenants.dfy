/**
 * The static per-tenant configuration (`clients[client_id]` of `config/clients`) as far as the
 * calendar, CRM, marketing and migration code read it. The configuration file itself is not part
 * of this model; a lookup that misses is the "Client ... not found" error of every tool.
 */
module Tenants {
  import opened Wrappers

  datatype GoogleCalendars = GoogleCalendars(availabilityCalendars: seq<string>, bookingCalendarId: string)

  /** A `sede`: its own calendar subset and booking calendar. */
  datatype Location = Location(name: string, google: GoogleCalendars)

  datatype MetaConfig = MetaConfig(pixelId: string, accessToken: Option<string>)

  datatype WassengerConfig = WassengerConfig(deviceId: string, apiKey: string)

  datatype ClientConfig = ClientConfig(
    timezone: string,
    availabilityStrategy: Option<string>,
    google: GoogleCalendars,
    locations: map<string, Location>,
    meta: MetaConfig,
    wassenger: WassengerConfig)

  /** The `clients` record, keyed by tenant slug. */
  type Clients = map<string, ClientConfig>
}
