/**
 * The integration's constants and its two voluptuous schemas: the webhook
 * payload schema (three required keys coerced to strings, extra keys allowed)
 * and the setup-form schema (exactly three keys coerced to strings).
 */
module Const {
  import opened Wrappers
  import opened Json

  const DOMAIN := "bouncie"
  const BOUNCIE_EVENT := DOMAIN + "_webhook"
  const HA_URL := "/api/" + DOMAIN
  const BOUNCIE_PORTAL := "https://www.bouncie.dev/"
  const OAUTH2_AUTHORIZE := "https://auth.bouncie.com/dialog/authorize"
  const OAUTH2_TOKEN := "https://auth.bouncie.com/oauth/token"

  // Keys of the per-entry slot in the domain data.
  const API := "api"
  const VEHICLES_COORDINATOR := "vehicles_coordinator"

  // Setup-form keys (Home Assistant's own constants).
  const CONF_CLIENT_ID := "client_id"
  const CONF_CLIENT_SECRET := "client_secret"
  const CONF_API_KEY := "api_key"

  // Webhook payload and vehicle record keys.
  const ATTR_EVENT := "eventType"
  const ATTR_IMEI := "imei"
  const ATTR_VIN := "vin"
  const ATTR_DATA := "data"
  const ATTR_GPS := "gps"
  const ATTR_LAT := "lat"
  const ATTR_LON := "lon"

  // Webhook event types.
  const EVENT_CONNECT := "connect"
  const EVENT_DISCONNECT := "disconnect"
  const EVENT_BATTERY := "battery"
  const EVENT_MIL := "mil"
  const EVENT_TRIPSTART := "tripStart"
  const EVENT_TRIPEND := "tripEnd"
  const EVENT_TRIPMETRICS := "tripMetrics"
  const EVENT_TRIPDATA := "tripData"

  const EVENT_TYPES := [EVENT_CONNECT, EVENT_DISCONNECT, EVENT_BATTERY, EVENT_MIL,
                        EVENT_TRIPSTART, EVENT_TRIPEND, EVENT_TRIPMETRICS, EVENT_TRIPDATA]

  const DEVICE_TRACKER := "device_tracker"
  const SENSOR := "sensor"
  const PLATFORMS := [DEVICE_TRACKER, SENSOR]

  /** No event type is spelled like another, so no event selects two branches. */
  lemma EventTypesDistinct()
    ensures forall i, j :: 0 <= i < j < |EVENT_TYPES| ==> EVENT_TYPES[i] != EVENT_TYPES[j]
    ensures EVENT_TRIPEND != EVENT_TRIPDATA
  {
  }

  /** What voluptuous reports: not a dict, or the required keys missing and the extra keys refused. */
  datatype SchemaError = ExpectedDictionary | KeyErrors(missing: set<string>, extra: set<string>)

  /** The Python `str` of a non-string value; the runtime's rendering is a parameter. */
  type Render = Value -> string

  /** `vol.Coerce(str)`: a string is kept as it is, any other value is rendered; it never fails. */
  function Coerce(v: Value, render: Render): string {
    if v.Str? then v.s else render(v)
  }

  const WEBHOOK_REQUIRED := {ATTR_EVENT, ATTR_IMEI, ATTR_VIN}

  /** The three required payload keys come out of validation as strings. */
  predicate CoercedToString(payload: map<string, Value>, status: map<string, Value>, key: string)
    requires key in payload && key in status
  {
    status[key].Str? && (payload[key].Str? ==> status[key] == payload[key])
  }

  /** `WEBHOOK_RESPONSE_SCHEMA(data)`. */
  function ValidateWebhook(payload: Value, render: Render): (r: Result<map<string, Value>, SchemaError>)
    ensures r.Success? <==> payload.Obj? && ATTR_EVENT in payload.fields
                            && ATTR_IMEI in payload.fields && ATTR_VIN in payload.fields
    ensures r.Success? ==> r.value.Keys == payload.fields.Keys
    ensures r.Success? ==> forall k :: k in r.value && k !in WEBHOOK_REQUIRED ==> r.value[k] == payload.fields[k]
    ensures r.Success? ==> && CoercedToString(payload.fields, r.value, ATTR_EVENT)
                           && CoercedToString(payload.fields, r.value, ATTR_IMEI)
                           && CoercedToString(payload.fields, r.value, ATTR_VIN)
    ensures r.Failure? && payload.Obj? ==> r.error == KeyErrors(WEBHOOK_REQUIRED - payload.fields.Keys, {})
  {
    match payload
    case Obj(fields) =>
      if WEBHOOK_REQUIRED <= fields.Keys then
        Success(fields[ATTR_EVENT := Str(Coerce(fields[ATTR_EVENT], render))]
                      [ATTR_IMEI := Str(Coerce(fields[ATTR_IMEI], render))]
                      [ATTR_VIN := Str(Coerce(fields[ATTR_VIN], render))])
      else
        Failure(KeyErrors(WEBHOOK_REQUIRED - fields.Keys, {}))
    case _ => Failure(ExpectedDictionary)
  }

  datatype Config = Config(clientId: string, clientSecret: string, apiKey: string)

  const CONFIG_KEYS := {CONF_CLIENT_ID, CONF_CLIENT_SECRET, CONF_API_KEY}

  /** `BOUNCIE_SCHEMA(user_input)`: no `extra=` is given, so voluptuous refuses extra keys. */
  function ValidateConfig(input: Value, render: Render): (r: Result<Config, SchemaError>)
    ensures r.Success? <==> input.Obj? && input.fields.Keys == CONFIG_KEYS
    ensures r.Success? && input.fields[CONF_CLIENT_ID].Str? ==> r.value.clientId == input.fields[CONF_CLIENT_ID].s
    ensures r.Success? && input.fields[CONF_CLIENT_SECRET].Str? ==> r.value.clientSecret == input.fields[CONF_CLIENT_SECRET].s
    ensures r.Success? && input.fields[CONF_API_KEY].Str? ==> r.value.apiKey == input.fields[CONF_API_KEY].s
    ensures r.Failure? && input.Obj? ==> r.error == KeyErrors(CONFIG_KEYS - input.fields.Keys, input.fields.Keys - CONFIG_KEYS)
  {
    match input
    case Obj(fields) =>
      if fields.Keys == CONFIG_KEYS then
        Success(Config(Coerce(fields[CONF_CLIENT_ID], render),
                       Coerce(fields[CONF_CLIENT_SECRET], render),
                       Coerce(fields[CONF_API_KEY], render)))
      else
        Failure(KeyErrors(CONFIG_KEYS - fields.Keys, fields.Keys - CONFIG_KEYS))
    case _ => Failure(ExpectedDictionary)
  }
}
