/**
 * The parts of the Home Assistant instance the integration reads and
 * changes: the domain's entry in `hass.data`, the OAuth2 implementations
 * registered for the domain, the config flows in progress, the HTTP views,
 * the tasks handed to the event loop and the events fired on the bus.
 */
module Host {
  import opened Wrappers
  import opened Json
  import opened Const
  import opened Common

  /** A value stored in an entry's slot of the domain data. */
  datatype Handle = ApiHandle | CoordinatorHandle(coordinator: VehiclesCoordinator)

  /** `BouncieOAuth2Implementation`: registered under its client id, which is also its domain. */
  datatype Implementation = Implementation(
    clientId: string,
    clientSecret: string,
    apiKey: string,
    authorizeUrl: string,
    tokenUrl: string)

  datatype FlowContext = FlowContext(source: string, uniqueId: Option<string>)

  /** Work scheduled with `async_create_task`; it runs after the caller returns. */
  datatype Task =
    | InitFlow(domain: string, context: FlowContext, data: Config)
    | ForwardEntrySetup(entryId: string, platform: string)

  datatype BusEvent = BusEvent(eventType: string, data: EventData)

  class Hass {
    /** `hass.data[DOMAIN]` without its client-id set: entry id to slot. */
    var entrySlots: map<string, map<string, Handle>>
    /** `hass.data[DOMAIN][CONF_CLIENT_ID]`. */
    var clientIds: set<string>
    /** The OAuth2 implementations registered for the domain, by their domain. */
    var implementations: map<string, Implementation>
    /** `hass.config_entries.flow.async_progress()`. */
    var flowProgress: seq<FlowContext>
    /** URLs of the registered HTTP views. */
    var views: seq<string>
    var tasks: seq<Task>
    var events: seq<BusEvent>

    constructor (flowProgress: seq<FlowContext>)
      ensures this.flowProgress == flowProgress
      ensures entrySlots == map[] && clientIds == {} && implementations == map[]
      ensures views == [] && tasks == [] && events == []
    {
      this.flowProgress := flowProgress;
      entrySlots := map[];
      clientIds := {};
      implementations := map[];
      views := [];
      tasks := [];
      events := [];
    }
  }
}
