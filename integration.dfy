/**
 * Setting up and unloading a config entry: the domain-data bookkeeping,
 * the first coordinator refresh, and what a failing user-info call decides.
 */
module Integration {
  import opened Wrappers
  import opened Json
  import opened Const
  import opened Vehicles
  import opened Common
  import opened Host

  datatype ConfigEntry = ConfigEntry(entryId: string, uniqueId: Option<string>, data: Config)

  /** How `api.async_get_user()` ended. */
  datatype UserFetch =
    | UserOk
    | HttpUnauthorized
    | ClientResponseError(status: int)
    | OtherError

  /** What setup does after the user-info call. */
  datatype Decision =
    | Proceed
    | Abort
    | Reauthenticate(startFlow: bool)
    | Propagate

  /** What `async_setup_entry` gives back to the host: a boolean, or an exception. */
  datatype SetupOutcome = Returned(loaded: bool) | Raised

  const SOURCE_REAUTH := "reauth"

  /** A reauth flow for this unique id is already in progress. */
  predicate ReauthInProgress(flows: seq<FlowContext>, uniqueId: Option<string>) {
    exists i :: 0 <= i < |flows| && flows[i].source == SOURCE_REAUTH && flows[i].uniqueId == uniqueId
  }

  /**
   * The `except (HTTPUnauthorized, ClientResponseError)` branch: a response
   * error other than 400 or 401 aborts setup; an unauthorized error or a 400
   * or 401 asks for reauthentication, starting a flow only when none is in
   * progress for the entry; any other exception escapes setup.
   */
  function SetupDecision(user: UserFetch, flows: seq<FlowContext>, uniqueId: Option<string>): (d: Decision)
    ensures d == Proceed <==> user == UserOk
    ensures d == Abort <==> user.ClientResponseError? && user.status != 400 && user.status != 401
    ensures d.Reauthenticate? <==> user == HttpUnauthorized || (user.ClientResponseError? && user.status in {400, 401})
    ensures d.Reauthenticate? ==> (d.startFlow <==> !ReauthInProgress(flows, uniqueId))
    ensures d == Propagate <==> user == OtherError
  {
    match user
    case UserOk => Proceed
    case OtherError => Propagate
    case ClientResponseError(status) =>
      if status != 400 && status != 401 then Abort
      else Reauthenticate(!ReauthInProgress(flows, uniqueId))
    case HttpUnauthorized => Reauthenticate(!ReauthInProgress(flows, uniqueId))
  }

  /** The entry's slot after setup: whatever it held, plus the API and the coordinator. */
  function FilledSlot(slots: map<string, map<string, Handle>>, entryId: string, coordinator: VehiclesCoordinator)
    : map<string, Handle>
  {
    (if entryId in slots then slots[entryId] else map[])[API := ApiHandle][VEHICLES_COORDINATOR := CoordinatorHandle(coordinator)]
  }

  function ImplementationFor(entry: ConfigEntry): Implementation {
    Implementation(entry.data.clientId, entry.data.clientSecret, entry.data.apiKey, OAUTH2_AUTHORIZE, OAUTH2_TOKEN)
  }

  function ForwardTasks(entryId: string, platforms: seq<string>): (tasks: seq<Task>)
    ensures |tasks| == |platforms|
  {
    seq(|platforms|, i requires 0 <= i < |platforms| => ForwardEntrySetup(entryId, platforms[i]))
  }

  /**
   * The bookkeeping at the top of `async_setup_entry`: register the OAuth2
   * implementation, create the coordinator and refresh it once, then put the
   * API and the coordinator in the entry's slot and record the client id.
   */
  method Register(hass: Hass, entry: ConfigEntry, fetched: Result<seq<Vehicle>, FetchError>)
    returns (coordinator: VehiclesCoordinator)
    modifies hass`entrySlots, hass`clientIds, hass`implementations
    ensures fresh(coordinator) && coordinator.Valid()
    ensures coordinator.lastUpdateSuccess == fetched.Success?
    ensures coordinator.data == if fetched.Success? then KeyByVin(fetched.value) else NoVehicles
    ensures hass.entrySlots == old(hass.entrySlots)[entry.entryId := FilledSlot(old(hass.entrySlots), entry.entryId, coordinator)]
    ensures hass.clientIds == old(hass.clientIds) + {entry.data.clientId}
    ensures hass.implementations == old(hass.implementations)[entry.data.clientId := ImplementationFor(entry)]
  {
    var slot := if entry.entryId in hass.entrySlots then hass.entrySlots[entry.entryId] else map[];
    var implementation := ImplementationFor(entry);
    hass.implementations := hass.implementations[implementation.clientId := implementation];
    coordinator := new VehiclesCoordinator();
    coordinator.Refresh(fetched);
    slot := slot[API := ApiHandle][VEHICLES_COORDINATOR := CoordinatorHandle(coordinator)];
    hass.entrySlots := hass.entrySlots[entry.entryId := slot];
    hass.clientIds := hass.clientIds + {entry.data.clientId};
  }

  /** Register the webhook view and schedule one forward-setup task per platform, in order. */
  method Forward(hass: Hass, entryId: string)
    modifies hass`views, hass`tasks
    ensures hass.views == old(hass.views) + [HA_URL]
    ensures hass.tasks == old(hass.tasks) + ForwardTasks(entryId, PLATFORMS)
  {
    hass.views := hass.views + [HA_URL];
    for i := 0 to |PLATFORMS|
      invariant hass.views == old(hass.views) + [HA_URL]
      invariant hass.tasks == old(hass.tasks) + ForwardTasks(entryId, PLATFORMS[..i])
    {
      assert ForwardTasks(entryId, PLATFORMS[..i + 1])
             == ForwardTasks(entryId, PLATFORMS[..i]) + [ForwardEntrySetup(entryId, PLATFORMS[i])];
      hass.tasks := hass.tasks + [ForwardEntrySetup(entryId, PLATFORMS[i])];
    }
    assert PLATFORMS[..|PLATFORMS|] == PLATFORMS;
  }

  /**
   * `async_setup_entry`. The bookkeeping happens before the user-info call,
   * so the entry's slot, its client id and its implementation stay
   * registered even when setup then returns False or raises.
   */
  method SetupEntry(hass: Hass, entry: ConfigEntry, fetched: Result<seq<Vehicle>, FetchError>, user: UserFetch)
    returns (outcome: SetupOutcome, coordinator: VehiclesCoordinator)
    modifies hass
    ensures fresh(coordinator) && coordinator.Valid()
    ensures coordinator.lastUpdateSuccess == fetched.Success?
    ensures coordinator.data == if fetched.Success? then KeyByVin(fetched.value) else NoVehicles
    ensures hass.entrySlots == old(hass.entrySlots)[entry.entryId := FilledSlot(old(hass.entrySlots), entry.entryId, coordinator)]
    ensures hass.clientIds == old(hass.clientIds) + {entry.data.clientId}
    ensures hass.implementations == old(hass.implementations)[entry.data.clientId := ImplementationFor(entry)]
    ensures hass.flowProgress == old(hass.flowProgress) && hass.events == old(hass.events)
    ensures match SetupDecision(user, old(hass.flowProgress), entry.uniqueId)
            case Proceed =>
              && outcome == Returned(true)
              && hass.views == old(hass.views) + [HA_URL]
              && hass.tasks == old(hass.tasks) + ForwardTasks(entry.entryId, PLATFORMS)
            case Abort =>
              outcome == Returned(false) && hass.views == old(hass.views) && hass.tasks == old(hass.tasks)
            case Reauthenticate(startFlow) =>
              && outcome == Returned(false)
              && hass.views == old(hass.views)
              && hass.tasks == old(hass.tasks) +
                   (if startFlow then [InitFlow(DOMAIN, FlowContext(SOURCE_REAUTH, entry.uniqueId), entry.data)] else [])
            case Propagate =>
              outcome == Raised && hass.views == old(hass.views) && hass.tasks == old(hass.tasks)
  {
    coordinator := Register(hass, entry, fetched);
    match user {
      case UserOk =>
        Forward(hass, entry.entryId);
        outcome := Returned(true);
      case OtherError =>
        outcome := Raised;
      case HttpUnauthorized =>
        RequestReauth(hass, entry);
        outcome := Returned(false);
      case ClientResponseError(status) =>
        if status != 400 && status != 401 {
          outcome := Returned(false);
        } else {
          RequestReauth(hass, entry);
          outcome := Returned(false);
        }
    }
  }

  /** Start a reauth flow unless one is already in progress with the entry's unique id. */
  method RequestReauth(hass: Hass, entry: ConfigEntry)
    modifies hass`tasks
    ensures hass.tasks == old(hass.tasks) +
              (if ReauthInProgress(hass.flowProgress, entry.uniqueId) then []
               else [InitFlow(DOMAIN, FlowContext(SOURCE_REAUTH, entry.uniqueId), entry.data)])
  {
    var inProgress := false;
    for i := 0 to |hass.flowProgress|
      invariant inProgress <==> exists k :: 0 <= k < i && hass.flowProgress[k].source == SOURCE_REAUTH
                                                        && hass.flowProgress[k].uniqueId == entry.uniqueId
    {
      var flow := hass.flowProgress[i];
      if flow.source == SOURCE_REAUTH && flow.uniqueId == entry.uniqueId {
        inProgress := true;
      }
    }
    if !inProgress {
      hass.tasks := hass.tasks + [InitFlow(DOMAIN, FlowContext(SOURCE_REAUTH, entry.uniqueId), entry.data)];
    }
  }

  /**
   * `async_unload_entry`: pops exactly the entry's slot and returns True; the
   * client-id set and everything else are left alone. `pop` without a default
   * raises KeyError for an entry that has no slot.
   */
  method UnloadEntry(hass: Hass, entryId: string) returns (r: Result<bool, PyError>)
    modifies hass`entrySlots
    ensures r == if entryId in old(hass.entrySlots) then Success(true) else Failure(KeyError)
    ensures hass.entrySlots == old(hass.entrySlots) - {entryId}
  {
    if entryId !in hass.entrySlots {
      return Failure(KeyError);
    }
    hass.entrySlots := hass.entrySlots - {entryId};
    return Success(true);
  }
}
