# Bouncie integration for Home Assistant — a Dafny model

This project models the core of the Bouncie custom integration for Home
Assistant. The integration connects Bouncie vehicle trackers to Home
Assistant through OAuth2. It polls the vehicle list through a data-update
coordinator that keys the list by VIN. It accepts webhook calls from Bouncie,
validates them and fires them on the event bus. It keeps a GPS device tracker
for every vehicle, and an odometer, fuel-level or speed sensor for each
vehicle whose stats carry that reading at setup. Each of them is updated by
webhook events and by coordinator refreshes. As written, the tracker
platform imports an `ICON` constant that `const.py` does not define, so the
tracker platform fails to import. The model describes the tracker as it would
behave if that import succeeded.

Modules follow the source files:

- `Wrappers`: `Option` and `Result`.
- `Json`: webhook payloads as JSON values, and the Python dictionary and list
  accesses the handlers perform (`d[k]`, `d.get(k)`, `xs[-1]`), each with the
  exception it raises (`KeyError`, `TypeError`, `IndexError`, `AttributeError`).
- `Const` (`const.py`): the constants and the two voluptuous schemas.
- `Vehicles`: the polled vehicle record and the ordered dictionary keyed by VIN.
- `Common` (`common.py`): the coordinator's update and refresh, the OAuth2
  token merges, and the webhook's accept decision.
- `Host`: the part of Home Assistant's state that the core changes. That is
  the domain data, the implementation registry, views, scheduled tasks,
  flows in progress and bus events.
- `Webhook`: the webhook view's `post`.
- `Entity` (`entity.py`): device info, availability and event selection.
- `Sensor` (`sensor.py`) and `DeviceTracker` (`device_tracker.py`): the
  entity classes, with their cached readings as mutable fields, and the
  platform setups.
- `Integration` (`__init__.py`): setting up and unloading a config entry.

An exception that a handler raises is returned as a `PyError`, and the
model states which fields were assigned before it was raised.

## Model

| member | source | states |
|---|---|---|
| Json.Lookup | custom_components/bouncie/sensor.py:101 | `status[key]` succeeds exactly when the key is present and yields its value; otherwise it raises KeyError |
| Json.Index | custom_components/bouncie/sensor.py:103 | subscripting a payload value by a string key (`end["odometer"]`, and likewise `data[-1]["speed"]` and `["gps"]["lat"]`) succeeds exactly on a mapping holding the key; a mapping without it raises KeyError, any other value raises TypeError |
| Json.Last | custom_components/bouncie/sensor.py:186 | `[-1]` succeeds exactly on a non-empty list or string and yields the last element; an empty one raises IndexError, a mapping KeyError, anything else TypeError |
| Json.GetNotNone | custom_components/bouncie/sensor.py:143 | `.get(key) is not None` holds exactly when the key is present with a non-null value, which is then the result |
| Const.EventTypesDistinct | custom_components/bouncie/const.py:74-81 | the eight event types are pairwise distinct, and `tripEnd` differs from `tripData` |
| Const.ValidateWebhook | custom_components/bouncie/const.py:66-73 | a payload validates exactly when it is a mapping holding `eventType`, `imei` and `vin`; the keys are kept, extra values pass through unchanged, the three required values come out as strings; a mapping that fails reports exactly the missing keys |
| Const.ValidateConfig | custom_components/bouncie/const.py:36-42 | the setup form validates exactly when its keys are `client_id`, `client_secret` and `api_key` and no others; string inputs are kept; a failure reports the missing and the extra keys |
| Vehicles.FieldValue | custom_components/bouncie/sensor.py:86 | a stats reading is Python `None` exactly when the record holds null for it, and otherwise the number itself |
| Vehicles.VinsSnoc | custom_components/bouncie/common.py:170 | the set of VINs of a list grows by the last record's VIN |
| Vehicles.KeyByVin | custom_components/bouncie/common.py:170 | the key set is the set of fetched VINs, each value's `vin` equals its key, and the insertion order lists each key once |
| Vehicles.LaterRecordWins | custom_components/bouncie/common.py:170 | with duplicate VINs, the last record carrying a VIN is the value stored for it |
| Vehicles.OrderExtendsPrefix | custom_components/bouncie/common.py:170 | the key order of a prefix of the list is a prefix of the key order of the whole list |
| Common.UpdateData | custom_components/bouncie/common.py:165-172 | a successful fetch gives the VIN-keyed dictionary; any fetch failure becomes UpdateFailed wrapping it, never a partial map |
| Common.VehiclesCoordinator.constructor | custom_components/bouncie/common.py:154-163 | a new coordinator holds no vehicles |
| Common.VehiclesCoordinator.Refresh | custom_components/bouncie/common.py:165-172 | after a refresh the data is the new dictionary on success and the previous data on UpdateFailed, and the success flag records which |
| Common.ExchangeRequest | custom_components/bouncie/common.py:88-94 | the code exchange posts grant type `authorization_code`, the received `code` and `state.redirect_uri`; a missing key or a non-mapping raises |
| Common.ResolveExternalData | custom_components/bouncie/common.py:86-97 | the resolved token is the token response plus `code` set to the received code, overriding any `code` in the response; the other response keys are kept |
| Common.RefreshRequest | custom_components/bouncie/common.py:99-107 | a refresh posts the stored `code` with grant type `authorization_code` and the redirect URI; a token without `code` raises KeyError |
| Common.RefreshedToken | custom_components/bouncie/common.py:108 | the refreshed token has the keys of both; the response's values win and every other old key keeps its value |
| Common.CodeSurvivesRefreshes | custom_components/bouncie/common.py:99-108 | over any number of refreshes whose responses carry no `code`, the original `code` survives and a further refresh request still succeeds |
| Common.Authorized | custom_components/bouncie/common.py:125-127 | the header gate: the `Authorization` header is present, non-empty and a key of the registered implementations |
| Common.WebhookEvent | custom_components/bouncie/common.py:119-148 | an event is fired exactly when the header is non-empty and a registered implementation, and the body parses and validates; the fired data is the validated status with `client_id` set to the header, overriding any same-named key |
| Webhook.Post | custom_components/bouncie/common.py:119-148 | the response is 200 in every branch, and the bus gains exactly the event that the accept decision yields and nothing otherwise |
| Entity.Available | custom_components/bouncie/entity.py:39-42 | an entity is available exactly when its VIN is a key of the coordinator's current data |
| Entity.DeviceInfoFor | custom_components/bouncie/entity.py:27-37 | device info exists exactly when the VIN is in the coordinator data; its name is `nickName`, manufacturer `model.make`, model `model.name`, identifiers exactly `{("bouncie", vin)}`, and the configuration URL is the portal; otherwise KeyError |
| Entity.SameDeviceIffSameVin | custom_components/bouncie/entity.py:35 | two entities share a device exactly when they share a VIN |
| Entity.Selects | custom_components/bouncie/sensor.py:101-102 | an event is handled exactly when its `vin` equals the entity's VIN and its `eventType` is the wanted one; `eventType` is read only when the VIN matches, and a missing key raises KeyError |
| Entity.NoEventSelectsTwoTypes | custom_components/bouncie/const.py:78-81 | no event selects both the `tripEnd` branch and the `tripData` branch |
| Sensor.SensorUniqueIdsDiffer | custom_components/bouncie/sensor.py:78 | sensors of different kinds or different VINs get different unique ids |
| Sensor.Having | custom_components/bouncie/sensor.py:47-51 | one generator filter: the keys of the coordinator data, in iteration order, whose stat of the kind is not None; never longer than the key list |
| Sensor.HavingExactly | custom_components/bouncie/sensor.py:47-51 | one filtered pass yields exactly the VINs whose stat is present (not missing and not null) |
| Sensor.HavingDistinct | custom_components/bouncie/sensor.py:47-51 | the filtered pass over the dictionary's keys never yields a VIN twice |
| Sensor.SensorPlan | custom_components/bouncie/sensor.py:47-65 | the kind and VIN of each created sensor in list order: the odometer block, then the fuel block, then the speed block; at most three per vehicle |
| Sensor.PlanSound | custom_components/bouncie/sensor.py:47-65 | every planned sensor is for a vehicle whose matching stat is present |
| Sensor.PlanComplete | custom_components/bouncie/sensor.py:47-65 | every vehicle whose stat is present gets a sensor of that kind |
| Sensor.PlanExactly | custom_components/bouncie/sensor.py:47-65 | a sensor of a kind exists for a VIN exactly when that vehicle's stat of that kind is present |
| Sensor.PlanUniqueIds | custom_components/bouncie/sensor.py:34-67 | the setup never creates the same sensor twice, and all created unique ids are distinct |
| Sensor.OdometerUpdate | custom_components/bouncie/sensor.py:98-104 | only a `tripEnd` event for the entity's VIN changes the odometer, to `end.odometer`; any other event keeps it; a missing `vin` or `eventType` raises KeyError, and for a selected event a missing `end` raises KeyError and a bad `end` raises what its subscript raises |
| Sensor.SpeedUpdate | custom_components/bouncie/sensor.py:181-187 | only a `tripData` event for the entity's VIN changes the speed, to `data[-1].speed`; other events keep it; a missing `vin` or `eventType` raises KeyError, and for a selected event a missing `data` raises KeyError, an empty `data` IndexError, and a bad last entry what its subscript raises |
| Sensor.FuelScan | custom_components/bouncie/sensor.py:141-145 | a found level is never null; a non-mapping entry reached by the scan raises AttributeError |
| Sensor.ScanPastAll | custom_components/bouncie/sensor.py:141-145 | when no entry carries a fuel level, the scan finds nothing |
| Sensor.LaterEntriesDecide | custom_components/bouncie/sensor.py:142-145 | a decision reached in a later part of the list is final; earlier entries are consulted only when the later ones carry no level |
| Sensor.FuelScanLastReading | custom_components/bouncie/sensor.py:142-145 | when every entry after `i` lacks a level, the scan yields entry `i`'s level, so an earlier entry never overrides a later present value |
| Sensor.FuelLevelUpdate | custom_components/bouncie/sensor.py:138-146 | only a `tripData` event for the entity's VIN can change the fuel level, to the last non-null `fuelLevelInput` in `data`; with none it is kept; a missing `vin`, `eventType` or `data` raises KeyError; a non-mapping entry reached by the scan, or a non-empty string or mapping as `data`, raises AttributeError; a null, number or bool as `data` raises TypeError |
| Sensor.OdometerAndSpeedNeverBothMove | custom_components/bouncie/sensor.py:98-104 | no event changes both the odometer and the speed of one vehicle |
| Sensor.CoordinatorReading | custom_components/bouncie/sensor.py:107-111 | a coordinator update reads the VIN's current stat (null included); a missing VIN or stat raises KeyError |
| Sensor.Odometer.constructor | custom_components/bouncie/sensor.py:73-86 | the odometer starts from `stats.odometer`, is named nickName plus ` Odometer` and has unique id VIN plus `_odometer` |
| Sensor.Odometer.EventReceived | custom_components/bouncie/sensor.py:98-104 | the cached value becomes what `OdometerUpdate` decides and the raised error is its error |
| Sensor.Odometer.HandleCoordinatorUpdate | custom_components/bouncie/sensor.py:107-111 | the cached value is overwritten by the coordinator reading whatever it was; the only error raised is KeyError (missing VIN or stat), and then the value is kept |
| Sensor.FuelLevelSensor.constructor | custom_components/bouncie/sensor.py:117-126 | the fuel sensor starts from `stats.fuelLevel`, is named nickName plus ` Fuel Level` and has unique id VIN plus `_fuelLevel` |
| Sensor.FuelLevelSensor.EventReceived | custom_components/bouncie/sensor.py:138-146 | the reversed loop with early exit computes exactly `FuelLevelUpdate`, value and raised error |
| Sensor.FuelLevelSensor.HandleCoordinatorUpdate | custom_components/bouncie/sensor.py:149-153 | the cached value is overwritten by the coordinator reading; the only error raised is KeyError (missing VIN or stat), and then the value is kept |
| Sensor.SpeedSensor.constructor | custom_components/bouncie/sensor.py:159-169 | the speed sensor starts from `stats.speed`, is named nickName plus ` Speed` and has unique id VIN plus `_speed` |
| Sensor.SpeedSensor.EventReceived | custom_components/bouncie/sensor.py:181-187 | the cached value becomes what `SpeedUpdate` decides and the raised error is its error |
| Sensor.SpeedSensor.HandleCoordinatorUpdate | custom_components/bouncie/sensor.py:190-194 | the cached value is overwritten by the coordinator reading; the only error raised is KeyError (missing VIN or stat), and then the value is kept |
| Sensor.NewSensor | custom_components/bouncie/sensor.py:47-65 | creates one fresh sensor of the requested kind for the VIN |
| Sensor.AppendIfPresent | custom_components/bouncie/sensor.py:47-51 | one step of the generator appends one fresh sensor exactly when the VIN's stat is present, and keeps the earlier entities |
| Sensor.ExtendWith | custom_components/bouncie/sensor.py:47-51 | one `entities.extend` appends fresh sensors of one kind for exactly the VINs with that stat present, in dictionary order, and keeps the earlier entities |
| Sensor.SetupSensors | custom_components/bouncie/sensor.py:34-67 | the created sensors are all odometers, then all fuel sensors, then all speed sensors, each block in dictionary order and filtered by its stat |
| DeviceTracker.LastGps | custom_components/bouncie/device_tracker.py:119 | `status["data"][-1]["gps"]` succeeds exactly on a `data` list whose last element is a mapping holding `gps`, and yields it; a missing `data` raises KeyError, and a failing `[-1]` or `["gps"]` raises that subscript's own error |
| DeviceTracker.LocationUpdate | custom_components/bouncie/device_tracker.py:114-121 | only a `tripData` event for the tracker's VIN moves it: latitude and longitude become the last `gps`'s `lat` and `lon`, and a complete read raises nothing; a missing `vin` or `eventType` raises KeyError and changes nothing; a failing `gps` or `lat` read raises its error and changes nothing; a `gps` without `lon` moves the latitude only and raises KeyError; other events change nothing |
| DeviceTracker.BouncieDeviceTracker.constructor | custom_components/bouncie/device_tracker.py:67-80 | latitude and longitude start from `stats.location`, the unique id is the VIN and the name is `nickName` |
| DeviceTracker.BouncieDeviceTracker.Available | custom_components/bouncie/device_tracker.py:95-97 | the tracker is available exactly when its VIN is a key of the coordinator's current data, which is when device info exists |
| DeviceTracker.BouncieDeviceTracker.DeviceInfo | custom_components/bouncie/device_tracker.py:83-92 | the tracker's device info equals the shared entity device info for its VIN |
| DeviceTracker.BouncieDeviceTracker.EventReceived | custom_components/bouncie/device_tracker.py:114-121 | latitude and longitude change exactly as `LocationUpdate` assigns them, and the raised error is its error |
| DeviceTracker.BouncieDeviceTracker.HandleCoordinatorUpdate | custom_components/bouncie/device_tracker.py:132-136 | latitude and longitude are replaced together from `stats.location`; a missing VIN raises KeyError and changes neither |
| DeviceTracker.SetupTrackers | custom_components/bouncie/device_tracker.py:46-59 | exactly one fresh tracker per key of the coordinator data, in key order |
| Integration.ReauthInProgress | custom_components/bouncie/__init__.py:72-77 | some flow in progress has source `reauth` and the entry's unique id |
| Integration.SetupDecision | custom_components/bouncie/__init__.py:66-85 | setup proceeds exactly when the user call succeeds; a response error other than 400/401 aborts without a flow; unauthorized or 400/401 asks for reauth, starting a flow exactly when none is in progress for the unique id; any other error propagates |
| Integration.Register | custom_components/bouncie/__init__.py:44-64 | the implementation is registered under the client id, a fresh coordinator is refreshed once, and the entry's slot gains `api` and `vehicles_coordinator` while keeping its other keys; the client id joins the set |
| Integration.Forward | custom_components/bouncie/__init__.py:87-93 | the webhook view is registered and one forward-setup task is scheduled per platform, in `PLATFORMS` order |
| Integration.RequestReauth | custom_components/bouncie/__init__.py:72-84 | a reauth flow with the entry's unique id and data is scheduled exactly when no reauth flow for that unique id is in progress |
| Integration.SetupEntry | custom_components/bouncie/__init__.py:42-95 | the bookkeeping holds whatever the user call does; then True with view and forwards, False, False with an optional reauth flow, or a raised error, as `SetupDecision` decides; nothing else changes |
| Integration.UnloadEntry | custom_components/bouncie/__init__.py:98-102 | unloading removes exactly the entry's slot and returns True, leaving the client-id set alone; an entry with no slot raises KeyError |

## Left out

- `api.py` is not part of this model. It is a thin wrapper over the OAuth2 session and HTTP client. The outcomes of `async_get_vehicles` and `async_get_user` are parameters (`fetched`, `user`).
- `config_flow.py` is not part of this model. Its flow steps and entry persistence belong to the host. Its unique id depends on the host's `slugify`. Only its schema (`BOUNCIE_SCHEMA`) is modelled, as `Const.ValidateConfig`.
- `valid_external_url`, `async_setup` and `redirect_uri` depend on Home Assistant's `get_url`, so the redirect URI is a parameter of `Common.RefreshRequest`.
- `_token_request` is an HTTP exchange. Its response is a parameter of `Common.ResolveExternalData` and `Common.RefreshedToken`.
- `round(x, 2)` in the `native_value` properties is floating-point rounding. Cached readings are kept unrounded.
- `last_reset` (`dt.parse_datetime`), icons, units, device and state classes are display attributes with no behaviour.
- Event-bus subscription and removal, `async_write_ha_state`, task scheduling and the polling interval are host runtime. Each handler call is one atomic method call, and a scheduled task is recorded rather than run.
- `device_tracker.py` imports `ICON` from `const.py`, which defines none, so importing the tracker platform raises ImportError and the forwarded tracker setup never creates a tracker. The model's `DeviceTracker` module describes the tracker as if the import succeeded, and `Integration.Forward` still forwards both platforms.
- Integration.ReauthInProgress: a flow context always carries a unique id (possibly None). In the source, the progress list covers flows of every integration. A reauth flow whose context has no `unique_id` key makes the comprehension at `__init__.py:76` raise KeyError, which escapes setup. The model cannot express that input, so `Integration.SetupDecision`, `Integration.RequestReauth` and `Integration.SetupEntry` never take that path.
- Logging and the warnings for unauthorised or unparsable webhook calls are left out.
- `Const.ValidateWebhook`, `Const.ValidateConfig`: `str()` of a non-string value is a parameter (`render`), because its text is a runtime representation.
- Polled vehicle records are typed. `vin`, `nickName`, `model`, `stats.location` and `stats.lastUpdated` are assumed present; where the source reads one that is missing (the odometer constructor reads `lastUpdated`), it raises KeyError, which the model does not capture. Only the three stats readings distinguish missing from null.
- Common.VehiclesCoordinator.constructor: starts with empty data where Home Assistant starts with `None`. A first refresh that fails with UpdateFailed leaves `None` in place. The platform setups then raise: `coordinator.data.items()` raises AttributeError (sensor.py:49) and `for vin in coordinator.data` raises TypeError (device_tracker.py:57). In the model, `Sensor.SetupSensors` and `DeviceTracker.SetupTrackers` instead see an empty map and create no entities, so that failure is not captured.
- Sensor.Odometer.constructor, Sensor.FuelLevelSensor.constructor, Sensor.SpeedSensor.constructor: require the stat to be present (missing stats raise KeyError in the source). The platform setup only builds a sensor after checking that its stat is present.
- Sensor.SetupSensors, DeviceTracker.SetupTrackers: take the coordinator directly instead of looking it up in the entry's slot, and return the entities instead of passing them to `async_add_entities`.
- The domain's client-id set lives beside the entry slots in one dictionary in the source. Here it is a separate field of `Host.Hass`, so an entry id equal to `client_id` is not modelled.
