# hive-api-js core, modelled in Dafny

This project models the decision logic of the Hive heating-system client
(`src/index.js`). The client turns raw "node" records from the Hive API into typed
devices and reads their feature records. It also maps transport failures onto a fixed
error taxonomy and keeps the session token in the HTTP client's default headers.

What is modelled, by module:

- `Js` holds JavaScript values as they appear in API responses: `undefined`, `null`,
  booleans, numbers, strings, arrays and objects. It also gives truthiness, `== null`,
  and property reads. A read on `undefined`/`null` throws and is modelled as a `Result`.
  A chain `a.b.c` inside `try { } catch { return null }` reads as an `Option`.
- `FeatureReader` holds `getReportedValue` and `getReportedValues`. The latter is a
  loop that writes into a mutable object (`Js.JsObject`).
- `Schedule` holds `parseSchedule`, a loop that appends `[time, value]` pairs to seven
  weekday lists.
- `Devices` holds the `Device.fromNode` classifier, the `Device` class and the
  accessors:
  - the class stores the node; `reload` and a thermostat's `setTargetTemperature`
    replace it;
  - the accessors cover boost, heating status, schedule, on/off, signal strength,
    temperature unit, battery/ethernet/hub info, and the current, frost-protect and
    target temperatures.
- `Partition` holds `parseDevicesFromNodes`, which pushes each classified device onto
  one of five collections.
- `Errors` holds `normalizeError` / `getError` and the message table of nine codes.
- `Requests` holds `Hive.extend`, the settings `request` builds, the query parameters
  of `getNode` and `getEvents`, `normalizeResponse`, and the outcome of a remote call.
- `Session` holds the session header state of a `Hive` client: `registerSession`,
  `unregisterSession`, `login` and `logout`.

Nothing remote runs in the model. A remote call's answer is an explicit `Delivery`
argument: either a response together with the client's rejection message, or a
failure record without an accepted response. The client's status validator then
settles it: 2xx by default, and 200/400/401/403 for `logout`. `Number.parseFloat` and
`Date.parse` are function parameters.

Behaviour of the code worth knowing when reading the model:

- An unknown remote code is not passed through. `src/index.js:47-53` tags every code
  missing from the message table as `UNKNOWN_ERROR` and uses the raw code as the
  message (`Errors.UnknownRemoteCode`).
- The generic variant's type tag is `'Device'` (`src/index.js:153`).
- Some accessors start with `node.features ? node.features : {}`: `getBattery`,
  `getBoost`, `getEthernetInfo`, `getHubStatus`, `getHeatingSchedule`,
  `getHeatingStatus`, `getOnOff`, `getSignalStrength`, `getTemperatureUnit` and
  `getInfo`. These throw a TypeError on a `null`/`undefined` node, and never throw
  merely because a node has no features.
- Other accessors read their path inside `try`/`catch` and return `null` on such a
  node: `getCurrentTemperature`, `getCurrentTemperatureTime`,
  `getFrostProtectTemperature` and `getTargetTemperature`. `isFrostProtect` then
  returns false.
- `reload(options)` stores whatever `getNode` resolves to. With `options.withResponse`
  that is the pair `[node, response]`, and the model keeps this.

## Model

| member | source | states |
|---|---|---|
| `Js.NatTextInjective` | src/index.js:78 | distinct indices give distinct property keys, so `x[0]` on an object reads the property `"0"` and no other |
| `Js.ReadPathIsWalk` | src/index.js:237-241 | a chained read throws exactly when a value before the last key is null or undefined, and otherwise yields the value found by following the keys |
| `FeatureReader.GetReportedValue` | src/index.js:125-130 | the default when the property name is missing, the feature is falsy or the feature lacks the property; otherwise that property's `reportedValue` |
| `FeatureReader.ReportedOrDefaultAgrees` | src/index.js:138-143 | each value `getReportedValues` writes equals what `getReportedValue` returns for the same source property, a missing feature counting as `{}` |
| `FeatureReader.ValuesOfKeys` | src/index.js:141-143 | the keys written are exactly the output keys of the mapping |
| `FeatureReader.ValuesOfAt` | src/index.js:141-143 | the value under an output key is the reported value of its source property, or the default |
| `FeatureReader.GetReportedValues` | src/index.js:132-145 | the loop writes into a fresh object when `props` is null, otherwise into `props` itself; exactly the mapping's keys are added and every other property of `props` is unchanged |
| `Schedule.DayNumber` | src/index.js:276-284 | a resolved day index is always in 1..7; a numeric index resolves exactly when it is one of 1..7, and then to that number |
| `Schedule.SlotOf` | src/index.js:297-302 | one set point succeeds exactly when it has `actions[0]` and a day index in 1..7; the pair is `[time, value]`, with `null` for a null or undefined value |
| `Schedule.ScheduleOf` | src/index.js:285-303 | a parsed schedule always has exactly the seven weekday keys |
| `Schedule.ParseSchedule` | src/index.js:275-305 | the loop returns the schedule defined by `ScheduleOf`, or its TypeError |
| `Schedule.ScheduleFailsFrom` | src/index.js:296-303 | once a set point throws, the whole parse throws |
| `Schedule.ScheduleOkIff` | src/index.js:296-303 | parsing succeeds exactly when every set point has a first action and a valid day index |
| `Schedule.ScheduleByDay` | src/index.js:296-303 | each weekday list is exactly that day's pairs in input order, with no sorting or deduplication |
| `Schedule.ScheduleCount` | src/index.js:296-303 | the list lengths sum to the number of set points |
| `Schedule.EmptySchedule` | src/index.js:285-293 | an empty set-point list gives seven empty lists |
| `Errors.RemoteErrors` | src/index.js:59-63 | the exposed remote error list is `response.data.errors` when every level is truthy, else `null` |
| `Errors.GetError` | src/index.js:45-65 | a code from the message table keeps its message; any other value becomes the message of an `UNKNOWN_ERROR`; the cause and the remote error list are attached |
| `Errors.RemoteCode` | src/index.js:78 | the remote code is `response.data.errors[0].code`; the read throws when the body has no error list |
| `Errors.NormalizeError` | src/index.js:44-104 | codes form the closed nine-entry set; 401 gives NOT_AUTHENTICATED and 405 METHOD_NOT_ALLOWED; remote USERNAME_PASSWORD_ERROR gives INVALID_LOGIN and ACCOUNT_LOCKED gives ACCOUNT_LOCKED; ECONNABORTED gives TIMEOUT; 'Network Error' gives NETWORK_ERROR; no response and no request gives REQUEST_NOT_SENT; a failed classification falls back to the client's message |
| `Errors.MalformedBodyIsDowngraded` | src/index.js:77-101 | a response with no data, no error list or an empty list is classified from the client's message (UNKNOWN_ERROR when unknown) instead of failing |
| `Errors.UnknownRemoteCode` | src/index.js:47-53 | a remote code missing from the table yields UNKNOWN_ERROR carrying that code as its message |
| `Errors.ErrorsExposed` | src/index.js:59-63 | the normalized error carries a remote list exactly when the response body holds one |
| `Requests.Outcome` | src/index.js:713-714 | a call succeeds exactly when a response came back and the validator accepts its status; every failure is normalized, and a rejected status keeps its response |
| `Requests.RejectedStatusIsClassified` | src/index.js:72-86 | a rejected 401 or 405 response is classified by status; network-level codes appear only when the server's code or the client's message names them |
| `Requests.MergedKeys` | src/index.js:784-792 | a key ends up on the target exactly when the target or some non-null source has it |
| `Requests.MergedLastWins` | src/index.js:784-792 | the last source holding a key decides its value |
| `Requests.MergedKeepsTarget` | src/index.js:779-794 | a key no source holds keeps the target's value |
| `Requests.Extend` | src/index.js:779-794 | the nested loops leave on the target (a fresh object when it is null) exactly the merge of all non-null sources in order |
| `Requests.RequestSettings` | src/index.js:702-712 | non-null data becomes `params` exactly for a case-insensitive GET and `data` otherwise; null or undefined data adds neither |
| `Requests.Request` | src/index.js:701-715 | the client receives the request settings merged with the options, and the call's result is its settled outcome |
| `Requests.NormalizeResponse` | src/index.js:118-123 | `[data, response]` when `settings.withResponse` is truthy, else `data` |
| `Requests.NodeParams` | src/index.js:588-592 | `fields` is sent exactly when the option is set |
| `Requests.EventsParams` | src/index.js:637-651 | exactly one of `limitPerDevice` (preferred, 100 by default) and `limit`; `fromTime`, `toTime`, `source` exactly for the options set |
| `Devices.Classify` | src/index.js:177-192 | hub URI gives hub; thermostat-UI URI gives thermostatUi; thermostat URI with the heating feature gives thermostat, without it receiver; a missing or other nodeType gives the generic device; every case is an if-and-only-if |
| `Devices.FirstNode` | src/index.js:596 | `response.data.nodes[0]`, throwing when the body has no node list |
| `Devices.TargetBody` | src/index.js:385-395 | the PUT body carries the value as `nodes[0].features.heating_thermostat_v1.targetHeatTemperature.targetValue` |
| `Devices.Device.constructor` | src/index.js:151-162 | the device owns the node and copies its `id` and `name` |
| `Devices.Device.FromNode` | src/index.js:177-192 | a fresh device of the classified variant, or a TypeError for a null or undefined node |
| `Devices.Device.LastSeen` | src/index.js:164-166 | the node's `lastSeen`, throwing on a null or undefined node |
| `Devices.Device.Reload` | src/index.js:168-175 | on success the node is replaced by what the node fetch resolves to; on failure it is unchanged; `id`, `name` and the variant never change |
| `Devices.Device.SetTargetTemperature` | src/index.js:471-478 | sends the target body; on success the node becomes `response.data.nodes[0]` and the target is read back from it; on any failure the node is unchanged |
| `Devices.Features` | src/index.js:204 | the normalized feature record reads every feature exactly like `node.features`, and throws only on a null or undefined node |
| `Devices.LeafIsReported` | src/index.js:125-130 | reading one feature leaf through the normalized record, by either reader, is the node's reported value or undefined |
| `Devices.GetOnOff` | src/index.js:347-350 | the reported `on_off_device_v1.mode` |
| `Devices.GetSignalStrength` | src/index.js:352-355 | the reported `radio_device_v1.signalStrength` |
| `Devices.GetTemperatureUnit` | src/index.js:367-370 | the reported `thermostat_ui_v1.temperatureUnit` |
| `Devices.GetBattery` | src/index.js:203-210 | exactly the keys batteryLevel, batteryState and batteryVoltage, each the matching reported value of `battery_device_v1` |
| `Devices.GetEthernetInfo` | src/index.js:252-258 | `ipAddress` from `internalIPAddress` and `macAddress`, from `ethernet_device_v1` |
| `Devices.GetHubStatus` | src/index.js:264-273 | state, server, connection, ethernet and uptime from the five `hive_hub_v1` properties |
| `Devices.GetInfo` | src/index.js:372-381 | the same record as the hub status, with exactly its five keys |
| `Devices.GetHeatingStatus` | src/index.js:333-345 | `isOn` exactly when the operating state is HEAT; mode OFF whenever on/off reports OFF, else the operating mode |
| `Devices.GetBoost` | src/index.js:212-234 | no boost unless the override is exactly TRANSIENT; then duration, start and end (parsed when truthy) and exactly one kind of target from the first action; throws when that action is missing |
| `Devices.ReadLeaf` | src/index.js:237-241 | a four-level read is absent exactly when a value before the last key is null or undefined |
| `Devices.GetCurrentTemperature` | src/index.js:236-242 | the parsed `temperature_sensor_v1.temperature.reportedValue`, or absent |
| `Devices.GetCurrentTemperatureTime` | src/index.js:244-250 | `temperature_sensor_v1.temperature.reportReceivedTime`, or absent |
| `Devices.GetFrostProtectTemperature` | src/index.js:307-313 | the parsed `frost_protect_v1.frostProtectTemperature.reportedValue`, or absent |
| `Devices.GetTargetTemperature` | src/index.js:357-365 | the parsed `displayValue` of the target temperature, or absent |
| `Devices.IsFrostProtect` | src/index.js:315-317 | true exactly when the target's display value parses to 1 |
| `Devices.ParsedSetpoints` | src/index.js:294-303 | `null` and `undefined` throw at `length`; an array is parsed set point by set point; a non-empty string throws and an empty one gives seven empty lists; any other value gives seven empty lists |
| `Devices.GetHeatingSchedule` | src/index.js:319-331 | a schedule exactly when `heatSchedule.setpoints` is reported, parsed from it, plus the frost-protect temperature; throws when parsing throws |
| `Devices.EmptyNodeReadsNothing` | src/index.js:203-381 | each of the fifteen static feature accessors (on/off, signal, unit, battery, ethernet, hub status, info, heating status, boost, the four temperature readers, frost protect, schedule) on `{}` or `{features: {}}` returns absent values, no boost and no schedule, without throwing |
| `Devices.DisplayValueWins` | src/index.js:357-365 | with displayValue 21.5 and reportedValue 19.0 the target read is the parse of 21.5 |
| `Partition.BucketOf` | src/index.js:532-544 | each variant's collection, as an if-and-only-if per collection; the generic `'Device'` tag has no mapping entry and goes to `other` |
| `Partition.ParseDevicesFromNodes` | src/index.js:523-547 | one fresh device per node, no device object in two places; each collection holds exactly its nodes in input order, each device carrying the `id` and `name` of its node; a null or undefined node throws |
| `Partition.NamedAfterNodes` | src/index.js:158-162 | a list labelled after a list of nodes has the same length, and each device has the `id` and `name` of the node at its position |
| `Partition.SelectSizes` | src/index.js:538-545 | every node lands in exactly one collection, so the sizes sum to the input length |
| `Partition.SelectKeepsOrder` | src/index.js:538-545 | each collection lists its nodes at strictly increasing input positions, exactly the positions classified into it |
| `Partition.HubThermostatReceiver` | src/index.js:523-547 | a hub, a thermostat with its heating feature and one without give one hub, one thermostat, one receiver and nothing else |
| `Session.InitialHeaders` | src/index.js:27-35 | the client starts with content type, accept and client headers and no session token |
| `Session.Credentials` | src/index.js:726-731 | the login body is `{sessions: [{username, password}]}` |
| `Session.SessionOf` | src/index.js:737 | `response.data.sessions[0]`, throwing when the body has no session list |
| `Session.Hive.constructor` | src/index.js:27-35 | a new client has the initial headers and no user |
| `Session.Hive.RegisterSession` | src/index.js:554-556 | sets the token header to `sessionId`, or throws on a null or undefined session and changes nothing |
| `Session.Hive.UnregisterSession` | src/index.js:561-563 | removes only the token header |
| `Session.Hive.Login` | src/index.js:725-747 | drops the token before sending, so the POST goes out with the old default headers minus the token; logged in exactly on success, with the token of the returned session and that session as the user; a failed login leaves no token and the old user |
| `Session.Hive.Logout` | src/index.js:752-765 | the DELETE goes out with the old default headers, token included; succeeds exactly on 200/400/401/403; removes the token once the call settles, whatever the outcome; keeps the user |
| `Session.LogoutStatuses` | src/index.js:755-758 | 401 counts as a successful logout, 500 and 204 do not, while 204 is a success for any other call |

## Left out

- Transport: the axios client, base URL, timeout, promises and `.then`/`.catch`
  chaining. A call's answer is the `Delivery` argument, and the status validator
  decides it.
- Request URLs and paths: `reload` builds its path from the device's own `id`, the
  copy taken at construction; `setTargetTemperature` builds it from `node.id`; the
  session path uses `user.sessionId`. The ids go through JavaScript string conversion
  and only address the transport. `url` is not part of
  the modelled settings.
- Logout's `validateStatus` option is a function and cannot be a settings entry. The
  model hands that validator (`Session.LogoutAccepts`) to the outcome and merges no
  options.
- `Hive.getInstance` and the singleton: device methods receive the reply directly.
- The network-backed fetches `getNodes`, `getDevices`, `getTimeSeries`, `getEvents`,
  `getHistory` and `getTimeSeriesData`. Their pure parts are modelled
  (`Requests.EventsParams`, `Requests.NodeParams`, `Partition.ParseDevicesFromNodes`,
  `Requests.NormalizeResponse`). `getTimeSeriesData` also depends on the clock and
  on `parseInt` over object keys.
- The per-variant shortcut methods (`hub.getInfo()`, `thermostat.getBoost()`, …):
  each one applies the matching static accessor to the device's current node.
- `Number.parseFloat` and `Date.parse` are uninterpreted function parameters.
  Numbers in responses are exact reals, with no NaN or infinities.
- Message lookup: `Hive[code]` would also match static properties such as `VERSION`
  or `extend`. The table is the nine message constants.
- How the `X-Omnia-Client` header text is built: it is the constructor's parameter.
- Inherited and built-in properties: reads see an object's own properties only. A
  string's `length`, for example, is not seen.
- `Devices.ParsedSetpoints`: an object with a numeric `length` would be walked as
  array-like by the source. The model gives every value that is not `null`,
  `undefined`, an array or a string seven empty lists.
- `Requests.IsGet` compares ASCII letters only. The Unicode case mapping of
  `toUpperCase` adds no other spelling of GET.
- The `Error` object itself (stack, prototype) is reduced to `Errors.HiveError`.
- `Errors.HiveError`: `message` keeps the raw value handed to `Error(...)`, not its string
  conversion, so an `errors: [{}]` body gives `undefined` where JavaScript gives `""`; and
  `Errors.Known` accepts only string codes, while `Hive[code]` converts any key to a string.
- Concurrency between overlapping calls is not modelled.
