# MQTT Home directive logic, modelled in Dafny

A model of the decision logic of the MQTT Home Alexa Smart Home (Skill API v3)
handler, `index.js`. The handler takes a directive. It either lists a user's
registered devices as endpoints (`Alexa.Discovery`) or turns one device on or
off by publishing that device's MQTT message (`Alexa.PowerController`).

The two external calls become plain inputs:

- The registry scan (a DynamoDB scan of table `MQTThomeUsers` on
  `access_token`) is given as its result, a `Lookup`: `ScanError`, `Count0`,
  or `Items(devices)`, the device map of the first matching user.
- The MQTT publish is given as its result, an `MqttResult`: `Ack` or `Err`.

Each handler returns what it did: the scan it issued (`ScanQuery` with the
trimmed token), the publish it issued (`PublishCommand`: address, port, topic,
message), and how the invocation ended (`Outcome`). An invocation ends in one
of three ways:

- `Reply(response)`: a response envelope is returned.
- `Raise(message)`: a raw `Error` is passed to the callback.
- `Crash(exception)`: the invocation fails with an uncaught JavaScript
  exception. Examples are a missing token, a read of `request.event`, the use
  of `applianceId` before its declaration, and a missing device (this last one
  is thrown inside the asynchronous scan callback, after the handler function
  has returned).

Files:

- `text.dfy` (module `Text`): JavaScript `trim` and the decimal rendering used
  in `"device" + i`.
- `protocol.dfy` (module `Protocol`): the directive, the response envelope,
  `generateResponse`, the token and online stubs, and the registry and publish
  values.
- `discovery.dfy` (module `Discovery`): `handleDiscovery`. `Discover` states
  the result as a function. `HandleDiscovery` and its scan callback
  `ScanCallback`, the loop that pushes the endpoints, are proved equal to it.
- `power_control.dfy` (module `PowerControl`): `handlePowerControl`, as a
  total function from the directive, the lookup result and the publish result
  to (scan, publish, outcome).
- `handler.dfy` (module `Handler`): `exports.handler`, the namespace router.

Three behaviours of the code worth noting:

- A failed registry scan in power control raises the raw "access denied"
  error (index.js:173-175). It does not produce an `ENDPOINT_UNREACHABLE`
  response.
- Every response carries the same constant message id (index.js:10-12).
- Discovery's failures are raw `Error`s passed to the callback, not response
  envelopes (index.js:49, 80, 124).

The two invalid-token branches are modelled twice: `Discover`,
`HandlePowerControl` and `Handle` use their intended behaviour, and
`DiscoverAsWritten`, `HandlePowerControlAsWritten` and `HandleAsWritten`
model the code as written, which throws on a blank token (see "## Findings").

## Model

| member | source | states |
|---|---|---|
| Text.TrimStart | index.js:44 | the result is a suffix of the input, everything dropped is whitespace, and it does not start with whitespace |
| Text.TrimEnd | index.js:44 | the result is a prefix of the input, everything dropped is whitespace, and it does not end with whitespace |
| Text.Trim | index.js:136 | `trim()` gives the slice of the token left after removing whitespace at both ends: everything cut off is whitespace, and a non-empty result neither starts nor ends with whitespace. It is empty exactly when the token is all whitespace |
| Text.Decimal | index.js:86 | `String(i)` is a non-empty string of decimal digits that denotes i, with no leading zero unless it is "0" |
| Text.DecimalInjective | index.js:89 | different counters render to different decimal strings |
| Protocol.GenerateResponse | index.js:14-29 | the envelope always has namespace "Alexa", payload version "3" and the fixed message id, and carries `name`, `endpointId`, `payload` and `correlationToken` back unchanged |
| Protocol.Query | index.js:66-74 | the scan targets table `MQTThomeUsers` with filter `access_token = :at` bound to the given token |
| Protocol.TokenAcceptedIffNotBlank | index.js:32-34 | because `isValidToken` accepts everything, the token check `!token \|\| !isValidToken(token)` passes exactly when the raw token holds a non-whitespace character |
| Discovery.DeviceKeyInjective | index.js:86 | `"device" + i` keys of different positions differ |
| Discovery.DeviceKeysCount | index.js:85-86 | the loop over n keys visits n distinct keys `device0` .. `device{n-1}` |
| Discovery.ContiguousKeysIff | index.js:85-86 | every looked-up key exists exactly when the device map's key set is `{device0, …, device{n-1}}` for its size n |
| Discovery.InvalidToken | index.js:46-50 | as intended, a blank token raises "Discovery Request [id] failed. Invalid access token: token" |
| Discovery.DiscoverAsWritten | index.js:41-130 | discovery as written: on a blank token it throws reading `request.event`, with no scan, where the intended handler raises the invalid-token error; on every other directive it equals `Discover` |
| Discovery.HandleDiscovery | index.js:41-130 | the handler, token check then scan then callback, computes exactly `Discover` |
| Discovery.ScanCallback | index.js:77-127 | the scan callback: "access denied" on a failed or empty scan, otherwise the loop that pushes one endpoint per `"device" + i` and throws on a missing key; it computes exactly the callback outcome that `DiscoveryListsEveryDevice` and `DiscoveryDenied` characterise |
| Discovery.DiscoveryListsEveryDevice | index.js:82-121 | on a found user, the response is `Alexa.Discovery` / `Discover.Response` with no endpoint field, and it succeeds exactly when the keys are contiguous. It has one endpoint per device, in ascending i. Endpoint i has id `"device" + i`, friendly name and `[type]` of that device, "MQTT Home" manufacturer and description, and the fixed `Alexa` + `Alexa.PowerController` (`powerState`, not proactive, not retrievable) capabilities. Otherwise the handler throws on the missing device |
| Discovery.EndpointIdsAreKeys | index.js:85-89 | when discovery succeeds, the set of endpoint ids is exactly the key set of the device map |
| Discovery.DiscoveryDenied | index.js:77-125 | a scan error or a zero count raises "access denied" after a scan with the trimmed token, and no envelope is produced |
| Discovery.BlankTokenNotScanned | index.js:44-50 | an all-whitespace token is refused with a raised error and the registry is not scanned |
| PowerControl.InvalidToken | index.js:138-142 | as intended, a blank token answers `InvalidAccessTokenError` in namespace "Alexa" with empty payload, the directive's endpoint id and its correlation token |
| PowerControl.HandlePowerControlAsWritten | index.js:132-222 | power control as written: on a blank token it throws reading `applianceId` before its declaration, with no scan and no publish, where the intended handler answers; on every other directive it equals `HandlePowerControl` |
| PowerControl.OnDevices | index.js:177-211 | on a device map, a publish happens exactly for TurnOn/TurnOff on a present device. TurnOn publishes the device's `onMessage`, TurnOff its `offMessage`, to its topic at its address and port. Ack answers "Response" with empty payload, and an error answers ENDPOINT_UNREACHABLE. Other names answer ENDPOINT_UNREACHABLE without publishing. TurnOn/TurnOff on a missing device throws |
| PowerControl.HandlePowerControl | index.js:132-222 | guards in source order: a missing token throws. A blank token answers InvalidAccessTokenError without a scan. An empty or absent endpoint id answers UnexpectedInformationReceivedError with `faultingParameter` "applianceId: …" without a scan. The registry is scanned with the trimmed token exactly when both checks pass. A scan error raises "access denied", and a zero count answers ENDPOINT_UNREACHABLE, both without a publish. A device map defers to `OnDevices`. A publish happens only after a successful scan. TargetOfflineError is never returned |
| PowerControl.OnlineGuardNeverStops | index.js:36-39 | `isDeviceOnline` is a stub that reports every device online, so a directive that passes the token and endpoint-id checks always reaches the registry scan and is never answered with `TargetOfflineError` |
| PowerControl.RepliesEchoDirective | index.js:140-215 | every control response is an "Alexa" v3 envelope addressed to the directive's endpoint id and echoing its correlation token |
| PowerControl.TurnOnScenario | index.js:181-192 | TurnOn for `device0` whose record holds topic "home/device0" and message "ON", with an acknowledged publish, publishes "ON" to "home/device0" once and answers a bare "Response" echoing "ct-1" |
| Handler.Handle | index.js:224-239 | "Alexa.Discovery" runs discovery only, and no publish is made. "Alexa.PowerController" runs power control only. Any other namespace raises "No supported namespace: …" with no handler, scan or publish. A publish only ever comes from power control after a scan |
| Handler.HandleAsWritten | index.js:224-239 | the entry point as written: same routing, but a blank token for the selected handler makes the invocation throw (`request.event` for discovery, `applianceId` for power control) with no scan or publish; otherwise the same result `Handle` promises |
| Handler.EmptyDiscoveryTokenCrashesAsWritten | index.js:44-50 | a discovery directive with token "" throws as written, whatever the registry holds, while the intended handler raises "Discovery Request [m-1] failed. Invalid access token: " |
| Handler.BlankControlTokenCrashesAsWritten | index.js:136-144 | a power-control directive with token "  " throws as written, whatever the registry holds, while the intended handler answers InvalidAccessTokenError |

## Findings

| source | as written | input that shows it | evidently intended | confidence | as-written member | corrected member |
|---|---|---|---|---|---|---|
| index.js:138-144 | the invalid-token branch passes `applianceId` to `generateResponse`, but the `const` is declared at line 144, so the read throws a ReferenceError | PowerController directive whose `endpoint.scope.token` is `"  "` | return an `InvalidAccessTokenError` response | high; not executed | PowerControl.HandlePowerControlAsWritten | PowerControl.HandlePowerControl |
| index.js:46-50 | the error message reads `request.event.header.messageId`, but a directive has no `event`, so the branch throws; it also has no `return`, so it would otherwise go on to the scan and call the callback a second time | Discovery directive whose `payload.scope.token` is `""` | raise the "Invalid access token" error and stop | high; not executed | Discovery.DiscoverAsWritten | Discovery.InvalidToken |

## Left out

- The DynamoDB scan itself (request construction and the SDK call) is not
  modelled. Its result is an input; the model keeps only the query it would
  send (`ScanQuery`).
- `sendMQTT` is not modelled: connection options, `parseInt` on the port,
  the connect/offline events, `client.end()`, and whether its callback can
  fire twice. Only its outcome is modelled, as the input `MqttResult`.
- Logging, `console.log` and `JSON.stringify` output are not modelled. They
  are side effects only.
- The "Control Confirmation" log of the still-undefined `response` is not
  modelled. It is an artefact of asynchronous ordering.
- `generateMessageID` is modelled as its constant value. Message ids are not
  unique, and nothing here claims they are.
- `Lookup`: a matching registry item whose `devices` attribute is missing, or
  a device entry with a missing string attribute, is not modelled. These JS
  TypeErrors are not represented, so every `DeviceRecord` has all its fields.
- `Lookup`: only the first matching item (`Items[0]`) is represented, as in the
  source; further matches are not.
- `Lookup`: the device map is a plain map. JavaScript property lookup on
  inherited names such as `constructor` is not modelled.
- `Protocol.Directive`: a missing `directive.endpoint` or `scope` is folded
  into a missing token (`TokenUndefined`). A missing `directive` or
  `directive.header` is not modelled.
