/**
 * Shapes exchanged by the Smart Home Skill (API v3) handler: the inbound
 * directive, the outbound event envelope, the device records held by the
 * registry, and the two external collaborators (registry scan, MQTT publish)
 * reduced to the values they hand back.
 */
module Protocol {
  import opened Text

  datatype Option<+T> = None | Some(value: T)

  /** JavaScript template-literal rendering of a possibly-undefined string. */
  function Show(s: Option<string>): string {
    match s
    case None => "undefined"
    case Some(v) => v
  }

  // ---------------------------------------------------------------- inbound

  /** `directive.header`; a field the caller leaves out is `None`. */
  datatype DirectiveHeader = DirectiveHeader(
    namespace: string,
    name: string,
    messageId: Option<string>,
    correlationToken: Option<string>)

  /** `directive.endpoint`: the target device and `scope.token`. */
  datatype DirectiveEndpoint = DirectiveEndpoint(endpointId: Option<string>, token: Option<string>)

  /**
   * `{ directive: { header, payload: { scope: { token } }, endpoint } }`.
   * Discovery reads the token under `payload.scope`, power control under
   * `endpoint.scope`.
   */
  datatype Directive = Directive(
    header: DirectiveHeader,
    payloadToken: Option<string>,
    endpoint: Option<DirectiveEndpoint>)

  // --------------------------------------------------------------- outbound

  /** `generateMessageID()`: one fixed identifier for every response. */
  const MessageId: string := "38A28869-DD5E-48CE-BBE5-A4DB78CECB28"

  datatype Properties = Properties(supported: seq<string>, proactivelyReported: bool, retrievable: bool)

  datatype Capability = Capability(
    capabilityType: string,
    interfaceName: string,
    version: string,
    properties: Option<Properties>)

  /** One discovered endpoint descriptor. */
  datatype Endpoint = Endpoint(
    endpointId: string,
    manufacturerName: string,
    friendlyName: string,
    description: string,
    displayCategories: seq<string>,
    capabilities: seq<Capability>)

  /** The four payload shapes the handler ever builds. */
  datatype Payload =
    | EmptyPayload                                  // {}
    | ErrorPayload(errorType: string)               // { type }
    | FaultPayload(faultingParameter: string)       // { faultingParameter }
    | EndpointsPayload(endpoints: seq<Endpoint>)    // { endpoints }

  /** `event.header`; discovery leaves the correlation token out. */
  datatype Header = Header(
    namespace: string,
    name: string,
    payloadVersion: string,
    messageId: string,
    correlationToken: Option<string>)

  /** `event.endpoint`; its `endpointId` may be undefined. */
  datatype EndpointRef = EndpointRef(endpointId: Option<string>)

  datatype Event = Event(header: Header, endpoint: Option<EndpointRef>, payload: Payload)

  /** `{ event: ... }` */
  datatype Response = Response(event: Event)

  /**
   * `generateResponse(name, endpointId, payload, corrToken)`: the generic
   * envelope, always in namespace "Alexa" with payload version "3", carrying
   * its four arguments back unchanged.
   */
  function GenerateResponse(name: string, endpointId: Option<string>, payload: Payload,
                            corrToken: Option<string>): (r: Response)
    ensures r.event.header.namespace == "Alexa"
    ensures r.event.header.payloadVersion == "3"
    ensures r.event.header.messageId == MessageId
    ensures r.event.header.name == name
    ensures r.event.header.correlationToken == corrToken
    ensures r.event.endpoint == Some(EndpointRef(endpointId))
    ensures r.event.payload == payload
  {
    Response(Event(Header("Alexa", name, "3", MessageId, corrToken), Some(EndpointRef(endpointId)), payload))
  }

  // --------------------------------------------------------------- outcomes

  /** A JavaScript exception the handler code raises before it answers. */
  datatype JsException =
    | TokenUndefined           // `.scope.token.trim()` on a missing token
    | RequestEventUndefined    // `request.event.header` on a directive
    | ApplianceIdUninitialized // `applianceId` read before its `const`
    | DeviceUndefined          // `device.M` on a key the device map lacks

  /**
   * How an invocation ends: `callback(null, response)`, `callback(new
   * Error(message))`, or the invocation fails with an uncaught exception.
   */
  datatype Outcome = Reply(response: Response) | Raise(message: string) | Crash(exception: JsException)

  /** The error both handlers raise when the registry scan fails or finds nothing. */
  const AccessDenied: string := "access denied"

  // ---------------------------------------------------------- collaborators

  /** One entry of a user's `devices` map in the registry table. */
  datatype DeviceRecord = DeviceRecord(
    name: string,
    deviceType: string,
    address: string,
    port: string,
    topic: string,
    onMessage: string,
    offMessage: string)

  const UsersTable: string := "MQTThomeUsers"
  const TokenFilter: string := "access_token = :at"

  /** The scan the handler issues: table, filter and the trimmed token. */
  datatype ScanQuery = ScanQuery(tableName: string, filterExpression: string, accessToken: string)

  function Query(token: string): (q: ScanQuery)
    ensures q.tableName == UsersTable && q.filterExpression == TokenFilter && q.accessToken == token
  {
    ScanQuery(UsersTable, TokenFilter, token)
  }

  /**
   * What the scan hands back: an error, `Count == 0`, or the `devices` map of
   * the first matching item.
   */
  datatype Lookup = ScanError | Count0 | Items(devices: map<string, DeviceRecord>)

  /** The single MQTT publish `sendMQTT` performs. */
  datatype PublishCommand = PublishCommand(address: string, port: string, topic: string, message: string)

  /** How `sendMQTT` completes: acknowledged, or an error / offline. */
  datatype MqttResult = Ack | Err

  // ------------------------------------------------------------ token check

  /** `isValidToken`: a stub that accepts every token. */
  predicate IsValidToken(token: string) {
    true
  }

  /** `!userAccessToken || !isValidToken(userAccessToken)` negated. */
  predicate TokenAccepted(token: string) {
    token != "" && IsValidToken(token)
  }

  /**
   * Because `isValidToken` is a stub, a raw token is accepted exactly when it
   * holds some non-whitespace character.
   */
  lemma TokenAcceptedIffNotBlank(raw: string)
    ensures TokenAccepted(Trim(raw)) <==> exists k :: 0 <= k < |raw| && !IsTrimmable(raw[k])
  {
  }

  /** `isDeviceOnline`: a stub that reports every device online. */
  predicate IsDeviceOnline(applianceId: string, token: string) {
    true
  }
}
