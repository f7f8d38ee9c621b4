/**
 * `handlePowerControl`: a chain of early-return guards (token, endpoint id,
 * online check, registry scan, directive name) that decides which message, if
 * any, is published to which device topic and which response is returned.
 * The registry scan and the MQTT publish are given as their results.
 */
module PowerControl {
  import opened Text
  import opened Protocol

  /** What control did: the scan and the publish it issued, if any, and how it ended. */
  datatype ControlResult = ControlResult(
    scan: Option<ScanQuery>,
    publish: Option<PublishCommand>,
    outcome: Outcome)

  /** `ErrorResponse` of type `ENDPOINT_UNREACHABLE`. */
  function Unreachable(applianceId: Option<string>, corrToken: Option<string>): Response {
    GenerateResponse("ErrorResponse", applianceId, ErrorPayload("ENDPOINT_UNREACHABLE"), corrToken)
  }

  /** `!applianceId` is false: the id is present and not the empty string. */
  predicate HasApplianceId(id: Option<string>) {
    id.Some? && id.value != ""
  }

  // ---------------------------------------------------------- invalid token

  /**
   * The blank-token branch as intended: an `InvalidAccessTokenError` envelope
   * with empty payload for the directive's endpoint, echoing its
   * correlation token.
   */
  function InvalidToken(request: Directive, endpoint: DirectiveEndpoint): (o: Outcome)
    ensures o.Reply?
    ensures o.response.event.header.name == "InvalidAccessTokenError"
    ensures o.response.event.header.namespace == "Alexa"
    ensures o.response.event.header.correlationToken == request.header.correlationToken
    ensures o.response.event.endpoint == Some(EndpointRef(endpoint.endpointId))
    ensures o.response.event.payload == EmptyPayload
  {
    Reply(GenerateResponse("InvalidAccessTokenError", endpoint.endpointId, EmptyPayload,
                           request.header.correlationToken))
  }

  // --------------------------------------------------------------- handler

  /**
   * The scan callback once the registry answered with a device map: TurnOn
   * and TurnOff publish the device's on / off message to its topic and answer
   * by the publish result; any other name answers ENDPOINT_UNREACHABLE.
   */
  function OnDevices(name: string, applianceId: string, corrToken: Option<string>,
                     devices: map<string, DeviceRecord>, mqtt: MqttResult)
    : (r: (Option<PublishCommand>, Outcome))
    ensures r.0.Some? <==> (name == "TurnOn" || name == "TurnOff") && applianceId in devices
    ensures r.0.Some? ==>
      var device := devices[applianceId];
      && r.0.value.address == device.address
      && r.0.value.port == device.port
      && r.0.value.topic == device.topic
      && r.0.value.message == (if name == "TurnOn" then device.onMessage else device.offMessage)
      && r.1 == Reply(if mqtt == Ack then GenerateResponse("Response", Some(applianceId), EmptyPayload, corrToken)
                      else Unreachable(Some(applianceId), corrToken))
    ensures name != "TurnOn" && name != "TurnOff" ==> r.1 == Reply(Unreachable(Some(applianceId), corrToken))
    ensures (name == "TurnOn" || name == "TurnOff") && applianceId !in devices ==> r.1 == Crash(DeviceUndefined)
  {
    if name == "TurnOn" || name == "TurnOff" then
      if applianceId !in devices then (None, Crash(DeviceUndefined))
      else
        var device := devices[applianceId];
        var message := if name == "TurnOn" then device.onMessage else device.offMessage;
        var response := if mqtt == Ack then GenerateResponse("Response", Some(applianceId), EmptyPayload, corrToken)
                        else Unreachable(Some(applianceId), corrToken);
        (Some(PublishCommand(device.address, device.port, device.topic, message)), Reply(response))
    else
      (None, Reply(Unreachable(Some(applianceId), corrToken)))
  }

  /**
   * The whole decision tree, given the directive, what the registry scan
   * hands back and how the publish completes; the blank-token branch is the
   * intended one.
   */
  function HandlePowerControl(request: Directive, lookup: Lookup, mqtt: MqttResult): (r: ControlResult)
    // a missing token throws before anything else happens
    ensures (request.endpoint.None? || request.endpoint.value.token.None?) ==>
      r == ControlResult(None, None, Crash(TokenUndefined))
    // a blank token is refused with InvalidAccessTokenError, before the scan
    ensures request.endpoint.Some? && request.endpoint.value.token.Some?
            && !TokenAccepted(Trim(request.endpoint.value.token.value)) ==>
      r.scan == None && r.publish == None && r.outcome.Reply?
      && r.outcome.response.event.header.name == "InvalidAccessTokenError"
    // an empty or absent endpoint id is refused before the scan
    ensures request.endpoint.Some? && request.endpoint.value.token.Some?
            && TokenAccepted(Trim(request.endpoint.value.token.value))
            && !HasApplianceId(request.endpoint.value.endpointId) ==>
      r.scan == None && r.publish == None
      && r.outcome == Reply(GenerateResponse("UnexpectedInformationReceivedError", request.endpoint.value.endpointId,
                              FaultPayload("applianceId: " + Show(request.endpoint.value.endpointId)),
                              request.header.correlationToken))
    // the registry is scanned, with the trimmed token, exactly when both checks pass
    ensures r.scan.Some? <==>
      request.endpoint.Some? && request.endpoint.value.token.Some?
      && TokenAccepted(Trim(request.endpoint.value.token.value))
      && HasApplianceId(request.endpoint.value.endpointId)
    ensures r.scan.Some? ==> r.scan.value == Query(Trim(request.endpoint.value.token.value))
    // a failed scan raises "access denied"; an empty one answers ENDPOINT_UNREACHABLE
    ensures r.scan.Some? && lookup.ScanError? ==> r.publish == None && r.outcome == Raise(AccessDenied)
    ensures r.scan.Some? && lookup.Count0? ==>
      r.publish == None
      && r.outcome == Reply(Unreachable(request.endpoint.value.endpointId, request.header.correlationToken))
    // on a device map, the directive name and the device decide the publish
    ensures r.scan.Some? && lookup.Items? ==>
      (r.publish, r.outcome) ==
      OnDevices(request.header.name, request.endpoint.value.endpointId.value, request.header.correlationToken,
                lookup.devices, mqtt)
    // at most one publish, and only after a successful scan
    ensures r.publish.Some? ==> r.scan.Some? && lookup.Items?
    // the offline stub never lets TargetOfflineError out
    ensures r.outcome.Reply? ==> r.outcome.response.event.header.name != "TargetOfflineError"
  {
    match request.endpoint
    case None => ControlResult(None, None, Crash(TokenUndefined))
    case Some(endpoint) =>
      match endpoint.token
      case None => ControlResult(None, None, Crash(TokenUndefined))
      case Some(raw) =>
        var userAccessToken := Trim(raw);
        if !TokenAccepted(userAccessToken) then
          ControlResult(None, None, InvalidToken(request, endpoint))
        else AfterTokenCheck(request, endpoint, userAccessToken, lookup, mqtt)
  }

  /**
   * The guards that follow an accepted token (index.js:144 on): endpoint id,
   * online check, registry scan, directive name.
   */
  function AfterTokenCheck(request: Directive, endpoint: DirectiveEndpoint, userAccessToken: string,
                           lookup: Lookup, mqtt: MqttResult): ControlResult
  {
    var corrToken := request.header.correlationToken;
    var applianceId := endpoint.endpointId;
    if !HasApplianceId(applianceId) then
      var payload := FaultPayload("applianceId: " + Show(applianceId));
      ControlResult(None, None,
                    Reply(GenerateResponse("UnexpectedInformationReceivedError", applianceId, payload, corrToken)))
    else if !IsDeviceOnline(applianceId.value, userAccessToken) then
      ControlResult(None, None, Reply(GenerateResponse("TargetOfflineError", applianceId, EmptyPayload, corrToken)))
    else
      var scan := Some(Query(userAccessToken));
      match lookup
      case ScanError => ControlResult(scan, None, Raise(AccessDenied))
      case Count0 => ControlResult(scan, None, Reply(Unreachable(applianceId, corrToken)))
      case Items(devices) =>
        var (publish, outcome) := OnDevices(request.header.name, applianceId.value, corrToken, devices, mqtt);
        ControlResult(scan, publish, outcome)
  }

  /** The directive carries an endpoint token that is blank once trimmed. */
  predicate BlankToken(request: Directive) {
    request.endpoint.Some? && request.endpoint.value.token.Some?
    && !TokenAccepted(Trim(request.endpoint.value.token.value))
  }

  /**
   * `handlePowerControl` as written: its blank-token branch reads
   * `applianceId` before the `const` declaring it, so it throws instead of
   * answering, with no scan and no publish. On every other directive it does
   * what the intended handler does.
   */
  function HandlePowerControlAsWritten(request: Directive, lookup: Lookup, mqtt: MqttResult): (r: ControlResult)
    ensures BlankToken(request) ==> r == ControlResult(None, None, Crash(ApplianceIdUninitialized))
    ensures BlankToken(request) ==> HandlePowerControl(request, lookup, mqtt).outcome.Reply?
    ensures !BlankToken(request) ==> r == HandlePowerControl(request, lookup, mqtt)
  {
    match request.endpoint
    case None => ControlResult(None, None, Crash(TokenUndefined))
    case Some(endpoint) =>
      match endpoint.token
      case None => ControlResult(None, None, Crash(TokenUndefined))
      case Some(raw) =>
        var userAccessToken := Trim(raw);
        if !TokenAccepted(userAccessToken) then
          ControlResult(None, None, Crash(ApplianceIdUninitialized))
        else AfterTokenCheck(request, endpoint, userAccessToken, lookup, mqtt)
  }

  /**
   * `isDeviceOnline` reports every device online, so the offline guard never
   * stops a directive the token and endpoint-id checks let through: it goes
   * on to the registry scan and never answers TargetOfflineError.
   */
  lemma OnlineGuardNeverStops(request: Directive, lookup: Lookup, mqtt: MqttResult)
    requires request.endpoint.Some? && request.endpoint.value.token.Some?
    requires TokenAccepted(Trim(request.endpoint.value.token.value))
    requires HasApplianceId(request.endpoint.value.endpointId)
    ensures IsDeviceOnline(request.endpoint.value.endpointId.value, Trim(request.endpoint.value.token.value))
    ensures HandlePowerControl(request, lookup, mqtt).scan.Some?
    ensures HandlePowerControl(request, lookup, mqtt).outcome
            != Reply(GenerateResponse("TargetOfflineError", request.endpoint.value.endpointId, EmptyPayload,
                                      request.header.correlationToken))
  {
  }

  /**
   * Every response control returns is a generic "Alexa" envelope addressed to
   * the directive's endpoint and echoing its correlation token.
   */
  lemma RepliesEchoDirective(request: Directive, lookup: Lookup, mqtt: MqttResult)
    requires HandlePowerControl(request, lookup, mqtt).outcome.Reply?
    ensures var ev := HandlePowerControl(request, lookup, mqtt).outcome.response.event;
      && request.endpoint.Some?
      && ev.header.namespace == "Alexa"
      && ev.header.payloadVersion == "3"
      && ev.header.correlationToken == request.header.correlationToken
      && ev.endpoint == Some(EndpointRef(request.endpoint.value.endpointId))
  {
    var endpoint := request.endpoint.value;
    if TokenAccepted(Trim(endpoint.token.value)) {
      assert HandlePowerControl(request, lookup, mqtt)
          == AfterTokenCheck(request, endpoint, Trim(endpoint.token.value), lookup, mqtt);
    }
  }

  /**
   * The scenario of a TurnOn for `device0` whose record publishes "ON" to
   * "home/device0": one publish of "ON" to that topic, then a bare "Response"
   * echoing "ct-1".
   */
  lemma TurnOnScenario(device: DeviceRecord)
    requires device.topic == "home/device0" && device.onMessage == "ON"
    ensures var request := Directive(DirectiveHeader("Alexa.PowerController", "TurnOn", None, Some("ct-1")), None,
                                     Some(DirectiveEndpoint(Some("device0"), Some("abc"))));
      var r := HandlePowerControl(request, Items(map["device0" := device]), Ack);
      && r.publish == Some(PublishCommand(device.address, device.port, "home/device0", "ON"))
      && r.outcome == Reply(Response(Event(Header("Alexa", "Response", "3", MessageId, Some("ct-1")),
                                           Some(EndpointRef(Some("device0"))), EmptyPayload)))
  {
    var token := "abc";
    assert !IsTrimmable(token[0]);
    assert TokenAccepted(Trim(token));
  }
}
