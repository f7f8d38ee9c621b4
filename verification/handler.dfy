/**
 * `exports.handler`: route a directive by `header.namespace` to discovery or
 * power control, and fail with "No supported namespace" otherwise.
 */
module Handler {
  import opened Protocol
  import opened Discovery
  import opened PowerControl
  import opened Text

  datatype HandlerKind = DiscoveryHandler | PowerControlHandler

  /**
   * What one invocation did: the handler it ran, the registry scan and the
   * MQTT publish that handler issued, and how the invocation ended.
   */
  datatype Invocation = Invocation(
    handler: Option<HandlerKind>,
    scan: Option<ScanQuery>,
    publish: Option<PublishCommand>,
    outcome: Outcome)

  /** The entry point, given what the registry scan and the MQTT publish would return. */
  method Handle(event: Directive, lookup: Lookup, mqtt: MqttResult) returns (r: Invocation)
    ensures event.header.namespace == "Alexa.Discovery" ==>
      var d := Discover(event, lookup);
      r == Invocation(Some(DiscoveryHandler), d.scan, None, d.outcome)
    ensures event.header.namespace == "Alexa.PowerController" ==>
      var c := HandlePowerControl(event, lookup, mqtt);
      r == Invocation(Some(PowerControlHandler), c.scan, c.publish, c.outcome)
    ensures event.header.namespace != "Alexa.Discovery" && event.header.namespace != "Alexa.PowerController" ==>
      r == Invocation(None, None, None, Raise("No supported namespace: " + event.header.namespace))
    ensures r.publish.Some? ==> r.handler == Some(PowerControlHandler) && r.scan.Some?
  {
    match event.header.namespace {
      case "Alexa.Discovery" =>
        var d := HandleDiscovery(event, lookup);
        r := Invocation(Some(DiscoveryHandler), d.scan, None, d.outcome);
      case "Alexa.PowerController" =>
        var c := HandlePowerControl(event, lookup, mqtt);
        r := Invocation(Some(PowerControlHandler), c.scan, c.publish, c.outcome);
      case _ =>
        r := Invocation(None, None, None, Raise("No supported namespace: " + event.header.namespace));
    }
  }

  /**
   * The entry point as written: the same routing, into the handlers as
   * written, whose blank-token branches throw. It differs from `Handle` only
   * on a blank token for the handler the namespace selects.
   */
  function HandleAsWritten(event: Directive, lookup: Lookup, mqtt: MqttResult): (r: Invocation)
    ensures event.header.namespace == "Alexa.Discovery" && Discovery.BlankToken(event) ==>
      r == Invocation(Some(DiscoveryHandler), None, None, Crash(RequestEventUndefined))
    ensures event.header.namespace == "Alexa.Discovery" && !Discovery.BlankToken(event) ==>
      var d := Discover(event, lookup);
      r == Invocation(Some(DiscoveryHandler), d.scan, None, d.outcome)
    ensures event.header.namespace == "Alexa.PowerController" && PowerControl.BlankToken(event) ==>
      r == Invocation(Some(PowerControlHandler), None, None, Crash(ApplianceIdUninitialized))
    ensures event.header.namespace == "Alexa.PowerController" && !PowerControl.BlankToken(event) ==>
      var c := HandlePowerControl(event, lookup, mqtt);
      r == Invocation(Some(PowerControlHandler), c.scan, c.publish, c.outcome)
    ensures event.header.namespace != "Alexa.Discovery" && event.header.namespace != "Alexa.PowerController" ==>
      r == Invocation(None, None, None, Raise("No supported namespace: " + event.header.namespace))
  {
    match event.header.namespace
    case "Alexa.Discovery" =>
      var d := DiscoverAsWritten(event, lookup);
      Invocation(Some(DiscoveryHandler), d.scan, None, d.outcome)
    case "Alexa.PowerController" =>
      var c := HandlePowerControlAsWritten(event, lookup, mqtt);
      Invocation(Some(PowerControlHandler), c.scan, c.publish, c.outcome)
    case _ =>
      Invocation(None, None, None, Raise("No supported namespace: " + event.header.namespace))
  }

  /**
   * A discovery directive with token "": as written the invocation throws,
   * whatever the registry would have said; as intended it raises the
   * invalid-token error.
   */
  lemma EmptyDiscoveryTokenCrashesAsWritten(lookup: Lookup, mqtt: MqttResult)
    ensures var discover := Directive(DirectiveHeader("Alexa.Discovery", "Discover", Some("m-1"), None),
                                      Some(""), None);
      && HandleAsWritten(discover, lookup, mqtt).outcome == Crash(RequestEventUndefined)
      && Discover(discover, lookup).outcome
         == Raise("Discovery Request [m-1] failed. Invalid access token: ")
  {
    var discover := Directive(DirectiveHeader("Alexa.Discovery", "Discover", Some("m-1"), None), Some(""), None);
    assert Trim("") == "";
    assert Discovery.BlankToken(discover);
    assert "Discovery Request [" + "m-1" + "] failed. Invalid access token: " + ""
        == "Discovery Request [m-1] failed. Invalid access token: ";
  }

  /**
   * A power-control directive with token "  ": as written the invocation
   * throws, whatever the registry would have said; as intended it answers
   * InvalidAccessTokenError.
   */
  lemma BlankControlTokenCrashesAsWritten(lookup: Lookup, mqtt: MqttResult)
    ensures var control := Directive(DirectiveHeader("Alexa.PowerController", "TurnOn", Some("m-2"), Some("ct-1")),
                                     None, Some(DirectiveEndpoint(Some("device0"), Some("  "))));
      && HandleAsWritten(control, lookup, mqtt).outcome == Crash(ApplianceIdUninitialized)
      && HandlePowerControl(control, lookup, mqtt).outcome.Reply?
      && HandlePowerControl(control, lookup, mqtt).outcome.response.event.header.name == "InvalidAccessTokenError"
  {
    var blank := "  ";
    assert IsTrimmable(blank[0]) && IsTrimmable(blank[1]);
    assert Trim(blank) == "";
    var control := Directive(DirectiveHeader("Alexa.PowerController", "TurnOn", Some("m-2"), Some("ct-1")),
                             None, Some(DirectiveEndpoint(Some("device0"), Some(blank))));
    assert PowerControl.BlankToken(control);
  }
}
