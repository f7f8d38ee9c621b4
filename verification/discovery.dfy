/**
 * `handleDiscovery`: trim and check the access token, scan the registry, and
 * turn the user's device map into the ordered list of endpoint descriptors of
 * a `Discover.Response`.
 */
module Discovery {
  import opened Text
  import opened Protocol

  /** `"device" + i`, the key of the i-th device and the id of its endpoint. */
  function DeviceKey(i: nat): string {
    "device" + Decimal(i)
  }

  /** Different positions give different keys. */
  lemma DeviceKeyInjective(i: nat, j: nat)
    requires DeviceKey(i) == DeviceKey(j)
    ensures i == j
  {
    assert DeviceKey(i)[6..] == Decimal(i);
    assert DeviceKey(j)[6..] == Decimal(j);
    DecimalInjective(i, j);
  }

  /** The keys the loop visits for a map of `n` devices: `device0` .. `device{n-1}`. */
  function DeviceKeys(n: nat): set<string> {
    set i | 0 <= i < n :: DeviceKey(i)
  }

  lemma {:induction false} DeviceKeysCount(n: nat)
    ensures |DeviceKeys(n)| == n
  {
    if n > 0 {
      DeviceKeysCount(n - 1);
      assert DeviceKeys(n) == DeviceKeys(n - 1) + {DeviceKey(n - 1)};
      if DeviceKey(n - 1) in DeviceKeys(n - 1) {
        var j :| 0 <= j < n - 1 && DeviceKey(j) == DeviceKey(n - 1);
        DeviceKeyInjective(j, n - 1);
      }
    }
  }

  lemma SubsetOfSameSize<T>(a: set<T>, b: set<T>)
    requires a <= b && |a| == |b|
    ensures a == b
  {
    assert b == a + (b - a);
    assert |b - a| == 0;
  }

  // ------------------------------------------------------------- descriptors

  const Manufacturer: string := "MQTT Home"

  /** The generic `Alexa` interface every endpoint advertises. */
  const AlexaInterface: Capability := Capability("AlexaInterface", "Alexa", "3", None)

  /** Power control over `powerState`, neither proactively reported nor retrievable. */
  const PowerInterface: Capability :=
    Capability("AlexaInterface", "Alexa.PowerController", "3", Some(Properties(["powerState"], false, false)))

  /** The descriptor the loop pushes for the device stored under `DeviceKey(i)`. */
  function EndpointFor(i: nat, device: DeviceRecord): Endpoint {
    Endpoint(DeviceKey(i), Manufacturer, device.name, Manufacturer, [device.deviceType],
             [AlexaInterface, PowerInterface])
  }

  /** Every key the loop looks up, `device0` .. `device{|devices|-1}`, is present. */
  predicate ContiguousKeys(devices: map<string, DeviceRecord>) {
    forall i :: 0 <= i < |devices| ==> DeviceKey(i) in devices
  }

  /** The endpoint list as a whole: position i describes the device under `DeviceKey(i)`. */
  function Endpoints(devices: map<string, DeviceRecord>): seq<Endpoint>
    requires ContiguousKeys(devices)
  {
    seq(|devices|, i requires 0 <= i < |devices| => EndpointFor(i, devices[DeviceKey(i)]))
  }

  /** The fixed `Alexa.Discovery` / `Discover.Response` envelope around a list of endpoints. */
  function DiscoverResponse(endpoints: seq<Endpoint>): Response {
    Response(Event(Header("Alexa.Discovery", "Discover.Response", "3", MessageId, None), None,
                   EndpointsPayload(endpoints)))
  }

  // ---------------------------------------------------------- invalid token

  /**
   * The blank-token branch as intended: fail with the "Invalid access token"
   * error naming the directive's message id and the token.
   */
  function InvalidToken(request: Directive, token: string): (o: Outcome)
    ensures o.Raise?
    ensures o.message == "Discovery Request [" + Show(request.header.messageId)
                         + "] failed. Invalid access token: " + token
  {
    Raise("Discovery Request [" + Show(request.header.messageId) + "] failed. Invalid access token: " + token)
  }

  // --------------------------------------------------------------- handler

  /** What discovery did: the scan it issued, if any, and how it ended. */
  datatype DiscoveryResult = DiscoveryResult(scan: Option<ScanQuery>, outcome: Outcome)

  /** The outcome of the scan callback. */
  function ScanOutcome(lookup: Lookup): Outcome {
    match lookup
    case ScanError => Raise(AccessDenied)
    case Count0 => Raise(AccessDenied)
    case Items(devices) =>
      if ContiguousKeys(devices) then Reply(DiscoverResponse(Endpoints(devices)))
      else Crash(DeviceUndefined)
  }

  /**
   * Discovery as a whole, given the directive and what the registry scan
   * hands back; the blank-token branch is the intended one.
   */
  function Discover(request: Directive, lookup: Lookup): DiscoveryResult {
    match request.payloadToken
    case None => DiscoveryResult(None, Crash(TokenUndefined))
    case Some(raw) =>
      var token := Trim(raw);
      if !TokenAccepted(token) then DiscoveryResult(None, InvalidToken(request, token))
      else DiscoveryResult(Some(Query(token)), ScanOutcome(lookup))
  }

  /** The directive carries a payload token that is blank once trimmed. */
  predicate BlankToken(request: Directive) {
    request.payloadToken.Some? && !TokenAccepted(Trim(request.payloadToken.value))
  }

  /**
   * Discovery as written: building the blank-token error message reads
   * `request.event.header.messageId`, and a directive has no `event`, so the
   * branch throws before its callback runs and before the scan (its missing
   * `return` would otherwise let it fall through to the scan). On every other
   * directive it does what the intended handler does.
   */
  function DiscoverAsWritten(request: Directive, lookup: Lookup): (r: DiscoveryResult)
    ensures BlankToken(request) ==> r == DiscoveryResult(None, Crash(RequestEventUndefined))
    ensures BlankToken(request) ==> Discover(request, lookup).outcome.Raise?
    ensures !BlankToken(request) ==> r == Discover(request, lookup)
  {
    match request.payloadToken
    case None => DiscoveryResult(None, Crash(TokenUndefined))
    case Some(raw) =>
      var token := Trim(raw);
      if !TokenAccepted(token) then DiscoveryResult(None, Crash(RequestEventUndefined))
      else DiscoveryResult(Some(Query(token)), ScanOutcome(lookup))
  }

  /**
   * `handleDiscovery`: check the trimmed token, then scan the registry with
   * it and hand the result to the scan callback.
   */
  method HandleDiscovery(request: Directive, lookup: Lookup) returns (r: DiscoveryResult)
    ensures r == Discover(request, lookup)
  {
    if request.payloadToken.None? {
      return DiscoveryResult(None, Crash(TokenUndefined));
    }
    var userAccessToken := Trim(request.payloadToken.value);
    if !TokenAccepted(userAccessToken) {
      return DiscoveryResult(None, InvalidToken(request, userAccessToken));
    }
    var o := ScanCallback(lookup);
    return DiscoveryResult(Some(Query(userAccessToken)), o);
  }

  /**
   * The scan callback: a failed or empty scan is "access denied"; otherwise
   * the endpoints are pushed one at a time for i = 0 .. (number of keys) - 1,
   * each looked up under `"device" + i`, and a missing key throws.
   */
  method ScanCallback(lookup: Lookup) returns (o: Outcome)
    ensures o == ScanOutcome(lookup)
  {
    match lookup {
      case ScanError =>
        return Raise(AccessDenied);
      case Count0 =>
        return Raise(AccessDenied);
      case Items(devices) =>
        var endpoints: seq<Endpoint> := [];
        var i := 0;
        while i < |devices|
          invariant 0 <= i <= |devices|
          invariant forall j :: 0 <= j < i ==> DeviceKey(j) in devices
          invariant |endpoints| == i
          invariant forall j :: 0 <= j < i ==> endpoints[j] == EndpointFor(j, devices[DeviceKey(j)])
        {
          var key := DeviceKey(i);
          if key !in devices {
            return Crash(DeviceUndefined);
          }
          endpoints := endpoints + [EndpointFor(i, devices[key])];
          i := i + 1;
        }
        assert endpoints == Endpoints(devices);
        return Reply(DiscoverResponse(endpoints));
    }
  }

  // ---------------------------------------------------------------- lemmas

  /**
   * The loop completes exactly when the device keys are `device0` ..
   * `device{n-1}` for n devices; any other key set makes it dereference a
   * missing device.
   */
  lemma ContiguousKeysIff(devices: map<string, DeviceRecord>)
    ensures ContiguousKeys(devices) <==> devices.Keys == DeviceKeys(|devices|)
  {
    var n := |devices|;
    if ContiguousKeys(devices) {
      DeviceKeysCount(n);
      assert DeviceKeys(n) <= devices.Keys;
      assert |devices.Keys| == n;
      SubsetOfSameSize(DeviceKeys(n), devices.Keys);
    }
    if devices.Keys == DeviceKeys(n) {
      forall i | 0 <= i < n ensures DeviceKey(i) in devices {
        assert DeviceKey(i) in DeviceKeys(n);
      }
    }
  }

  /**
   * A found user with an accepted token gets one endpoint per device, in
   * ascending key order, each named and categorised after its device and
   * carrying the fixed capability pair; the endpoint ids are exactly the keys
   * of the device map. With non-contiguous keys the handler throws instead.
   */
  lemma DiscoveryListsEveryDevice(request: Directive, devices: map<string, DeviceRecord>)
    requires request.payloadToken.Some? && TokenAccepted(Trim(request.payloadToken.value))
    ensures var r := Discover(request, Items(devices));
      && r.scan == Some(Query(Trim(request.payloadToken.value)))
      && (devices.Keys == DeviceKeys(|devices|) <==> r.outcome.Reply?)
      && (devices.Keys != DeviceKeys(|devices|) ==> r.outcome == Crash(DeviceUndefined))
      && (r.outcome.Reply? ==>
            var ev := r.outcome.response.event;
            && ev.header == Header("Alexa.Discovery", "Discover.Response", "3", MessageId, None)
            && ev.endpoint == None
            && ev.payload.EndpointsPayload?
            && |ev.payload.endpoints| == |devices|
            && (forall i :: 0 <= i < |devices| ==>
                  var e := ev.payload.endpoints[i];
                  && DeviceKey(i) in devices
                  && e.endpointId == DeviceKey(i)
                  && e.friendlyName == devices[DeviceKey(i)].name
                  && e.displayCategories == [devices[DeviceKey(i)].deviceType]
                  && e.manufacturerName == Manufacturer && e.description == Manufacturer
                  && e.capabilities == [AlexaInterface, PowerInterface])
            && (set e | e in ev.payload.endpoints :: e.endpointId) == devices.Keys)
  {
    ContiguousKeysIff(devices);
    if ContiguousKeys(devices) {
      EndpointIdsAreKeys(devices);
    }
  }

  /** With contiguous keys, the endpoint ids are exactly the keys of the device map. */
  lemma EndpointIdsAreKeys(devices: map<string, DeviceRecord>)
    requires ContiguousKeys(devices)
    ensures (set e | e in Endpoints(devices) :: e.endpointId) == devices.Keys
  {
    ContiguousKeysIff(devices);
    var eps := Endpoints(devices);
    var ids := set e | e in eps :: e.endpointId;
    forall k | k in devices.Keys ensures k in ids {
      var i :| 0 <= i < |devices| && DeviceKey(i) == k;
      assert eps[i] in eps;
    }
    forall k | k in ids ensures k in devices.Keys {
      var e :| e in eps && e.endpointId == k;
      var i :| 0 <= i < |eps| && eps[i] == e;
    }
  }

  /** A failed or empty scan raises "access denied" and produces no response. */
  lemma DiscoveryDenied(request: Directive, lookup: Lookup)
    requires request.payloadToken.Some? && TokenAccepted(Trim(request.payloadToken.value))
    requires lookup.ScanError? || lookup.Count0?
    ensures Discover(request, lookup) ==
              DiscoveryResult(Some(Query(Trim(request.payloadToken.value))), Raise(AccessDenied))
  {
  }

  /** A blank token is refused before the registry is scanned. */
  lemma BlankTokenNotScanned(request: Directive, lookup: Lookup)
    requires request.payloadToken.Some?
    requires forall k :: 0 <= k < |request.payloadToken.value| ==> IsTrimmable(request.payloadToken.value[k])
    ensures Discover(request, lookup).scan == None
    ensures Discover(request, lookup).outcome.Raise?
  {
  }
}
