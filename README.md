# Nerve instance discovery for Turbine, modelled in Dafny

This project models the discovery provider `ZooKeeperNerveInstanceDiscovery`,
which tells a Turbine metrics aggregator which Hystrix endpoints to poll. It
also models the `Health` record that the provider's health check decodes.

One discovery call does the following:

1. It opens a ZooKeeper session and lists the service names under the root
   path (default `/nerve/services`).
2. For each service it lists the instance nodes under
   `root/<service>/<suffix>` (default suffix `services`).
3. It reads each node's data and decodes it as a `Service` record (`host`,
   `port`).
4. It sends a health GET to `protocol://host:port` followed by the health path
   (default `/health`), with a `/` put in front of the path only when it does
   not already start with one. It keeps the instance only when the status is
   200 and the JSON body has `hystrix` true.
5. For every kept instance it emits `Instance(host:port, clusterName, true)`.
6. It closes the session on the way out, on the success path and the failure
   path alike.

## Files

- `exceptions.dfy` (`Exceptions`): `Option`, `Result`, the exceptions that can
  escape a call, and `Append`, which runs two steps in order. The first
  exception wins; otherwise the two lists are concatenated.
- `decimal.dfy` (`Decimal`): Java's decimal rendering of an `int`, and a parser
  that inverts it.
- `health.dfy` (`HealthModel`): the `Health` class (one mutable flag, false by
  default). It also holds the decoding of a probe body, which ignores unknown
  fields.
- `service.dfy` (`ServiceModel`): the `Service` record and how a node's data
  decodes into it.
- `zookeeper.dfy` (`ZooKeeperStore`): a point-in-time snapshot of the tree,
  and the `ZkSession` class through which the tree is read while the session
  is open.
- `discovery.dfy` (`NerveDiscovery`): path and URL building, the health check,
  and the two loops of the provider. The loops are written as methods:
  `GetServiceInstances` and `WalkServices`, with `GetInstanceList` around them
  for the session. Each method is proved equal to a specification function
  (`ServiceInstances`, `Discover`, `InstanceList`).
- `properties.dfy` (`DiscoveryProperties`): a second, independent definition
  of the result. It walks the tree into a list of candidates, then applies the
  health filter. The file proves the two definitions agree, and proves the
  provider's promises from that.

## Inputs taken as parameters

- **The ZooKeeper tree** is a `Snapshot`: a map from path to child names, and
  a map from node path to node data. A path that is missing from a map is a
  `getChildren` or `getData` call that throws.
- **Building the ZooKeeper client** either works or throws. The store is
  passed as `Option<Snapshot>`, and `None` means the constructor threw.
- **Jackson's decoding of a node** is the `Payload` oracle: the node's data is
  either a `Service` record or `Garbage`.
- **The HTTP client** is a function `probe: string -> ProbeOutcome`. For a
  given URL it says one of three things: the request could not be built
  (`UriRejected`), the request failed (`TransportError`), or a response came
  back (`Response(status, body)`).
- **The response body** is `Unparseable` or a JSON object with its fields.
- **The dynamic properties** are one `Config` value, read once per call.

## Behaviour worth knowing

- **A node that fails to read or decode fails the whole call.** It is not
  skipped. The `getData` call and `readValue` (lines 115-119) are outside any
  try block. `DiscoveryFailsOnAnyReadFailure` and `DiscoverySucceedsIff`
  state this.
- **A failed service listing fails the whole call**, just like a failed root
  listing. No partial list is returned.
- **Every candidate is probed.** There is no switch that turns the health
  check off.
- **A health URL that the HTTP library refuses fails the whole call.**
  `new HttpGet(...)` (line 131) runs before the `try` at line 138. If it
  throws, the exception leaves `isValidHystrixInstance` and ends the call. The
  model returns `Err(BadHealthUrl(url))` in that case.
  `CheckHealthFailsOnlyOnRejectedUrl` proves that this is the only way the
  health check can fail. Every failure inside the `try` yields `false`.

## Model

| member | source | states |
|---|---|---|
| `HealthModel.Health.constructor` | src/main/java/fitpay/turbine/model/Health.java:8 | a new Health has `hystrix` false |
| `HealthModel.Health.SetHystrix` | src/main/java/fitpay/turbine/model/Health.java:10-16 | afterwards `IsHystrix()` returns the value set; the frame is the object's only field |
| `HealthModel.DecodeHealth` | src/main/java/fitpay/turbine/model/Health.java:5-8 | decoding succeeds exactly for a JSON object whose `hystrix` field, if present, is a boolean; a present flag decodes to its own value |
| `HealthModel.ReadHealth` | src/main/java/fitpay/turbine/discovery/nerve/ZooKeeperNerveInstanceDiscovery.java:141-142 | builds a fresh default Health, sets only the known field, and its flag equals the decoded value; it fails exactly when decoding fails |
| `HealthModel.PresentFlagDecodesToValue` | src/main/java/fitpay/turbine/model/Health.java:8-16 | a body whose `hystrix` field is a boolean decodes to that boolean |
| `HealthModel.DecodeIgnoresUnknownFields` | src/main/java/fitpay/turbine/model/Health.java:5-8 | two bodies that agree on the `hystrix` key decode to the same result |
| `HealthModel.MissingFlagDecodesFalse` | src/main/java/fitpay/turbine/model/Health.java:8 | a body without the flag decodes to the default false |
| `HealthModel.ExtraFieldIgnored` | src/main/java/fitpay/turbine/model/Health.java:5 | adding any field other than `hystrix` leaves the decoded result unchanged |
| `ZooKeeperStore.ZkSession.constructor` | src/main/java/fitpay/turbine/discovery/nerve/ZooKeeperNerveInstanceDiscovery.java:84 | a new session is open and sees the given snapshot |
| `ZooKeeperStore.ZkSession.Close` | src/main/java/fitpay/turbine/discovery/nerve/ZooKeeperNerveInstanceDiscovery.java:92-95 | afterwards the session is closed |
| `Decimal.NatToDecimal` | src/main/java/fitpay/turbine/discovery/nerve/ZooKeeperNerveInstanceDiscovery.java:122-123 | the rendering of a port's magnitude is non-empty, all digits, with no leading zero |
| `Decimal.IntToDecimal` | src/main/java/fitpay/turbine/discovery/nerve/ZooKeeperNerveInstanceDiscovery.java:122-123 | a rendered int is non-empty, made of digits and a sign, and starts with `-` exactly for negative numbers |
| `Decimal.NatDecimalRoundTrip` | src/main/java/fitpay/turbine/discovery/nerve/ZooKeeperNerveInstanceDiscovery.java:122-123 | reading the digits back gives the number |
| `Decimal.IntDecimalRoundTrip` | src/main/java/fitpay/turbine/discovery/nerve/ZooKeeperNerveInstanceDiscovery.java:131-135 | parsing a rendered port gives the port back, negative values included |
| `NerveDiscovery.PathsAreInjective` | src/main/java/fitpay/turbine/discovery/nerve/ZooKeeperNerveInstanceDiscovery.java:105-112 | distinct services get distinct instance directories; distinct nodes of a directory get distinct node paths |
| `NerveDiscovery.NodePathLayout` | src/main/java/fitpay/turbine/discovery/nerve/ZooKeeperNerveInstanceDiscovery.java:105-112 | a node path is root, `/`, service, `/`, suffix, `/`, node name, segment by segment |
| `NerveDiscovery.NormalizeHealthPath` | src/main/java/fitpay/turbine/discovery/nerve/ZooKeeperNerveInstanceDiscovery.java:135 | the result starts with `/`; a path already starting with `/` is used unchanged; otherwise `/` is prepended |
| `NerveDiscovery.NormalizeIdempotent` | src/main/java/fitpay/turbine/discovery/nerve/ZooKeeperNerveInstanceDiscovery.java:135 | normalising twice is the same as normalising once |
| `NerveDiscovery.HealthUrlShape` | src/main/java/fitpay/turbine/discovery/nerve/ZooKeeperNerveInstanceDiscovery.java:131-135 | the URL is `protocol://host:port` followed by a path starting with `/`; that path is the health path itself, or the health path after a `/` |
| `NerveDiscovery.IsValidHystrixInstance` | src/main/java/fitpay/turbine/discovery/nerve/ZooKeeperNerveInstanceDiscovery.java:130-151 | the imperative check, through a decoded Health object, returns exactly the eligibility rule `CheckHealth` |
| `NerveDiscovery.EligibleIff` | src/main/java/fitpay/turbine/discovery/nerve/ZooKeeperNerveInstanceDiscovery.java:138-150 | a candidate is eligible exactly when the probe answers status 200 and the body decodes with `hystrix` true |
| `NerveDiscovery.CheckHealthFailsOnlyOnRejectedUrl` | src/main/java/fitpay/turbine/discovery/nerve/ZooKeeperNerveInstanceDiscovery.java:131-150 | the health check throws exactly when the request cannot be built; every failure inside the try yields false |
| `NerveDiscovery.AddressRoundTrip` | src/main/java/fitpay/turbine/discovery/nerve/ZooKeeperNerveInstanceDiscovery.java:122-123 | an emitted address splits back into its host and port at the last colon, whatever the host contains |
| `NerveDiscovery.CollectNodesStopsAtFailure` | src/main/java/fitpay/turbine/discovery/nerve/ZooKeeperNerveInstanceDiscovery.java:111-125 | an exception at some node ends the node loop with that exception |
| `NerveDiscovery.CollectServicesStopsAtFailure` | src/main/java/fitpay/turbine/discovery/nerve/ZooKeeperNerveInstanceDiscovery.java:86-90 | an exception in some service ends the service loop with that exception |
| `NerveDiscovery.GetServiceInstances` | src/main/java/fitpay/turbine/discovery/nerve/ZooKeeperNerveInstanceDiscovery.java:102-128 | the node loop, run while the session is open, returns the specification `ServiceInstances` |
| `NerveDiscovery.WalkServices` | src/main/java/fitpay/turbine/discovery/nerve/ZooKeeperNerveInstanceDiscovery.java:83-90 | the service loop, run while the session is open, returns the specification `Discover` |
| `NerveDiscovery.GetInstanceList` | src/main/java/fitpay/turbine/discovery/nerve/ZooKeeperNerveInstanceDiscovery.java:78-100 | returns `InstanceList`; a session exists exactly when the client could be built, and when it exists it is closed on return |
| `DiscoveryProperties.KeepAppend` | src/main/java/fitpay/turbine/discovery/nerve/ZooKeeperNerveInstanceDiscovery.java:86-89 | filtering two candidate lists one after the other is the same as filtering their concatenation |
| `DiscoveryProperties.NodeOutcomeIsFiltered` | src/main/java/fitpay/turbine/discovery/nerve/ZooKeeperNerveInstanceDiscovery.java:112-124 | one pass of the node loop is the read, then the decode, then the health filter on that one candidate |
| `DiscoveryProperties.CollectNodesAgrees` | src/main/java/fitpay/turbine/discovery/nerve/ZooKeeperNerveInstanceDiscovery.java:111-125 | the node loop and "decode all nodes, then filter" both fail, or they give the same list |
| `DiscoveryProperties.ServiceInstancesAgrees` | src/main/java/fitpay/turbine/discovery/nerve/ZooKeeperNerveInstanceDiscovery.java:102-128 | the same agreement for one service, listing included |
| `DiscoveryProperties.CollectServicesAgrees` | src/main/java/fitpay/turbine/discovery/nerve/ZooKeeperNerveInstanceDiscovery.java:86-90 | the same agreement for the service loop |
| `DiscoveryProperties.DiscoverAgrees` | src/main/java/fitpay/turbine/discovery/nerve/ZooKeeperNerveInstanceDiscovery.java:83-96 | discovery and "walk the whole tree, then filter" both fail, or they give the same instances |
| `DiscoveryProperties.EmitAllShape` | src/main/java/fitpay/turbine/discovery/nerve/ZooKeeperNerveInstanceDiscovery.java:122-123 | each emitted instance is, in position, the emitted form of its candidate |
| `DiscoveryProperties.PassingIsFilter` | src/main/java/fitpay/turbine/discovery/nerve/ZooKeeperNerveInstanceDiscovery.java:121-124 | the kept candidates are exactly those whose health check says yes; there are no more kept than candidates; all are kept when all pass |
| `DiscoveryProperties.KeepIsFilterMap` | src/main/java/fitpay/turbine/discovery/nerve/ZooKeeperNerveInstanceDiscovery.java:119-124 | the filter fails exactly when some candidate's request cannot be built; otherwise it emits the passing candidates, in order |
| `DiscoveryProperties.NodeCandidatesOkIff` | src/main/java/fitpay/turbine/discovery/nerve/ZooKeeperNerveInstanceDiscovery.java:111-119 | decoding a directory succeeds exactly when every listed node reads and decodes, and then it gives one candidate per node |
| `DiscoveryProperties.CandidatesOkIff` | src/main/java/fitpay/turbine/discovery/nerve/ZooKeeperNerveInstanceDiscovery.java:86-89 | the walk over services succeeds exactly when each service is readable, and then it gives as many candidates as nodes are listed |
| `DiscoveryProperties.AllCandidatesOkIff` | src/main/java/fitpay/turbine/discovery/nerve/ZooKeeperNerveInstanceDiscovery.java:83-90 | the whole walk succeeds exactly when the tree is readable, and then it gives one candidate per listed node |
| `DiscoveryProperties.DiscoverySucceedsIff` | src/main/java/fitpay/turbine/discovery/nerve/ZooKeeperNerveInstanceDiscovery.java:83-96 | the call succeeds exactly when every listing, read and decode succeeds and every health request can be built |
| `DiscoveryProperties.DiscoveryIsFilteredWalk` | src/main/java/fitpay/turbine/discovery/nerve/ZooKeeperNerveInstanceDiscovery.java:86-89 | a successful result is the emitted form of the passing candidates, in service-listing order and then node-listing order |
| `DiscoveryProperties.DiscoveryTagsUniformly` | src/main/java/fitpay/turbine/discovery/nerve/ZooKeeperNerveInstanceDiscovery.java:104-123 | every instance has the configured cluster name, is marked up, and has the `host:port` of a candidate that passed the health check |
| `DiscoveryProperties.DiscoveryLength` | src/main/java/fitpay/turbine/discovery/nerve/ZooKeeperNerveInstanceDiscovery.java:86-89 | a result has at most as many instances as nodes are listed; when every check passes it has exactly that many, one per node in order |
| `DiscoveryProperties.DiscoveryFailsOnAnyReadFailure` | src/main/java/fitpay/turbine/discovery/nerve/ZooKeeperNerveInstanceDiscovery.java:83-96 | if the root listing, any service listing, or any node read or decode fails, the call fails and returns no list at all |
| `DiscoveryProperties.InstanceListOutcome` | src/main/java/fitpay/turbine/discovery/nerve/ZooKeeperNerveInstanceDiscovery.java:78-100 | a client that cannot be built and an unreadable tree both give an exception; a success is the filtered walk |
| `DiscoveryProperties.CheckoutHealthUrl` | src/main/java/fitpay/turbine/discovery/nerve/ZooKeeperNerveInstanceDiscovery.java:131-135 | with the defaults, instance 10.0.0.5:8080 is probed at `http://10.0.0.5:8080/health` |
| `DiscoveryProperties.CheckoutServiceDir` | src/main/java/fitpay/turbine/discovery/nerve/ZooKeeperNerveInstanceDiscovery.java:105-106 | with the defaults, service `checkout-svc` is listed at `/nerve/services/checkout-svc/services` |
| `DiscoveryProperties.CheckoutNode` | src/main/java/fitpay/turbine/discovery/nerve/ZooKeeperNerveInstanceDiscovery.java:112-124 | the example node contributes `10.0.0.5:8080` exactly when its probe answers 200 with `hystrix` true |
| `DiscoveryProperties.CheckoutExample` | src/main/java/fitpay/turbine/discovery/nerve/ZooKeeperNerveInstanceDiscovery.java:78-128 | the one-service, one-node tree gives `[10.0.0.5:8080, Default, up]` when the probe answers 200 with `hystrix` true, and an empty list for any other status or a false flag |

## Left out

- The ZooKeeper client itself is left out: connecting, session timeouts, and
  `exists`/`getData` stat and watch semantics. The tree is a snapshot that may
  make any call fail.
- The watcher callback `process` (lines 153-156) is left out, because it only
  logs.
- HTTP execution and the connect and read timeouts set in the constructor
  (lines 69-75) are left out. The probe is a parameter.
- Jackson's parsing of node data is an oracle, and so is its parsing of
  response bodies. `Service.java` is not part of this model, so what Jackson
  does with a node that lacks `host` or `port` belongs to the oracle.
- `HealthModel.DecodeHealth`: Jackson may coerce a `hystrix` value that is not
  a boolean (a number, a string, or null). The model treats every such value
  as a decode failure, which makes the candidate ineligible.
- The dynamic property factory (lines 36-63) is left out. Its values form one
  `Config`. `zkHosts` and the session timeout only affect connecting, which is
  the `Option<Snapshot>` parameter.
- The probes are treated as independent of one another. The verdict is a
  fixed function of the URL, so two nodes with the same `host:port` get the
  same verdict, and one probe never affects a later one. The source shares
  one `DefaultHttpClient` across probes (lines 67 and 74). Its non-200 branch
  (lines 143-145) never consumes the response entity. Connection state left
  behind that way could make a later probe fail inside the `try`. The model
  does not capture this.
- Logging is left out.
- `FitPayContextInitializer.java` is left out. It only starts and stops the
  Turbine runtime.
- Concurrency, cancellation, skipping malformed nodes, and a health-check
  switch are left out, because the code has none of them.
- Running discovery twice on the same inputs gives the same result. This
  holds because `Discover` is a function of its inputs, so no lemma is stated
  for it.
- `NerveDiscovery.GetInstanceList`: exceptions from `close()` itself are not
  modelled.
