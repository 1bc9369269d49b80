/** ZooKeeperNerveInstanceDiscovery: walk the service tree, decode each instance
    node, probe its health endpoint and emit the instances that support Hystrix. */
module NerveDiscovery {
  import opened Exceptions
  import opened Decimal
  import opened HealthModel
  import opened ServiceModel
  import opened ZooKeeperStore

  /** The configuration values one discovery call reads. */
  datatype Config = Config(
    rootServicePath: string,
    servicesSuffixPath: string,
    clusterName: string,
    healthPath: string,
    protocol: string)

  /** The defaults the properties fall back to. */
  const DefaultConfig: Config := Config("/nerve/services", "services", "Default", "/health", "http")

  /** Turbine's Instance: address, cluster and liveness. */
  datatype Instance = Instance(hostname: string, cluster: string, isUp: bool)

  /** What the HTTP library makes of one health GET: the URL is refused when the
      request is built, the request fails, or a response arrives. */
  datatype ProbeOutcome = UriRejected | TransportError | Response(status: int, body: Body)

  // ---------------------------------------------------------------- paths

  function ServiceDir(cfg: Config, serviceName: string): string
  {
    cfg.rootServicePath + "/" + serviceName + "/" + cfg.servicesSuffixPath
  }

  function NodePath(dir: string, node: string): string
  {
    dir + "/" + node
  }

  /** Distinct services are listed under distinct directories, and distinct
      nodes of one directory are read at distinct paths. */
  lemma PathsAreInjective(cfg: Config, s1: string, s2: string, dir: string, n1: string, n2: string)
    ensures ServiceDir(cfg, s1) == ServiceDir(cfg, s2) ==> s1 == s2
    ensures NodePath(dir, n1) == NodePath(dir, n2) ==> n1 == n2
  {
    var prefix := cfg.rootServicePath + "/";
    var suffix := "/" + cfg.servicesSuffixPath;
    if ServiceDir(cfg, s1) == ServiceDir(cfg, s2) {
      assert ServiceDir(cfg, s1) == prefix + s1 + suffix;
      assert ServiceDir(cfg, s2) == prefix + s2 + suffix;
      assert |s1| == |s2|;
      assert s1 == (prefix + s1 + suffix)[|prefix|..|prefix| + |s1|];
      assert s2 == (prefix + s2 + suffix)[|prefix|..|prefix| + |s2|];
    }
    if NodePath(dir, n1) == NodePath(dir, n2) {
      assert n1 == NodePath(dir, n1)[|dir| + 1..];
      assert n2 == NodePath(dir, n2)[|dir| + 1..];
    }
  }

  /** The node path is the instance directory root/service/suffix, a slash and
      the node name. */
  lemma NodePathLayout(cfg: Config, serviceName: string, node: string)
    ensures var p := NodePath(ServiceDir(cfg, serviceName), node);
      var r := |cfg.rootServicePath|;
      var d := |ServiceDir(cfg, serviceName)|;
      p[..r] == cfg.rootServicePath && p[r] == '/' &&
      p[r + 1..r + 1 + |serviceName|] == serviceName && p[r + 1 + |serviceName|] == '/' &&
      p[r + 2 + |serviceName|..d] == cfg.servicesSuffixPath &&
      p[d] == '/' && p[d + 1..] == node
  {
  }

  // ---------------------------------------------------------- health URL

  predicate StartsWithSlash(s: string)
  {
    |s| > 0 && s[0] == '/'
  }

  function NormalizeHealthPath(path: string): (r: string)
    ensures StartsWithSlash(r)
    ensures StartsWithSlash(path) ==> r == path
    ensures !StartsWithSlash(path) ==> r == "/" + path
  {
    if StartsWithSlash(path) then path else "/" + path
  }

  lemma NormalizeIdempotent(path: string)
    ensures NormalizeHealthPath(NormalizeHealthPath(path)) == NormalizeHealthPath(path)
  {
  }

  /** "%s://%s:%s%s" over protocol, host, port and the normalised health path. */
  function HealthUrl(cfg: Config, service: Service): string
  {
    cfg.protocol + "://" + service.host + ":" + IntToDecimal(service.port) + NormalizeHealthPath(cfg.healthPath)
  }

  /** The URL ends in a path that starts with a slash and is the health path
      itself, or the health path after a slash. */
  lemma HealthUrlShape(cfg: Config, service: Service)
    ensures var authority := cfg.protocol + "://" + service.host + ":" + IntToDecimal(service.port);
      var url := HealthUrl(cfg, service);
      url[..|authority|] == authority && url[|authority|] == '/' &&
      (StartsWithSlash(cfg.healthPath) ==> url[|authority|..] == cfg.healthPath) &&
      (!StartsWithSlash(cfg.healthPath) ==> url[|authority| + 1..] == cfg.healthPath)
  {
  }

  // ------------------------------------------------------- health check

  /** isValidHystrixInstance. Only a URL refused while building the request
      escapes as an exception; every failure inside the try yields false. */
  function CheckHealth(cfg: Config, service: Service, probe: string -> ProbeOutcome): Result<bool>
  {
    var url := HealthUrl(cfg, service);
    match probe(url)
    case UriRejected => Err(BadHealthUrl(url))
    case TransportError => Ok(false)
    case Response(status, body) => Ok(status == 200 && DecodeHealth(body) == Some(true))
  }

  method IsValidHystrixInstance(cfg: Config, service: Service, probe: string -> ProbeOutcome)
    returns (r: Result<bool>)
    ensures r == CheckHealth(cfg, service, probe)
  {
    var url := HealthUrl(cfg, service);
    var response := probe(url);
    if response.UriRejected? {
      // new HttpGet(url) throws before the try is entered
      return Err(BadHealthUrl(url));
    }
    if response.Response? && response.status == 200 {
      var health := ReadHealth(response.body);
      if health.Some? {
        return Ok(health.value.IsHystrix());
      }
    }
    return Ok(false);
  }

  lemma EligibleIff(cfg: Config, service: Service, probe: string -> ProbeOutcome)
    ensures var outcome := probe(HealthUrl(cfg, service));
      CheckHealth(cfg, service, probe) == Ok(true) <==>
        outcome.Response? && outcome.status == 200 && DecodeHealth(outcome.body) == Some(true)
  {
  }

  /** The check fails only when the request cannot be built. */
  lemma CheckHealthFailsOnlyOnRejectedUrl(cfg: Config, service: Service, probe: string -> ProbeOutcome)
    ensures CheckHealth(cfg, service, probe).Err? <==> probe(HealthUrl(cfg, service)).UriRejected?
    ensures CheckHealth(cfg, service, probe).Err? ==>
      CheckHealth(cfg, service, probe).error == BadHealthUrl(HealthUrl(cfg, service))
  {
  }

  // ------------------------------------------------------------- emitting

  function Address(host: string, port: int): string
  {
    host + ":" + IntToDecimal(port)
  }

  function Emit(cfg: Config, service: Service): Instance
  {
    Instance(Address(service.host, service.port), cfg.clusterName, true)
  }

  function LastIndexOf(s: string, c: char): (r: Option<nat>)
    ensures r.Some? ==> r.value < |s| && s[r.value] == c && c !in s[r.value + 1..]
    ensures r.None? ==> c !in s
    decreases |s|
  {
    if s == [] then None
    else if s[|s| - 1] == c then Some(|s| - 1)
    else LastIndexOf(s[..|s| - 1], c)
  }

  /** Splits an address at its last colon and parses the port. */
  function SplitAddress(address: string): Option<(string, int)>
  {
    match LastIndexOf(address, ':')
    case None => None
    case Some(k) =>
      match ParseInt(address[k + 1..])
      case None => None
      case Some(port) => Some((address[..k], port))
  }

  /** The address of an instance determines its host and port, whatever the
      host contains, because the rendered port has no colon. */
  lemma AddressRoundTrip(host: string, port: int)
    ensures SplitAddress(Address(host, port)) == Some((host, port))
  {
    var digits := IntToDecimal(port);
    var a := Address(host, port);
    assert a[|host|] == ':';
    assert a[|host| + 1..] == digits;
    assert ':' !in digits;
    var k := LastIndexOf(a, ':');
    assert k == Some(|host|);
    assert a[..|host|] == host;
    IntDecimalRoundTrip(port);
  }

  // --------------------------------------------------------- specification

  /** Reads and decodes the node at `path`. */
  function ReadService(snapshot: Snapshot, path: string): Result<Service>
  {
    match ReadData(snapshot, path)
    case Err(e) => Err(e)
    case Ok(payload) => DecodeService(path, payload)
  }

  /** What one decoded candidate contributes: itself as an instance or nothing. */
  function Emitted(cfg: Config, service: Service, probe: string -> ProbeOutcome): Result<seq<Instance>>
  {
    match CheckHealth(cfg, service, probe)
    case Err(e) => Err(e)
    case Ok(valid) => Ok(if valid then [Emit(cfg, service)] else [])
  }

  /** One iteration of the node loop. */
  function NodeOutcome(cfg: Config, snapshot: Snapshot, dir: string, node: string,
                       probe: string -> ProbeOutcome): Result<seq<Instance>>
  {
    match ReadService(snapshot, NodePath(dir, node))
    case Err(e) => Err(e)
    case Ok(service) => Emitted(cfg, service, probe)
  }

  /** The node loop over `nodes`, stopping at the first exception. */
  function CollectNodes(cfg: Config, snapshot: Snapshot, dir: string, nodes: seq<string>,
                        probe: string -> ProbeOutcome): Result<seq<Instance>>
    decreases |nodes|
  {
    if nodes == [] then Ok([])
    else Append(CollectNodes(cfg, snapshot, dir, nodes[..|nodes| - 1], probe),
                NodeOutcome(cfg, snapshot, dir, nodes[|nodes| - 1], probe))
  }

  /** getServiceInstances. */
  function ServiceInstances(cfg: Config, snapshot: Snapshot, serviceName: string,
                            probe: string -> ProbeOutcome): Result<seq<Instance>>
  {
    var dir := ServiceDir(cfg, serviceName);
    match ListChildren(snapshot, dir)
    case Err(e) => Err(e)
    case Ok(nodes) => CollectNodes(cfg, snapshot, dir, nodes, probe)
  }

  /** The service loop over `names`, stopping at the first exception. */
  function CollectServices(cfg: Config, snapshot: Snapshot, names: seq<string>,
                           probe: string -> ProbeOutcome): Result<seq<Instance>>
    decreases |names|
  {
    if names == [] then Ok([])
    else Append(CollectServices(cfg, snapshot, names[..|names| - 1], probe),
                ServiceInstances(cfg, snapshot, names[|names| - 1], probe))
  }

  /** The body of the try in getInstanceList. */
  function Discover(cfg: Config, snapshot: Snapshot, probe: string -> ProbeOutcome): Result<seq<Instance>>
  {
    match ListChildren(snapshot, cfg.rootServicePath)
    case Err(e) => Err(e)
    case Ok(names) => CollectServices(cfg, snapshot, names, probe)
  }

  /** getInstanceList; `store` is None when the ZooKeeper client cannot be built. */
  function InstanceList(cfg: Config, store: Option<Snapshot>, probe: string -> ProbeOutcome): Result<seq<Instance>>
  {
    match store
    case None => Err(ConnectFailed)
    case Some(snapshot) => Discover(cfg, snapshot, probe)
  }

  /** An exception in the first k nodes ends the loop with that exception. */
  lemma {:induction false} CollectNodesStopsAtFailure(cfg: Config, snapshot: Snapshot, dir: string,
                                                      nodes: seq<string>, k: nat, probe: string -> ProbeOutcome)
    requires k <= |nodes|
    requires CollectNodes(cfg, snapshot, dir, nodes[..k], probe).Err?
    ensures CollectNodes(cfg, snapshot, dir, nodes, probe) == CollectNodes(cfg, snapshot, dir, nodes[..k], probe)
    decreases |nodes|
  {
    if k < |nodes| {
      var front := nodes[..|nodes| - 1];
      assert front[..k] == nodes[..k];
      CollectNodesStopsAtFailure(cfg, snapshot, dir, front, k, probe);
    } else {
      assert nodes[..k] == nodes;
    }
  }

  /** An exception in the first k services ends the loop with that exception. */
  lemma {:induction false} CollectServicesStopsAtFailure(cfg: Config, snapshot: Snapshot, names: seq<string>,
                                                         k: nat, probe: string -> ProbeOutcome)
    requires k <= |names|
    requires CollectServices(cfg, snapshot, names[..k], probe).Err?
    ensures CollectServices(cfg, snapshot, names, probe) == CollectServices(cfg, snapshot, names[..k], probe)
    decreases |names|
  {
    if k < |names| {
      var front := names[..|names| - 1];
      assert front[..k] == names[..k];
      CollectServicesStopsAtFailure(cfg, snapshot, front, k, probe);
    } else {
      assert names[..k] == names;
    }
  }

  /** One more iteration of the node loop. */
  lemma CollectNodesStep(cfg: Config, snapshot: Snapshot, dir: string, nodes: seq<string>, i: nat,
                         done: seq<Instance>, probe: string -> ProbeOutcome)
    requires i < |nodes|
    requires CollectNodes(cfg, snapshot, dir, nodes[..i], probe) == Ok(done)
    ensures CollectNodes(cfg, snapshot, dir, nodes[..i + 1], probe) ==
      Append(Ok(done), NodeOutcome(cfg, snapshot, dir, nodes[i], probe))
  {
    assert nodes[..i + 1][..i] == nodes[..i];
  }

  /** One more iteration of the service loop. */
  lemma CollectServicesStep(cfg: Config, snapshot: Snapshot, names: seq<string>, i: nat,
                            done: seq<Instance>, probe: string -> ProbeOutcome)
    requires i < |names|
    requires CollectServices(cfg, snapshot, names[..i], probe) == Ok(done)
    ensures CollectServices(cfg, snapshot, names[..i + 1], probe) ==
      Append(Ok(done), ServiceInstances(cfg, snapshot, names[i], probe))
  {
    assert names[..i + 1][..i] == names[..i];
  }

  // --------------------------------------------------------------- methods

  method GetServiceInstances(zk: ZkSession, cfg: Config, serviceName: string, probe: string -> ProbeOutcome)
    returns (r: Result<seq<Instance>>)
    requires zk.open
    ensures r == ServiceInstances(cfg, zk.snapshot, serviceName, probe)
  {
    var cn := cfg.clusterName;
    var path := cfg.rootServicePath + "/" + serviceName + "/" + cfg.servicesSuffixPath;
    assert path == ServiceDir(cfg, serviceName);
    var listing := zk.GetChildren(path);
    if listing.Err? {
      return Err(listing.error);
    }
    var nodes := listing.value;
    var instances: seq<Instance> := [];
    var i := 0;
    while i < |nodes|
      invariant 0 <= i <= |nodes|
      invariant CollectNodes(cfg, zk.snapshot, path, nodes[..i], probe) == Ok(instances)
    {
      CollectNodesStep(cfg, zk.snapshot, path, nodes, i, instances, probe);
      var nodePath := path + "/" + nodes[i];
      assert nodePath == NodePath(path, nodes[i]);
      var data := zk.GetData(nodePath);
      if data.Err? {
        CollectNodesStopsAtFailure(cfg, zk.snapshot, path, nodes, i + 1, probe);
        return Err(data.error);
      }
      var serviceInstance := DecodeService(nodePath, data.value);
      if serviceInstance.Err? {
        CollectNodesStopsAtFailure(cfg, zk.snapshot, path, nodes, i + 1, probe);
        return Err(serviceInstance.error);
      }
      assert ReadService(zk.snapshot, nodePath) == serviceInstance;
      var valid := IsValidHystrixInstance(cfg, serviceInstance.value, probe);
      if valid.Err? {
        CollectNodesStopsAtFailure(cfg, zk.snapshot, path, nodes, i + 1, probe);
        return Err(valid.error);
      }
      ghost var before := instances;
      if valid.value {
        var s := serviceInstance.value;
        instances := instances + [Instance(s.host + ":" + IntToDecimal(s.port), cn, true)];
        assert instances == before + [Emit(cfg, s)];
      } else {
        assert instances == before + [];
      }
      assert Emitted(cfg, serviceInstance.value, probe) == Ok(if valid.value then [Emit(cfg, serviceInstance.value)] else []);
      assert NodeOutcome(cfg, zk.snapshot, path, nodes[i], probe) == Emitted(cfg, serviceInstance.value, probe);
      assert CollectNodes(cfg, zk.snapshot, path, nodes[..i + 1], probe) == Ok(instances);
      i := i + 1;
    }
    assert nodes[..|nodes|] == nodes;
    r := Ok(instances);
  }

  /** The try block of getInstanceList, run against an open session. */
  method WalkServices(zk: ZkSession, cfg: Config, probe: string -> ProbeOutcome)
    returns (r: Result<seq<Instance>>)
    requires zk.open
    ensures r == Discover(cfg, zk.snapshot, probe)
  {
    var listing := zk.GetChildren(cfg.rootServicePath);
    if listing.Err? {
      return Err(listing.error);
    }
    var names := listing.value;
    var instances: seq<Instance> := [];
    var i := 0;
    while i < |names|
      invariant 0 <= i <= |names|
      invariant CollectServices(cfg, zk.snapshot, names[..i], probe) == Ok(instances)
    {
      CollectServicesStep(cfg, zk.snapshot, names, i, instances, probe);
      var part := GetServiceInstances(zk, cfg, names[i], probe);
      if part.Err? {
        CollectServicesStopsAtFailure(cfg, zk.snapshot, names, i + 1, probe);
        return Err(part.error);
      }
      instances := instances + part.value;
      i := i + 1;
    }
    assert names[..|names|] == names;
    r := Ok(instances);
  }

  /** getInstanceList: whenever a session was opened it is closed before the
      call returns, whether the walk succeeded or threw. */
  method GetInstanceList(cfg: Config, store: Option<Snapshot>, probe: string -> ProbeOutcome)
    returns (r: Result<seq<Instance>>, zk: ZkSession?)
    ensures r == InstanceList(cfg, store, probe)
    ensures zk == null <==> store.None?
    ensures zk != null ==> fresh(zk) && zk.snapshot == store.value && !zk.open
  {
    zk := null;
    r := Err(ConnectFailed);
    if store.Some? {
      zk := new ZkSession(store.value);
      r := WalkServices(zk, cfg, probe);
    }
    // finally
    if zk != null {
      zk.Close();
    }
  }
}
