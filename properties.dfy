/** What a discovery call promises, proved against the loop-shaped definitions
    of NerveDiscovery: the result is the walk's candidates, filtered by the
    health check and tagged uniformly; any read failure fails the whole call. */
module DiscoveryProperties {
  import opened Exceptions
  import opened Decimal
  import opened HealthModel
  import opened ServiceModel
  import opened ZooKeeperStore
  import opened NerveDiscovery

  // ------------------------------------------- reference definitions

  /** The decoded services of the nodes under `dir`, in listing order. */
  function NodeCandidates(snapshot: Snapshot, dir: string, nodes: seq<string>): Result<seq<Service>>
    decreases |nodes|
  {
    if nodes == [] then Ok([])
    else Append(Single(ReadService(snapshot, NodePath(dir, nodes[0]))), NodeCandidates(snapshot, dir, nodes[1..]))
  }

  function ServiceCandidates(cfg: Config, snapshot: Snapshot, name: string): Result<seq<Service>>
  {
    var dir := ServiceDir(cfg, name);
    match ListChildren(snapshot, dir)
    case Err(e) => Err(e)
    case Ok(nodes) => NodeCandidates(snapshot, dir, nodes)
  }

  /** The candidates of every service in `names`, concatenated in order. */
  function Candidates(cfg: Config, snapshot: Snapshot, names: seq<string>): Result<seq<Service>>
    decreases |names|
  {
    if names == [] then Ok([])
    else Append(ServiceCandidates(cfg, snapshot, names[0]), Candidates(cfg, snapshot, names[1..]))
  }

  /** Every decoded node of the tree, service by service, node by node. */
  function AllCandidates(cfg: Config, snapshot: Snapshot): Result<seq<Service>>
  {
    match ListChildren(snapshot, cfg.rootServicePath)
    case Err(e) => Err(e)
    case Ok(names) => Candidates(cfg, snapshot, names)
  }

  /** The health filter over a candidate list, emitting the survivors. */
  function Keep(cfg: Config, probe: string -> ProbeOutcome, cs: seq<Service>): Result<seq<Instance>>
    decreases |cs|
  {
    if cs == [] then Ok([])
    else Append(Emitted(cfg, cs[0], probe), Keep(cfg, probe, cs[1..]))
  }

  function KeepAll(cfg: Config, probe: string -> ProbeOutcome, r: Result<seq<Service>>): Result<seq<Instance>>
  {
    match r
    case Err(e) => Err(e)
    case Ok(cs) => Keep(cfg, probe, cs)
  }

  /** The candidates whose health check says yes, in their order. */
  function Passing(cfg: Config, probe: string -> ProbeOutcome, cs: seq<Service>): seq<Service>
    decreases |cs|
  {
    if cs == [] then []
    else (if CheckHealth(cfg, cs[0], probe) == Ok(true) then [cs[0]] else []) + Passing(cfg, probe, cs[1..])
  }

  function EmitAll(cfg: Config, cs: seq<Service>): seq<Instance>
    decreases |cs|
  {
    if cs == [] then [] else [Emit(cfg, cs[0])] + EmitAll(cfg, cs[1..])
  }

  predicate NodeReadable(snapshot: Snapshot, path: string)
  {
    path in snapshot.data && snapshot.data[path].ServiceJson?
  }

  predicate ServiceReadable(cfg: Config, snapshot: Snapshot, name: string)
  {
    var dir := ServiceDir(cfg, name);
    dir in snapshot.children &&
    forall node :: node in snapshot.children[dir] ==> NodeReadable(snapshot, NodePath(dir, node))
  }

  /** The root lists, every service directory lists, every node reads and decodes. */
  predicate TreeReadable(cfg: Config, snapshot: Snapshot)
  {
    cfg.rootServicePath in snapshot.children &&
    forall name :: name in snapshot.children[cfg.rootServicePath] ==> ServiceReadable(cfg, snapshot, name)
  }

  /** How many instance nodes the services in `names` list. */
  function ListedCount(cfg: Config, snapshot: Snapshot, names: seq<string>): nat
    decreases |names|
  {
    if names == [] then 0
    else
      var dir := ServiceDir(cfg, names[0]);
      (if dir in snapshot.children then |snapshot.children[dir]| else 0) + ListedCount(cfg, snapshot, names[1..])
  }

  function ListedNodes(cfg: Config, snapshot: Snapshot): nat
  {
    if cfg.rootServicePath in snapshot.children
    then ListedCount(cfg, snapshot, snapshot.children[cfg.rootServicePath])
    else 0
  }

  // ----------------------------------------- appending at the back

  lemma {:induction false} NodeCandidatesSnoc(snapshot: Snapshot, dir: string, nodes: seq<string>, x: string)
    ensures NodeCandidates(snapshot, dir, nodes + [x]) ==
      Append(NodeCandidates(snapshot, dir, nodes), Single(ReadService(snapshot, NodePath(dir, x))))
    decreases |nodes|
  {
    var last := Single(ReadService(snapshot, NodePath(dir, x)));
    if nodes == [] {
      assert nodes + [x] == [x] && [x][1..] == [];
      AppendUnit(last);
    } else {
      assert (nodes + [x])[0] == nodes[0];
      assert (nodes + [x])[1..] == nodes[1..] + [x];
      NodeCandidatesSnoc(snapshot, dir, nodes[1..], x);
      AppendAssociative(Single(ReadService(snapshot, NodePath(dir, nodes[0]))),
                        NodeCandidates(snapshot, dir, nodes[1..]), last);
    }
  }

  lemma {:induction false} CandidatesSnoc(cfg: Config, snapshot: Snapshot, names: seq<string>, x: string)
    ensures Candidates(cfg, snapshot, names + [x]) ==
      Append(Candidates(cfg, snapshot, names), ServiceCandidates(cfg, snapshot, x))
    decreases |names|
  {
    var last := ServiceCandidates(cfg, snapshot, x);
    if names == [] {
      assert names + [x] == [x] && [x][1..] == [];
      AppendUnit(last);
    } else {
      assert (names + [x])[0] == names[0];
      assert (names + [x])[1..] == names[1..] + [x];
      CandidatesSnoc(cfg, snapshot, names[1..], x);
      AppendAssociative(ServiceCandidates(cfg, snapshot, names[0]), Candidates(cfg, snapshot, names[1..]), last);
    }
  }

  /** Filtering a concatenation is the concatenation of the filtered parts. */
  lemma {:induction false} KeepAppend(cfg: Config, probe: string -> ProbeOutcome, c1: seq<Service>, c2: seq<Service>)
    ensures Keep(cfg, probe, c1 + c2) == Append(Keep(cfg, probe, c1), Keep(cfg, probe, c2))
    decreases |c1|
  {
    if c1 == [] {
      assert c1 + c2 == c2;
      AppendUnit(Keep(cfg, probe, c2));
    } else {
      assert (c1 + c2)[0] == c1[0];
      assert (c1 + c2)[1..] == c1[1..] + c2;
      KeepAppend(cfg, probe, c1[1..], c2);
      AppendAssociative(Emitted(cfg, c1[0], probe), Keep(cfg, probe, c1[1..]), Keep(cfg, probe, c2));
    }
  }

  lemma KeepAllAppend(cfg: Config, probe: string -> ProbeOutcome, a: Result<seq<Service>>, b: Result<seq<Service>>)
    ensures SameOutcome(KeepAll(cfg, probe, Append(a, b)), Append(KeepAll(cfg, probe, a), KeepAll(cfg, probe, b)))
  {
    if a.Ok? && b.Ok? {
      KeepAppend(cfg, probe, a.value, b.value);
    }
  }

  /** One node of the loop is the filter applied to that node's candidate. */
  lemma NodeOutcomeIsFiltered(cfg: Config, snapshot: Snapshot, dir: string, node: string, probe: string -> ProbeOutcome)
    ensures NodeOutcome(cfg, snapshot, dir, node, probe) ==
      KeepAll(cfg, probe, Single(ReadService(snapshot, NodePath(dir, node))))
  {
    var r := ReadService(snapshot, NodePath(dir, node));
    if r.Ok? {
      assert Single(r) == Ok([r.value]);
      assert [r.value][1..] == [];
      assert Keep(cfg, probe, [r.value]) == Append(Emitted(cfg, r.value, probe), Keep(cfg, probe, []));
      AppendUnit(Emitted(cfg, r.value, probe));
    }
  }

  // ------------------------- the loops agree with the reference

  lemma {:induction false} CollectNodesAgrees(cfg: Config, snapshot: Snapshot, dir: string, nodes: seq<string>,
                                              probe: string -> ProbeOutcome)
    ensures SameOutcome(CollectNodes(cfg, snapshot, dir, nodes, probe),
                        KeepAll(cfg, probe, NodeCandidates(snapshot, dir, nodes)))
    decreases |nodes|
  {
    if nodes != [] {
      var front := nodes[..|nodes| - 1];
      var x := nodes[|nodes| - 1];
      assert nodes == front + [x];
      CollectNodesAgrees(cfg, snapshot, dir, front, probe);
      NodeCandidatesSnoc(snapshot, dir, front, x);
      NodeOutcomeIsFiltered(cfg, snapshot, dir, x, probe);
      var single := Single(ReadService(snapshot, NodePath(dir, x)));
      KeepAllAppend(cfg, probe, NodeCandidates(snapshot, dir, front), single);
      AppendRespectsSameOutcome(CollectNodes(cfg, snapshot, dir, front, probe),
                                KeepAll(cfg, probe, NodeCandidates(snapshot, dir, front)),
                                NodeOutcome(cfg, snapshot, dir, x, probe),
                                KeepAll(cfg, probe, single));
    }
  }

  lemma ServiceInstancesAgrees(cfg: Config, snapshot: Snapshot, name: string, probe: string -> ProbeOutcome)
    ensures SameOutcome(ServiceInstances(cfg, snapshot, name, probe),
                        KeepAll(cfg, probe, ServiceCandidates(cfg, snapshot, name)))
  {
    var dir := ServiceDir(cfg, name);
    if dir in snapshot.children {
      CollectNodesAgrees(cfg, snapshot, dir, snapshot.children[dir], probe);
    }
  }

  lemma {:induction false} CollectServicesAgrees(cfg: Config, snapshot: Snapshot, names: seq<string>,
                                                 probe: string -> ProbeOutcome)
    ensures SameOutcome(CollectServices(cfg, snapshot, names, probe),
                        KeepAll(cfg, probe, Candidates(cfg, snapshot, names)))
    decreases |names|
  {
    if names != [] {
      var front := names[..|names| - 1];
      var x := names[|names| - 1];
      assert names == front + [x];
      CollectServicesAgrees(cfg, snapshot, front, probe);
      ServiceInstancesAgrees(cfg, snapshot, x, probe);
      CandidatesSnoc(cfg, snapshot, front, x);
      KeepAllAppend(cfg, probe, Candidates(cfg, snapshot, front), ServiceCandidates(cfg, snapshot, x));
      AppendRespectsSameOutcome(CollectServices(cfg, snapshot, front, probe),
                                KeepAll(cfg, probe, Candidates(cfg, snapshot, front)),
                                ServiceInstances(cfg, snapshot, x, probe),
                                KeepAll(cfg, probe, ServiceCandidates(cfg, snapshot, x)));
    }
  }

  /** Discovery is the health filter applied to the walk's candidates: both
      fail, or both succeed with the same instances. */
  lemma DiscoverAgrees(cfg: Config, snapshot: Snapshot, probe: string -> ProbeOutcome)
    ensures SameOutcome(Discover(cfg, snapshot, probe), KeepAll(cfg, probe, AllCandidates(cfg, snapshot)))
  {
    if cfg.rootServicePath in snapshot.children {
      CollectServicesAgrees(cfg, snapshot, snapshot.children[cfg.rootServicePath], probe);
    }
  }

  // ----------------------------------------------- the health filter

  lemma {:induction false} EmitAllShape(cfg: Config, cs: seq<Service>)
    ensures |EmitAll(cfg, cs)| == |cs|
    ensures forall i :: 0 <= i < |cs| ==> EmitAll(cfg, cs)[i] == Emit(cfg, cs[i])
    decreases |cs|
  {
    if cs != [] {
      EmitAllShape(cfg, cs[1..]);
    }
  }

  lemma {:induction false} PassingIsFilter(cfg: Config, probe: string -> ProbeOutcome, cs: seq<Service>)
    ensures |Passing(cfg, probe, cs)| <= |cs|
    ensures forall c :: c in Passing(cfg, probe, cs) ==> c in cs && CheckHealth(cfg, c, probe) == Ok(true)
    ensures forall c :: c in cs && CheckHealth(cfg, c, probe) == Ok(true) ==> c in Passing(cfg, probe, cs)
    ensures (forall c :: c in cs ==> CheckHealth(cfg, c, probe) == Ok(true)) ==> Passing(cfg, probe, cs) == cs
    decreases |cs|
  {
    if cs != [] {
      PassingIsFilter(cfg, probe, cs[1..]);
      assert forall c :: c in cs ==> c == cs[0] || c in cs[1..];
      if forall c :: c in cs ==> CheckHealth(cfg, c, probe) == Ok(true) {
        assert CheckHealth(cfg, cs[0], probe) == Ok(true);
        assert cs == [cs[0]] + cs[1..];
      }
    }
  }

  /** The filter fails exactly when some candidate's request cannot be built;
      otherwise it emits the passing candidates in order. */
  lemma {:induction false} KeepIsFilterMap(cfg: Config, probe: string -> ProbeOutcome, cs: seq<Service>)
    ensures Keep(cfg, probe, cs).Err? <==> exists c :: c in cs && CheckHealth(cfg, c, probe).Err?
    ensures Keep(cfg, probe, cs).Ok? ==> Keep(cfg, probe, cs).value == EmitAll(cfg, Passing(cfg, probe, cs))
    decreases |cs|
  {
    if cs != [] {
      KeepIsFilterMap(cfg, probe, cs[1..]);
      assert forall c :: c in cs ==> c == cs[0] || c in cs[1..];
      if CheckHealth(cfg, cs[0], probe) == Ok(true) {
        assert EmitAll(cfg, [cs[0]] + Passing(cfg, probe, cs[1..])) ==
          [Emit(cfg, cs[0])] + EmitAll(cfg, Passing(cfg, probe, cs[1..]));
      } else {
        assert [] + Passing(cfg, probe, cs[1..]) == Passing(cfg, probe, cs[1..]);
      }
    }
  }

  // ----------------------------------------------------- all or nothing

  lemma {:induction false} NodeCandidatesOkIff(snapshot: Snapshot, dir: string, nodes: seq<string>)
    ensures NodeCandidates(snapshot, dir, nodes).Ok? <==>
      forall node :: node in nodes ==> NodeReadable(snapshot, NodePath(dir, node))
    ensures NodeCandidates(snapshot, dir, nodes).Ok? ==> |NodeCandidates(snapshot, dir, nodes).value| == |nodes|
    decreases |nodes|
  {
    if nodes != [] {
      NodeCandidatesOkIff(snapshot, dir, nodes[1..]);
      assert forall n :: n in nodes ==> n == nodes[0] || n in nodes[1..];
    }
  }

  lemma {:induction false} CandidatesOkIff(cfg: Config, snapshot: Snapshot, names: seq<string>)
    ensures Candidates(cfg, snapshot, names).Ok? <==> forall name :: name in names ==> ServiceReadable(cfg, snapshot, name)
    ensures Candidates(cfg, snapshot, names).Ok? ==>
      |Candidates(cfg, snapshot, names).value| == ListedCount(cfg, snapshot, names)
    decreases |names|
  {
    if names != [] {
      CandidatesOkIff(cfg, snapshot, names[1..]);
      var dir := ServiceDir(cfg, names[0]);
      if dir in snapshot.children {
        NodeCandidatesOkIff(snapshot, dir, snapshot.children[dir]);
        assert ServiceCandidates(cfg, snapshot, names[0]) == NodeCandidates(snapshot, dir, snapshot.children[dir]);
      }
      assert ServiceCandidates(cfg, snapshot, names[0]).Ok? <==> ServiceReadable(cfg, snapshot, names[0]);
      assert forall n :: n in names ==> n == names[0] || n in names[1..];
    }
  }

  /** The walk succeeds exactly when the whole tree can be listed and decoded;
      it then yields one candidate per listed node. */
  lemma AllCandidatesOkIff(cfg: Config, snapshot: Snapshot)
    ensures AllCandidates(cfg, snapshot).Ok? <==> TreeReadable(cfg, snapshot)
    ensures AllCandidates(cfg, snapshot).Ok? ==> |AllCandidates(cfg, snapshot).value| == ListedNodes(cfg, snapshot)
  {
    if cfg.rootServicePath in snapshot.children {
      CandidatesOkIff(cfg, snapshot, snapshot.children[cfg.rootServicePath]);
    }
  }

  // ------------------------------------------------------ main theorems

  /** Failure is all or nothing: the call succeeds exactly when every listing,
      read and decode succeeds and every health request can be built. */
  lemma DiscoverySucceedsIff(cfg: Config, snapshot: Snapshot, probe: string -> ProbeOutcome)
    ensures Discover(cfg, snapshot, probe).Ok? <==>
      TreeReadable(cfg, snapshot) &&
      AllCandidates(cfg, snapshot).Ok? &&
      forall c :: c in AllCandidates(cfg, snapshot).value ==> !CheckHealth(cfg, c, probe).Err?
  {
    DiscoverAgrees(cfg, snapshot, probe);
    AllCandidatesOkIff(cfg, snapshot);
    if AllCandidates(cfg, snapshot).Ok? {
      KeepIsFilterMap(cfg, probe, AllCandidates(cfg, snapshot).value);
    }
  }

  /** A successful result is, in service-listing then node-listing order, the
      emitted form of exactly the candidates that pass the health check. */
  lemma DiscoveryIsFilteredWalk(cfg: Config, snapshot: Snapshot, probe: string -> ProbeOutcome)
    requires Discover(cfg, snapshot, probe).Ok?
    ensures AllCandidates(cfg, snapshot).Ok?
    ensures Discover(cfg, snapshot, probe).value ==
      EmitAll(cfg, Passing(cfg, probe, AllCandidates(cfg, snapshot).value))
  {
    DiscoverAgrees(cfg, snapshot, probe);
    KeepIsFilterMap(cfg, probe, AllCandidates(cfg, snapshot).value);
  }

  /** Every emitted instance is a passing candidate's host:port, tagged with
      the configured cluster and marked up. */
  lemma DiscoveryTagsUniformly(cfg: Config, snapshot: Snapshot, probe: string -> ProbeOutcome)
    requires Discover(cfg, snapshot, probe).Ok?
    ensures AllCandidates(cfg, snapshot).Ok?
    ensures forall x :: x in Discover(cfg, snapshot, probe).value ==>
      x.cluster == cfg.clusterName && x.isUp &&
      exists c :: c in AllCandidates(cfg, snapshot).value && CheckHealth(cfg, c, probe) == Ok(true) &&
        x.hostname == Address(c.host, c.port)
  {
    DiscoveryIsFilteredWalk(cfg, snapshot, probe);
    var cs := AllCandidates(cfg, snapshot).value;
    var passing := Passing(cfg, probe, cs);
    PassingIsFilter(cfg, probe, cs);
    EmitAllShape(cfg, passing);
    forall x | x in Discover(cfg, snapshot, probe).value
      ensures x.cluster == cfg.clusterName && x.isUp &&
        exists c :: c in cs && CheckHealth(cfg, c, probe) == Ok(true) && x.hostname == Address(c.host, c.port)
    {
      var i :| 0 <= i < |passing| && EmitAll(cfg, passing)[i] == x;
      assert passing[i] in passing;
    }
  }

  /** At most one instance per listed node; exactly one each when every
      health check says yes. */
  lemma DiscoveryLength(cfg: Config, snapshot: Snapshot, probe: string -> ProbeOutcome)
    requires Discover(cfg, snapshot, probe).Ok?
    ensures AllCandidates(cfg, snapshot).Ok?
    ensures |Discover(cfg, snapshot, probe).value| <= ListedNodes(cfg, snapshot)
    ensures (forall c :: c in AllCandidates(cfg, snapshot).value ==> CheckHealth(cfg, c, probe) == Ok(true)) ==>
      Discover(cfg, snapshot, probe).value == EmitAll(cfg, AllCandidates(cfg, snapshot).value) &&
      |Discover(cfg, snapshot, probe).value| == ListedNodes(cfg, snapshot)
  {
    DiscoveryIsFilteredWalk(cfg, snapshot, probe);
    AllCandidatesOkIff(cfg, snapshot);
    var cs := AllCandidates(cfg, snapshot).value;
    PassingIsFilter(cfg, probe, cs);
    EmitAllShape(cfg, Passing(cfg, probe, cs));
    EmitAllShape(cfg, cs);
  }

  /** The root listing failing fails the call; so does any service's listing,
      and any node that cannot be read or decoded. */
  lemma DiscoveryFailsOnAnyReadFailure(cfg: Config, snapshot: Snapshot, probe: string -> ProbeOutcome)
    requires !TreeReadable(cfg, snapshot)
    ensures Discover(cfg, snapshot, probe).Err?
  {
    DiscoverySucceedsIff(cfg, snapshot, probe);
  }

  /** The whole call, session included: connect failure and walk failure both
      surface as an exception and never as a partial list. */
  lemma InstanceListOutcome(cfg: Config, store: Option<Snapshot>, probe: string -> ProbeOutcome)
    ensures store.None? ==> InstanceList(cfg, store, probe) == Err(ConnectFailed)
    ensures store.Some? && !TreeReadable(cfg, store.value) ==> InstanceList(cfg, store, probe).Err?
    ensures store.Some? && InstanceList(cfg, store, probe).Ok? ==>
      AllCandidates(cfg, store.value).Ok? &&
      InstanceList(cfg, store, probe).value ==
        EmitAll(cfg, Passing(cfg, probe, AllCandidates(cfg, store.value).value))
  {
    if store.Some? {
      DiscoverySucceedsIff(cfg, store.value, probe);
      if Discover(cfg, store.value, probe).Ok? {
        DiscoveryIsFilteredWalk(cfg, store.value, probe);
      }
    }
  }

  // ------------------------------------------------------------ example

  /** One service `checkout-svc` with one registered instance 10.0.0.5:8080,
      under the default configuration. */
  function CheckoutSnapshot(): Snapshot
  {
    Snapshot(
      map["/nerve/services" := ["checkout-svc"],
          "/nerve/services/checkout-svc/services" := ["instance-0"]],
      map["/nerve/services/checkout-svc/services/instance-0" := ServiceJson(Service("10.0.0.5", 8080))])
  }

  lemma CheckoutHealthUrl()
    ensures HealthUrl(DefaultConfig, Service("10.0.0.5", 8080)) == "http://10.0.0.5:8080/health"
  {
  }

  lemma CheckoutServiceDir()
    ensures ServiceDir(DefaultConfig, "checkout-svc") == "/nerve/services/checkout-svc/services"
  {
  }

  lemma CheckoutNode(probe: string -> ProbeOutcome, status: int, flag: bool)
    requires probe("http://10.0.0.5:8080/health") == Response(status, JsonObject(map[HystrixKey := JBool(flag)]))
    ensures NodeOutcome(DefaultConfig, CheckoutSnapshot(), "/nerve/services/checkout-svc/services", "instance-0", probe) ==
      Ok(if status == 200 && flag then [Instance("10.0.0.5:8080", "Default", true)] else [])
  {
    var service := Service("10.0.0.5", 8080);
    CheckoutHealthUrl();
    assert Address("10.0.0.5", 8080) == "10.0.0.5:8080" by {
      assert HealthUrl(DefaultConfig, service) == "http://" + Address("10.0.0.5", 8080) + "/health";
    }
    assert DecodeHealth(JsonObject(map[HystrixKey := JBool(flag)])) == Some(flag);
    assert CheckHealth(DefaultConfig, service, probe) == Ok(status == 200 && flag);
    assert NodePath("/nerve/services/checkout-svc/services", "instance-0") ==
      "/nerve/services/checkout-svc/services/instance-0";
    assert ReadService(CheckoutSnapshot(), NodePath("/nerve/services/checkout-svc/services", "instance-0")) == Ok(service);
  }

  /** The instance is probed at http://10.0.0.5:8080/health; it is emitted
      exactly when the answer is 200 with `hystrix` true. */
  lemma CheckoutExample(probe: string -> ProbeOutcome, status: int, flag: bool)
    requires probe("http://10.0.0.5:8080/health") == Response(status, JsonObject(map[HystrixKey := JBool(flag)]))
    ensures Discover(DefaultConfig, CheckoutSnapshot(), probe) ==
      Ok(if status == 200 && flag then [Instance("10.0.0.5:8080", "Default", true)] else [])
  {
    var snapshot := CheckoutSnapshot();
    var dir := "/nerve/services/checkout-svc/services";
    var names := ["checkout-svc"];
    var nodes := ["instance-0"];
    CheckoutNode(probe, status, flag);
    var step := NodeOutcome(DefaultConfig, snapshot, dir, "instance-0", probe);
    assert nodes[..0] == [];
    AppendUnit(step);
    assert CollectNodes(DefaultConfig, snapshot, dir, nodes, probe) == step;
    CheckoutServiceDir();
    assert ServiceInstances(DefaultConfig, snapshot, "checkout-svc", probe) == step;
    assert names[..0] == [];
    AppendUnit(step);
    assert CollectServices(DefaultConfig, snapshot, names, probe) == step;
  }
}
