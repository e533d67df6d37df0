/**
 * The manager's Envoy discovery endpoints (`EnvoyManagementController`): cluster lists and
 * service-host lists derived from a snapshot of the mesh registry and the requesting node,
 * plus route discovery delegated to the mesh manager service. A Java exception escaping
 * an endpoint is an `Err`.
 */
module EnvoyManagement {
  import opened Common
  import opened NameUuid
  import opened Runtimes
  import opened EnvoyConfig
  import opened EnvoyMeshManager

  /** What the controller reads from the registry interface during one request; a null answer is a missing key. */
  datatype Registry = Registry(
    runtimeList: seq<Runtime>,
    runtimesByName: map<string, Runtime>,
    runtimesById: map<string, Runtime>,
    instancesByServiceName: map<string, seq<RuntimeInstance>>,
    instances: map<string, RuntimeInstance>)

  /** `getRuntimeInstancesByServiceName`: the registered instances, or none. */
  function InstancesNamed(reg: Registry, name: string): (r: seq<RuntimeInstance>)
    ensures name in reg.instancesByServiceName ==> r == reg.instancesByServiceName[name]
    ensures name !in reg.instancesByServiceName ==> r == []
  {
    if name in reg.instancesByServiceName then reg.instancesByServiceName[name] else []
  }

  const ConnectTimeoutMs: int := 500
  const RoundRobin: string := "round_robin"

  /** `tcp://{address}:{port}`, as the controller writes a static host. */
  function HostUrl(address: string, port: int): (url: string)
  {
    "tcp://" + address + ":" + IntText(port)
  }

  /** A host URL splits back into its address and its port, whatever the address holds. */
  lemma HostUrlParts(address: string, port: int)
    requires -0x8000_0000 <= port < 0x8000_0000
    ensures var url := HostUrl(address, port);
      StartsWith(url, "tcp://") &&
      url[6..6 + |address|] == address && url[6 + |address|] == ':' &&
      ParseJavaInt(url[7 + |address|..]) == Some(port)
  {
    var url := HostUrl(address, port);
    var text := IntText(port);
    var scheme := "tcp://";
    assert url == scheme + address + ":" + text;
    assert |scheme| == 6;
    calc {
      url[7 + |address|..];
      (scheme + address + ":" + text)[|scheme + address + ":"|..];
      text;
    }
    ParseJavaIntOfText(port);
  }

  /** The cluster of one listed runtime, as seen from the node running `own`. */
  function RuntimeCluster(r: Runtime, own: Runtime): ClusterTO
  {
    if r.name == own.name then
      ClusterTO(r.name, "static", ConnectTimeoutMs, RoundRobin,
        Some([ClusterHostTO(HostUrl("127.0.0.1", own.appHttpPort))]), Some(r.name), None)
    else
      ClusterTO(r.name, "sds", ConnectTimeoutMs, RoundRobin, None, Some(r.name), None)
  }

  /** The clusters of the listed runtimes, in list order. */
  function RuntimeClusters(rs: seq<Runtime>, own: Runtime): (cs: seq<ClusterTO>)
    decreases |rs|
  {
    if rs == [] then [] else RuntimeClusters(rs[..|rs| - 1], own) + [RuntimeCluster(rs[|rs| - 1], own)]
  }

  /**
   * `getStaticHost`: the gateway instance on the requesting node is reached on the loopback
   * address at the gateway runtime's application port (which throws when there is no
   * gateway runtime); any other instance at its own host and port.
   */
  function GatewayHost(gateway: Option<Runtime>, p: RuntimeInstance, forNode: string): (r: Result<seq<ClusterHostTO>>)
  {
    if p.id == forNode then
      if gateway.None? then Err("NullPointerException")
      else Ok([ClusterHostTO(HostUrl("127.0.0.1", gateway.value.appHttpPort))])
    else Ok([ClusterHostTO(HostUrl(JavaText(p.host), p.httpPort))])
  }

  /** The static cluster of one gateway instance, named by the UUID of its id. */
  function GatewayCluster(md5: Md5, gateway: Option<Runtime>, p: RuntimeInstance, forNode: string): Result<ClusterTO>
  {
    var hosts := GatewayHost(gateway, p, forNode);
    if hosts.Err? then Err(hosts.error)
    else Ok(ClusterTO(NameUuidText(md5, p.id), "static", ConnectTimeoutMs, RoundRobin, Some(hosts.value), None, None))
  }

  /** The gateway clusters of `ps` in order; the first instance that throws ends the request. */
  function GatewayClusters(md5: Md5, gateway: Option<Runtime>, ps: seq<RuntimeInstance>, forNode: string): Result<seq<ClusterTO>>
    decreases |ps|
  {
    if ps == [] then Ok([])
    else
      var init := GatewayClusters(md5, gateway, ps[..|ps| - 1], forNode);
      if init.Err? then init
      else
        var c := GatewayCluster(md5, gateway, ps[|ps| - 1], forNode);
        if c.Err? then Err(c.error) else Ok(init.value + [c.value])
  }

  /**
   * `managerClusters(node)`: nothing for a node that is not a known instance of a known
   * runtime; otherwise one cluster per listed runtime, then one per gateway instance.
   */
  function ManagerClusters(reg: Registry, gatewayServiceName: string, md5: Md5, node: string): Result<seq<ClusterTO>>
  {
    if node !in reg.instances then Ok([])
    else if reg.instances[node].runtimeId !in reg.runtimesById then Ok([])
    else
      var own := reg.runtimesById[reg.instances[node].runtimeId];
      var gateway := if gatewayServiceName in reg.runtimesByName then Some(reg.runtimesByName[gatewayServiceName]) else None;
      var gw := GatewayClusters(md5, gateway, InstancesNamed(reg, gatewayServiceName), node);
      if gw.Err? then gw else Ok(RuntimeClusters(reg.runtimeList, own) + gw.value)
  }

  /** Every emitted cluster carries the fixed timeout, balancing policy and no features. */
  predicate CommonSettings(c: ClusterTO)
  {
    c.connectTimeoutMs == 500 && c.lbType == "round_robin" && c.features.None?
  }

  /**
   * One cluster per listed runtime, in order, named and service-named after it; the one
   * named like the node's own runtime is static on the loopback address at that runtime's
   * application port, every other one is discovered (`sds`) without hosts.
   */
  lemma {:induction false} RuntimeClustersShape(rs: seq<Runtime>, own: Runtime)
    ensures |RuntimeClusters(rs, own)| == |rs|
    ensures forall i :: 0 <= i < |rs| ==>
      var c := RuntimeClusters(rs, own)[i];
      CommonSettings(c) && c.name == rs[i].name && c.serviceName == Some(rs[i].name) &&
      (rs[i].name == own.name ==>
        c.clusterType == "static" && c.hosts == Some([ClusterHostTO(HostUrl("127.0.0.1", own.appHttpPort))])) &&
      (rs[i].name != own.name ==> c.clusterType == "sds" && c.hosts.None?)
    decreases |rs|
  {
    if rs != [] {
      RuntimeClustersShape(rs[..|rs| - 1], own);
    }
  }

  /**
   * A successful gateway listing has one static cluster per instance, in order, named by the
   * 36-character name-based UUID of the instance id (within Envoy's 60-character limit),
   * with no service name and the instance's static host; it fails exactly when an instance
   * on the requesting node meets a missing gateway runtime.
   */
  lemma {:induction false} GatewayClustersShape(md5: Md5, gateway: Option<Runtime>, ps: seq<RuntimeInstance>, forNode: string)
    ensures GatewayClusters(md5, gateway, ps, forNode).Err? <==>
      gateway.None? && exists p :: p in ps && p.id == forNode
    ensures GatewayClusters(md5, gateway, ps, forNode).Ok? ==>
      var cs := GatewayClusters(md5, gateway, ps, forNode).value;
      |cs| == |ps| && forall i :: 0 <= i < |ps| ==> IsGatewayClusterOf(md5, gateway, ps[i], forNode, cs[i])
  {
    GatewayClustersErrorIff(md5, gateway, ps, forNode);
    GatewayClustersOkShape(md5, gateway, ps, forNode);
    forall i | 0 <= i < |ps|
      ensures GatewayCluster(md5, gateway, ps[i], forNode).Ok? ==>
        IsGatewayClusterOf(md5, gateway, ps[i], forNode, GatewayCluster(md5, gateway, ps[i], forNode).value)
    {
      GatewayClusterShape(md5, gateway, ps[i], forNode);
    }
  }

  /** The gateway listing fails exactly when an instance on the requesting node meets a missing gateway runtime. */
  lemma {:induction false} GatewayClustersErrorIff(md5: Md5, gateway: Option<Runtime>, ps: seq<RuntimeInstance>, forNode: string)
    ensures GatewayClusters(md5, gateway, ps, forNode).Err? <==>
      gateway.None? && exists p :: p in ps && p.id == forNode
    decreases |ps|
  {
    if ps != [] {
      var init := ps[..|ps| - 1];
      var last := ps[|ps| - 1];
      GatewayClustersErrorIff(md5, gateway, init, forNode);
      assert ps == init + [last];
      if exists p :: p in ps && p.id == forNode {
        var p :| p in ps && p.id == forNode;
        if p != last {
          assert p in init;
        }
      }
    }
  }

  /**
   * `c` is the cluster of gateway instance `p`: the shared builder settings, named by the
   * 36-character name-based UUID of the instance id (within Envoy's 60-character limit), static,
   * with no service name and the instance's static host.
   */
  predicate IsGatewayClusterOf(md5: Md5, gateway: Option<Runtime>, p: RuntimeInstance, forNode: string, c: ClusterTO)
  {
    CommonSettings(c) && c.name == NameUuidText(md5, p.id) && |c.name| <= 60 &&
    c.serviceName.None? && c.clusterType == "static" &&
    GatewayHost(gateway, p, forNode).Ok? && c.hosts == Some(GatewayHost(gateway, p, forNode).value)
  }

  /** The one cluster of a gateway instance, when its host can be built, has the shape above. */
  lemma GatewayClusterShape(md5: Md5, gateway: Option<Runtime>, p: RuntimeInstance, forNode: string)
    ensures GatewayCluster(md5, gateway, p, forNode).Ok? ==>
      IsGatewayClusterOf(md5, gateway, p, forNode, GatewayCluster(md5, gateway, p, forNode).value)
  {
  }

  /** A successful gateway listing has one cluster per instance, in order, each that instance's cluster. */
  lemma {:induction false} GatewayClustersOkShape(md5: Md5, gateway: Option<Runtime>, ps: seq<RuntimeInstance>, forNode: string)
    ensures GatewayClusters(md5, gateway, ps, forNode).Ok? ==>
      var cs := GatewayClusters(md5, gateway, ps, forNode).value;
      |cs| == |ps| && forall i :: 0 <= i < |ps| ==> GatewayCluster(md5, gateway, ps[i], forNode) == Ok(cs[i])
    decreases |ps|
  {
    if ps != [] && GatewayClusters(md5, gateway, ps, forNode).Ok? {
      var init := ps[..|ps| - 1];
      var last := ps[|ps| - 1];
      GatewayClustersOkShape(md5, gateway, init, forNode);
      var cs := GatewayClusters(md5, gateway, ps, forNode).value;
      var front := GatewayClusters(md5, gateway, init, forNode).value;
      var c := GatewayCluster(md5, gateway, last, forNode);
      assert |front| == |init| == |ps| - 1;
      assert cs == front + [c.value];
      forall i | 0 <= i < |ps|
        ensures GatewayCluster(md5, gateway, ps[i], forNode) == Ok(cs[i])
      {
        if i < |init| {
          assert cs[i] == front[i] && ps[i] == init[i];
        } else {
          assert i == |front|;
          assert cs[i] == c.value;
        }
      }
    }
  }

  /** The gateway host is the loopback address at the gateway's port on the node itself, the instance's own address elsewhere. */
  lemma GatewayHostAddress(gateway: Option<Runtime>, p: RuntimeInstance, forNode: string)
    ensures GatewayHost(gateway, p, forNode).Ok? ==> |GatewayHost(gateway, p, forNode).value| == 1
    ensures p.id == forNode && gateway.Some? ==>
      GatewayHost(gateway, p, forNode) == Ok([ClusterHostTO(HostUrl("127.0.0.1", gateway.value.appHttpPort))])
    ensures p.id != forNode ==>
      GatewayHost(gateway, p, forNode) == Ok([ClusterHostTO(HostUrl(JavaText(p.host), p.httpPort))])
  {
  }

  /** An unknown node, or an instance whose runtime is unknown, gets no clusters at all. */
  lemma ManagerClustersOfUnknownNode(reg: Registry, gatewayServiceName: string, md5: Md5, node: string)
    requires node !in reg.instances || reg.instances[node].runtimeId !in reg.runtimesById
    ensures ManagerClusters(reg, gatewayServiceName, md5, node) == Ok([])
  {
  }

  /** A known node gets one cluster per listed runtime followed by one per gateway instance. */
  lemma ManagerClustersCount(reg: Registry, gatewayServiceName: string, md5: Md5, node: string)
    requires node in reg.instances && reg.instances[node].runtimeId in reg.runtimesById
    ensures ManagerClusters(reg, gatewayServiceName, md5, node).Ok? ==>
      |ManagerClusters(reg, gatewayServiceName, md5, node).value| ==
        |reg.runtimeList| + |InstancesNamed(reg, gatewayServiceName)|
  {
    var own := reg.runtimesById[reg.instances[node].runtimeId];
    var gateway := if gatewayServiceName in reg.runtimesByName then Some(reg.runtimesByName[gatewayServiceName]) else None;
    RuntimeClustersShape(reg.runtimeList, own);
    GatewayClustersShape(md5, gateway, InstancesNamed(reg, gatewayServiceName), node);
  }

  lemma {:induction false} RuntimeClustersCommon(rs: seq<Runtime>, own: Runtime)
    ensures forall c :: c in RuntimeClusters(rs, own) ==> CommonSettings(c)
    decreases |rs|
  {
    if rs != [] {
      RuntimeClustersCommon(rs[..|rs| - 1], own);
    }
  }

  lemma {:induction false} GatewayClustersCommon(md5: Md5, gateway: Option<Runtime>, ps: seq<RuntimeInstance>, forNode: string)
    ensures GatewayClusters(md5, gateway, ps, forNode).Ok? ==>
      forall c :: c in GatewayClusters(md5, gateway, ps, forNode).value ==> CommonSettings(c)
    decreases |ps|
  {
    if ps != [] {
      GatewayClustersCommon(md5, gateway, ps[..|ps| - 1], forNode);
    }
  }

  /** Every cluster of a successful answer has the common timeout, balancing policy and no features. */
  lemma ManagerClustersCommon(reg: Registry, gatewayServiceName: string, md5: Md5, node: string)
    ensures ManagerClusters(reg, gatewayServiceName, md5, node).Ok? ==>
      forall c :: c in ManagerClusters(reg, gatewayServiceName, md5, node).value ==> CommonSettings(c)
  {
    if node in reg.instances && reg.instances[node].runtimeId in reg.runtimesById {
      var own := reg.runtimesById[reg.instances[node].runtimeId];
      var gateway := if gatewayServiceName in reg.runtimesByName then Some(reg.runtimesByName[gatewayServiceName]) else None;
      RuntimeClustersCommon(reg.runtimeList, own);
      GatewayClustersCommon(md5, gateway, InstancesNamed(reg, gatewayServiceName), node);
    }
  }

  /** `clusters(cluster, node)`: the manager clusters of the node, built by the endpoint's two loops. */
  method Clusters(reg: Registry, gatewayServiceName: string, md5: Md5, node: string) returns (r: Result<seq<ClusterTO>>)
    ensures r == ManagerClusters(reg, gatewayServiceName, md5, node)
  {
    if node !in reg.instances {
      return Ok([]);
    }
    var runtimeInstance := reg.instances[node];
    if runtimeInstance.runtimeId !in reg.runtimesById {
      return Ok([]);
    }
    var runtime := reg.runtimesById[runtimeInstance.runtimeId];
    // one builder reused for every cluster; its unset fields are written before each build
    var cluster := ClusterTO("", "", ConnectTimeoutMs, RoundRobin, None, None, None);
    var result;
    result, cluster := AddRuntimeClusters(reg.runtimeList, runtime, cluster);
    var gatewayRuntime := if gatewayServiceName in reg.runtimesByName then Some(reg.runtimesByName[gatewayServiceName]) else None;
    var gateways := AddGatewayClusters(InstancesNamed(reg, gatewayServiceName), gatewayRuntime, md5, node, cluster);
    if gateways.Err? {
      return Err(gateways.error);
    }
    r := Ok(result + gateways.value);
  }

  /** The endpoint's first loop: one cluster per listed runtime, each built on the shared builder. */
  method AddRuntimeClusters(rs: seq<Runtime>, runtime: Runtime, builder: ClusterTO) returns (result: seq<ClusterTO>, cluster: ClusterTO)
    requires CommonSettings(builder)
    ensures result == RuntimeClusters(rs, runtime) && CommonSettings(cluster)
  {
    cluster := builder;
    result := [];
    var i := 0;
    while i < |rs|
      invariant 0 <= i <= |rs|
      invariant result == RuntimeClusters(rs[..i], runtime)
      invariant CommonSettings(cluster)
    {
      var r := rs[i];
      RuntimeClustersPrefix(rs, i, runtime);
      cluster := cluster.(serviceName := Some(r.name), name := r.name);
      if r.name == runtime.name {
        cluster := cluster.(hosts := Some([ClusterHostTO(HostUrl("127.0.0.1", runtime.appHttpPort))]), clusterType := "static");
      } else {
        cluster := cluster.(hosts := None, clusterType := "sds");
      }
      assert cluster == RuntimeCluster(r, runtime);
      result := result + [cluster];
      i := i + 1;
    }
    assert rs[..i] == rs;
  }

  /** The endpoint's second loop: one static cluster per gateway instance; the first instance that throws ends it. */
  method AddGatewayClusters(ps: seq<RuntimeInstance>, gatewayRuntime: Option<Runtime>, md5: Md5, node: string, builder: ClusterTO)
    returns (r: Result<seq<ClusterTO>>)
    requires CommonSettings(builder)
    ensures r == GatewayClusters(md5, gatewayRuntime, ps, node)
  {
    var cluster := builder;
    var gateways: seq<ClusterTO> := [];
    var j := 0;
    while j < |ps|
      invariant 0 <= j <= |ps|
      invariant GatewayClusters(md5, gatewayRuntime, ps[..j], node) == Ok(gateways)
      invariant CommonSettings(cluster)
    {
      var p := ps[j];
      var hosts := GatewayHost(gatewayRuntime, p, node);
      if hosts.Err? {
        GatewayClustersFail(md5, gatewayRuntime, ps, node, j + 1);
        return Err(hosts.error);
      }
      cluster := cluster.(serviceName := None, name := NameUuidText(md5, p.id), clusterType := "static", hosts := Some(hosts.value));
      assert Ok(cluster) == GatewayCluster(md5, gatewayRuntime, p, node);
      GatewayClustersPrefix(md5, gatewayRuntime, ps, node, j);
      gateways := gateways + [cluster];
      j := j + 1;
    }
    assert ps[..j] == ps;
    r := Ok(gateways);
  }

  /** The runtime clusters of one more listed runtime. */
  lemma RuntimeClustersPrefix(rs: seq<Runtime>, i: int, own: Runtime)
    requires 0 <= i < |rs|
    ensures RuntimeClusters(rs[..i + 1], own) == RuntimeClusters(rs[..i], own) + [RuntimeCluster(rs[i], own)]
  {
    assert rs[..i + 1][..i] == rs[..i];
  }

  /** The gateway clusters of one more instance, while none has thrown. */
  lemma GatewayClustersPrefix(md5: Md5, gateway: Option<Runtime>, ps: seq<RuntimeInstance>, forNode: string, j: int)
    requires 0 <= j < |ps|
    requires GatewayClusters(md5, gateway, ps[..j], forNode).Ok? && GatewayCluster(md5, gateway, ps[j], forNode).Ok?
    ensures GatewayClusters(md5, gateway, ps[..j + 1], forNode) ==
      Ok(GatewayClusters(md5, gateway, ps[..j], forNode).value + [GatewayCluster(md5, gateway, ps[j], forNode).value])
  {
    assert ps[..j + 1][..j] == ps[..j];
  }

  /** Once an instance throws, the whole gateway listing is that failure. */
  lemma {:induction false} GatewayClustersFail(md5: Md5, gateway: Option<Runtime>, ps: seq<RuntimeInstance>, forNode: string, n: int)
    requires 0 < n <= |ps|
    requires GatewayClusters(md5, gateway, ps[..n - 1], forNode).Ok?
    requires GatewayHost(gateway, ps[n - 1], forNode).Err?
    ensures GatewayClusters(md5, gateway, ps, forNode) == Err(GatewayHost(gateway, ps[n - 1], forNode).error)
    decreases |ps|
  {
    assert ps[..n][..n - 1] == ps[..n - 1];
    if n < |ps| {
      assert ps[..|ps| - 1][..n - 1] == ps[..n - 1];
      GatewayClustersFail(md5, gateway, ps[..|ps| - 1], forNode, n);
    } else {
      assert ps[..n] == ps;
    }
  }

  /**
   * `routes(configName, cluster, node)`: exactly the mesh manager's route configuration (the
   * virtual-host list the endpoint builds from the runtime list first is discarded).
   */
  method Routes(manager: EnvoyMeshManagerService, configName: string, node: string)
    returns (hosts: seq<RouteHostTO>, ghost order: seq<string>, ghost names: seq<string>)
    ensures Distinct(order) && forall id :: id in manager.services <==> id in order
    ensures Distinct(names) && forall n :: n in names <==> n in ClusterNames(configName, ValuesAt(manager.services, order))
    ensures hosts == RouteHosts(configName, node, manager.services, ValuesAt(manager.services, order), names)
  {
    hosts, order, names := manager.Routes(configName, node);
  }

  /** The service hosts registered under a name: each instance's address and HTTP port, with no health filter. */
  function ServiceHosts(ps: seq<RuntimeInstance>): (hs: seq<ServiceHostTO>)
    decreases |ps|
  {
    if ps == [] then [] else ServiceHosts(ps[..|ps| - 1]) + [ServiceHostTO(ps[|ps| - 1].host, ps[|ps| - 1].httpPort)]
  }

  lemma {:induction false} ServiceHostsShape(ps: seq<RuntimeInstance>)
    ensures |ServiceHosts(ps)| == |ps|
    ensures forall i :: 0 <= i < |ps| ==> ServiceHosts(ps)[i] == ServiceHostTO(ps[i].host, ps[i].httpPort)
    decreases |ps|
  {
    if ps != [] {
      ServiceHostsShape(ps[..|ps| - 1]);
    }
  }

  /** `services(serviceName)`: one host per instance registered under the name, in order. */
  method Services(reg: Registry, serviceName: string) returns (hosts: seq<ServiceHostTO>)
    ensures hosts == ServiceHosts(InstancesNamed(reg, serviceName))
  {
    var ps := InstancesNamed(reg, serviceName);
    hosts := [];
    var i := 0;
    while i < |ps|
      invariant 0 <= i <= |ps|
      invariant hosts == ServiceHosts(ps[..i])
    {
      assert ps[..i + 1][..i] == ps[..i];
      hosts := hosts + [ServiceHostTO(ps[i].host, ps[i].httpPort)];
      i := i + 1;
    }
    assert ps[..i] == ps;
  }
}
