/**
 * The manager's registry of mesh services (`EnvoyMeshManagerService`): a map from service id
 * to the registered service, from which route virtual hosts and service-discovery hosts are
 * derived. The `ServiceType` enumeration is not part of the model's sources; its constant
 * names are a parameter of the service (`serviceTypes`), and a service's type is held as
 * that constant's name.
 */
module EnvoyMeshManager {
  import opened Common
  import opened NameUuid
  import opened EnvoyConfig

  datatype ServiceStatus = Up | Down

  /** A registered sidecar-fronted service; the Java fields that may be null are `Option`s. */
  datatype Service = Service(
    hostIp: Option<string>,
    ip: Option<string>,
    sideCarAdminPort: Option<int>,
    sideCarGrpcPort: Option<int>,
    sideCarHttpPort: Option<int>,
    serviceHttpPort: Option<int>,
    serviceGrpcPort: Option<int>,
    serviceName: Option<string>,
    serviceVersion: Option<string>,
    serviceId: Option<string>,
    serviceUUID: Option<string>,
    serviceType: Option<string>,
    useServiceHttp: bool,
    useServiceGrpc: bool,
    lastKnownStatus: Option<ServiceStatus>)

  /** What `StringBuilder.append(Integer)` writes for a port that may be null. */
  function PortText(p: Option<int>): string
  {
    match p
    case None => "null"
    case Some(n) => IntText(n)
  }

  /** `{type}-{name}`: the service's logical name. */
  function ServiceName(s: Service): (r: string)
    ensures StartsWith(r, JavaText(s.serviceType) + "-")
    ensures r[|JavaText(s.serviceType)| + 1..] == JavaText(s.serviceName)
  {
    JavaText(s.serviceType) + "-" + JavaText(s.serviceName)
  }

  /** The name-based UUID of the service's logical name: short enough for Envoy's 60-character cluster names. */
  function GenerateServiceUuid(md5: Md5, s: Service): (r: string)
    ensures |r| == 36 <= 60
  {
    NameUuidText(md5, ServiceName(s))
  }

  /**
   * The single static host of a service's cluster as seen from node `forNode`: the local
   * service port on the service's own node, the sidecar port elsewhere.
   */
  function StaticHost(s: Service, forNode: string, isHttp: bool): (r: seq<ClusterHostTO>)
    ensures |r| == 1
    ensures s.serviceId == Some(forNode) ==>
      r[0].url == "tcp://127.0.0.1:" + PortText(if isHttp then s.serviceHttpPort else s.serviceGrpcPort)
    ensures s.serviceId != Some(forNode) ==>
      r[0].url == "tcp://" + JavaText(s.ip) + ":" + PortText(if isHttp then s.sideCarHttpPort else s.sideCarGrpcPort)
  {
    var sameNode := s.serviceId == Some(forNode);
    var address := if sameNode then "127.0.0.1" else JavaText(s.ip);
    var port :=
      if sameNode then (if isHttp then s.serviceHttpPort else s.serviceGrpcPort)
      else (if isHttp then s.sideCarHttpPort else s.sideCarGrpcPort);
    [ClusterHostTO("tcp://" + address + ":" + PortText(port))]
  }

  // ---------------------------------------------------------------- routes

  /** The service takes part in the route configuration `config`. */
  predicate Routed(config: string, s: Service)
  {
    (config == "grpc" && s.useServiceGrpc) || (config == "http" && s.useServiceHttp)
  }

  /** The shared, de-duplicated virtual host name of a routed service. */
  function ClusterName(config: string, s: Service): string
  {
    if config == "http" then "http-" + ServiceName(s) else ServiceName(s)
  }

  /** The per-instance virtual host of a routed service, sent to its UUID cluster. */
  function InstanceHost(config: string, s: Service): RouteHostTO
  {
    if config == "http" then
      VirtualHost("http-" + JavaText(s.serviceId), Some("http-" + JavaText(s.serviceUUID)), "http-" + JavaText(s.serviceId))
    else
      VirtualHost(JavaText(s.serviceId), s.serviceUUID, JavaText(s.serviceId))
  }

  /** The per-instance hosts of `svcs`, in iteration order. */
  function InstanceHosts(config: string, svcs: seq<Service>): (r: seq<RouteHostTO>)
    decreases |svcs|
  {
    if svcs == [] then []
    else
      var last := svcs[|svcs| - 1];
      InstanceHosts(config, svcs[..|svcs| - 1]) + (if Routed(config, last) then [InstanceHost(config, last)] else [])
  }

  /** The de-duplicated virtual host names of `svcs`. */
  function ClusterNames(config: string, svcs: seq<Service>): set<string>
    decreases |svcs|
  {
    if svcs == [] then {}
    else
      var last := svcs[|svcs| - 1];
      ClusterNames(config, svcs[..|svcs| - 1]) + (if Routed(config, last) then {ClusterName(config, last)} else {})
  }

  /** A name is shared exactly when some routed service of `svcs` has it as its logical cluster name. */
  lemma {:induction false} ClusterNamesMembers(config: string, svcs: seq<Service>, n: string)
    ensures n in ClusterNames(config, svcs) <==> exists s :: s in svcs && Routed(config, s) && ClusterName(config, s) == n
    decreases |svcs|
  {
    if svcs != [] {
      var init := svcs[..|svcs| - 1];
      var last := svcs[|svcs| - 1];
      ClusterNamesMembers(config, init, n);
      assert svcs == init + [last];
      if exists s :: s in svcs && Routed(config, s) && ClusterName(config, s) == n {
        var s :| s in svcs && Routed(config, s) && ClusterName(config, s) == n;
        if s != last {
          assert s in init;
        }
      }
    }
  }

  /** The catch-all host of the requesting node, present only for HTTP routes of a registered HTTP service. */
  function CatchAll(config: string, node: string, services: map<string, Service>): seq<RouteHostTO>
  {
    if config == "http" && node in services && services[node].useServiceHttp then
      [VirtualHost("all", Some("http-" + JavaText(services[node].serviceUUID)), "*")]
    else []
  }

  /**
   * The route configuration for the services iterated as `svcs`, with the de-duplicated
   * hosts in the order `names`: per-instance hosts, then one host per logical name, then
   * the catch-all host.
   */
  function RouteHosts(config: string, node: string, services: map<string, Service>, svcs: seq<Service>, names: seq<string>): seq<RouteHostTO>
  {
    InstanceHosts(config, svcs)
      + seq(|names|, i requires 0 <= i < |names| => VirtualHost(names[i], Some(names[i]), names[i]))
      + CatchAll(config, node, services)
  }

  lemma {:induction false} InstanceHostsCount(config: string, svcs: seq<Service>)
    ensures |InstanceHosts(config, svcs)| == |set i | 0 <= i < |svcs| && Routed(config, svcs[i])|
    ensures config != "grpc" && config != "http" ==> InstanceHosts(config, svcs) == []
    decreases |svcs|
  {
    if svcs != [] {
      var n := |svcs| - 1;
      InstanceHostsCount(config, svcs[..n]);
      var before := set i | 0 <= i < n && Routed(config, svcs[..n][i]);
      var now := set i | 0 <= i < |svcs| && Routed(config, svcs[i]);
      assert before == set i | 0 <= i < n && Routed(config, svcs[i]);
      if Routed(config, svcs[n]) {
        assert now == before + {n};
      } else {
        assert now == before;
      }
    }
  }

  /**
   * Every per-instance host belongs to a routed service and is sent to that service's UUID
   * cluster, prefixed `http-` for HTTP routes.
   */
  lemma {:induction false} InstanceHostsRouteToUuid(config: string, svcs: seq<Service>, k: int)
    requires 0 <= k < |InstanceHosts(config, svcs)|
    ensures exists s :: s in svcs && Routed(config, s) && InstanceHosts(config, svcs)[k] == InstanceHost(config, s)
    ensures InstanceHosts(config, svcs)[k].routes[0].cluster.Some? && config == "http" ==>
      StartsWith(InstanceHosts(config, svcs)[k].routes[0].cluster.value, "http-")
    decreases |svcs|
  {
    var n := |svcs| - 1;
    var init := InstanceHosts(config, svcs[..n]);
    if k < |init| {
      InstanceHostsRouteToUuid(config, svcs[..n], k);
      var s :| s in svcs[..n] && Routed(config, s) && init[k] == InstanceHost(config, s);
      assert s in svcs;
    } else {
      assert InstanceHosts(config, svcs)[k] == InstanceHost(config, svcs[n]);
    }
  }

  /** Every de-duplicated host is the virtual host of its own name, sent to the cluster of that name. */
  predicate SharedHosts(m: map<string, RouteHostTO>)
  {
    forall n :: n in m ==> m[n] == VirtualHost(n, Some(n), n)
  }

  lemma SharedHostsInOrder(m: map<string, RouteHostTO>, names: seq<string>)
    requires SharedHosts(m) && forall n :: n in names ==> n in m
    ensures ValuesAt(m, names) == seq(|names|, j requires 0 <= j < |names| => VirtualHost(names[j], Some(names[j]), names[j]))
  {
  }

  lemma RoutesStep(config: string, svcs: seq<Service>, i: int)
    requires 0 <= i < |svcs|
    ensures InstanceHosts(config, svcs[..i + 1]) ==
      InstanceHosts(config, svcs[..i]) + (if Routed(config, svcs[i]) then [InstanceHost(config, svcs[i])] else [])
    ensures forall n :: n in ClusterNames(config, svcs[..i + 1]) <==>
      n in ClusterNames(config, svcs[..i]) || (Routed(config, svcs[i]) && n == ClusterName(config, svcs[i]))
  {
    assert svcs[..i + 1][..i] == svcs[..i];
  }

  /** Any configuration name other than `grpc` and `http` yields no virtual hosts at all. */
  lemma RoutesOfUnknownConfig(config: string, node: string, services: map<string, Service>, svcs: seq<Service>, names: seq<string>)
    requires config != "grpc" && config != "http"
    requires Distinct(names) && forall n :: n in names <==> n in ClusterNames(config, svcs)
    ensures RouteHosts(config, node, services, svcs, names) == []
  {
    InstanceHostsCount(config, svcs);
    forall n ensures n !in ClusterNames(config, svcs) {
      ClusterNamesMembers(config, svcs, n);
    }
    EnumerationSize(names, ClusterNames(config, svcs));
  }

  /** The catch-all `*` host is appended exactly when the node is a registered HTTP service and the routes are HTTP routes. */
  lemma CatchAllPresence(config: string, node: string, services: map<string, Service>)
    ensures |CatchAll(config, node, services)| <= 1
    ensures CatchAll(config, node, services) != [] <==>
      config == "http" && node in services && services[node].useServiceHttp
    ensures CatchAll(config, node, services) != [] ==>
      CatchAll(config, node, services)[0].domains == ["*"] &&
      CatchAll(config, node, services)[0].routes[0].cluster == Some("http-" + JavaText(services[node].serviceUUID))
  {
  }

  // ---------------------------------------------------------------- service discovery

  /** A parsed `[http-]{type}-{name}` service key. */
  datatype ServiceKey = ServiceKey(isHttp: bool, serviceType: string, name: string)

  /**
   * `services(key)`'s parsing: an optional `http-` prefix, the type up to the next `-`
   * (searched from one past the type's first character), and the rest as the name. A key
   * without that `-` throws from `substring`, an unknown type from `ServiceType.valueOf`.
   */
  function ParseServiceKey(key: string, serviceTypes: set<string>): (r: Result<ServiceKey>)
  {
    var from := if StartsWith(key, "http-") then 5 else 0;
    var dash := IndexOf(key, '-', from + 1);
    if dash == -1 then Err("StringIndexOutOfBoundsException")
    else if key[from..dash] !in serviceTypes then Err("IllegalArgumentException: No enum constant " + key[from..dash])
    else Ok(ServiceKey(from == 5, key[from..dash], key[dash + 1..]))
  }

  /** The key written from a parse result, the inverse of `ParseServiceKey`. */
  function KeyText(k: ServiceKey): string
  {
    (if k.isHttp then "http-" else "") + k.serviceType + "-" + k.name
  }

  /**
   * Parsing recovers the transport, type and name of every key written from a known,
   * non-empty type without a `-`, whatever the name holds (it may contain `-` itself).
   */
  lemma ParseServiceKeyRoundTrip(k: ServiceKey, serviceTypes: set<string>)
    requires k.serviceType in serviceTypes && |k.serviceType| >= 1 && '-' !in k.serviceType
    requires !k.isHttp ==> !StartsWith(KeyText(k), "http-")
    ensures ParseServiceKey(KeyText(k), serviceTypes) == Ok(k)
  {
    var key := KeyText(k);
    var from := if k.isHttp then 5 else 0;
    assert k.isHttp ==> StartsWith(key, "http-");
    var dash := from + |k.serviceType|;
    assert key[from..dash] == k.serviceType;
    assert key[dash] == '-';
    forall j | from + 1 <= j < dash ensures key[j] != '-' {
      assert key[j] == k.serviceType[j - from];
    }
    assert IndexOf(key, '-', from + 1) == dash;
    assert key[dash + 1..] == k.name;
  }

  /** A key without a second `-` after its type's first character, or with an unknown type text, fails. */
  lemma ParseServiceKeyFailures(key: string, serviceTypes: set<string>)
    ensures var from := if StartsWith(key, "http-") then 5 else 0;
      (forall j :: from + 1 <= j < |key| ==> key[j] != '-') ==> ParseServiceKey(key, serviceTypes).Err?
    ensures ParseServiceKey(key, serviceTypes).Ok? ==> ParseServiceKey(key, serviceTypes).value.serviceType in serviceTypes
  {
  }

  /** The service passes the first two filters of discovery: the key's type, and UP. */
  predicate Candidate(k: ServiceKey, s: Service)
  {
    s.serviceType == Some(k.serviceType) && s.lastKnownStatus == Some(Up)
  }

  /** The registered service answers discovery for the parsed key: same type and name, and UP. */
  predicate Matches(k: ServiceKey, s: Service)
  {
    Candidate(k, s) && s.serviceName == Some(k.name)
  }

  /** The sidecar port a discovered host gets: the HTTP one for `http-` keys, the gRPC one otherwise. */
  function SideCarPort(k: ServiceKey, s: Service): Option<int>
  {
    if k.isHttp then s.sideCarHttpPort else s.sideCarGrpcPort
  }

  /**
   * The service makes discovery throw a NullPointerException: it passes the type and status
   * filters but has no name for `equals`, or it matches and has no sidecar port to unbox.
   */
  predicate Poisons(k: ServiceKey, s: Service)
  {
    Candidate(k, s) && (s.serviceName.None? || (s.serviceName == Some(k.name) && SideCarPort(k, s).None?))
  }

  /**
   * The discovery answer for the services iterated as `svcs`: one host per matching service,
   * in order; a service that poisons the stream makes the whole answer throw.
   */
  function DiscoveredHosts(k: ServiceKey, svcs: seq<Service>): (r: Result<seq<ServiceHostTO>>)
    decreases |svcs|
  {
    if svcs == [] then Ok([])
    else
      var init := DiscoveredHosts(k, svcs[..|svcs| - 1]);
      var s := svcs[|svcs| - 1];
      if init.Err? then init
      else if Poisons(k, s) then Err("NullPointerException")
      else if !Matches(k, s) then init
      else Ok(init.value + [ServiceHostTO(s.ip, SideCarPort(k, s).value)])
  }

  /** The registered services that answer discovery for `k`, in iteration order. */
  function MatchingServices(k: ServiceKey, svcs: seq<Service>): (r: seq<Service>)
    ensures forall s :: s in r <==> s in svcs && Matches(k, s)
    decreases |svcs|
  {
    if svcs == [] then []
    else
      var init := svcs[..|svcs| - 1];
      var last := svcs[|svcs| - 1];
      assert svcs == init + [last];
      MatchingServices(k, init) + (if Matches(k, last) then [last] else [])
  }

  /**
   * A successful discovery answer holds one host per matching UP service, in order, with that
   * service's address and the sidecar port the key's transport selects; it fails exactly when
   * some service has the key's type and is UP but has no name, or matches but has no such port.
   */
  lemma {:induction false} DiscoveredHostsAreMatching(k: ServiceKey, svcs: seq<Service>)
    ensures DiscoveredHosts(k, svcs).Err? <==> exists s :: s in svcs && Poisons(k, s)
    ensures DiscoveredHosts(k, svcs).Ok? ==>
      var hosts := DiscoveredHosts(k, svcs).value;
      var ms := MatchingServices(k, svcs);
      |hosts| == |ms| &&
      forall i :: 0 <= i < |ms| ==> SideCarPort(k, ms[i]).Some? && hosts[i] == ServiceHostTO(ms[i].ip, SideCarPort(k, ms[i]).value)
    decreases |svcs|
  {
    if svcs != [] {
      var init := svcs[..|svcs| - 1];
      var last := svcs[|svcs| - 1];
      DiscoveredHostsAreMatching(k, init);
      var ms0 := MatchingServices(k, init);
      var ms := MatchingServices(k, svcs);
      assert ms == ms0 + (if Matches(k, last) then [last] else []);
      assert svcs == init + [last];
      if DiscoveredHosts(k, init).Err? {
        var s :| s in init && Poisons(k, s);
        assert s in svcs;
      } else if exists s :: s in svcs && Poisons(k, s) {
        var s :| s in svcs && Poisons(k, s);
        if s != last {
          assert s in init;
        }
      }
    }
  }

  class EnvoyMeshManagerService {
    /** The registered services by service id. */
    var services: map<string, Service>
    /** The MD5 digest collaborator behind the name-based UUIDs. */
    const md5: Md5
    /** The constant names of the `ServiceType` enumeration. */
    const serviceTypes: set<string>

    /** Every entry is stored under its own id and carries its UUID. */
    ghost predicate Valid()
      reads this
    {
      forall id :: id in services ==> services[id].serviceId == Some(id) && services[id].serviceUUID.Some?
    }

    constructor (md5: Md5, serviceTypes: set<string>)
      ensures Valid() && services == map[]
      ensures this.md5 == md5 && this.serviceTypes == serviceTypes
    {
      this.md5 := md5;
      this.serviceTypes := serviceTypes;
      services := map[];
    }

    /**
     * Marks the service DOWN, stamps it with the UUID of its logical name and stores it under
     * its id, replacing any earlier registration; returns the stored record. The map refuses a
     * null id with a NullPointerException and keeps its registrations.
     */
    method RegisterService(service: Service) returns (r: Result<Service>)
      requires Valid()
      modifies this
      ensures Valid()
      ensures service.serviceId.None? ==> r == Err("NullPointerException") && services == old(services)
      ensures service.serviceId.Some? ==>
        var registered := service.(lastKnownStatus := Some(Down), serviceUUID := Some(GenerateServiceUuid(md5, service)));
        r == Ok(registered) && services == old(services)[service.serviceId.value := registered]
    {
      var registered := service.(lastKnownStatus := Some(Down));
      registered := registered.(serviceUUID := Some(GenerateServiceUuid(md5, registered)));
      if service.serviceId.None? {
        return Err("NullPointerException");
      }
      services := services[service.serviceId.value := registered];
      r := Ok(registered);
    }

    /** Removes the registration of `serviceId` if there is one; other entries stay. */
    method UnregisterService(serviceId: string)
      requires Valid()
      modifies this
      ensures Valid()
      ensures services == old(services) - {serviceId}
      ensures serviceId !in old(services) ==> services == old(services)
    {
      if serviceId in services {
        services := services - {serviceId};
      }
    }

    /**
     * The route configuration `config` for `node`. The services are visited in the map's
     * iteration order `order`, and the de-duplicated hosts come out of a hash map in the
     * order `names`; both orders are whatever the maps yield.
     */
    method Routes(config: string, node: string) returns (hosts: seq<RouteHostTO>, ghost order: seq<string>, ghost names: seq<string>)
      ensures Distinct(order) && forall id :: id in services <==> id in order
      ensures Distinct(names) && forall n :: n in names <==> n in ClusterNames(config, ValuesAt(services, order))
      ensures hosts == RouteHosts(config, node, services, ValuesAt(services, order), names)
    {
      var ids := KeysOf(services);
      order := ids;
      var svcs := ValuesAt(services, ids);
      var routeHosts: seq<RouteHostTO> := [];
      var serviceClusters: map<string, RouteHostTO> := map[];
      var i := 0;
      while i < |ids|
        invariant 0 <= i <= |ids|
        invariant routeHosts == InstanceHosts(config, svcs[..i])
        invariant forall n :: n in serviceClusters <==> n in ClusterNames(config, svcs[..i])
        invariant SharedHosts(serviceClusters)
      {
        var service := services[ids[i]];
        RoutesStep(config, svcs, i);
        // the source tests gRPC and HTTP routing one after the other; at most one holds
        if (service.useServiceGrpc && config == "grpc") || (service.useServiceHttp && config == "http") {
          var name := ClusterName(config, service);
          if name !in serviceClusters {
            serviceClusters := serviceClusters[name := VirtualHost(name, Some(name), name)];
          }
          routeHosts := routeHosts + [InstanceHost(config, service)];
        }
        i := i + 1;
      }
      assert svcs[..i] == svcs;
      var shared, sharedNames := ValuesOf(serviceClusters);
      names := sharedNames;
      SharedHostsInOrder(serviceClusters, names);
      routeHosts := routeHosts + shared;
      if config == "http" {
        if node in services && services[node].useServiceHttp {
          routeHosts := routeHosts + [VirtualHost("all", Some("http-" + JavaText(services[node].serviceUUID)), "*")];
        }
      }
      hosts := routeHosts;
    }

    /** Cluster discovery: the code that would populate the list is disabled, so every node gets no clusters. */
    function Clusters(node: string): (r: seq<ClusterTO>)
      reads this
      ensures r == []
    {
      if node !in services then [] else []
    }

    /**
     * Service discovery for a `[http-]{type}-{name}` key, over the services in the map's
     * iteration order `order`.
     */
    method Services(key: string) returns (r: Result<seq<ServiceHostTO>>, ghost order: seq<string>)
      ensures Distinct(order) && forall id :: id in services <==> id in order
      ensures ParseServiceKey(key, serviceTypes).Err? ==> r == Err(ParseServiceKey(key, serviceTypes).error)
      ensures ParseServiceKey(key, serviceTypes).Ok? ==>
        r == DiscoveredHosts(ParseServiceKey(key, serviceTypes).value, ValuesAt(services, order))
    {
      var ids := KeysOf(services);
      order := ids;
      var parsed := ParseServiceKey(key, serviceTypes);
      if parsed.Err? {
        return Err(parsed.error), order;
      }
      var k := parsed.value;
      var svcs := ValuesAt(services, ids);
      var hosts: seq<ServiceHostTO> := [];
      var i := 0;
      while i < |ids|
        invariant 0 <= i <= |ids|
        invariant DiscoveredHosts(k, svcs[..i]) == Ok(hosts)
      {
        var p := services[ids[i]];
        assert p == svcs[i];
        assert svcs[..i + 1][..i] == svcs[..i];
        if p.serviceType == Some(k.serviceType) && p.lastKnownStatus == Some(Up) {
          if p.serviceName.None? {
            PoisonedDiscovery(k, svcs, i + 1);
            return Err("NullPointerException"), order;
          }
        }
        if p.serviceType == Some(k.serviceType) && p.lastKnownStatus == Some(Up) && p.serviceName == Some(k.name) {
          var port := if k.isHttp then p.sideCarHttpPort else p.sideCarGrpcPort;
          if port.None? {
            PoisonedDiscovery(k, svcs, i + 1);
            return Err("NullPointerException"), order;
          }
          hosts := hosts + [ServiceHostTO(p.ip, port.value)];
        }
        i := i + 1;
      }
      assert svcs[..i] == svcs;
      r := Ok(hosts);
    }

    /** Every registered service, once each, in the map's iteration order. */
    method GetRuntimes() returns (rs: seq<Service>)
      ensures |rs| == |services|
      ensures forall s :: s in rs <==> s in services.Values
    {
      var ids;
      rs, ids := ValuesOf(services);
      forall s | s in services.Values ensures s in rs {
        var id :| id in services && services[id] == s;
        var i :| 0 <= i < |ids| && ids[i] == id;
        assert rs[i] == s;
      }
    }
  }

  /** Once a prefix of the iteration fails, the whole discovery answer is that failure. */
  lemma {:induction false} PoisonedDiscovery(k: ServiceKey, svcs: seq<Service>, n: int)
    requires 0 < n <= |svcs|
    requires DiscoveredHosts(k, svcs[..n - 1]).Ok?
    requires Poisons(k, svcs[n - 1])
    ensures DiscoveredHosts(k, svcs) == Err("NullPointerException")
    decreases |svcs|
  {
    assert svcs[..n][..n - 1] == svcs[..n - 1];
    assert DiscoveredHosts(k, svcs[..n]) == Err("NullPointerException");
    if n < |svcs| {
      assert svcs[..|svcs| - 1][..n - 1] == svcs[..n - 1];
      PoisonedDiscovery(k, svcs[..|svcs| - 1], n);
    } else {
      assert svcs[..n] == svcs;
    }
  }
}
