/**
 * The records the manager returns to Envoy's discovery services: clusters (CDS), route
 * virtual hosts (RDS) and service hosts (SDS). References that the Java code may leave
 * null are `Option`s.
 */
module EnvoyConfig {
  import opened Common

  /** One static host of a cluster, as a `tcp://host:port` URL. */
  datatype ClusterHostTO = ClusterHostTO(url: string)

  datatype ClusterTO = ClusterTO(
    name: string,
    clusterType: string,
    connectTimeoutMs: int,
    lbType: string,
    hosts: Option<seq<ClusterHostTO>>,
    serviceName: Option<string>,
    features: Option<string>)

  datatype RouteTO = RouteTO(prefix: string, cluster: Option<string>)

  datatype RouteHostTO = RouteHostTO(name: string, domains: seq<string>, routes: seq<RouteTO>)

  /** A host answered to service discovery; `ipAddress` may be null. */
  datatype ServiceHostTO = ServiceHostTO(ipAddress: Option<string>, port: int)

  /** A virtual host with one domain and one catch-all route `/` to `cluster`. */
  function VirtualHost(name: string, cluster: Option<string>, domain: string): (h: RouteHostTO)
    ensures h.name == name && h.domains == [domain]
    ensures |h.routes| == 1 && h.routes[0].prefix == "/" && h.routes[0].cluster == cluster
  {
    RouteHostTO(name, [domain], [RouteTO("/", cluster)])
  }
}
