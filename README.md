# hydro-serving core, modelled in Dafny

hydro-serving serves machine-learning models as runtimes on a service mesh. Each runtime has an
Envoy sidecar. A named pipeline is a chain of runtimes. A gateway takes a request for a
pipeline and sends it through the chain. The manager keeps the registry of runtimes and mesh
services, and deploys runtimes on Docker Swarm. It also answers the sidecars' discovery
requests for clusters, routes and service hosts. This project models that core together with
the Python product-matching runtime (`custom_scikit`) and the documentation release script.

One Dafny module stands for each source file of the core:

- **Manager registry and discovery.**
  - `CachedMeshManagement` is the cached runtime registry.
  - `EnvoyMeshManager` is the mesh-service registry, with its routes and service hosts.
  - `EnvoyManagement` is the discovery controller: cluster lists, static hosts, and the
    per-gateway cluster names derived from a name-based UUID (`NameUuid`).
  - `SwarmDeploy` maps a runtime to a Swarm service (labels, environment, replicas) and Swarm
    tasks back to runtime instances.
  - `RuntimeController` is the runtime REST controller.
- **Manager stores.**
  - `ManagerPipelines` is the pipeline store.
  - `ManagerEndpoints` is the endpoint-definition store. The copy under `envoy/manager` is line
    for line the same class, and the same module models both.
  - `PipelinesController` converts pipelines to and from their REST form.
- **Mesh protocol.**
  - `ServingService` is one hop of a pipeline envelope (`Proto`). The hop checks the stage
    index, runs the stage, then forwards to the next stage or back to the gateway.
  - `GrpcGateway` and `Deferred` are the gateway's correlation table of pending answers.
  - `EnvoyGatewayEndpoints` and `EnvoyGatewayController` are the mesh gateway's definition store
    and its REST entry point, which picks the HTTP or the gRPC path.
- **Plain HTTP gateway.**
  - `HttpGateway` is the synchronous chain runner.
  - `GatewayPipelines`, `GatewayEndpoints` and `GatewayController` are its stores and its
    entry point.
  - `TraceHeaders` is the tracing-header allow-list.
- **Shared services.**
  - `HealthService` is the gRPC health service.
  - `TracingInterceptor` copies tracing headers between gRPC metadata and the call context.
  - `EmptyStage` is the stage executor that tags each JSON object with the service name.
- **Python product matching.**
  - `FeatureExtractors`, `Matching` and `ItemModel` hold the pair features, the exact
    spec matcher and the item records.
  - `Facade` is the facade: chunking, NaN filtering and the top-matches request path.
  - `EbayProductDb` is the item persister and the reading of eBay specifications.
  - `Rest` is the falcon resources. Python values are the `PyValues` datatype.
- **Docs.** `ReleaseDocs` models `releaseDocs.py` over a model of the file system.

Whatever the code calls and cannot be seen is a parameter of the model:

- MD5, JSON parsing and writing, `repr`, float parsing;
- the HTTP exchange, the stage executor, the classifier and the pipeline's `transform`;
- the Swarm listings and the processor count.

Sends and acknowledgements become an appended list of events. Where the source iterates a
`HashMap` or a Python `set`, the model takes the iteration order as an arbitrary order. Its
contracts hold for every such order.

Shared helpers live in `Common` (Option/Result, Java integer text, last-write-wins indexing),
`Ordering` (lexicographic string order and sorted listings), `Json` and `Runtimes`.

Where the code does something surprising, the model follows the code:

- `EnvoyMeshManagerService.registerService` stores a service as DOWN, while service discovery
  keeps only UP services. Only the health-check controller sets a service UP, and that
  controller is not part of this model. So in the model, discovery finds nothing for a
  freshly registered service.
- A failed registry fetch is not atomic. When the runtime listing succeeds and the instance
  listing fails, the runtime maps are already replaced and the instance map is kept.
- The by-service-name instance map of the cached registry is never filled. So
  `getRuntimeInstancesByServiceName` always answers an empty list.
- The gRPC gateway settles a failed envelope with the carried error message only. There is no
  error type that names the failing stage's source.
- An unknown pipeline name raises `WrongEndpointNameException` in the gateway controllers.
  Spring answers it with 404. The model keeps the exception as an error value.
- The two gateway definition stores merge on sync and keep definitions missing from the
  response. `GatewayPipelineServiceImpl` replaces its map.
- The discovery controller writes static hosts as `tcp://host:port`.
- The Swarm driver writes environment entries as `key=value` and reads them back split on
  `:`. So a runtime it deployed cannot be read back (`SwarmDeploy.DeployedServiceUnreadable`).
- The plain-HTTP gateway's `ServingController.execute` (gateway `ServingController.java:53`)
  hands a `Pipeline` to `HTTPGatewayServiceImpl.execute`, whose parameter is an
  `EndpointDefinition` (gateway `HTTPGatewayServiceImpl.java:45`). This does not compile as
  written. `GatewayController.Execute` runs the pipeline's `invocationChain` as the chain.
- The manager's endpoint store is a `ConcurrentHashMap`, which refuses a null key. A pipeline
  posted without a name therefore fails with a NullPointerException, and so does one posted
  without a chain, when its chain is copied. Nothing is stored in either case.
- In the product-matching service:
  - a match request with `n` of at least one and no `ItemSpecifics` raises a ValueError
    inside `get_top_matches`;
  - an empty product database raises a ZeroDivisionError after the pipeline has run;
  - `chunks` of an empty list raises a ValueError;
  - a spec value of `None` counts as shared with a key the other item lacks, because
    `dict.get` answers `None` for a missing key. The shared-spec count iterates the smaller
    dictionary, so it can depend on the argument order
    (`FeatureExtractors.SharedSpecCountOrderMatters`).

## Model

| member | source | states |
|---|---|---|
| CachedMeshManagement.Attached | manager/src/main/java/io/hydrosphere/serving/service/runtime/CachedMeshManagementServiceImpl.java:65-73 | an instance is kept exactly when it was listed and its runtime id names a fetched runtime |
| CachedMeshManagement.RuntimeLookupAfterFetch | manager/src/main/java/io/hydrosphere/serving/service/runtime/CachedMeshManagementServiceImpl.java:53-60 | after a fetch a name (an id) is a key exactly when some fetched runtime carries it, every fetched runtime is found, and the last runtime listed under a name or id is the one stored |
| CachedMeshManagement.InstanceIndexAttached | manager/src/main/java/io/hydrosphere/serving/service/runtime/CachedMeshManagementServiceImpl.java:63-74 | an instance id is stored exactly when a listed instance with that id refers to a runtime of the same fetch, and the stored instance is such an instance: no dangling runtime reference survives a fetch |
| CachedMeshManagement.CachedMeshManagementService.constructor | manager/src/main/java/io/hydrosphere/serving/service/runtime/CachedMeshManagementServiceImpl.java:14-22 | all lookup maps start empty |
| CachedMeshManagement.CachedMeshManagementService.RuntimeList | manager/src/main/java/io/hydrosphere/serving/service/runtime/CachedMeshManagementServiceImpl.java:24-27 | the list holds exactly the runtimes stored by name, one per name |
| CachedMeshManagement.CachedMeshManagementService.GetRuntimeByName | manager/src/main/java/io/hydrosphere/serving/service/runtime/CachedMeshManagementServiceImpl.java:29-32 | empty exactly when no runtime is stored under the name, otherwise that runtime |
| CachedMeshManagement.CachedMeshManagementService.GetRuntimeById | manager/src/main/java/io/hydrosphere/serving/service/runtime/CachedMeshManagementServiceImpl.java:34-37 | empty exactly when no runtime is stored under the id, otherwise that runtime |
| CachedMeshManagement.CachedMeshManagementService.GetRuntimeInstancesByServiceName | manager/src/main/java/io/hydrosphere/serving/service/runtime/CachedMeshManagementServiceImpl.java:39-43 | a missing name reads as the empty list, and since a fetch never stores an entry the answer is always empty |
| CachedMeshManagement.CachedMeshManagementService.GetRuntimeInstance | manager/src/main/java/io/hydrosphere/serving/service/runtime/CachedMeshManagementServiceImpl.java:45-48 | empty exactly when no instance is stored under the id, otherwise that instance |
| CachedMeshManagement.CachedMeshManagementService.Fetch | manager/src/main/java/io/hydrosphere/serving/service/runtime/CachedMeshManagementServiceImpl.java:50-76 | a failing runtime listing changes nothing; otherwise the runtime maps are rebuilt from it, and a failing instance listing then leaves the old instance map beside them; a complete fetch rebuilds the instance map from the attached instances |
| EnvoyMeshManager.ServiceName | manager/src/main/java/io/hydrosphere/serving/service/EnvoyMeshManagerService.java:78-80 | the service name is the service type's text, a dash, then the service's own name, each written "null" when missing |
| EnvoyMeshManager.GenerateServiceUuid | manager/src/main/java/io/hydrosphere/serving/service/EnvoyMeshManagerService.java:82-90 | the cluster UUID is the 36-character UUID text of the service name, within Envoy's 60-character limit |
| EnvoyMeshManager.StaticHost | manager/src/main/java/io/hydrosphere/serving/service/EnvoyMeshManagerService.java:92-116 | a single `tcp://` host: 127.0.0.1 with the service's own HTTP or gRPC port for the requesting node itself, otherwise the service's IP with its sidecar port |
| EnvoyMeshManager.ClusterNamesMembers | manager/src/main/java/io/hydrosphere/serving/service/EnvoyMeshManagerService.java:43-55 | the shared virtual-host names are exactly the (`http-`-prefixed for "http") service names of the services routed under the configuration |
| EnvoyMeshManager.InstanceHostsCount | manager/src/main/java/io/hydrosphere/serving/service/EnvoyMeshManagerService.java:43-54 | one per-instance virtual host for each service routed under the configuration, and none for a configuration other than "grpc" or "http" |
| EnvoyMeshManager.InstanceHostsRouteToUuid | manager/src/main/java/io/hydrosphere/serving/service/EnvoyMeshManagerService.java:43-54 | every per-instance virtual host is the one of some routed service, and under "http" its route targets an `http-` cluster |
| EnvoyMeshManager.SharedHostsInOrder | manager/src/main/java/io/hydrosphere/serving/service/EnvoyMeshManagerService.java:30-55 | each shared virtual host is named after its cluster, serves that domain and routes "/" to it |
| EnvoyMeshManager.RoutesStep | manager/src/main/java/io/hydrosphere/serving/service/EnvoyMeshManagerService.java:43-54 | visiting one more service appends its instance host and adds its shared name exactly when it is routed |
| EnvoyMeshManager.RoutesOfUnknownConfig | manager/src/main/java/io/hydrosphere/serving/service/EnvoyMeshManagerService.java:38-66 | a configuration other than "grpc" or "http" yields no virtual hosts |
| EnvoyMeshManager.CatchAllPresence | manager/src/main/java/io/hydrosphere/serving/service/EnvoyMeshManagerService.java:56-61 | at most one catch-all host, present exactly for "http" when the requesting node is a registered HTTP service; it serves "*" and routes to that service's `http-` UUID cluster |
| EnvoyMeshManager.ParseServiceKeyRoundTrip | manager/src/main/java/io/hydrosphere/serving/service/EnvoyMeshManagerService.java:192-200 | a discovery key written from a known type and a dash-free type name parses back to the same type, name and transport |
| EnvoyMeshManager.ParseServiceKeyFailures | manager/src/main/java/io/hydrosphere/serving/service/EnvoyMeshManagerService.java:192-200 | a key with no dash after its type's first character fails, and a parsed key always names a known service type |
| EnvoyMeshManager.MatchingServices | manager/src/main/java/io/hydrosphere/serving/service/EnvoyMeshManagerService.java:205-208 | exactly the services of the key's type and name that are UP |
| EnvoyMeshManager.DiscoveredHostsAreMatching | manager/src/main/java/io/hydrosphere/serving/service/EnvoyMeshManagerService.java:205-218 | discovery fails exactly when a service of the key's type that is UP has no name, or matches and lacks the sidecar port; otherwise one host per matching service, in order, with its IP and its sidecar HTTP or gRPC port |
| EnvoyMeshManager.PoisonedDiscovery | manager/src/main/java/io/hydrosphere/serving/service/EnvoyMeshManagerService.java:209-218 | a service of the key's type that is UP and has no name, or matches and lacks the needed sidecar port, turns the whole answer into a NullPointerException |
| EnvoyMeshManager.EnvoyMeshManagerService.constructor | manager/src/main/java/io/hydrosphere/serving/service/EnvoyMeshManagerService.java:21-28 | the registry starts empty |
| EnvoyMeshManager.EnvoyMeshManagerService.RegisterService | manager/src/main/java/io/hydrosphere/serving/service/EnvoyMeshManagerService.java:239-265 | a null id throws a NullPointerException and keeps the registrations; otherwise the service is stored under its id, marked DOWN and given its name-based UUID, replacing any earlier entry; every entry stays under its own id |
| EnvoyMeshManager.EnvoyMeshManagerService.UnregisterService | manager/src/main/java/io/hydrosphere/serving/service/EnvoyMeshManagerService.java:225-237 | the id is removed, and an unknown id changes nothing |
| EnvoyMeshManager.EnvoyMeshManagerService.Routes | manager/src/main/java/io/hydrosphere/serving/service/EnvoyMeshManagerService.java:38-66 | the virtual hosts are the per-instance hosts, the shared hosts and the catch-all, as the lemmas above describe, for the registry's iteration order |
| EnvoyMeshManager.EnvoyMeshManagerService.Clusters | manager/src/main/java/io/hydrosphere/serving/service/EnvoyMeshManagerService.java:68-76 | always the empty cluster list, since the cluster-building loop is commented out (also lines 118-187) |
| EnvoyMeshManager.EnvoyMeshManagerService.Services | manager/src/main/java/io/hydrosphere/serving/service/EnvoyMeshManagerService.java:189-223 | an unparseable key fails with its exception; otherwise the hosts discovered among the registered services |
| EnvoyMeshManager.EnvoyMeshManagerService.GetRuntimes | manager/src/main/java/io/hydrosphere/serving/service/EnvoyMeshManagerService.java:272-277 | exactly the registered services |
| EnvoyConfig.VirtualHost | manager/src/main/java/io/hydrosphere/serving/service/EnvoyMeshManagerService.java:30-36 | a virtual host has the given name, serves the one given domain and has one route, from "/" to the given cluster |
| EnvoyManagement.InstancesNamed | manager/src/main/java/io/hydrosphere/serving/controller/envoy/EnvoyManagementController.java:76-127 | the registry's instances for a service name, or none when the name has no entry |
| EnvoyManagement.HostUrlParts | manager/src/main/java/io/hydrosphere/serving/controller/envoy/EnvoyManagementController.java:65-104 | a cluster host URL is `tcp://`, the address, a colon and a port text that parses back to the port |
| EnvoyManagement.RuntimeClustersShape | manager/src/main/java/io/hydrosphere/serving/controller/envoy/EnvoyManagementController.java:57-72 | one cluster per listed runtime, named and service-named after it, with the common timeout and balancing; the requesting node's own runtime is static on 127.0.0.1 at its app port, every other one is SDS-discovered without hosts |
| EnvoyManagement.GatewayClustersShape | manager/src/main/java/io/hydrosphere/serving/controller/envoy/EnvoyManagementController.java:75-84 | the gateway clusters fail exactly when the gateway runtime is unknown and one of its instances is the requesting node (a null dereference); otherwise one static cluster per gateway instance, named by the UUID of its id (at most 60 characters), with the host `getStaticHost` gives |
| EnvoyManagement.GatewayClustersErrorIff | manager/src/main/java/io/hydrosphere/serving/controller/envoy/EnvoyManagementController.java:75-96 | the gateway clusters fail exactly when the gateway runtime is missing and some gateway instance runs on the requesting node |
| EnvoyManagement.GatewayClustersOkShape | manager/src/main/java/io/hydrosphere/serving/controller/envoy/EnvoyManagementController.java:76-84 | a successful gateway listing has exactly one cluster per instance, in instance order, each the cluster built for that instance |
| EnvoyManagement.GatewayClusterShape | manager/src/main/java/io/hydrosphere/serving/controller/envoy/EnvoyManagementController.java:77-83 | the cluster of one gateway instance keeps the shared builder settings, is static, has no service name, is named by the 36-character UUID of the instance id and holds the static host of that instance |
| EnvoyManagement.GatewayHostAddress | manager/src/main/java/io/hydrosphere/serving/controller/envoy/EnvoyManagementController.java:88-104 | a single host: 127.0.0.1 at the gateway's app port for the requesting node itself, otherwise the instance's host and HTTP port |
| EnvoyManagement.GatewayClustersFail | manager/src/main/java/io/hydrosphere/serving/controller/envoy/EnvoyManagementController.java:76-84 | the first instance whose host cannot be built fails the whole listing with that exception |
| EnvoyManagement.ManagerClustersOfUnknownNode | manager/src/main/java/io/hydrosphere/serving/controller/envoy/EnvoyManagementController.java:46-54 | an unknown node, or one whose runtime is unknown, gets no clusters |
| EnvoyManagement.ManagerClustersCount | manager/src/main/java/io/hydrosphere/serving/controller/envoy/EnvoyManagementController.java:56-85 | for a known node, one cluster per runtime plus one per gateway instance |
| EnvoyManagement.RuntimeClustersCommon | manager/src/main/java/io/hydrosphere/serving/controller/envoy/EnvoyManagementController.java:57-60 | every runtime cluster has a 500 ms connect timeout, round-robin balancing and no features |
| EnvoyManagement.GatewayClustersCommon | manager/src/main/java/io/hydrosphere/serving/controller/envoy/EnvoyManagementController.java:57-83 | every gateway cluster keeps the same shared builder settings |
| EnvoyManagement.ManagerClustersCommon | manager/src/main/java/io/hydrosphere/serving/controller/envoy/EnvoyManagementController.java:57-85 | every cluster the endpoint returns has those shared settings |
| EnvoyManagement.Clusters | manager/src/main/java/io/hydrosphere/serving/controller/envoy/EnvoyManagementController.java:37-44 | the answer is the cluster listing the lemmas above describe, or the exception raised while building it |
| EnvoyManagement.AddRuntimeClusters | manager/src/main/java/io/hydrosphere/serving/controller/envoy/EnvoyManagementController.java:56-72 | the first loop yields exactly one cluster per listed runtime, in list order, and the reused builder keeps the fixed timeout, balancing policy and no features |
| EnvoyManagement.AddGatewayClusters | manager/src/main/java/io/hydrosphere/serving/controller/envoy/EnvoyManagementController.java:75-84 | the second loop yields exactly the gateway clusters of the instances in order, or the failure of the first instance whose host cannot be built |
| EnvoyManagement.Routes | manager/src/main/java/io/hydrosphere/serving/controller/envoy/EnvoyManagementController.java:106-122 | the answer is the mesh manager's route configuration; the runtime-based list built before it is discarded |
| EnvoyManagement.ServiceHostsShape | manager/src/main/java/io/hydrosphere/serving/controller/envoy/EnvoyManagementController.java:126-133 | one service host per instance, with the instance's host and HTTP port |
| EnvoyManagement.Services | manager/src/main/java/io/hydrosphere/serving/controller/envoy/EnvoyManagementController.java:124-137 | the hosts of the instances registered under the service name, in order |
| NameUuid.Hex | manager/src/main/java/io/hydrosphere/serving/controller/envoy/EnvoyManagementController.java:80 | hex text has two characters per byte |
| NameUuid.HexAt | manager/src/main/java/io/hydrosphere/serving/controller/envoy/EnvoyManagementController.java:80 | each byte is written as its high then its low hex digit |
| NameUuid.HexIsHex | manager/src/main/java/io/hydrosphere/serving/controller/envoy/EnvoyManagementController.java:80 | hex text holds hex digits only |
| NameUuid.StampBits | manager/src/main/java/io/hydrosphere/serving/controller/envoy/EnvoyManagementController.java:80 | `nameUUIDFromBytes` sets the version nibble to 3 and the variant bits to binary 10, keeping every other bit of the digest |
| NameUuid.NameUuidText | manager/src/main/java/io/hydrosphere/serving/controller/envoy/EnvoyManagementController.java:80 | a UUID text is 36 characters long |
| NameUuid.NameUuidShape | manager/src/main/java/io/hydrosphere/serving/controller/envoy/EnvoyManagementController.java:80 | a name-based UUID text has hyphens at positions 8, 13, 18 and 23, hex digits elsewhere, version digit 3 and variant digit 8, 9, a or b |
| SwarmDeploy.SpecShape | manager/src/main/java/io/hydrosphere/serving/clouddriver/swarm/SwarmRuntimeDeployService.java:40-94 | the deployed specification carries the runtime's name, image and replica count; service and container share the same six labels, among them `hydroServing=runtime`, the app port and an `httpPort` taken from ENVOY_HTTP_PORT when the environment has it and from the runtime's port otherwise; the environment lists every `key=value` then `SERVICE_TYPE=runtime`; a network is attached exactly when the configured name has text |
| SwarmDeploy.JavaSplitWithout | manager/src/main/java/io/hydrosphere/serving/clouddriver/swarm/SwarmRuntimeDeployService.java:173 | a text without the separator splits into itself alone |
| SwarmDeploy.JavaSplitPair | manager/src/main/java/io/hydrosphere/serving/clouddriver/swarm/SwarmRuntimeDeployService.java:173 | `k:v` with no other colon and a non-empty value splits into key and value |
| SwarmDeploy.EnvMapFailsWithoutColon | manager/src/main/java/io/hydrosphere/serving/clouddriver/swarm/SwarmRuntimeDeployService.java:171-176 | one environment entry without a colon makes reading the service back fail |
| SwarmDeploy.EnvMapErrors | manager/src/main/java/io/hydrosphere/serving/clouddriver/swarm/SwarmRuntimeDeployService.java:171-176 | reading the environment back fails only with an index-out-of-bounds or a duplicate-key exception |
| SwarmDeploy.IntValue | manager/src/main/java/io/hydrosphere/serving/clouddriver/swarm/SwarmRuntimeDeployService.java:192-194 | the replica count read back is a signed 32-bit value, equal to the replica count when it fits |
| SwarmDeploy.LabelsReadBack | manager/src/main/java/io/hydrosphere/serving/clouddriver/swarm/SwarmRuntimeDeployService.java:58-62 | for ports that fit in an int and no ENVOY_HTTP_PORT entry, the labels deploy writes read back as the runtime's type, model name, version and both ports (also lines 181-188) |
| SwarmDeploy.DeployedServiceUnreadable | manager/src/main/java/io/hydrosphere/serving/clouddriver/swarm/SwarmRuntimeDeployService.java:45 | a service this driver deployed cannot be read back: its `key=value` environment entries split on ':' fail with an index or duplicate-key exception (also lines 56, 171-176) |
| SwarmDeploy.GetRuntime | manager/src/main/java/io/hydrosphere/serving/clouddriver/swarm/SwarmRuntimeDeployService.java:102-116 | fails, always with RuntimeException, exactly when the listing fails or the first service cannot be read back; no service gives null; otherwise the first service read back |
| SwarmDeploy.MapAll | manager/src/main/java/io/hydrosphere/serving/clouddriver/swarm/SwarmRuntimeDeployService.java:151-163 | succeeds exactly when every service reads back, and then holds each one in listing order |
| SwarmDeploy.NoRecovery | manager/src/main/java/io/hydrosphere/serving/clouddriver/swarm/SwarmRuntimeDeployService.java:151-163 | one unreadable service fails the whole listing |
| SwarmDeploy.HostOfLastAttachment | manager/src/main/java/io/hydrosphere/serving/clouddriver/swarm/SwarmRuntimeDeployService.java:126-130 | no host exactly when no attachment is on the network; otherwise the host is the first address of the last attachment on it |
| SwarmDeploy.TaskInstanceRules | manager/src/main/java/io/hydrosphere/serving/clouddriver/swarm/SwarmRuntimeDeployService.java:122-137 | an instance is UP exactly when its task state is "running" ignoring case; it carries the Swarm task's id, service id and message, the host of its attachment, and the `httpPort` label parsed when it has text and the default port otherwise |
| SwarmDeploy.InstancesOf | manager/src/main/java/io/hydrosphere/serving/clouddriver/swarm/SwarmRuntimeDeployService.java:118-143 | succeeds exactly when every task converts, and then holds each one's instance in order |
| SwarmDeploy.SwarmRuntimeDeployService.constructor | manager/src/main/java/io/hydrosphere/serving/clouddriver/swarm/SwarmRuntimeDeployService.java:35-38 | keeps the configured network name |
| SwarmDeploy.SwarmRuntimeDeployService.EnvList | manager/src/main/java/io/hydrosphere/serving/clouddriver/swarm/SwarmRuntimeDeployService.java:43-45 | the environment entries are `key=value` for every key in the map's iteration order, or none for an empty or null map |
| SwarmDeploy.SwarmRuntimeDeployService.Deploy | manager/src/main/java/io/hydrosphere/serving/clouddriver/swarm/SwarmRuntimeDeployService.java:40-100 | the specification sent to Docker is the one `SpecShape` describes; the answer is the created id, or RuntimeException when creation fails |
| SwarmDeploy.SwarmRuntimeDeployService.RuntimeList | manager/src/main/java/io/hydrosphere/serving/clouddriver/swarm/SwarmRuntimeDeployService.java:151-163 | Docker failures and unreadable services become RuntimeException; otherwise every service read back in order |
| SwarmDeploy.SwarmRuntimeDeployService.RuntimeInstances | manager/src/main/java/io/hydrosphere/serving/clouddriver/swarm/SwarmRuntimeDeployService.java:118-149 | Docker failures and unconvertible tasks become RuntimeException; otherwise each task's instance on the configured network, or "bridge" when none has text |
| Common.ParseJavaInt | manager/src/main/java/io/hydrosphere/serving/clouddriver/swarm/SwarmRuntimeDeployService.java:133-187 | `Integer.valueOf`: whatever it accepts is a signed 32-bit value |
| Common.ParseJavaIntOfText | manager/src/main/java/io/hydrosphere/serving/clouddriver/swarm/SwarmRuntimeDeployService.java:50 | the decimal text of any int parses back to it (also lines 186) |
| RuntimeController.ManagerAddressInjected | manager/src/main/java/io/hydrosphere/serving/controller/RuntimeManagementController.java:37-46 | the deployed runtime's environment exists and holds MANAGER_HOST and MANAGER_PORT set to the exposed address, keeps every other entry of the original environment, adds nothing else, and leaves every other field of the runtime alone |
| RuntimeController.ManagerPortReadable | manager/src/main/java/io/hydrosphere/serving/controller/RuntimeManagementController.java:46 | the MANAGER_PORT entry written for an int port parses back to that port |
| RuntimeController.RuntimeManagementController.constructor | manager/src/main/java/io/hydrosphere/serving/controller/RuntimeManagementController.java:24-31 | the controller starts with the registry and the exposed address and no deploy or delete calls made |
| RuntimeController.RuntimeManagementController.Create | manager/src/main/java/io/hydrosphere/serving/controller/RuntimeManagementController.java:33-48 | one deploy call with the runtime after the manager address was injected, and no delete |
| RuntimeController.RuntimeManagementController.List | manager/src/main/java/io/hydrosphere/serving/controller/RuntimeManagementController.java:50-54 | exactly the runtimes the registry holds by name |
| RuntimeController.RuntimeManagementController.Get | manager/src/main/java/io/hydrosphere/serving/controller/RuntimeManagementController.java:56-61 | IllegalArgumentException exactly when the registry has no runtime of that name, otherwise that runtime |
| RuntimeController.RuntimeManagementController.Instances | manager/src/main/java/io/hydrosphere/serving/controller/RuntimeManagementController.java:63-67 | always the empty list, since the registry never stores instances by service name |
| RuntimeController.RuntimeManagementController.Delete | manager/src/main/java/io/hydrosphere/serving/controller/RuntimeManagementController.java:69-73 | a known name sends one delete of that runtime's id; an unknown name sends none |
| ServingService.HopAcknowledgesFirst | envoy/serving-java-spring/src/main/java/io/hydrosphere/serving/service/ServingServiceImpl.java:44-96 | a hop first completes the caller's call, then makes one or two sends and nothing else |
| ServingService.HopWrongSequence | envoy/serving-java-spring/src/main/java/io/hydrosphere/serving/service/ServingServiceImpl.java:49-53 | an out-of-range stage index sends the envelope back to the gateway with the error "Wrong stage sequence" from this stage, without running any action |
| ServingService.HopRunsCurrentStage | envoy/serving-java-spring/src/main/java/io/hydrosphere/serving/service/ServingServiceImpl.java:54-63 | a hop's outcome depends only on what the action of the stage under the stage index makes of the envelope's data |
| ServingService.HopForwards | envoy/serving-java-spring/src/main/java/io/hydrosphere/serving/service/ServingServiceImpl.java:64-90 | a produced result travels on as the envelope's data with the stage index advanced by one and every other field kept, to the next stage's destination or, after the last stage, to the gateway; a third send happens exactly when the forward fails |
| ServingService.HopErrorsGoToGateway | envoy/serving-java-spring/src/main/java/io/hydrosphere/serving/service/ServingServiceImpl.java:73-110 | every send is either the forward of a produced output, keeping the request's error, or an error envelope to the gateway with this stage as the error's source; a failed forward resends the forwarded envelope with the error; a failed action returns the original envelope with an error |
| ServingService.RelayReachesGateway | envoy/serving-java-spring/src/main/java/io/hydrosphere/serving/service/ServingServiceImpl.java:64-90 | when every stage produces a result, relaying from any valid stage index reaches the gateway with the stage index past the last stage, with the request id, stages and gateway unchanged |
| ServingService.ServingServiceImpl.constructor | envoy/serving-java-spring/src/main/java/io/hydrosphere/serving/service/ServingServiceImpl.java:35-42 | the hop knows its own destination and has sent nothing |
| ServingService.ServingServiceImpl.Serve | envoy/serving-java-spring/src/main/java/io/hydrosphere/serving/service/ServingServiceImpl.java:44-96 | the events of one call are exactly the hop's events the lemmas above describe |
| ServingService.ServingServiceImpl.SendErrorMessage | envoy/serving-java-spring/src/main/java/io/hydrosphere/serving/service/ServingServiceImpl.java:98-110 | exactly one send: the envelope with the error message and this stage as source, to the gateway |
| GrpcGateway.SettlementIsFinal | envoy/gateway/src/main/java/io/hydrosphere/serving/service/GRPCGatewayServiceImpl.java:66-79 | an envelope coming back always settles its pending answer: with its error message when it carries an error (whichever stage raised it), otherwise with the parsed data exactly when the data parses |
| GrpcGateway.GRPCGatewayService.constructor | envoy/gateway/src/main/java/io/hydrosphere/serving/service/GRPCGatewayServiceImpl.java:23-31 | no pending answers and nothing sent |
| GrpcGateway.GRPCGatewayService.SendToMesh | envoy/gateway/src/main/java/io/hydrosphere/serving/service/GRPCGatewayServiceImpl.java:33-59 | a fresh pending answer is entered under the request id, replacing any earlier one and leaving the others; the envelope is sent to the first stage's destination, and an envelope without stages fails the call after the entry was made |
| GrpcGateway.GRPCGatewayService.Timeout | envoy/gateway/src/main/java/io/hydrosphere/serving/service/GRPCGatewayServiceImpl.java:38 | a timeout removes the request's entry and sends nothing |
| GrpcGateway.GRPCGatewayService.Serve | envoy/gateway/src/main/java/io/hydrosphere/serving/service/GRPCGatewayServiceImpl.java:61-83 | the call is completed; an unknown request id changes nothing else; a known one is removed and its answer settled as `SettlementIsFinal` says, unless it was already settled |
| Deferred.DeferredResult.constructor | envoy/gateway/src/main/java/io/hydrosphere/serving/service/GRPCGatewayServiceImpl.java:36 | a new answer is pending |
| Deferred.DeferredResult.Resolve | envoy/gateway/src/main/java/io/hydrosphere/serving/service/GRPCGatewayServiceImpl.java:70-76 | the first settlement is accepted and kept; later ones are ignored |
| HttpGateway.HopHeaders | gateway/src/main/java/io/hydrosphere/serving/service/HTTPGatewayServiceImpl.java:65-69 | a header is passed on exactly when its value is non-null and non-empty, with that value |
| HttpGateway.HopForTarget | gateway/src/main/java/io/hydrosphere/serving/service/HTTPGatewayServiceImpl.java:59-69 | a chain entry can be posted exactly when it contains a '/'; the request then goes to the sidecar's host and port with the path from the first '/', under the virtual host `http-` plus the text before it, carrying the current body and the passed-on headers |
| HttpGateway.SendAllTargets | gateway/src/main/java/io/hydrosphere/serving/service/HTTPGatewayServiceImpl.java:58-70 | the k-th request sent is the one built from the k-th chain entry, and no more requests than entries are sent |
| HttpGateway.SendAllBodies | gateway/src/main/java/io/hydrosphere/serving/service/HTTPGatewayServiceImpl.java:56-78 | the first request carries the input, and each later request carries the 200 answer of the one before it |
| HttpGateway.SendAllOutcome | gateway/src/main/java/io/hydrosphere/serving/service/HTTPGatewayServiceImpl.java:55-82 | the run succeeds exactly when every entry was sent and answered 200, and then yields the last answer |
| HttpGateway.SendAllEmptyChain | gateway/src/main/java/io/hydrosphere/serving/service/HTTPGatewayServiceImpl.java:56-81 | an empty chain sends nothing and answers the input itself |
| HttpGateway.ChainResolutionIsFinal | gateway/src/main/java/io/hydrosphere/serving/service/HTTPGatewayServiceImpl.java:45-53 | the answer is always settled: resolved exactly when the run succeeded, with its result, and failed otherwise |
| HttpGateway.HTTPGatewayService.constructor | gateway/src/main/java/io/hydrosphere/serving/service/HTTPGatewayServiceImpl.java:36-43 | keeps the sidecar's host and port |
| HttpGateway.HTTPGatewayService.SendAllLoop | gateway/src/main/java/io/hydrosphere/serving/service/HTTPGatewayServiceImpl.java:55-83 | the loop sends exactly the requests, and reaches exactly the result, of the chain run the lemmas above describe |
| HttpGateway.HTTPGatewayService.Execute | gateway/src/main/java/io/hydrosphere/serving/service/HTTPGatewayServiceImpl.java:45-53 | a new answer settled by the chain run |
| GatewayController.ServingController.constructor | gateway/src/main/java/io/hydrosphere/serving/controller/ServingController.java:35-39 | keeps the pipeline store and the HTTP runner |
| GatewayController.ServingController.Execute | gateway/src/main/java/io/hydrosphere/serving/controller/ServingController.java:42-54 | an unknown pipeline name fails with WrongEndpointNameException; a known one answers with a new result settled by running its chain over the input, carrying the seven tracing headers of the request |
| GatewayEndpoints.EndpointServiceImpl.constructor | gateway/src/main/java/io/hydrosphere/serving/service/EndpointServiceImpl.java:21-29 | no definitions yet |
| GatewayEndpoints.EndpointServiceImpl.EndpointDefinitionOf | gateway/src/main/java/io/hydrosphere/serving/service/EndpointServiceImpl.java:31-33 | null exactly when no definition has that name, otherwise that definition |
| GatewayEndpoints.EndpointServiceImpl.SyncEndpoint | gateway/src/main/java/io/hydrosphere/serving/service/EndpointServiceImpl.java:37-44 | a failed fetch changes nothing; a successful one merges the answer into the stored definitions by name, keeping names the answer lacks and letting the last of equal names win |
| Common.MergeByKey | gateway/src/main/java/io/hydrosphere/serving/service/EndpointServiceImpl.java:43 | after merging a listing into a map by key, a key the listing lacks keeps its old value, and a key it has holds its last listed value |
| Common.PutAll | gateway/src/main/java/io/hydrosphere/serving/service/EndpointServiceImpl.java:43 | putting every listed value under its key is merging the listing's last-wins index into the map |
| GatewayPipelines.SyncReplaces | gateway/src/main/java/io/hydrosphere/serving/service/GatewayPipelineServiceImpl.java:39-42 | after a refresh a name is stored exactly when the answer has a pipeline of that name, and it holds the last such pipeline |
| GatewayPipelines.GatewayPipelineServiceImpl.constructor | gateway/src/main/java/io/hydrosphere/serving/service/GatewayPipelineServiceImpl.java:22-28 | no pipelines yet |
| GatewayPipelines.GatewayPipelineServiceImpl.SyncEndpoint | gateway/src/main/java/io/hydrosphere/serving/service/GatewayPipelineServiceImpl.java:32-43 | a failed fetch changes nothing; a successful one replaces the whole store with the answer indexed by name |
| GatewayPipelines.GatewayPipelineServiceImpl.PipelineOf | gateway/src/main/java/io/hydrosphere/serving/service/GatewayPipelineServiceImpl.java:45-48 | empty exactly when no pipeline has that name, otherwise that pipeline |
| TraceHeaders.TraceHeaderNamesDistinct | gateway/src/main/java/io/hydrosphere/serving/controller/ServingController.java:25-33 | seven distinct tracing header names |
| TraceHeaders.Forwarded | gateway/src/main/java/io/hydrosphere/serving/controller/ServingController.java:48-51 | the collected headers are exactly the seven tracing names, each with the request's value for it, null included |
| TraceHeaders.CollectHeaders | gateway/src/main/java/io/hydrosphere/serving/controller/ServingController.java:48-51 | the loop collects exactly those headers |
| Common.IndexByKeys | gateway/src/main/java/io/hydrosphere/serving/service/GatewayPipelineServiceImpl.java:40 | a key is in a listing's index exactly when some listed value has it |
| Common.IndexByLast | gateway/src/main/java/io/hydrosphere/serving/service/GatewayPipelineServiceImpl.java:40 | a value whose key no later value repeats is the one stored under its key |
| Common.IndexByValues | gateway/src/main/java/io/hydrosphere/serving/service/GatewayPipelineServiceImpl.java:40 | every stored value was listed, under its own key |
| EnvoyGatewayController.ServingController.constructor | envoy/gateway/src/main/java/io/hydrosphere/serving/controller/ServingController.java:36-43 | keeps the endpoint store and both runners |
| EnvoyGatewayController.ServingController.Execute | envoy/gateway/src/main/java/io/hydrosphere/serving/controller/ServingController.java:46-64 | an unknown endpoint fails with WrongEndpointNameException and touches nothing; an "http" endpoint answers with a new result settled by the HTTP chain run; any other transport builds the envelope (a JSON writing failure is a RuntimeException), enters a pending answer under its request id and sends the envelope to the first stage, failing after the entry when the chain is empty |
| EnvoyGatewayEndpoints.EnvelopeShape | envoy/gateway/src/main/java/io/hydrosphere/serving/service/EndpointServiceImpl.java:48-70 | the envelope has one SERVE stage with action "action" per chain entry, in order, the stage index at 0, no error, this gateway as destination and the JSON bytes as data; its stage index is valid exactly when the chain is non-empty |
| EnvoyGatewayEndpoints.EnvelopeComesBack | envoy/gateway/src/main/java/io/hydrosphere/serving/service/EndpointServiceImpl.java:48-70 | when every stage produces a result, the envelope relayed through the mesh returns to this gateway with the same request id and the stage index past the last stage |
| EnvoyGatewayEndpoints.EndpointServiceImpl.constructor | envoy/gateway/src/main/java/io/hydrosphere/serving/service/EndpointServiceImpl.java:28-36 | no definitions yet |
| EnvoyGatewayEndpoints.EndpointServiceImpl.EndpointDefinitionOf | envoy/gateway/src/main/java/io/hydrosphere/serving/service/EndpointServiceImpl.java:38-40 | null exactly when no definition has that name, otherwise that definition |
| EnvoyGatewayEndpoints.EndpointServiceImpl.BuildStages | envoy/gateway/src/main/java/io/hydrosphere/serving/service/EndpointServiceImpl.java:48-55 | one SERVE stage with action "action" per chain entry, addressed to it, in order |
| EnvoyGatewayEndpoints.EndpointServiceImpl.GetPipeline | envoy/gateway/src/main/java/io/hydrosphere/serving/service/EndpointServiceImpl.java:42-71 | null for an unknown endpoint, RuntimeException when the JSON cannot be written, otherwise the envelope `EnvelopeShape` describes |
| EnvoyGatewayEndpoints.EndpointServiceImpl.SyncEndpoint | envoy/gateway/src/main/java/io/hydrosphere/serving/service/EndpointServiceImpl.java:75-82 | a failed fetch changes nothing; a successful one merges the answer into the stored definitions by name, the last of equal names winning |
| ManagerPipelines.Names | manager/src/main/java/io/hydrosphere/serving/service/PipelineServiceImpl.java:39 | the names of a list of pipelines, position by position |
| ManagerPipelines.ListingUnique | manager/src/main/java/io/hydrosphere/serving/service/PipelineServiceImpl.java:36-41 | sorting the stored pipelines by their (distinct) names leaves only one possible listing |
| ManagerPipelines.PipelineServiceImpl.constructor | manager/src/main/java/io/hydrosphere/serving/service/PipelineServiceImpl.java:14 | the store starts empty |
| ManagerPipelines.PipelineServiceImpl.Create | manager/src/main/java/io/hydrosphere/serving/service/PipelineServiceImpl.java:16-19 | the pipeline is stored under its name, replacing any earlier one, and the store stays keyed by name |
| ManagerPipelines.PipelineServiceImpl.GetPipeline | manager/src/main/java/io/hydrosphere/serving/service/PipelineServiceImpl.java:21-24 | empty exactly when no pipeline has that name, otherwise that pipeline |
| ManagerPipelines.PipelineServiceImpl.Delete | manager/src/main/java/io/hydrosphere/serving/service/PipelineServiceImpl.java:26-29 | the name is removed and nothing else |
| ManagerPipelines.PipelineServiceImpl.UpdatePipeline | manager/src/main/java/io/hydrosphere/serving/service/PipelineServiceImpl.java:31-34 | the pipeline is stored under its name, replacing any earlier one |
| ManagerPipelines.PipelineServiceImpl.Pipelines | manager/src/main/java/io/hydrosphere/serving/service/PipelineServiceImpl.java:36-41 | every stored pipeline exactly once, sorted ascending by name |
| ManagerEndpoints.EndpointServiceImpl.constructor | manager/src/main/java/io/hydrosphere/serving/service/EndpointServiceImpl.java:16-22 | the store starts empty, so every definition sits under its own name (also `envoy/manager/src/main/java/io/hydrosphere/serving/service/EndpointServiceImpl.java:23-29`) |
| ManagerEndpoints.PutMeaning | manager/src/main/java/io/hydrosphere/serving/service/EndpointServiceImpl.java:26 | a put fails exactly for a null name; otherwise the definition is found under its name, every other entry is kept, and definitions stay under their own names |
| ManagerEndpoints.EndpointServiceImpl.Create | manager/src/main/java/io/hydrosphere/serving/service/EndpointServiceImpl.java:24-27 | a null name throws a NullPointerException and stores nothing; otherwise the definition is stored under its name, replacing any earlier one; definitions stay under their own names (also `envoy/manager/src/main/java/io/hydrosphere/serving/service/EndpointServiceImpl.java:31-34`) |
| ManagerEndpoints.EndpointServiceImpl.GetDefinition | manager/src/main/java/io/hydrosphere/serving/service/EndpointServiceImpl.java:29-32 | null exactly when no definition has that name, otherwise that definition (also `envoy/manager/src/main/java/io/hydrosphere/serving/service/EndpointServiceImpl.java:36-39`) |
| ManagerEndpoints.EndpointServiceImpl.Delete | manager/src/main/java/io/hydrosphere/serving/service/EndpointServiceImpl.java:34-37 | the name is removed and nothing else; definitions stay under their own names (also `envoy/manager/src/main/java/io/hydrosphere/serving/service/EndpointServiceImpl.java:41-44`) |
| ManagerEndpoints.EndpointServiceImpl.UpdateDefinition | manager/src/main/java/io/hydrosphere/serving/service/EndpointServiceImpl.java:39-42 | the same put as `create`: a null name throws and stores nothing, otherwise the definition replaces the one under its name (also `envoy/manager/src/main/java/io/hydrosphere/serving/service/EndpointServiceImpl.java:46-49`) |
| ManagerEndpoints.EndpointServiceImpl.Definitions | manager/src/main/java/io/hydrosphere/serving/service/EndpointServiceImpl.java:44-47 | every stored definition exactly once, in the map's iteration order; each carries the name it is stored under (also `envoy/manager/src/main/java/io/hydrosphere/serving/service/EndpointServiceImpl.java:51-54`) |
| PipelinesController.ConversionRoundTrip | manager/src/main/java/io/hydrosphere/serving/controller/PipelinesManagementController.java:48-62 | converting a transfer object fails exactly when its chain is null (the `ArrayList` copy at line 60 throws); otherwise converting to a definition and back gives it back, and the other way round; both keep the name |
| PipelinesController.Transfers | manager/src/main/java/io/hydrosphere/serving/controller/PipelinesManagementController.java:43-44 | one transfer object per definition, each converting back to its definition |
| PipelinesController.PipelinesManagementController.constructor | manager/src/main/java/io/hydrosphere/serving/controller/PipelinesManagementController.java:18-19 | keeps the definition store |
| PipelinesController.PipelinesManagementController.Create | manager/src/main/java/io/hydrosphere/serving/controller/PipelinesManagementController.java:21-24 | a null chain (in the conversion) or a null name (in the store's put) throws a NullPointerException and stores nothing; otherwise the converted definition is stored under the transfer object's name |
| PipelinesController.PipelinesManagementController.Update | manager/src/main/java/io/hydrosphere/serving/controller/PipelinesManagementController.java:26-29 | the same two NullPointerExceptions as `create`; otherwise the converted definition replaces the one under the transfer object's name |
| PipelinesController.PipelinesManagementController.Delete | manager/src/main/java/io/hydrosphere/serving/controller/PipelinesManagementController.java:31-34 | the name is removed from the store and nothing else |
| PipelinesController.PipelinesManagementController.Get | manager/src/main/java/io/hydrosphere/serving/controller/PipelinesManagementController.java:36-39 | the lookup's result is discarded and nothing changes |
| PipelinesController.PipelinesManagementController.List | manager/src/main/java/io/hydrosphere/serving/controller/PipelinesManagementController.java:41-46 | one transfer object per stored definition, each converting back to it and carrying its stored name and a chain |
| Ordering.BeforeIrreflexive | manager/src/main/java/io/hydrosphere/serving/service/PipelineServiceImpl.java:39 | no name sorts before itself |
| Ordering.BeforeTotal | manager/src/main/java/io/hydrosphere/serving/service/PipelineServiceImpl.java:39 | of two different names one sorts first |
| Ordering.BeforeAsymmetric | manager/src/main/java/io/hydrosphere/serving/service/PipelineServiceImpl.java:39 | two names never sort before each other |
| Ordering.BeforeTransitive | manager/src/main/java/io/hydrosphere/serving/service/PipelineServiceImpl.java:39 | the order on names is transitive |
| Ordering.InsertContents | manager/src/main/java/io/hydrosphere/serving/service/PipelineServiceImpl.java:39 | inserting a name adds exactly that name |
| Ordering.InsertAscending | manager/src/main/java/io/hydrosphere/serving/service/PipelineServiceImpl.java:39 | inserting a new name into a sorted list keeps it sorted |
| Ordering.AscendingUnique | manager/src/main/java/io/hydrosphere/serving/service/PipelineServiceImpl.java:39 | two strictly sorted lists of the same names are equal |
| Ordering.SortedNames | manager/src/main/java/io/hydrosphere/serving/service/PipelineServiceImpl.java:38-40 | a set of names listed strictly ascending, each exactly once |
| HealthService.FoldStatusDown | envoy/proto-java/src/main/java/io/hydrosphere/serving/service/HealthServiceImpl.java:27-38 | the overall status is DOWN exactly when some report is DOWN, and UP otherwise |
| HealthService.ResponseMeaning | envoy/proto-java/src/main/java/io/hydrosphere/serving/service/HealthServiceImpl.java:24-45 | the response holds every checker's own report under its name and nothing else; its status is DOWN exactly when some checker reports DOWN and UP otherwise; no checkers answer UP with no reports |
| HealthService.Ask | envoy/proto-java/src/main/java/io/hydrosphere/serving/service/HealthServiceImpl.java:31-38 | the loop asks every checker once, folds their statuses and collects each report under its name |
| HealthService.HealthServiceImpl.constructor | envoy/proto-java/src/main/java/io/hydrosphere/serving/service/HealthServiceImpl.java:17-22 | a null checker map becomes the empty one |
| HealthService.HealthServiceImpl.Health | envoy/proto-java/src/main/java/io/hydrosphere/serving/service/HealthServiceImpl.java:24-45 | exactly one response, the one `ResponseMeaning` describes, followed by completion |
| EmptyStage.StampedShape | serving-java-spring/src/main/java/io/hydrosphere/serving/service/EmptyStageExecutor.java:25-33 | the batch keeps its length; non-object elements are untouched; every object element holds the service id under the service-name field and keeps all its other fields in place |
| EmptyStage.PutFieldIdempotent | serving-java-spring/src/main/java/io/hydrosphere/serving/service/EmptyStageExecutor.java:30 | putting the same field twice is putting it once |
| EmptyStage.StampedIdempotent | serving-java-spring/src/main/java/io/hydrosphere/serving/service/EmptyStageExecutor.java:24-34 | stamping an already stamped batch changes nothing |
| EmptyStage.EmptyStageExecutor.constructor | serving-java-spring/src/main/java/io/hydrosphere/serving/service/EmptyStageExecutor.java:16-20 | keeps the configured service name and service id |
| EmptyStage.EmptyStageExecutor.Execute | serving-java-spring/src/main/java/io/hydrosphere/serving/service/EmptyStageExecutor.java:24-34 | input that is not an array fails the cast; an array is answered by its stamped copy, whatever the action |
| Json.FieldIndex | serving-java-spring/src/main/java/io/hydrosphere/serving/service/EmptyStageExecutor.java:30 | the position of a key among an object's fields is its first occurrence, or the field count when it is absent |
| Json.PutFieldLookup | serving-java-spring/src/main/java/io/hydrosphere/serving/service/EmptyStageExecutor.java:30 | `ObjectNode.put` replaces the value of an existing key in place, or appends the key when it is new, leaving every other field where it was |
| Json.FieldIndexAbsent | serving-java-spring/src/main/java/io/hydrosphere/serving/service/EmptyStageExecutor.java:30 | a key whose index is the field count occurs in no field |
| Json.FieldIndexAt | serving-java-spring/src/main/java/io/hydrosphere/serving/service/EmptyStageExecutor.java:30 | the first field carrying a key is where the lookup finds it |
| TracingInterceptor.LookupLast | envoy/proto-java/src/main/java/io/hydrosphere/serving/service/TracingHeaderInterceptor.java:19-36 | a metadata lookup is empty exactly when no entry has the lower-cased key; otherwise it is the value of the last entry with that key |
| TracingInterceptor.LookupSkips | envoy/proto-java/src/main/java/io/hydrosphere/serving/service/TracingHeaderInterceptor.java:45-66 | entries added under other keys do not change a lookup |
| TracingInterceptor.Metadata.constructor | envoy/proto-java/src/main/java/io/hydrosphere/serving/service/TracingHeaderInterceptor.java:45 | new metadata holds no entries |
| TracingInterceptor.Metadata.Get | envoy/proto-java/src/main/java/io/hydrosphere/serving/service/TracingHeaderInterceptor.java:30-36 | a value found is one stored under the lower-cased key; nothing found means no entry has that key |
| TracingInterceptor.Metadata.Put | envoy/proto-java/src/main/java/io/hydrosphere/serving/service/TracingHeaderInterceptor.java:47-65 | an entry is appended under the lower-cased key, and reading the key back gives the value |
| TracingInterceptor.ServerContext | envoy/proto-java/src/main/java/io/hydrosphere/serving/service/TracingHeaderInterceptor.java:28-39 | the server-side context holds exactly the seven tracing keys, each with the incoming metadata's value or null |
| TracingInterceptor.CopiedAvoids | envoy/proto-java/src/main/java/io/hydrosphere/serving/service/TracingHeaderInterceptor.java:45-66 | copying adds entries only under the copied keys |
| TracingInterceptor.CopiedLookup | envoy/proto-java/src/main/java/io/hydrosphere/serving/service/TracingHeaderInterceptor.java:45-66 | after copying, a tracing key reads as the context's value when it is non-null and as the earlier metadata value otherwise |
| TracingInterceptor.TraceHeaderKeysDistinct | envoy/proto-java/src/main/java/io/hydrosphere/serving/service/TracingHeaderInterceptor.java:19-25 | the seven tracing keys stay distinct once lower-cased |
| TracingInterceptor.TracePropagates | envoy/proto-java/src/main/java/io/hydrosphere/serving/service/TracingHeaderInterceptor.java:27-70 | a tracing header received by a server call and copied into the next outgoing call reads the same as it did on the way in |
| TracingInterceptor.TracingHeaderInterceptor.constructor | envoy/proto-java/src/main/java/io/hydrosphere/serving/service/TracingHeaderInterceptor.java:10 | no outgoing call started yet |
| TracingInterceptor.TracingHeaderInterceptor.InterceptServerCall | envoy/proto-java/src/main/java/io/hydrosphere/serving/service/TracingHeaderInterceptor.java:27-39 | the call's context holds exactly the seven tracing keys with the values the incoming metadata gives them |
| TracingInterceptor.TracingHeaderInterceptor.Start | envoy/proto-java/src/main/java/io/hydrosphere/serving/service/TracingHeaderInterceptor.java:44-68 | the outgoing metadata gains an entry for every tracing key whose context value is non-null, in the source's order, and then the call starts once with that metadata |
| FeatureExtractors.Min3 | ml_runtimes/custom_scikit/src/cfepm/fe/feature_extractors.py:393-397 | the least of three values, and one of them |
| FeatureExtractors.EditDistanceSymmetric | ml_runtimes/custom_scikit/src/cfepm/fe/feature_extractors.py:381-383 | the edit distance does not depend on the order of its arguments, which is why the swap is harmless |
| FeatureExtractors.EditDistanceZero | ml_runtimes/custom_scikit/src/cfepm/fe/feature_extractors.py:381-400 | the distance is zero exactly for equal strings |
| FeatureExtractors.EditDistanceEmpty | ml_runtimes/custom_scikit/src/cfepm/fe/feature_extractors.py:386-387 | against the empty string the distance is the other string's length |
| FeatureExtractors.EditDistanceBounds | ml_runtimes/custom_scikit/src/cfepm/fe/feature_extractors.py:381-400 | the distance lies between the difference of the lengths and the longer length |
| FeatureExtractors.EditDistanceCell | ml_runtimes/custom_scikit/src/cfepm/fe/feature_extractors.py:389-398 | each cell of the dynamic-programming table is the least cost of a deletion, an insertion or a substitution from its neighbours |
| FeatureExtractors.Levenshtein | ml_runtimes/custom_scikit/src/cfepm/fe/feature_extractors.py:381-400 | the row-by-row loop returns the unit-cost insert/delete/substitute edit distance of the two strings |
| FeatureExtractors.NextRow | ml_runtimes/custom_scikit/src/cfepm/fe/feature_extractors.py:391-398 | from the edit distances of the first i characters of s1 to every prefix of s2, the inner loop builds those of the first i + 1 characters |
| FeatureExtractors.ContainsSubseq | ml_runtimes/custom_scikit/src/cfepm/fe/feature_extractors.py:493-499 | true exactly when the pattern occurs contiguously; false when it is longer than the sequence; true for an empty pattern |
| FeatureExtractors.UnionSize | ml_runtimes/custom_scikit/src/cfepm/fe/feature_extractors.py:376-378 | the union and the intersection together count each set once, so the intersection is never larger than the union |
| FeatureExtractors.SubsetSize | ml_runtimes/custom_scikit/src/cfepm/fe/feature_extractors.py:376-378 | a subset is no larger than its superset |
| FeatureExtractors.JaccardSim | ml_runtimes/custom_scikit/src/cfepm/fe/feature_extractors.py:376-378 | a ZeroDivisionError exactly when both sets are empty; otherwise the size of the intersection over the size of the union, in [0, 1] |
| FeatureExtractors.JaccardOne | ml_runtimes/custom_scikit/src/cfepm/fe/feature_extractors.py:376-378 | the similarity is symmetric and is 1 exactly when the sets are equal |
| FeatureExtractors.SameSizeSubset | ml_runtimes/custom_scikit/src/cfepm/fe/feature_extractors.py:376-378 | a subset as large as its superset is the superset |
| FeatureExtractors.SharedWordNumBounds | ml_runtimes/custom_scikit/src/cfepm/fe/feature_extractors.py:194-199 | the number of distinct shared tokens is symmetric and at most the distinct tokens of either side |
| FeatureExtractors.WordJaccard | ml_runtimes/custom_scikit/src/cfepm/fe/feature_extractors.py:205-213 | two empty token lists give 0 instead of dividing by zero; otherwise the Jaccard similarity of the token sets, in [0, 1] |
| FeatureExtractors.SetColumnJaccardIndex | ml_runtimes/custom_scikit/src/cfepm/fe/feature_extractors.py:512-519 | two empty sets give 0; otherwise the Jaccard similarity of the sets, in [0, 1] |
| FeatureExtractors.Extract | ml_runtimes/custom_scikit/src/cfepm/fe/feature_extractors.py:181-188 | a missing attribute on either item gives the fallback result without comparing; otherwise the comparison of the two attributes |
| FeatureExtractors.SpecGet | ml_runtimes/custom_scikit/src/cfepm/fe/feature_extractors.py:232 | `dict.get`: None for a missing key, otherwise the stored value, which may itself be None |
| FeatureExtractors.SharedSpecsBounds | ml_runtimes/custom_scikit/src/cfepm/fe/feature_extractors.py:230-234 | the counted keys are keys of the walked dict; a key the other dict lacks counts exactly when its value is None (`get` answers None); without None values the counted keys are those both dicts hold with equal values, the same whichever dict is walked |
| FeatureExtractors.CountShared | ml_runtimes/custom_scikit/src/cfepm/fe/feature_extractors.py:230-234 | the loop over the walked dict's keys counts exactly the keys whose value equals the other dict's `get` of that key, in any iteration order |
| FeatureExtractors.ExactlySharedSpecNum | ml_runtimes/custom_scikit/src/cfepm/fe/feature_extractors.py:222-235 | the result is the shared count over the first dict when it is no larger than the second, over the second otherwise |
| FeatureExtractors.SharedSpecCountMeaning | ml_runtimes/custom_scikit/src/cfepm/fe/feature_extractors.py:222-235 | the count is at most the size of either dict; for dicts without None values it is the number of keys both hold with equal values and does not depend on the argument order |
| FeatureExtractors.SharedSpecCountOrderMatters | ml_runtimes/custom_scikit/src/cfepm/fe/feature_extractors.py:222-235 | with a None value the order matters: `{"brand": None}` against `{"model": ["x"]}` counts 1, and 0 the other way round |
| FeatureExtractors.ExactlySharedSpecPart | ml_runtimes/custom_scikit/src/cfepm/fe/feature_extractors.py:241-250 | 0 for two empty dicts; otherwise the shared count over the larger dict's size, which lies in [0, 1] |
| FeatureExtractors.IterableColumnMismatchMeaning | ml_runtimes/custom_scikit/src/cfepm/fe/feature_extractors.py:502-509 | over the colour sets (`colour_set`, built at line 110): symmetric; 0 exactly when a side is None or empty, 1 exactly when both hold the same non-empty set of colours, -1 otherwise |
| FeatureExtractors.CompSimMeaning | ml_runtimes/custom_scikit/src/cfepm/fe/feature_extractors.py:522-555 | symmetric; 0 exactly when a side is missing or not applicable (empty, or one token among na, apply, none); 1 exactly when both joined strings are equal; -1 otherwise |
| FeatureExtractors.AttributeComparisonFE.constructor | ml_runtimes/custom_scikit/src/cfepm/fe/feature_extractors.py:531-535 | the attribute keys are kept strictly ascending, each attribute exactly once |
| FeatureExtractors.AttributeComparisonFE.ExtractByComparison | ml_runtimes/custom_scikit/src/cfepm/fe/feature_extractors.py:537-566 | one value per attribute, in sorted key order, each the comparison of that attribute's values in the two dicts |
| Matching.MatchTrue | ml_runtimes/custom_scikit/src/cfepm/matching.py:5-15 | the match is True exactly when every key has truthy, equal values in both spec dicts (so True for no keys) |
| Matching.MatchFirstDecisive | ml_runtimes/custom_scikit/src/cfepm/matching.py:6-14 | the first key that does not agree decides: None when either value is missing or falsy, False when both are present and differ |
| Matching.MatchReadsItemAfterProduct | ml_runtimes/custom_scikit/src/cfepm/matching.py:7-11 | the item's value for a key is never consulted when the product's value is falsy: items that differ only there match alike |
| PyValues.SliceBound | ml_runtimes/custom_scikit/src/ebay_product_db.py:48-50 | a slice bound resolves into the sequence, never past its end |
| PyValues.DictOfKeys | ml_runtimes/custom_scikit/src/ebay_product_db.py:108-110 | a dict built from pairs has exactly the pairs' keys (also `ml_runtimes/custom_scikit/src/cfepm/rest.py:132-135`) |
| PyValues.DictOfLast | ml_runtimes/custom_scikit/src/ebay_product_db.py:108-110 | each key holds the value of the last pair with that key (also `ml_runtimes/custom_scikit/src/cfepm/rest.py:132-135`) |
| ItemModel.SpecDictOf | ml_runtimes/custom_scikit/src/cfepm/data/model.py:19-20 | a ValueError exactly when the specification is not a dict; otherwise the dict itself |
| ItemModel.Cells | ml_runtimes/custom_scikit/src/cfepm/data/model.py:10-15 | a KeyError exactly when a column is missing; otherwise the cells in column order |
| ItemModel.FromRowTuple | ml_runtimes/custom_scikit/src/cfepm/data/model.py:33-34 | always NotImplementedError, whatever the row |
| ItemModel.Item.constructor | ml_runtimes/custom_scikit/src/cfepm/data/model.py:17-30 | title, specifications and description are stored and every derived field starts as None |
| ItemModel.NewItem | ml_runtimes/custom_scikit/src/cfepm/data/model.py:17-30 | a ValueError exactly when the specification is not a dict; otherwise a new item holding the arguments, with every derived field None |
| ItemModel.ProductFromRow | ml_runtimes/custom_scikit/src/cfepm/data/model.py:10-11 | an item from the epidtitle, productidentifier and productdetails columns; KeyError for a missing column, ValueError for specifications that are not a dict |
| ItemModel.ItemFromRow | ml_runtimes/custom_scikit/src/cfepm/data/model.py:14-15 | an item from the itemtitle and itemspecifics columns with no description; KeyError for a missing column, ValueError for specifications that are not a dict |
| Facade.ChunkLengthBounds | ml_runtimes/custom_scikit/src/cfepm/facade.py:110-112 | the chunk length is the least n whose n chunks of chunk_num hold the list |
| Facade.ChunkedFlatten | ml_runtimes/custom_scikit/src/cfepm/facade.py:113-114 | the chunks put back together are the original list |
| Facade.ChunkedSizes | ml_runtimes/custom_scikit/src/cfepm/facade.py:113-114 | every chunk but the last has exactly the chunk length; the last has between one and that many |
| Facade.ChunkedCount | ml_runtimes/custom_scikit/src/cfepm/facade.py:113-114 | a list that fits in k chunks is cut into at most k |
| Facade.ChunksMeaning | ml_runtimes/custom_scikit/src/cfepm/facade.py:108-114 | for a positive chunk_num: an empty list is a ValueError; otherwise at most chunk_num chunks that concatenate to the list, each but the last of length ceil(len / chunk_num) |
| Facade.CeilingUnique | ml_runtimes/custom_scikit/src/cfepm/facade.py:110-112 | the length the code computes is ceil(len / chunk_num) |
| Facade.MulLess | ml_runtimes/custom_scikit/src/cfepm/facade.py:110-112 | multiplying by a positive chunk_num keeps a strict order |
| Facade.FilterNan | ml_runtimes/custom_scikit/src/cfepm/facade.py:102-105 | lists pass through; None and NaN become None; anything else is kept; the result is never NaN |
| Facade.FilterNanIdempotent | ml_runtimes/custom_scikit/src/cfepm/facade.py:102-105 | filtering twice is filtering once; filtering changes a value exactly when it is NaN |
| Facade.ProductMatchingFacade.constructor | ml_runtimes/custom_scikit/src/cfepm/facade.py:15-26 | an unset or non-positive max_workers falls back to the processor count; no batch has gone to the pipeline yet |
| Facade.ProductMatchingFacade.Pairs | ml_runtimes/custom_scikit/src/cfepm/facade.py:49 | every product paired with the item, in product order |
| Facade.ProductMatchingFacade.GetTopMatches | ml_runtimes/custom_scikit/src/cfepm/facade.py:44-60 | top_n below one answers [] without touching the pipeline; a missing Title is a KeyError and non-dict specifications a ValueError; otherwise exactly one batch of all pairs goes to the pipeline and its answer is returned, or a ZeroDivisionError when there are no products |
| EbayProductDb.ItemFilenameRoundTrip | ml_runtimes/custom_scikit/src/ebay_product_db.py:44-54 | every made file name is an item file name, and extracting the id from it gives the id back |
| EbayProductDb.ItemFilenameOfId | ml_runtimes/custom_scikit/src/ebay_product_db.py:44-54 | conversely, every item file name has at least ten characters and is the name made from its extracted id |
| EbayProductDb.ScannedIdsMeaning | ml_runtimes/custom_scikit/src/ebay_product_db.py:14-18 | an id counts as already persisted exactly when a regular file with its item file name is in the directory |
| EbayProductDb.ItemPersister.constructor | ml_runtimes/custom_scikit/src/ebay_product_db.py:10-21 | the persisted ids are those scanned from the directory, and the counter starts at zero |
| EbayProductDb.ItemPersister.GetStats | ml_runtimes/custom_scikit/src/ebay_product_db.py:39-42 | one entry, items_persisted, holding the counter |
| EbayProductDb.ItemPersister.Persist | ml_runtimes/custom_scikit/src/ebay_product_db.py:23-37 | a non-dict changes nothing; a dict without ItemID is a KeyError that changes nothing; otherwise the item is written under its file name, str(ItemID) joins the persisted ids, the counter grows by one, and is_persisted then holds for that id |
| EbayProductDb.NameValue | ml_runtimes/custom_scikit/src/ebay_product_db.py:105-108 | a Name/Value entry gives its pair exactly when it is a dict with both keys and a hashable name; KeyError for a missing key, TypeError otherwise |
| EbayProductDb.NameValues | ml_runtimes/custom_scikit/src/ebay_product_db.py:107-110 | the list's pairs, in order, exactly when every entry is well formed |
| EbayProductDb.NameValuesError | ml_runtimes/custom_scikit/src/ebay_product_db.py:107-110 | a failure is the error of the first ill-formed entry |
| EbayProductDb.GetSpecsAsDictMeaning | ml_runtimes/custom_scikit/src/ebay_product_db.py:95-110 | missing or empty ItemSpecifics or NameValueList gives {}; a single entry gives its one pair; a list gives a dict with exactly the listed names, each bound to the value of its last entry |
| EbayProductDb.ForceList | ml_runtimes/custom_scikit/src/ebay_product_db.py:149-152 | a list is returned as is; anything else is wrapped in a one-element list |
| EbayProductDb.ForceListIdempotent | ml_runtimes/custom_scikit/src/ebay_product_db.py:149-152 | forcing twice is forcing once; forcing changes a value exactly when it is not a list |
| Rest.Response.constructor | ml_runtimes/custom_scikit/src/cfepm/rest.py:25-66 | a response starts with no body and status 200 |
| Rest.BadRequest | ml_runtimes/custom_scikit/src/cfepm/rest.py:158-162 | the message becomes the body and the status becomes 400 |
| Rest.DropUnderscores | ml_runtimes/custom_scikit/src/cfepm/rest.py:107 | removing the digit-group underscores that int() accepts leaves only digits |
| Rest.DropUnderscoresOfDigits | ml_runtimes/custom_scikit/src/cfepm/rest.py:107 | text of plain digits is left as it is |
| Rest.TrimOfText | ml_runtimes/custom_scikit/src/cfepm/rest.py:107 | text without surrounding white space is not changed by trimming |
| Rest.ParsePyIntOfText | ml_runtimes/custom_scikit/src/cfepm/rest.py:104-108 | the decimal text of any integer parses back to that integer |
| Rest.ParsePyIntKeepsSeparators | ml_runtimes/custom_scikit/src/cfepm/rest.py:104-110 | a numeral preceded or followed by one of the separators U+001C to U+001F is a ValueError for int(), so the request is answered 400, while a space in the same place is skipped |
| Rest.ParsePyIntUnskipped | ml_runtimes/custom_scikit/src/cfepm/rest.py:107 | a text that starts or ends with a character that is neither white space `int()` skips nor a digit (and does not start with a sign) is a ValueError |
| Rest.ParsePyIntIgnoresSpace | ml_runtimes/custom_scikit/src/cfepm/rest.py:104-108 | white space around the number does not change what int() reads |
| Rest.TrimStartSpaceEnd | ml_runtimes/custom_scikit/src/cfepm/rest.py:107 | a trailing space is removed by trimming |
| Rest.ClampProb | ml_runtimes/custom_scikit/src/cfepm/rest.py:112-120 | NaN stays NaN; any other value ends in [0, 1]: values inside are kept, values below become 0 and values above become 1 |
| Rest.ClampProbIdempotent | ml_runtimes/custom_scikit/src/cfepm/rest.py:112-120 | clamping twice is clamping once; clamping keeps a value exactly when it is NaN or finite and within [0, 1] |
| Rest.CheckMatchRequestMeaning | ml_runtimes/custom_scikit/src/cfepm/rest.py:75-122 | a match request is accepted exactly when it has a body that parses to an object with a string Title, string-to-string ItemSpecifics when present, an integer n when given and a float minprob when given; the accepted arguments are the body, n and the clamped minprob; no body gives "Empty request body" |
| Rest.AllStrings | ml_runtimes/custom_scikit/src/cfepm/rest.py:96-98 | true exactly when every value of the specifications is a string |
| Rest.ProductMatchingResource.constructor | ml_runtimes/custom_scikit/src/cfepm/rest.py:63-64 | the resource holds the facades by category |
| Rest.ProductMatchingResource.OnPost | ml_runtimes/custom_scikit/src/cfepm/rest.py:66-126 | an unknown category answers 404 before the body is read; a rejected request answers 400 with its message and leaves the facade alone; an accepted one calls get_top_matches with the arguments and answers its JSON, with the ValueError of missing ItemSpecifics and the ZeroDivisionError of an empty product set surfacing as errors (also `ml_runtimes/custom_scikit/src/cfepm/facade.py:44-60`) |
| Rest.ProductMatchingResource.ValidateMatch | ml_runtimes/custom_scikit/src/cfepm/rest.py:75-122 | an accepted request yields its arguments and leaves the response alone; a rejected one yields nothing and answers 400 with the message |
| Rest.CheckRow | ml_runtimes/custom_scikit/src/cfepm/rest.py:45-51 | no problem exactly when every column is allowed and every value is a string or null; otherwise the message for some offending cell |
| Rest.RowMaps | ml_runtimes/custom_scikit/src/cfepm/rest.py:44-52 | the rows' dicts, one per row, in order |
| Rest.ClassifierAnswerResource.constructor | ml_runtimes/custom_scikit/src/cfepm/rest.py:22-23 | the resource holds the classifier; nothing is classified yet |
| Rest.ClassifierAnswerResource.OnPost | ml_runtimes/custom_scikit/src/cfepm/rest.py:25-59 | no body, a body that does not parse or a root that is not an array answers 400; an empty array answers [] without classifying; a non-dict row is an AttributeError; a bad cell answers 400 and classifies nothing; otherwise all rows are classified in one call and the results are the body |
| Rest.IdPair | ml_runtimes/custom_scikit/src/cfepm/rest.py:132-135 | a category gives its (id, category) pair exactly when it is a dict with a hashable id |
| Rest.IdPairs | ml_runtimes/custom_scikit/src/cfepm/rest.py:132-135 | the categories' pairs, in order, exactly when every category has a hashable id |
| Rest.CategoryResource.constructor | ml_runtimes/custom_scikit/src/cfepm/rest.py:130-135 | the list and the index are stored as given |
| Rest.CategoryResource.OnGet | ml_runtimes/custom_scikit/src/cfepm/rest.py:141-145 | the body is the JSON of the category list and the status is unchanged |
| Rest.NewCategoryResource | ml_runtimes/custom_scikit/src/cfepm/rest.py:130-139 | the index is built before validation, so a category without an id fails first; then a ValueError exactly when some category has no truthy label; otherwise the list and its index by id |
| Rest.CategoryIndex | ml_runtimes/custom_scikit/src/cfepm/rest.py:132-135 | the index holds exactly the categories' ids, each bound to the last category with that id |
| ReleaseDocs.RelinkMeaning | docs/src/python/releaseDocs.py:22-46 | replacing a path by a link succeeds unless a directory or a dangling link is in the way, and then changes that one path only |
| ReleaseDocs.WriteVersionsMeaning | docs/src/python/releaseDocs.py:67-69 | `open(path, "w")` writes the file a link leads to and keeps the link; it fails exactly on a directory there or on a dangling link whose target has no folder; otherwise only the target changes, and reading the path back gives the written list |
| ReleaseDocs.SortedOfMeaning | docs/src/python/releaseDocs.py:56-63 | the sorted listing is strictly ascending and holds exactly the names of the list |
| ReleaseDocs.VersionsAfterMeaning | docs/src/python/releaseDocs.py:56-63 | the new list is strictly descending with no duplicates, holds exactly the old names and the release, and grows by one exactly when the release was not listed |
| ReleaseDocs.DryRunWritesNothing | docs/src/python/releaseDocs.py:22-69 | a dry run leaves the file system unchanged, and fails only when reading an existing versions file fails |
| ReleaseDocs.LinkStepUnder | docs/src/python/releaseDocs.py:17-19 | a release already inside the web site folder is not linked |
| ReleaseDocs.ReleasePublishes | docs/src/python/releaseDocs.py:16-37 | a completed run outside a dry run leaves latest linked to the release, paradox.json linked to the release's, and the release linked into the site unless it lies inside; a link at versions.json stays, and the file read through it lists the release unless the release link has just replaced that file (also lines 49-80) |
| ReleaseDocs.FileSystem.constructor | docs/src/python/releaseDocs.py:11-14 | the file system holds the given entries |
| ReleaseDocs.DocReleaseManager.constructor | docs/src/python/releaseDocs.py:11-14 | the web site, the release and the dry-run flag are stored |
| ReleaseDocs.DocReleaseManager.ReplaceWithLink | docs/src/python/releaseDocs.py:22-46 | the file system changes exactly as the relink defines, and is unchanged when it fails |
| ReleaseDocs.DocReleaseManager.SetLatest | docs/src/python/releaseDocs.py:30-37 | outside a dry run, website/latest becomes a link to the release |
| ReleaseDocs.DocReleaseManager.UpdateParadox | docs/src/python/releaseDocs.py:39-47 | outside a dry run, the site's paradox.json becomes a link to the release's |
| ReleaseDocs.DocReleaseManager.UpdateVersions | docs/src/python/releaseDocs.py:49-70 | with no versions file the list is the release alone; otherwise the old list deduplicated, with the release added when absent, sorted newest first; written only outside a dry run, through a link at versions.json to its target, failing on a directory or a missing folder |
| ReleaseDocs.DocReleaseManager.LinkRelease | docs/src/python/releaseDocs.py:16-28 | nothing for a release under the web site; otherwise, outside a dry run, website/basename(release) becomes a link to the release |
| ReleaseDocs.DocReleaseManager.Release | docs/src/python/releaseDocs.py:72-80 | the argument only adds the warning; the four steps run in order under the constructor's flag and stop at the first that fails; the final file system is the one the steps define, with versions.json written through a link |

## Left out

- The network, gRPC and HTTP transport, Spring and falcon wiring, and configuration classes: they are framework plumbing. A send is an appended event; a fetch or an exchange is an input or a function parameter.
- Concurrency: `CompletableFuture`, thread pools, `ConcurrentHashMap` atomicity and the scheduled refresh. Every operation runs in sequence, and a `DeferredResult` timeout is an explicit call.
- MD5 (`UUID.nameUUIDFromBytes`), random UUIDs, clocks, Jackson, protobuf and Python's `json`: these are foreign primitives, so they are function parameters or opaque values. Only the layout of a name-based UUID's text is modelled.
- The Docker client calls of the Swarm driver: they need a live daemon. Only the mapping of runtimes to services and of tasks to instances is modelled.
- `HealthCheckController` and the `envoy/manager` controllers: they only delegate or probe. `EmptyStreamObserver` is a no-op.
- The reflection-based loading of the stage executor: the executor is a parameter.
- The `ServiceType` enumeration is not part of this model's sources. Its constant names are a parameter.
- The gateways' copy of an endpoint definition (`Definitions.EndpointDefinition`) always has a name and a chain: the manager's store holds only definitions stored under their own name with a chain (`ManagerEndpoints.StoredUnderOwnName`), so every definition a gateway fetches has both.
- GatewayController.Execute: the source passes a `Pipeline` where an `EndpointDefinition` is expected, which does not compile; the model runs the pipeline's `invocationChain`, the only chain the call can mean.
- EnvoyMeshManager.StaticHost and EnvoyMeshManager.InstanceHost: a service without an id would make `getServiceId().equals` throw and would give a virtual host a null name; the model writes the id as "null" and treats it as another node. Both run only over registered services, which always have an id (`EnvoyMeshManagerService.Valid`).
- ManagerPipelines.PipelineServiceImpl: pipeline names are non-null strings. A null name would make the `ConcurrentHashMap` throw a NullPointerException in `create`, `getPipeline`, `delete` and `updatePipeline`, but no caller in the modelled sources passes one.
- The two `Runtime` classes (clouddriver and service.runtime) are merged into one record.
- Java strings compare by UTF-16 code units; the model compares by code points, which differs only outside the Basic Multilingual Plane.
- Java `HashMap` and Python `set` iteration order are not modelled; contracts hold for any order. Python dict order is kept where the source relies on it.
- `SwarmRuntimeDeployService.scale`: its body is an empty TODO, so there is nothing to model.
- Python float arithmetic and rounding: Jaccard ratios, shared-spec parts and clamped probabilities are exact reals. Float parsing is a parameter.
- Python's loose equality (`1 == True == 1.0`) and NaN dictionary keys are not modelled: values compare structurally.
- `int()` of non-ASCII digits is not modelled; only ASCII digits, signs, underscores and the surrounding white space `int()` skips are.
- Repeated query parameters are not modelled: each parameter has one value.
- `JaccardSharedSpec*FE`, `ParsedSpecFE`, `SpecValInTitle`, the fastText/cosine extractors, and `parse_specs`/`tokenize` with the colour and number extraction: they are numeric or library-bound feature code outside this model.
- `ProductMatchingFacade._preprocess_db` and `classify_pairs_df`: they are pandas/sklearn pipeline calls. The pipeline's `transform` and the classifier are parameters.
- `generate_items`, `load_item`, `get_price`, `to_model_item`, `EbayJsonFilesBasedProductDB`, `CategoryResource.read_from_json_filepath`, `make_app` and `main`: they are file I/O and wiring.
- `ItemPersister`: `os.makedirs` and the JSON formatting of a written file are not modelled. A written file is the item value under its file name.
- Logging and the timing measurements of `get_top_matches` are not modelled. Their only observable effect is the ZeroDivisionError on an empty product set, which is modelled.
- Rest.CheckRow: it names some offending cell, not necessarily the first in the request's key order, because dictionary key order is not modelled.
- Rest.ClassifierAnswerResource.OnPost: the 400 message names some offending cell of the first bad row, for the same reason.
- ReleaseDocs: symbolic-link chains, relative paths and `realpath` are not modelled. A link is followed one step, both when reading and when writing `versions.json`; paths are absolute and normalised, and `versions.json` holds strings.
- ReleaseDocs.Release: the logging is not modelled. The warning of a dry-run argument is a returned message.
