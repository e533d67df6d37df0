/**
 * The manager's runtime REST surface (`RuntimeManagementController`): creating a runtime
 * injects the manager's address into its environment before deploying it; the reads are
 * answered from the cached registry. The deploy service is a collaborator whose calls are
 * recorded in order.
 */
module RuntimeController {
  import opened Common
  import opened Runtimes
  import opened CachedMeshManagement

  /** The runtime as `create` hands it to the deploy service. */
  function WithManagerAddress(runtime: Runtime, exposedHost: string, exposedPort: int): (r: Runtime)
  {
    var env := if runtime.environments.Some? then runtime.environments.value else map[];
    runtime.(environments := Some(env["MANAGER_HOST" := exposedHost]["MANAGER_PORT" := IntText(exposedPort)]))
  }

  /**
   * `create` always leaves an environment holding MANAGER_HOST and MANAGER_PORT with the
   * manager's exposed address; every other entry it had survives unchanged, no other entry
   * appears, and no other field of the runtime changes.
   */
  lemma ManagerAddressInjected(runtime: Runtime, exposedHost: string, exposedPort: int)
    ensures var r := WithManagerAddress(runtime, exposedHost, exposedPort);
      r.environments.Some? &&
      r.environments.value["MANAGER_HOST"] == exposedHost &&
      r.environments.value["MANAGER_PORT"] == IntText(exposedPort) &&
      (forall k :: k in r.environments.value <==>
        k == "MANAGER_HOST" || k == "MANAGER_PORT" || (runtime.environments.Some? && k in runtime.environments.value)) &&
      (forall k :: runtime.environments.Some? && k in runtime.environments.value && k != "MANAGER_HOST" && k != "MANAGER_PORT" ==>
        r.environments.value[k] == runtime.environments.value[k]) &&
      r.(environments := runtime.environments) == runtime
  {
  }

  /** A port given to `create` can be read back from the injected MANAGER_PORT entry. */
  lemma ManagerPortReadable(runtime: Runtime, exposedHost: string, exposedPort: int)
    requires -0x8000_0000 <= exposedPort < 0x8000_0000
    ensures ParseJavaInt(WithManagerAddress(runtime, exposedHost, exposedPort).environments.value["MANAGER_PORT"]) == Some(exposedPort)
  {
    ParseJavaIntOfText(exposedPort);
  }

  class RuntimeManagementController {
    const meshManagementService: CachedMeshManagementService
    /** The manager's address as configured for runtimes to call back. */
    const exposedHost: string
    const exposedPort: int
    /** The runtimes handed to `deploy`, in order. */
    var deployed: seq<Runtime>
    /** The runtime ids handed to `deleteRuntime`, in order. */
    var deletedIds: seq<string>

    constructor (meshManagementService: CachedMeshManagementService, exposedHost: string, exposedPort: int)
      ensures this.meshManagementService == meshManagementService
      ensures this.exposedHost == exposedHost && this.exposedPort == exposedPort
      ensures deployed == [] && deletedIds == []
    {
      this.meshManagementService := meshManagementService;
      this.exposedHost := exposedHost;
      this.exposedPort := exposedPort;
      deployed := [];
      deletedIds := [];
    }

    /** POST: deploy the runtime with the manager's address in its environment. */
    method Create(runtime: Runtime)
      modifies this
      ensures deployed == old(deployed) + [WithManagerAddress(runtime, exposedHost, exposedPort)]
      ensures deletedIds == old(deletedIds)
    {
      var env: map<string, string>;
      if runtime.environments.None? {
        env := map[];
      } else {
        env := runtime.environments.value;
      }
      env := env["MANAGER_HOST" := exposedHost];
      env := env["MANAGER_PORT" := IntText(exposedPort)];
      deployed := deployed + [runtime.(environments := Some(env))];
    }

    /** GET: the registry's runtime list, unchanged. */
    method List() returns (rs: seq<Runtime>)
      ensures |rs| == |meshManagementService.runtimeMap|
      ensures forall r :: r in rs <==> r in meshManagementService.runtimeMap.Values
    {
      rs := meshManagementService.RuntimeList();
    }

    /** GET `/{runtimeName}`: the runtime, or `IllegalArgumentException` (HTTP 400) for an unknown name. */
    function Get(runtimeName: string): (r: Result<Runtime>)
      reads this, meshManagementService
      ensures r.Err? <==> runtimeName !in meshManagementService.runtimeMap
      ensures r.Err? ==> r.error == "IllegalArgumentException"
      ensures r.Ok? ==> r.value == meshManagementService.runtimeMap[runtimeName]
    {
      match meshManagementService.GetRuntimeByName(runtimeName)
      case Some(runtime) => Ok(runtime)
      case None => Err("IllegalArgumentException")
    }

    /** GET `/instances/{runtimeName}`: the registry's instances of that service name. */
    function Instances(runtimeName: string): (r: seq<RuntimeInstance>)
      reads this, meshManagementService
      ensures meshManagementService.Valid() ==> r == []
    {
      meshManagementService.GetRuntimeInstancesByServiceName(runtimeName)
    }

    /** DELETE `/{runtimeName}`: delete the named runtime by its id when it is known, else nothing. */
    method Delete(runtimeName: string)
      modifies this
      ensures runtimeName in meshManagementService.runtimeMap ==>
        deletedIds == old(deletedIds) + [meshManagementService.runtimeMap[runtimeName].id]
      ensures runtimeName !in meshManagementService.runtimeMap ==> deletedIds == old(deletedIds)
      ensures deployed == old(deployed)
    {
      var runtime := meshManagementService.GetRuntimeByName(runtimeName);
      if runtime.Some? {
        deletedIds := deletedIds + [runtime.value.id];
      }
    }
  }
}
