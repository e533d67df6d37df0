/**
 * The runtime registry's records. The manager carries two versions of these classes
 * (`clouddriver.Runtime` and `service.runtime.Runtime`, and likewise for instances); the
 * model uses one record holding the union of their fields, since the callers use both.
 */
module Runtimes {
  import opened Common

  datatype InstanceStatus = Up | Down

  /** A deployed model-serving service. */
  datatype Runtime = Runtime(
    id: string,
    name: string,
    scale: int,
    runtimeType: Option<string>,
    modelName: Option<string>,
    modelVersion: Option<string>,
    environments: Option<map<string, string>>,
    state: Option<string>,
    statusText: Option<string>,
    imageName: string,
    httpPort: int,
    appHttpPort: int)

  /** One running task of a runtime; `host` stays null when no network address was found. */
  datatype RuntimeInstance = RuntimeInstance(
    id: string,
    runtimeId: string,
    host: Option<string>,
    httpPort: int,
    status: InstanceStatus,
    statusText: Option<string>)

  /** Field defaults of the Java records. */
  const DefaultHttpPort: int := 8080
  const DefaultAppHttpPort: int := 9090

  function NameOf(r: Runtime): string { r.name }
  function IdOf(r: Runtime): string { r.id }
  function InstanceIdOf(p: RuntimeInstance): string { p.id }
}
