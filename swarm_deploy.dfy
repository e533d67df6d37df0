/**
 * The Docker Swarm driver (`SwarmRuntimeDeployService`): how a runtime becomes a Swarm
 * service specification (labels, container environment, replicas, network), how Swarm
 * tasks become runtime instances, and how a Swarm service is read back as a runtime. The
 * Docker client is a collaborator: its answers are inputs.
 */
module SwarmDeploy {
  import opened Common
  import opened Runtimes

  const LabelRuntimeType: string := "runtimeType"
  const LabelModelName: string := "modelName"
  const LabelModelVersion: string := "modelVersion"
  const LabelHydroServingType: string := "hydroServing"
  const RuntimeType: string := "runtime"
  const EnvEnvoyHttpPort: string := "ENVOY_HTTP_PORT"
  const LabelHttpPort: string := "httpPort"
  const LabelAppHttpPort: string := "appHttpPort"

  /** The environment entry every container gets last. */
  const ServiceTypeEntry: string := "SERVICE_TYPE=runtime"

  /** Java's default for an unset `int` field. */
  const DefaultScale: int := 0

  /** The parts of a Swarm service specification that `deploy` fills. */
  datatype ServiceSpec = ServiceSpec(
    name: string,
    labels: map<string, Option<string>>,
    network: Option<string>,
    replicas: int,
    image: string,
    env: seq<string>,
    containerLabels: map<string, Option<string>>)

  /** `Character.isWhitespace`. */
  predicate IsJavaWhitespace(c: char)
  {
    c == ' ' || ('\t' <= c <= '\r') || ('\U{1C}' <= c <= '\U{1F}') || c == '\U{1680}' ||
    ('\U{2000}' <= c <= '\U{2006}') || ('\U{2008}' <= c <= '\U{200A}') ||
    c == '\U{2028}' || c == '\U{2029}' || c == '\U{205F}' || c == '\U{3000}'
  }

  /** Spring's `StringUtils.hasText`: not null and holding a character that is not whitespace. */
  predicate HasText(s: Option<string>)
  {
    s.Some? && exists i :: 0 <= i < |s.value| && !IsJavaWhitespace(s.value[i])
  }

  /** Spring's `CollectionUtils.isEmpty` on the runtime's environment. */
  predicate HasEnvironment(runtime: Runtime)
  {
    runtime.environments.Some? && |runtime.environments.value| > 0
  }

  /** The `httpPort` label: the ENVOY_HTTP_PORT environment entry when there is one, else the runtime's HTTP port. */
  function HttpPortLabel(runtime: Runtime): (r: string)
  {
    if HasEnvironment(runtime) && EnvEnvoyHttpPort in runtime.environments.value
    then runtime.environments.value[EnvEnvoyHttpPort]
    else IntText(runtime.httpPort)
  }

  /** The labels `deploy` puts on the service and on its container. */
  function Labels(runtime: Runtime): (r: map<string, Option<string>>)
  {
    map[LabelHttpPort := Some(HttpPortLabel(runtime)),
        LabelHydroServingType := Some(RuntimeType),
        LabelRuntimeType := runtime.runtimeType,
        LabelModelName := runtime.modelName,
        LabelModelVersion := runtime.modelVersion,
        LabelAppHttpPort := Some(IntText(runtime.appHttpPort))]
  }

  /** The `key=value` entries of an environment, in the iteration order `keys`. */
  function EnvEntries(env: map<string, string>, keys: seq<string>): (r: seq<string>)
    requires forall k :: k in keys ==> k in env
  {
    seq(|keys|, i requires 0 <= i < |keys| => keys[i] + "=" + env[keys[i]])
  }

  /** The network the service is attached to: the configured one when it has text, else none. */
  function ServiceNetwork(networkName: Option<string>): (r: Option<string>)
  {
    if HasText(networkName) then networkName else None
  }

  /** The specification `deploy` builds, for the environment iteration order `keys`. */
  function SpecOf(runtime: Runtime, networkName: Option<string>, keys: seq<string>): (r: ServiceSpec)
    requires HasEnvironment(runtime) ==> forall k :: k in keys ==> k in runtime.environments.value
  {
    var entries := if HasEnvironment(runtime) then EnvEntries(runtime.environments.value, keys) else [];
    ServiceSpec(runtime.name, Labels(runtime), ServiceNetwork(networkName), runtime.scale, runtime.imageName,
      entries + [ServiceTypeEntry], Labels(runtime))
  }

  /** The iteration orders of the runtime's environment, or the empty one when it is empty or null. */
  ghost predicate EnvOrder(runtime: Runtime, keys: seq<string>)
  {
    if HasEnvironment(runtime) then
      Distinct(keys) && |keys| == |runtime.environments.value| &&
      forall k :: k in keys <==> k in runtime.environments.value
    else keys == []
  }

  /**
   * A deployed service carries the runtime's name, image and scale; the service and its
   * container share one label map holding `hydroServing=runtime`, the runtime type, model
   * name and version, the application port and the HTTP port, which is ENVOY_HTTP_PORT
   * when the environment has it; and the container environment lists each entry as
   * `key=value`, followed by `SERVICE_TYPE=runtime`.
   */
  lemma SpecShape(runtime: Runtime, networkName: Option<string>, keys: seq<string>)
    requires EnvOrder(runtime, keys)
    ensures var s := SpecOf(runtime, networkName, keys);
      s.name == runtime.name && s.image == runtime.imageName && s.replicas == runtime.scale &&
      s.containerLabels == s.labels &&
      s.labels.Keys == {LabelHttpPort, LabelHydroServingType, LabelRuntimeType, LabelModelName, LabelModelVersion, LabelAppHttpPort} &&
      s.labels[LabelHydroServingType] == Some("runtime") &&
      s.labels[LabelRuntimeType] == runtime.runtimeType &&
      s.labels[LabelModelName] == runtime.modelName &&
      s.labels[LabelModelVersion] == runtime.modelVersion &&
      s.labels[LabelAppHttpPort] == Some(IntText(runtime.appHttpPort)) &&
      (HasEnvironment(runtime) && "ENVOY_HTTP_PORT" in runtime.environments.value ==>
        s.labels[LabelHttpPort] == Some(runtime.environments.value["ENVOY_HTTP_PORT"])) &&
      (!(HasEnvironment(runtime) && "ENVOY_HTTP_PORT" in runtime.environments.value) ==>
        s.labels[LabelHttpPort] == Some(IntText(runtime.httpPort))) &&
      |s.env| == |keys| + 1 && s.env[|keys|] == "SERVICE_TYPE=runtime" &&
      (forall i :: 0 <= i < |keys| ==> s.env[i] == keys[i] + "=" + runtime.environments.value[keys[i]]) &&
      (HasText(networkName) <==> s.network.Some?) && (s.network.Some? ==> s.network == networkName)
  {
  }

  /** The Swarm update status of a service; Docker leaves it out until the service is updated. */
  datatype UpdateStatus = UpdateStatus(state: Option<string>, message: Option<string>)

  /** What Docker reports about a service. */
  datatype SwarmService = SwarmService(
    id: string,
    name: string,
    image: string,
    env: Option<seq<string>>,
    labels: Option<map<string, Option<string>>>,
    updateStatus: Option<UpdateStatus>,
    replicas: Option<int>)

  /** The service Docker reports for a deployed specification. */
  function ServiceOf(spec: ServiceSpec, id: string, updateStatus: Option<UpdateStatus>): (s: SwarmService)
  {
    SwarmService(id, spec.name, spec.image, Some(spec.env), Some(spec.labels), updateStatus, Some(spec.replicas))
  }

  /** The pieces before each `c` of `s` and the piece after the last, empty ones included. */
  function Pieces(s: string, c: char): (r: seq<string>)
    ensures |r| >= 1
    decreases |s|
  {
    var i := IndexOf(s, c, 0);
    if i == -1 then [s] else [s[..i]] + Pieces(s[i + 1..], c)
  }

  /** The pieces without the empty ones at the end. */
  function DropTrailingEmpty(ps: seq<string>): (r: seq<string>)
    ensures |r| <= |ps| && r == ps[..|r|]
  {
    if ps == [] || ps[|ps| - 1] != "" then ps else DropTrailingEmpty(ps[..|ps| - 1])
  }

  /**
   * `s.split(c)` for a character that is not a regular-expression operator: the whole text
   * when `c` does not occur, otherwise the pieces with the trailing empty ones removed.
   */
  function JavaSplit(s: string, c: char): (r: seq<string>)
  {
    if IndexOf(s, c, 0) == -1 then [s] else DropTrailingEmpty(Pieces(s, c))
  }

  /** A text without `c` splits into itself alone. */
  lemma JavaSplitWithout(s: string, c: char)
    requires forall i :: 0 <= i < |s| ==> s[i] != c
    ensures JavaSplit(s, c) == [s]
  {
  }

  /** `k:v` with no further `:` splits into its key and value. */
  lemma JavaSplitPair(k: string, v: string)
    requires ':' !in k && ':' !in v && v != ""
    ensures JavaSplit(k + ":" + v, ':') == [k, v]
  {
    var s := k + ":" + v;
    assert s[|k|] == ':';
    assert forall i :: 0 <= i < |k| ==> s[i] == k[i];
    assert IndexOf(s, ':', 0) == |k|;
    assert s[|k| + 1..] == v;
    assert s[..|k|] == k;
    assert Pieces(s, ':') == [k, v];
  }

  /**
   * The environment `map` reads back from the container entries: each entry is split on `:`;
   * an entry that splits into nothing is skipped, one without a `:` throws (it has no second
   * piece), and a repeated key throws from `toMap`. The first failure wins.
   */
  function EnvMap(entries: seq<string>): (r: Result<map<string, string>>)
    decreases |entries|
  {
    if entries == [] then Ok(map[])
    else
      var acc := EnvMap(entries[..|entries| - 1]);
      if acc.Err? then acc
      else
        var parts := JavaSplit(entries[|entries| - 1], ':');
        if |parts| == 0 then acc
        else if |parts| == 1 then Err("ArrayIndexOutOfBoundsException")
        else if parts[0] in acc.value then Err("IllegalStateException")
        else Ok(acc.value[parts[0] := parts[1]])
  }

  /** One entry without `:` is enough for reading the environment back to fail. */
  lemma {:induction false} EnvMapFailsWithoutColon(entries: seq<string>, i: int)
    requires 0 <= i < |entries| && ':' !in entries[i]
    ensures EnvMap(entries).Err?
    decreases |entries|
  {
    if i < |entries| - 1 {
      EnvMapFailsWithoutColon(entries[..|entries| - 1], i);
    } else {
      JavaSplitWithout(entries[i], ':');
    }
  }

  /** The label value under `k`, null when the key is absent. */
  function LabelValue(labels: map<string, Option<string>>, k: string): (r: Option<string>)
  {
    if k in labels then labels[k] else None
  }

  /** `Integer.valueOf` of a label value: null and malformed text both throw. */
  function PortOf(text: Option<string>): (r: Result<int>)
  {
    if text.Some? && ParseJavaInt(text.value).Some? then Ok(ParseJavaInt(text.value).value)
    else Err("NumberFormatException")
  }

  /** `Long.intValue`: the low 32 bits, as a signed value. */
  function IntValue(v: int): (r: int)
    ensures -0x8000_0000 <= r < 0x8000_0000
    ensures -0x8000_0000 <= v < 0x8000_0000 ==> r == v
  {
    var low := v % 0x1_0000_0000;
    if low >= 0x8000_0000 then low - 0x1_0000_0000 else low
  }

  /** The fields `map` reads from the labels: runtime type, model name and version, and the two ports. */
  datatype LabelFields = LabelFields(runtimeType: Option<string>, modelName: Option<string>, modelVersion: Option<string>, httpPort: int, appHttpPort: int)

  function ReadLabels(labels: Option<map<string, Option<string>>>): (r: Result<LabelFields>)
  {
    if labels.None? then Ok(LabelFields(None, None, None, DefaultHttpPort, DefaultAppHttpPort))
    else
      var m := labels.value;
      var httpPort := PortOf(LabelValue(m, LabelHttpPort));
      if httpPort.Err? then Err(httpPort.error)
      else
        var appHttpPort := PortOf(LabelValue(m, LabelAppHttpPort));
        if appHttpPort.Err? then Err(appHttpPort.error)
        else Ok(LabelFields(LabelValue(m, LabelRuntimeType), LabelValue(m, LabelModelName), LabelValue(m, LabelModelVersion),
          httpPort.value, appHttpPort.value))
  }

  /**
   * The labels `deploy` writes read back as the runtime's own type, model name and version
   * and application port, and as its HTTP port when the environment does not override it.
   */
  lemma LabelsReadBack(runtime: Runtime)
    requires -0x8000_0000 <= runtime.httpPort < 0x8000_0000
    requires -0x8000_0000 <= runtime.appHttpPort < 0x8000_0000
    requires !(HasEnvironment(runtime) && EnvEnvoyHttpPort in runtime.environments.value)
    ensures ReadLabels(Some(Labels(runtime))) ==
      Ok(LabelFields(runtime.runtimeType, runtime.modelName, runtime.modelVersion, runtime.httpPort, runtime.appHttpPort))
  {
    ParseJavaIntOfText(runtime.httpPort);
    ParseJavaIntOfText(runtime.appHttpPort);
  }

  /**
   * `map(service)`: the runtime a Swarm service reads back as. The environment is read
   * first, then the labels, then the update status, which throws when Docker left it out;
   * the scale is the replica count cut to an `int`, or 0 for a service that is not
   * replicated.
   */
  function MapService(s: SwarmService): (r: Result<Runtime>)
  {
    var env := if s.env.Some? then EnvMap(s.env.value) else Ok(map[]);
    if env.Err? then Err(env.error)
    else
      var fields := ReadLabels(s.labels);
      if fields.Err? then Err(fields.error)
      else if s.updateStatus.None? then Err("NullPointerException")
      else
        var f := fields.value;
        Ok(Runtime(s.id, s.name, if s.replicas.Some? then IntValue(s.replicas.value) else DefaultScale,
          f.runtimeType, f.modelName, f.modelVersion, Some(env.value),
          s.updateStatus.value.state, s.updateStatus.value.message, s.image, f.httpPort, f.appHttpPort))
  }

  /**
   * A service as `deploy` specifies it cannot be read back: its environment ends with
   * `SERVICE_TYPE=runtime`, which holds no `:`, so splitting it yields no value.
   */
  lemma DeployedServiceUnreadable(runtime: Runtime, networkName: Option<string>, keys: seq<string>, id: string, status: Option<UpdateStatus>)
    requires EnvOrder(runtime, keys)
    ensures MapService(ServiceOf(SpecOf(runtime, networkName, keys), id, status)) == Err("ArrayIndexOutOfBoundsException") ||
            MapService(ServiceOf(SpecOf(runtime, networkName, keys), id, status)) == Err("IllegalStateException")
  {
    var spec := SpecOf(runtime, networkName, keys);
    var env := spec.env;
    SpecEnvEndsWithServiceType(runtime, networkName, keys);
    ServiceTypeEntryHasNoColon();
    EnvMapFailsWithoutColon(env, |env| - 1);
    EnvMapErrors(env);
    MapServiceEnvFailure(ServiceOf(spec, id, status));
  }

  /** The last environment entry of a deployed service is `SERVICE_TYPE=runtime`. */
  lemma SpecEnvEndsWithServiceType(runtime: Runtime, networkName: Option<string>, keys: seq<string>)
    requires EnvOrder(runtime, keys)
    ensures var env := SpecOf(runtime, networkName, keys).env; |env| >= 1 && env[|env| - 1] == ServiceTypeEntry
  {
  }

  /** `SERVICE_TYPE=runtime` holds no `:`. */
  lemma ServiceTypeEntryHasNoColon()
    ensures ':' !in ServiceTypeEntry
  {
  }

  /** An environment that cannot be read back fails the whole service with its exception. */
  lemma MapServiceEnvFailure(s: SwarmService)
    requires s.env.Some? && EnvMap(s.env.value).Err?
    ensures MapService(s) == Err(EnvMap(s.env.value).error)
  {
  }

  /** Reading an environment back fails only with one of the two exceptions above. */
  lemma {:induction false} EnvMapErrors(entries: seq<string>)
    ensures EnvMap(entries).Err? ==>
      EnvMap(entries).error == "ArrayIndexOutOfBoundsException" || EnvMap(entries).error == "IllegalStateException"
    decreases |entries|
  {
    if entries != [] {
      EnvMapErrors(entries[..|entries| - 1]);
    }
  }

  /** `getRuntime(name)` over Docker's answer: null for no service, else the first one read back; failures are wrapped. */
  function GetRuntime(listing: Result<seq<SwarmService>>): (r: Result<Option<Runtime>>)
    ensures r.Err? <==> listing.Err? || (listing.value != [] && MapService(listing.value[0]).Err?)
    ensures r.Err? ==> r.error == "RuntimeException"
    ensures listing.Ok? && listing.value == [] ==> r == Ok(None)
    ensures listing.Ok? && listing.value != [] && MapService(listing.value[0]).Ok? ==> r == Ok(Some(MapService(listing.value[0]).value))
  {
    if listing.Err? then Err("RuntimeException")
    else if listing.value == [] then Ok(None)
    else
      var runtime := MapService(listing.value[0]);
      if runtime.Err? then Err("RuntimeException") else Ok(Some(runtime.value))
  }

  /** Every service of a listing read back, in order, or the first failure. */
  function MapAll(services: seq<SwarmService>): (r: Result<seq<Runtime>>)
    ensures r.Ok? <==> forall i :: 0 <= i < |services| ==> MapService(services[i]).Ok?
    ensures r.Ok? ==> |r.value| == |services| && forall i :: 0 <= i < |services| ==> r.value[i] == MapService(services[i]).value
    decreases |services|
  {
    if services == [] then Ok([])
    else
      var init := MapAll(services[..|services| - 1]);
      var last := MapService(services[|services| - 1]);
      if init.Err? then init
      else if last.Err? then Err(last.error)
      else Ok(init.value + [last.value])
  }

  /** A Swarm task's attachment to a network, with the addresses it was given there. */
  datatype Attachment = Attachment(network: string, addresses: seq<string>)

  /** What Docker reports about a task. */
  datatype Task = Task(
    id: string,
    serviceId: string,
    state: Option<string>,
    message: Option<string>,
    attachments: seq<Attachment>,
    labels: map<string, string>)

  /** `"running".equalsIgnoreCase(state)`, with Java's per-character case-insensitive comparison. */
  predicate IsRunning(state: Option<string>)
  {
    var running := "running";
    state.Some? && |state.value| == |running| &&
    forall i :: 0 <= i < |running| ==> SameIgnoringCase(state.value[i], running[i])
  }

  /**
   * Whether `c` equals the lower-case ASCII letter `l` ignoring case: `l` itself, its
   * upper case, and, for `i`, the two Turkish i's whose case mapping reaches `I` or `i`.
   */
  predicate SameIgnoringCase(c: char, l: char)
    requires 'a' <= l <= 'z'
  {
    c == l || c == (l as int - 32) as char || (l == 'i' && (c == '\U{130}' || c == '\U{131}'))
  }

  /** The network instances are looked up on: the configured one when it has text, else "bridge". */
  function InstanceNetwork(networkName: Option<string>): (r: string)
  {
    if HasText(networkName) then networkName.value else "bridge"
  }

  /** The host of a task: the first address of the last attachment on `network`; an attachment there without addresses throws. */
  function HostOf(attachments: seq<Attachment>, network: string): (r: Result<Option<string>>)
    decreases |attachments|
  {
    if attachments == [] then Ok(None)
    else
      var init := HostOf(attachments[..|attachments| - 1], network);
      var last := attachments[|attachments| - 1];
      if init.Err? then init
      else if last.network != network then init
      else if last.addresses == [] then Err("IndexOutOfBoundsException")
      else Ok(Some(last.addresses[0]))
  }

  /**
   * A task has no host exactly when none of its attachments is on the network; otherwise
   * its host is the first address of the last attachment that is.
   */
  lemma {:induction false} HostOfLastAttachment(attachments: seq<Attachment>, network: string)
    ensures HostOf(attachments, network) == Ok(None) <==> forall i :: 0 <= i < |attachments| ==> attachments[i].network != network
    ensures HostOf(attachments, network).Ok? && HostOf(attachments, network).value.Some? ==>
      exists i :: 0 <= i < |attachments| && attachments[i].network == network && attachments[i].addresses != [] &&
        HostOf(attachments, network).value.value == attachments[i].addresses[0] &&
        forall j :: i < j < |attachments| ==> attachments[j].network != network
    decreases |attachments|
  {
    if attachments != [] {
      var init := attachments[..|attachments| - 1];
      HostOfLastAttachment(init, network);
      var n := |attachments| - 1;
      if attachments[n].network != network && HostOf(init, network).Ok? && HostOf(init, network).value.Some? {
        var i :| 0 <= i < |init| && init[i].network == network && init[i].addresses != [] &&
          HostOf(init, network).value.value == init[i].addresses[0] &&
          forall j :: i < j < |init| ==> init[j].network != network;
        assert attachments[i] == init[i];
      }
      if HostOf(attachments, network) == Ok(None) {
        forall i | 0 <= i < |attachments| ensures attachments[i].network != network {
          if i < n {
            assert attachments[i] == init[i];
          }
        }
      }
    }
  }

  /** The instance of one task: its ids, message, host, HTTP port (the label when it has text) and status. */
  function TaskInstance(t: Task, network: string): (r: Result<RuntimeInstance>)
  {
    var host := HostOf(t.attachments, network);
    if host.Err? then Err(host.error)
    else
      var portLabel := if LabelHttpPort in t.labels then Some(t.labels[LabelHttpPort]) else None;
      var port := if HasText(portLabel) then PortOf(portLabel) else Ok(DefaultHttpPort);
      if port.Err? then Err(port.error)
      else Ok(RuntimeInstance(t.id, t.serviceId, host.value, port.value, if IsRunning(t.state) then Up else Down, t.message))
  }

  /**
   * An instance is UP exactly when its task's state is "running" ignoring case; it keeps
   * the Swarm task's id, service id and message; its port is the label's when the label has text
   * and the default otherwise.
   */
  lemma TaskInstanceRules(t: Task, network: string)
    requires TaskInstance(t, network).Ok?
    ensures var p := TaskInstance(t, network).value;
      (p.status == Up <==> IsRunning(t.state)) &&
      p.id == t.id && p.runtimeId == t.serviceId && p.statusText == t.message &&
      p.host == HostOf(t.attachments, network).value &&
      (!(LabelHttpPort in t.labels && HasText(Some(t.labels[LabelHttpPort]))) ==> p.httpPort == DefaultHttpPort) &&
      (LabelHttpPort in t.labels && HasText(Some(t.labels[LabelHttpPort])) ==>
        Some(p.httpPort) == ParseJavaInt(t.labels[LabelHttpPort]))
  {
  }

  /** Every task of a listing as an instance, in order, or the first failure. */
  function InstancesOf(tasks: seq<Task>, network: string): (r: Result<seq<RuntimeInstance>>)
    ensures r.Ok? <==> forall i :: 0 <= i < |tasks| ==> TaskInstance(tasks[i], network).Ok?
    ensures r.Ok? ==> |r.value| == |tasks| && forall i :: 0 <= i < |tasks| ==> r.value[i] == TaskInstance(tasks[i], network).value
    decreases |tasks|
  {
    if tasks == [] then Ok([])
    else
      var init := InstancesOf(tasks[..|tasks| - 1], network);
      var last := TaskInstance(tasks[|tasks| - 1], network);
      if init.Err? then init
      else if last.Err? then Err(last.error)
      else Ok(init.value + [last.value])
  }

  class SwarmRuntimeDeployService {
    /** The configured Swarm network, possibly null or blank. */
    const networkName: Option<string>

    constructor (networkName: Option<string>)
      ensures this.networkName == networkName
    {
      this.networkName := networkName;
    }

    /** The loop that lists the environment as `key=value` entries, in the map's iteration order `keys`. */
    method EnvList(runtime: Runtime) returns (env: seq<string>, ghost keys: seq<string>)
      ensures EnvOrder(runtime, keys)
      ensures env == (if HasEnvironment(runtime) then EnvEntries(runtime.environments.value, keys) else [])
    {
      env := [];
      keys := [];
      if runtime.environments.Some? && |runtime.environments.value| > 0 {
        var m := runtime.environments.value;
        var ks := KeysOf(m);
        var i := 0;
        while i < |ks|
          invariant 0 <= i <= |ks|
          invariant env == EnvEntries(m, ks[..i])
        {
          env := env + [ks[i] + "=" + m[ks[i]]];
          i := i + 1;
        }
        assert ks[..i] == ks;
        keys := ks;
      }
    }

    /**
     * `deploy(runtime)` with Docker's `createService`: the specification handed to Docker,
     * and the new service's id or the wrapped failure.
     */
    method Deploy(runtime: Runtime, createService: ServiceSpec -> Result<string>)
      returns (spec: ServiceSpec, id: Result<string>, ghost keys: seq<string>)
      ensures EnvOrder(runtime, keys)
      ensures spec == SpecOf(runtime, networkName, keys)
      ensures createService(spec).Ok? ==> id == createService(spec)
      ensures createService(spec).Err? ==> id == Err("RuntimeException")
    {
      var env;
      env, keys := EnvList(runtime);
      env := env + [ServiceTypeEntry];
      var httpPort: string;
      if runtime.environments.Some? && |runtime.environments.value| > 0 {
        if EnvEnvoyHttpPort in runtime.environments.value {
          httpPort := runtime.environments.value[EnvEnvoyHttpPort];
        } else {
          httpPort := IntText(runtime.httpPort);
        }
      } else {
        httpPort := IntText(runtime.httpPort);
      }
      var labels: map<string, Option<string>> := map[LabelHttpPort := Some(httpPort)];
      labels := labels[LabelHydroServingType := Some(RuntimeType)];
      labels := labels[LabelRuntimeType := runtime.runtimeType];
      labels := labels[LabelModelName := runtime.modelName];
      labels := labels[LabelModelVersion := runtime.modelVersion];
      labels := labels[LabelAppHttpPort := Some(IntText(runtime.appHttpPort))];
      var network: Option<string> := None;
      if HasText(networkName) {
        network := networkName;
      }
      spec := ServiceSpec(runtime.name, labels, network, runtime.scale, runtime.imageName, env, labels);
      var created := createService(spec);
      if created.Err? {
        id := Err("RuntimeException");
      } else {
        id := created;
      }
    }

    /** `runtimeList()` over Docker's answer: every service read back, any failure wrapped. */
    method RuntimeList(listing: Result<seq<SwarmService>>) returns (r: Result<seq<Runtime>>)
      ensures listing.Err? ==> r == Err("RuntimeException")
      ensures listing.Ok? && MapAll(listing.value).Err? ==> r == Err("RuntimeException")
      ensures listing.Ok? && MapAll(listing.value).Ok? ==> r == MapAll(listing.value)
    {
      if listing.Err? {
        return Err("RuntimeException");
      }
      var services := listing.value;
      var runtimes: seq<Runtime> := [];
      var i := 0;
      while i < |services|
        invariant 0 <= i <= |services|
        invariant MapAll(services[..i]) == Ok(runtimes)
      {
        assert services[..i + 1][..i] == services[..i];
        var runtime := MapService(services[i]);
        if runtime.Err? {
          assert services[..i + 1][i] == services[i];
          NoRecovery(services, i + 1);
          return Err("RuntimeException");
        }
        runtimes := runtimes + [runtime.value];
        i := i + 1;
      }
      assert services[..i] == services;
      r := Ok(runtimes);
    }

    /**
     * `runtimeInstances(name)` over Docker's task listing: every task as an instance, on the
     * configured network or "bridge", any failure wrapped.
     */
    method RuntimeInstances(listing: Result<seq<Task>>) returns (r: Result<seq<RuntimeInstance>>)
      ensures listing.Err? ==> r == Err("RuntimeException")
      ensures listing.Ok? && InstancesOf(listing.value, InstanceNetwork(networkName)).Err? ==> r == Err("RuntimeException")
      ensures listing.Ok? && InstancesOf(listing.value, InstanceNetwork(networkName)).Ok? ==>
        r == InstancesOf(listing.value, InstanceNetwork(networkName))
    {
      if listing.Err? {
        return Err("RuntimeException");
      }
      var network := if HasText(networkName) then networkName.value else "bridge";
      var tasks := listing.value;
      var instances: seq<RuntimeInstance> := [];
      var i := 0;
      while i < |tasks|
        invariant 0 <= i <= |tasks|
        invariant InstancesOf(tasks[..i], network) == Ok(instances)
      {
        assert tasks[..i + 1][..i] == tasks[..i];
        var instance := TaskInstance(tasks[i], network);
        if instance.Err? {
          assert tasks[..i + 1][i] == tasks[i];
          assert !(forall k :: 0 <= k < |tasks| ==> TaskInstance(tasks[k], network).Ok?);
          return Err("RuntimeException");
        }
        instances := instances + [instance.value];
        i := i + 1;
      }
      assert tasks[..i] == tasks;
      r := Ok(instances);
    }
  }

  /** A listing with a service that cannot be read back cannot be read back as a whole. */
  lemma NoRecovery(services: seq<SwarmService>, n: int)
    requires 0 < n <= |services| && MapService(services[n - 1]).Err?
    ensures MapAll(services).Err?
  {
  }
}
