/**
 * The AIX360 explainer component of an InferenceService
 * (pkg/apis/serving/v1beta1/explainer_aix360.go): the container it runs,
 * with its command-line arguments, and the defaults it fills in.
 *
 * Helpers defined elsewhere in the repository (`utils.IncludesArg`,
 * `constants.DefaultPredictorServiceName`, `setResourceRequirementDefaults`)
 * are not part of this model; they are the functions of a `Helpers` value.
 */
module AixExplainer {
  import opened Wrappers
  import opened TextOps

  // Values of the pkg/constants entries this component uses.
  const ArgumentModelName := "--model_name"
  const ArgumentHttpPort := "--http_port"
  const InferenceServiceDefaultHttpPort := "8080"
  const ArgumentPredictorHost := "--predictor_host"
  const ArgumentWorkers := "--workers"
  const DefaultModelLocalMountPath := "/mnt/models"
  const InferenceServiceContainerName := "kserve-container"

  // The flags spelled out in explainer_aix360.go itself.
  const StorageUriFlag := "--storage_uri"
  const ExplainerTypeFlag := "--explainer_type"

  datatype InferenceServiceProtocol = ProtocolV1 | ProtocolV2

  /** The name and namespace of the InferenceService's metadata. */
  datatype ObjectMeta = ObjectMeta(name: string, namespace: string)

  /** `ComponentExtensionSpec.ContainerConcurrency`, a nil-able int64. */
  datatype ComponentExtensionSpec = ComponentExtensionSpec(containerConcurrency: Option<int>)

  /** `config.Explainers.AIXExplainer` of the InferenceServicesConfig. */
  datatype AIXExplainerConfig = AIXExplainerConfig(containerImage: string, defaultImageVersion: string)

  /** Resource limits and requests, by resource name. */
  datatype ResourceRequirements = ResourceRequirements(limits: map<string, string>, requests: map<string, string>)

  /** The fields of the `v1.Container` that `GetContainer` fills. */
  datatype Container = Container(image: string, name: string, resources: ResourceRequirements, args: seq<string>)

  /** Helpers defined outside explainer_aix360.go, taken as given functions. */
  datatype Helpers = Helpers(
    includesArg: (seq<string>, string) -> bool,
    defaultPredictorServiceName: string -> string,
    setResourceRequirementDefaults: ResourceRequirements -> ResourceRequirements)

  // ---------------------------------------------------------------------
  // The argument list, as a specification

  /** The flag/value pairs of the config map, for `keys` in the given order. */
  function ConfigArgs(keys: seq<string>, config: map<string, string>): seq<string>
    requires forall k :: k in keys ==> k in config
  {
    if keys == [] then []
    else
      var last := keys[|keys| - 1];
      ConfigArgs(keys[..|keys| - 1], config) + ["--" + last, config[last]]
  }

  lemma {:induction false} ConfigArgsAt(keys: seq<string>, config: map<string, string>)
    requires forall k :: k in keys ==> k in config
    ensures |ConfigArgs(keys, config)| == 2 * |keys|
    ensures forall i :: 0 <= i < |keys| ==>
      ConfigArgs(keys, config)[2 * i] == "--" + keys[i] &&
      ConfigArgs(keys, config)[2 * i + 1] == config[keys[i]]
  {
    if keys != [] {
      var init := keys[..|keys| - 1];
      ConfigArgsAt(init, config);
      forall i | 0 <= i < |init| ensures keys[i] == init[i] { }
    }
  }

  /** The keys of a map, in some order. */
  ghost function Enumerate(keys: set<string>): (r: seq<string>)
    ensures multiset(r) == multiset(keys)
    decreases keys
  {
    if keys == {} then []
    else
      var k :| k in keys;
      assert multiset(keys) == multiset{k} + multiset(keys - {k});
      [k] + Enumerate(keys - {k})
  }

  /** The keys of the config map, in the order `sort.Strings` gives. */
  ghost function SortedKeys(config: map<string, string>): (keys: seq<string>)
    ensures forall k :: k in keys ==> k in config
    ensures |keys| == |config|
  {
    var keys := SortStrings(Enumerate(config.Keys));
    assert |keys| == |multiset(keys)| == |multiset(config.Keys)| == |config.Keys|;
    assert forall k :: k in keys ==> k in config by {
      forall k | k in keys ensures k in config {
        assert k in multiset(keys);
      }
    }
    keys
  }

  /** Each config key occurs exactly once, and the keys strictly ascend. */
  lemma SortedKeysSpec(config: map<string, string>)
    ensures StrictlyAscending(SortedKeys(config))
    ensures |SortedKeys(config)| == |config|
    ensures forall k :: k in SortedKeys(config) <==> k in config
  {
    var keys := SortedKeys(config);
    assert multiset(keys) == multiset(config.Keys);
    SortedSetIsStrictlyAscending(keys, config.Keys);
    assert |keys| == |multiset(keys)| == |multiset(config.Keys)| == |config.Keys|;
    forall k ensures k in keys <==> k in config {
      assert k in keys <==> k in multiset(keys);
      assert k in config <==> k in multiset(config.Keys);
    }
  }

  /** Whichever sorting puts the keys of `config` in order, it yields `SortedKeys(config)`. */
  lemma SortedKeysUnique(keys: seq<string>, config: map<string, string>)
    requires Sorted(keys)
    requires multiset(keys) == multiset(config.Keys)
    ensures keys == SortedKeys(config)
  {
    SortedPermutationsEqual(keys, SortedKeys(config));
  }

  function PredictorHostArgs(userArgs: seq<string>, meta: ObjectMeta, h: Helpers): seq<string> {
    if !h.includesArg(userArgs, ArgumentPredictorHost) then
      [ArgumentPredictorHost, h.defaultPredictorServiceName(meta.name) + "." + meta.namespace]
    else []
  }

  function WorkersArgs(userArgs: seq<string>, ext: ComponentExtensionSpec, h: Helpers): seq<string> {
    if !h.includesArg(userArgs, ArgumentWorkers) && ext.containerConcurrency.Some? then
      [ArgumentWorkers, FormatInt(ext.containerConcurrency.value)]
    else []
  }

  function StorageArgs(storageUri: string): seq<string> {
    if storageUri != "" then [StorageUriFlag, DefaultModelLocalMountPath] else []
  }

  /**
   * Everything before the config pairs: the mandatory entries, the optional
   * pairs, and the explainer type.
   */
  function HeadArgs(
    explainerType: string, storageUri: string, userArgs: seq<string>,
    meta: ObjectMeta, ext: ComponentExtensionSpec, h: Helpers): seq<string>
  {
    [ArgumentModelName, meta.name, ArgumentHttpPort, InferenceServiceDefaultHttpPort]
    + PredictorHostArgs(userArgs, meta, h)
    + WorkersArgs(userArgs, ext, h)
    + StorageArgs(storageUri)
    + [ExplainerTypeFlag, explainerType]
  }

  /** The argument list `GetContainer` builds from the spec's fields. */
  ghost function ExplainerArgs(
    explainerType: string, storageUri: string, config: map<string, string>, userArgs: seq<string>,
    meta: ObjectMeta, ext: ComponentExtensionSpec, h: Helpers): seq<string>
  {
    HeadArgs(explainerType, storageUri, userArgs, meta, ext, h)
    + ConfigArgs(SortedKeys(config), config)
    + userArgs
  }

  /** Where `--explainer_type` stands: after the four mandatory entries and the optional pairs. */
  function ExplainerTypeIndex(storageUri: string, userArgs: seq<string>, ext: ComponentExtensionSpec, h: Helpers): nat {
    4
    + (if !h.includesArg(userArgs, ArgumentPredictorHost) then 2 else 0)
    + (if !h.includesArg(userArgs, ArgumentWorkers) && ext.containerConcurrency.Some? then 2 else 0)
    + (if storageUri != "" then 2 else 0)
  }

  /**
   * Model name and port always open the argument list; the predictor host
   * pair follows exactly when the user's arguments lack that flag.
   */
  lemma HeadArgsPredictorHost(
    explainerType: string, storageUri: string, userArgs: seq<string>,
    meta: ObjectMeta, ext: ComponentExtensionSpec, h: Helpers)
    ensures var hd := HeadArgs(explainerType, storageUri, userArgs, meta, ext, h);
      var hostFlag := !h.includesArg(userArgs, ArgumentPredictorHost);
      && |hd| >= 6
      && hd[..4] == [ArgumentModelName, meta.name, ArgumentHttpPort, InferenceServiceDefaultHttpPort]
      && (hd[4] == ArgumentPredictorHost <==> hostFlag)
      && (hostFlag ==> hd[5] == h.defaultPredictorServiceName(meta.name) + "." + meta.namespace)
  {
  }

  /**
   * The workers pair, right after the mandatory entries and the predictor
   * host pair, appears exactly when the user's arguments lack that flag and a
   * container concurrency is set; its value is the number in decimal and
   * parses back to it.
   */
  lemma HeadArgsWorkers(
    explainerType: string, storageUri: string, userArgs: seq<string>,
    meta: ObjectMeta, ext: ComponentExtensionSpec, h: Helpers)
    ensures var hd := HeadArgs(explainerType, storageUri, userArgs, meta, ext, h);
      var w := 4 + (if !h.includesArg(userArgs, ArgumentPredictorHost) then 2 else 0);
      var workersFlag := !h.includesArg(userArgs, ArgumentWorkers) && ext.containerConcurrency.Some?;
      && |hd| >= w + 2
      && (hd[w] == ArgumentWorkers <==> workersFlag)
      && (workersFlag ==> hd[w + 1] == FormatInt(ext.containerConcurrency.value))
      && (workersFlag ==> ParseInt(hd[w + 1]) == ext.containerConcurrency)
  {
    var hd := HeadArgs(explainerType, storageUri, userArgs, meta, ext, h);
    var w := 4 + |PredictorHostArgs(userArgs, meta, h)|;
    var r3 := StorageArgs(storageUri) + [ExplainerTypeFlag, explainerType];
    var r2 := WorkersArgs(userArgs, ext, h) + r3;
    assert hd == [ArgumentModelName, meta.name, ArgumentHttpPort, InferenceServiceDefaultHttpPort]
      + PredictorHostArgs(userArgs, meta, h) + r2;
    assert hd[w..] == r2;
    assert r3[0] in {StorageUriFlag, ExplainerTypeFlag};
    if ext.containerConcurrency.Some? {
      FormatIntRoundTrip(ext.containerConcurrency.value);
    }
  }

  /**
   * The storage pair, right after the predictor host and workers pairs,
   * appears exactly when a storage URI is set, and names the local model
   * mount path rather than the URI.
   */
  lemma HeadArgsStorage(
    explainerType: string, storageUri: string, userArgs: seq<string>,
    meta: ObjectMeta, ext: ComponentExtensionSpec, h: Helpers)
    ensures var hd := HeadArgs(explainerType, storageUri, userArgs, meta, ext, h);
      var s := 4 + (if !h.includesArg(userArgs, ArgumentPredictorHost) then 2 else 0)
                 + (if !h.includesArg(userArgs, ArgumentWorkers) && ext.containerConcurrency.Some? then 2 else 0);
      && |hd| >= s + 2
      && (hd[s] == StorageUriFlag <==> storageUri != "")
      && (storageUri != "" ==> hd[s + 1] == DefaultModelLocalMountPath)
  {
  }

  /** The explainer type pair closes the head, right after the optional pairs. */
  lemma HeadArgsEnd(
    explainerType: string, storageUri: string, userArgs: seq<string>,
    meta: ObjectMeta, ext: ComponentExtensionSpec, h: Helpers)
    ensures var hd := HeadArgs(explainerType, storageUri, userArgs, meta, ext, h);
      var t := ExplainerTypeIndex(storageUri, userArgs, ext, h);
      && |hd| == t + 2
      && hd[t] == ExplainerTypeFlag && hd[t + 1] == explainerType
  {
  }

  /** The head of `ExplainerArgs` is `HeadArgs`, so the layout above holds of it. */
  lemma ExplainerArgsHead(
    explainerType: string, storageUri: string, config: map<string, string>, userArgs: seq<string>,
    meta: ObjectMeta, ext: ComponentExtensionSpec, h: Helpers)
    ensures var args := ExplainerArgs(explainerType, storageUri, config, userArgs, meta, ext, h);
      var hd := HeadArgs(explainerType, storageUri, userArgs, meta, ext, h);
      |hd| <= |args| && args[..|hd|] == hd
  {
  }

  /**
   * The tail of the argument list: `--explainer_type` and the type, then
   * every config key in `SortedKeys` order (strictly ascending, each key
   * once: `SortedKeysSpec`), as `--key` followed by its value, and finally
   * the user's own arguments verbatim; nothing else.
   */
  lemma ExplainerArgsTail(
    explainerType: string, storageUri: string, config: map<string, string>, userArgs: seq<string>,
    meta: ObjectMeta, ext: ComponentExtensionSpec, h: Helpers)
    ensures var args := ExplainerArgs(explainerType, storageUri, config, userArgs, meta, ext, h);
      var t := ExplainerTypeIndex(storageUri, userArgs, ext, h);
      var keys := SortedKeys(config);
      && |args| == t + 2 + 2 * |config| + |userArgs|
      && args[t] == ExplainerTypeFlag && args[t + 1] == explainerType
      && (forall i :: 0 <= i < |keys| ==>
            args[t + 2 + 2 * i] == "--" + keys[i] && args[t + 3 + 2 * i] == config[keys[i]])
      && args[t + 2 + 2 * |config|..] == userArgs
  {
    var args := ExplainerArgs(explainerType, storageUri, config, userArgs, meta, ext, h);
    var t := ExplainerTypeIndex(storageUri, userArgs, ext, h);
    var keys := SortedKeys(config);
    SortedKeysSpec(config);
    ConfigArgsAt(keys, config);
    HeadArgsEnd(explainerType, storageUri, userArgs, meta, ext, h);
    var hd := HeadArgs(explainerType, storageUri, userArgs, meta, ext, h);
    var cfg := ConfigArgs(keys, config);
    assert args == hd + cfg + userArgs;
    assert args[t] == hd[t] && args[t + 1] == hd[t + 1];
    assert args[t + 2..t + 2 + |cfg|] == cfg;
    forall i | 0 <= i < |keys|
      ensures args[t + 2 + 2 * i] == "--" + keys[i] && args[t + 3 + 2 * i] == config[keys[i]]
    {
      assert args[t + 2 + 2 * i] == cfg[2 * i];
      assert args[t + 3 + 2 * i] == cfg[2 * i + 1];
    }
  }

  lemma KeysInMap(keys: seq<string>, config: map<string, string>)
    requires multiset(keys) == multiset(config.Keys)
    ensures forall k :: k in keys ==> k in config
  {
    forall k | k in keys ensures k in config {
      assert k in multiset(keys);
    }
  }

  /** The keys of `config`, in whatever order ranging over the map yields them. */
  method CollectKeys(config: map<string, string>) returns (keys: seq<string>)
    ensures multiset(keys) == multiset(config.Keys)
  {
    keys := [];
    var rest := config.Keys;
    while rest != {}
      invariant rest <= config.Keys
      invariant multiset(keys) + multiset(rest) == multiset(config.Keys)
      decreases |rest|
    {
      var k :| k in rest;
      assert multiset(rest) == multiset(rest - {k}) + multiset{k};
      keys := keys + [k];
      rest := rest - {k};
    }
  }

  /** Appends `--key` and the key's value to `args`, for each of `keys` in turn. */
  method AppendConfigArgs(args: seq<string>, keys: seq<string>, config: map<string, string>)
    returns (out: seq<string>)
    requires forall k :: k in keys ==> k in config
    ensures out == args + ConfigArgs(keys, config)
  {
    out := args;
    var i := 0;
    while i < |keys|
      invariant 0 <= i <= |keys|
      invariant out == args + ConfigArgs(keys[..i], config)
    {
      assert keys[..i + 1][..i] == keys[..i];
      out := out + ["--" + keys[i], config[keys[i]]];
      i := i + 1;
    }
    assert keys[..i] == keys;
  }

  // ---------------------------------------------------------------------
  // The component

  /**
   * `AIXExplainerSpec`: the explainer type plus the fields shared by all
   * explainers. `name`, `args` and `resources` belong to the `v1.Container`
   * embedded in `ExplainerExtensionSpec`, so `s.Container.Args` and `s.Args`
   * are the same field `args`.
   */
  class AIXExplainerSpec {
    var explainerType: string
    var storageUri: string
    var runtimeVersion: Option<string>
    var config: map<string, string>
    var name: string
    var args: seq<string>
    var resources: ResourceRequirements

    constructor (
      explainerType: string, storageUri: string, runtimeVersion: Option<string>,
      config: map<string, string>, name: string, args: seq<string>, resources: ResourceRequirements)
      ensures this.explainerType == explainerType && this.storageUri == storageUri
      ensures this.runtimeVersion == runtimeVersion && this.config == config
      ensures this.name == name && this.args == args && this.resources == resources
    {
      this.explainerType := explainerType;
      this.storageUri := storageUri;
      this.runtimeVersion := runtimeVersion;
      this.config := config;
      this.name := name;
      this.args := args;
      this.resources := resources;
    }

    /** The storage URI, absent exactly when it is the empty string. */
    function GetStorageUri(): (uri: Option<string>)
      reads this
      ensures uri.None? <==> storageUri == ""
      ensures uri.Some? ==> uri.value == storageUri
    {
      if storageUri == "" then None else Some(storageUri)
    }

    /** The AIX explainer always speaks the V1 protocol. */
    function GetProtocol(): (protocol: InferenceServiceProtocol)
      ensures protocol == ProtocolV1
    {
      ProtocolV1
    }

    /** The AIX explainer never serves multiple models. */
    function IsMMS(isvcConfig: AIXExplainerConfig): (mms: bool)
      ensures !mms
    {
      false
    }

    /**
     * The container the explainer runs: the configured image tagged with the
     * runtime version, the fixed container name, the spec's resources, and
     * the argument list `ExplainerArgs` describes. The runtime version must
     * be set (`Default` sets it); the source dereferences it unchecked.
     */
    method GetContainer(meta: ObjectMeta, extensions: ComponentExtensionSpec, isvcConfig: AIXExplainerConfig, h: Helpers)
      returns (container: Container)
      requires runtimeVersion.Some?
      ensures container.image == isvcConfig.containerImage + ":" + runtimeVersion.value
      ensures container.name == InferenceServiceContainerName
      ensures container.resources == resources
      ensures container.args == ExplainerArgs(explainerType, storageUri, config, args, meta, extensions, h)
    {
      var cmd := [ArgumentModelName, meta.name, ArgumentHttpPort, InferenceServiceDefaultHttpPort];
      if !h.includesArg(args, ArgumentPredictorHost) {
        cmd := cmd + [ArgumentPredictorHost, h.defaultPredictorServiceName(meta.name) + "." + meta.namespace];
      }
      if !h.includesArg(args, ArgumentWorkers) {
        if extensions.containerConcurrency.Some? {
          cmd := cmd + [ArgumentWorkers, FormatInt(extensions.containerConcurrency.value)];
        }
      }
      if storageUri != "" {
        cmd := cmd + [StorageUriFlag, DefaultModelLocalMountPath];
      }
      cmd := cmd + [ExplainerTypeFlag, explainerType];
      assert cmd == HeadArgs(explainerType, storageUri, args, meta, extensions, h);

      var keys := CollectKeys(config);
      keys := SortStrings(keys);
      KeysInMap(keys, config);

      cmd := AppendConfigArgs(cmd, keys, config);
      SortedKeysUnique(keys, config);
      cmd := cmd + args;
      container := Container(
        isvcConfig.containerImage + ":" + runtimeVersion.value,
        InferenceServiceContainerName,
        resources,
        cmd);
    }

    /**
     * Fills the defaults: the container name always becomes the fixed name;
     * a missing runtime version becomes the configured default, a present one
     * is kept; resources get their defaults. Afterwards `GetContainer` may be
     * called.
     */
    method Default(isvcConfig: AIXExplainerConfig, h: Helpers)
      modifies this
      ensures name == InferenceServiceContainerName
      ensures old(runtimeVersion).None? ==> runtimeVersion == Some(isvcConfig.defaultImageVersion)
      ensures old(runtimeVersion).Some? ==> runtimeVersion == old(runtimeVersion)
      ensures runtimeVersion.Some?
      ensures resources == h.setResourceRequirementDefaults(old(resources))
      ensures explainerType == old(explainerType) && storageUri == old(storageUri)
      ensures config == old(config) && args == old(args)
    {
      name := InferenceServiceContainerName;
      if runtimeVersion.None? {
        runtimeVersion := Some(isvcConfig.defaultImageVersion);
      }
      resources := h.setResourceRequirementDefaults(resources);
    }
  }
}
