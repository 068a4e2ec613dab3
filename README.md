# KServe storage provider cache and AIX explainer container, in Dafny

This project models two sequential pieces of KServe (Go).

**The model agent's storage provider cache.** This is `GetProvider` in
`pkg/agent/storage/utils.go`. It takes a map from `Protocol` to `Provider`
that the caller owns. On a hit it returns the cached entry. On a miss it
builds a provider for the protocol and stores it under that key.
- GCS: a Google Cloud Storage client. It uses default credentials when
  `GOOGLE_APPLICATION_CREDENTIALS` is set, and no authentication otherwise.
- S3: an AWS session. Environment variables set its region, its addressing
  style, an endpoint override and anonymous credentials.
- HTTP and HTTPS: both get the same `HTTPSProvider` with a default HTTP client.
- Any other protocol: no provider and no error.
- A GCS client or S3 session that cannot be created: the error comes back
  and nothing is cached.

In the model the map is the field `providers` of the class
`StorageProviders.Registry`, and `GetProvider` is a method that updates it
in place. A ghost multiset `built` records each stored construction. The
invariant `Valid()` says two things: each cached protocol was built exactly
once, and each entry is the variant its protocol calls for. The environment
is a `map<string, string>`. The SDK constructors are the functions of an
`Sdk` value, which may return any handle or fail.

**The AIX360 explainer component.** This is `AIXExplainerSpec` in
`pkg/apis/serving/v1beta1/explainer_aix360.go`:
- `GetContainer` builds the explainer container's image and command line.
- `Default` fills in the container name and the runtime version.
- `GetStorageUri`, `GetProtocol` and `IsMMS` are simple accessors.

The spec is the class `AixExplainer.AIXExplainerSpec`, because `Default`
updates its fields. The argument list is specified by the function
`ExplainerArgs`. Lemmas give its layout position by position.

`TextOps` models the parts of Go's standard library that these two files
rely on:
- `strings.ToLower` on ASCII;
- the order of strings;
- `sort.Strings`, as insertion sort, proved to give a sorted permutation;
- `strconv.FormatInt(n, 10)`, with its inverse.

## Model

| member | source | states |
|---|---|---|
| `StorageProviders.Registry.GetProvider` | pkg/agent/storage/utils.go:88-162 | A cached protocol returns exactly the cached provider with no error, and the map and construction record stay unchanged. Otherwise the result is `Construct(...)`. A built provider is stored under `protocol` only, and every other entry is unchanged. Unknown protocols and SDK failures leave the map unchanged. `Valid()` is preserved: each protocol is built at most once, and each entry has the right variant. |
| `StorageProviders.GetProviderTwice` | pkg/agent/storage/utils.go:88-162 | Two calls for one protocol, with any environment and SDK. After a first call that produced a provider, the second returns the same provider and builds nothing. After a failure, nothing was cached and the second call constructs afresh. An unknown protocol gives no provider and no error both times. |
| `StorageProviders.Construct` | pkg/agent/storage/utils.go:93-159 | The result is "no provider, no error" exactly for protocols outside GCS, S3, HTTPS and HTTP. Any provider built is the variant its protocol calls for. Failure happens exactly when the GCS client or the S3 session constructor fails, and the error is the SDK's own. A built S3 provider holds the client made from the session for `S3ConfigFor(env)`, and a downloader over that same client. |
| `StorageProviders.GcsAuthFor` | pkg/agent/storage/utils.go:99-105 | GCS uses default credential discovery exactly when the credential variable is present, and no authentication otherwise. |
| `StorageProviders.GcsProviderUsesEnvAuth` | pkg/agent/storage/utils.go:99-113 | The GCS provider wraps the client created with the authentication mode the environment selects. |
| `StorageProviders.ResolveS3Config` | pkg/agent/storage/utils.go:118-136 | Building the `aws.Config` field by field yields exactly `S3ConfigFor(env)`. |
| `StorageProviders.S3ConfigDecisions` | pkg/agent/storage/utils.go:118-136 | Path-style addressing holds iff the virtual-bucket variable is present and spells "false" in any letter case. Anonymous credentials hold iff that variable is present and spells "true" in any case. The endpoint is set iff its variable is present, with that variable's value. The region is the variable's value, or "" when it is absent. |
| `StorageProviders.HttpSharesHttpsProvider` | pkg/agent/storage/utils.go:149-158 | HTTP and HTTPS both yield `HTTPSProvider` with a default client, whatever the environment and SDK. |
| `TextOps.ToLowerEqualsIff` | pkg/agent/storage/utils.go:121 | For a word with no upper-case letters, ASCII lower-casing a string gives that word iff every character of the string is the word's character or its upper-case form. |
| `TextOps.SortStrings` | pkg/apis/serving/v1beta1/explainer_aix360.go:86 | `sort.Strings` returns a permutation of its input, sorted under Go's string order. |
| `TextOps.SortedPermutationsEqual` | pkg/apis/serving/v1beta1/explainer_aix360.go:86 | Two sorted permutations of the same strings are equal, so the sorted key order does not depend on map iteration order. |
| `TextOps.FormatIntRoundTrip` | pkg/apis/serving/v1beta1/explainer_aix360.go:72 | The base-10 rendering of an integer parses back to that integer. |
| `AixExplainer.CollectKeys` | pkg/apis/serving/v1beta1/explainer_aix360.go:82-85 | Ranging over the config map collects each key exactly once, in any order. |
| `AixExplainer.AppendConfigArgs` | pkg/apis/serving/v1beta1/explainer_aix360.go:87-90 | The loop appends `--key` followed by the key's value for each key, in order. |
| `AixExplainer.ConfigArgsAt` | pkg/apis/serving/v1beta1/explainer_aix360.go:87-90 | The config section has two entries per key. Entry `2i` is `"--" + keys[i]` and entry `2i+1` is that key's value. |
| `AixExplainer.SortedKeysSpec` | pkg/apis/serving/v1beta1/explainer_aix360.go:81-90 | The sorted config keys are exactly the map's keys, each once, in strictly ascending order. |
| `AixExplainer.SortedKeysUnique` | pkg/apis/serving/v1beta1/explainer_aix360.go:82-86 | Whatever order the keys were collected in, sorting them gives `SortedKeys(config)`. |
| `AixExplainer.HeadArgsPredictorHost` | pkg/apis/serving/v1beta1/explainer_aix360.go:59-69 | Args begin with model-name flag, name, http-port flag, default port. Index 4 holds the predictor-host flag iff the user's args lack that flag. Its value is the predictor service name, then ".", then the namespace. |
| `AixExplainer.HeadArgsWorkers` | pkg/apis/serving/v1beta1/explainer_aix360.go:70-74 | After the predictor-host pair comes the workers flag, iff the user's args lack it and a container concurrency is set. Its value is the concurrency in decimal, which parses back to the number. |
| `AixExplainer.HeadArgsStorage` | pkg/apis/serving/v1beta1/explainer_aix360.go:75-77 | After the optional pairs comes `--storage_uri`, iff the storage URI is non-empty. Its value is the local model mount path, not the URI. |
| `AixExplainer.HeadArgsEnd` | pkg/apis/serving/v1beta1/explainer_aix360.go:79 | `--explainer_type` and the type always close the head, right after the optional pairs. |
| `AixExplainer.ExplainerArgsHead` | pkg/apis/serving/v1beta1/explainer_aix360.go:59-79 | The full argument list begins with that head. |
| `AixExplainer.ExplainerArgsTail` | pkg/apis/serving/v1beta1/explainer_aix360.go:79-91 | Length is head plus 2 per config key plus the user's args. The config pairs follow the explainer type in sorted-key order, and the user's args are the exact suffix. |
| `AixExplainer.AIXExplainerSpec.GetContainer` | pkg/apis/serving/v1beta1/explainer_aix360.go:58-98 | Image is the configured image, ":" and the runtime version. Name is the fixed container name and resources are the spec's. Args are `ExplainerArgs` of the spec's fields. The runtime version must be set. |
| `AixExplainer.AIXExplainerSpec.Default` | pkg/apis/serving/v1beta1/explainer_aix360.go:100-106 | Name always becomes the fixed container name. A missing runtime version becomes the configured default, and a present one is kept, so afterwards it is set. Resources get their defaults. Other fields are unchanged. |
| `AixExplainer.AIXExplainerSpec.GetStorageUri` | pkg/apis/serving/v1beta1/explainer_aix360.go:46-51 | Absent iff the storage URI is "". Otherwise it is the storage URI. |
| `AixExplainer.AIXExplainerSpec.GetProtocol` | pkg/apis/serving/v1beta1/explainer_aix360.go:115-117 | Always the V1 inference protocol. |
| `AixExplainer.AIXExplainerSpec.IsMMS` | pkg/apis/serving/v1beta1/explainer_aix360.go:119-121 | Never a multi-model server. |
| `AixExplainer.AIXExplainerSpec.constructor` | pkg/apis/serving/v1beta1/explainer_aix360.go:36-42 | A spec holds exactly the given type, storage URI, runtime version, config map, container name, args and resources. |

## Left out

- `FileExists`, `Create`, `RemoveDir` (utils.go:39-86): filesystem I/O with no logic beyond the OS calls.
- `AsSha256` (utils.go:51-56): a SHA-256 over Go's `%v` formatting, a foreign computation.
- SDK behaviour: `gstorage.NewClient`, `session.NewSession`, `s3.New` and `s3manager.NewDownloaderWithClient` are opaque constructors (the `Sdk` value). `&http.Client{}` is the constant `DefaultHttpClient`. `stiface.AdaptClient` is taken as the identity, so the GCS provider holds the client handle.
- Provider fetch and download: not in these files, and network I/O.
- Concurrency on the providers map: the code has no locking. Registry methods are sequential.
- Direct writes by callers into the caller-owned map: the registry starts empty and changes only through `GetProvider`.
- Provider identity: providers are values. A cached entry is returned unchanged rather than compared by pointer.
- Protocol spellings: Go's `Protocol` is a string type whose four constants are defined outside the modelled files. `Protocol` is an input here, and by convention any other string is `Unrecognised`. The datatype does not enforce that convention: `Unrecognised` applied to one of the four constants' spellings is a legal value, and `Construct` treats it as unknown, where Go would serve it.
- A nil `providers` map: Go panics on the store into a nil map (utils.go:111, 145, 151, 156). The registry's map is always a map value, so that panic is not modelled.
- Environment variable names and `pkg/constants` values are written out as KServe defines them. `pkg/credentials` and `pkg/constants` are not part of this model, and no proof depends on their spelling beyond the flag literals being distinct.
- `utils.IncludesArg`, `constants.DefaultPredictorServiceName` and `setResourceRequirementDefaults` are not part of this model. They are the functions of a `Helpers` parameter.
- `Validate` and `GetResourceRequirements`: the first only returns the storage-URI validator's result (the validator is not part of this model). The second returns a pointer to the resources field, an aliasing this model does not represent.
- `AixExplainer.AIXExplainerSpec.GetStorageUri`: Go returns `&s.StorageURI`, a pointer into the spec, so a write through it changes the spec. The model returns the string's value, and that aliasing is not represented.
- Nil `extensions` or `config` pointers in `GetContainer`: these are values here. A nil runtime version, which the source dereferences unchecked, is excluded by the precondition `runtimeVersion.Some?`.
- The container fields `GetContainer` does not set (ports, environment and so on) are not modelled.
- `TextOps.ToLowerEqualsIff`: lower-casing is ASCII only, not Go's Unicode `strings.ToLower`.
- `TextOps.SortStrings`: the order compares code points, which equals Go's byte order for valid UTF-8. Invalid UTF-8 is not modelled.
- `TextOps.FormatIntRoundTrip`: integers are unbounded. The int64 width of `ContainerConcurrency` and `ParseInt`'s range check are not modelled.
