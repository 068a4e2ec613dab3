/**
 * The storage provider cache of the model agent (`GetProvider` in
 * pkg/agent/storage/utils.go): a map from protocol to provider that is filled
 * lazily, with the GCS and S3 clients configured from environment variables.
 *
 * The cloud SDK constructors are not modelled: they are the functions of an
 * `Sdk` value, which may return any client handle or fail with any error.
 * The process environment is a `map<string, string>` passed in per call.
 */
module StorageProviders {
  import opened Wrappers
  import opened TextOps

  /**
   * Go's `Protocol` is a string type. The four constants the switch knows
   * are the first four constructors; every other string is `Unrecognised`.
   */
  datatype Protocol = GCS | S3 | HTTPS | HTTP | Unrecognised(name: string)

  datatype Error = Error(message: string)

  // Handles to SDK objects, which the model treats as opaque.
  datatype GcsClient = GcsClient(handle: nat)
  datatype S3Session = S3Session(handle: nat)
  datatype S3Client = S3Client(handle: nat)
  datatype S3Downloader = S3Downloader(handle: nat)
  /** `&http.Client{}`: the default transport, no custom TLS or authentication. */
  datatype HttpClient = DefaultHttpClient

  /** The provider variants; HTTP and HTTPS share `HTTPSProvider`. */
  datatype Provider =
    | GCSProvider(gcsClient: GcsClient)
    | S3Provider(s3Client: S3Client, downloader: S3Downloader)
    | HTTPSProvider(httpClient: HttpClient)

  /** How the GCS client is created: default credential discovery, or `option.WithoutAuthentication()`. */
  datatype GcsAuth = DefaultCredentials | WithoutAuthentication

  /** `awsConfig.Credentials`: nil (the SDK's default chain) or `credentials.AnonymousCredentials`. */
  datatype S3Credentials = CredentialChain | AnonymousCredentials

  /** The fields of `aws.Config` that `GetProvider` sets. */
  datatype S3Config = S3Config(
    region: string,
    forcePathStyle: bool,
    endpoint: Option<string>,
    credentials: S3Credentials)

  /**
   * The SDK constructors: `gstorage.NewClient` and `session.NewSession` may
   * fail; `s3.New` and `s3manager.NewDownloaderWithClient` cannot.
   */
  datatype Sdk = Sdk(
    newGcsClient: GcsAuth -> Result<GcsClient, Error>,
    newSession: S3Config -> Result<S3Session, Error>,
    newS3Client: S3Session -> S3Client,
    newDownloader: S3Client -> S3Downloader)

  type Env = map<string, string>

  // Names of the environment variables, as defined in the credential
  // packages pkg/credentials/gcs and pkg/credentials/s3.
  const GcsCredentialEnvKey := "GOOGLE_APPLICATION_CREDENTIALS"
  const AwsRegion := "AWS_DEFAULT_REGION"
  const S3UseVirtualBucket := "S3_USER_VIRTUAL_BUCKET"
  const AwsEndpointUrl := "AWS_ENDPOINT_URL"
  const AwsAnonymousCredential := "awsAnonymousCredential"

  predicate IsKnown(p: Protocol) {
    !p.Unrecognised?
  }

  /** The provider variant that the switch builds for each known protocol. */
  predicate Serves(p: Protocol, provider: Provider) {
    match p
    case GCS => provider.GCSProvider?
    case S3 => provider.S3Provider?
    case HTTPS | HTTP => provider.HTTPSProvider?
    case Unrecognised(_) => false
  }

  /** `os.LookupEnv(key)` followed by `strings.ToLower(value) == word`. */
  predicate EnvFlagIs(env: Env, key: string, word: string) {
    key in env && ToLower(env[key]) == word
  }

  // ---------------------------------------------------------------------
  // Configuration decisions

  /** GCS authenticates with the default credentials exactly when the credential variable is set. */
  function GcsAuthFor(env: Env): (auth: GcsAuth)
    ensures auth == DefaultCredentials <==> GcsCredentialEnvKey in env
  {
    if GcsCredentialEnvKey in env then DefaultCredentials else WithoutAuthentication
  }

  /** The `aws.Config` the S3 branch hands to `session.NewSession`. */
  function S3ConfigFor(env: Env): S3Config {
    S3Config(
      region := if AwsRegion in env then env[AwsRegion] else "",
      forcePathStyle := EnvFlagIs(env, S3UseVirtualBucket, "false"),
      endpoint := if AwsEndpointUrl in env then Some(env[AwsEndpointUrl]) else None,
      credentials := if EnvFlagIs(env, AwsAnonymousCredential, "true") then AnonymousCredentials else CredentialChain)
  }

  /**
   * Builds the S3 configuration as the S3 branch does: region and the
   * virtual-bucket decision first, then the endpoint override and the
   * anonymous credentials, field by field.
   */
  method ResolveS3Config(env: Env) returns (cfg: S3Config)
    ensures cfg == S3ConfigFor(env)
  {
    var region := if AwsRegion in env then env[AwsRegion] else "";
    var useVirtualBucket := true;
    if S3UseVirtualBucket in env && ToLower(env[S3UseVirtualBucket]) == "false" {
      useVirtualBucket := false;
    }
    cfg := S3Config(region, !useVirtualBucket, None, CredentialChain);
    if AwsEndpointUrl in env {
      cfg := cfg.(endpoint := Some(env[AwsEndpointUrl]));
    }
    if AwsAnonymousCredential in env && ToLower(env[AwsAnonymousCredential]) == "true" {
      cfg := cfg.(credentials := AnonymousCredentials);
    }
  }

  /**
   * The S3 decisions, stated with a case-insensitive match instead of
   * lower-casing: path-style addressing only for a present variable that
   * spells "false" in any case (absent or anything else keeps virtual-hosted
   * addressing); anonymous credentials only for one that spells "true";
   * the endpoint only when its variable is present; the region, or "".
   */
  lemma S3ConfigDecisions(env: Env)
    ensures S3ConfigFor(env).forcePathStyle <==>
      S3UseVirtualBucket in env && EqualFold(env[S3UseVirtualBucket], "false")
    ensures S3ConfigFor(env).credentials == AnonymousCredentials <==>
      AwsAnonymousCredential in env && EqualFold(env[AwsAnonymousCredential], "true")
    ensures S3ConfigFor(env).endpoint.Some? <==> AwsEndpointUrl in env
    ensures AwsEndpointUrl in env ==> S3ConfigFor(env).endpoint == Some(env[AwsEndpointUrl])
    ensures S3ConfigFor(env).region == if AwsRegion in env then env[AwsRegion] else ""
  {
    if S3UseVirtualBucket in env {
      ToLowerEqualsIff(env[S3UseVirtualBucket], "false");
    }
    if AwsAnonymousCredential in env {
      ToLowerEqualsIff(env[AwsAnonymousCredential], "true");
    }
  }

  // ---------------------------------------------------------------------
  // Provider construction

  /**
   * What the `switch` of `GetProvider` yields on a cache miss: a new provider
   * for a known protocol, the SDK's error when the GCS client or the S3
   * session cannot be created, and no provider (with no error) otherwise.
   */
  function Construct(p: Protocol, env: Env, sdk: Sdk): (r: Result<Option<Provider>, Error>)
    ensures r == Success(None) <==> !IsKnown(p)
    ensures r.Success? && r.value.Some? ==> Serves(p, r.value.value)
    ensures r.Failure? <==>
      (p == GCS && sdk.newGcsClient(GcsAuthFor(env)).Failure?) ||
      (p == S3 && sdk.newSession(S3ConfigFor(env)).Failure?)
    ensures p == GCS && r.Failure? ==> r.error == sdk.newGcsClient(GcsAuthFor(env)).error
    ensures p == S3 && r.Failure? ==> r.error == sdk.newSession(S3ConfigFor(env)).error
    ensures p == S3 && r.Success? ==>
      var client := sdk.newS3Client(sdk.newSession(S3ConfigFor(env)).value);
      r.value == Some(S3Provider(client, sdk.newDownloader(client)))
  {
    match p
    case GCS =>
      (match sdk.newGcsClient(GcsAuthFor(env))
       case Failure(e) => Failure(e)
       case Success(client) => Success(Some(GCSProvider(client))))
    case S3 =>
      (match sdk.newSession(S3ConfigFor(env))
       case Failure(e) => Failure(e)
       case Success(sess) =>
         var client := sdk.newS3Client(sess);
         Success(Some(S3Provider(client, sdk.newDownloader(client)))))
    case HTTPS => Success(Some(HTTPSProvider(DefaultHttpClient)))
    case HTTP => Success(Some(HTTPSProvider(DefaultHttpClient)))
    case Unrecognised(_) => Success(None)
  }

  /** HTTP and HTTPS are served by the same variant with the same default client. */
  lemma HttpSharesHttpsProvider(env1: Env, sdk1: Sdk, env2: Env, sdk2: Sdk)
    ensures Construct(HTTP, env1, sdk1) == Construct(HTTPS, env2, sdk2)
    ensures Construct(HTTP, env1, sdk1) == Success(Some(HTTPSProvider(DefaultHttpClient)))
  {
  }

  /** A GCS provider wraps the client created with the authentication the environment selects. */
  lemma GcsProviderUsesEnvAuth(env: Env, sdk: Sdk)
    requires sdk.newGcsClient(GcsAuthFor(env)).Success?
    ensures Construct(GCS, env, sdk) == Success(Some(GCSProvider(sdk.newGcsClient(GcsAuthFor(env)).value)))
    ensures GcsCredentialEnvKey !in env ==>
      Construct(GCS, env, sdk) == Success(Some(GCSProvider(sdk.newGcsClient(WithoutAuthentication).value)))
  {
  }

  // ---------------------------------------------------------------------
  // The cache

  /**
   * The caller-owned `providers` map that `GetProvider` fills in place.
   * `built` records every provider constructed and stored so far.
   */
  class Registry {
    var providers: map<Protocol, Provider>
    ghost var built: multiset<Protocol>

    /**
     * Every cached entry is of the variant its protocol calls for, and each
     * cached protocol was constructed exactly once (nothing is overwritten).
     */
    ghost predicate Valid()
      reads this
    {
      && built == multiset(providers.Keys)
      && forall p :: p in providers ==> Serves(p, providers[p])
    }

    constructor ()
      ensures Valid()
      ensures providers == map[] && built == multiset{}
    {
      providers := map[];
      built := multiset{};
    }

    /**
     * `GetProvider(providers, protocol)`. A cached entry is returned as it
     * is; otherwise the result of `Construct` is returned, and a constructed
     * provider is stored under `protocol` and nowhere else. Unknown
     * protocols and construction failures leave the map unchanged, so a
     * later call tries again.
     */
    method GetProvider(protocol: Protocol, env: Env, sdk: Sdk) returns (r: Result<Option<Provider>, Error>)
      requires Valid()
      modifies this
      ensures Valid()
      ensures protocol in old(providers) ==>
        && r == Success(Some(old(providers)[protocol]))
        && providers == old(providers)
        && built == old(built)
      ensures protocol !in old(providers) ==>
        && r == Construct(protocol, env, sdk)
        && if r.Success? && r.value.Some? then
             && providers == old(providers)[protocol := r.value.value]
             && built == old(built) + multiset{protocol}
           else
             && providers == old(providers)
             && built == old(built)
    {
      if protocol in providers {
        return Success(Some(providers[protocol]));
      }
      match protocol {
        case GCS =>
          var auth := GcsAuthFor(env);
          var client := sdk.newGcsClient(auth);
          if client.Failure? {
            return Failure(client.error);
          }
          providers := providers[GCS := GCSProvider(client.value)];
          built := built + multiset{GCS};
        case S3 =>
          var cfg := ResolveS3Config(env);
          var sess := sdk.newSession(cfg);
          if sess.Failure? {
            return Failure(sess.error);
          }
          var s3Client := sdk.newS3Client(sess.value);
          providers := providers[S3 := S3Provider(s3Client, sdk.newDownloader(s3Client))];
          built := built + multiset{S3};
        case HTTPS =>
          providers := providers[HTTPS := HTTPSProvider(DefaultHttpClient)];
          built := built + multiset{HTTPS};
        case HTTP =>
          providers := providers[HTTP := HTTPSProvider(DefaultHttpClient)];
          built := built + multiset{HTTP};
        case Unrecognised(_) =>
      }
      // `providers[protocol]` is the zero value when the key is absent.
      if protocol in providers {
        r := Success(Some(providers[protocol]));
      } else {
        r := Success(None);
      }
    }
  }

  /**
   * Two calls for the same protocol. After a first call that produced a
   * provider, the second returns that same provider and constructs nothing,
   * whatever the environment and SDK then are. After a first call that
   * failed, nothing was cached, so the second constructs afresh.
   */
  method GetProviderTwice(reg: Registry, p: Protocol, env1: Env, sdk1: Sdk, env2: Env, sdk2: Sdk)
    returns (first: Result<Option<Provider>, Error>, second: Result<Option<Provider>, Error>)
    requires reg.Valid()
    modifies reg
    ensures reg.Valid()
    ensures first.Success? && first.value.Some? ==>
      second == first && reg.built == old(reg.built) + (if p in old(reg.providers) then multiset{} else multiset{p})
    ensures first.Failure? ==> p !in old(reg.providers) && second == Construct(p, env2, sdk2)
    ensures first == Success(None) ==> !IsKnown(p) && second == Success(None) && reg.providers == old(reg.providers)
  {
    first := reg.GetProvider(p, env1, sdk1);
    second := reg.GetProvider(p, env2, sdk2);
  }
}
