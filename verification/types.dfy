/**
 The desired-state `Jaeger` object as far as the strategy controller reads or
 writes it, the process-wide settings it consults, and the collaborators from
 other packages that it calls.
 */
module Types {

  /** A Go pointer that may be nil: `*bool` tri-state flags, `*int` counts. */
  datatype Option<T> = None | Some(value: T)

  /** A free-form JSON value as `encoding/json` decodes it into `interface{}`. */
  datatype Json =
    | JNull
    | JBool(b: bool)
    | JNumber(n: real)
    | JString(s: string)
    | JArray(items: seq<Json>)
    | JObject(fields: map<string, Json>)

  /** The requested deployment strategy. Every string the user may write is
      one of the four named strategies or an unrecognized one (including "").
      An `Unrecognized` value whose text spells one of the four names stands for
      no Go value: the named constructor is the only representation of a name. */
  datatype Strategy =
    | AllInOne
    | DeprecatedAllInOne  // the old 'all-in-one' spelling
    | Production
    | Streaming
    | Unrecognized(raw: string)

  /** Ingress security: unset (""), explicitly none, OAuth proxy, or any other
      string. As with `Strategy`, a `SecurityOther` whose text spells "none" or
      "oauth-proxy" stands for no Go value. */
  datatype IngressSecurity = SecurityUnset | NoneExplicit | OAuthProxy | SecurityOther(raw: string)

  datatype IngressSpec = IngressSpec(enabled: Option<bool>, security: IngressSecurity)

  /** The periodic Spark job that aggregates service dependencies. */
  datatype DependenciesSpec = DependenciesSpec(enabled: Option<bool>, image: string, schedule: string)

  /** The periodic job that deletes old Elasticsearch indices. */
  datatype IndexCleanerSpec =
    IndexCleanerSpec(enabled: Option<bool>, image: string, schedule: string, numberOfDays: Option<int>)

  /** The periodic job that rolls Elasticsearch indices over. */
  datatype RolloverSpec = RolloverSpec(image: string, schedule: string)

  /** Elasticsearch redundancy policy; `PolicyUnset` is the empty string and
      `OtherPolicy` any other non-empty string. */
  datatype RedundancyPolicy =
    | PolicyUnset
    | ZeroRedundancy
    | SingleRedundancy
    | MultipleRedundancy
    | FullRedundancy
    | OtherPolicy(raw: string)

  datatype ResourceName = Memory | Cpu | OtherResource(name: string)

  /** A Kubernetes quantity, kept as its textual form ("16Gi", "1"). */
  datatype Quantity = Quantity(text: string)

  datatype ResourceRequirements =
    ResourceRequirements(limits: map<ResourceName, Quantity>, requests: map<ResourceName, Quantity>)

  /** Settings of a self-provisioned Elasticsearch cluster; `nodeCount` is Go's int32. */
  datatype ElasticsearchSpec =
    ElasticsearchSpec(nodeCount: int, redundancyPolicy: RedundancyPolicy, resources: Option<ResourceRequirements>)

  datatype StorageSpec = StorageSpec(
    storageType: string,
    options: map<string, string>,
    dependencies: DependenciesSpec,
    indexCleaner: IndexCleanerSpec,
    elasticsearch: ElasticsearchSpec,
    rollover: RolloverSpec)

  /** The UI's free-form options: nothing stored, a JSON object, or raw JSON
      that does not decode to an object (`GetMap` fails). */
  datatype UIOptions = NoOptions | Options(entries: map<string, Json>) | Malformed(raw: string)

  datatype JaegerSpec = JaegerSpec(strategy: Strategy, storage: StorageSpec, ingress: IngressSpec, ui: UIOptions)

  datatype Jaeger = Jaeger(name: string, spec: JaegerSpec)

  /** The process-wide settings the controller reads from the command line. */
  datatype Config = Config(platform: string, sparkDependenciesImage: string, documentationUrl: string)

  /** Functions of other packages, whose bodies are not part of this model.
      `validTypes` is `storage.ValidTypes()`, `supportedStorage` is
      `cronjob.SupportedStorage`, `shouldDeployElasticsearch` is
      `storage.ShouldDeployElasticsearch`, and `imageName(image, param)` is
      `util.ImageName`, which also reads process settings. */
  datatype Env = Env(
    validTypes: seq<string>,
    supportedStorage: string -> bool,
    shouldDeployElasticsearch: StorageSpec -> bool,
    imageName: (string, string) -> string)

  /** Resolving an already-resolved image again changes nothing. */
  ghost predicate ImageNameIdempotent(env: Env)
  {
    forall image, param :: env.imageName(env.imageName(image, param), param) == env.imageName(image, param)
  }

  /** Whether Elasticsearch is auto-provisioned is decided by the storage type
      and options alone, not by the job subsections normalization fills in. */
  ghost predicate EsDecisionByTypeAndOptions(env: Env)
  {
    forall s: StorageSpec, t: StorageSpec ::
      s.storageType == t.storageType && s.options == t.options ==>
        env.shouldDeployElasticsearch(s) == env.shouldDeployElasticsearch(t)
  }

  /** What the idempotence of normalization assumes of the collaborators. */
  ghost predicate WellBehaved(env: Env)
  {
    ImageNameIdempotent(env) && EsDecisionByTypeAndOptions(env)
  }
}
