/**
 The strategy controller: the fixed-order normalization of a `Jaeger` object
 and the choice of deployment strategy that follows it.

 Stage order and what each stage reads:
   1. name                  (reads the name only)
   2. storage type          (reads the storage type and the valid types)
   3.+4. strategy           (reads the storage type of stage 2)
   5. ingress security      (reads the platform)
   6. Spark dependencies    (reads the storage type of stage 2 and the storage options)
   7. index cleaner         (reads the storage type of stage 2)
   8. Elasticsearch
   9. rollover
  10. UI options            (reads the storage type of stage 2, the dependencies
                             flag of stage 6 and the ingress security of stage 5)
 */
module Controller {
  import opened Strings
  import opened Types
  import opened Catalog
  import opened Jobs
  import opened UI

  const DefaultName := "my-jaeger"
  const MemoryStorage := "memory"
  const OpenShiftPlatform := "openshift"
  const EsCertGenerationScript := "./scripts/cert_generation.sh"

  /** `distributedStorage`: every backend except the in-process ones can serve
      a multi-component deployment. */
  predicate Distributed(storageType: string)
  {
    !EqualFold(storageType, "memory") && !EqualFold(storageType, "badger")
  }

  /** Being distributed is a property of the backend, not of its spelling. */
  lemma DistributedIgnoresCase(a: string, b: string)
    requires EqualFold(a, b)
    ensures Distributed(a) <==> Distributed(b)
  {
  }

  /** Against an independent description: a backend is distributed exactly
      when its lower-cased name is neither "memory" nor "badger". */
  lemma DistributedByLower(storageType: string)
    ensures Distributed(storageType) <==> Lower(storageType) != "memory" && Lower(storageType) != "badger"
  {
    EqualFoldIsEqualLower(storageType, "memory");
    EqualFoldIsEqualLower(storageType, "badger");
    LowerAt("memory");
    LowerAt("badger");
    assert Lower("memory") == "memory";
    assert Lower("badger") == "badger";
  }

  /** Stage 2: an empty type becomes "memory", and so does a type that matches
      no valid type. */
  function NormalizeStorageType(storageType: string, validTypes: seq<string>): (r: string)
    // a known type is kept with its original spelling; anything else becomes "memory"
    ensures r == if storageType != "" && Known(storageType, validTypes) then storageType else MemoryStorage
    ensures Known(MemoryStorage, validTypes) ==> Known(r, validTypes)
    ensures r != ""
  {
    var t := if storageType == "" then MemoryStorage else storageType;
    if !Known(t, validTypes) then MemoryStorage else t
  }

  /** Stages 3 and 4: only `production` and `streaming` are kept, and only on a
      distributed storage. */
  function ResolveStrategy(strategy: Strategy, storageType: string): (r: Strategy)
    ensures r == AllInOne || r == Production || r == Streaming
    ensures r != AllInOne ==> r == strategy && Distributed(storageType)
    ensures (strategy == Production || strategy == Streaming) && Distributed(storageType) ==> r == strategy
  {
    var s := if strategy != Production && strategy != Streaming then AllInOne else strategy;
    if !Distributed(storageType) && s != AllInOne then AllInOne else s
  }

  /** Stage 5: OAuth proxy on OpenShift unless explicitly disabled, explicit
      "none" everywhere else. */
  function ResolveSecurity(platform: string, security: IngressSecurity): (r: IngressSecurity)
    ensures r == OAuthProxy <==> platform == OpenShiftPlatform && security != NoneExplicit
    ensures r != OAuthProxy ==> r == NoneExplicit
  {
    if platform == OpenShiftPlatform && security != NoneExplicit then OAuthProxy else NoneExplicit
  }

  /** `normalize`: the ten stages in source order. */
  function Normalize(cfg: Config, env: Env, j: Jaeger): (r: Jaeger)
    ensures Resolved(r, env)
    ensures j.name != "" ==> r.name == j.name
    ensures j.name == "" ==> r.name == DefaultName
    ensures r.spec.storage.storageType == NormalizeStorageType(j.spec.storage.storageType, env.validTypes)
    ensures r.spec.strategy == ResolveStrategy(j.spec.strategy, r.spec.storage.storageType)
    ensures r.spec.ingress == j.spec.ingress.(security := ResolveSecurity(cfg.platform, j.spec.ingress.security))
    ensures r.spec.storage.options == j.spec.storage.options
    // a job flag is only ever switched from unset to on
    ensures r.spec.storage.dependencies.enabled != j.spec.storage.dependencies.enabled ==>
              j.spec.storage.dependencies.enabled == None && r.spec.storage.dependencies.enabled == Some(true)
    ensures r.spec.storage.indexCleaner.enabled != j.spec.storage.indexCleaner.enabled ==>
              && j.spec.storage.indexCleaner.enabled == None
              && r.spec.storage.indexCleaner.enabled == Some(true)
              && r.spec.storage.storageType == "elasticsearch"
    // stages 6 to 9 each read the storage type resolved in stage 2
    ensures r.spec.storage.dependencies ==
              NormalizeSparkDependencies(j.spec.storage.(storageType := r.spec.storage.storageType),
                                         cfg.sparkDependenciesImage, env).dependencies
    ensures r.spec.storage.indexCleaner ==
              NormalizeIndexCleaner(j.spec.storage.indexCleaner, r.spec.storage.storageType, env)
    ensures r.spec.storage.elasticsearch == NormalizeElasticsearch(j.spec.storage.elasticsearch)
    ensures r.spec.storage.rollover == NormalizeRollover(j.spec.storage.rollover, env)
    // stage 10 reads the fully resolved storage and ingress, and the stored options
    ensures r.spec.ui == NormalizeUI(r.spec.(ui := j.spec.ui), cfg.documentationUrl)
  {
    // 1. name
    var name := if j.name == "" then DefaultName else j.name;
    // 2. storage type
    var storageType := NormalizeStorageType(j.spec.storage.storageType, env.validTypes);
    // 3. and 4. strategy, against the storage type of stage 2
    var strategy := ResolveStrategy(j.spec.strategy, storageType);
    // 5. ingress security
    var ingress := j.spec.ingress.(security := ResolveSecurity(cfg.platform, j.spec.ingress.security));
    // 6. to 9. the storage subsections
    var s0 := j.spec.storage.(storageType := storageType);
    var s1 := NormalizeSparkDependencies(s0, cfg.sparkDependenciesImage, env);
    var s2 := s1.(indexCleaner := NormalizeIndexCleaner(s1.indexCleaner, s1.storageType, env));
    var s3 := s2.(elasticsearch := NormalizeElasticsearch(s2.elasticsearch));
    var s4 := s3.(rollover := NormalizeRollover(s3.rollover, env));
    // 10. UI options, from everything above
    var spec := JaegerSpec(strategy, s4, ingress, j.spec.ui);
    Jaeger(name, spec.(ui := NormalizeUI(spec, cfg.documentationUrl)))
  }

  /** What holds of every normalized object. */
  ghost predicate Resolved(j: Jaeger, env: Env)
  {
    var s := j.spec.storage;
    && j.name != ""
    && s.storageType != ""
    && (Known(MemoryStorage, env.validTypes) ==> Known(s.storageType, env.validTypes))
    && (j.spec.strategy == AllInOne || j.spec.strategy == Production || j.spec.strategy == Streaming)
    && (!Distributed(s.storageType) ==> j.spec.strategy == AllInOne)
    && (j.spec.ingress.security == NoneExplicit || j.spec.ingress.security == OAuthProxy)
    && s.dependencies.schedule != ""
    && s.indexCleaner.schedule != ""
    && s.indexCleaner.numberOfDays != None
    && s.elasticsearch.nodeCount != 0
    && s.elasticsearch.redundancyPolicy != PolicyUnset
    && s.elasticsearch.resources != None
    && s.rollover.schedule != ""
  }

  /** Normalizing a normalized object changes nothing. */
  lemma NormalizeIdempotent(cfg: Config, env: Env, j: Jaeger)
    requires WellBehaved(env)
    ensures Normalize(cfg, env, Normalize(cfg, env, j)) == Normalize(cfg, env, j)
  {
  }

  /** The UI stage is a fixed point of its own output when the storage and
      ingress it reads are unchanged. */
  lemma NormalizeUISettled(spec: JaegerSpec, docUrl: string)
    ensures var once := spec.(ui := NormalizeUI(spec, docUrl));
            NormalizeUI(once, docUrl) == once.ui
  {
  }

  /** A secret handed to the production strategy; its contents are not inspected. */
  datatype Secret = Secret(name: string)

  /** `storage.ElasticsearchDeployment` as the production strategy receives it. */
  datatype ElasticsearchDeployment = ElasticsearchDeployment(jaeger: Jaeger, certScript: string, secrets: seq<Secret>)

  /** The strategy handle `For` returns, carrying the normalized object. */
  datatype Topology =
    | AllInOneTopology(jaeger: Jaeger)
    | StreamingTopology(jaeger: Jaeger)
    | ProductionTopology(jaeger: Jaeger, es: ElasticsearchDeployment)

  /** `For`: rewrite the deprecated alias, normalize, and pick the strategy. */
  function For(cfg: Config, env: Env, j: Jaeger, secrets: seq<Secret>): (t: Topology)
    // the rewrite of the alias does not change what normalization produces
    ensures t.jaeger == Normalize(cfg, env, j)
    ensures t.AllInOneTopology? <==> t.jaeger.spec.strategy == AllInOne
    ensures t.StreamingTopology? <==> t.jaeger.spec.strategy == Streaming
    ensures t.ProductionTopology? <==> t.jaeger.spec.strategy == Production
    ensures t.ProductionTopology? ==> t.es == ElasticsearchDeployment(t.jaeger, EsCertGenerationScript, secrets)
    // the alias and every unrecognized strategy land on all-in-one
    ensures j.spec.strategy != Production && j.spec.strategy != Streaming ==> t.AllInOneTopology?
    ensures !Distributed(t.jaeger.spec.storage.storageType) ==> t.AllInOneTopology?
  {
    var rewritten :=
      if j.spec.strategy == DeprecatedAllInOne then j.(spec := j.spec.(strategy := AllInOne)) else j;
    DeprecatedAliasRedundant(cfg, env, j);
    var n := Normalize(cfg, env, rewritten);
    if n.spec.strategy == AllInOne then AllInOneTopology(n)
    else if n.spec.strategy == Streaming then StreamingTopology(n)
    else ProductionTopology(n, ElasticsearchDeployment(n, EsCertGenerationScript, secrets))
  }

  /** Normalization already turns the deprecated alias into all-in-one, so the
      rewrite in `For` is a no-op on the result. */
  lemma DeprecatedAliasRedundant(cfg: Config, env: Env, j: Jaeger)
    ensures j.spec.strategy == DeprecatedAllInOne ==>
              Normalize(cfg, env, j.(spec := j.spec.(strategy := AllInOne))) == Normalize(cfg, env, j)
  {
  }
}
