/**
 The four sub-normalizers of the storage section: the Spark dependencies job,
 the Elasticsearch index cleaner, the Elasticsearch cluster settings and the
 index rollover job. Each fills in only what is empty or unset.
 */
module Jobs {
  import opened Strings
  import opened Types

  /** Cron expression of the daily jobs: 23:55 every day. */
  const DailySchedule := "55 23 * * *"
  /** Cron expression of the rollover job: every 30 minutes. */
  const RolloverSchedule := "*/30 * * * *"
  const DefaultRetentionDays := 7
  const DefaultNodeCount := 3
  const IndexCleanerImageParam := "jaeger-es-index-cleaner-image"
  const RolloverImageParam := "jaeger-es-rollover-image"

  /** 16Gi of memory as limit and request, one CPU as request. */
  const DefaultEsResources := ResourceRequirements(
    map[Memory := Quantity("16Gi")],
    map[Memory := Quantity("16Gi"), Cpu := Quantity("1")])

  /** TLS towards Elasticsearch is on when `es.tls` or `es.tls.skip-host-verify`
      reads "true" in any case, or a CA file is given. */
  predicate TlsConfigured(options: map<string, string>)
  {
    || EqualFold(Lookup(options, "es.tls"), "true")
    || EqualFold(Lookup(options, "es.tls.skip-host-verify"), "true")
    || !EqualFold(Lookup(options, "es.tls.ca"), "")
  }

  /** The conditions under which the dependencies job is switched on by default. */
  predicate DependenciesAutoEnabled(s: StorageSpec, env: Env)
  {
    && env.supportedStorage(s.storageType)
    && s.dependencies.enabled == None
    && !env.shouldDeployElasticsearch(s)
    && !TlsConfigured(s.options)
  }

  /** `normalizeSparkDependencies`. */
  function NormalizeSparkDependencies(s: StorageSpec, sparkImage: string, env: Env): (r: StorageSpec)
    // only the dependencies subsection is touched
    ensures r == s.(dependencies := r.dependencies)
    // the flag moves only from unset to true, and exactly when every condition holds
    ensures r.dependencies.enabled != s.dependencies.enabled <==> DependenciesAutoEnabled(s, env)
    ensures r.dependencies.enabled != s.dependencies.enabled ==>
              s.dependencies.enabled == None && r.dependencies.enabled == Some(true)
    ensures s.dependencies.image != "" ==> r.dependencies.image == s.dependencies.image
    ensures s.dependencies.image == "" ==> r.dependencies.image == sparkImage
    ensures r.dependencies.schedule != ""
    ensures s.dependencies.schedule != "" ==> r.dependencies.schedule == s.dependencies.schedule
    ensures s.dependencies.schedule == "" ==> r.dependencies.schedule == DailySchedule
  {
    var d := s.dependencies;
    var enabled := if DependenciesAutoEnabled(s, env) then Some(true) else d.enabled;
    var image := if d.image == "" then sparkImage else d.image;
    var schedule := if d.schedule == "" then DailySchedule else d.schedule;
    s.(dependencies := DependenciesSpec(enabled, image, schedule))
  }

  /** A storage section whose dependencies subsection is already normalized, and
      whose type and options are those it was normalized against, is left alone. */
  lemma SparkDependenciesSettled(s: StorageSpec, t: StorageSpec, sparkImage: string, env: Env)
    requires EsDecisionByTypeAndOptions(env)
    requires t.storageType == s.storageType && t.options == s.options
    requires t.dependencies == NormalizeSparkDependencies(s, sparkImage, env).dependencies
    ensures NormalizeSparkDependencies(t, sparkImage, env) == t
  {
  }

  /** `normalizeIndexCleaner`; `storageType` is the already-normalized storage type. */
  function NormalizeIndexCleaner(ic: IndexCleanerSpec, storageType: string, env: Env): (r: IndexCleanerSpec)
    // auto-enabling compares the storage type case-sensitively
    ensures r.enabled != ic.enabled <==> storageType == "elasticsearch" && ic.enabled == None
    ensures r.enabled != ic.enabled ==> r.enabled == Some(true)
    ensures r.image == env.imageName(ic.image, IndexCleanerImageParam)
    ensures r.schedule != ""
    ensures ic.schedule != "" ==> r.schedule == ic.schedule
    ensures ic.schedule == "" ==> r.schedule == DailySchedule
    ensures r.numberOfDays != None
    ensures ic.numberOfDays != None ==> r.numberOfDays == ic.numberOfDays
    ensures ic.numberOfDays == None ==> r.numberOfDays == Some(DefaultRetentionDays)
  {
    var enabled := if storageType == "elasticsearch" && ic.enabled == None then Some(true) else ic.enabled;
    var schedule := if ic.schedule == "" then DailySchedule else ic.schedule;
    var days := if ic.numberOfDays == None then Some(DefaultRetentionDays) else ic.numberOfDays;
    IndexCleanerSpec(enabled, env.imageName(ic.image, IndexCleanerImageParam), schedule, days)
  }

  lemma IndexCleanerIdempotent(ic: IndexCleanerSpec, storageType: string, env: Env)
    requires ImageNameIdempotent(env)
    ensures var r := NormalizeIndexCleaner(ic, storageType, env);
            NormalizeIndexCleaner(r, storageType, env) == r
  {
  }

  /** `normalizeElasticsearch`. */
  function NormalizeElasticsearch(es: ElasticsearchSpec): (r: ElasticsearchSpec)
    ensures r.nodeCount != 0
    ensures es.nodeCount != 0 ==> r.nodeCount == es.nodeCount
    ensures es.nodeCount == 0 ==> r.nodeCount == DefaultNodeCount
    ensures es.redundancyPolicy != PolicyUnset ==> r.redundancyPolicy == es.redundancyPolicy
    // an unset policy is derived from the node count after it was defaulted
    ensures es.redundancyPolicy == PolicyUnset ==>
              (r.redundancyPolicy == ZeroRedundancy <==> r.nodeCount == 1) &&
              (r.redundancyPolicy == SingleRedundancy <==> r.nodeCount != 1)
    // resources are replaced as a whole or not at all
    ensures r.resources == if es.resources == None then Some(DefaultEsResources) else es.resources
  {
    var nodes := if es.nodeCount == 0 then DefaultNodeCount else es.nodeCount;
    var policy :=
      if es.redundancyPolicy != PolicyUnset then es.redundancyPolicy
      else if nodes == 1 then ZeroRedundancy
      else SingleRedundancy;
    var resources := if es.resources == None then Some(DefaultEsResources) else es.resources;
    ElasticsearchSpec(nodes, policy, resources)
  }

  lemma ElasticsearchIdempotent(es: ElasticsearchSpec)
    ensures NormalizeElasticsearch(NormalizeElasticsearch(es)) == NormalizeElasticsearch(es)
  {
  }

  /** `normalizeRollover`. */
  function NormalizeRollover(ro: RolloverSpec, env: Env): (r: RolloverSpec)
    ensures r.image == env.imageName(ro.image, RolloverImageParam)
    ensures r.schedule != ""
    ensures ro.schedule != "" ==> r.schedule == ro.schedule
    ensures ro.schedule == "" ==> r.schedule == RolloverSchedule
  {
    var schedule := if ro.schedule == "" then RolloverSchedule else ro.schedule;
    RolloverSpec(env.imageName(ro.image, RolloverImageParam), schedule)
  }

  lemma RolloverIdempotent(ro: RolloverSpec, env: Env)
    requires ImageNameIdempotent(env)
    ensures NormalizeRollover(NormalizeRollover(ro, env), env) == NormalizeRollover(ro, env)
  {
  }
}
