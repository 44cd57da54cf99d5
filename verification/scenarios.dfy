/**
 Consequences of the pipeline for particular inputs: how normalization treats
 in-memory storage, explicit UI settings, the case-sensitive index-cleaner
 rule, and a few concrete objects.
 */
module Scenarios {
  import opened Strings
  import opened Types
  import opened Catalog
  import opened Jobs
  import opened UI
  import opened Controller

  /** With in-memory storage, in any spelling, the strategy is all-in-one
      whatever was requested. */
  lemma MemoryStorageForcesAllInOne(cfg: Config, env: Env, j: Jaeger)
    requires EqualFold(j.spec.storage.storageType, "memory") || !Known(j.spec.storage.storageType, env.validTypes)
    ensures Normalize(cfg, env, j).spec.strategy == AllInOne
  {
  }

  /** UI options the user set are kept: `archiveEnabled`, `menu`, and a
      `dependencies` entry that already has `menuEnabled` or is not a table. */
  lemma ExplicitUISettingsWin(cfg: Config, env: Env, j: Jaeger, key: string)
    requires key == ArchiveKey || key == MenuKey || (key == DependenciesKey && !MenuEnabledOpen(Load(j.spec.ui)))
    requires key in Load(j.spec.ui)
    ensures var ui := Normalize(cfg, env, j).spec.ui;
            ui.Options? && key in ui.entries && ui.entries[key] == Load(j.spec.ui)[key]
  {
  }

  /** The storage type is matched case-insensitively against the valid types,
      but the index cleaner is switched on only for the exact spelling
      "elasticsearch": "Elasticsearch" is kept as the storage type and the
      cleaner stays unset. */
  lemma IndexCleanerNeedsExactSpelling(cfg: Config, env: Env, j: Jaeger)
    requires "elasticsearch" in env.validTypes
    requires j.spec.storage.storageType == "Elasticsearch"
    requires j.spec.storage.indexCleaner.enabled == None
    ensures Normalize(cfg, env, j).spec.storage.storageType == "Elasticsearch"
    ensures Normalize(cfg, env, j).spec.storage.indexCleaner.enabled == None
  {
  }

  /** Exact "elasticsearch" storage with an unset cleaner: the cleaner is
      switched on, keeps seven days and runs daily unless told otherwise. */
  lemma ElasticsearchEnablesIndexCleaner(cfg: Config, env: Env, j: Jaeger)
    requires "elasticsearch" in env.validTypes
    requires j.spec.storage.storageType == "elasticsearch"
    requires j.spec.storage.indexCleaner == IndexCleanerSpec(None, "", "", None)
    ensures var ic := Normalize(cfg, env, j).spec.storage.indexCleaner;
            ic.enabled == Some(true) && ic.numberOfDays == Some(7) && ic.schedule == DailySchedule
  {
  }

  /** The redundancy policy derived for 1, 5 and 0 nodes. */
  lemma RedundancyByNodeCount(res: Option<ResourceRequirements>)
    ensures NormalizeElasticsearch(ElasticsearchSpec(1, PolicyUnset, res)).redundancyPolicy == ZeroRedundancy
    ensures NormalizeElasticsearch(ElasticsearchSpec(5, PolicyUnset, res)).redundancyPolicy == SingleRedundancy
    ensures NormalizeElasticsearch(ElasticsearchSpec(0, PolicyUnset, res)) ==
              ElasticsearchSpec(3, SingleRedundancy, if res == None then Some(DefaultEsResources) else res)
  {
  }

  /** An empty object on plain Kubernetes resolves to in-memory storage, the
      all-in-one strategy and no ingress security. */
  lemma EmptyObjectResolvesToDefaults(env: Env, docUrl: string, storage: StorageSpec)
    requires storage.storageType == ""
    ensures var r := Normalize(Config("kubernetes", "", docUrl), env,
                               Jaeger("", JaegerSpec(Unrecognized(""), storage, IngressSpec(None, SecurityUnset), NoOptions)));
            && r.name == DefaultName
            && r.spec.storage.storageType == MemoryStorage
            && r.spec.strategy == AllInOne
            && r.spec.ingress.security == NoneExplicit
  {
  }

  /** On OpenShift with unset security the OAuth proxy is chosen and the UI
      gains the menu with the documentation and log-out links. */
  lemma OpenShiftGetsLogOutMenu(cfg: Config, env: Env, j: Jaeger)
    requires cfg.platform == OpenShiftPlatform
    requires j.spec.ingress == IngressSpec(None, SecurityUnset)
    requires MenuKey !in Load(j.spec.ui)
    ensures var r := Normalize(cfg, env, j);
            && r.spec.ingress.security == OAuthProxy
            && r.spec.ui.Options?
            && MenuKey in r.spec.ui.entries
            && r.spec.ui.entries[MenuKey] == Menu(cfg.documentationUrl)
  {
  }

  /** An archive storage switched on in the storage options turns on the
      archive button when the user has not set it. */
  lemma ArchiveOptionEnablesButton(cfg: Config, env: Env, j: Jaeger)
    requires Lookup(j.spec.storage.options, "cassandra-archive.enabled") == "true"
    requires ArchiveKey !in Load(j.spec.ui)
    ensures var r := Normalize(cfg, env, j);
            r.spec.ui.Options? && ArchiveKey in r.spec.ui.entries && r.spec.ui.entries[ArchiveKey] == JBool(true)
  {
  }
}
