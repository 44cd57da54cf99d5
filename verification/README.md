# Jaeger operator: spec normalization and strategy selection

This project models the strategy controller of the Jaeger operator
(`pkg/strategy/controller.go`). Given a desired-state `Jaeger` object, the
controller fills in defaults and clears incompatible options in a fixed order,
then picks the all-in-one, streaming or production deployment strategy.

The model is purely functional. `Controller.Normalize` composes one function per
stage in the order of the source. Each stage works on immutable records:

1. the name;
2. the storage type;
3. and 4. the strategy;
5. the ingress security;
6. to 9. the Spark dependencies job, the index cleaner, the Elasticsearch settings and the rollover job;
10. the UI options.

`Controller.For` wraps the pipeline and returns a `Topology` handle.

Modelling choices:

- **Process-wide settings.** The platform, the Spark dependencies image and the
  documentation URL are read from `viper` in the source. Here they are the
  explicit record `Types.Config`.
- **Functions of other packages.** `storage.ValidTypes`,
  `cronjob.SupportedStorage`, `storage.ShouldDeployElasticsearch` and
  `util.ImageName` are fields of `Types.Env`. Their bodies are not part of this
  model.
- **Assumptions for idempotence.** `Types.WellBehaved` states what the
  idempotence proof needs:
  - the image resolver is idempotent for each parameter;
  - the Elasticsearch auto-provisioning decision depends only on the storage
    type and the storage options.

  The claim "the storage type is known after normalization" additionally
  assumes that "memory" is a known type. Idempotence does not need that
  assumption.
- **Tri-state flags.** `*bool` flags and `*int` counts are `Types.Option`.
- **UI options.** The free-form UI options are `Types.UIOptions`: nothing
  stored, a decoded JSON object of `Types.Json` values, or raw JSON that does
  not decode to an object.
- **String constants.** Strategy names, ingress security names and the
  OpenShift platform name are constants of `pkg/apis/jaegertracing/v1`, which is
  not part of this model. Strategies and security modes are datatypes, with a
  case for any other string. The platform is compared with the string
  "openshift".
- **Dependencies image.** The comment at `pkg/strategy/controller.go:135` says
  there is only one version of the Spark dependencies image, "latest". The image
  itself is read from the `jaeger-spark-dependencies-image` setting
  (`pkg/strategy/controller.go:136`), without the image resolver, and the model
  does the same with `Config.sparkDependenciesImage`.
- **Stored UI keys.** Stored UI keys keep their values, except that a stored
  `dependencies` table is extended with `menuEnabled: false`
  (`pkg/strategy/controller.go:231-233`).
- **Case-insensitive comparison.** `strings.EqualFold` is `Strings.EqualFold`,
  which folds ASCII letters only.

## Model

| member | source | states |
|---|---|---|
| Catalog.UnknownStorage | pkg/strategy/controller.go:273-281 | The scan over the valid types reports "unknown" exactly when no valid type equals the given type ignoring case. |
| Catalog.KnownUpToCase | pkg/strategy/controller.go:273-281 | Whether a type is known does not depend on its letter case: a spelling equal ignoring case to a known type is known too. |
| Controller.DistributedIgnoresCase | pkg/strategy/controller.go:114-116 | Two spellings of one backend that are equal ignoring case are both distributed or both non-distributed. |
| Strings.EqualFoldIsEqualLower | pkg/strategy/controller.go:114-116 | The case-insensitive comparison used for storage types holds exactly when the two strings are equal after lower-casing every character. |
| Controller.DistributedByLower | pkg/strategy/controller.go:114-116 | `Distributed` (the model of `distributedStorage`) holds exactly when the lower-cased storage type is neither "memory" nor "badger". |
| Controller.NormalizeStorageType | pkg/strategy/controller.go:70-82 | A non-empty type that matches a valid type ignoring case is kept with its own spelling. Any other type, including "", becomes "memory". The result is non-empty, and it is known whenever "memory" is known. |
| Controller.ResolveStrategy | pkg/strategy/controller.go:84-94 | The result is always all-in-one, production or streaming. Production and streaming survive exactly when they were requested and the storage is distributed. Everything else becomes all-in-one. |
| Controller.ResolveSecurity | pkg/strategy/controller.go:96-104 | The result is the OAuth proxy exactly when the platform is OpenShift and the user did not choose explicit "none". Otherwise it is explicit "none". |
| Controller.Normalize | pkg/strategy/controller.go:59-112 | An empty name becomes "my-jaeger" and any other name is kept. The output satisfies every resolved-object invariant: a name, a non-empty storage type, a valid strategy, all-in-one on non-distributed storage, a definite security, schedules, a retention, a node count, a policy and resources. Storage options and the ingress flag are unchanged. A job flag only ever moves from unset to on, and the index cleaner only on exact "elasticsearch". The dependencies job, index cleaner, Elasticsearch settings and rollover job are each their stage applied to the input against the resolved storage type, and the UI options are the UI stage applied to the resolved strategy, storage and ingress with the stored options. |
| Controller.NormalizeIdempotent | pkg/strategy/controller.go:59-112 | Normalizing an already normalized object changes nothing, given a well-behaved image resolver and Elasticsearch decision. |
| Controller.NormalizeUISettled | pkg/strategy/controller.go:190-203 | Running the UI stage again on its own output, with the same storage and ingress, returns the same options. This holds whether the options were written back or left as they were. |
| Controller.For | pkg/strategy/controller.go:32-55 | The handle carries the normalized object. It is all-in-one, streaming or production exactly when the resolved strategy is. The production handle gets the certificate script and the secrets. The alias, unrecognized strategies and non-distributed storage always give all-in-one. |
| Controller.DeprecatedAliasRedundant | pkg/strategy/controller.go:37-40 | Rewriting the deprecated alias before normalization gives the same result as normalizing the alias directly. |
| Jobs.NormalizeSparkDependencies | pkg/strategy/controller.go:118-141 | Only the dependencies subsection changes. The flag changes exactly when every condition holds: supported storage, flag unset, no Elasticsearch auto-provisioning, and no TLS. When it changes, it moves from unset to true. An empty image takes the configured image and an empty schedule becomes the daily expression. Non-empty values are kept. |
| Jobs.SparkDependenciesSettled | pkg/strategy/controller.go:118-141 | A normalized dependencies subsection is left alone when its storage type and options are unchanged. |
| Jobs.NormalizeIndexCleaner | pkg/strategy/controller.go:143-157 | The flag changes exactly when the type is the exact string "elasticsearch" and the flag is unset. It then becomes true. The image goes through the resolver. An empty schedule becomes the daily expression and an unset retention becomes 7. Set values are kept. |
| Jobs.IndexCleanerIdempotent | pkg/strategy/controller.go:143-157 | Normalizing the index cleaner twice equals normalizing it once, when the image resolver is idempotent. |
| Jobs.NormalizeElasticsearch | pkg/strategy/controller.go:159-181 | A node count of 0 becomes 3 and any other count, negative included, is kept. An unset policy becomes Zero exactly when the defaulted count is 1, and Single otherwise. A set policy is kept. Absent resources become the fixed 16Gi/16Gi/1 CPU bundle, and present ones are kept whole. |
| Jobs.ElasticsearchIdempotent | pkg/strategy/controller.go:159-181 | Normalizing the Elasticsearch settings twice equals normalizing them once. |
| Jobs.NormalizeRollover | pkg/strategy/controller.go:183-188 | The image goes through the resolver. An empty schedule becomes the 30-minute expression and a set one is kept. |
| Jobs.RolloverIdempotent | pkg/strategy/controller.go:183-188 | Normalizing the rollover job twice equals normalizing it once, when the image resolver is idempotent. |
| UI.EnableArchiveButton | pkg/strategy/controller.go:205-214 | All other keys are kept. A present `archiveEnabled` is kept. An absent one is added exactly when an archive storage option reads "true" in any case, and its value is only ever `true`. |
| UI.DisableDependenciesTab | pkg/strategy/controller.go:216-235 | All other keys are kept. The table changes exactly when the tab is unsupported and there is room for `menuEnabled`: the tab is unsupported when the storage is not "memory" in any case and the job is not explicitly on. A non-table `dependencies` value, or one that already has `menuEnabled`, is untouched. When written, the nested table keeps its keys and gains `menuEnabled: false`. |
| UI.EnableLogOut | pkg/strategy/controller.go:237-271 | All other keys are kept. A present `menu` is kept. An absent one is added exactly when the ingress is not explicitly disabled and uses the OAuth proxy. Its value is `UI.Menu` of the documentation URL: the "About" entry linking "Documentation" to that URL and the "Log Out" link to `/oauth/sign_in` with anchor target `_self`. |
| UI.DeriveIdempotent | pkg/strategy/controller.go:197-199 | Applying the three derivations to their own output adds nothing. |
| UI.NormalizeUI | pkg/strategy/controller.go:190-203 | The options are either left as they were or replaced by a non-empty object. The object keeps every stored key, all except `dependencies` with unchanged values, and gains only the three derived keys. User-set values win. Each derived key appears exactly when its rule asks for it, with its fixed value. When the dependencies tab is supported, or `dependencies` already holds `menuEnabled` or is not a table, a stored `dependencies` value is unchanged and an absent one is not added. When `menuEnabled: false` is written into `dependencies`, the nested table keeps all its other keys and values and gains no other key. |
| Scenarios.MemoryStorageForcesAllInOne | pkg/strategy/controller.go:89-94 | Storage that is "memory" in any case, or unknown, always yields the all-in-one strategy. |
| Scenarios.ExplicitUISettingsWin | pkg/strategy/controller.go:205-245 | A user-set `archiveEnabled`, `menu`, or settled `dependencies` entry survives normalization unchanged. |
| Scenarios.IndexCleanerNeedsExactSpelling | pkg/strategy/controller.go:143-148 | Storage "Elasticsearch" is accepted as a known type, but it does not switch the index cleaner on. |
| Scenarios.ElasticsearchEnablesIndexCleaner | pkg/strategy/controller.go:143-157 | Storage "elasticsearch" with an empty cleaner yields an enabled cleaner with 7 days on the daily schedule. |
| Scenarios.RedundancyByNodeCount | pkg/strategy/controller.go:159-169 | One node gives ZeroRedundancy, five nodes give SingleRedundancy, and zero nodes become three with SingleRedundancy. |
| Scenarios.EmptyObjectResolvesToDefaults | pkg/strategy/controller.go:64-104 | An empty object on Kubernetes gets the default name, "memory" storage, the all-in-one strategy and explicit "none" security. |
| Scenarios.OpenShiftGetsLogOutMenu | pkg/strategy/controller.go:237-270 | On OpenShift with unset security, the OAuth proxy is chosen and the UI gains the log-out menu. |
| Scenarios.ArchiveOptionEnablesButton | pkg/strategy/controller.go:205-214 | `cassandra-archive.enabled: "true"` with no user setting yields `archiveEnabled: true`. |

## Left out

- Tracing spans and log messages are left out. They only observe and never affect control flow.
- The strategy constructors `newAllInOneStrategy`, `newStreamingStrategy` and `newProductionStrategy` are left out. `For` returns a `Topology` handle holding the normalized object instead. A secret is an opaque record carrying its name.
- The bodies of `storage.ValidTypes`, `cronjob.SupportedStorage`, `storage.ShouldDeployElasticsearch` and `util.ImageName` are left out, because they are in other packages. They are parameters in `Types.Env`.
- `resource.Quantity` parsing is left out. "16Gi" and "1" are kept as text.
- Unicode case folding is left out. `Strings.EqualFold` folds ASCII letters only, while Go's `strings.EqualFold` also folds other scripts (for example the Kelvin sign with "k").
- The menu's `fmt.Sprintf` plus `json.Unmarshal` round trip is left out. The model inserts the documentation URL verbatim. In the source, a URL containing a quote, a backslash or a control character would be decoded differently or would fail to decode.
- The JSON encoding of the UI options is left out. A stored object is a decoded map; any raw JSON that is not an object is one `Malformed` case. When a derivation then adds a key, the malformed text is replaced by the derived object, as in the source.
- `Unrecognized`, `SecurityOther` and `OtherPolicy` values whose text spells a named strategy, security mode or redundancy policy, and `OtherPolicy("")`, are not excluded by the types. They stand for no Go value, and the model gives them no meaning; in particular `Jobs.NormalizeElasticsearch` keeps `OtherPolicy("")` as a set policy, while Go's "" is unset.
- `nodeCount` is Go's `int32`. No arithmetic is done on it, so no wrap-around is modelled.
