/**
 Derivation of the UI options from the resolved storage and ingress settings.
 Every derivation writes one key, and only when the user has not set it.
 */
module UI {
  import opened Strings
  import opened Types

  const ArchiveKey := "archiveEnabled"
  const DependenciesKey := "dependencies"
  const MenuEnabledKey := "menuEnabled"
  const MenuKey := "menu"
  const LogOutPath := "/oauth/sign_in"

  /** The navigation menu offered behind the OAuth proxy: an "About" entry with a
      link to the documentation, and a "Log Out" link. */
  function Menu(docUrl: string): Json
  {
    JArray([
      JObject(map[
        "label" := JString("About"),
        "items" := JArray([JObject(map["label" := JString("Documentation"), "url" := JString(docUrl)])])]),
      JObject(map[
        "label" := JString("Log Out"),
        "url" := JString(LogOutPath),
        "anchorTarget" := JString("_self")])])
  }

  /** The starting table: the stored object, or empty when nothing is stored or
      the stored JSON is not an object. */
  function Load(o: UIOptions): map<string, Json>
  {
    match o
    case Options(m) => m
    case _ => map[]
  }

  /** `r` keeps every entry of `m` except possibly the one at `key`, and has no
      entry that is not in `m` other than at `key`. */
  ghost predicate KeepsAllBut(m: map<string, Json>, r: map<string, Json>, key: string)
  {
    && (forall k :: k in m && k != key ==> k in r && r[k] == m[k])
    && (forall k :: k in r ==> k in m || k == key)
  }

  /** An archive storage is switched on in the storage options. */
  predicate ArchiveRequested(sOpts: map<string, string>)
  {
    || EqualFold(Lookup(sOpts, "es-archive.enabled"), "true")
    || EqualFold(Lookup(sOpts, "cassandra-archive.enabled"), "true")
  }

  /** `enableArchiveButton`. */
  function EnableArchiveButton(ui: map<string, Json>, sOpts: map<string, string>): (r: map<string, Json>)
    ensures KeepsAllBut(ui, r, ArchiveKey)
    // an explicit setting is respected
    ensures ArchiveKey in ui ==> ArchiveKey in r && r[ArchiveKey] == ui[ArchiveKey]
    ensures ArchiveKey !in ui ==> (ArchiveKey in r <==> ArchiveRequested(sOpts))
    // the derived value is only ever `true`
    ensures ArchiveKey in r && ArchiveKey !in ui ==> r[ArchiveKey] == JBool(true)
  {
    if ArchiveKey !in ui && ArchiveRequested(sOpts) then ui[ArchiveKey := JBool(true)] else ui
  }

  /** The dependencies tab works: in-memory storage, or the job explicitly on. */
  predicate DependenciesTabSupported(storageType: string, depsEnabled: Option<bool>)
  {
    EqualFold(storageType, "memory") || depsEnabled == Some(true)
  }

  /** The nested table under `dependencies`, empty when there is none. */
  function DependenciesFields(ui: map<string, Json>): map<string, Json>
  {
    if DependenciesKey in ui && ui[DependenciesKey].JObject? then ui[DependenciesKey].fields else map[]
  }

  /** There is room to write `dependencies.menuEnabled`: no `dependencies`
      entry, or a table without `menuEnabled`. */
  predicate MenuEnabledOpen(ui: map<string, Json>)
  {
    DependenciesKey !in ui || (ui[DependenciesKey].JObject? && MenuEnabledKey !in ui[DependenciesKey].fields)
  }

  /** `disableDependenciesTab`. */
  function DisableDependenciesTab(ui: map<string, Json>, storageType: string, depsEnabled: Option<bool>)
    : (r: map<string, Json>)
    ensures KeepsAllBut(ui, r, DependenciesKey)
    ensures r != ui <==> !DependenciesTabSupported(storageType, depsEnabled) && MenuEnabledOpen(ui)
    // a `dependencies` entry of another shape, or with `menuEnabled`, is never touched
    ensures DependenciesKey in ui && !MenuEnabledOpen(ui) ==> r == ui
    // when written, the nested table keeps its other keys and gains `menuEnabled: false`
    ensures r != ui ==>
              && DependenciesKey in r && r[DependenciesKey].JObject?
              && KeepsAllBut(DependenciesFields(ui), r[DependenciesKey].fields, MenuEnabledKey)
              && MenuEnabledKey in r[DependenciesKey].fields
              && r[DependenciesKey].fields[MenuEnabledKey] == JBool(false)
  {
    if DependenciesTabSupported(storageType, depsEnabled) || !MenuEnabledOpen(ui) then ui
    else
      var deps := DependenciesFields(ui);
      assert MenuEnabledKey !in deps;
      ui[DependenciesKey := JObject(deps[MenuEnabledKey := JBool(false)])]
  }

  /** The ingress is not explicitly disabled and runs behind the OAuth proxy. */
  predicate LogOutOffered(ingress: IngressSpec)
  {
    ingress.enabled != Some(false) && ingress.security == OAuthProxy
  }

  /** `enableLogOut`. */
  function EnableLogOut(ui: map<string, Json>, ingress: IngressSpec, docUrl: string): (r: map<string, Json>)
    ensures KeepsAllBut(ui, r, MenuKey)
    ensures MenuKey in ui ==> MenuKey in r && r[MenuKey] == ui[MenuKey]
    ensures MenuKey !in ui ==> (MenuKey in r <==> LogOutOffered(ingress))
    ensures MenuKey in r && MenuKey !in ui ==> r[MenuKey] == Menu(docUrl)
  {
    if !LogOutOffered(ingress) || MenuKey in ui then ui else ui[MenuKey := Menu(docUrl)]
  }

  /** The three derivations in source order, on an in-memory table. */
  function Derive(ui: map<string, Json>, storage: StorageSpec, ingress: IngressSpec, docUrl: string)
    : map<string, Json>
  {
    var a := EnableArchiveButton(ui, storage.options);
    var d := DisableDependenciesTab(a, storage.storageType, storage.dependencies.enabled);
    EnableLogOut(d, ingress, docUrl)
  }

  /** Deriving again from a derived table adds nothing: each derivation leaves
      its own key settled and the others never touch it. */
  lemma DeriveIdempotent(ui: map<string, Json>, storage: StorageSpec, ingress: IngressSpec, docUrl: string)
    ensures var m := Derive(ui, storage, ingress, docUrl);
            Derive(m, storage, ingress, docUrl) == m
  {
  }

  /** `normalizeUI`: derive from the loaded table and store the result only when
      it is non-empty. */
  function NormalizeUI(spec: JaegerSpec, docUrl: string): (r: UIOptions)
    // the options are either left as they were or replaced by a non-empty object
    ensures r == spec.ui || (r.Options? && r.entries != map[])
    // a stored object keeps all its keys, all but `dependencies` with their values
    ensures Load(spec.ui) != map[] ==>
              && r.Options?
              && (forall k :: k in Load(spec.ui) ==> k in r.entries)
              && (forall k :: k in Load(spec.ui) && k != DependenciesKey ==> r.entries[k] == Load(spec.ui)[k])
    // only the three derived keys can be new
    ensures r.Options? && r != spec.ui ==>
              forall k :: k in r.entries ==> k in Load(spec.ui) || k == ArchiveKey || k == DependenciesKey || k == MenuKey
    // explicit settings win over every derivation
    ensures ArchiveKey in Load(spec.ui) ==>
              r.Options? && ArchiveKey in r.entries && r.entries[ArchiveKey] == Load(spec.ui)[ArchiveKey]
    ensures MenuKey in Load(spec.ui) ==>
              r.Options? && MenuKey in r.entries && r.entries[MenuKey] == Load(spec.ui)[MenuKey]
    ensures DependenciesKey in Load(spec.ui) && !MenuEnabledOpen(Load(spec.ui)) ==>
              r.Options? && DependenciesKey in r.entries &&
              r.entries[DependenciesKey] == Load(spec.ui)[DependenciesKey]
    // each derived key is written exactly when its rule asks for it and the key is free
    ensures ArchiveKey !in Load(spec.ui) ==>
              (r.Options? && ArchiveKey in r.entries && r != spec.ui <==> ArchiveRequested(spec.storage.options))
    ensures ArchiveKey !in Load(spec.ui) && ArchiveRequested(spec.storage.options) ==>
              r.entries[ArchiveKey] == JBool(true)
    ensures MenuKey !in Load(spec.ui) ==>
              (r.Options? && MenuKey in r.entries && r != spec.ui <==> LogOutOffered(spec.ingress))
    ensures MenuKey !in Load(spec.ui) && LogOutOffered(spec.ingress) ==> r.entries[MenuKey] == Menu(docUrl)
    ensures MenuEnabledOpen(Load(spec.ui)) &&
            !DependenciesTabSupported(spec.storage.storageType, spec.storage.dependencies.enabled) ==>
              && r.Options? && DependenciesKey in r.entries && r.entries[DependenciesKey].JObject?
              && MenuEnabledKey in r.entries[DependenciesKey].fields
              && r.entries[DependenciesKey].fields[MenuEnabledKey] == JBool(false)
              && KeepsAllBut(DependenciesFields(Load(spec.ui)), r.entries[DependenciesKey].fields, MenuEnabledKey)
    ensures DependenciesTabSupported(spec.storage.storageType, spec.storage.dependencies.enabled) ||
            !MenuEnabledOpen(Load(spec.ui)) ==>
              && (DependenciesKey in Load(spec.ui) ==>
                    r.Options? && DependenciesKey in r.entries &&
                    r.entries[DependenciesKey] == Load(spec.ui)[DependenciesKey])
              && (DependenciesKey !in Load(spec.ui) ==> !(r.Options? && DependenciesKey in r.entries))
  {
    var m := Derive(Load(spec.ui), spec.storage, spec.ingress, docUrl);
    if |m| > 0 then Options(m) else spec.ui
  }
}
