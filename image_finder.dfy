/** Validation of the resources an image request refers to, against the catalog, before an
    image resource is handed out (ImageFinder.findTarget). */
module ImageFinder {
  import opened Wrappers
  import opened RestStatus
  import opened Requests

  type StoreId = string
  type NamespaceId = string
  type FeatureTypeId = string

  /** The catalog lookups the finder uses. Datastores and namespaces are keyed by a possibly
      null workspace name, so what a null workspace resolves to is left to the catalog. */
  datatype Catalog = Catalog(
    workspaces: set<string>,
    dataStores: map<(Option<string>, string), StoreId>,
    typesByStore: map<(StoreId, string), FeatureTypeId>,
    namespaces: map<Option<string>, NamespaceId>,
    typesByNamespace: map<(NamespaceId, string), FeatureTypeId>)

  function DataStoreByName(c: Catalog, ws: Option<string>, ds: string): Option<StoreId> {
    if (ws, ds) in c.dataStores then Some(c.dataStores[(ws, ds)]) else None
  }

  /** A feature type of a datastore by name; a null name finds nothing. */
  function FeatureTypeByDataStore(c: Catalog, store: StoreId, ft: Option<string>): Option<FeatureTypeId> {
    if ft.Some? && (store, ft.value) in c.typesByStore then Some(c.typesByStore[(store, ft.value)]) else None
  }

  function NamespaceByPrefix(c: Catalog, ws: Option<string>): Option<NamespaceId> {
    if ws in c.namespaces then Some(c.namespaces[ws]) else None
  }

  /** A feature type of a namespace by name; a null name finds nothing. */
  function FeatureTypeByName(c: Catalog, ns: NamespaceId, ft: Option<string>): Option<FeatureTypeId> {
    if ft.Some? && (ns, ft.value) in c.typesByNamespace then Some(c.typesByNamespace[(ns, ft.value)]) else None
  }

  /** The feature type found through the namespace named after the workspace, if any. */
  function NamespaceFeatureType(c: Catalog, a: Attributes): Option<FeatureTypeId> {
    match NamespaceByPrefix(c, a.workspace)
    case None => None
    case Some(ns) => FeatureTypeByName(c, ns, a.featureType)
  }

  /** The named workspace, if any, exists. */
  predicate WorkspaceExists(c: Catalog, a: Attributes) {
    a.workspace.None? || a.workspace.value in c.workspaces
  }

  /** The named datastore, if any, exists under the workspace. */
  predicate DataStoreExists(c: Catalog, a: Attributes) {
    a.datastore.None? || DataStoreByName(c, a.workspace, a.datastore.value).Some?
  }

  /** The named datastore, if any, holds the feature type. */
  predicate DataStoreHasFeatureType(c: Catalog, a: Attributes) {
    a.datastore.None? ||
    (DataStoreByName(c, a.workspace, a.datastore.value).Some? &&
     FeatureTypeByDataStore(c, DataStoreByName(c, a.workspace, a.datastore.value).value, a.featureType).Some?)
  }

  /** Checks, in order, that the named workspace, datastore and feature type exist, and
      returns the feature type the image resource is built for. */
  function FindTarget(c: Catalog, a: Attributes): (r: Result<FeatureTypeId, Failure>)
    ensures r.Err? ==> r.error.status == NotFound
    ensures r.Ok? <==>
      WorkspaceExists(c, a) && DataStoreHasFeatureType(c, a) && NamespaceFeatureType(c, a).Some?
    ensures r.Ok? ==> a.featureType.Some? && Some(r.value) == NamespaceFeatureType(c, a)
  {
    if a.workspace.Some? && a.workspace.value !in c.workspaces then
      Err(Failure(NotFound, NoSuchWorkspace))
    else if a.datastore.Some? && DataStoreByName(c, a.workspace, a.datastore.value).None? then
      Err(Failure(NotFound, NoSuchDataStore))
    else if a.datastore.Some?
      && FeatureTypeByDataStore(c, DataStoreByName(c, a.workspace, a.datastore.value).value, a.featureType).None? then
      Err(Failure(NotFound, NoSuchFeatureTypeInStore))
    else
      match NamespaceByPrefix(c, a.workspace)
      case None => Err(Failure(NotFound, NoSuchFeatureType))
      case Some(ns) =>
        match FeatureTypeByName(c, ns, a.featureType)
        case None => Err(Failure(NotFound, NoSuchFeatureType))
        case Some(featureType) => Ok(featureType)
  }

  /** The first failing check decides the error: workspace, then datastore, then the feature
      type in the datastore, then the namespace lookup. */
  lemma FirstFailureDecides(c: Catalog, a: Attributes)
    ensures !WorkspaceExists(c, a) ==>
      FindTarget(c, a) == Err(Failure(NotFound, NoSuchWorkspace))
    ensures WorkspaceExists(c, a) && !DataStoreExists(c, a) ==>
      FindTarget(c, a) == Err(Failure(NotFound, NoSuchDataStore))
    ensures WorkspaceExists(c, a) && DataStoreExists(c, a) && !DataStoreHasFeatureType(c, a) ==>
      FindTarget(c, a) == Err(Failure(NotFound, NoSuchFeatureTypeInStore))
    ensures WorkspaceExists(c, a) && DataStoreHasFeatureType(c, a) && NamespaceFeatureType(c, a).None? ==>
      FindTarget(c, a) == Err(Failure(NotFound, NoSuchFeatureType))
  {
  }

  /** Once the datastore checks pass, the namespace lookup decides the outcome, and the feature
      type handed on is the namespace's even when the datastore holds a different one. */
  lemma NamespaceDecides(c: Catalog, a: Attributes)
    requires WorkspaceExists(c, a) && DataStoreHasFeatureType(c, a)
    ensures NamespaceFeatureType(c, a).Some? ==> FindTarget(c, a) == Ok(NamespaceFeatureType(c, a).value)
    ensures NamespaceFeatureType(c, a).None? ==> FindTarget(c, a) == Err(Failure(NotFound, NoSuchFeatureType))
  {
  }

  /** A catalog in which the datastore and the namespace know the feature type under different
      entries: the lookup succeeds with the namespace's entry. */
  lemma NamespaceEntryWins()
    ensures var c := Catalog({"topp"}, map[(Some("topp"), "shapes") := "store1"],
                             map[("store1", "roads") := "roads-by-store"],
                             map[Some("topp") := "ns1"], map[("ns1", "roads") := "roads-by-namespace"]);
            var a := Attributes(Some("topp"), Some("shapes"), Some("roads"), Some("roads.1"), Some("photos"), None, None);
      FindTarget(c, a) == Ok("roads-by-namespace")
  {
  }

  /** Validation only reads workspace, datastore and feature type: fid, attribute, file and
      format never change the outcome, so every fid (or none) gets the same resource. */
  lemma OnlyNamedLevelsMatter(c: Catalog, a: Attributes, fid: Option<string>, attribute: Option<string>,
                              file: Option<string>, format: Option<string>)
    ensures FindTarget(c, a.(fid := fid, attribute := attribute, file := file, format := format)) == FindTarget(c, a)
  {
  }
}
