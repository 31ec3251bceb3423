/**
 * `upsert_dataset` (harvest_helpers.py:520-612) over an abstract catalog:
 * a package that is not found is created; one that is found is written
 * back with its resources replaced or merged and its metadata overwritten
 * or kept.
 */
module Upsert {
  import opened Wrappers
  import opened Records
  import opened Resources

  /** A package as the catalog holds it: its fields other than `name` and `resources`, and its resources. */
  datatype StoredPackage = StoredPackage(metadata: map<string, Value>, resources: seq<Resource>)

  // ---------------------------------------------------------------------------
  // Specification

  /**
   * The package written back over `existing`: the incoming resources, or the
   * existing ones with the new URLs appended; the incoming metadata, or the
   * existing metadata.
   */
  function Reconciled(existing: StoredPackage, incoming: StoredPackage,
                      overwriteMetadata: bool, dropExistingResources: bool): StoredPackage
  {
    StoredPackage(
      if overwriteMetadata then incoming.metadata else existing.metadata,
      if dropExistingResources then incoming.resources else Merged(existing.resources, incoming.resources))
  }

  /** The catalog after upserting `incoming` under `name`: created when absent, reconciled when present. */
  function Upserted(store: map<string, StoredPackage>, name: string, incoming: StoredPackage,
                    overwriteMetadata: bool, dropExistingResources: bool): map<string, StoredPackage>
  {
    if name in store then store[name := Reconciled(store[name], incoming, overwriteMetadata, dropExistingResources)]
    else store[name := incoming]
  }

  // ---------------------------------------------------------------------------
  // Properties

  /**
   * After an upsert the package is stored under its name and holds every
   * incoming URL; the existing resources survive, in order, unless they were
   * dropped; no other package changes.
   */
  lemma UpsertedResources(store: map<string, StoredPackage>, name: string, incoming: StoredPackage,
                          overwriteMetadata: bool, dropExistingResources: bool)
    ensures var after := Upserted(store, name, incoming, overwriteMetadata, dropExistingResources);
      && name in after
      && (name in store && !dropExistingResources ==>
            store[name].resources <= after[name].resources
            && Urls(after[name].resources) == Urls(store[name].resources) + Urls(incoming.resources))
      && (name !in store || dropExistingResources ==> after[name].resources == incoming.resources)
      && (forall k :: k != name ==> (k in after <==> k in store))
      && (forall k :: k != name && k in store ==> after[k] == store[k])
  {
    if name in store && !dropExistingResources {
      MergedUrls(store[name].resources, incoming.resources);
    }
  }

  /** The metadata written are the incoming ones, unless an existing package is kept as it was. */
  lemma UpsertedMetadata(store: map<string, StoredPackage>, name: string, incoming: StoredPackage,
                         overwriteMetadata: bool, dropExistingResources: bool)
    ensures var after := Upserted(store, name, incoming, overwriteMetadata, dropExistingResources);
      && name in after
      && after[name].metadata == if name in store && !overwriteMetadata then store[name].metadata else incoming.metadata
  {
  }

  /**
   * No upsert leaves duplicate URLs in a package whose stored and incoming
   * resource lists had none; merging needs only the stored list to be free
   * of them.
   */
  lemma UpsertedUnique(store: map<string, StoredPackage>, name: string, incoming: StoredPackage,
                       overwriteMetadata: bool, dropExistingResources: bool)
    requires name in store ==> UniqueUrls(store[name].resources)
    requires name !in store || dropExistingResources ==> UniqueUrls(incoming.resources)
    ensures UniqueUrls(Upserted(store, name, incoming, overwriteMetadata, dropExistingResources)[name].resources)
  {
    if name in store && !dropExistingResources {
      MergedUnique(store[name].resources, incoming.resources);
    }
  }

  /** Upserting the same package twice in a row leaves the catalog as the first upsert did, for every flag. */
  lemma UpsertedIdempotent(store: map<string, StoredPackage>, name: string, incoming: StoredPackage,
                           overwriteMetadata: bool, dropExistingResources: bool)
    ensures var once := Upserted(store, name, incoming, overwriteMetadata, dropExistingResources);
      Upserted(once, name, incoming, overwriteMetadata, dropExistingResources) == once
  {
    var once := Upserted(store, name, incoming, overwriteMetadata, dropExistingResources);
    var again := Reconciled(once[name], incoming, overwriteMetadata, dropExistingResources);
    if !dropExistingResources {
      if name in store {
        MergedIdempotent(store[name].resources, incoming.resources);
      } else {
        AppendedNothingNew(incoming.resources, incoming.resources);
        assert incoming.resources + [] == incoming.resources;
      }
    }
    assert again == once[name];
    assert once[name := again] == once;
  }

  /**
   * Stored `[a, b]` and incoming `[b', c]` (where `b'` has `b`'s URL): merging
   * gives `[a, b, c]`, dropping gives `[b', c]`, and with overwriting off the
   * stored metadata are kept.
   */
  lemma UpsertExamples(meta: map<string, Value>, meta': map<string, Value>, name: string,
                       a: Resource, b: Resource, b': Resource, c: Resource)
    requires a.url == "a" && b.url == "b" && b'.url == "b" && c.url == "c"
    ensures var store := map[name := StoredPackage(meta, [a, b])];
      var incoming := StoredPackage(meta', [b', c]);
      && Upserted(store, name, incoming, true, false)[name] == StoredPackage(meta', [a, b, c])
      && Upserted(store, name, incoming, true, true)[name] == StoredPackage(meta', [b', c])
      && Upserted(store, name, incoming, false, false)[name] == StoredPackage(meta, [a, b, c])
  {
    MergeKeepsExistingOrder(a, b, b', c);
  }

  // ---------------------------------------------------------------------------
  // The dictionaries and the catalog

  /**
   * A package dictionary in memory: its `name` (`None` when the key is
   * absent), its other fields, and the list object under `resources`.
   */
  class Package {
    var name: Option<string>
    var metadata: map<string, Value>
    var resources: ResourceList

    constructor (name: Option<string>, metadata: map<string, Value>, resources: ResourceList)
      ensures this.name == name && this.metadata == metadata && this.resources == resources
    {
      this.name := name;
      this.metadata := metadata;
      this.resources := resources;
    }
  }

  /** The catalog behind `ckanapi.action`: the stored packages by name. */
  class Catalog {
    var packages: map<string, StoredPackage>

    constructor (packages: map<string, StoredPackage>)
      ensures this.packages == packages
    {
      this.packages := packages;
    }

    /** `package_show(id=name)`: a fresh dictionary of the stored package, or `None` when it is not found. */
    method PackageShow(name: string) returns (p: Option<Package>)
      ensures p.Some? <==> name in packages
      ensures p.Some? ==> fresh(p.value) && fresh(p.value.resources)
      ensures p.Some? ==> p.value.name == Some(name) && p.value.metadata == packages[name].metadata
                          && p.value.resources.items == packages[name].resources
    {
      if name in packages {
        var rs := new ResourceList(packages[name].resources);
        var pkg := new Package(Some(name), packages[name].metadata, rs);
        p := Some(pkg);
      } else {
        p := None;
      }
    }

    /** `package_create(**p)` and `package_update(**p)`: store `p` under its name and return a fresh copy. */
    method PackageWrite(p: Package) returns (written: Package)
      requires p.name.Some?
      modifies this
      ensures packages == old(packages)[p.name.value := StoredPackage(p.metadata, p.resources.items)]
      ensures fresh(written) && fresh(written.resources)
      ensures written.name == p.name && written.metadata == p.metadata && written.resources.items == p.resources.items
    {
      packages := packages[p.name.value := StoredPackage(p.metadata, p.resources.items)];
      var rs := new ResourceList(p.resources.items);
      written := new Package(p.name, p.metadata, rs);
    }
  }

  // ---------------------------------------------------------------------------
  // upsert_dataset

  /**
   * `upsert_dataset(dataDict, ckan, overwriteMetadata, dropExistingResources)`.
   * Without a dictionary or a name nothing happens. Otherwise the catalog
   * becomes `Upserted(...)` and a fresh copy of the written package is
   * returned. The incoming resource list is never changed, but when an
   * existing package is merged with overwriting on, `dataDict` is left
   * pointing at the merged list, as the assignment at line 601 does.
   */
  method UpsertDataset(dataDict: Package?, ckan: Catalog, overwriteMetadata: bool, dropExistingResources: bool)
    returns (result: Package?)
    modifies ckan, dataDict
    ensures dataDict == null || dataDict.name.None? ==>
      result == null && ckan.packages == old(ckan.packages)
      && (dataDict != null ==> dataDict.resources == old(dataDict.resources))
    ensures dataDict != null && dataDict.name.Some? ==>
      var name := dataDict.name.value;
      var incoming := StoredPackage(old(dataDict.metadata), old(dataDict.resources.items));
      && ckan.packages == Upserted(old(ckan.packages), name, incoming, overwriteMetadata, dropExistingResources)
      && result != null && fresh(result)
      && result.name == Some(name)
      && result.metadata == ckan.packages[name].metadata
      && result.resources.items == ckan.packages[name].resources
    ensures dataDict != null ==> dataDict.name == old(dataDict.name) && dataDict.metadata == old(dataDict.metadata)
    ensures dataDict != null ==> old(dataDict.resources).items == old(dataDict.resources.items)
    ensures dataDict != null && dataDict.name.Some? ==>
      if dataDict.name.value in old(ckan.packages) && overwriteMetadata && !dropExistingResources
      then fresh(dataDict.resources)
           && dataDict.resources.items == Merged(old(ckan.packages)[dataDict.name.value].resources, old(dataDict.resources.items))
      else dataDict.resources == old(dataDict.resources)
  {
    if dataDict == null {
      return null;
    }
    if dataDict.name.None? {
      return null;
    }
    var name := dataDict.name.value;
    var newPackage := dataDict;
    var newResources := dataDict.resources;
    var found := ckan.PackageShow(name);
    match found
    case None =>
      result := ckan.PackageWrite(dataDict);
    case Some(package) =>
      var oldResources := package.resources;
      var resources: ResourceList;
      if dropExistingResources {
        resources := newResources;
      } else {
        resources := AddResourcesToList(oldResources, newResources.items);
      }
      var pkg := if overwriteMetadata then newPackage else package;
      pkg.resources := resources;
      result := ckan.PackageWrite(pkg);
  }
}
