/**
 * The dictionaries the harvester passes around: catalog package fields,
 * resource dictionaries, and the `force_key` accessor
 * (harvest_helpers.py:891-894).
 */
module Records {

  /**
   * A field value of a catalog package dictionary: a string, a boolean, a
   * list of strings (`tag_string`), a list of `{"id": ...}` group
   * references, a list of resources, or Python's `None`.
   */
  datatype Value =
    | Text(text: string)
    | Flag(flag: bool)
    | TextList(items: seq<string>)
    | GroupRefs(ids: seq<string>)
    | Resources(resources: seq<Resource>)
    | Null

  /**
   * A resource dictionary. Every resource the harvester compares carries a
   * `"url"` key (line 490 indexes it unconditionally); the remaining
   * keys (`name`, `description`, `format`, `wms_layer`, ...) are `fields`.
   */
  datatype Resource = Resource(url: string, fields: map<string, string>)

  /** The URLs present in a resource list. */
  function Urls(rs: seq<Resource>): set<string> {
    set i | 0 <= i < |rs| :: rs[i].url
  }

  /** No two resources of the list share a URL. */
  predicate UniqueUrls(rs: seq<Resource>) {
    forall i, j :: 0 <= i < j < |rs| ==> rs[i].url != rs[j].url
  }

  lemma UrlsAppend(a: seq<Resource>, b: seq<Resource>)
    ensures Urls(a + b) == Urls(a) + Urls(b)
  {
    var ab := a + b;
    forall u | u in Urls(ab) ensures u in Urls(a) + Urls(b) {
      var i :| 0 <= i < |ab| && ab[i].url == u;
      if i < |a| {
        assert a[i] == ab[i];
      } else {
        assert b[i - |a|] == ab[i];
      }
    }
    forall u | u in Urls(a) + Urls(b) ensures u in Urls(ab) {
      if u in Urls(a) {
        var i :| 0 <= i < |a| && a[i].url == u;
        assert ab[i] == a[i];
      } else {
        var i :| 0 <= i < |b| && b[i].url == u;
        assert ab[|a| + i] == b[i];
      }
    }
  }

  lemma UrlsSingle(r: Resource)
    ensures Urls([r]) == {r.url}
  {
    assert [r][0] == r;
  }

  /**
   * `force_key(d, k)`: the value under `k` when the key is there and not
   * `None`, else the empty string; so the result is never `None`.
   */
  function ForceKey(d: map<string, Value>, k: string): (r: Value)
    ensures r != Null
    ensures k in d && d[k] != Null ==> r == d[k]
    ensures !(k in d && d[k] != Null) ==> r == Text("")
  {
    if k in d && d[k] != Null then d[k] else Text("")
  }
}
