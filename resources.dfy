/**
 * `add_resource_to_list` and `add_resources_to_list`
 * (harvest_helpers.py:479-517): a resource list is extended in place with
 * the resources whose URL it does not yet hold.
 */
module Resources {
  import opened Records

  // ---------------------------------------------------------------------------
  // Specification

  /** `add_resource_to_list`'s outcome: `r` is appended exactly when its URL is new. */
  function AddIfNew(rs: seq<Resource>, r: Resource): seq<Resource> {
    if r.url in Urls(rs) then rs else rs + [r]
  }

  /**
   * Whether the `j`-th incoming resource is appended by the merge: its URL
   * is neither among the existing ones nor on an earlier incoming resource
   * (the first occurrence wins).
   */
  predicate IsAppended(existing: seq<Resource>, incoming: seq<Resource>, j: nat)
    requires j < |incoming|
  {
    incoming[j].url !in Urls(existing) && incoming[j].url !in Urls(incoming[..j])
  }

  /** The incoming resources the merge appends, in their incoming order. */
  function Appended(existing: seq<Resource>, incoming: seq<Resource>): (r: seq<Resource>)
    ensures |r| <= |incoming|
    decreases |incoming|
  {
    if incoming == [] then []
    else
      var k := |incoming| - 1;
      Appended(existing, incoming[..k]) + (if IsAppended(existing, incoming, k) then [incoming[k]] else [])
  }

  /** What `add_resources_to_list(existing, incoming)` leaves in `existing`. */
  function Merged(existing: seq<Resource>, incoming: seq<Resource>): seq<Resource> {
    existing + Appended(existing, incoming)
  }

  // ---------------------------------------------------------------------------
  // Properties

  /** Adding one resource keeps the list as a prefix and adds exactly its URL. */
  lemma AddIfNewUrls(rs: seq<Resource>, r: Resource)
    ensures rs <= AddIfNew(rs, r)
    ensures Urls(AddIfNew(rs, r)) == Urls(rs) + {r.url}
    ensures |AddIfNew(rs, r)| == |rs| + (if r.url in Urls(rs) then 0 else 1)
  {
    if r.url !in Urls(rs) {
      UrlsAppend(rs, [r]);
      UrlsSingle(r);
    }
  }

  lemma UniqueSnoc(rs: seq<Resource>, r: Resource)
    requires UniqueUrls(rs) && r.url !in Urls(rs)
    ensures UniqueUrls(rs + [r])
  {
    var s := rs + [r];
    forall i, j | 0 <= i < j < |s| ensures s[i].url != s[j].url {
      if j == |rs| {
        assert s[i] == rs[i];
      } else {
        assert s[i] == rs[i] && s[j] == rs[j];
      }
    }
  }

  /** `add_resource_to_list` never introduces a duplicate URL. */
  lemma AddIfNewUnique(rs: seq<Resource>, r: Resource)
    requires UniqueUrls(rs)
    ensures UniqueUrls(AddIfNew(rs, r))
  {
    if r.url !in Urls(rs) {
      UniqueSnoc(rs, r);
    }
  }

  lemma UniqueAppend(a: seq<Resource>, b: seq<Resource>)
    requires UniqueUrls(a) && UniqueUrls(b) && Urls(a) !! Urls(b)
    ensures UniqueUrls(a + b)
  {
    var s := a + b;
    forall i, j | 0 <= i < j < |s| ensures s[i].url != s[j].url {
      if j < |a| {
        assert s[i] == a[i] && s[j] == a[j];
      } else if i < |a| {
        assert s[i] == a[i] && s[j] == b[j - |a|];
        assert s[i].url in Urls(a) && s[j].url in Urls(b);
      } else {
        assert s[i] == b[i - |a|] && s[j] == b[j - |a|];
      }
    }
  }

  /** The appended URLs are the incoming URLs that were not already present. */
  lemma {:induction false} AppendedUrls(existing: seq<Resource>, incoming: seq<Resource>)
    ensures Urls(Appended(existing, incoming)) == Urls(incoming) - Urls(existing)
    decreases |incoming|
  {
    if incoming != [] {
      var k := |incoming| - 1;
      var front, r := incoming[..k], incoming[k];
      AppendedUrls(existing, front);
      assert incoming == front + [r];
      UrlsAppend(front, [r]);
      UrlsSingle(r);
      if IsAppended(existing, incoming, k) {
        UrlsAppend(Appended(existing, front), [r]);
      } else {
        assert Appended(existing, front) + [] == Appended(existing, front);
      }
    }
  }

  /** The merge appends no two resources with the same URL, and none already present. */
  lemma {:induction false} AppendedUnique(existing: seq<Resource>, incoming: seq<Resource>)
    ensures UniqueUrls(Appended(existing, incoming))
    ensures Urls(Appended(existing, incoming)) !! Urls(existing)
    decreases |incoming|
  {
    AppendedUrls(existing, incoming);
    if incoming != [] {
      var k := |incoming| - 1;
      var front := incoming[..k];
      AppendedUnique(existing, front);
      if IsAppended(existing, incoming, k) {
        AppendedUrls(existing, front);
        UniqueSnoc(Appended(existing, front), incoming[k]);
      } else {
        assert Appended(existing, front) + [] == Appended(existing, front);
      }
    }
  }

  /** Every appended resource is one of the incoming resources. */
  lemma {:induction false} AppendedFromIncoming(existing: seq<Resource>, incoming: seq<Resource>)
    ensures forall x :: x in Appended(existing, incoming) ==> x in incoming
    decreases |incoming|
  {
    if incoming != [] {
      var k := |incoming| - 1;
      AppendedFromIncoming(existing, incoming[..k]);
      forall x | x in incoming[..k] ensures x in incoming {
        var i :| 0 <= i < k && incoming[..k][i] == x;
        assert incoming[i] == x;
      }
    }
  }

  /** When every incoming URL is already present, nothing is appended. */
  lemma AppendedNothingNew(existing: seq<Resource>, incoming: seq<Resource>)
    requires Urls(incoming) <= Urls(existing)
    ensures Appended(existing, incoming) == []
  {
    AppendedUrls(existing, incoming);
  }

  /** The merged list holds exactly the URLs of both lists. */
  lemma MergedUrls(existing: seq<Resource>, incoming: seq<Resource>)
    ensures existing <= Merged(existing, incoming)
    ensures Urls(Merged(existing, incoming)) == Urls(existing) + Urls(incoming)
  {
    AppendedUrls(existing, incoming);
    UrlsAppend(existing, Appended(existing, incoming));
  }

  /** A merge into a list without duplicate URLs leaves none, whatever the incoming list holds. */
  lemma MergedUnique(existing: seq<Resource>, incoming: seq<Resource>)
    requires UniqueUrls(existing)
    ensures UniqueUrls(Merged(existing, incoming))
  {
    AppendedUnique(existing, incoming);
    UniqueAppend(existing, Appended(existing, incoming));
  }

  /** Merging the same incoming list a second time changes nothing. */
  lemma MergedIdempotent(existing: seq<Resource>, incoming: seq<Resource>)
    ensures Merged(Merged(existing, incoming), incoming) == Merged(existing, incoming)
  {
    var m := Merged(existing, incoming);
    MergedUrls(existing, incoming);
    AppendedNothingNew(m, incoming);
  }

  /**
   * The merge is `add_resource_to_list` applied to each incoming resource in
   * turn, as the loop at lines 515-516 does.
   */
  lemma MergedSnoc(existing: seq<Resource>, incoming: seq<Resource>, r: Resource)
    ensures Merged(existing, incoming + [r]) == AddIfNew(Merged(existing, incoming), r)
  {
    var n := incoming + [r];
    assert n[..|incoming|] == incoming;
    assert r.url in Urls(Merged(existing, incoming)) <==> r.url in Urls(existing) || r.url in Urls(incoming) by {
      MergedUrls(existing, incoming);
    }
  }

  /** With a single incoming resource the merge is `add_resource_to_list`. */
  lemma MergedSingle(existing: seq<Resource>, r: Resource)
    ensures Merged(existing, [r]) == AddIfNew(existing, r)
  {
    MergedSnoc(existing, [], r);
    assert [] + [r] == [r];
  }

  /**
   * Existing `[a, b]` merged with incoming `[b', c]`, where `b'` has `b`'s
   * URL: the existing order is kept and only `c` is appended.
   */
  lemma MergeKeepsExistingOrder(a: Resource, b: Resource, b': Resource, c: Resource)
    requires a.url == "a" && b.url == "b" && b'.url == "b" && c.url == "c"
    ensures Merged([a, b], [b', c]) == [a, b, c]
  {
    MergedSingle([a, b], b');
    assert Urls([a, b]) == {"a", "b"} by {
      assert [a, b][0] == a && [a, b][1] == b;
    }
    MergedSnoc([a, b], [b'], c);
    assert [b'] + [c] == [b', c];
    assert Urls([a, b]) + {b'.url} == {"a", "b"};
  }

  /** Of two incoming resources with the same new URL, only the first is appended. */
  lemma FirstOccurrenceWins(existing: seq<Resource>, r: Resource, r': Resource)
    requires r.url == r'.url && r.url !in Urls(existing)
    ensures Merged(existing, [r, r']) == existing + [r]
  {
    MergedSingle(existing, r);
    MergedSnoc(existing, [r], r');
    assert [r] + [r'] == [r, r'];
    UrlsAppend(existing, [r]);
    UrlsSingle(r);
  }

  // ---------------------------------------------------------------------------
  // The list object and the two procedures

  /** A Python list of resource dictionaries, which the two procedures extend in place. */
  class ResourceList {
    var items: seq<Resource>

    constructor (rs: seq<Resource>)
      ensures items == rs
    {
      items := rs;
    }
  }

  /** Whether some resource of `rs` has URL `url`: the membership test at line 490. */
  method HasUrl(rs: seq<Resource>, url: string) returns (found: bool)
    ensures found <==> url in Urls(rs)
  {
    found := false;
    var i := 0;
    while i < |rs| && !found
      invariant 0 <= i <= |rs|
      invariant found <==> url in Urls(rs[..i])
    {
      UrlsAppend(rs[..i], [rs[i]]);
      UrlsSingle(rs[i]);
      assert rs[..i + 1] == rs[..i] + [rs[i]];
      found := rs[i].url == url;
      i := i + 1;
    }
    if found {
      UrlsAppend(rs[..i], rs[i..]);
      assert rs == rs[..i] + rs[i..];
    } else {
      assert rs[..i] == rs;
    }
  }

  /** `add_resource_to_list(list, r)`: appends `r` when its URL is new and returns the same list. */
  method AddResourceToList(list: ResourceList, r: Resource) returns (result: ResourceList)
    modifies list
    ensures result == list
    ensures list.items == AddIfNew(old(list.items), r)
  {
    var present := HasUrl(list.items, r.url);
    if !present {
      list.items := list.items + [r];
    }
    result := list;
  }

  /**
   * `add_resources_to_list(existing, incoming)`: adds each incoming resource
   * in turn; `existing` itself is extended and returned.
   */
  method AddResourcesToList(existing: ResourceList, incoming: seq<Resource>) returns (result: ResourceList)
    modifies existing
    ensures result == existing
    ensures existing.items == Merged(old(existing.items), incoming)
  {
    result := existing;
    assert Merged(existing.items, incoming[..0]) == existing.items;
    for i := 0 to |incoming|
      invariant result == existing
      invariant existing.items == Merged(old(existing.items), incoming[..i])
    {
      MergedSnoc(old(existing.items), incoming[..i], incoming[i]);
      assert incoming[..i + 1] == incoming[..i] + [incoming[i]];
      result := AddResourceToList(result, incoming[i]);
    }
    assert incoming[..|incoming|] == incoming;
  }
}
