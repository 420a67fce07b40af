/** The shape cache of interactive.py: an insertion-ordered dictionary from
    category name to skeleton, filled by `build_cache` (interactive.py:69-92). */
module ShapeCaching {
  import opened JsonValues
  import opened Skeleton

  /** A Python dictionary never holds a key twice. */
  predicate DistinctKeys(fs: seq<Field>) {
    forall i, j :: 0 <= i < j < |fs| ==> fs[i].key != fs[j].key
  }

  /** `d[name] = value`: an existing key keeps its position and takes the new
      value, a new key goes last. */
  function Put(fs: seq<Field>, name: string, value: Json): (r: seq<Field>)
    ensures DistinctKeys(fs) ==> DistinctKeys(r)
    ensures Get(r, name) == Some(value)
    ensures forall n :: n != name ==> Get(r, n) == Get(fs, n)
    ensures name in Keys(fs) ==> Keys(r) == Keys(fs)
    ensures name !in Keys(fs) ==> Keys(r) == Keys(fs) + [name]
  {
    var ks := Keys(fs);
    if name in ks then
      var i := FirstIndex(ks, name);
      var r := fs[i := Field(name, value)];
      assert Keys(r) == ks;
      assert forall n :: n in ks && n != name ==> FirstIndex(Keys(r), n) == FirstIndex(ks, n);
      r
    else
      var r := fs + [Field(name, value)];
      assert Keys(r) == ks + [name];
      assert forall n :: n in ks ==> FirstIndex(Keys(r), n) == FirstIndex(ks, n) by {
        forall n | n in ks ensures FirstIndex(Keys(r), n) == FirstIndex(ks, n) {
          FirstIndexOfPrefix(ks, [name], n);
        }
      }
      assert FirstIndex(Keys(r), name) == |fs|;
      r
  }

  lemma {:induction false} FirstIndexOfPrefix(ks: seq<string>, more: seq<string>, k: string)
    requires k in ks
    ensures k in ks + more && FirstIndex(ks + more, k) == FirstIndex(ks, k)
  {
    if ks[0] != k {
      assert (ks + more)[1..] == ks[1..] + more;
      FirstIndexOfPrefix(ks[1..], more, k);
    }
  }

  /** The cache after `build_cache` has gone through `endpoints` in order,
      starting from `fs`. */
  function Built(fs: seq<Field>, endpoints: seq<string>, fetch: map<string, Json>): seq<Field>
    decreases |endpoints|
  {
    if endpoints == [] then fs
    else
      var prev := Built(fs, endpoints[..|endpoints| - 1], fetch);
      var name := endpoints[|endpoints| - 1];
      if name in fetch then Put(prev, name, Extract(fetch[name], [])) else prev
  }

  /** Every fetched category maps to the skeleton of its data; every other
      key keeps what it had. */
  lemma {:induction false} BuiltLookup(fs: seq<Field>, endpoints: seq<string>, fetch: map<string, Json>, n: string)
    ensures Get(Built(fs, endpoints, fetch), n) ==
              if n in endpoints && n in fetch then Some(Extract(fetch[n], [])) else Get(fs, n)
    decreases |endpoints|
  {
    if endpoints != [] {
      var init := endpoints[..|endpoints| - 1];
      assert endpoints == init + [endpoints[|endpoints| - 1]];
      BuiltLookup(fs, init, fetch, n);
    }
  }

  /** The entries already there keep their positions, new ones come after
      them, each new one is a fetched category, and no key appears twice. */
  lemma {:induction false} BuiltKeepsOrder(fs: seq<Field>, endpoints: seq<string>, fetch: map<string, Json>)
    requires DistinctKeys(fs)
    ensures DistinctKeys(Built(fs, endpoints, fetch))
    ensures |fs| <= |Built(fs, endpoints, fetch)|
    ensures Keys(Built(fs, endpoints, fetch))[..|fs|] == Keys(fs)
    ensures forall n :: n in Keys(Built(fs, endpoints, fetch)) ==> n in Keys(fs) || (n in endpoints && n in fetch)
    decreases |endpoints|
  {
    if endpoints != [] {
      var init, name := endpoints[..|endpoints| - 1], endpoints[|endpoints| - 1];
      BuiltKeepsOrder(fs, init, fetch);
      var prev := Built(fs, init, fetch);
      if name in fetch {
        var r := Put(prev, name, Extract(fetch[name], []));
        assert Keys(r)[..|prev|] == Keys(prev);
        assert Keys(r)[..|fs|] == Keys(prev)[..|fs|];
      }
    }
  }

  class ShapeCache {
    /** `self.cache`, category name to skeleton, in insertion order. */
    var entries: seq<Field>

    ghost predicate Valid()
      reads this
    {
      DistinctKeys(entries)
    }

    constructor ()
      ensures Valid() && entries == []
    {
      entries := [];
    }

    /** `build_cache`: every category whose fetch succeeds gets the skeleton of
        its data; a category whose fetch fails keeps whatever entry it had, and
        categories not fetched are left alone. `fetch` holds the payload of each
        category that answered 200; a category missing from it failed. */
    method BuildCache(endpoints: seq<string>, fetch: map<string, Json>)
      requires Valid()
      modifies this
      ensures Valid()
      ensures entries == Built(old(entries), endpoints, fetch)
      ensures forall n :: Get(entries, n) ==
                if n in endpoints && n in fetch then Some(Extract(fetch[n], [])) else Get(old(entries), n)
      ensures |old(entries)| <= |entries| && Keys(entries)[..|old(entries)|] == Keys(old(entries))
      ensures forall n :: n in Keys(entries) ==> n in Keys(old(entries)) || (n in endpoints && n in fetch)
    {
      ghost var before := entries;
      for i := 0 to |endpoints|
        invariant entries == Built(before, endpoints[..i], fetch)
      {
        var name := endpoints[i];
        assert endpoints[..i + 1][..i] == endpoints[..i];
        if name in fetch {
          var data := fetch[name];
          entries := Put(entries, name, Extract(data, []));
        }
      }
      assert endpoints[..|endpoints|] == endpoints;
      BuiltKeepsOrder(before, endpoints, fetch);
      forall n ensures Get(entries, n) ==
                if n in endpoints && n in fetch then Some(Extract(fetch[n], [])) else Get(before, n)
      {
        BuiltLookup(before, endpoints, fetch, n);
      }
    }
  }
}
