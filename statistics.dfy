/** Cache statistics (interactive.py:113-131; main.py:412-430 is the same
    traversal over the cache of the other front end): how many categories,
    how many object entries and how many list elements the cached trees hold. */
module Statistics {
  import opened JsonValues
  import opened Skeleton

  /** The two counters `traverse` accumulates. */
  datatype Counts = Counts(sections: nat, items: nat) {
    function Plus(other: Counts): Counts {
      Counts(sections + other.sections, items + other.items)
    }
    predicate Le(other: Counts) {
      sections <= other.sections && items <= other.items
    }
  }

  /** Every object contributes its number of keys to `sections`, every list its
      length to `items`, at every depth; scalars contribute nothing. */
  function Tally(v: Json): (c: Counts)
    ensures !IsContainer(v) ==> c == Counts(0, 0)
    decreases v, 1
  {
    match v
    case Obj(fs) => Counts(|fs|, 0).Plus(TallyFields(fs))
    case Arr(xs) => Counts(0, |xs|).Plus(TallyItems(xs))
    case _ => Counts(0, 0)
  }

  /** The tallies of the values of `fs`, added up in order. */
  function TallyFields(fs: seq<Field>): Counts
    decreases fs
  {
    if fs == [] then Counts(0, 0) else TallyFields(fs[..|fs| - 1]).Plus(Tally(fs[|fs| - 1].value))
  }

  function TallyItems(xs: seq<Json>): Counts
    decreases xs
  {
    if xs == [] then Counts(0, 0) else TallyItems(xs[..|xs| - 1]).Plus(Tally(xs[|xs| - 1]))
  }

  lemma {:induction false} TallyOfObject(fs: seq<Field>)
    ensures Tally(Obj(fs)) == Counts(|fs|, 0).Plus(TallyFields(fs))
  {
  }

  lemma {:induction false} TallyOfList(xs: seq<Json>)
    ensures Tally(Arr(xs)) == Counts(0, |xs|).Plus(TallyItems(xs))
  {
  }

  /** An object counts at least its own keys as sections, a list at least its
      own elements as items. */
  lemma {:induction false} TallyCountsOwnEntries(v: Json)
    ensures v.Obj? ==> Tally(v).sections >= |v.fields|
    ensures v.Arr? ==> Tally(v).items >= |v.items|
  {
  }

  lemma {:induction false} PlusAssociative(a: Counts, b: Counts, c: Counts)
    ensures a.Plus(b).Plus(c) == a.Plus(b.Plus(c))
  {
  }

  /** The tally of one more field is the old tally plus that field's. */
  lemma {:induction false} TallyFieldsSnoc(fs: seq<Field>, i: nat)
    requires i < |fs|
    ensures TallyFields(fs[..i + 1]) == TallyFields(fs[..i]).Plus(Tally(fs[i].value))
  {
    assert fs[..i + 1][..i] == fs[..i];
  }

  lemma {:induction false} TallyItemsSnoc(xs: seq<Json>, i: nat)
    requires i < |xs|
    ensures TallyItems(xs[..i + 1]) == TallyItems(xs[..i]).Plus(Tally(xs[i]))
  {
    assert xs[..i + 1][..i] == xs[..i];
  }

  /** `traverse(node)` with the `nonlocal` counters passed in and handed back. */
  method Traverse(node: Json, acc: Counts) returns (r: Counts)
    ensures r == acc.Plus(Tally(node))
    decreases node
  {
    r := acc;
    match node {
      case Obj(fs) =>
        var base := Counts(acc.sections + |fs|, acc.items);
        r := base;
        for i := 0 to |fs|
          invariant r == base.Plus(TallyFields(fs[..i]))
        {
          TallyFieldsSnoc(fs, i);
          PlusAssociative(base, TallyFields(fs[..i]), Tally(fs[i].value));
          r := Traverse(fs[i].value, r);
        }
        assert fs[..|fs|] == fs;
        assert base == acc.Plus(Counts(|fs|, 0));
        PlusAssociative(acc, Counts(|fs|, 0), TallyFields(fs));
        TallyOfObject(fs);
      case Arr(xs) =>
        var base := Counts(acc.sections, acc.items + |xs|);
        r := base;
        for i := 0 to |xs|
          invariant r == base.Plus(TallyItems(xs[..i]))
        {
          TallyItemsSnoc(xs, i);
          PlusAssociative(base, TallyItems(xs[..i]), Tally(xs[i]));
          r := Traverse(xs[i], r);
        }
        assert xs[..|xs|] == xs;
        assert base == acc.Plus(Counts(0, |xs|));
        PlusAssociative(acc, Counts(0, |xs|), TallyItems(xs));
        TallyOfList(xs);
      case _ =>
        assert Tally(node) == Counts(0, 0);
    }
  }

  /** `cache_statistics`: the number of categories and the totals of the
      traversal run over every cached tree in turn. */
  method CacheStatistics(cache: seq<Field>) returns (categories: nat, sections: nat, items: nat)
    ensures categories == |cache|
    ensures Counts(sections, items) == TallyFields(cache)
  {
    categories := |cache|;
    var acc := Counts(0, 0);
    for i := 0 to |cache|
      invariant acc == TallyFields(cache[..i])
    {
      assert cache[..i + 1][..i] == cache[..i];
      acc := Traverse(cache[i].value, acc);
    }
    assert cache[..|cache|] == cache;
    sections, items := acc.sections, acc.items;
  }

  lemma {:induction false} TallyFieldsMonotone(fs: seq<Field>, gs: seq<Field>)
    requires |fs| == |gs|
    requires forall i :: 0 <= i < |fs| ==> Tally(fs[i].value).Le(Tally(gs[i].value))
    ensures TallyFields(fs).Le(TallyFields(gs))
    decreases |fs|
  {
    if fs != [] {
      TallyFieldsMonotone(fs[..|fs| - 1], gs[..|gs| - 1]);
    }
  }

  lemma {:induction false} TallyItemsMonotone(xs: seq<Json>, ys: seq<Json>)
    requires |xs| == |ys|
    requires forall i :: 0 <= i < |xs| ==> Tally(xs[i]).Le(Tally(ys[i]))
    ensures TallyItems(xs).Le(TallyItems(ys))
    decreases |xs|
  {
    if xs != [] {
      TallyItemsMonotone(xs[..|xs| - 1], ys[..|ys| - 1]);
    }
  }

  /** A redaction never has more entries or elements than its source. */
  lemma {:induction false} MirrorsTallyBound(s: Json, v: Json)
    requires Mirrors(s, v)
    ensures Tally(s).Le(Tally(v))
    decreases s
  {
    match s
    case Obj(fs) =>
      forall i | 0 <= i < |fs| ensures Tally(fs[i].value).Le(Tally(v.fields[i].value)) {
        MirrorsTallyBound(fs[i].value, v.fields[i].value);
      }
      TallyFieldsMonotone(fs, v.fields);
    case Arr(xs) =>
      forall i | 0 <= i < |xs| ensures Tally(xs[i]).Le(Tally(v.items[i])) {
        MirrorsTallyBound(xs[i], v.items[i]);
      }
      TallyItemsMonotone(xs, v.items);
    case _ =>
  }

  /** So the cached skeleton of a category never counts more sections or
      items than the data it was extracted from. */
  lemma {:induction false} SkeletonTallyBound(v: Json, keyPath: seq<string>)
    ensures Tally(Extract(v, keyPath)).Le(Tally(v))
  {
    ExtractMirrorsSource(v, keyPath);
    MirrorsTallyBound(Extract(v, keyPath), v);
  }
}
