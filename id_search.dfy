/** `find_items_by_id` (main.py:140-152): the dictionaries of a tree whose
    `Id`, stringified and lower-cased, equals the requested id lower-cased.
    The search does not look inside a dictionary that matches. */
module IdSearch {
  import opened JsonValues

  /** `str(d.get('Id', ''))` */
  function IdText(fs: seq<Field>): string {
    PyStr(Get(fs, "Id").GetOr(Str("")))
  }

  predicate MatchesId(v: Json, id: string) {
    v.Obj? && Lower(IdText(v.fields)) == Lower(id)
  }

  /** The specification of the search: a matching dictionary is the whole
      answer for its subtree; otherwise the answers of the values (or
      elements), in order. */
  function FindById(v: Json, id: string): (r: seq<Json>)
    ensures forall w :: w in r ==> MatchesId(w, id)
    ensures MatchesId(v, id) ==> r == [v]
    ensures !IsContainer(v) ==> r == []
    decreases v, 1
  {
    match v
    case Obj(fs) => if MatchesId(v, id) then [v] else FindInFields(fs, id)
    case Arr(xs) => FindInItems(xs, id)
    case _ => []
  }

  function FindInFields(fs: seq<Field>, id: string): (r: seq<Json>)
    ensures forall w :: w in r ==> MatchesId(w, id)
    decreases fs
  {
    if fs == [] then [] else FindInFields(fs[..|fs| - 1], id) + FindById(fs[|fs| - 1].value, id)
  }

  function FindInItems(xs: seq<Json>, id: string): (r: seq<Json>)
    ensures forall w :: w in r ==> MatchesId(w, id)
    decreases xs
  {
    if xs == [] then [] else FindInItems(xs[..|xs| - 1], id) + FindById(xs[|xs| - 1], id)
  }

  /** The recursive search with its `found_items` list, extended value by
      value (or element by element). */
  method FindItemsById(data: Json, id: string) returns (found: seq<Json>)
    ensures found == FindById(data, id)
    decreases data
  {
    found := [];
    match data {
      case Obj(fs) =>
        if Lower(PyStr(Get(fs, "Id").GetOr(Str("")))) == Lower(id) {
          found := found + [data];
        } else {
          for i := 0 to |fs|
            invariant found == FindInFields(fs[..i], id)
          {
            assert fs[..i + 1][..i] == fs[..i];
            var sub := FindItemsById(fs[i].value, id);
            found := found + sub;
          }
          assert fs[..|fs|] == fs;
        }
      case Arr(xs) =>
        for i := 0 to |xs|
          invariant found == FindInItems(xs[..i], id)
        {
          assert xs[..i + 1][..i] == xs[..i];
          var sub := FindItemsById(xs[i], id);
          found := found + sub;
        }
        assert xs[..|xs|] == xs;
      case _ =>
    }
  }

  /** `w` lies in `v` below dictionaries that do not match and lists only:
      the places the search looks at. */
  ghost predicate Reaches(v: Json, w: Json, id: string)
    decreases v
  {
    v == w
    || (v.Obj? && !MatchesId(v, id) && exists i :: 0 <= i < |v.fields| && Reaches(v.fields[i].value, w, id))
    || (v.Arr? && exists i :: 0 <= i < |v.items| && Reaches(v.items[i], w, id))
  }

  lemma {:induction false} FindInFieldsMembers(fs: seq<Field>, id: string, w: Json)
    ensures w in FindInFields(fs, id) <==> exists i :: 0 <= i < |fs| && w in FindById(fs[i].value, id)
    decreases |fs|
  {
    if fs != [] {
      var init, last := fs[..|fs| - 1], fs[|fs| - 1];
      FindInFieldsMembers(init, id, w);
      assert FindInFields(fs, id) == FindInFields(init, id) + FindById(last.value, id);
      if w in FindInFields(fs, id) {
        if w in FindInFields(init, id) {
          var i :| 0 <= i < |init| && w in FindById(init[i].value, id);
          assert init[i] == fs[i];
        } else {
          assert w in FindById(fs[|fs| - 1].value, id);
        }
      } else {
        forall i | 0 <= i < |fs| ensures w !in FindById(fs[i].value, id) {
          if i < |init| {
            assert init[i] == fs[i];
            assert w !in FindById(init[i].value, id);
          } else {
            assert fs[i] == last;
          }
        }
      }
    }
  }

  lemma {:induction false} FindInItemsMembers(xs: seq<Json>, id: string, w: Json)
    ensures w in FindInItems(xs, id) <==> exists i :: 0 <= i < |xs| && w in FindById(xs[i], id)
    decreases |xs|
  {
    if xs != [] {
      var init, last := xs[..|xs| - 1], xs[|xs| - 1];
      FindInItemsMembers(init, id, w);
      assert FindInItems(xs, id) == FindInItems(init, id) + FindById(last, id);
      if w in FindInItems(xs, id) {
        if w in FindInItems(init, id) {
          var i :| 0 <= i < |init| && w in FindById(init[i], id);
          assert init[i] == xs[i];
        } else {
          assert w in FindById(xs[|xs| - 1], id);
        }
      } else {
        forall i | 0 <= i < |xs| ensures w !in FindById(xs[i], id) {
          if i < |init| {
            assert init[i] == xs[i];
            assert w !in FindById(init[i], id);
          } else {
            assert xs[i] == last;
          }
        }
      }
    }
  }

  /** Sound and complete: the search returns exactly the matching
      dictionaries it can reach without entering a match. */
  lemma {:induction false} FindByIdExactly(v: Json, id: string, w: Json)
    ensures w in FindById(v, id) <==> MatchesId(w, id) && Reaches(v, w, id)
    decreases v
  {
    match v
    case Obj(fs) =>
      if !MatchesId(v, id) {
        FindInFieldsMembers(fs, id, w);
        forall i | 0 <= i < |fs|
          ensures w in FindById(fs[i].value, id) <==> MatchesId(w, id) && Reaches(fs[i].value, w, id)
        {
          FindByIdExactly(fs[i].value, id, w);
        }
      }
    case Arr(xs) =>
      FindInItemsMembers(xs, id, w);
      forall i | 0 <= i < |xs|
        ensures w in FindById(xs[i], id) <==> MatchesId(w, id) && Reaches(xs[i], w, id)
      {
        FindByIdExactly(xs[i], id, w);
      }
    case _ =>
  }

  /** Depth-first, left to right: the matches under a list are those of its
      first part followed by those of the rest, and likewise for the values
      of a dictionary. */
  lemma {:induction false} FindInItemsAppend(xs: seq<Json>, ys: seq<Json>, id: string)
    ensures FindInItems(xs + ys, id) == FindInItems(xs, id) + FindInItems(ys, id)
    decreases |ys|
  {
    if ys == [] {
      assert xs + ys == xs;
    } else {
      var init, last := ys[..|ys| - 1], ys[|ys| - 1];
      assert (xs + ys)[..|xs + ys| - 1] == xs + init;
      assert (xs + ys)[|xs + ys| - 1] == last;
      calc {
        FindInItems(xs + ys, id);
        FindInItems(xs + init, id) + FindById(last, id);
        { FindInItemsAppend(xs, init, id); }
        FindInItems(xs, id) + FindInItems(init, id) + FindById(last, id);
      }
    }
  }

  lemma {:induction false} FindInFieldsAppend(fs: seq<Field>, gs: seq<Field>, id: string)
    ensures FindInFields(fs + gs, id) == FindInFields(fs, id) + FindInFields(gs, id)
    decreases |gs|
  {
    if gs == [] {
      assert fs + gs == fs;
    } else {
      var init, last := gs[..|gs| - 1], gs[|gs| - 1];
      assert (fs + gs)[..|fs + gs| - 1] == fs + init;
      assert (fs + gs)[|fs + gs| - 1] == last;
      calc {
        FindInFields(fs + gs, id);
        FindInFields(fs + init, id) + FindById(last.value, id);
        { FindInFieldsAppend(fs, init, id); }
        FindInFields(fs, id) + FindInFields(init, id) + FindById(last.value, id);
      }
    }
  }
}
