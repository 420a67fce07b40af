/** The shape extractor, `extract_structure` (interactive.py:45-67): a
    redacted copy of a JSON value that keeps the navigable backbone
    (`Components`/`Places`/`Sections`) and the identifying fields. */
module Skeleton {
  import opened JsonValues
  import opened Paths

  /** Fields whose objects the extractor descends into (outside `Components`). */
  const BackboneKeys: seq<string> := ["Components", "Places", "Sections"]

  /** What one field of an object becomes, given the key path of the object
      that holds it. */
  function ExtractField(key: string, value: Json, keyPath: seq<string>): Json
    decreases value, 2
  {
    if "Components" in keyPath then
      if key in IdentifyingKeys then value else Null
    else if key in IdentifyingKeys then value
    else if key in BackboneKeys then Extract(value, keyPath + [key])
    else Null
  }

  /** `extract_structure(data, key_path)` */
  function Extract(v: Json, keyPath: seq<string>): (r: Json)
    // a scalar (or null) becomes null
    ensures !IsContainer(v) ==> r == Null
    // an object keeps exactly its keys, in order
    ensures v.Obj? ==> r.Obj? && Keys(r.fields) == Keys(v.fields)
    // identifying fields are copied verbatim
    ensures v.Obj? ==> forall i :: 0 <= i < |v.fields| && v.fields[i].key in IdentifyingKeys ==>
                          r.fields[i].value == v.fields[i].value
    // below a Components ancestor every other field collapses, even an object or a list
    ensures v.Obj? && "Components" in keyPath ==>
              forall i :: 0 <= i < |v.fields| && v.fields[i].key !in IdentifyingKeys ==>
                r.fields[i].value == Null
    // elsewhere only the backbone fields are recursed into, with the key appended
    ensures v.Obj? && "Components" !in keyPath ==>
              forall i :: 0 <= i < |v.fields| && v.fields[i].key !in IdentifyingKeys ==>
                r.fields[i].value == (if v.fields[i].key in BackboneKeys
                                      then Extract(v.fields[i].value, keyPath + [v.fields[i].key])
                                      else Null)
    // a list keeps its length and its elements are extracted with the same key path
    ensures v.Arr? ==> r.Arr? && |r.items| == |v.items|
    ensures v.Arr? ==> forall i :: 0 <= i < |v.items| ==> r.items[i] == Extract(v.items[i], keyPath)
    decreases v, 1
  {
    match v
    case Obj(fs) =>
      Obj(seq(|fs|, i requires 0 <= i < |fs| => Field(fs[i].key, ExtractField(fs[i].key, fs[i].value, keyPath))))
    case Arr(xs) =>
      Arr(seq(|xs|, i requires 0 <= i < |xs| => Extract(xs[i], keyPath)))
    case _ => Null
  }

  /** Re-extracting a skeleton with the same key path changes nothing. */
  lemma {:induction false} ExtractIdempotent(v: Json, keyPath: seq<string>)
    ensures Extract(Extract(v, keyPath), keyPath) == Extract(v, keyPath)
    decreases v
  {
    var s := Extract(v, keyPath);
    match v
    case Obj(fs) =>
      var gs := s.fields;
      var ts := Extract(s, keyPath).fields;
      assert |ts| == |gs| == |fs|;
      forall i | 0 <= i < |fs|
        ensures ts[i] == gs[i]
      {
        assert ts[i].key == gs[i].key == fs[i].key;
        if "Components" !in keyPath && fs[i].key !in IdentifyingKeys && fs[i].key in BackboneKeys {
          ExtractIdempotent(fs[i].value, keyPath + [fs[i].key]);
        }
      }
      assert ts == gs;
    case Arr(xs) =>
      forall i | 0 <= i < |xs|
        ensures Extract(s, keyPath).items[i] == s.items[i]
      {
        ExtractIdempotent(xs[i], keyPath);
      }
      assert Extract(s, keyPath).items == s.items;
    case _ =>
  }

  /** `s` is a redaction of `v`: the same objects with the same keys in the
      same order and the same lists with the same lengths, where any node
      may have been replaced by null and every other scalar is unchanged. */
  ghost predicate Mirrors(s: Json, v: Json)
    decreases s
  {
    match s
    case Null => true
    case Obj(fs) =>
      v.Obj? && Keys(fs) == Keys(v.fields)
      && forall i :: 0 <= i < |fs| ==> Mirrors(fs[i].value, v.fields[i].value)
    case Arr(xs) =>
      v.Arr? && |xs| == |v.items|
      && forall i :: 0 <= i < |xs| ==> Mirrors(xs[i], v.items[i])
    case _ => s == v
  }

  lemma {:induction false} MirrorsReflexive(v: Json)
    ensures Mirrors(v, v)
    decreases v
  {
    match v
    case Obj(fs) =>
      forall i | 0 <= i < |fs| ensures Mirrors(fs[i].value, fs[i].value) {
        MirrorsReflexive(fs[i].value);
      }
    case Arr(xs) =>
      forall i | 0 <= i < |xs| ensures Mirrors(xs[i], xs[i]) {
        MirrorsReflexive(xs[i]);
      }
    case _ =>
  }

  /** A skeleton holds nothing that is not in its source: it only nulls out
      nodes, never adds a field, an element or a value. */
  lemma {:induction false} ExtractMirrorsSource(v: Json, keyPath: seq<string>)
    ensures Mirrors(Extract(v, keyPath), v)
    decreases v
  {
    var s := Extract(v, keyPath);
    match v
    case Obj(fs) =>
      forall i | 0 <= i < |fs| ensures Mirrors(s.fields[i].value, fs[i].value) {
        if fs[i].key in IdentifyingKeys {
          MirrorsReflexive(fs[i].value);
        } else if "Components" !in keyPath && fs[i].key in BackboneKeys {
          ExtractMirrorsSource(fs[i].value, keyPath + [fs[i].key]);
        }
      }
    case Arr(xs) =>
      forall i | 0 <= i < |xs| ensures Mirrors(s.items[i], xs[i]) {
        ExtractMirrorsSource(xs[i], keyPath);
      }
    case _ =>
  }

  /** Objects that mirror each other have their keys at the same positions,
      so a key lookup lands on corresponding fields. */
  lemma {:induction false} MirroredGet(fs: seq<Field>, gs: seq<Field>, k: string)
    requires Keys(fs) == Keys(gs) && k in Keys(fs)
    ensures Get(fs, k).Some? && Get(gs, k).Some?
    ensures exists i :: 0 <= i < |fs| && Get(fs, k).value == fs[i].value && Get(gs, k).value == gs[i].value
  {
    var i := FirstIndex(Keys(fs), k);
    assert Get(fs, k).value == fs[i].value && Get(gs, k).value == gs[i].value;
  }
}
