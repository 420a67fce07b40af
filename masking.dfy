/** `mask_sensitive_data` (main.py:97-111): a copy of a JSON value in which
    the value of every serial-number-like key is replaced by a marker. */
module Masking {
  import opened JsonValues

  const SensitiveKeys: set<string> := {"SerialNo", "Id", "DeviceId", "SerialString"}
  const Marker: string := "***MASKED***"

  function MaskField(key: string, value: Json): Json
    decreases value, 2
  {
    if key in SensitiveKeys then Str(Marker) else Mask(value)
  }

  function Mask(v: Json): (r: Json)
    // scalars (and null) are returned unchanged
    ensures !IsContainer(v) ==> r == v
    // an object keeps its keys in order; sensitive values become the marker
    // and are not looked into, every other value is masked in turn
    ensures v.Obj? ==> r.Obj? && Keys(r.fields) == Keys(v.fields)
    ensures v.Obj? ==> forall i :: 0 <= i < |v.fields| ==>
              r.fields[i].value == if v.fields[i].key in SensitiveKeys then Str(Marker) else Mask(v.fields[i].value)
    // a list keeps its length and each element is masked
    ensures v.Arr? ==> r.Arr? && |r.items| == |v.items|
    ensures v.Arr? ==> forall i :: 0 <= i < |v.items| ==> r.items[i] == Mask(v.items[i])
    decreases v, 1
  {
    match v
    case Obj(fs) =>
      Obj(seq(|fs|, i requires 0 <= i < |fs| => Field(fs[i].key, MaskField(fs[i].key, fs[i].value))))
    case Arr(xs) =>
      Arr(seq(|xs|, i requires 0 <= i < |xs| => Mask(xs[i])))
    case _ => v
  }

  /** Masking an already masked value changes nothing. */
  lemma {:induction false} MaskIdempotent(v: Json)
    ensures Mask(Mask(v)) == Mask(v)
    decreases v
  {
    var m := Mask(v);
    match v
    case Obj(fs) =>
      forall i | 0 <= i < |fs| ensures Mask(m).fields[i] == m.fields[i] {
        if fs[i].key !in SensitiveKeys {
          MaskIdempotent(fs[i].value);
        }
      }
      assert Mask(m).fields == m.fields;
    case Arr(xs) =>
      forall i | 0 <= i < |xs| ensures Mask(m).items[i] == m.items[i] {
        MaskIdempotent(xs[i]);
      }
      assert Mask(m).items == m.items;
    case _ =>
  }

  /** No sensitive key, at any depth, holds anything but the marker. */
  ghost predicate FullyMasked(v: Json)
    decreases v
  {
    match v
    case Obj(fs) =>
      forall i :: 0 <= i < |fs| ==>
        if fs[i].key in SensitiveKeys then fs[i].value == Str(Marker) else FullyMasked(fs[i].value)
    case Arr(xs) => forall i :: 0 <= i < |xs| ==> FullyMasked(xs[i])
    case _ => true
  }

  /** The output of masking leaks no sensitive value anywhere in the tree. */
  lemma {:induction false} MaskHidesEverySensitiveValue(v: Json)
    ensures FullyMasked(Mask(v))
    decreases v
  {
    match v
    case Obj(fs) =>
      forall i | 0 <= i < |fs| && fs[i].key !in SensitiveKeys ensures FullyMasked(Mask(v).fields[i].value) {
        MaskHidesEverySensitiveValue(fs[i].value);
      }
    case Arr(xs) =>
      forall i | 0 <= i < |xs| ensures FullyMasked(Mask(v).items[i]) {
        MaskHidesEverySensitiveValue(xs[i]);
      }
    case _ =>
  }

  /** Masking changes nothing in a tree that has no sensitive key at all. */
  ghost predicate NoSensitiveKey(v: Json)
    decreases v
  {
    match v
    case Obj(fs) => forall i :: 0 <= i < |fs| ==> fs[i].key !in SensitiveKeys && NoSensitiveKey(fs[i].value)
    case Arr(xs) => forall i :: 0 <= i < |xs| ==> NoSensitiveKey(xs[i])
    case _ => true
  }

  lemma {:induction false} MaskKeepsCleanData(v: Json)
    requires NoSensitiveKey(v)
    ensures Mask(v) == v
    decreases v
  {
    match v
    case Obj(fs) =>
      forall i | 0 <= i < |fs| ensures Mask(v).fields[i] == fs[i] {
        MaskKeepsCleanData(fs[i].value);
      }
      assert Mask(v).fields == fs;
    case Arr(xs) =>
      forall i | 0 <= i < |xs| ensures Mask(v).items[i] == xs[i] {
        MaskKeepsCleanData(xs[i]);
      }
      assert Mask(v).items == xs;
    case _ =>
  }
}
