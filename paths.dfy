/** Navigation paths, the labels shown for them, and the resolver that
    replays a path against freshly fetched data (interactive.py:283-319;
    main.py:374-400 holds a textually identical resolver and display join). */
module Paths {
  import opened JsonValues

  /** One navigation step: the literal lookup key (an object field name or a
      list index written in decimal) and the label shown for it. */
  datatype Step = Step(key: string, display: string)

  const IdentifyingKeys: seq<string> := ["Name", "Label", "Id", "Key"]
  const Separator: string := " > "

  function Displays(path: seq<Step>): (ds: seq<string>)
    ensures |ds| == |path|
    ensures forall i :: 0 <= i < |path| ==> ds[i] == path[i].display
  {
    seq(|path|, i requires 0 <= i < |path| => path[i].display)
  }

  /** `sep.join(parts)` */
  function Join(parts: seq<string>, sep: string): (r: string)
    ensures parts == [] ==> r == ""
    ensures |parts| == 1 ==> r == parts[0]
  {
    if parts == [] then ""
    else if |parts| == 1 then parts[0]
    else Join(parts[..|parts| - 1], sep) + sep + parts[|parts| - 1]
  }

  function TotalLength(parts: seq<string>): nat {
    if parts == [] then 0 else TotalLength(parts[..|parts| - 1]) + |parts[|parts| - 1]|
  }

  /** The length of a join: the parts plus one separator between each two. */
  lemma {:induction false} JoinLength(parts: seq<string>, sep: string)
    requires parts != []
    ensures |Join(parts, sep)| == TotalLength(parts) + (|parts| - 1) * |sep|
    decreases |parts|
  {
    if |parts| > 1 {
      var init := parts[..|parts| - 1];
      JoinLength(init, sep);
      assert (|init| - 1) * |sep| + |sep| == (|parts| - 1) * |sep|;
    }
  }

  /** `get_display_path`: the step labels joined with " > ". */
  function DisplayPath(path: seq<Step>): string {
    Join(Displays(path), Separator)
  }

  /** Joining two non-empty lists is joining their joins: the display of a
      path extended by further steps starts with the display of the path. */
  lemma {:induction false} JoinConcat(p: seq<string>, q: seq<string>, sep: string)
    requires p != [] && q != []
    ensures Join(p + q, sep) == Join(p, sep) + sep + Join(q, sep)
    decreases |q|
  {
    var last := q[|q| - 1];
    assert (p + q)[|p + q| - 1] == last;
    if |q| == 1 {
      assert (p + q)[..|p + q| - 1] == p;
    } else {
      var q' := q[..|q| - 1];
      assert (p + q)[..|p + q| - 1] == p + q';
      calc {
        Join(p + q, sep);
        Join(p + q', sep) + sep + last;
        { JoinConcat(p, q', sep); }
        Join(p, sep) + sep + Join(q', sep) + sep + last;
        Join(p, sep) + sep + (Join(q', sep) + sep + last);
      }
    }
  }

  lemma {:induction false} DisplayPathConcat(p: seq<Step>, q: seq<Step>)
    requires p != [] && q != []
    ensures DisplayPath(p + q) == DisplayPath(p) + Separator + DisplayPath(q)
  {
    assert Displays(p + q) == Displays(p) + Displays(q);
    JoinConcat(Displays(p), Displays(q), Separator);
  }

  /** `key in item and item[key]`: the key is present and its value truthy. */
  predicate TruthyAt(fs: seq<Field>, k: string) {
    Get(fs, k).Some? && Truthy(Get(fs, k).value)
  }

  /** The position in `keys` of the first key at or after `from` that is
      present and truthy in the object, scanning `keys` in order. */
  function FirstTruthy(fs: seq<Field>, keys: seq<string>, from: nat): (r: Option<nat>)
    requires from <= |keys|
    ensures r.None? <==> forall j :: from <= j < |keys| ==> !TruthyAt(fs, keys[j])
    ensures r.Some? ==> (from <= r.value < |keys| && TruthyAt(fs, keys[r.value])
                         && forall j :: from <= j < r.value ==> !TruthyAt(fs, keys[j]))
    decreases |keys| - from
  {
    if from == |keys| then None
    else if TruthyAt(fs, keys[from]) then Some(from)
    else FirstTruthy(fs, keys, from + 1)
  }

  /** A truthy key with no truthy key before it is the one found. */
  lemma {:induction false} FirstTruthyIsFirst(fs: seq<Field>, keys: seq<string>, j: nat)
    requires j < |keys| && TruthyAt(fs, keys[j])
    requires forall j' :: 0 <= j' < j ==> !TruthyAt(fs, keys[j'])
    ensures FirstTruthy(fs, keys, 0) == Some(j)
  {
    var r := FirstTruthy(fs, keys, 0);
    assert r.Some?;
    assert !(r.value < j);
    assert !(j < r.value);
  }

  /** `get_identifier` of interactive.py: for an object the first truthy
      value among Name, Label, Id, Key, stringified, else "Item"; for
      anything else its `str()`. */
  function Identifier(item: Json): (r: string)
    ensures !item.Obj? ==> r == PyStr(item)
    ensures item.Obj? && (forall j :: 0 <= j < 4 ==> !TruthyAt(item.fields, IdentifyingKeys[j])) ==>
              r == "Item"
    ensures item.Obj? ==>
              forall j :: (0 <= j < 4 && TruthyAt(item.fields, IdentifyingKeys[j])
                           && forall j' :: 0 <= j' < j ==> !TruthyAt(item.fields, IdentifyingKeys[j'])) ==>
                r == PyStr(Get(item.fields, IdentifyingKeys[j]).value)
  {
    match item
    case Obj(fs) =>
      assert forall j :: (0 <= j < 4 && TruthyAt(fs, IdentifyingKeys[j])
                          && forall j' :: 0 <= j' < j ==> !TruthyAt(fs, IdentifyingKeys[j'])) ==>
               FirstTruthy(fs, IdentifyingKeys, 0) == Some(j) by {
        forall j | 0 <= j < 4 && TruthyAt(fs, IdentifyingKeys[j])
                   && forall j' :: 0 <= j' < j ==> !TruthyAt(fs, IdentifyingKeys[j'])
          ensures FirstTruthy(fs, IdentifyingKeys, 0) == Some(j)
        {
          FirstTruthyIsFirst(fs, IdentifyingKeys, j);
        }
      }
      (match FirstTruthy(fs, IdentifyingKeys, 0)
       case Some(j) => PyStr(Get(fs, IdentifyingKeys[j]).value)
       case None => "Item")
    case _ => PyStr(item)
  }

  /** `int(key)` for keys made of an optional sign and ASCII digits. */
  predicate IsIntLiteral(key: string) {
    if |key| > 0 && (key[0] == '-' || key[0] == '+') then |key| > 1 && AllDigits(key[1..])
    else |key| > 0 && AllDigits(key)
  }

  function ParseIndex(key: string): (r: Option<int>)
    ensures r.Some? <==> IsIntLiteral(key)
  {
    if !IsIntLiteral(key) then None
    else if key[0] == '-' then Some(0 - DigitsValue(key[1..]) as int)
    else if key[0] == '+' then Some(DigitsValue(key[1..]))
    else Some(DigitsValue(key))
  }

  lemma {:induction false} DigitsOfNat(n: nat)
    ensures DigitsValue(NatToString(n)) == n
    decreases n
  {
    var s := NatToString(n);
    if n >= 10 {
      DigitsOfNat(n / 10);
      assert s[..|s| - 1] == NatToString(n / 10);
    }
  }

  /** Every key the navigator writes for a list position parses back to
      that position. */
  lemma {:induction false} IndexKeyRoundTrip(n: nat)
    ensures ParseIndex(NatToString(n)) == Some(n)
  {
    DigitsOfNat(n);
  }

  /** Python indexing `xs[i]`, negative indices counting from the end. */
  function PyIndex(len: nat, i: int): (r: Option<nat>)
    ensures r.Some? <==> -(len as int) <= i < len
    ensures r.Some? ==> r.value < len && (r.value == i || r.value == len + i)
  {
    if 0 <= i < len then Some(i) else if -(len as int) <= i < 0 then Some(len + i) else None
  }

  /** Follows `keys` from `v`; `None` is a miss: a missing key, a key that is
      not an integer on a list, an index out of range, or a scalar reached
      with steps left. */
  function Walk(v: Json, keys: seq<string>): (r: Option<Json>)
    decreases |keys|
  {
    if keys == [] then Some(v)
    else match v
      case Obj(fs) =>
        (match Get(fs, keys[0])
         case Some(w) => Walk(w, keys[1..])
         case None => None)
      case Arr(xs) =>
        (match ParseIndex(keys[0])
         case Some(i) =>
           (match PyIndex(|xs|, i)
            case Some(j) => Walk(xs[j], keys[1..])
            case None => None)
         case None => None)
      case _ => None
  }

  /** The lookup keys of a path. Like `Displays`, and like `Keys` on the
      fields of an object, it projects one component of each element; the
      three are kept apart because they project different datatypes. */
  function StepKeys(path: seq<Step>): (ks: seq<string>)
    ensures |ks| == |path|
    ensures forall i :: 0 <= i < |path| ==> ks[i] == path[i].key
  {
    seq(|path|, i requires 0 <= i < |path| => path[i].key)
  }

  /** What `fetch_data_at_path` returns: the value at the path in the live
      data of the category named by the first step, `Null` when the fetch
      fails or the path misses. */
  function ResolvedAt(path: seq<Step>, fetch: map<string, Json>): Json
    requires |path| > 0
  {
    var category := path[0].key;
    if category !in fetch then Null
    else Walk(fetch[category], StepKeys(path[1..])).GetOr(Null)
  }

  lemma {:induction false} WalkAppend(v: Json, ks: seq<string>, more: seq<string>)
    ensures Walk(v, ks + more) == match Walk(v, ks) case Some(w) => Walk(w, more) case None => None
    decreases |ks|
  {
    if ks == [] {
      assert ks + more == more;
    } else {
      assert (ks + more)[0] == ks[0] && (ks + more)[1..] == ks[1..] + more;
      match v
      case Obj(fs) =>
        if Get(fs, ks[0]).Some? { WalkAppend(Get(fs, ks[0]).value, ks[1..], more); }
      case Arr(xs) =>
        if ParseIndex(ks[0]).Some? && PyIndex(|xs|, ParseIndex(ks[0]).value).Some? {
          WalkAppend(xs[PyIndex(|xs|, ParseIndex(ks[0]).value).value], ks[1..], more);
        }
      case _ =>
    }
  }

  /** Short-circuit: once a prefix of the path misses, or reaches a scalar
      (or `null`) with keys still to go, the whole path misses, whatever its
      remaining keys are. */
  lemma {:induction false} ShortCircuit(v: Json, ks: seq<string>, more: seq<string>)
    requires Walk(v, ks).None? || (!IsContainer(Walk(v, ks).value) && more != [])
    ensures Walk(v, ks + more).None?
  {
    WalkAppend(v, ks, more);
  }

  /** A failed category fetch resolves to `Null` whatever the rest of the path. */
  lemma {:induction false} FailedFetchResolvesToNull(path: seq<Step>, fetch: map<string, Json>)
    requires |path| > 0 && path[0].key !in fetch
    ensures ResolvedAt(path, fetch) == Null
  {
  }

  /** A missing object key is a miss, not a failure of the walk. */
  lemma {:induction false} MissingKeyMisses(fs: seq<Field>, k: string, more: seq<string>)
    requires k !in Keys(fs)
    ensures Walk(Obj(fs), [k] + more).None?
  {
    assert ([k] + more)[0] == k;
  }

  /** `fetch_data_at_path` (interactive.py:297-319, main.py:378-400). */
  method FetchDataAtPath(path: seq<Step>, fetch: map<string, Json>) returns (r: Json)
    requires |path| > 0
    ensures r == ResolvedAt(path, fetch)
  {
    var category := path[0].key;
    if category !in fetch {
      return Null;
    }
    var data := fetch[category];
    if data == Null {
      return Null;
    }
    var keys := StepKeys(path[1..]);
    var sub := data;
    var i := 1;
    while i < |path|
      invariant 1 <= i <= |path|
      invariant Walk(data, keys).GetOr(Null) == Walk(sub, StepKeys(path[i..])).GetOr(Null)
    {
      var key := path[i].key;
      ghost var rest := StepKeys(path[i + 1..]);
      assert StepKeys(path[i..]) == [key] + rest;
      match sub {
        case Obj(fs) =>
          sub := Get(fs, key).GetOr(Null);
        case Arr(xs) =>
          var index := ParseIndex(key);
          if index.None? || PyIndex(|xs|, index.value).None? {
            sub := Null;
            break;
          }
          sub := xs[PyIndex(|xs|, index.value).value];
        case _ =>
          sub := Null;
          break;
      }
      i := i + 1;
    }
    r := sub;
  }
}
