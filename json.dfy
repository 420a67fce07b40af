/** JSON values as both front ends see them after `response.json()`:
    objects keep their fields in insertion order, because menus and
    first-match rules depend on that order. Python's `None` and JSON
    `null` are one value, `Null`. */
module JsonValues {

  datatype Option<T> = None | Some(value: T) {
    function GetOr(default: T): T {
      match this
      case Some(v) => v
      case None => default
    }
  }

  datatype Json =
    | Null
    | Bool(b: bool)
    | Num(n: int)
    | Str(s: string)
    | Obj(fields: seq<Field>)
    | Arr(items: seq<Json>)

  /** One key/value pair of an object, in the object's own order. */
  datatype Field = Field(key: string, value: Json)

  /** `isinstance(v, (dict, list))` */
  predicate IsContainer(v: Json) {
    v.Obj? || v.Arr?
  }

  /** Python truthiness of a JSON value. */
  predicate Truthy(v: Json) {
    match v
    case Null => false
    case Bool(b) => b
    case Num(n) => n != 0
    case Str(s) => s != ""
    case Obj(fs) => fs != []
    case Arr(xs) => xs != []
  }

  /** The keys of an object, in order (`list(d.keys())`). */
  function Keys(fs: seq<Field>): (ks: seq<string>)
    ensures |ks| == |fs|
    ensures forall i :: 0 <= i < |fs| ==> ks[i] == fs[i].key
  {
    seq(|fs|, i requires 0 <= i < |fs| => fs[i].key)
  }

  /** Index of the first occurrence of `k` in `ks`. */
  function FirstIndex(ks: seq<string>, k: string): (i: nat)
    requires k in ks
    ensures i < |ks| && ks[i] == k
    ensures forall j :: 0 <= j < i ==> ks[j] != k
  {
    if ks[0] == k then 0 else 1 + FirstIndex(ks[1..], k)
  }

  /** `d.get(k)`: the value of the first field named `k`, if any. */
  function Get(fs: seq<Field>, k: string): (r: Option<Json>)
    ensures r.Some? <==> k in Keys(fs)
    ensures r.Some? ==> exists i :: 0 <= i < |fs| && fs[i].key == k && fs[i].value == r.value
  {
    var ks := Keys(fs);
    if k in ks then Some(fs[FirstIndex(ks, k)].value) else None
  }

  /** ASCII `str.lower()`. */
  function LowerChar(c: char): char {
    if 'A' <= c <= 'Z' then (c as int + 32) as char else c
  }

  function Lower(s: string): (r: string)
    ensures |r| == |s|
    ensures forall i :: 0 <= i < |s| ==> r[i] == LowerChar(s[i])
  {
    seq(|s|, i requires 0 <= i < |s| => LowerChar(s[i]))
  }

  predicate IsDigit(c: char) {
    '0' <= c <= '9'
  }

  predicate AllDigits(s: string) {
    forall i :: 0 <= i < |s| ==> IsDigit(s[i])
  }

  function DigitChar(d: nat): (c: char)
    requires d < 10
    ensures IsDigit(c) && c as int - '0' as int == d
  {
    (d + '0' as int) as char
  }

  /** Decimal text of a natural number, most significant digit first. */
  function NatToString(n: nat): (r: string)
    ensures |r| > 0 && AllDigits(r)
    decreases n
  {
    if n < 10 then [DigitChar(n)] else NatToString(n / 10) + [DigitChar(n % 10)]
  }

  /** `str(i)` for an integer. */
  function IntToString(i: int): string {
    if i < 0 then "-" + NatToString(-i) else NatToString(i)
  }

  /** The value of a string of decimal digits. */
  function DigitsValue(s: string): nat
    requires AllDigits(s)
  {
    if s == [] then 0 else DigitsValue(s[..|s| - 1]) * 10 + (s[|s| - 1] as int - '0' as int)
  }

  /** `repr` of a value, as it appears inside `str()` of a container. */
  function PyRepr(v: Json): string
    decreases v, 1
  {
    match v
    case Null => "None"
    case Bool(b) => if b then "True" else "False"
    case Num(n) => IntToString(n)
    case Str(s) => "'" + s + "'"
    case Obj(fs) => "{" + ReprFields(fs) + "}"
    case Arr(xs) => "[" + ReprItems(xs) + "]"
  }

  function ReprFields(fs: seq<Field>): string
    decreases fs
  {
    if fs == [] then ""
    else
      var f := fs[|fs| - 1];
      var entry := "'" + f.key + "': " + PyRepr(f.value);
      if |fs| == 1 then entry else ReprFields(fs[..|fs| - 1]) + ", " + entry
  }

  function ReprItems(xs: seq<Json>): string
    decreases xs
  {
    if xs == [] then ""
    else if |xs| == 1 then PyRepr(xs[0])
    else ReprItems(xs[..|xs| - 1]) + ", " + PyRepr(xs[|xs| - 1])
  }

  /** `str(v)`: a string is its own text, anything else its repr. */
  function PyStr(v: Json): (r: string)
    ensures v.Str? ==> r == v.s
    ensures v == Null ==> r == "None"
  {
    if v.Str? then v.s else PyRepr(v)
  }
}
