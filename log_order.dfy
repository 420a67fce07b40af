/** The order main.py gives the logs before listing them (main.py:218):
    `sorted(logs, key=lambda x: x.get('Time', ''), reverse=True)`, newest
    first for ISO-formatted times, and stable. */
module LogOrder {
  import opened JsonValues

  /** Python's `<=` on `str`: code point by code point, a proper prefix
      before its extensions. */
  predicate LexLe(a: string, b: string)
    decreases |a|
  {
    a == [] || (b != [] && (a[0] < b[0] || (a[0] == b[0] && LexLe(a[1..], b[1..]))))
  }

  lemma {:induction false} LexLeReflexive(a: string)
    ensures LexLe(a, a)
    decreases |a|
  {
    if a != [] {
      LexLeReflexive(a[1..]);
    }
  }

  lemma {:induction false} LexLeTotal(a: string, b: string)
    ensures LexLe(a, b) || LexLe(b, a)
    decreases |a|
  {
    if a != [] && b != [] && a[0] == b[0] {
      LexLeTotal(a[1..], b[1..]);
    }
  }

  lemma {:induction false} LexLeTransitive(a: string, b: string, c: string)
    requires LexLe(a, b) && LexLe(b, c)
    ensures LexLe(a, c)
    decreases |a|
  {
    if a != [] && a[0] == b[0] && b[0] == c[0] {
      LexLeTransitive(a[1..], b[1..], c[1..]);
    }
  }

  lemma {:induction false} LexLeAntisymmetric(a: string, b: string)
    requires LexLe(a, b) && LexLe(b, a)
    ensures a == b
    decreases |a|
  {
    if a != [] {
      LexLeAntisymmetric(a[1..], b[1..]);
      assert a == [a[0]] + a[1..] && b == [b[0]] + b[1..];
    }
  }

  /** An entry the sort key handles as text: a dictionary whose `Time` is a
      string or absent. */
  predicate TimeIsText(x: Json) {
    x.Obj? && (Get(x.fields, "Time").None? || Get(x.fields, "Time").value.Str?)
  }

  /** `x.get('Time', '')` for such entries. */
  function LogTime(x: Json): string
  {
    if x.Obj? && Get(x.fields, "Time").Some? && Get(x.fields, "Time").value.Str? then
      Get(x.fields, "Time").value.s
    else ""
  }

  /** Newest first: no entry's time is above that of the entry before it. */
  predicate NonIncreasing(ys: seq<Json>) {
    forall i :: 0 < i < |ys| ==> NotAbove(ys, i)
  }

  /** Entry `i` is not newer than entry `i - 1`. */
  predicate NotAbove(ys: seq<Json>, i: nat)
    requires 0 < i < |ys|
  {
    LexLe(LogTime(ys[i]), LogTime(ys[i - 1]))
  }

  /** Places `x` into a list already in order, ahead of every entry whose
      time is not above its own. */
  function Insert(x: Json, ys: seq<Json>): (r: seq<Json>)
    ensures |r| == |ys| + 1
    ensures multiset(r) == multiset(ys) + multiset{x}
    ensures r[0] == x || (ys != [] && r[0] == ys[0])
  {
    if ys == [] then [x]
    else if LexLe(LogTime(ys[0]), LogTime(x)) then [x] + ys
    else
      assert ys == [ys[0]] + ys[1..];
      [ys[0]] + Insert(x, ys[1..])
  }

  /** An entry not older than the head of an ordered list may go in front. */
  lemma {:induction false} ConsSorted(y: Json, zs: seq<Json>)
    requires NonIncreasing(zs) && (zs == [] || LexLe(LogTime(zs[0]), LogTime(y)))
    ensures NonIncreasing([y] + zs)
  {
    var r := [y] + zs;
    forall i | 0 < i < |r| ensures NotAbove(r, i) {
      if i > 1 {
        assert NotAbove(zs, i - 1);
      }
    }
  }

  /** The rest of an ordered list is ordered. */
  lemma {:induction false} TailSorted(ys: seq<Json>)
    requires NonIncreasing(ys) && ys != []
    ensures NonIncreasing(ys[1..])
  {
    forall i | 0 < i < |ys[1..]| ensures NotAbove(ys[1..], i) {
      assert NotAbove(ys, i + 1);
    }
  }

  lemma {:induction false} InsertSorted(x: Json, ys: seq<Json>)
    requires NonIncreasing(ys)
    ensures NonIncreasing(Insert(x, ys))
    decreases |ys|
  {
    if ys == [] || LexLe(LogTime(ys[0]), LogTime(x)) {
      ConsSorted(x, ys);
    } else {
      var y, rest := ys[0], ys[1..];
      TailSorted(ys);
      InsertSorted(x, rest);
      var ins := Insert(x, rest);
      LexLeTotal(LogTime(y), LogTime(x));
      if ins[0] != x {
        assert NotAbove(ys, 1);
      }
      ConsSorted(y, ins);
    }
  }

  /** The sorted logs: the first entry inserted into the sorted rest. */
  function SortLogs(xs: seq<Json>): (r: seq<Json>)
    ensures |r| == |xs|
    ensures multiset(r) == multiset(xs)
    ensures NonIncreasing(r)
  {
    if xs == [] then []
    else
      assert xs == [xs[0]] + xs[1..];
      InsertSorted(xs[0], SortLogs(xs[1..]));
      Insert(xs[0], SortLogs(xs[1..]))
  }

  /** The entries whose time is `t`, in their order. */
  function WithTime(xs: seq<Json>, t: string): seq<Json>
  {
    if xs == [] then []
    else (if LogTime(xs[0]) == t then [xs[0]] else []) + WithTime(xs[1..], t)
  }

  /** `[x]` when `x` has time `t`, else nothing. */
  function Tie(x: Json, t: string): seq<Json> {
    if LogTime(x) == t then [x] else []
  }

  lemma {:induction false} WithTimeCons(x: Json, xs: seq<Json>, t: string)
    ensures WithTime([x] + xs, t) == Tie(x, t) + WithTime(xs, t)
  {
    assert ([x] + xs)[0] == x && ([x] + xs)[1..] == xs;
  }

  /** Inserting `x` past an entry with another time. */
  lemma {:induction false} InsertPastOther(x: Json, ys: seq<Json>, ins: seq<Json>, t: string)
    requires ys != [] && LogTime(ys[0]) != LogTime(x)
    requires WithTime(ins, t) == Tie(x, t) + WithTime(ys[1..], t)
    ensures WithTime([ys[0]] + ins, t) == Tie(x, t) + WithTime(ys, t)
  {
    var y, rest := ys[0], ys[1..];
    var tx, ty := Tie(x, t), Tie(y, t);
    assert WithTime([y] + ins, t) == ty + WithTime(ins, t) by {
      WithTimeCons(y, ins, t);
    }
    assert WithTime(ys, t) == ty + WithTime(rest, t) by {
      assert ys == [y] + rest;
      WithTimeCons(y, rest, t);
    }
    // `x` and `y` cannot both have time `t`, so their ties commute
    assert ty == [] || tx == [];
    TiesCommute(ty, tx, WithTime(rest, t));
  }

  lemma {:induction false} TiesCommute(a: seq<Json>, b: seq<Json>, w: seq<Json>)
    requires a == [] || b == []
    ensures a + (b + w) == b + (a + w)
  {
    if a == [] {
      assert a + (b + w) == b + w == b + (a + w);
    } else {
      assert a + (b + w) == a + w == b + (a + w);
    }
  }

  lemma {:induction false} InsertKeepsTies(x: Json, ys: seq<Json>, t: string)
    ensures WithTime(Insert(x, ys), t) == Tie(x, t) + WithTime(ys, t)
    decreases |ys|
  {
    if ys == [] {
      WithTimeCons(x, [], t);
    } else if LexLe(LogTime(ys[0]), LogTime(x)) {
      WithTimeCons(x, ys, t);
    } else {
      // ys[0] is strictly above x, so the two never share a time
      LexLeReflexive(LogTime(x));
      InsertKeepsTies(x, ys[1..], t);
      InsertPastOther(x, ys, Insert(x, ys[1..]), t);
    }
  }

  /** Stability: entries with equal times keep their original relative order. */
  lemma {:induction false} SortLogsStable(xs: seq<Json>, t: string)
    ensures WithTime(SortLogs(xs), t) == WithTime(xs, t)
    decreases |xs|
  {
    if xs != [] {
      SortLogsStable(xs[1..], t);
      InsertKeepsTies(xs[0], SortLogs(xs[1..]), t);
      WithTimeCons(xs[0], xs[1..], t);
      assert xs == [xs[0]] + xs[1..];
    }
  }
}
