/** The navigation decision of main.py's front end (main.py:200-347) and its
    identifier rule (main.py:355-372), without the prompts. It differs from
    the other navigator in three ways: a string node is a category name, a
    backbone key is found case-insensitively in the object's own key order,
    and a truthy `Time` names a list item. Its resolver, display path and
    statistics (main.py:374-400, 412-430) are the same code as the other
    front end's and are modelled once, in `Paths` and `Statistics`. */
module MainNavigator {
  import opened JsonValues
  import opened Paths
  import opened Skeleton
  import opened Navigator
  import opened LogOrder

  /** `get_identifier` of main.py. `formatTime` stands for parsing a time
      with "%Y-%m-%dT%H:%M:%S" and printing it with "%Y-%m-%d %H:%M:%S": it
      gives `None` when the text does not parse (the `ValueError` the code
      catches). The result is `None` when `strptime` is handed a value that is
      not a string, a `TypeError` that escapes. */
  function IdentifierMain(item: Json, formatTime: string -> Option<string>): (r: Option<string>)
    // a truthy Time wins over Name, Label, Id and Key: formatted when it
    // parses, verbatim when it does not, an error when it is not text
    ensures item.Obj? && TruthyAt(item.fields, "Time") ==>
              var time := Get(item.fields, "Time").value;
              (r.None? <==> !time.Str?) &&
              (time.Str? ==> r.value == if formatTime(time.s).Some? then formatTime(time.s).value else time.s)
    // without one it is the other front end's identifier
    ensures !(item.Obj? && TruthyAt(item.fields, "Time")) ==> r == Some(Identifier(item))
  {
    if item.Obj? && TruthyAt(item.fields, "Time") then
      var time := Get(item.fields, "Time").value;
      if time.Str? then Some(formatTime(time.s).GetOr(time.s)) else None
    else Some(Identifier(item))
  }

  /** The identifiers of a list's elements, or `None` if one of them raises. */
  function Identifiers(xs: seq<Json>, formatTime: string -> Option<string>): (r: Option<seq<string>>)
    ensures r.Some? <==> forall i :: 0 <= i < |xs| ==> IdentifierMain(xs[i], formatTime).Some?
    ensures r.Some? ==> (|r.value| == |xs| &&
                         forall i :: 0 <= i < |xs| ==> IdentifierMain(xs[i], formatTime) == Some(r.value[i]))
  {
    if forall i :: 0 <= i < |xs| ==> IdentifierMain(xs[i], formatTime).Some? then
      Some(seq(|xs|, i requires 0 <= i < |xs| => IdentifierMain(xs[i], formatTime).value))
    else None
  }

  /** Menu entry `i` steps `(str(i), ids[i])` into element `i`. */
  function IndexedChoices(xs: seq<Json>, ids: seq<string>): (cs: seq<Choice>)
    requires |ids| == |xs|
    ensures |cs| == |xs|
    ensures forall i :: 0 <= i < |xs| ==>
              cs[i].step.key == NatToString(i) && cs[i].step.display == ids[i] && cs[i].child == xs[i]
  {
    seq(|xs|, i requires 0 <= i < |xs| => Choice(Step(NatToString(i), ids[i]), xs[i]))
  }

  function Children(cs: seq<Choice>): (xs: seq<Json>)
    ensures |xs| == |cs| && forall i :: 0 <= i < |cs| ==> xs[i] == cs[i].child
  {
    seq(|cs|, i requires 0 <= i < |cs| => cs[i].child)
  }

  datatype MainOutcome =
    | Shared(outcome: Outcome)                          // a hop, menu, resolve or empty list, as in the other navigator
    | LogMenu(path: seq<Step>, entries: seq<Choice>)   // the sorted logs; picking one shows it
    | LogsUnavailable                                   // "Failed to retrieve logs."
    | LogsNotAList                                      // "Unexpected data format for logs."
    | NoData(category: string)                          // "No data available for category ..."
    | Raised                                            // an exception escapes the navigator

  /** The lower-case names of the backbone keys. */
  const BackboneNames: seq<string> := ["places", "components", "sections"]

  /** The position of the first key, in the object's order, whose lower-case
      form names a backbone key. */
  function FirstBackboneKey(fs: seq<Field>): (r: Option<nat>)
    ensures r.None? <==> forall i :: 0 <= i < |fs| ==> Lower(fs[i].key) !in BackboneNames
    ensures r.Some? ==> r.value < |fs| && Lower(fs[r.value].key) in BackboneNames
                        && forall i :: 0 <= i < r.value ==> Lower(fs[i].key) !in BackboneNames
  {
    if fs == [] then None
    else if Lower(fs[0].key) in BackboneNames then Some(0)
    else
      var r := FirstBackboneKey(fs[1..]);
      assert forall i :: 1 <= i < |fs| ==> fs[i] == fs[1..][i - 1];
      match r
      case None => None
      case Some(i) => Some(i + 1)
  }

  /** `sorted` needs every entry to be a dictionary (`x.get`), and to
      compare two or more entries their times must be text. */
  predicate LogsSortable(xs: seq<Json>) {
    (forall i :: 0 <= i < |xs| ==> xs[i].Obj?)
    && (|xs| >= 2 ==> forall i :: 0 <= i < |xs| ==> TimeIsText(xs[i]))
  }

  /** The log menu's entries: the logs sorted newest first, entry `i`
      stepping `(str(i), identifier)` into the i-th of them; `None` when an
      identifier raises. */
  function LogEntries(xs: seq<Json>, formatTime: string -> Option<string>): (r: Option<seq<Choice>>)
    ensures r.None? <==> exists i :: 0 <= i < |xs| && IdentifierMain(SortLogs(xs)[i], formatTime).None?
    ensures r.Some? ==> (Children(r.value) == SortLogs(xs) &&
                         forall i :: 0 <= i < |r.value| ==>
                           r.value[i].step.key == NatToString(i) &&
                           IdentifierMain(r.value[i].child, formatTime) == Some(r.value[i].step.display))
  {
    var ids := Identifiers(SortLogs(xs), formatTime);
    if ids.None? then
      assert exists i :: 0 <= i < |xs| && IdentifierMain(SortLogs(xs)[i], formatTime).None?;
      None
    else
      var entries := IndexedChoices(SortLogs(xs), ids.value);
      assert Children(entries) == SortLogs(xs);
      Some(entries)
  }

  /** The "logs" category: the logs are fetched live, sorted and listed. */
  function LogsOutcome(category: string, path: seq<Step>, fetch: map<string, Json>,
                       formatTime: string -> Option<string>): (o: MainOutcome)
    ensures o.LogsUnavailable? <==> category !in fetch || fetch[category] == Null
    ensures o.LogsNotAList? <==> category in fetch && fetch[category] != Null && !fetch[category].Arr?
    ensures o.Raised? <==> (category in fetch && fetch[category].Arr? &&
                            (!LogsSortable(fetch[category].items) || LogEntries(fetch[category].items, formatTime).None?))
    ensures o.LogMenu? ==> (o.path == path && category in fetch && fetch[category].Arr? &&
                            LogEntries(fetch[category].items, formatTime) == Some(o.entries))
    ensures o.LogsUnavailable? || o.LogsNotAList? || o.Raised? || o.LogMenu?
  {
    if category !in fetch || fetch[category] == Null then LogsUnavailable
    else if !fetch[category].Arr? then LogsNotAList
    else if !LogsSortable(fetch[category].items) then Raised
    else
      match LogEntries(fetch[category].items, formatTime)
      case None => Raised
      case Some(entries) => LogMenu(path, entries)
  }

  /** One step of main.py's `navigate_structure`. `fetch` holds the live
      payload of each category that answers, `cache` the cached trees. */
  function DecideMain(node: Json, path: seq<Step>, fetch: map<string, Json>, cache: seq<Field>,
                      formatTime: string -> Option<string>): (o: MainOutcome)
    // a string is a category name: "logs" in any letter case is listed from
    // live data; any other is navigated in its cached tree with the same path
    ensures node.Str? && Lower(node.s) == "logs" ==> o == LogsOutcome(node.s, path, fetch, formatTime)
    ensures node.Str? && Lower(node.s) != "logs" ==>
              (o.NoData? <==> Get(cache, node.s).None? || Get(cache, node.s) == Some(Null)) &&
              (!o.NoData? ==> o == Shared(Descend(Get(cache, node.s).value, path)))
    // an object hops into the first key, in its own order, that names a
    // backbone key in any letter case
    ensures node.Obj? && FirstBackboneKey(node.fields).Some? ==>
              var k := node.fields[FirstBackboneKey(node.fields).value].key;
              o == Shared(Descend(Get(node.fields, k).value, path + [Step(k, k)]))
    // otherwise it resolves when every value is a leaf and offers its keys if not
    ensures node.Obj? && FirstBackboneKey(node.fields).None? ==>
              o == Shared(if AllLeaves(node.fields) then Resolve(path) else Menu(path, KeyChoices(node.fields)))
    // lists: empty, one element (hop with key "0"), several (menu by index);
    // an identifier that raises aborts the step
    ensures node.Arr? && |node.items| == 0 ==> o == Shared(Empty(path))
    ensures node.Arr? && |node.items| == 1 ==>
              (o.Raised? <==> IdentifierMain(node.items[0], formatTime).None?) &&
              (!o.Raised? ==> o.Shared? && o.outcome.Descend? && o.outcome.child == node.items[0] &&
                              o.outcome.path == path + [Step("0", IdentifierMain(node.items[0], formatTime).value)])
    ensures node.Arr? && |node.items| > 1 ==>
              (o.Raised? <==> exists i :: 0 <= i < |node.items| && IdentifierMain(node.items[i], formatTime).None?) &&
              (!o.Raised? ==> o.Shared? && o.outcome.Menu? && o.outcome.path == path &&
                              |o.outcome.choices| == |node.items| &&
                              forall i :: 0 <= i < |node.items| ==>
                                o.outcome.choices[i].step.key == NatToString(i) &&
                                o.outcome.choices[i].child == node.items[i] &&
                                IdentifierMain(node.items[i], formatTime) == Some(o.outcome.choices[i].step.display))
    // null, booleans and numbers resolve at the unchanged path
    ensures node.Null? || node.Bool? || node.Num? ==> o == Shared(Resolve(path))
  {
    match node
    case Str(category) =>
      if Lower(category) == "logs" then LogsOutcome(category, path, fetch, formatTime)
      else if Get(cache, category).None? || Get(cache, category).value == Null then NoData(category)
      else Shared(Descend(Get(cache, category).value, path))
    case Obj(fs) =>
      (match FirstBackboneKey(fs)
       case Some(i) => Shared(Descend(Get(fs, fs[i].key).value, path + [Step(fs[i].key, fs[i].key)]))
       case None => Shared(if AllLeaves(fs) then Resolve(path) else Menu(path, KeyChoices(fs))))
    case Arr(xs) =>
      if |xs| == 0 then Shared(Empty(path))
      else if |xs| == 1 then
        (match IdentifierMain(xs[0], formatTime)
         case None => Raised
         case Some(id) => Shared(Descend(xs[0], path + [Step("0", id)])))
      else
        (match Identifiers(xs, formatTime)
         case None => Raised
         case Some(ids) => Shared(Menu(path, IndexedChoices(xs, ids))))
    case _ => Shared(Resolve(path))
  }

  /** A string node resolves in the other front end but is never resolved
      here: it is taken for a category name. */
  lemma {:induction false} StringNodesAreCategories(s: string, path: seq<Step>, fetch: map<string, Json>, cache: seq<Field>,
                                 formatTime: string -> Option<string>)
    ensures Decide(Str(s), path) == Resolve(path)
    ensures var o := DecideMain(Str(s), path, fetch, cache, formatTime);
            !(o.Shared? && o.outcome.Resolve?)
  {
  }

  /** The two front ends pick different backbone keys when `Sections` comes
      before `Places`: a fixed priority there, the object's own order here. */
  lemma {:induction false} BackbonePriorityDiffers(a: Json, b: Json, path: seq<Step>, fetch: map<string, Json>, cache: seq<Field>,
                                formatTime: string -> Option<string>)
    ensures Decide(Obj([Field("Sections", a), Field("Places", b)]), path) == Descend(b, path + [Step("Places", "Places")])
    ensures DecideMain(Obj([Field("Sections", a), Field("Places", b)]), path, fetch, cache, formatTime)
            == Shared(Descend(a, path + [Step("Sections", "Sections")]))
  {
    var fs := [Field("Sections", a), Field("Places", b)];
    assert Keys(fs) == ["Sections", "Places"];
    assert Lower("Sections") == "sections";
    assert FirstBackboneKey(fs) == Some(0);
  }

  /** Only this front end follows a backbone key written in another case. */
  lemma {:induction false} CaseVariantBackbone(v: Json, path: seq<Step>, fetch: map<string, Json>, cache: seq<Field>,
                            formatTime: string -> Option<string>)
    requires IsContainer(v)
    ensures Decide(Obj([Field("places", v)]), path) == Menu(path, KeyChoices([Field("places", v)]))
    ensures DecideMain(Obj([Field("places", v)]), path, fetch, cache, formatTime)
            == Shared(Descend(v, path + [Step("places", "places")]))
  {
    var fs := [Field("places", v)];
    assert Keys(fs) == ["places"];
    assert Lower("places") == "places";
    assert IsContainer(fs[0].value);
  }

  /** An object none of whose keys names a backbone key in any case is
      handled alike by both front ends. */
  lemma {:induction false} ObjectsWithoutBackboneAgree(fs: seq<Field>, path: seq<Step>, fetch: map<string, Json>, cache: seq<Field>,
                                    formatTime: string -> Option<string>)
    requires forall i :: 0 <= i < |fs| ==> Lower(fs[i].key) !in BackboneNames
    ensures DecideMain(Obj(fs), path, fetch, cache, formatTime) == Shared(Decide(Obj(fs), path))
  {
    assert Lower("Places") == "places" && Lower("Components") == "components" && Lower("Sections") == "sections";
    forall j, i | 0 <= j < |DescendOrder| && 0 <= i < |fs| ensures fs[i].key != DescendOrder[j] {
      assert Lower(DescendOrder[j]) in BackboneNames;
    }
  }

  /** A list none of whose elements has a truthy `Time` is handled alike by
      both front ends. */
  lemma {:induction false} ListsWithoutTimeAgree(xs: seq<Json>, path: seq<Step>, fetch: map<string, Json>, cache: seq<Field>,
                              formatTime: string -> Option<string>)
    requires forall i :: 0 <= i < |xs| ==> !(xs[i].Obj? && TruthyAt(xs[i].fields, "Time"))
    ensures DecideMain(Arr(xs), path, fetch, cache, formatTime) == Shared(Decide(Arr(xs), path))
  {
    if |xs| > 1 {
      var o := DecideMain(Arr(xs), path, fetch, cache, formatTime);
      assert o.outcome.choices == ItemChoices(xs);
    }
  }

  /** The root of an extracted value never has a truthy `Time`: the key is
      neither identifying nor a backbone key, so its value is nulled out. */
  lemma {:induction false} SkeletonHasNoTime(v: Json, keyPath: seq<string>)
    ensures !(Extract(v, keyPath).Obj? && TruthyAt(Extract(v, keyPath).fields, "Time"))
  {
    var s := Extract(v, keyPath);
    if s.Obj? && Get(s.fields, "Time").Some? {
      var i :| 0 <= i < |s.fields| && s.fields[i].key == "Time" && s.fields[i].value == Get(s.fields, "Time").value;
      assert v.fields[i].key == "Time";
      assert "Time" !in IdentifyingKeys && "Time" !in BackboneKeys;
    }
  }

  /** So both identifier rules name the root of an extracted value alike. */
  lemma {:induction false} SkeletonIdentifiersAgree(v: Json, keyPath: seq<string>, formatTime: string -> Option<string>)
    ensures IdentifierMain(Extract(v, keyPath), formatTime) == Some(Identifier(Extract(v, keyPath)))
  {
    SkeletonHasNoTime(v, keyPath);
  }

  /** And both front ends decide alike on a list that extraction rebuilds; a
      list copied verbatim under an identifying key can differ
      (`VerbatimTimeDiffers`). */
  lemma {:induction false} SkeletonListsAgree(v: Json, keyPath: seq<string>, path: seq<Step>, fetch: map<string, Json>,
                           cache: seq<Field>, formatTime: string -> Option<string>)
    requires v.Arr?
    ensures DecideMain(Extract(v, keyPath), path, fetch, cache, formatTime)
            == Shared(Decide(Extract(v, keyPath), path))
  {
    var xs := Extract(v, keyPath).items;
    forall i | 0 <= i < |xs| ensures !(xs[i].Obj? && TruthyAt(xs[i].fields, "Time")) {
      SkeletonHasNoTime(v.items[i], keyPath);
    }
    ListsWithoutTimeAgree(xs, path, fetch, cache, formatTime);
  }

  /** Values under an identifying key are copied into a skeleton verbatim,
      so a skeleton may still hold an item with a truthy `Time` below its
      root, and there the two identifier rules differ. */
  lemma {:induction false} VerbatimTimeDiffers(formatTime: string -> Option<string>)
    ensures var item := Obj([Field("Time", Str("t"))]);
            var v := Obj([Field("Name", Arr([item, item]))]);
            Extract(v, []).fields[0].value == Arr([item, item])
            && Identifier(item) == "Item"
            && IdentifierMain(item, formatTime) == Some(formatTime("t").GetOr("t"))
  {
    var item := Obj([Field("Time", Str("t"))]);
    var v := Obj([Field("Name", Arr([item, item]))]);
    assert "Name" in IdentifyingKeys;
    assert Keys(item.fields) == ["Time"];
    assert Get(item.fields, "Time") == Some(Str("t"));
    forall j | 0 <= j < 4 ensures !TruthyAt(item.fields, IdentifyingKeys[j]) {
      assert Get(item.fields, IdentifyingKeys[j]).None?;
    }
  }
}
