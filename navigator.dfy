/** The decision `navigate_structure` takes at each node of a category's
    tree (interactive.py:185-281), without the prompts: which node comes
    next and with which path, which menu is offered, or where to resolve.
    Every menu also offers "F" (resolve at the current path) and "0" (back);
    those two are the same for every menu and are not listed as choices. */
module Navigator {
  import opened JsonValues
  import opened Paths
  import opened Skeleton

  /** A menu entry: the step it appends and the node it descends into. */
  datatype Choice = Choice(step: Step, child: Json)

  datatype Outcome =
    | Descend(child: Json, path: seq<Step>)   // automatic hop, no prompt
    | Menu(path: seq<Step>, choices: seq<Choice>)
    | Resolve(path: seq<Step>)                // fetch and show live data here
    | Empty(path: seq<Step>)                  // "This list is empty."

  /** Backbone keys in the priority order the navigator tries them. */
  const DescendOrder: seq<string> := ["Places", "Components", "Sections"]

  /** The first of Places, Components, Sections present in the object. */
  function FirstPresent(fs: seq<Field>, keys: seq<string>): (r: Option<string>)
    ensures r.None? <==> forall j :: 0 <= j < |keys| ==> keys[j] !in Keys(fs)
    ensures r.Some? ==> exists j :: 0 <= j < |keys| && keys[j] == r.value && r.value in Keys(fs)
                          && forall j' :: 0 <= j' < j ==> keys[j'] !in Keys(fs)
  {
    if keys == [] then None
    else if keys[0] in Keys(fs) then Some(keys[0])
    else
      var r := FirstPresent(fs, keys[1..]);
      assert forall j :: 1 <= j < |keys| ==> keys[j] == keys[1..][j - 1];
      r
  }

  /** `all(not isinstance(value, (dict, list)) for value in d.values())` */
  predicate AllLeaves(fs: seq<Field>) {
    forall i :: 0 <= i < |fs| ==> !IsContainer(fs[i].value)
  }

  /** The "Sections:" menu: one entry per key, in order, stepping `(key, key)`
      into `d[key]`. */
  function KeyChoices(fs: seq<Field>): (cs: seq<Choice>)
    ensures |cs| == |fs|
    ensures forall i :: 0 <= i < |fs| ==>
              cs[i].step == Step(fs[i].key, fs[i].key) && Get(fs, fs[i].key) == Some(cs[i].child)
  {
    seq(|fs|, i requires 0 <= i < |fs| => Choice(Step(fs[i].key, fs[i].key), Get(fs, fs[i].key).value))
  }

  /** The "Items:" menu: entry `i` steps `(str(i), identifier)` into element `i`. */
  function ItemChoices(xs: seq<Json>): (cs: seq<Choice>)
    ensures |cs| == |xs|
    ensures forall i :: 0 <= i < |xs| ==> cs[i] == Choice(Step(NatToString(i), Identifier(xs[i])), xs[i])
  {
    seq(|xs|, i requires 0 <= i < |xs| => Choice(Step(NatToString(i), Identifier(xs[i])), xs[i]))
  }

  function Decide(node: Json, path: seq<Step>): (o: Outcome)
    // an object with a backbone key hops into the first one present, in priority order
    ensures node.Obj? && FirstPresent(node.fields, DescendOrder).Some? ==>
              var k := FirstPresent(node.fields, DescendOrder).value;
              o == Descend(Get(node.fields, k).value, path + [Step(k, k)])
    // an object without one resolves when all its values are leaves, else offers its keys
    ensures node.Obj? && FirstPresent(node.fields, DescendOrder).None? ==>
              o == if AllLeaves(node.fields) then Resolve(path) else Menu(path, KeyChoices(node.fields))
    // lists: empty, one element (hop, no menu), several (menu)
    ensures node.Arr? && |node.items| == 0 ==> o == Empty(path)
    ensures node.Arr? && |node.items| == 1 ==>
              o == Descend(node.items[0], path + [Step("0", Identifier(node.items[0]))])
    ensures node.Arr? && |node.items| > 1 ==> o == Menu(path, ItemChoices(node.items))
    // a scalar or null resolves at the unchanged path
    ensures !IsContainer(node) ==> o == Resolve(path)
  {
    match node
    case Obj(fs) =>
      (match FirstPresent(fs, DescendOrder)
       case Some(k) => Descend(Get(fs, k).value, path + [Step(k, k)])
       case None => if AllLeaves(fs) then Resolve(path) else Menu(path, KeyChoices(fs)))
    case Arr(xs) =>
      if |xs| == 0 then Empty(path)
      else if |xs| == 1 then Descend(xs[0], path + [Step("0", Identifier(xs[0]))])
      else Menu(path, ItemChoices(xs))
    case _ => Resolve(path)
  }

  /** A list of one element never shows a menu: it descends into its only
      element under the step `("0", identifier)`. */
  lemma {:induction false} SingleElementNeverMenu(x: Json, path: seq<Step>)
    ensures Decide(Arr([x]), path).Descend?
    ensures Decide(Arr([x]), path).path == path + [Step("0", Identifier(x))]
  {
  }

  /** The moves the user (or the automatic hop) can make from an outcome. */
  function Moves(o: Outcome): (ms: seq<Choice>)
  {
    match o
    case Descend(child, p) => if p == [] then [] else [Choice(p[|p| - 1], child)]
    case Menu(_, cs) => cs
    case _ => []
  }

  /** `steps` is a sequence of steps the navigator can take from `node`:
      each one is the automatic hop or a menu entry of the node reached so far. */
  ghost predicate Navigable(node: Json, path: seq<Step>, steps: seq<Step>)
    decreases |steps|
  {
    steps == [] ||
    var ms := Moves(Decide(node, path));
    exists i :: 0 <= i < |ms| && ms[i].step == steps[0] && Navigable(ms[i].child, path + [ms[i].step], steps[1..])
  }

  /** Only a list of one element or an object with a backbone key descends
      without asking. */
  lemma {:induction false} OnlyHopsDescend(node: Json, path: seq<Step>)
    ensures Decide(node, path).Descend? ==>
              (node.Arr? && |node.items| == 1) || (node.Obj? && FirstPresent(node.fields, DescendOrder).Some?)
  {
  }

  /** Every move steps into an object by one of its keys or into a list by
      the decimal index of one of its elements. */
  lemma {:induction false} MoveShape(node: Json, path: seq<Step>, c: Choice)
    requires c in Moves(Decide(node, path))
    ensures node.Obj? ==> c.step.key in Keys(node.fields) && Get(node.fields, c.step.key) == Some(c.child)
    ensures node.Arr? ==> exists i :: 0 <= i < |node.items| && c.step.key == NatToString(i) && c.child == node.items[i]
    ensures IsContainer(node)
  {
    match node
    case Obj(fs) =>
      var o := Decide(node, path);
      if FirstPresent(fs, DescendOrder).Some? {
        var k := FirstPresent(fs, DescendOrder).value;
        assert c == Choice(Step(k, k), Get(fs, k).value);
      } else {
        var i :| 0 <= i < |KeyChoices(fs)| && KeyChoices(fs)[i] == c;
      }
    case Arr(xs) =>
      if |xs| == 1 {
        assert c.step.key == "0" == NatToString(0);
      } else {
        var i :| 0 <= i < |ItemChoices(xs)| && ItemChoices(xs)[i] == c;
      }
    case _ =>
  }

  /** Walking one key into an object is looking the key up. */
  lemma {:induction false} WalkKey(v: Json, k: string)
    requires v.Obj? && Get(v.fields, k).Some?
    ensures Walk(v, [k]) == Get(v.fields, k)
  {
    assert [k][1..] == [];
  }

  /** Walking the decimal index of an element into a list lands on it. */
  lemma {:induction false} WalkIndex(v: Json, i: nat)
    requires v.Arr? && i < |v.items|
    ensures Walk(v, [NatToString(i)]) == Some(v.items[i])
  {
    IndexKeyRoundTrip(i);
    assert [NatToString(i)][1..] == [];
  }

  /** One move made on a redaction of `v` is a step that `v` itself can take,
      and it lands on a node that the move's target still mirrors. */
  lemma {:induction false} MirroredMove(s: Json, v: Json, path: seq<Step>, c: Choice)
    requires Mirrors(s, v) && c in Moves(Decide(s, path))
    ensures Walk(v, [c.step.key]).Some? && Mirrors(c.child, Walk(v, [c.step.key]).value)
  {
    var k := c.step.key;
    MoveShape(s, path, c);
    if s.Obj? {
      MirroredGet(s.fields, v.fields, k);
      var i :| 0 <= i < |s.fields| && Get(s.fields, k).value == s.fields[i].value
                && Get(v.fields, k).value == v.fields[i].value;
      WalkKey(v, k);
    } else {
      var i :| 0 <= i < |s.items| && k == NatToString(i) && c.child == s.items[i];
      WalkIndex(v, i);
    }
  }

  /** The first move of a navigable step sequence, taken on a redaction of
      `v`, is a step `v` can take too. */
  lemma {:induction false} FirstMoveReplays(s: Json, v: Json, path: seq<Step>, steps: seq<Step>) returns (c: Choice, w: Json)
    requires Mirrors(s, v) && Navigable(s, path, steps) && steps != []
    ensures c.step == steps[0] && Walk(v, [c.step.key]) == Some(w)
    ensures Mirrors(c.child, w) && Navigable(c.child, path + [c.step], steps[1..])
  {
    var ms := Moves(Decide(s, path));
    var i :| 0 <= i < |ms| && ms[i].step == steps[0] && Navigable(ms[i].child, path + [ms[i].step], steps[1..]);
    c := ms[i];
    MirroredMove(s, v, path, c);
    w := Walk(v, [c.step.key]).value;
  }

  /** A key that finds a value, followed by keys that find one from there. */
  lemma {:induction false} WalkCons(v: Json, w: Json, step: Step, steps: seq<Step>)
    requires Walk(v, [step.key]) == Some(w) && Walk(w, StepKeys(steps)).Some?
    ensures Walk(v, StepKeys([step] + steps)).Some?
  {
    assert StepKeys([step] + steps) == [step.key] + StepKeys(steps);
    WalkAppend(v, [step.key], StepKeys(steps));
  }

  /** A path built by navigating a redaction of `v` replays on `v` itself:
      every key is present and every index in range. */
  lemma {:induction false} NavigatedStepsReplay(s: Json, v: Json, path: seq<Step>, steps: seq<Step>)
    requires Mirrors(s, v) && Navigable(s, path, steps)
    ensures Walk(v, StepKeys(steps)).Some?
    decreases |steps|
  {
    if steps != [] {
      var c, w := FirstMoveReplays(s, v, path, steps);
      NavigatedStepsReplay(c.child, w, path + [c.step], steps[1..]);
      WalkCons(v, w, c.step, steps[1..]);
      assert [c.step] + steps[1..] == steps;
    }
  }

  /** The property the skeleton-cache-then-live-resolve scheme rests on: whatever the user navigates to in the
      cached skeleton of a category, resolving that path against the live
      data the skeleton was extracted from finds a value there. */
  lemma {:induction false} SkeletonPathsReplay(category: string, fetch: map<string, Json>, steps: seq<Step>)
    requires category in fetch
    requires Navigable(Extract(fetch[category], []), [Step(category, category)], steps)
    ensures Walk(fetch[category], StepKeys(steps)).Some?
    ensures ResolvedAt([Step(category, category)] + steps, fetch) == Walk(fetch[category], StepKeys(steps)).value
  {
    ExtractMirrorsSource(fetch[category], []);
    NavigatedStepsReplay(Extract(fetch[category], []), fetch[category], [Step(category, category)], steps);
    assert ([Step(category, category)] + steps)[1..] == steps;
  }
}
