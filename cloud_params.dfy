/** Machine parameters of a cloud provider: `merge_params` (lists are
    extended, anything else is overridden) and the layering of the
    `"all"`, `"gcp"` and provider-name sections of the default
    parameters. */
module CloudParams {
  import opened Common
  import opened PyValues

  // ---------------------------------------------------------------------
  // merge_params
  // ---------------------------------------------------------------------

  /** Python's `list += value`: a list is extended by the items of any
      iterable; any other value raises `TypeError`. */
  function ExtendList(items: seq<Value>, v: Value): Option<seq<Value>> {
    match Iterate(v)
    case Some(more) => Some(items + more)
    case None => None
  }

  /** What `merge_params` stores under a key that held `current`: a list
      is extended by `v`, anything else (or nothing) is replaced by `v`;
      `None` when the extension raises. */
  function MergeValue(current: Option<Value>, v: Value): Option<Value> {
    match current
    case Some(VList(items)) =>
      (match ExtendList(items, v)
       case Some(extended) => Some(VList(extended))
       case None => None)
    case _ => Some(v)
  }

  /** The dictionary `merge_params` leaves behind, and whether it raised:
      a `TypeError` stops the loop with the keys before it already merged. */
  datatype Merged = Merged(dict: Dict, failed: bool)

  /** `merge_params(base, additional)`, key by key in `additional`'s order. */
  function Merge(base: Dict, additional: Dict): Merged
    decreases |additional|
  {
    if additional == [] then Merged(base, false)
    else
      var (k, v) := additional[0];
      match MergeValue(Lookup(base, k), v)
      case None => Merged(base, true)
      case Some(x) => Merge(Update(base, k, x), additional[1..])
  }

  /** `merge_params`: `base` is updated in place, one key of `additional`
      at a time. */
  method MergeParams(base: Dict, additional: Dict) returns (merged: Dict, ok: bool)
    ensures Merged(merged, !ok) == Merge(base, additional)
  {
    merged := base;
    var i := 0;
    while i < |additional|
      invariant 0 <= i <= |additional|
      invariant Merge(base, additional) == Merge(merged, additional[i..])
    {
      var (key, value) := additional[i];
      assert additional[i..][0] == (key, value) && additional[i..][1..] == additional[i + 1..];
      var current := Lookup(merged, key);
      if current.Some? && current.value.VList? {
        var extended := ExtendList(current.value.items, value);
        if extended.None? {
          return merged, false;
        }
        merged := Update(merged, key, VList(extended.value));
      } else {
        merged := Update(merged, key, value);
      }
      i := i + 1;
    }
    assert additional[i..] == [];
    return merged, true;
  }

  /** A merge that does not raise leaves every key `additional` does not
      mention as `base` had it. */
  lemma {:induction false} MergeKeeps(base: Dict, additional: Dict, k: string)
    requires k !in Keys(additional)
    requires !Merge(base, additional).failed
    ensures Lookup(Merge(base, additional).dict, k) == Lookup(base, k)
    decreases |additional|
  {
    if additional != [] {
      var (k0, v) := additional[0];
      assert Keys(additional) == [k0] + Keys(additional[1..]);
      var x := MergeValue(Lookup(base, k0), v).value;
      MergeKeeps(Update(base, k0, x), additional[1..], k);
      UpdateKeeps(base, k0, x, k);
    }
  }

  /** A merge that does not raise stores under each key of `additional`
      the merged value of what `base` had there and the new value: a list
      extended, anything else replaced. */
  lemma {:induction false} MergeSets(base: Dict, additional: Dict, i: nat)
    requires UniqueKeys(additional) && i < |additional|
    requires !Merge(base, additional).failed
    ensures Lookup(Merge(base, additional).dict, additional[i].0)
         == MergeValue(Lookup(base, additional[i].0), additional[i].1)
    decreases |additional|
  {
    var (k0, v) := additional[0];
    var x := MergeValue(Lookup(base, k0), v).value;
    var b1, rest := Update(base, k0, x), additional[1..];
    FirstKeyIsUnique(additional);
    if i == 0 {
      MergeKeeps(b1, rest, k0);
      UpdateSets(base, k0, x);
    } else {
      assert additional[i] == rest[i - 1];
      MergeSets(b1, rest, i - 1);
      assert additional[i].0 != k0 by {
        assert additional[i].0 == Keys(rest)[i - 1];
      }
      UpdateKeeps(base, k0, x, additional[i].0);
    }
  }

  /** A merge keeps `base`'s keys in their order; new keys follow. */
  lemma {:induction false} MergeKeepsKeyOrder(base: Dict, additional: Dict)
    ensures Keys(base) <= Keys(Merge(base, additional).dict)
    decreases |additional|
  {
    if additional != [] {
      var (k0, v) := additional[0];
      match MergeValue(Lookup(base, k0), v)
      case None =>
      case Some(x) =>
        UpdateKeyOrder(base, k0, x);
        MergeKeepsKeyOrder(Update(base, k0, x), additional[1..]);
    }
  }

  /** A merge raises exactly when some key of `additional` holds a list in
      `base` that its new value cannot extend. */
  lemma {:induction false} MergeFailsIff(base: Dict, additional: Dict)
    requires UniqueKeys(additional)
    ensures Merge(base, additional).failed
        <==> exists i :: 0 <= i < |additional| && MergeValue(Lookup(base, additional[i].0), additional[i].1).None?
    decreases |additional|
  {
    if additional != [] {
      var (k, v) := additional[0];
      var rest := additional[1..];
      FirstKeyIsUnique(additional);
      match MergeValue(Lookup(base, k), v)
      case None =>
      case Some(x) =>
        var b1 := Update(base, k, x);
        MergeFailsIff(b1, rest);
        forall j | 0 <= j < |rest|
          ensures MergeValue(Lookup(b1, rest[j].0), rest[j].1) == MergeValue(Lookup(base, rest[j].0), rest[j].1)
        {
          assert rest[j].0 == Keys(rest)[j];
          UpdateKeeps(base, k, x, rest[j].0);
        }
        if Merge(b1, rest).failed {
          var j :| 0 <= j < |rest| && MergeValue(Lookup(b1, rest[j].0), rest[j].1).None?;
          assert additional[j + 1] == rest[j];
        } else {
          forall i | 0 <= i < |additional| ensures MergeValue(Lookup(base, additional[i].0), additional[i].1).Some? {
            if i > 0 {
              assert additional[i] == rest[i - 1];
            }
          }
        }
    }
  }

  /** `{a: [1], b: 1}` merged with `{a: [2], b: 2, c: 3}` is
      `{a: [1, 2], b: 2, c: 3}`. */
  lemma MergeExample()
    ensures Merge([("a", VList([VInt(1)])), ("b", VInt(1))],
                  [("a", VList([VInt(2)])), ("b", VInt(2)), ("c", VInt(3))])
         == Merged([("a", VList([VInt(1), VInt(2)])), ("b", VInt(2)), ("c", VInt(3))], false)
  {
    var b0: Dict := [("a", VList([VInt(1)])), ("b", VInt(1))];
    var add: Dict := [("a", VList([VInt(2)])), ("b", VInt(2)), ("c", VInt(3))];
    var b1: Dict := [("a", VList([VInt(1), VInt(2)])), ("b", VInt(1))];
    var b2: Dict := [("a", VList([VInt(1), VInt(2)])), ("b", VInt(2))];
    var b3: Dict := [("a", VList([VInt(1), VInt(2)])), ("b", VInt(2)), ("c", VInt(3))];
    assert add[1..] == [("b", VInt(2)), ("c", VInt(3))];
    assert add[1..][1..] == [("c", VInt(3))];
    assert add[1..][1..][1..] == [];
    assert Lookup(b0, "a") == Some(VList([VInt(1)]));
    assert [VInt(1)] + [VInt(2)] == [VInt(1), VInt(2)];
    assert MergeValue(Lookup(b0, "a"), VList([VInt(2)])) == Some(VList([VInt(1), VInt(2)]));
    assert Update(b0, "a", VList([VInt(1), VInt(2)])) == b1;
    assert Merge(b0, add) == Merge(b1, add[1..]);
    assert Lookup(b1, "b") == Some(VInt(1)) by { assert b1[1..][0] == ("b", VInt(1)); }
    assert Update(b1, "b", VInt(2)) == b2 by {
      assert b1[1..] == [("b", VInt(1))];
    }
    assert Merge(b1, add[1..]) == Merge(b2, add[1..][1..]);
    assert Lookup(b2, "c") == None by {
      assert b2[1..][0].0 == "b";
      assert b2[1..][1..] == [];
    }
    assert Update(b2, "c", VInt(3)) == b3 by {
      assert b2[1..] == [("b", VInt(2))];
      assert b2[1..][1..] == [];
    }
    assert Merge(b2, add[1..][1..]) == Merge(b3, []);
  }

  /** What a merge that does not raise stores under any key: the base's
      value, overridden or extended by the additional value when there is
      one. */
  lemma MergeLookup(base: Dict, additional: Dict, k: string)
    requires UniqueKeys(additional)
    requires !Merge(base, additional).failed
    ensures Lookup(Merge(base, additional).dict, k) == Stack(Lookup(base, k), Lookup(additional, k))
  {
    LookupIsKeyedEntry(additional, k);
    if k in Keys(additional) {
      var i :| 0 <= i < |additional| && additional[i].0 == k && Lookup(additional, k) == Some(additional[i].1);
      MergeSets(base, additional, i);
    } else {
      MergeKeeps(base, additional, k);
    }
  }

  /** The value stacked by layering: a later layer's value overrides, or
      extends a list, whatever came before. */
  function Stack(current: Option<Value>, layer: Option<Value>): Option<Value> {
    match layer
    case None => current
    case Some(v) => MergeValue(current, v)
  }

  // ---------------------------------------------------------------------
  // Layering of the default parameters
  // ---------------------------------------------------------------------

  /** `default_params`: the sections of the defaults file, each a
      dictionary of machine parameters. */
  type Defaults = seq<(string, Dict)>

  function Section(defaults: Defaults, key: string): Option<Dict>
    decreases |defaults|
  {
    if defaults == [] then None
    else if defaults[0].0 == key then Some(defaults[0].1)
    else Section(defaults[1..], key)
  }

  /** A section, or nothing to merge when it is absent. */
  function SectionOrEmpty(defaults: Defaults, key: string): Dict {
    match Section(defaults, key)
    case Some(d) => d
    case None => []
  }

  /** The handler's machine defaults: the `"all"` section (or an empty
      dictionary), then the `"gcp"` section merged in, then the section
      named after the provider, when the provider has a name with a
      section. A merge that raises stops the layering. */
  function LayeredDefaults(defaults: Defaults, name: Option<string>): Merged {
    var afterGcp := Merge(SectionOrEmpty(defaults, "all"), SectionOrEmpty(defaults, "gcp"));
    if afterGcp.failed || name.None? then afterGcp
    else Merge(afterGcp.dict, SectionOrEmpty(defaults, name.value))
  }

  /** Layering decides every key independently: its value is the `"all"`
      value, overridden or extended by the `"gcp"` value, overridden or
      extended by the provider's own value. */
  lemma LayeringPerKey(defaults: Defaults, name: string, k: string)
    requires UniqueKeys(SectionOrEmpty(defaults, "gcp")) && UniqueKeys(SectionOrEmpty(defaults, name))
    requires !LayeredDefaults(defaults, Some(name)).failed
    ensures Lookup(LayeredDefaults(defaults, Some(name)).dict, k)
         == Stack(Stack(Lookup(SectionOrEmpty(defaults, "all"), k), Lookup(SectionOrEmpty(defaults, "gcp"), k)),
                  Lookup(SectionOrEmpty(defaults, name), k))
  {
    var all, gcp, own := SectionOrEmpty(defaults, "all"), SectionOrEmpty(defaults, "gcp"), SectionOrEmpty(defaults, name);
    var afterGcp := Merge(all, gcp);
    MergeLookup(all, gcp, k);
    MergeLookup(afterGcp.dict, own, k);
  }

  /** The order of the layers matters: `{k: [1]}` layered with `{k: "x"}`
      and then `{k: [3]}` extends the list twice, while layering it with
      the two overrides already combined (where `[3]` replaced `"x"`)
      extends it once. */
  lemma LayeringOrderMatters()
    ensures var a, b, c := [("k", VList([VInt(1)]))], [("k", VStr("x"))], [("k", VList([VInt(3)]))];
            && Merge(Merge(a, b).dict, c).dict == [("k", VList([VInt(1), VStr("x"), VInt(3)]))]
            && Merge(a, Merge(b, c).dict).dict == [("k", VList([VInt(1), VInt(3)]))]
  {
    var a: Dict, b: Dict, c: Dict := [("k", VList([VInt(1)]))], [("k", VStr("x"))], [("k", VList([VInt(3)]))];
    assert a[1..] == [] && b[1..] == [] && c[1..] == [];
    var ab: Dict := [("k", VList([VInt(1), VStr("x")]))];
    assert ["x"[0]] == "x";
    var e := ExtendList([VInt(1)], VStr("x")).value;
    assert |e| == 2 && e[0] == VInt(1) && e[1] == VStr(["x"[0]]);
    assert e == [VInt(1), VStr("x")];
    assert ExtendList([VInt(1)], VStr("x")) == Some([VInt(1), VStr("x")]);
    assert Merge(Merge(a, b).dict, c) == Merge([("k", VList([VInt(1), VStr("x"), VInt(3)]))], []) by {
      assert [VInt(1), VStr("x")] + [VInt(3)] == [VInt(1), VStr("x"), VInt(3)];
    }
    assert [VInt(1)] + [VInt(3)] == [VInt(1), VInt(3)];
    assert Merge(a, b) == Merge(ab, b[1..]);
    assert ab[1..] == [];
    assert Merge(b, c) == Merge(c, c[1..]);
  }
}
