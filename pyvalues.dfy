/** The parts of Python's value semantics the cloud handler relies on:
    its exceptions, dictionaries in insertion order with `d[k] = v`,
    iteration, truthiness, `in` and subscripting. */
module PyValues {
  import opened Common

  /** The Python exceptions the handler's code can raise. */
  datatype Exception =
    | KeyError(key: string)
    | TypeError
    | AttributeError
    | IndexError
    | ValueError(message: string)
    | OSError(path: string)
    | OperationError(error: Value)

  datatype Result<T> = Ok(value: T) | Raised(exc: Exception)

  // ---------------------------------------------------------------------
  // Dictionaries in insertion order
  // ---------------------------------------------------------------------

  function Keys(d: Dict): seq<string> {
    seq(|d|, i requires 0 <= i < |d| => d[i].0)
  }

  /** A Python dictionary holds each key once. */
  predicate UniqueKeys(d: Dict) {
    forall i, j :: 0 <= i < j < |d| ==> d[i].0 != d[j].0
  }

  /** `d[k] = v`: an existing key keeps its position, a new key goes last. */
  function Update(d: Dict, k: string, v: Value): Dict
    decreases |d|
  {
    if d == [] then [(k, v)]
    else if d[0].0 == k then [(k, v)] + d[1..]
    else [d[0]] + Update(d[1..], k, v)
  }

  /** After `d[k] = v`, `k` maps to `v`. */
  lemma {:induction false} UpdateSets(d: Dict, k: string, v: Value)
    ensures Lookup(Update(d, k, v), k) == Some(v)
    decreases |d|
  {
    if d != [] && d[0].0 != k {
      UpdateSets(d[1..], k, v);
      assert Update(d, k, v)[1..] == Update(d[1..], k, v);
    }
  }

  /** After `d[k] = v`, every other key maps to what it mapped to before. */
  lemma {:induction false} UpdateKeeps(d: Dict, k: string, v: Value, other: string)
    requires other != k
    ensures Lookup(Update(d, k, v), other) == Lookup(d, other)
    decreases |d|
  {
    if d != [] && d[0].0 != k {
      UpdateKeeps(d[1..], k, v, other);
      assert Update(d, k, v)[1..] == Update(d[1..], k, v);
    } else if d != [] {
      assert Update(d, k, v)[1..] == d[1..];
    }
  }

  /** After `d[k] = v`, the keys keep their order, and `k` is appended
      only when it is new. */
  lemma {:induction false} UpdateKeyOrder(d: Dict, k: string, v: Value)
    ensures Keys(Update(d, k, v)) == if k in Keys(d) then Keys(d) else Keys(d) + [k]
    decreases |d|
  {
    if d == [] {
      assert Keys([(k, v)]) == [k];
    } else {
      KeysCons(d[0], d[1..]);
      assert [d[0]] + d[1..] == d;
      if d[0].0 != k {
        var rest := Update(d[1..], k, v);
        UpdateKeyOrder(d[1..], k, v);
        KeysCons(d[0], rest);
        assert k in Keys(d) <==> k in Keys(d[1..]);
        if k !in Keys(d[1..]) {
          assert [d[0].0] + (Keys(d[1..]) + [k]) == ([d[0].0] + Keys(d[1..])) + [k];
        }
      } else {
        KeysCons((k, v), d[1..]);
      }
    }
  }

  /** The keys of `[e] + t` are `e`'s key followed by those of `t`. */
  lemma KeysCons(e: (string, Value), t: Dict)
    ensures Keys([e] + t) == [e.0] + Keys(t)
  {
  }

  /** Python's assignment loop `for k, v in entries: d[k] = v`. */
  function Assign(d: Dict, entries: Dict): Dict
    decreases |entries|
  {
    if entries == [] then d else Assign(Update(d, entries[0].0, entries[0].1), entries[1..])
  }

  /** In a dictionary with unique keys, the first key does not recur. */
  lemma FirstKeyIsUnique(d: Dict)
    requires UniqueKeys(d) && d != []
    ensures UniqueKeys(d[1..]) && d[0].0 !in Keys(d[1..])
  {
    forall j | 0 <= j < |d| - 1 ensures Keys(d[1..])[j] != d[0].0 {
      assert Keys(d[1..])[j] == d[j + 1].0;
    }
  }

  /** `Lookup` finds the value of the entry holding `k` in a dictionary
      with unique keys, and nothing when no entry holds `k`. */
  lemma LookupIsKeyedEntry(d: Dict, k: string)
    requires UniqueKeys(d)
    ensures k !in Keys(d) ==> Lookup(d, k).None?
    ensures k in Keys(d) ==> exists i :: 0 <= i < |d| && d[i].0 == k && Lookup(d, k) == Some(d[i].1)
  {
    LookupFindsFirst(d, k);
    if k in Keys(d) {
      var i :| 0 <= i < |d| && Keys(d)[i] == k;
      assert d[i].0 == k;
      var j :| 0 <= j < |d| && d[j] == (k, Lookup(d, k).value) && forall m :: 0 <= m < j ==> d[m].0 != k;
    } else {
      forall j | 0 <= j < |d| ensures d[j].0 != k {
        assert Keys(d)[j] == d[j].0;
      }
    }
  }

  /** Copying a dictionary's entries one by one into an empty one gives
      the same dictionary, keys in the same order. */
  lemma {:induction false} AssignCopies(d: Dict, entries: Dict)
    requires UniqueKeys(d + entries)
    ensures Assign(d, entries) == d + entries
    decreases |entries|
  {
    if entries != [] {
      var (k, v) := entries[0];
      assert k !in Keys(d) by {
        forall i | 0 <= i < |d| ensures Keys(d)[i] != k {
          assert (d + entries)[i] == d[i] && (d + entries)[|d|] == entries[0];
        }
      }
      UpdateAppends(d, k, v);
      assert d + entries == (d + [(k, v)]) + entries[1..];
      AssignCopies(d + [(k, v)], entries[1..]);
    }
  }

  /** Assigning a key a dictionary does not hold appends it. */
  lemma {:induction false} UpdateAppends(d: Dict, k: string, v: Value)
    requires k !in Keys(d)
    ensures Update(d, k, v) == d + [(k, v)]
    decreases |d|
  {
    if d != [] {
      assert Keys(d) == [d[0].0] + Keys(d[1..]);
      UpdateAppends(d[1..], k, v);
      assert d == [d[0]] + d[1..];
    }
  }

  /** `iter(v)`: a list's items, a string's characters, a dictionary's
      keys; `None` when the value is not iterable (raises `TypeError`). */
  function Iterate(v: Value): (r: Option<seq<Value>>)
    ensures r.Some? <==> (v.VList? || v.VStr? || v.VDict?)
    ensures v.VList? ==> r == Some(v.items)
    ensures v.VStr? ==> r.Some? && |r.value| == |v.s| && forall i :: 0 <= i < |v.s| ==> r.value[i] == VStr([v.s[i]])
    ensures v.VDict? ==> r.Some? && |r.value| == |v.entries| && forall i :: 0 <= i < |v.entries| ==> r.value[i] == VStr(v.entries[i].0)
  {
    match v
    case VList(items) => Some(items)
    case VStr(s) => Some(seq(|s|, i requires 0 <= i < |s| => VStr([s[i]])))
    case VDict(e) => Some(seq(|e|, i requires 0 <= i < |e| => VStr(e[i].0)))
    case _ => None
  }

  /** `bool(v)`: `None`, zero, `False` and empty collections are false. */
  predicate Truthy(v: Value) {
    match v
    case VNull => false
    case VStr(s) => s != []
    case VInt(i) => i != 0
    case VBool(b) => b
    case VList(items) => items != []
    case VDict(e) => e != []
  }

  /** `key` occurs in `s` as a substring. */
  predicate Occurs(key: string, s: string)
    decreases |s|
  {
    key <= s || (s != [] && Occurs(key, s[1..]))
  }

  /** `key in container` for a string key: a dictionary's keys, a list's
      items, a string's substrings; `None` when `in` raises `TypeError`. */
  function Contains(container: Value, key: string): Option<bool> {
    match container
    case VDict(e) => Some(key in Keys(e))
    case VList(items) => Some(VStr(key) in items)
    case VStr(s) => Some(Occurs(key, s))
    case _ => None
  }

  /** `v[key]` for a string key: only a dictionary can be indexed by a
      string, and a missing key raises `KeyError`. */
  function Subscript(v: Value, key: string): (r: Result<Value>)
    ensures r.Ok? <==> v.VDict? && Lookup(v.entries, key).Some?
    ensures r.Ok? ==> Some(r.value) == Lookup(v.entries, key)
    ensures v.VDict? && r.Raised? ==> r.exc == KeyError(key)
    ensures !v.VDict? ==> r == Raised(TypeError)
  {
    match v
    case VDict(e) =>
      (match Lookup(e, key)
       case Some(x) => Ok(x)
       case None => Raised(KeyError(key)))
    case _ => Raised(TypeError)
  }

  /** `v[0]`: the first item of a list or the first character of a
      string; an empty one raises `IndexError`, a dictionary (whose keys
      are strings) `KeyError`, anything else `TypeError`. */
  function Index0(v: Value): (r: Result<Value>)
    ensures r.Ok? <==> Iterate(v).Some? && !v.VDict? && Iterate(v).value != []
    ensures r.Ok? ==> r.value == Iterate(v).value[0]
  {
    match v
    case VList(items) => if items != [] then Ok(items[0]) else Raised(IndexError)
    case VStr(s) => if s != [] then Ok(VStr([s[0]])) else Raised(IndexError)
    case VDict(_) => Raised(KeyError("0"))
    case _ => Raised(TypeError)
  }
}
