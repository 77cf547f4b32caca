/** Values shared by every part of the model: optional values, the
    dictionary/list/scalar values that job and provider configurations are
    made of, and the shape of one invocation of the automation runner. */
module Common {

  datatype Option<+T> = None | Some(value: T)

  /** A configuration value as read from YAML or JSON: `None` (`null`), a
      string, an integer, a boolean, a list, or a dictionary whose entries
      keep their insertion order (the order matters where the source emits
      a dictionary's items). */
  datatype Value =
    | VNull
    | VStr(s: string)
    | VInt(i: int)
    | VBool(b: bool)
    | VList(items: seq<Value>)
    | VDict(entries: seq<(string, Value)>)

  /** The entry of `key` in a dictionary value's entries, if any (the first
      one: a dictionary read from YAML has each key once). */
  function Lookup(entries: seq<(string, Value)>, key: string): Option<Value>
    decreases |entries|
  {
    if |entries| == 0 then None
    else if entries[0].0 == key then Some(entries[0].1)
    else Lookup(entries[1..], key)
  }

  /** `Lookup` finds a value exactly when some entry has the key, and the
      value it finds is the first such entry's. */
  lemma {:induction false} LookupFindsFirst(entries: seq<(string, Value)>, key: string)
    ensures Lookup(entries, key).Some? <==> exists i :: 0 <= i < |entries| && entries[i].0 == key
    ensures Lookup(entries, key).Some? ==>
              exists i :: 0 <= i < |entries| && entries[i] == (key, Lookup(entries, key).value)
                          && forall j :: 0 <= j < i ==> entries[j].0 != key
    decreases |entries|
  {
    if |entries| > 0 && entries[0].0 != key {
      var tail := entries[1..];
      LookupFindsFirst(tail, key);
      assert forall i :: 0 < i < |entries| ==> entries[i] == tail[i - 1];
      if Lookup(tail, key).Some? {
        var i :| 0 <= i < |tail| && tail[i] == (key, Lookup(tail, key).value)
                 && forall j :: 0 <= j < i ==> tail[j].0 != key;
        assert entries[i + 1] == tail[i];
      }
    } else if |entries| > 0 {
      assert entries[0] == (key, Lookup(entries, key).value);
    }
  }

  function DigitChar(d: int): char
    requires 0 <= d < 10
  {
    "0123456789"[d]
  }

  function NatToDecimal(n: nat): (r: string)
    ensures |r| > 0
    ensures forall i :: 0 <= i < |r| ==> '0' <= r[i] <= '9'
    decreases n
  {
    if n < 10 then [DigitChar(n)] else NatToDecimal(n / 10) + [DigitChar(n % 10)]
  }

  /** Python's `str(i)` of an integer. */
  function IntToDecimal(i: int): string {
    if i < 0 then "-" + NatToDecimal(-i) else NatToDecimal(i)
  }

  /** What `"{}".format(v)` inserts for a scalar value: strings as they are,
      integers in decimal, booleans as `True`/`False`, `None` as `None`.  Lists and
      dictionaries are rendered as the empty string (their Python `repr`
      is not modelled). */
  function Format(v: Value): string {
    match v
    case VNull => "None"
    case VStr(s) => s
    case VInt(i) => IntToDecimal(i)
    case VBool(b) => if b then "True" else "False"
    case VList(_) => ""
    case VDict(_) => ""
  }

  /** A dictionary in insertion order. */
  type Dict = seq<(string, Value)>

  /** Arguments of an automation module: a key/value dictionary or a single
      `key=value ...` argument string. */
  datatype Args = ArgMap(m: Dict) | ArgText(text: string)

  /** One invocation of the automation runner, as the instance issues it:
      a module with its arguments, a role with its extra variables and
      environment variables, or a shell command. */
  datatype Call =
    | Module(name: string, args: Args)
    | Role(name: string, extravars: Dict, envvars: Dict)
    | Shell(command: string)

  /** The role that sets up a job's dependency manager, by `env_type`;
      the local and the shared stages use the same table. */
  function DependencyRole(envType: string): (r: Option<string>)
    ensures r.Some? <==> envType == "conda" || envType == "pip" || envType == "docker"
    ensures r.Some? ==> r.value == "run/local/setup_" + envType
  {
    if envType == "conda" then Some("run/local/setup_conda")
    else if envType == "pip" then Some("run/local/setup_pip")
    else if envType == "docker" then Some("run/local/setup_docker")
    else None
  }
}
