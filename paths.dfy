/** Path construction as the instance code does it: POSIX `os.path.join`,
    the `/`-to-`_` flattening of a persisted folder into a script name, and
    the fixed names of the synchronisation scripts. */
module Paths {

  predicate IsAbsolute(p: string) {
    |p| > 0 && p[0] == '/'
  }

  predicate EndsWithSep(p: string) {
    |p| > 0 && p[|p| - 1] == '/'
  }

  /** POSIX `os.path.join(a, b)`: an absolute `b` discards `a`; otherwise a
      separator is inserted unless `a` is empty or already ends with one. */
  function Join(a: string, b: string): string {
    if IsAbsolute(b) then b
    else if a == [] || EndsWithSep(a) then a + b
    else a + "/" + b
  }

  /** The joined path ends with `b`; it is `b` alone when `b` is absolute,
      and otherwise `a` and `b` with one separator inserted exactly when `a`
      is non-empty and does not already end with one. */
  lemma JoinShape(a: string, b: string)
    ensures var r := Join(a, b);
            && |b| <= |r| && r[|r| - |b|..] == b
            && (IsAbsolute(b) ==> r == b)
            && (!IsAbsolute(b) ==> r == a + b || r == a + "/" + b)
            && (!IsAbsolute(b) ==> (r == a + "/" + b <==> a != [] && !EndsWithSep(a)))
  {
  }

  /** `os.path.join(a, *parts)`: the components are joined from left to right. */
  function JoinAll(a: string, parts: seq<string>): string
    decreases |parts|
  {
    if parts == [] then a else JoinAll(Join(a, parts[0]), parts[1..])
  }

  /** Joining one more component extends the joined prefix. */
  lemma {:induction false} JoinAllSnoc(a: string, parts: seq<string>, b: string)
    ensures JoinAll(a, parts + [b]) == Join(JoinAll(a, parts), b)
    decreases |parts|
  {
    if parts == [] {
      assert [b][1..] == [];
    } else {
      assert (parts + [b])[1..] == parts[1..] + [b];
      JoinAllSnoc(Join(a, parts[0]), parts[1..], b);
    }
  }

  /** Joining an empty last component gives a directory path: it ends with
      the separator exactly when the path before it is not empty, and it
      adds nothing when that path already ends with one. */
  lemma TrailingSeparator(p: string)
    ensures EndsWithSep(Join(p, "")) <==> p != []
    ensures EndsWithSep(p) ==> Join(p, "") == p
    ensures p != [] && !EndsWithSep(p) ==> Join(p, "") == p + "/"
  {
  }

  /** With no absolute component, the first argument is a prefix of the
      joined path. */
  lemma {:induction false} RelativeJoinKeepsBase(a: string, parts: seq<string>)
    requires forall k :: 0 <= k < |parts| ==> !IsAbsolute(parts[k])
    ensures |a| <= |JoinAll(a, parts)| && JoinAll(a, parts)[..|a|] == a
    decreases |parts|
  {
    if parts != [] {
      var j := Join(a, parts[0]);
      assert j[..|a|] == a;
      RelativeJoinKeepsBase(j, parts[1..]);
      assert JoinAll(j, parts[1..])[..|a|] == JoinAll(j, parts[1..])[..|j|][..|a|];
    }
  }

  /** An absolute component discards everything joined before it. */
  lemma {:induction false} AbsoluteComponentResets(a: string, parts: seq<string>, k: nat)
    requires k < |parts| && IsAbsolute(parts[k])
    ensures JoinAll(a, parts) == JoinAll(parts[k], parts[k + 1..])
    decreases k
  {
    if k > 0 {
      AbsoluteComponentResets(Join(a, parts[0]), parts[1..], k - 1);
      assert parts[1..][k - 1 + 1..] == parts[k + 1..];
    }
  }

  /** `s.replace("/", "_")`. */
  function FlattenSeparators(s: string): (r: string)
    ensures |r| == |s|
    ensures forall i :: 0 <= i < |s| ==> r[i] == (if s[i] == '/' then '_' else s[i])
    ensures '/' !in r
  {
    if s == [] then [] else [if s[0] == '/' then '_' else s[0]] + FlattenSeparators(s[1..])
  }

  /** Name of the sync script of a persisted folder. */
  function PersistScriptName(persist: string): string {
    FlattenSeparators(persist) + "_sync.sh"
  }

  /** Name of the job's background persistence loop script; the same name is
      what cleanup kills. */
  function LoopScriptName(jobUid: string): string {
    jobUid + "_persist_all_loop.sh"
  }

  /** A persisted folder's script name carries no separator. */
  lemma ScriptNameHasNoSeparator(persist: string)
    ensures '/' !in PersistScriptName(persist)
  {
    assert '/' !in "_sync.sh";
  }

  /** Joining a relative name under a relative directory component that
      does not end with the separator puts the name directly inside
      `join(a, dir)`. */
  lemma JoinUnder(a: string, dir: string, name: string)
    requires dir != [] && !IsAbsolute(dir) && !EndsWithSep(dir) && !IsAbsolute(name)
    ensures JoinAll(a, [dir, name]) == Join(a, dir) + "/" + name
  {
    var d := Join(a, dir);
    JoinShape(a, dir);
    assert d[|d| - 1] == dir[|dir| - 1];
    assert d != [] && !EndsWithSep(d);
    assert JoinAll(d, [name]) == Join(d, name);
    assert [dir, name][1..] == [name];
    assert [name][1..] == [];
  }

  /** A persisted folder's sync script always lands directly inside
      `<job_dir>/sync`, whatever separators (or leading `/`) the folder
      name had, and its name carries no separator. */
  lemma SyncScriptInSyncDir(jobDir: string, persist: string)
    ensures JoinAll(jobDir, ["sync", PersistScriptName(persist)])
         == Join(jobDir, "sync") + "/" + PersistScriptName(persist)
    ensures '/' !in PersistScriptName(persist)
  {
    var name := PersistScriptName(persist);
    ScriptNameHasNoSeparator(persist);
    assert name[0] in name;
    JoinUnder(jobDir, "sync", name);
  }
}
