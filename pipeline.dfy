/** The shape of `setup_job`: stages run one after another from the
    instance each previous stage left, and the first failure is the
    result. The stages are any type `S`; `f` says what one stage does and
    `stageCalls` which calls it issues. */
module Pipeline {
  import opened Common
  import opened Tokens

  const SetupOkMsg := "Successfully setup the job"

  /** What one stage does to the instance. */
  type StageFn<!S> = (Rt, S) -> StageRun

  /** The stages run in order until one fails; that stage's result is the
      result, and no later stage runs. */
  function RunStages<S>(f: StageFn<S>, rt: Rt, stages: seq<S>): StageRun
    decreases |stages|
  {
    if stages == [] then StageRun(true, SetupOkMsg, rt)
    else
      var r := f(rt, stages[0]);
      if !r.ok then r else RunStages(f, r.rt, stages[1..])
  }

  /** The calls of a sequence of stages, all of which ran. */
  function AllCalls<S>(stageCalls: S -> seq<Call>, stages: seq<S>): seq<Call>
    decreases |stages|
  {
    if stages == [] then [] else stageCalls(stages[0]) + AllCalls(stageCalls, stages[1..])
  }

  /** A stage function under which every stage appends exactly its calls. */
  ghost predicate AppendsStageCalls<S(!new)>(f: StageFn<S>, stageCalls: S -> seq<Call>) {
    forall rt: Rt, s: S :: f(rt, s).rt.calls == rt.calls + stageCalls(s)
  }

  /** Running `a + b` is running `a`, then — only if all of `a` succeeded —
      running `b` from where `a` left the instance. */
  lemma {:induction false} RunStagesAppend<S>(f: StageFn<S>, rt: Rt, a: seq<S>, b: seq<S>)
    ensures var ra := RunStages(f, rt, a);
            RunStages(f, rt, a + b) == if ra.ok then RunStages(f, ra.rt, b) else ra
    decreases |a|
  {
    if a == [] {
      assert a + b == b;
    } else {
      assert (a + b)[0] == a[0];
      assert (a + b)[1..] == a[1..] + b;
      var r := f(rt, a[0]);
      if r.ok {
        RunStagesAppend(f, r.rt, a[1..], b);
      }
    }
  }

  /** If the stages before position `k` succeeded and stage `k` fails,
      the whole run's result is stage `k`'s. */
  lemma StopsAt<S>(f: StageFn<S>, rt: Rt, stages: seq<S>, k: nat)
    requires k < |stages|
    requires RunStages(f, rt, stages[..k]).ok
    requires !f(RunStages(f, rt, stages[..k]).rt, stages[k]).ok
    ensures RunStages(f, rt, stages) == f(RunStages(f, rt, stages[..k]).rt, stages[k])
  {
    assert stages == stages[..k] + stages[k..];
    RunStagesAppend(f, rt, stages[..k], stages[k..]);
    assert stages[k..][0] == stages[k];
  }

  /** If the stages before position `k` and stage `k` succeed, the first
      `k + 1` stages succeed and leave the instance as stage `k` left it. */
  lemma Continues<S>(f: StageFn<S>, rt: Rt, stages: seq<S>, k: nat)
    requires k < |stages|
    requires RunStages(f, rt, stages[..k]).ok
    requires f(RunStages(f, rt, stages[..k]).rt, stages[k]).ok
    ensures RunStages(f, rt, stages[..k + 1])
         == StageRun(true, SetupOkMsg, f(RunStages(f, rt, stages[..k]).rt, stages[k]).rt)
  {
    assert stages[..k + 1] == stages[..k] + [stages[k]];
    RunStagesAppend(f, rt, stages[..k], [stages[k]]);
    assert [stages[k]][1..] == [];
  }

  /** A run succeeds exactly when every stage succeeds from where the
      stages before it left the instance, and then reports the setup
      success message. */
  lemma {:induction false} AllStagesSucceed<S>(f: StageFn<S>, rt: Rt, stages: seq<S>)
    ensures RunStages(f, rt, stages).ok
        <==> forall k :: 0 <= k < |stages| ==> f(RunStages(f, rt, stages[..k]).rt, stages[k]).ok
    ensures RunStages(f, rt, stages).ok ==> RunStages(f, rt, stages).msg == SetupOkMsg
    decreases |stages|
  {
    if stages != [] {
      var r := f(rt, stages[0]);
      assert stages[..0] == [];
      if r.ok {
        var tail := stages[1..];
        AllStagesSucceed(f, r.rt, tail);
        forall k | 0 < k < |stages|
          ensures RunStages(f, rt, stages[..k]) == RunStages(f, r.rt, tail[..k - 1])
          ensures stages[k] == tail[k - 1]
        {
          assert stages[..k][0] == stages[0];
          assert stages[..k][1..] == tail[..k - 1];
        }
      }
    }
  }

  /** A successful run made the calls of all its stages, in order. */
  lemma {:induction false} SuccessMakesAllCalls<S(!new)>(f: StageFn<S>, stageCalls: S -> seq<Call>, rt: Rt, stages: seq<S>)
    requires AppendsStageCalls(f, stageCalls)
    requires RunStages(f, rt, stages).ok
    ensures RunStages(f, rt, stages).rt.calls == rt.calls + AllCalls(stageCalls, stages)
    decreases |stages|
  {
    if stages != [] {
      var r := f(rt, stages[0]);
      SuccessMakesAllCalls(f, stageCalls, r.rt, stages[1..]);
    }
  }

  /** A failing run stops at its first failing stage `k`: every stage
      before `k` succeeded, the result is stage `k`'s `(False, message)`,
      and the calls made are exactly those of stages `0..k` — no later
      stage was invoked. */
  lemma {:induction false} FirstFailureStops<S(!new)>(f: StageFn<S>, stageCalls: S -> seq<Call>, rt: Rt, stages: seq<S>)
    requires AppendsStageCalls(f, stageCalls)
    requires !RunStages(f, rt, stages).ok
    ensures exists k :: 0 <= k < |stages|
              && RunStages(f, rt, stages[..k]).ok
              && RunStages(f, rt, stages) == f(RunStages(f, rt, stages[..k]).rt, stages[k])
              && RunStages(f, rt, stages).rt.calls == rt.calls + AllCalls(stageCalls, stages[..k + 1])
    decreases |stages|
  {
    var r := f(rt, stages[0]);
    assert stages[..0] == [];
    if !r.ok {
      assert stages[..1] == [stages[0]];
      assert AllCalls(stageCalls, [stages[0]]) == stageCalls(stages[0]) + AllCalls(stageCalls, []);
    } else {
      var tail := stages[1..];
      FirstFailureStops(f, stageCalls, r.rt, tail);
      var j :| 0 <= j < |tail|
              && RunStages(f, r.rt, tail[..j]).ok
              && RunStages(f, r.rt, tail) == f(RunStages(f, r.rt, tail[..j]).rt, tail[j])
              && RunStages(f, r.rt, tail).rt.calls == r.rt.calls + AllCalls(stageCalls, tail[..j + 1]);
      PrefixAfterFirst(f, stageCalls, rt, stages, j + 1);
      PrefixAfterFirst(f, stageCalls, rt, stages, j + 2);
      assert stages[j + 1] == tail[j];
    }
  }

  /** When the first stage succeeds, the first `k` stages run as the first
      `k - 1` of the rest, from where the first stage left the instance. */
  lemma PrefixAfterFirst<S>(f: StageFn<S>, stageCalls: S -> seq<Call>, rt: Rt, stages: seq<S>, k: nat)
    requires 0 < k <= |stages|
    requires f(rt, stages[0]).ok
    ensures RunStages(f, rt, stages[..k]) == RunStages(f, f(rt, stages[0]).rt, stages[1..][..k - 1])
    ensures AllCalls(stageCalls, stages[..k]) == stageCalls(stages[0]) + AllCalls(stageCalls, stages[1..][..k - 1])
  {
    assert stages[..k][0] == stages[0] && stages[..k][1..] == stages[1..][..k - 1];
  }

  /** Running `[s] + rest` runs `s` and, only if it succeeded, `rest`. */
  lemma RunStagesCons<S>(f: StageFn<S>, rt: Rt, s: S, rest: seq<S>)
    ensures var r := f(rt, s);
            RunStages(f, rt, [s] + rest) == if r.ok then RunStages(f, r.rt, rest) else r
  {
    assert ([s] + rest)[1..] == rest;
  }

  /** Running the stages from position `k` runs stage `k` and, only if it
      succeeded, the stages after it. */
  lemma RunStagesFrom<S>(f: StageFn<S>, rt: Rt, stages: seq<S>, k: nat)
    requires k < |stages|
    ensures var r := f(rt, stages[k]);
            RunStages(f, rt, stages[k..]) == if r.ok then RunStages(f, r.rt, stages[k + 1..]) else r
  {
    assert stages[k..] == [stages[k]] + stages[k + 1..];
    RunStagesCons(f, rt, stages[k], stages[k + 1..]);
  }

  lemma {:induction false} AllCallsAppend<S>(stageCalls: S -> seq<Call>, a: seq<S>, b: seq<S>)
    ensures AllCalls(stageCalls, a + b) == AllCalls(stageCalls, a) + AllCalls(stageCalls, b)
    decreases |a|
  {
    if a == [] {
      assert a + b == b;
    } else {
      assert (a + b)[1..] == a[1..] + b;
      AllCallsAppend(stageCalls, a[1..], b);
    }
  }

  /** When every stage in the list succeeds from any instance, the run
      succeeds with the setup message having made all the stages' calls. */
  lemma {:induction false} EveryStagePassesThenRunPasses<S(!new)>(f: StageFn<S>, stageCalls: S -> seq<Call>,
                                                                   rt: Rt, stages: seq<S>)
    requires AppendsStageCalls(f, stageCalls)
    requires forall s, r: Rt :: s in stages ==> f(r, s).ok
    ensures RunStages(f, rt, stages).ok && RunStages(f, rt, stages).msg == SetupOkMsg
    ensures RunStages(f, rt, stages).rt.calls == rt.calls + AllCalls(stageCalls, stages)
    decreases |stages|
  {
    if stages != [] {
      var r := f(rt, stages[0]);
      assert stages[0] in stages;
      assert forall s :: s in stages[1..] ==> s in stages;
      EveryStagePassesThenRunPasses(f, stageCalls, r.rt, stages[1..]);
    }
  }

  lemma AllCallsSingle<S>(sc: S -> seq<Call>, s: S)
    ensures AllCalls(sc, [s]) == sc(s)
  {
    assert [s][1..] == [];
  }

  /** The calls of the stages `d + [j] + c + [l] + p + [sp, dep]`, segment
      by segment. */
  lemma AllCallsOfSegments<S>(sc: S -> seq<Call>, d: seq<S>, j: S, c: seq<S>, l: S, p: seq<S>, sp: S, dep: S)
    ensures AllCalls(sc, d + [j] + c + [l] + p + [sp, dep])
         == AllCalls(sc, d) + sc(j) + AllCalls(sc, c) + sc(l) + AllCalls(sc, p) + sc(sp) + sc(dep)
  {
    AllCallsAppend(sc, d, [j]);
    AllCallsAppend(sc, d + [j], c);
    AllCallsAppend(sc, d + [j] + c, [l]);
    AllCallsAppend(sc, d + [j] + c + [l], p);
    AllCallsAppend(sc, d + [j] + c + [l] + p, [sp, dep]);
    AllCallsSingle(sc, j);
    AllCallsSingle(sc, l);
    assert [sp, dep] == [sp] + [dep];
    AllCallsAppend(sc, [sp], [dep]);
    AllCallsSingle(sc, sp);
    AllCallsSingle(sc, dep);
  }
}
