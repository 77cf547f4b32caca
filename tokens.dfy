/** The token guard of the local instance's stages. Each stage issues a
    fresh instance token, runs one or more automation calls, and fails if
    the runner reports "failed" or if the token was replaced while the
    calls ran (another party took over the instance).

    The automation runner is an oracle: for the n-th call of the instance's
    life it gives the status the runner reports and, if some other party
    replaced the instance's token meanwhile, the new token. */
module Tokens {
  import opened Common

  /** What one runner call reports, and the token another party installed
      while it ran (`None` when nobody touched the token). */
  datatype OpOutcome = OpOutcome(status: string, replacedToken: Option<int>)

  /** The runner as the instance sees it: the outcome of its n-th call. */
  type Runner = (nat, Call) -> OpOutcome

  /** The part of the instance the stages change: its current token and
      the calls it has issued so far. */
  datatype Rt = Rt(token: int, calls: seq<Call>)

  datatype Step = Step(rt: Rt, status: string)

  /** The result of a stage: the `(success, message)` pair it returns and
      the instance afterwards. */
  datatype StageRun = StageRun(ok: bool, msg: string, rt: Rt)

  /** One runner call. */
  function Exec(runner: Runner, rt: Rt, c: Call): Step {
    var o := runner(|rt.calls|, c);
    Step(Rt(if o.replacedToken.Some? then o.replacedToken.value else rt.token, rt.calls + [c]),
         o.status)
  }

  /** Calls run one after the other; the status is the last call's (the
      source keeps only the last `runner`). */
  function ExecAll(runner: Runner, rt: Rt, ops: seq<Call>): Step
    requires |ops| > 0
    decreases |ops|
  {
    var s := Exec(runner, rt, ops[0]);
    if |ops| == 1 then s else ExecAll(runner, s.rt, ops[1..])
  }

  /** The token an observer reads after `ops` ran as calls number `start`,
      `start + 1`, ... starting from token `t`: the most recent replacement
      made during them, or `t` if there was none. */
  function TokenAfter(runner: Runner, start: nat, ops: seq<Call>, t: int): int
    decreases |ops|
  {
    if ops == [] then t
    else
      var o := runner(start + |ops| - 1, ops[|ops| - 1]);
      if o.replacedToken.Some? then o.replacedToken.value
      else TokenAfter(runner, start, ops[..|ops| - 1], t)
  }

  lemma {:induction false} TokenAfterSplit(runner: Runner, start: nat, a: seq<Call>, b: seq<Call>, t: int)
    ensures TokenAfter(runner, start, a + b, t)
         == TokenAfter(runner, start + |a|, b, TokenAfter(runner, start, a, t))
    decreases |b|
  {
    if b == [] {
      assert a + b == a;
    } else {
      var ab := a + b;
      assert ab[|ab| - 1] == b[|b| - 1];
      assert ab[..|ab| - 1] == a + b[..|b| - 1];
      TokenAfterSplit(runner, start, a, b[..|b| - 1], t);
    }
  }

  /** Running calls appends exactly those calls to the log, reports the
      last call's status, and leaves the token as the most recent
      replacement made during the calls. */
  lemma {:induction false} ExecAllEffect(runner: Runner, rt: Rt, ops: seq<Call>)
    requires |ops| > 0
    ensures ExecAll(runner, rt, ops).rt.calls == rt.calls + ops
    ensures ExecAll(runner, rt, ops).status == LastStatus(runner, |rt.calls|, ops)
    ensures ExecAll(runner, rt, ops).rt.token == TokenAfter(runner, |rt.calls|, ops, rt.token)
    decreases |ops|
  {
    var s := Exec(runner, rt, ops[0]);
    assert [ops[0]][..0] == [];
    assert TokenAfter(runner, |rt.calls|, [ops[0]], rt.token) == s.rt.token;
    if |ops| > 1 {
      ExecAllEffect(runner, s.rt, ops[1..]);
      assert ops == [ops[0]] + ops[1..];
      TokenAfterSplit(runner, |rt.calls|, [ops[0]], ops[1..], rt.token);
      assert rt.calls + [ops[0]] + ops[1..] == rt.calls + ops;
    }
  }

  /** A call no other party interfered with leaves the token alone. */
  lemma {:induction false} UntouchedTokenAfter(runner: Runner, start: nat, ops: seq<Call>, t: int)
    requires forall i :: 0 <= i < |ops| ==> runner(start + i, ops[i]).replacedToken == None
    ensures TokenAfter(runner, start, ops, t) == t
    decreases |ops|
  {
    if ops != [] {
      var init := ops[..|ops| - 1];
      assert forall i :: 0 <= i < |init| ==> runner(start + i, init[i]).replacedToken == None by {
        forall i | 0 <= i < |init| ensures runner(start + i, init[i]).replacedToken == None {
          assert init[i] == ops[i];
        }
      }
      UntouchedTokenAfter(runner, start, init, t);
    }
  }

  /** The runner reported the call as failed. Any other status, such as
      "timeout" or "canceled", counts as success. */
  predicate Failed(status: string) {
    status == "failed"
  }

  /** The status the runner reports for the last of `ops`, run as calls
      number `start`, `start + 1`, ... */
  function LastStatus(runner: Runner, start: nat, ops: seq<Call>): string
    requires |ops| > 0
  {
    runner(start + |ops| - 1, ops[|ops| - 1]).status
  }

  /** The check each stage makes after its calls: the last status is not
      "failed" and the token is still the one the stage issued. */
  predicate Passes(status: string, token: int, issued: int) {
    !Failed(status) && token == issued
  }

  /** A guarded stage: `update_uuid` issues the token `rt.token + 1`, the
      stage's calls run in order, and the stage fails exactly when the last
      call's runner reports "failed" or the token read afterwards is not
      the one issued. */
  function Guarded(runner: Runner, rt: Rt, ops: seq<Call>, okMsg: string, failMsg: string): StageRun
    requires |ops| > 0
  {
    var issued := rt.token + 1;
    var token := TokenAfter(runner, |rt.calls|, ops, issued);
    var ok := Passes(LastStatus(runner, |rt.calls|, ops), token, issued);
    StageRun(ok, if ok then okMsg else failMsg, Rt(token, rt.calls + ops))
  }

  /** A stage outcome `s` with the appended calls, the last call's status
      and the token read afterwards is judged as `Guarded` judges it. */
  lemma GuardedOfEffects(runner: Runner, rt: Rt, ops: seq<Call>, okMsg: string, failMsg: string, s: Step)
    requires |ops| > 0
    requires s.rt.calls == rt.calls + ops
    requires s.status == LastStatus(runner, |rt.calls|, ops)
    requires s.rt.token == TokenAfter(runner, |rt.calls|, ops, rt.token + 1)
    ensures var ok := Passes(s.status, s.rt.token, rt.token + 1);
            Guarded(runner, rt, ops, okMsg, failMsg) == StageRun(ok, if ok then okMsg else failMsg, s.rt)
  {
  }

  /** Running the stage's calls one by one under the freshly issued token
      and then checking the last status and the token, as each stage
      method does, gives `Guarded`. */
  lemma GuardedIsStepwiseCheck(runner: Runner, rt: Rt, ops: seq<Call>, okMsg: string, failMsg: string)
    requires |ops| > 0
    ensures var s := ExecAll(runner, Rt(rt.token + 1, rt.calls), ops);
            var ok := Passes(s.status, s.rt.token, rt.token + 1);
            Guarded(runner, rt, ops, okMsg, failMsg) == StageRun(ok, if ok then okMsg else failMsg, s.rt)
  {
    var start := Rt(rt.token + 1, rt.calls);
    ExecAllEffect(runner, start, ops);
    GuardedOfEffects(runner, rt, ops, okMsg, failMsg, ExecAll(runner, start, ops));
  }

  /** When nobody replaced the token during the stage, the runner's status
      alone decides the stage. */
  lemma UntouchedStageDecidedByStatus(runner: Runner, rt: Rt, ops: seq<Call>, okMsg: string, failMsg: string)
    requires |ops| > 0
    requires forall i :: 0 <= i < |ops| ==> runner(|rt.calls| + i, ops[i]).replacedToken == None
    ensures Guarded(runner, rt, ops, okMsg, failMsg).ok
        <==> !Failed(LastStatus(runner, |rt.calls|, ops))
  {
    UntouchedTokenAfter(runner, |rt.calls|, ops, rt.token + 1);
  }

  /** A stage whose token, after its calls, is no longer the one it
      issued (whichever call replaced it) fails even if the runner
      reported success: the result is stale. */
  lemma StaleStageFails(runner: Runner, rt: Rt, ops: seq<Call>, okMsg: string, failMsg: string)
    requires |ops| > 0
    requires TokenAfter(runner, |rt.calls|, ops, rt.token + 1) != rt.token + 1
    ensures !Guarded(runner, rt, ops, okMsg, failMsg).ok
    ensures Guarded(runner, rt, ops, okMsg, failMsg).msg == failMsg
  {
  }

}
