/** The local-machine instance. Each pipeline stage issues a fresh instance
    token, runs one or more automation calls, and fails if the runner
    reports "failed" or if the token was replaced while the calls ran.
    `setup_job` runs the setup stages in a fixed order and stops at the
    first failure.

    The automation runner is an oracle: for the n-th call of the instance's
    life it gives the status the runner reports and, if some other party
    replaced the instance's token meanwhile, the new token. */
module LocalInstance {
  import opened Common
  import opened Paths
  import opened Tokens
  import opened Pipeline
  import PyValues

  // ---------------------------------------------------------------------
  // The job description
  // ---------------------------------------------------------------------

  datatype DataItem = DataItem(name: string, datasetChecksum: string, datasetFilename: string, path: string)

  datatype CodeItem = CodeItem(runName: string, codebaseChecksum: string, codebaseExtension: string)

  /** The job's `run` section; `env` is empty when the section has none. */
  datatype RunSpec = RunSpec(envType: string, envFile: string, env: Dict)

  /** A job; missing `data`, `code` or `persist` lists are empty sequences. */
  datatype JobSpec = JobSpec(jobUid: string, data: seq<DataItem>, code: seq<CodeItem>,
                             persist: seq<string>, run: RunSpec, cmd: string)

  /** The provider's local variables `monkey_scratch` and `monkeyfs_path`. */
  datatype Layout = Layout(scratch: string, monkeyfs: string)

  // ---------------------------------------------------------------------
  // The calls each stage issues
  // ---------------------------------------------------------------------

  function InstallLocation(scratch: string, jobUid: string, d: DataItem): string {
    JoinAll(scratch, [jobUid, d.path])
  }

  function DatasetFullPath(monkeyfs: string, d: DataItem): string {
    JoinAll(monkeyfs, ["data", d.name, d.datasetChecksum, d.datasetFilename])
  }

  /** Create the installation directory of a data item. */
  function DataDirCall(scratch: string, jobUid: string, d: DataItem): Call {
    Module("file", ArgMap([("path", VStr(InstallLocation(scratch, jobUid, d))), ("state", VStr("directory"))]))
  }

  /** Unarchive the dataset into the installation directory. */
  function DataUnarchiveCall(scratch: string, monkeyfs: string, jobUid: string, d: DataItem): Call {
    Module("unarchive", ArgMap([("src", VStr(DatasetFullPath(monkeyfs, d))), ("remote_src", VStr("True")),
                                ("dest", VStr(InstallLocation(scratch, jobUid, d))), ("creates", VStr("yes"))]))
  }

  /** Copy `<monkeyfs>/jobs/<uid>/` onto the job directory. */
  function JobDirCall(jobUid: string, monkeyfsPath: string, jobDirPath: string): Call {
    Module("copy", ArgText("src=" + JoinAll(monkeyfsPath, ["jobs", jobUid]) + "/"
                           + " dest=" + jobDirPath + " remote_src=true"))
  }

  function CodeTarPath(monkeyfsPath: string, c: CodeItem): string {
    JoinAll(monkeyfsPath, ["code", c.runName, c.codebaseChecksum, "code" + c.codebaseExtension])
  }

  /** Unarchive the code into the job directory, with a trailing separator. */
  function CodeCall(c: CodeItem, monkeyfsPath: string, jobDirPath: string): Call {
    Module("unarchive", ArgMap([("src", VStr(CodeTarPath(monkeyfsPath, c))), ("remote_src", VStr("True")),
                                   ("dest", VStr(Join(jobDirPath, ""))), ("creates", VStr("yes"))]))
  }

  function PersistFolderVars(jobUid: string, monkeyfsPath: string, jobDirPath: string, persist: string)
    : Dict
  {
    [("persist_folder_path", VStr(JoinAll(jobDirPath, [persist, ""]))),
        ("sync_folder_path", VStr(Join(jobDirPath, "sync"))),
        ("sync_logs_path", VStr(JoinAll(jobDirPath, ["logs", "sync.log"]))),
        ("persist_script_path", VStr(JoinAll(jobDirPath, ["sync", PersistScriptName(persist)]))),
        ("bucket_path", VStr(JoinAll(monkeyfsPath, ["jobs", jobUid, persist, ""])))]
  }

  function PersistFolderCall(jobUid: string, monkeyfsPath: string, jobDirPath: string, persist: string): Call {
    Role("local/configure/persist_folder", PersistFolderVars(jobUid, monkeyfsPath, jobDirPath, persist), [])
  }

  function StartPersistVars(jobUid: string, jobDirPath: string): Dict {
    [("sync_folder_path", VStr(Join(jobDirPath, "sync"))),
        ("sync_logs_path", VStr(JoinAll(jobDirPath, ["logs", "sync.log"]))),
        ("persist_script_path", VStr(JoinAll(jobDirPath, ["sync", "persist_all.sh"]))),
        ("unique_persist_all_script_name", VStr(LoopScriptName(jobUid))),
        ("persist_loop_script_path", VStr(JoinAll(jobDirPath, ["sync", LoopScriptName(jobUid)])))]
  }

  function StartPersistCall(jobUid: string, jobDirPath: string): Call {
    Role("local/configure/start_persist", StartPersistVars(jobUid, jobDirPath), [])
  }

  function LogsFolderVars(monkeyfsPath: string, jobUid: string, jobDirPath: string): Dict {
    [("persist_folder_path", VStr(JoinAll(jobDirPath, ["logs", ""]))),
        ("sync_logs_path", VStr(JoinAll(jobDirPath, ["logs", "sync.log"]))),
        ("sync_folder_path", VStr(Join(jobDirPath, "sync"))),
        ("persist_script_path", VStr(Join(jobDirPath, ".logs_sync.sh"))),
        ("bucket_path", VStr(JoinAll(monkeyfsPath, ["jobs", jobUid, "logs", ""]))),
        ("persist_time", VInt(3))]
  }

  function LogsFolderCall(monkeyfsPath: string, jobUid: string, jobDirPath: string): Call {
    Role("local/configure/persist_folder", LogsFolderVars(monkeyfsPath, jobUid, jobDirPath), [])
  }

  function EnvArgs(run: RunSpec, jobDirPath: string): Dict {
    [("environment_file", VStr(Join(jobDirPath, run.envFile))),
        ("activate_file", VStr(Join(jobDirPath, ".monkey_activate"))),
        ("job_dir_path", VStr(jobDirPath))]
  }

  function CommandCall(scratch: string, jobUid: string, cmd: string, run: RunSpec): Call {
    var jobDirPath := Join(scratch, jobUid);
    Role("run/local/cmd",
         [("run_command", VStr(cmd)), ("job_dir_path", VStr(jobDirPath)),
             ("activate_file", VStr(Join(jobDirPath, ".monkey_activate")))],
         run.env)
  }

  function SyncCall(scratch: string, jobUid: string): Call {
    Shell("bash " + JoinAll(Join(scratch, jobUid), ["sync", "persist_all.sh"]))
  }

  function KillLoopCall(jobUid: string): Call {
    Shell("killall " + LoopScriptName(jobUid))
  }

  function SetupMachineCall(localVars: Dict): Call {
    Role("local/setup/machine", localVars, [])
  }

  // ---------------------------------------------------------------------
  // Stage results
  // ---------------------------------------------------------------------

  const DataOkMsg := "Successfully setup data item"
  const DataFailMsg := "Failed to extract archive"
  const UnpackOkMsg := "Unpacked code and persisted directories successfully"
  const JobDirFailMsg := "Failed to copy directory"
  const CodeFailMsg := "Failed to extract code archive"
  const LogsOkMsg := "Setup logs persistence ran successfully"
  const LogsFailMsg := "Failed to create persisted logs folder"
  const PersistOkMsg := "Setup persist ran successfully"
  const PersistFailPrefix := "Failed to setup persist folder: "
  const StartPersistOkMsg := "Start persist ran successfully"
  const StartPersistFailMsg := "Failed start persistence of directories"
  const DependencyOkMsg := "Successfully created dependency manager and stored initialization in .monkey_activate"
  const DependencyFailMsg := "Failed to initialize environment manager"
  const UnknownDependencyMsg := "Provided or missing dependency manager"
  const CommandOkMsg := "Successfully ran job"
  const CommandFailPrefix := "Failed to run command properly: "
  const JobOkMsg := "Job completed"
  const SyncFailMsg := "Failed to run sync command properly: "
  const CleanupMsg := "Succesfully cleaned up job"

  /** The stages of `setup_job`, by what they set up. What a stage issues
      follows from the provider's layout and the job (`StageCalls`). */
  datatype Stage =
    | DataSt(item: DataItem)
    | JobDirSt
    | CodeSt(code: CodeItem)
    | LogsSt
    | PersistSt(folder: string)
    | StartPersistSt
    | DependencySt

  /** `os.path.join(scratch_dir, job_uid)`. */
  function JobDirPath(lay: Layout, job: JobSpec): string {
    Join(lay.scratch, job.jobUid)
  }

  /** The dependency role call, or none for an unknown `env_type`. */
  function DependencyCalls(run: RunSpec, jobDirPath: string): seq<Call> {
    match DependencyRole(run.envType)
    case None => []
    case Some(role) => [Role(role, EnvArgs(run, jobDirPath), [])]
  }

  /** The calls a stage issues, whatever the runner reports; only the
      dependency stage of an unknown `env_type` issues none. */
  function StageCalls(lay: Layout, job: JobSpec, s: Stage): seq<Call>
  {
    var uid, jobDirPath := job.jobUid, JobDirPath(lay, job);
    match s
    case DataSt(d) => [DataDirCall(lay.scratch, uid, d), DataUnarchiveCall(lay.scratch, lay.monkeyfs, uid, d)]
    case JobDirSt => [JobDirCall(uid, lay.monkeyfs, jobDirPath)]
    case CodeSt(c) => [CodeCall(c, lay.monkeyfs, jobDirPath)]
    case LogsSt => [LogsFolderCall(lay.monkeyfs, uid, jobDirPath)]
    case PersistSt(p) => [PersistFolderCall(uid, lay.monkeyfs, jobDirPath, p)]
    case StartPersistSt => [StartPersistCall(uid, jobDirPath)]
    case DependencySt => DependencyCalls(job.run, jobDirPath)
  }

  function StageOkMsg(s: Stage): string {
    match s
    case DataSt(_) => DataOkMsg
    case JobDirSt => UnpackOkMsg
    case CodeSt(_) => UnpackOkMsg
    case LogsSt => LogsOkMsg
    case PersistSt(_) => PersistOkMsg
    case StartPersistSt => StartPersistOkMsg
    case DependencySt => DependencyOkMsg
  }

  function StageFailMsg(s: Stage): string {
    match s
    case DataSt(_) => DataFailMsg
    case JobDirSt => JobDirFailMsg
    case CodeSt(_) => CodeFailMsg
    case LogsSt => LogsFailMsg
    case PersistSt(p) => PersistFailPrefix + p
    case StartPersistSt => StartPersistFailMsg
    case DependencySt => DependencyFailMsg
  }

  /** `setup_dependency_manager`: the token is issued before the
      `env_type` dispatch, so an unknown type still consumes a token but
      runs no role. */
  function DependencySpec(runner: Runner, rt: Rt, run: RunSpec, jobDirPath: string): StageRun
  {
    var ops := DependencyCalls(run, jobDirPath);
    if ops == [] then StageRun(false, UnknownDependencyMsg, Rt(rt.token + 1, rt.calls))
    else Guarded(runner, rt, ops, DependencyOkMsg, DependencyFailMsg)
  }

  /** One stage of `setup_job` run against `runner`. */
  function StageSpec(runner: Runner, lay: Layout, job: JobSpec, rt: Rt, s: Stage): StageRun
  {
    if s == DependencySt then DependencySpec(runner, rt, job.run, JobDirPath(lay, job))
    else Guarded(runner, rt, StageCalls(lay, job, s), StageOkMsg(s), StageFailMsg(s))
  }

  function StageFnOf(runner: Runner, lay: Layout, job: JobSpec): StageFn<Stage> {
    (rt: Rt, s: Stage) => StageSpec(runner, lay, job, rt, s)
  }

  function CallsOf(lay: Layout, job: JobSpec): Stage -> seq<Call> {
    (s: Stage) => StageCalls(lay, job, s)
  }

  function DataStages(items: seq<DataItem>): seq<Stage> {
    seq(|items|, i requires 0 <= i < |items| => DataSt(items[i]))
  }

  function CodeStages(items: seq<CodeItem>): seq<Stage> {
    seq(|items|, i requires 0 <= i < |items| => CodeSt(items[i]))
  }

  function PersistStages(folders: seq<string>): seq<Stage> {
    seq(|folders|, i requires 0 <= i < |folders| => PersistSt(folders[i]))
  }

  /** The order in which `setup_job` runs its stages: each data item, the
      job directory, each code item, the logs folder, each persisted
      folder, the start of persistence, and the dependency manager. */
  function SetupStages(job: JobSpec): seq<Stage> {
    DataStages(job.data) + [JobDirSt] + CodeStages(job.code) + [LogsSt]
      + PersistStages(job.persist) + [StartPersistSt, DependencySt]
  }

  /** `setup_job`: one token is issued and dropped first, then the stages run. */
  function SetupJobSpec(runner: Runner, lay: Layout, rt: Rt, job: JobSpec): StageRun {
    RunStages(StageFnOf(runner, lay, job), Rt(rt.token + 1, rt.calls), SetupStages(job))
  }

  // ---------------------------------------------------------------------
  // Properties of the setup pipeline
  // ---------------------------------------------------------------------

  /** Only the dependency stage of an unknown `env_type` issues no call. */
  lemma StageCallsEmpty(lay: Layout, job: JobSpec, s: Stage)
    ensures StageCalls(lay, job, s) == [] <==> s == DependencySt && DependencyRole(job.run.envType).None?
  {
  }

  /** A stage appends exactly its calls to the instance's log, whatever the
      runner reports. */
  lemma StageSpecAppendsCalls(runner: Runner, lay: Layout, job: JobSpec, rt: Rt, s: Stage)
    ensures StageSpec(runner, lay, job, rt, s).rt.calls == rt.calls + StageCalls(lay, job, s)
  {
    if s == DependencySt {
      assert DependencyCalls(job.run, JobDirPath(lay, job)) == [] ==> rt.calls + [] == rt.calls;
    }
  }

  /** Every stage appends exactly its calls to the instance's log. */
  lemma StageFnAppendsCalls(runner: Runner, lay: Layout, job: JobSpec)
    ensures AppendsStageCalls(StageFnOf(runner, lay, job), CallsOf(lay, job))
  {
    forall rt: Rt, s: Stage
      ensures StageFnOf(runner, lay, job)(rt, s).rt.calls == rt.calls + CallsOf(lay, job)(s)
    {
      StageSpecAppendsCalls(runner, lay, job, rt, s);
    }
  }

  /** The calls of a fully successful setup, in order: those of each data
      item, the job directory copy, those of each code item, the logs
      folder, those of each persisted folder, the start of persistence,
      and the dependency role (none for an unknown `env_type`). */
  lemma SetupCallsInOrder(lay: Layout, job: JobSpec)
    ensures var uid, jobDirPath, sc := job.jobUid, JobDirPath(lay, job), CallsOf(lay, job);
            AllCalls(sc, SetupStages(job))
            == AllCalls(sc, DataStages(job.data))
               + [JobDirCall(uid, lay.monkeyfs, jobDirPath)]
               + AllCalls(sc, CodeStages(job.code))
               + [LogsFolderCall(lay.monkeyfs, uid, jobDirPath)]
               + AllCalls(sc, PersistStages(job.persist))
               + [StartPersistCall(uid, jobDirPath)]
               + DependencyCalls(job.run, jobDirPath)
  {
    var uid, jobDirPath, sc := job.jobUid, JobDirPath(lay, job), CallsOf(lay, job);
    assert sc(JobDirSt) == [JobDirCall(uid, lay.monkeyfs, jobDirPath)];
    assert sc(LogsSt) == [LogsFolderCall(lay.monkeyfs, uid, jobDirPath)];
    assert sc(StartPersistSt) == [StartPersistCall(uid, jobDirPath)];
    assert sc(DependencySt) == DependencyCalls(job.run, jobDirPath);
    AllCallsOfSegments(sc, DataStages(job.data), JobDirSt, CodeStages(job.code), LogsSt,
                       PersistStages(job.persist), StartPersistSt, DependencySt);
  }

  /** The dependency stage with an unknown `env_type` issues no call and
      fails with the "missing dependency manager" message. */
  lemma UnknownEnvTypeRunsNoRole(runner: Runner, lay: Layout, job: JobSpec, rt: Rt)
    requires job.run.envType != "conda" && job.run.envType != "pip" && job.run.envType != "docker"
    ensures StageCalls(lay, job, DependencySt) == []
    ensures StageSpec(runner, lay, job, rt, DependencySt)
         == StageRun(false, UnknownDependencyMsg, Rt(rt.token + 1, rt.calls))
  {
  }

  /** In a data item's stage only the unarchive call's status counts: two
      runners that differ only in the status they report for the
      directory call give the same result. */
  lemma DataStageIgnoresDirStatus(r1: Runner, r2: Runner, lay: Layout, job: JobSpec, rt: Rt, d: DataItem)
    requires var dir := DataDirCall(lay.scratch, job.jobUid, d);
             r1(|rt.calls|, dir).replacedToken == r2(|rt.calls|, dir).replacedToken
    requires var unarchive := DataUnarchiveCall(lay.scratch, lay.monkeyfs, job.jobUid, d);
             r1(|rt.calls| + 1, unarchive) == r2(|rt.calls| + 1, unarchive)
    ensures StageSpec(r1, lay, job, rt, DataSt(d)) == StageSpec(r2, lay, job, rt, DataSt(d))
  {
    var ops := StageCalls(lay, job, DataSt(d));
    var start, issued := |rt.calls|, rt.token + 1;
    assert |ops| == 2 && ops[..1] == [ops[0]] && ops[..1][..0] == [];
    assert TokenAfter(r1, start, ops[..1], issued) == TokenAfter(r2, start, ops[..1], issued);
    assert TokenAfter(r1, start, ops, issued) == TokenAfter(r2, start, ops, issued);
    assert LastStatus(r1, start, ops) == LastStatus(r2, start, ops);
  }

  /** Against a runner that always reports success with nobody touching the
      token, every stage that issues a call succeeds. */
  lemma QuietRunnerPassesGuards(runner: Runner, lay: Layout, job: JobSpec, rt: Rt, s: Stage)
    requires forall n: nat, c: Call :: runner(n, c) == OpOutcome("successful", None)
    requires StageCalls(lay, job, s) != []
    ensures StageSpec(runner, lay, job, rt, s).ok
  {
    UntouchedStageDecidedByStatus(runner, rt, StageCalls(lay, job, s), "", "");
  }

  /** Against a runner that always reports success with nobody touching the
      token, the setup of a job with a known `env_type` succeeds with the
      setup message, having made every stage's calls in order. */
  lemma QuietRunnerSetupSucceeds(runner: Runner, lay: Layout, rt: Rt, job: JobSpec)
    requires forall n: nat, c: Call :: runner(n, c) == OpOutcome("successful", None)
    requires DependencyRole(job.run.envType).Some?
    ensures SetupJobSpec(runner, lay, rt, job).ok
    ensures SetupJobSpec(runner, lay, rt, job).msg == SetupOkMsg
    ensures SetupJobSpec(runner, lay, rt, job).rt.calls
         == rt.calls + AllCalls(CallsOf(lay, job), SetupStages(job))
  {
    var f := StageFnOf(runner, lay, job);
    QuietRunnerPassesEveryStage(runner, lay, job);
    StageFnAppendsCalls(runner, lay, job);
    EveryStagePassesThenRunPasses(f, CallsOf(lay, job), Rt(rt.token + 1, rt.calls), SetupStages(job));
  }

  lemma QuietRunnerPassesEveryStage(runner: Runner, lay: Layout, job: JobSpec)
    requires forall n: nat, c: Call :: runner(n, c) == OpOutcome("successful", None)
    requires DependencyRole(job.run.envType).Some?
    ensures forall s, r: Rt :: s in SetupStages(job) ==> StageFnOf(runner, lay, job)(r, s).ok
  {
    forall s, r: Rt | s in SetupStages(job) ensures StageFnOf(runner, lay, job)(r, s).ok {
      StageCallsEmpty(lay, job, s);
      QuietRunnerPassesGuards(runner, lay, job, r, s);
    }
  }

  // ---------------------------------------------------------------------
  // Running and cleaning up
  // ---------------------------------------------------------------------

  /** `run_job`: the command stage, then — only if it succeeded — the final
      synchronisation `bash <job_dir>/sync/persist_all.sh` as a second
      guarded stage. */
  function RunJobSpec(runner: Runner, lay: Layout, rt: Rt, job: JobSpec): (r: StageRun)
    ensures var cmd := CommandCall(lay.scratch, job.jobUid, job.cmd, job.run);
            var e := Guarded(runner, rt, [cmd], CommandOkMsg, CommandFailPrefix + job.cmd);
            && (!e.ok ==> r == e && r.rt.calls == rt.calls + [cmd])
            && (e.ok ==> r.rt.calls == rt.calls + [cmd, SyncCall(lay.scratch, job.jobUid)])
            && (r.ok <==> e.ok
                          && runner(|rt.calls| + 1, SyncCall(lay.scratch, job.jobUid)).status != "failed"
                          && TokenAfter(runner, |rt.calls| + 1, [SyncCall(lay.scratch, job.jobUid)], rt.token + 2)
                             == rt.token + 2)
            && (e.ok ==> r.msg == if r.ok then JobOkMsg else SyncFailMsg)
  {
    var e := Guarded(runner, rt, [CommandCall(lay.scratch, job.jobUid, job.cmd, job.run)],
                     CommandOkMsg, CommandFailPrefix + job.cmd);
    if !e.ok then e
    else Guarded(runner, e.rt, [SyncCall(lay.scratch, job.jobUid)], JobOkMsg, SyncFailMsg)
  }

  /** `cleanup_job`: kill the job's persistence loop and report success,
      whatever the runner says. */
  function CleanupSpec(runner: Runner, rt: Rt, jobUid: string): (r: StageRun)
    ensures r.ok && r.msg == CleanupMsg
    ensures r.rt.calls == rt.calls + [Shell("killall " + jobUid + "_persist_all_loop.sh")]
  {
    assert "killall " + LoopScriptName(jobUid) == "killall " + jobUid + "_persist_all_loop.sh";
    StageRun(true, CleanupMsg, Exec(runner, rt, KillLoopCall(jobUid)).rt)
  }

  // ---------------------------------------------------------------------
  // Host-specific variables from the local hosts file
  // ---------------------------------------------------------------------

  /** A `hosts` entry of the local hosts file: a host name and its variables. */
  type Host = (string, Dict)

  /** The variables of the last entry for `name`, if any. */
  function HostVars(hosts: seq<Host>, name: string): Option<Dict>
    decreases |hosts|
  {
    if hosts == [] then None
    else if hosts[|hosts| - 1].0 == name then Some(hosts[|hosts| - 1].1)
    else HostVars(hosts[..|hosts| - 1], name)
  }

  /** The instance's additional variables once the hosts file is read:
      the base class's dictionary, updated with this host's variables
      when an entry names it. */
  function ExtravarsAfterHosts(base: Dict, hostsFile: Option<seq<Host>>, name: string): Dict {
    if hostsFile.Some? && HostVars(hostsFile.value, name).Some?
    then PyValues.Assign(base, HostVars(hostsFile.value, name).value)
    else base
  }

  /** Starting from an empty dictionary, the additional variables are
      exactly this host's entry (keys in the entry's order), or stay empty
      when no entry names the host or the file was not read. */
  lemma ExtravarsFromEmptyBase(hostsFile: Option<seq<Host>>, name: string)
    requires hostsFile.Some? && HostVars(hostsFile.value, name).Some? ==> PyValues.UniqueKeys(HostVars(hostsFile.value, name).value)
    ensures hostsFile.Some? && HostVars(hostsFile.value, name).Some? ==>
              ExtravarsAfterHosts([], hostsFile, name) == HostVars(hostsFile.value, name).value
    ensures (hostsFile.None? || HostVars(hostsFile.value, name).None?) ==> ExtravarsAfterHosts([], hostsFile, name) == []
  {
    if hostsFile.Some? && HostVars(hostsFile.value, name).Some? {
      var extra := HostVars(hostsFile.value, name).value;
      assert [] + extra == extra;
      PyValues.AssignCopies([], extra);
    }
  }

  /** `HostVars` finds an entry exactly when one is named `name`, and then
      it is the last such entry. */
  lemma {:induction false} HostVarsIsLastMatch(hosts: seq<Host>, name: string)
    ensures HostVars(hosts, name).None? <==> forall i :: 0 <= i < |hosts| ==> hosts[i].0 != name
    ensures HostVars(hosts, name).Some?
        ==> exists i :: 0 <= i < |hosts| && hosts[i] == (name, HostVars(hosts, name).value)
                        && forall j :: i < j < |hosts| ==> hosts[j].0 != name
    decreases |hosts|
  {
    if hosts != [] && hosts[|hosts| - 1].0 != name {
      var init := hosts[..|hosts| - 1];
      HostVarsIsLastMatch(init, name);
      assert forall i :: 0 <= i < |init| ==> init[i] == hosts[i];
      if HostVars(hosts, name).Some? {
        var i :| 0 <= i < |init| && init[i] == (name, HostVars(init, name).value)
                 && forall j :: i < j < |init| ==> init[j].0 != name;
        assert hosts[i] == (name, HostVars(hosts, name).value);
        assert forall j :: i < j < |hosts| ==> hosts[j].0 != name by {
          forall j | i < j < |hosts| ensures hosts[j].0 != name {
            if j < |init| { assert init[j] == hosts[j]; }
          }
        }
      }
    }
  }

  /** The loop over the hosts file's entries: the last match wins. */
  method FindHostVars(hosts: seq<Host>, name: string) returns (extra: Option<Dict>)
    ensures extra == HostVars(hosts, name)
  {
    extra := None;
    var i := 0;
    while i < |hosts|
      invariant 0 <= i <= |hosts|
      invariant extra == HostVars(hosts[..i], name)
    {
      assert hosts[..i + 1][..i] == hosts[..i];
      if hosts[i].0 == name {
        extra := Some(hosts[i].1);
      }
      i := i + 1;
    }
    assert hosts[..|hosts|] == hosts;
  }

  // ---------------------------------------------------------------------
  // The instance
  // ---------------------------------------------------------------------

  class MonkeyInstanceLocal {
    const name: string
    const ipAddress: string
    /** The provider's local variables, passed to the machine setup role. */
    const localVars: Dict
    /** `monkey_scratch` and `monkeyfs_path` of the provider's local variables. */
    const scratchDir: string
    const monkeyfsDir: string
    const runner: Runner

    var state: string
    var offlineCount: int
    var additionalExtravars: Dict
    /** The instance token (`update_uuid` / `get_uuid`). */
    var token: int
    /** Every runner call the instance has made, in order. */
    var calls: seq<Call>

    function Snapshot(): Rt
      reads this
    {
      Rt(token, calls)
    }

    function Lay(): Layout {
      Layout(scratchDir, monkeyfsDir)
    }

    /** Everything `__init__` does before checking the machine setup: the
        variables of this host's entry in the hosts file (when the file
        could be read) are added to the extra variables. */
    constructor (instanceName: string, hostname: string, vars: Dict,
                 scratch: string, monkeyfs: string, r: Runner, hostsFile: Option<seq<Host>>,
                 baseExtravars: Dict)
      ensures name == instanceName && ipAddress == hostname && localVars == vars
      ensures scratchDir == scratch && monkeyfsDir == monkeyfs && runner == r
      ensures state == "unknown" && offlineCount == 0 && token == 0 && calls == []
      ensures additionalExtravars == ExtravarsAfterHosts(baseExtravars, hostsFile, instanceName)
    {
      name, ipAddress, localVars := instanceName, hostname, vars;
      scratchDir, monkeyfsDir, runner := scratch, monkeyfs, r;
      state, offlineCount, token, calls := "unknown", 0, 0, [];
      additionalExtravars := baseExtravars;
      new;
      if hostsFile.Some? {
        var extra := FindHostVars(hostsFile.value, instanceName);
        if extra.Some? {
          additionalExtravars := PyValues.Assign(additionalExtravars, extra.value);
        }
      }
    }

    /** `update_uuid`: issue a new token. */
    method UpdateUuid() returns (uuid: int)
      modifies this`token
      ensures token == old(token) + 1 && uuid == token
    {
      token := token + 1;
      uuid := token;
    }

    /** One runner call through the oracle. */
    method RunOp(c: Call) returns (status: string)
      modifies this`token, this`calls
      ensures Step(Snapshot(), status) == Exec(runner, old(Snapshot()), c)
    {
      var o := runner(|calls|, c);
      calls := calls + [c];
      if o.replacedToken.Some? {
        token := o.replacedToken.value;
      }
      status := o.status;
    }

    method CheckSetup() returns (ok: bool)
      modifies this`token, this`calls
      ensures var g := Guarded(runner, old(Snapshot()), [SetupMachineCall(localVars)], "", "");
              ok == g.ok && Snapshot() == g.rt
    {
      ghost var pre := Snapshot();
      var uuid := UpdateUuid();
      var status := RunOp(SetupMachineCall(localVars));
      GuardedIsStepwiseCheck(runner, pre, [SetupMachineCall(localVars)], "", "");
      if status == "failed" || token != uuid {
        return false;
      }
      return true;
    }

    /** The ping below the early return in the source is unreachable. */
    method CheckOnline() returns (online: bool)
      ensures online
    {
      return true;
    }

    method InstallDependency(dependency: string) returns (done: bool)
      ensures done
    {
      return true;
    }

    method SetupDataItem(dataItem: DataItem, jobUid: string) returns (ok: bool, msg: string)
      modifies this`token, this`calls
      ensures StageRun(ok, msg, Snapshot())
           == Guarded(runner, old(Snapshot()),
                      [DataDirCall(scratchDir, jobUid, dataItem), DataUnarchiveCall(scratchDir, monkeyfsDir, jobUid, dataItem)],
                      DataOkMsg, DataFailMsg)
    {
      ghost var pre := Snapshot();
      var uuid := UpdateUuid();
      ghost var rt1 := Snapshot();
      var dirCall := DataDirCall(scratchDir, jobUid, dataItem);
      var unarchiveCall := DataUnarchiveCall(scratchDir, monkeyfsDir, jobUid, dataItem);
      var status := RunOp(dirCall);
      // the directory step's status is overwritten by the unarchive step's
      status := RunOp(unarchiveCall);
      assert [dirCall, unarchiveCall][1..] == [unarchiveCall];
      assert Step(Snapshot(), status) == ExecAll(runner, rt1, [dirCall, unarchiveCall]);
      GuardedIsStepwiseCheck(runner, pre, [dirCall, unarchiveCall], DataOkMsg, DataFailMsg);
      if status == "failed" || token != uuid {
        return false, DataFailMsg;
      }
      return true, DataOkMsg;
    }

    method UnpackJobDir(jobUid: string, monkeyfsPath: string, jobDirPath: string) returns (ok: bool, msg: string)
      modifies this`token, this`calls
      ensures StageRun(ok, msg, Snapshot())
           == Guarded(runner, old(Snapshot()), [JobDirCall(jobUid, monkeyfsPath, jobDirPath)], UnpackOkMsg, JobDirFailMsg)
    {
      ghost var pre := Snapshot();
      var uuid := UpdateUuid();
      var status := RunOp(JobDirCall(jobUid, monkeyfsPath, jobDirPath));
      GuardedIsStepwiseCheck(runner, pre, [JobDirCall(jobUid, monkeyfsPath, jobDirPath)], UnpackOkMsg, JobDirFailMsg);
      if status == "failed" || token != uuid {
        return false, JobDirFailMsg;
      }
      return true, UnpackOkMsg;
    }

    method UnpackCodeAndPersist(codeItem: CodeItem, monkeyfsPath: string, jobDirPath: string)
      returns (ok: bool, msg: string)
      modifies this`token, this`calls
      ensures StageRun(ok, msg, Snapshot())
           == Guarded(runner, old(Snapshot()), [CodeCall(codeItem, monkeyfsPath, jobDirPath)], UnpackOkMsg, CodeFailMsg)
    {
      ghost var pre := Snapshot();
      var uuid := UpdateUuid();
      var status := RunOp(CodeCall(codeItem, monkeyfsPath, jobDirPath));
      GuardedIsStepwiseCheck(runner, pre, [CodeCall(codeItem, monkeyfsPath, jobDirPath)], UnpackOkMsg, CodeFailMsg);
      if status == "failed" || token != uuid {
        return false, CodeFailMsg;
      }
      return true, UnpackOkMsg;
    }

    method SetupPersistFolder(jobUid: string, monkeyfsPath: string, jobDirPath: string, persist: string)
      returns (ok: bool, msg: string)
      modifies this`token, this`calls
      ensures StageRun(ok, msg, Snapshot())
           == Guarded(runner, old(Snapshot()), [PersistFolderCall(jobUid, monkeyfsPath, jobDirPath, persist)],
                      PersistOkMsg, PersistFailPrefix + persist)
    {
      ghost var pre := Snapshot();
      var uuid := UpdateUuid();
      var status := RunOp(PersistFolderCall(jobUid, monkeyfsPath, jobDirPath, persist));
      GuardedIsStepwiseCheck(runner, pre, [PersistFolderCall(jobUid, monkeyfsPath, jobDirPath, persist)],
                             PersistOkMsg, PersistFailPrefix + persist);
      if status == "failed" || token != uuid {
        return false, PersistFailPrefix + persist;
      }
      return true, PersistOkMsg;
    }

    method StartPersistence(jobUid: string, monkeyfsPath: string, jobDirPath: string) returns (ok: bool, msg: string)
      modifies this`token, this`calls
      ensures StageRun(ok, msg, Snapshot())
           == Guarded(runner, old(Snapshot()), [StartPersistCall(jobUid, jobDirPath)], StartPersistOkMsg, StartPersistFailMsg)
    {
      ghost var pre := Snapshot();
      var uuid := UpdateUuid();
      var status := RunOp(StartPersistCall(jobUid, jobDirPath));
      GuardedIsStepwiseCheck(runner, pre, [StartPersistCall(jobUid, jobDirPath)], StartPersistOkMsg, StartPersistFailMsg);
      if status == "failed" || token != uuid {
        return false, StartPersistFailMsg;
      }
      return true, StartPersistOkMsg;
    }

    method SetupLogsFolder(monkeyfsPath: string, jobUid: string, jobDirPath: string) returns (ok: bool, msg: string)
      modifies this`token, this`calls
      ensures StageRun(ok, msg, Snapshot())
           == Guarded(runner, old(Snapshot()), [LogsFolderCall(monkeyfsPath, jobUid, jobDirPath)], LogsOkMsg, LogsFailMsg)
    {
      ghost var pre := Snapshot();
      var uuid := UpdateUuid();
      var status := RunOp(LogsFolderCall(monkeyfsPath, jobUid, jobDirPath));
      GuardedIsStepwiseCheck(runner, pre, [LogsFolderCall(monkeyfsPath, jobUid, jobDirPath)], LogsOkMsg, LogsFailMsg);
      if status == "failed" || token != uuid {
        return false, LogsFailMsg;
      }
      return true, LogsOkMsg;
    }

    method SetupDependencyManager(run: RunSpec, jobDirPath: string) returns (ok: bool, msg: string)
      modifies this`token, this`calls
      ensures StageRun(ok, msg, Snapshot()) == DependencySpec(runner, old(Snapshot()), run, jobDirPath)
    {
      var envArgs := EnvArgs(run, jobDirPath);
      ghost var pre := Snapshot();
      var uuid := UpdateUuid();
      var role: string;
      if run.envType == "conda" {
        role := "run/local/setup_conda";
      } else if run.envType == "pip" {
        role := "run/local/setup_pip";
      } else if run.envType == "docker" {
        role := "run/local/setup_docker";
      } else {
        return false, UnknownDependencyMsg;
      }
      var status := RunOp(Role(role, envArgs, []));
      GuardedIsStepwiseCheck(runner, pre, [Role(role, envArgs, [])], DependencyOkMsg, DependencyFailMsg);
      if status == "failed" || token != uuid {
        return false, DependencyFailMsg;
      }
      return true, DependencyOkMsg;
    }

    /** Runs one setup stage through the method the source has for it, with
        the job directory `os.path.join(scratch_dir, job_uid)` and the
        instance's monkeyfs directory. */
    method RunStage(job: JobSpec, s: Stage) returns (ok: bool, msg: string)
      modifies this`token, this`calls
      ensures StageRun(ok, msg, Snapshot()) == StageSpec(runner, Lay(), job, old(Snapshot()), s)
    {
      var jobUid := job.jobUid;
      var jobDirPath := Join(scratchDir, jobUid);
      match s
      case DataSt(d) => ok, msg := SetupDataItem(d, jobUid);
      case JobDirSt => ok, msg := UnpackJobDir(jobUid, monkeyfsDir, jobDirPath);
      case CodeSt(c) => ok, msg := UnpackCodeAndPersist(c, monkeyfsDir, jobDirPath);
      case LogsSt => ok, msg := SetupLogsFolder(monkeyfsDir, jobUid, jobDirPath);
      case PersistSt(p) => ok, msg := SetupPersistFolder(jobUid, monkeyfsDir, jobDirPath, p);
      case StartPersistSt => ok, msg := StartPersistence(jobUid, monkeyfsDir, jobDirPath);
      case DependencySt => ok, msg := SetupDependencyManager(job.run, jobDirPath);
    }

    /** `setup_job`: after dropping one token, the stages run in order and
        the first failure is returned. */
    method SetupJob(job: JobSpec) returns (ok: bool, msg: string)
      modifies this`token, this`calls
      ensures StageRun(ok, msg, Snapshot()) == SetupJobSpec(runner, Lay(), old(Snapshot()), job)
    {
      var _ := UpdateUuid();
      ghost var f := StageFnOf(runner, Lay(), job);
      var stages := SetupStages(job);
      // the result still to come is that of running the stages left
      ghost var goal := RunStages(f, Snapshot(), stages);
      assert goal == SetupJobSpec(runner, Lay(), old(Snapshot()), job) by { assert stages == SetupStages(job); }
      var k := 0;
      while k < |stages|
        invariant 0 <= k <= |stages|
        invariant goal == RunStages(f, Snapshot(), stages[k..])
      {
        ghost var pre := Snapshot();
        RunStagesFrom(f, pre, stages, k);
        assert f(pre, stages[k]) == StageSpec(runner, Lay(), job, pre, stages[k]);
        ok, msg := RunStage(job, stages[k]);
        if !ok {
          return ok, msg;
        }
        k := k + 1;
      }
      assert stages[k..] == [];
      return true, SetupOkMsg;
    }

    method ExecuteCommand(jobUid: string, cmd: string, run: RunSpec) returns (ok: bool, msg: string)
      modifies this`token, this`calls
      ensures StageRun(ok, msg, Snapshot())
           == Guarded(runner, old(Snapshot()), [CommandCall(scratchDir, jobUid, cmd, run)],
                      CommandOkMsg, CommandFailPrefix + cmd)
    {
      ghost var pre := Snapshot();
      var uuid := UpdateUuid();
      var status := RunOp(CommandCall(scratchDir, jobUid, cmd, run));
      GuardedIsStepwiseCheck(runner, pre, [CommandCall(scratchDir, jobUid, cmd, run)], CommandOkMsg, CommandFailPrefix + cmd);
      if status == "failed" || token != uuid {
        return false, CommandFailPrefix + cmd;
      }
      return true, CommandOkMsg;
    }

    method RunJob(job: JobSpec) returns (ok: bool, msg: string)
      modifies this`token, this`calls
      ensures StageRun(ok, msg, Snapshot()) == RunJobSpec(runner, Lay(), old(Snapshot()), job)
    {
      var jobUid := job.jobUid;
      ok, msg := ExecuteCommand(jobUid, job.cmd, job.run);
      if !ok {
        return ok, msg;
      }
      ghost var pre := Snapshot();
      var uuid := UpdateUuid();
      var status := RunOp(SyncCall(scratchDir, jobUid));
      GuardedIsStepwiseCheck(runner, pre, [SyncCall(scratchDir, jobUid)], JobOkMsg, SyncFailMsg);
      if status == "failed" || token != uuid {
        return false, SyncFailMsg;
      }
      return true, JobOkMsg;
    }

    method CleanupJob(job: JobSpec) returns (ok: bool, msg: string)
      modifies this`token, this`calls
      ensures StageRun(ok, msg, Snapshot()) == CleanupSpec(runner, old(Snapshot()), job.jobUid)
    {
      var _ := RunOp(KillLoopCall(job.jobUid));
      return true, CleanupMsg;
    }
  }

  /** `MonkeyInstanceLocal(...)`: build the instance and check its machine
      setup; a failed check is the source's "Failed to create instance"
      exception, here `None`. */
  method CreateLocalInstance(instanceName: string, hostname: string, vars: Dict,
                             scratch: string, monkeyfs: string, r: Runner, hostsFile: Option<seq<Host>>,
                             baseExtravars: Dict)
    returns (inst: Option<MonkeyInstanceLocal>)
    ensures inst.Some? <==> Guarded(r, Rt(0, []), [SetupMachineCall(vars)], "", "").ok
    ensures inst.Some? ==> fresh(inst.value) && inst.value.offlineCount == 0
                           && inst.value.Snapshot() == Guarded(r, Rt(0, []), [SetupMachineCall(vars)], "", "").rt
    ensures inst.Some? ==> var i := inst.value;
                           && i.name == instanceName && i.ipAddress == hostname && i.localVars == vars
                           && i.scratchDir == scratch && i.monkeyfsDir == monkeyfs && i.runner == r
                           && i.state == "unknown"
                           && i.additionalExtravars == ExtravarsAfterHosts(baseExtravars, hostsFile, instanceName)
  {
    var i := new MonkeyInstanceLocal(instanceName, hostname, vars, scratch, monkeyfs, r, hostsFile, baseExtravars);
    var passes := i.CheckSetup();
    if !passes {
      return None;
    }
    i.offlineCount := 0;
    return Some(i);
  }
}
