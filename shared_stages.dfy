/** The exception-based stage functions shared by the instance kinds. Each
    stage builds the arguments of one or two automation calls from the
    instance's layout, runs them inside a `try`, and turns an
    `AnsibleRunException` into a `(False, message)` result instead of
    letting it propagate.

    Which calls raise is an oracle `raises`; the layout lookups the stages
    call (`get_job_dir`, `get_monkeyfs_job_dir`, `get_dataset_path`,
    `get_codebase_file_path`) are defined by the instance and are taken as
    given functions. */
module SharedStages {
  import opened Common
  import opened Paths

  /** The instance's layout lookups, by job uid or by archive identity
      (name, checksum, extension). */
  datatype Layout = Layout(jobDir: string -> string,
                           monkeyfsJobDir: string -> string,
                           datasetPath: (string, string, string) -> string,
                           codebasePath: (string, string, string) -> string)

  datatype DataItem = DataItem(name: string, checksum: string, extension: string, path: string)

  datatype CodeItem = CodeItem(runName: string, checksum: string, extension: string)

  /** The `env_type` and `env_file` entries of the job's run section. */
  datatype RunSection = RunSection(envType: string, envFile: string)

  /** What a stage returns, and the calls it attempted, in order. */
  datatype Outcome = Outcome(ok: bool, msg: string, attempted: seq<Call>)

  // ---------------------------------------------------------------------
  // A stage body inside `try ... except AnsibleRunException`
  // ---------------------------------------------------------------------

  /** The calls run in order; the first that raises ends the body and the
      stage returns `(False, failMsg)`; if none raises, `(True, okMsg)`. */
  function TryCalls(raises: Call -> bool, calls: seq<Call>, okMsg: string, failMsg: string): Outcome
    decreases |calls|
  {
    if calls == [] then Outcome(true, okMsg, [])
    else if raises(calls[0]) then Outcome(false, failMsg, [calls[0]])
    else
      var r := TryCalls(raises, calls[1..], okMsg, failMsg);
      Outcome(r.ok, r.msg, [calls[0]] + r.attempted)
  }

  /** A stage succeeds exactly when none of its calls raises, and then has
      attempted all of them; it reports its success or failure message. */
  lemma {:induction false} TryCallsPasses(raises: Call -> bool, calls: seq<Call>, okMsg: string, failMsg: string)
    ensures var r := TryCalls(raises, calls, okMsg, failMsg);
            && (r.ok <==> forall i :: 0 <= i < |calls| ==> !raises(calls[i]))
            && r.msg == (if r.ok then okMsg else failMsg)
            && (r.ok ==> r.attempted == calls)
    decreases |calls|
  {
    if calls != [] && !raises(calls[0]) {
      var tail := calls[1..];
      TryCallsPasses(raises, tail, okMsg, failMsg);
      assert forall i :: 0 < i < |calls| ==> calls[i] == tail[i - 1];
      assert calls == [calls[0]] + tail;
    }
  }

  /** A failing stage stopped at the first call `k` that raises, having
      attempted the calls up to and including `k` and none after. */
  lemma {:induction false} TryCallsStopsAtFirstRaise(raises: Call -> bool, calls: seq<Call>, okMsg: string, failMsg: string)
    requires !TryCalls(raises, calls, okMsg, failMsg).ok
    ensures exists k :: 0 <= k < |calls| && raises(calls[k])
                        && (forall i :: 0 <= i < k ==> !raises(calls[i]))
                        && TryCalls(raises, calls, okMsg, failMsg).attempted == calls[..k + 1]
    decreases |calls|
  {
    if !raises(calls[0]) {
      var tail := calls[1..];
      TryCallsStopsAtFirstRaise(raises, tail, okMsg, failMsg);
      var j :| 0 <= j < |tail| && raises(tail[j]) && (forall i :: 0 <= i < j ==> !raises(tail[i]))
               && TryCalls(raises, tail, okMsg, failMsg).attempted == tail[..j + 1];
      assert forall i :: 0 < i < |calls| ==> calls[i] == tail[i - 1];
      assert calls[..j + 2] == [calls[0]] + tail[..j + 1];
      assert raises(calls[j + 1]);
    } else {
      assert calls[..1] == [calls[0]];
    }
  }

  /** A stage with a single call. */
  lemma SingleCallStage(raises: Call -> bool, c: Call, okMsg: string, failMsg: string)
    ensures TryCalls(raises, [c], okMsg, failMsg) == Outcome(!raises(c), if raises(c) then failMsg else okMsg, [c])
  {
    assert [c][1..] == [];
  }

  // ---------------------------------------------------------------------
  // 1. Data items
  // ---------------------------------------------------------------------

  const DataOkMsg := "Successfully setup data item"
  const DataFailMsg := "Failed to extract archive"

  /** `os.path.join(get_job_dir(job_uid), data_item["path"])`. */
  function InstallLocation(lay: Layout, jobUid: string, d: DataItem): string {
    Join(lay.jobDir(jobUid), d.path)
  }

  function DataDirCall(lay: Layout, jobUid: string, d: DataItem): Call {
    Module("file", ArgMap([("path", VStr(InstallLocation(lay, jobUid, d))), ("state", VStr("directory"))]))
  }

  function DataUnarchiveCall(lay: Layout, jobUid: string, d: DataItem): Call {
    Module("unarchive", ArgMap([("src", VStr(lay.datasetPath(d.name, d.checksum, d.extension))),
                                ("remote_src", VStr("True")),
                                ("dest", VStr(InstallLocation(lay, jobUid, d)))]))
  }

  /** `setup_data_item`: create the installation directory, then unarchive
      the dataset into it. The unarchive is not attempted when the
      directory creation raises, and either failure gives the same
      message. */
  function SetupDataItem(lay: Layout, raises: Call -> bool, jobUid: string, d: DataItem): (r: Outcome)
    ensures var dir, unarchive := DataDirCall(lay, jobUid, d), DataUnarchiveCall(lay, jobUid, d);
            && (r.ok <==> !raises(dir) && !raises(unarchive))
            && r.msg == (if r.ok then DataOkMsg else DataFailMsg)
            && r.attempted == (if raises(dir) then [dir] else [dir, unarchive])
  {
    var dir, unarchive := DataDirCall(lay, jobUid, d), DataUnarchiveCall(lay, jobUid, d);
    assert [dir, unarchive][1..] == [unarchive];
    SingleCallStage(raises, unarchive, DataOkMsg, DataFailMsg);
    TryCalls(raises, [dir, unarchive], DataOkMsg, DataFailMsg)
  }

  // ---------------------------------------------------------------------
  // 2. The job directory
  // ---------------------------------------------------------------------

  const UnpackOkMsg := "Unpacked code and persisted directories successfully"
  const JobDirFailMsg := "Failed to copy directory"

  /** Copy the job's monkeyfs directory onto the job directory, each
      written as a directory path `os.path.join(dir, "")`. */
  function JobDirCall(lay: Layout, jobUid: string): Call {
    Module("copy", ArgMap([("src", VStr(Join(lay.monkeyfsJobDir(jobUid), ""))),
                           ("dest", VStr(Join(lay.jobDir(jobUid), ""))),
                           ("remote_src", VBool(true))]))
  }

  function UnpackJobDir(lay: Layout, raises: Call -> bool, jobUid: string): (r: Outcome)
    ensures r.ok <==> !raises(JobDirCall(lay, jobUid))
    ensures r.msg == (if r.ok then UnpackOkMsg else JobDirFailMsg)
    ensures r.attempted == [JobDirCall(lay, jobUid)]
  {
    SingleCallStage(raises, JobDirCall(lay, jobUid), UnpackOkMsg, JobDirFailMsg);
    TryCalls(raises, [JobDirCall(lay, jobUid)], UnpackOkMsg, JobDirFailMsg)
  }

  /** Both copy arguments are directory paths: each ends with the
      separator (for a non-empty directory) and is the directory itself
      with at most one separator appended. */
  lemma JobDirCopyIsDirToDir(lay: Layout, jobUid: string)
    ensures var src, dest := lay.monkeyfsJobDir(jobUid), lay.jobDir(jobUid);
            && JobDirCall(lay, jobUid).args.m[0].1 == VStr(Join(src, ""))
            && JobDirCall(lay, jobUid).args.m[1].1 == VStr(Join(dest, ""))
            && (EndsWithSep(Join(src, "")) <==> src != [])
            && (EndsWithSep(Join(dest, "")) <==> dest != [])
            && (Join(src, "") == src || Join(src, "") == src + "/")
            && (Join(dest, "") == dest || Join(dest, "") == dest + "/")
  {
    TrailingSeparator(lay.monkeyfsJobDir(jobUid));
    TrailingSeparator(lay.jobDir(jobUid));
  }

  // ---------------------------------------------------------------------
  // 3. Code items
  // ---------------------------------------------------------------------

  const CodeFailMsg := "Failed to extract code archive"

  function CodeCall(lay: Layout, jobUid: string, c: CodeItem): Call {
    Module("unarchive", ArgMap([("src", VStr(lay.codebasePath(c.runName, c.checksum, c.extension))),
                                ("remote_src", VStr("True")),
                                ("dest", VStr(lay.jobDir(jobUid))),
                                ("creates", VStr("yes"))]))
  }

  function UnpackCodeAndPersist(lay: Layout, raises: Call -> bool, jobUid: string, c: CodeItem): (r: Outcome)
    ensures r.ok <==> !raises(CodeCall(lay, jobUid, c))
    ensures r.msg == (if r.ok then UnpackOkMsg else CodeFailMsg)
    ensures r.attempted == [CodeCall(lay, jobUid, c)]
  {
    SingleCallStage(raises, CodeCall(lay, jobUid, c), UnpackOkMsg, CodeFailMsg);
    TryCalls(raises, [CodeCall(lay, jobUid, c)], UnpackOkMsg, CodeFailMsg)
  }

  // ---------------------------------------------------------------------
  // 4. The logs folder
  // ---------------------------------------------------------------------

  const LogsOkMsg := "Setup logs persistence ran successfully"
  const LogsFailMsg := "Failed to create persisted logs folder"

  function LogsFolderVars(lay: Layout, jobUid: string): Dict {
    var jobDir := lay.jobDir(jobUid);
    [("persist_folder_path", VStr(JoinAll(jobDir, ["logs", ""]))),
     ("sync_logs_path", VStr(JoinAll(jobDir, ["logs", "sync.log"]))),
     ("sync_folder_path", VStr(Join(jobDir, "sync"))),
     ("persist_script_path", VStr(Join(jobDir, ".logs_sync.sh"))),
     ("bucket_path", VStr(JoinAll(lay.monkeyfsJobDir(jobUid), ["logs", ""]))),
     ("persist_time", VInt(3))]
  }

  function LogsFolderCall(lay: Layout, jobUid: string): Call {
    Role("local/configure/persist_folder", LogsFolderVars(lay, jobUid), [])
  }

  function SetupLogsFolder(lay: Layout, raises: Call -> bool, jobUid: string): (r: Outcome)
    ensures r.ok <==> !raises(LogsFolderCall(lay, jobUid))
    ensures r.msg == (if r.ok then LogsOkMsg else LogsFailMsg)
    ensures r.attempted == [LogsFolderCall(lay, jobUid)]
  {
    SingleCallStage(raises, LogsFolderCall(lay, jobUid), LogsOkMsg, LogsFailMsg);
    TryCalls(raises, [LogsFolderCall(lay, jobUid)], LogsOkMsg, LogsFailMsg)
  }

  /** The logs are synchronised every 3 time units from `<job_dir>/logs/`
      to `<monkeyfs_job_dir>/logs/`, both directory paths, by the hidden
      script `<job_dir>/.logs_sync.sh`. */
  lemma LogsFolderLayout(lay: Layout, jobUid: string)
    ensures var vars, jobDir, bucketDir := LogsFolderVars(lay, jobUid), lay.jobDir(jobUid), lay.monkeyfsJobDir(jobUid);
            && vars[0] == ("persist_folder_path", VStr(Join(jobDir, "logs") + "/"))
            && vars[4] == ("bucket_path", VStr(Join(bucketDir, "logs") + "/"))
            && vars[5] == ("persist_time", VInt(3))
            && (jobDir != [] && !EndsWithSep(jobDir) ==> vars[3] == ("persist_script_path", VStr(jobDir + "/" + ".logs_sync.sh")))
  {
    RelativeDir(lay.jobDir(jobUid), "logs");
    RelativeDir(lay.monkeyfsJobDir(jobUid), "logs");
  }

  // ---------------------------------------------------------------------
  // 5. Persisted folders
  // ---------------------------------------------------------------------

  const PersistOkMsg := "Setup persist ran successfully"
  const PersistFailPrefix := "Failed to setup persist folder: "

  function PersistFolderVars(lay: Layout, jobUid: string, persist: string): Dict {
    var jobDir := lay.jobDir(jobUid);
    [("persist_folder_path", VStr(JoinAll(jobDir, [persist, ""]))),
     ("sync_folder_path", VStr(Join(jobDir, "sync"))),
     ("sync_logs_path", VStr(JoinAll(jobDir, ["logs", "sync.log"]))),
     ("persist_script_path", VStr(JoinAll(jobDir, ["sync", PersistScriptName(persist)]))),
     ("bucket_path", VStr(JoinAll(lay.monkeyfsJobDir(jobUid), [persist, ""])))]
  }

  function PersistFolderCall(lay: Layout, jobUid: string, persist: string): Call {
    Role("local/configure/persist_folder", PersistFolderVars(lay, jobUid, persist), [])
  }

  /** A failure names the folder. */
  function SetupPersistFolder(lay: Layout, raises: Call -> bool, jobUid: string, persist: string): (r: Outcome)
    ensures r.ok <==> !raises(PersistFolderCall(lay, jobUid, persist))
    ensures r.msg == (if r.ok then PersistOkMsg else PersistFailPrefix + persist)
    ensures r.attempted == [PersistFolderCall(lay, jobUid, persist)]
  {
    SingleCallStage(raises, PersistFolderCall(lay, jobUid, persist), PersistOkMsg, PersistFailPrefix + persist);
    TryCalls(raises, [PersistFolderCall(lay, jobUid, persist)], PersistOkMsg, PersistFailPrefix + persist)
  }

  /** The folder's sync script is `<persist with "/" as "_">_sync.sh`,
      directly inside `<job_dir>/sync` whatever the folder name. */
  lemma PersistScriptLayout(lay: Layout, jobUid: string, persist: string)
    ensures PersistFolderVars(lay, jobUid, persist)[3]
         == ("persist_script_path", VStr(Join(lay.jobDir(jobUid), "sync") + "/" + PersistScriptName(persist)))
    ensures PersistScriptName(persist) == FlattenSeparators(persist) + "_sync.sh"
    ensures '/' !in PersistScriptName(persist)
  {
    SyncScriptInSyncDir(lay.jobDir(jobUid), persist);
  }

  /** For a relative, non-empty folder not ending with the separator, the
      source and the bucket are `<job_dir>/<persist>/` and
      `<monkeyfs_job_dir>/<persist>/`: directory paths with one separator
      appended. */
  lemma PersistDirsLayout(lay: Layout, jobUid: string, persist: string)
    requires persist != [] && !IsAbsolute(persist) && !EndsWithSep(persist)
    ensures PersistFolderVars(lay, jobUid, persist)[0]
         == ("persist_folder_path", VStr(Join(lay.jobDir(jobUid), persist) + "/"))
    ensures PersistFolderVars(lay, jobUid, persist)[4]
         == ("bucket_path", VStr(Join(lay.monkeyfsJobDir(jobUid), persist) + "/"))
  {
    RelativeDir(lay.jobDir(jobUid), persist);
    RelativeDir(lay.monkeyfsJobDir(jobUid), persist);
  }

  /** `join(p, n, "")` for a relative, non-empty `n` not ending with the
      separator is `join(p, n)` with one separator appended. */
  lemma RelativeDir(p: string, n: string)
    requires n != [] && !IsAbsolute(n) && !EndsWithSep(n)
    ensures JoinAll(p, [n, ""]) == Join(p, n) + "/"
  {
    var j := Join(p, n);
    assert j[|j| - 1] == n[|n| - 1];
    assert [n, ""][1..] == [""];
    assert [""][1..] == [];
  }

  // ---------------------------------------------------------------------
  // 6. Starting persistence
  // ---------------------------------------------------------------------

  const StartPersistOkMsg := "Start persist ran successfully"
  const StartPersistFailMsg := "Failed start persistence of directories"

  function StartPersistVars(lay: Layout, jobUid: string): Dict {
    var jobDir := lay.jobDir(jobUid);
    [("sync_folder_path", VStr(Join(jobDir, "sync"))),
     ("sync_logs_path", VStr(JoinAll(jobDir, ["logs", "sync.log"]))),
     ("persist_script_path", VStr(JoinAll(jobDir, ["sync", "persist_all.sh"]))),
     ("unique_persist_all_script_name", VStr(LoopScriptName(jobUid))),
     ("persist_loop_script_path", VStr(JoinAll(jobDir, ["sync", LoopScriptName(jobUid)])))]
  }

  function StartPersistCall(lay: Layout, jobUid: string): Call {
    Role("local/configure/start_persist", StartPersistVars(lay, jobUid), [])
  }

  function StartPersist(lay: Layout, raises: Call -> bool, jobUid: string): (r: Outcome)
    ensures r.ok <==> !raises(StartPersistCall(lay, jobUid))
    ensures r.msg == (if r.ok then StartPersistOkMsg else StartPersistFailMsg)
    ensures r.attempted == [StartPersistCall(lay, jobUid)]
  {
    SingleCallStage(raises, StartPersistCall(lay, jobUid), StartPersistOkMsg, StartPersistFailMsg);
    TryCalls(raises, [StartPersistCall(lay, jobUid)], StartPersistOkMsg, StartPersistFailMsg)
  }

  /** Both scripts sit directly inside `<job_dir>/sync`: `persist_all.sh`,
      and (for a job uid that does not start with the separator) the
      job's own loop script `<job_uid>_persist_all_loop.sh`. */
  lemma StartPersistLayout(lay: Layout, jobUid: string)
    ensures var vars, sync := StartPersistVars(lay, jobUid), Join(lay.jobDir(jobUid), "sync");
            && vars[2] == ("persist_script_path", VStr(sync + "/" + "persist_all.sh"))
            && vars[3] == ("unique_persist_all_script_name", VStr(jobUid + "_persist_all_loop.sh"))
            && (!IsAbsolute(jobUid) ==> vars[4] == ("persist_loop_script_path", VStr(sync + "/" + LoopScriptName(jobUid))))
  {
    var jobDir := lay.jobDir(jobUid);
    JoinUnder(jobDir, "sync", "persist_all.sh");
    if !IsAbsolute(jobUid) {
      var name := LoopScriptName(jobUid);
      assert !IsAbsolute(name) by {
        if jobUid == [] { assert name[0] == '_'; } else { assert name[0] == jobUid[0]; }
      }
      JoinUnder(jobDir, "sync", name);
    }
  }

  // ---------------------------------------------------------------------
  // 7. The dependency manager
  // ---------------------------------------------------------------------

  const DependencyOkMsg := "Successfully created dependency manager\nStored initialization in .monkey_activate"
  const DependencyFailMsg := "Failed to initialize environment manager"
  const UnknownDependencyMsg := "Provided or missing dependency manager"

  function EnvArgs(lay: Layout, jobUid: string, run: RunSection): Dict {
    var jobDir := lay.jobDir(jobUid);
    [("environment_file", VStr(Join(jobDir, run.envFile))),
     ("activate_file", VStr(Join(jobDir, ".monkey_activate"))),
     ("job_dir_path", VStr(jobDir))]
  }

  /** `setup_dependency_manager`: an unknown `env_type` fails without any
      call; otherwise the environment role runs, and a raise from it gives
      the initialisation failure. */
  function SetupDependencyManager(lay: Layout, raises: Call -> bool, jobUid: string, run: RunSection): (r: Outcome)
    ensures DependencyRole(run.envType).None? ==> r == Outcome(false, UnknownDependencyMsg, [])
    ensures DependencyRole(run.envType).Some? ==>
              var c := Role(DependencyRole(run.envType).value, EnvArgs(lay, jobUid, run), []);
              && (r.ok <==> !raises(c))
              && r.msg == (if r.ok then DependencyOkMsg else DependencyFailMsg)
              && r.attempted == [c]
  {
    match DependencyRole(run.envType)
    case None => Outcome(false, UnknownDependencyMsg, [])
    case Some(role) =>
      SingleCallStage(raises, Role(role, EnvArgs(lay, jobUid, run), []), DependencyOkMsg, DependencyFailMsg);
      TryCalls(raises, [Role(role, EnvArgs(lay, jobUid, run), [])], DependencyOkMsg, DependencyFailMsg)
  }

  // ---------------------------------------------------------------------
  // Properties across the stages
  // ---------------------------------------------------------------------

  /** The job directory, code, logs, persist and start-persist stages, each
      as the single call it tries. */
  datatype SingleStage = JobDirStage | CodeStage(c: CodeItem) | LogsStage | PersistStage(p: string) | StartPersistStage

  function SingleStageCall(lay: Layout, jobUid: string, s: SingleStage): Call {
    match s
    case JobDirStage => JobDirCall(lay, jobUid)
    case CodeStage(c) => CodeCall(lay, jobUid, c)
    case LogsStage => LogsFolderCall(lay, jobUid)
    case PersistStage(p) => PersistFolderCall(lay, jobUid, p)
    case StartPersistStage => StartPersistCall(lay, jobUid)
  }

  function RunSingleStage(lay: Layout, raises: Call -> bool, jobUid: string, s: SingleStage): Outcome {
    match s
    case JobDirStage => UnpackJobDir(lay, raises, jobUid)
    case CodeStage(c) => UnpackCodeAndPersist(lay, raises, jobUid, c)
    case LogsStage => SetupLogsFolder(lay, raises, jobUid)
    case PersistStage(p) => SetupPersistFolder(lay, raises, jobUid, p)
    case StartPersistStage => StartPersist(lay, raises, jobUid)
  }

  /** The failure message of each single-call stage. */
  function SingleStageFailMsg(s: SingleStage): string {
    match s
    case JobDirStage => JobDirFailMsg
    case CodeStage(_) => CodeFailMsg
    case LogsStage => LogsFailMsg
    case PersistStage(p) => PersistFailPrefix + p
    case StartPersistStage => StartPersistFailMsg
  }

  /** Every single-call stage maps a raise of its call to `(False, its own
      message)` and a clean run to `(True, ...)`; the exception never
      surfaces, and only its own call is attempted. */
  lemma SingleStagesCatchRaises(lay: Layout, raises: Call -> bool, jobUid: string, s: SingleStage)
    ensures var r, c := RunSingleStage(lay, raises, jobUid, s), SingleStageCall(lay, jobUid, s);
            && (r.ok <==> !raises(c))
            && (!r.ok ==> r.msg == SingleStageFailMsg(s))
            && r.attempted == [c]
  {
  }

  /** Against an oracle under which nothing raises, every stage of a job
      with a known `env_type` succeeds, each having attempted all its
      calls. */
  lemma NothingRaisedAllSucceed(lay: Layout, raises: Call -> bool, jobUid: string, d: DataItem, s: SingleStage,
                                run: RunSection)
    requires forall c :: !raises(c)
    requires DependencyRole(run.envType).Some?
    ensures SetupDataItem(lay, raises, jobUid, d).ok
    ensures |SetupDataItem(lay, raises, jobUid, d).attempted| == 2
    ensures RunSingleStage(lay, raises, jobUid, s).ok
    ensures SetupDependencyManager(lay, raises, jobUid, run).ok
  {
    SingleStagesCatchRaises(lay, raises, jobUid, s);
  }
}
