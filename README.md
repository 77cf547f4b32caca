# monkey-job-runner: a verified model of the job and instance orchestration core

monkey-job-runner runs machine-learning jobs on local machines or on Google
Cloud instances. This project models the parts of it that decide what
happens, with every external effect replaced by an input:

- **The job record** (`MonkeyJob`). `set_state` sets the lifecycle state and
  stamps the time a job enters each stage. On entering FINISHED it records
  the completion time and the wall time. If no cleanup stamp exists, it
  dates one five days back so the job is due for cleanup at once.
- **The local instance** (`MonkeyInstanceLocal`). Each pipeline stage issues
  a fresh instance token, runs one or more automation calls, and fails when
  the runner reports `"failed"` or when the token was replaced meanwhile.
  `setup_job` runs the stages in a fixed order and stops at the first
  failure. Then come `run_job`, `cleanup_job`, the machine setup check and
  the host-specific variables read at construction. The automation runner
  is an oracle: for the n-th call it gives the reported status and, if
  another party replaced the token, the new token.
- **The shared stage functions**. They are the exception-based variant of
  the same stages, with their path and argument construction. Which calls
  raise is an oracle.
- **The GCP cloud handler** (`CloudHandler`, `CloudHandlerGCP`). It covers:
  - `merge_params`: lists are extended, anything else is overridden;
  - the layering of the `all`, `gcp` and provider-name default sections;
  - building a handler, `is_valid`, and the idempotent firewall check;
  - per-zone listing of instances and jobs, where a failing zone is
    tolerated, and `check_connection`;
  - the instance configuration `create_instance` sends, with its ordered
    checks, labels, metadata and startup-script wrapping;
  - `wait_for_operation` over a sequence of poll results.

  The compute API is a class holding the firewall rules and the inserted
  instances. The per-zone instance listings are an oracle.

Python semantics the code relies on are spelt out in module `PyValues`:
- dictionary assignment order;
- `iter()` and truthiness;
- `in` on dictionaries, lists and strings;
- `d[key]` with its `KeyError` and `TypeError`, and `v[0]`.

Files:

| file | content |
|---|---|
| `common.dfy` | option, configuration values, dictionary lookup, runner calls |
| `pyvalues.dfy` | Python exceptions and the value operations the handler uses |
| `paths.dfy` | POSIX `os.path.join`, script names |
| `tokens.dfy` | the runner oracle and the token guard of one stage |
| `pipeline.dfy` | running stages in order until the first failure |
| `job.dfy` | the job record and `set_state` |
| `local_instance.dfy` | the local instance: stages, `setup_job`, run, cleanup |
| `shared_stages.dfy` | the exception-based stage functions |
| `cloud_params.dfy` | `merge_params` and default layering |
| `cloud_instance.dfy` | the instance configuration of `create_instance` |
| `cloud_handler.dfy` | the GCP handler, firewall, listings, polling, creation |

The model follows the code as written, including where it may surprise:
- `set_state` checks no transition and overwrites earlier stamps.
- A replaced token gives the same failure message as a failed run.
- Every runner status except `"failed"` (for example `"timeout"`) counts as success.
- When `source-image` or `instance-type` is missing, `create_instance` returns
  `None` rather than raising.
- `wait_for_operation` has no bound.
- `merge_params` is not associative (`CloudParams.LayeringOrderMatters`).
- The startup-script substitution discards its result
  (`str.replace` returns a new string), so the user's script is sent
  unchanged. A metadata value that is not a string still makes it raise,
  and that is reported as an unreadable script.
- When the provider is named `gcp`, the `gcp` section is merged twice.
- When a later item of a zone raises, `list_jobs` keeps the jobs already
  appended from that zone.

## Model

| member | source | states |
|---|---|---|
| `Job.MonkeyJob.constructor` | monkey-core/mongo/monkey_job.py:9-32 | a fresh record: creation stamped with the construction time, optional dates unset, timeout -1, elapsed and wall time 0 |
| `Job.MonkeyJob.SetState` | monkey-core/mongo/monkey_job.py:41-68 | the state becomes `s` whatever it was. Entering a timestamped stage overwrites its stamp with `now`. RUNNING writes `run_running_start_date`, never the declared `run_runing_start_date`. FINISHED sets the completion time and `now - creation`, and backdates an unset cleanup stamp by 5 days, strictly before `now`. Any other state changes only `state` |
| `Job.DriveThroughPipeline` | monkey-core/mongo/monkey_job.py:50-67 | a job taken through the six stages by a clock that does not go back ends FINISHED, with every stamp set in pipeline order and a non-negative wall time |
| `Tokens.ExecAllEffect` | monkey-core/core/monkey_instance_local.py:127-144 | running a stage's calls appends exactly those calls, keeps only the last call's status, and leaves the most recent token replacement |
| `Tokens.TokenAfterSplit` | monkey-core/core/monkey_instance_local.py:125-144 | the token read after two runs of calls equals the token read after the second run, started from the token the first run left |
| `Tokens.GuardedIsStepwiseCheck` | monkey-core/core/monkey_instance_local.py:154-164 | issuing the token, running the calls and then checking the last status and the token, as each stage method does, gives the guarded stage's result |
| `Tokens.UntouchedStageDecidedByStatus` | monkey-core/core/monkey_instance_local.py:159-161 | when nobody replaced the token, a stage succeeds exactly when the last status is not `"failed"` |
| `Tokens.StaleStageFails` | monkey-core/core/monkey_instance_local.py:144-146 | a token that, after the stage's calls, differs from the one the stage issued (whichever call replaced it) makes the stage fail with its failure message even if the runner reported success |
| `Tokens.UntouchedTokenAfter` | monkey-core/core/monkey_instance_local.py:144 | calls nobody interfered with leave the issued token in place |
| `Pipeline.RunStagesAppend` | monkey-core/core/monkey_instance_local.py:287-340 | running `a + b` runs `a`, then runs `b` only if all of `a` succeeded, from where `a` left the instance |
| `Pipeline.AllStagesSucceed` | monkey-core/core/monkey_instance_local.py:287-340 | a setup succeeds exactly when every stage succeeds from where the earlier stages left the instance, and then reports "Successfully setup the job" |
| `Pipeline.FirstFailureStops` | monkey-core/core/monkey_instance_local.py:287-338 | a failing setup returns the first failing stage's `(False, message)` after only the calls of the stages up to it: no later stage runs |
| `Pipeline.SuccessMakesAllCalls` | monkey-core/core/monkey_instance_local.py:287-340 | a successful setup made the calls of all its stages, in order |
| `Pipeline.EveryStagePassesThenRunPasses` | monkey-core/core/monkey_instance_local.py:287-340 | when every stage passes, the setup succeeds with the setup message, having made all the stages' calls |
| `Common.DependencyRole` | monkey-core/core/monkey_instance_local.py:355-368 | a role exists exactly for `conda`, `pip` and `docker`, and it is `run/local/setup_<env_type>`; the shared stages use the same table |
| `LocalInstance.StageSpecAppendsCalls` | monkey-core/core/monkey_instance_local.py:113-373 | a stage appends exactly its calls to the log, whatever the runner reports |
| `LocalInstance.SetupCallsInOrder` | monkey-core/core/monkey_instance_local.py:287-338 | a full setup's calls in order: each data item, the job directory copy, each code item, the logs folder, each persisted folder, the start of persistence, the dependency role. Empty lists add nothing |
| `LocalInstance.UnknownEnvTypeRunsNoRole` | monkey-core/core/monkey_instance_local.py:349-368 | an unknown `env_type` issues no call, uses up its token and fails with "Provided or missing dependency manager" |
| `LocalInstance.DataStageIgnoresDirStatus` | monkey-core/core/monkey_instance_local.py:127-146 | the directory-creation call's status never affects a data item's result; only the unarchive call and the token do |
| `LocalInstance.QuietRunnerSetupSucceeds` | monkey-core/core/monkey_instance_local.py:280-340 | against a runner that succeeds and never touches the token, a job whose `env_type` is known sets up successfully, having made every stage's calls |
| `LocalInstance.RunJobSpec` | monkey-core/core/monkey_instance_local.py:397-419 | a failing command is returned and no sync runs. Otherwise the job succeeds exactly when `bash <job_dir>/sync/persist_all.sh` is not `"failed"` and the token is unchanged |
| `LocalInstance.CleanupSpec` | monkey-core/core/monkey_instance_local.py:421-426 | cleanup always succeeds, after `killall <job_uid>_persist_all_loop.sh` |
| `LocalInstance.HostVarsIsLastMatch` | monkey-core/core/monkey_instance_local.py:45-49 | a host's variables are found exactly when some entry names the host, and are those of the last such entry |
| `LocalInstance.FindHostVars` | monkey-core/core/monkey_instance_local.py:45-49 | the loop over the hosts file's entries finds the last match |
| `LocalInstance.MonkeyInstanceLocal.constructor` | monkey-core/core/monkey_instance_local.py:36-52 | keeps its name, address and settings; state `unknown`, offline count 0; the base class's extra variables, updated with this host's entry when the hosts file was read |
| `LocalInstance.ExtravarsFromEmptyBase` | monkey-core/core/monkey_instance_local.py:43-52 | from an empty base dictionary, the extra variables are exactly this host's entry, or stay empty when no entry names the host |
| `LocalInstance.MonkeyInstanceLocal.CheckSetup` | monkey-core/core/monkey_instance_local.py:69-82 | the machine setup role, as a guarded stage |
| `LocalInstance.MonkeyInstanceLocal.CheckOnline` | monkey-core/core/monkey_instance_local.py:84-85 | always online, and nothing changes |
| `LocalInstance.MonkeyInstanceLocal.InstallDependency` | monkey-core/core/monkey_instance_local.py:99-101 | always succeeds, and nothing changes |
| `LocalInstance.MonkeyInstanceLocal.SetupDataItem` | monkey-core/core/monkey_instance_local.py:113-149 | creates the directory and unarchives the dataset under one token. The result is the guarded stage of both calls |
| `LocalInstance.MonkeyInstanceLocal.UnpackJobDir` | monkey-core/core/monkey_instance_local.py:151-164 | the job directory copy, as a guarded stage |
| `LocalInstance.MonkeyInstanceLocal.UnpackCodeAndPersist` | monkey-core/core/monkey_instance_local.py:166-191 | the code unarchive into the job directory with a trailing separator, as a guarded stage |
| `LocalInstance.MonkeyInstanceLocal.SetupPersistFolder` | monkey-core/core/monkey_instance_local.py:193-222 | the persist folder role, as a guarded stage whose failure names the folder |
| `LocalInstance.MonkeyInstanceLocal.StartPersistence` | monkey-core/core/monkey_instance_local.py:224-251 | the start-persist role, as a guarded stage |
| `LocalInstance.MonkeyInstanceLocal.SetupLogsFolder` | monkey-core/core/monkey_instance_local.py:253-278 | the logs persistence role, as a guarded stage |
| `LocalInstance.MonkeyInstanceLocal.SetupDependencyManager` | monkey-core/core/monkey_instance_local.py:342-373 | the token is issued before dispatching on `env_type`. An unknown type fails without a call |
| `LocalInstance.MonkeyInstanceLocal.RunStage` | monkey-core/core/monkey_instance_local.py:287-338 | each stage goes through the method the source has for it |
| `LocalInstance.MonkeyInstanceLocal.SetupJob` | monkey-core/core/monkey_instance_local.py:280-340 | the loop with early return computes the run of all stages that stops at the first failure |
| `LocalInstance.MonkeyInstanceLocal.ExecuteCommand` | monkey-core/core/monkey_instance_local.py:375-395 | the command role with the run's environment, as a guarded stage whose failure names the command |
| `LocalInstance.MonkeyInstanceLocal.RunJob` | monkey-core/core/monkey_instance_local.py:397-419 | the command and then the sync, as the two-step rule above |
| `LocalInstance.MonkeyInstanceLocal.CleanupJob` | monkey-core/core/monkey_instance_local.py:421-426 | cleanup as specified above |
| `LocalInstance.CreateLocalInstance` | monkey-core/core/monkey_instance_local.py:36-62 | an instance exists exactly when the machine setup check passes (otherwise the constructor raises). It keeps every field the constructor set: name, address, settings, runner, state `unknown`, the extra variables. Its offline count is 0, and its token and calls are those of the setup check |
| `SharedStages.TryCallsPasses` | monkey_core/core/instance/monkey_instance_shared.py:21-39 | a `try` body succeeds exactly when none of its calls raises, and then attempted them all. It reports the stage's success or failure message, and the exception never escapes |
| `SharedStages.TryCallsStopsAtFirstRaise` | monkey_core/core/instance/monkey_instance_shared.py:21-36 | a failing body stopped at its first raising call: nothing after it was attempted |
| `SharedStages.SetupDataItem` | monkey_core/core/instance/monkey_instance_shared.py:11-39 | succeeds exactly when neither call raises. The unarchive is not attempted after the directory creation raises. Either failure gives "Failed to extract archive" |
| `SharedStages.UnpackJobDir` | monkey_core/core/instance/monkey_instance_shared.py:47-65 | the copy is the only call. A raise gives "Failed to copy directory" |
| `SharedStages.JobDirCopyIsDirToDir` | monkey_core/core/instance/monkey_instance_shared.py:48-58 | source and destination are directory paths: each ends with the separator (when not empty) and adds at most one |
| `SharedStages.UnpackCodeAndPersist` | monkey_core/core/instance/monkey_instance_shared.py:73-101 | the unarchive is the only call. A raise gives "Failed to extract code archive" |
| `SharedStages.SetupLogsFolder` | monkey_core/core/instance/monkey_instance_shared.py:104-132 | the persist role is the only call. A raise gives "Failed to create persisted logs folder" |
| `SharedStages.LogsFolderLayout` | monkey_core/core/instance/monkey_instance_shared.py:106-121 | `<job_dir>/logs/` is synchronised to `<monkeyfs_job_dir>/logs/` every 3 time units, by `<job_dir>/.logs_sync.sh` |
| `SharedStages.SetupPersistFolder` | monkey_core/core/instance/monkey_instance_shared.py:135-164 | the persist role is the only call. A raise gives the failure naming the folder |
| `SharedStages.PersistScriptLayout` | monkey_core/core/instance/monkey_instance_shared.py:139-141 | the script is `<persist with / as _>_sync.sh`, directly inside `<job_dir>/sync` |
| `SharedStages.PersistDirsLayout` | monkey_core/core/instance/monkey_instance_shared.py:143-145 | source `<job_dir>/<persist>/` and bucket `<monkeyfs_job_dir>/<persist>/` for a relative folder |
| `SharedStages.StartPersist` | monkey_core/core/instance/monkey_instance_shared.py:167-191 | the start-persist role is the only call. A raise gives "Failed start persistence of directories" |
| `SharedStages.StartPersistLayout` | monkey_core/core/instance/monkey_instance_shared.py:169-181 | `persist_all.sh` and `<job_uid>_persist_all_loop.sh` lie directly inside `<job_dir>/sync` |
| `SharedStages.SetupDependencyManager` | monkey_core/core/instance/monkey_instance_shared.py:194-225 | an unknown `env_type` fails with "Provided or missing dependency manager" and no call. A raising role gives "Failed to initialize environment manager" |
| `SharedStages.SingleStagesCatchRaises` | monkey_core/core/instance/monkey_instance_shared.py:52-191 | each single-call stage succeeds exactly when its call does not raise. A raise gives that stage's own failure message, and only its call is attempted |
| `SharedStages.NothingRaisedAllSucceed` | monkey_core/core/instance/monkey_instance_shared.py:11-225 | when nothing raises, every stage of a job with a known `env_type` succeeds |
| `Paths.JoinShape` | monkey-core/core/monkey_instance_local.py:118-121 | `os.path.join(a, b)` ends with `b`. It is `b` when `b` is absolute, and otherwise inserts a separator exactly when `a` is non-empty and does not end with one |
| `Paths.TrailingSeparator` | monkey_core/core/instance/monkey_instance_shared.py:48-50 | joining `""` ends the path with a separator exactly when it is non-empty, adding at most one |
| `Paths.RelativeJoinKeepsBase` | monkey-core/core/monkey_instance_local.py:118-121 | with no absolute component, the base is a prefix of the joined path |
| `Paths.AbsoluteComponentResets` | monkey-core/core/monkey_instance_local.py:118-121 | an absolute component (such as an absolute data `path`) discards everything joined before it |
| `Paths.JoinUnder` | monkey_core/core/instance/monkey_instance_shared.py:171-174 | a relative name joined under a relative directory without a trailing separator lies directly inside `join(base, dir)` |
| `Paths.FlattenSeparators` | monkey_core/core/instance/monkey_instance_shared.py:139 | `replace("/", "_")`: same length, each `/` becomes `_`, and no `/` remains |
| `Paths.SyncScriptInSyncDir` | monkey_core/core/instance/monkey_instance_shared.py:139-141 | a folder's sync script lands directly inside `<job_dir>/sync` whatever separators the folder had |
| `PyValues.UpdateSets` | monkey/cloud/cloud_handler.py:29 | after `d[k] = v`, `k` maps to `v` |
| `PyValues.UpdateKeeps` | monkey/cloud/cloud_handler.py:29 | after `d[k] = v`, every other key keeps its value |
| `PyValues.UpdateKeyOrder` | monkey/cloud/cloud_handler.py:29 | after `d[k] = v`, the keys keep their order, and a new key is appended last |
| `PyValues.AssignCopies` | monkey/cloud/cloud_handler.py:288-291 | copying a dictionary's entries one by one gives the same dictionary, in the same order |
| `PyValues.Iterate` | monkey/cloud/cloud_handler.py:150 | `iter()` yields a list's items, a string's characters and a dictionary's keys, and raises on anything else |
| `PyValues.Subscript` | monkey/cloud/cloud_handler.py:168-171 | `v[key]` succeeds exactly on a dictionary holding the key. A missing key raises `KeyError`, a non-dictionary `TypeError` |
| `PyValues.Index0` | monkey/cloud/cloud_handler.py:190 | `zones[0]` is the first item of a non-empty list or string, and raises otherwise |
| `CloudParams.MergeParams` | monkey/cloud/cloud_handler.py:24-30 | the in-place loop computes the merge, including the dictionary left behind when extending a list raises |
| `CloudParams.MergeKeeps` | monkey/cloud/cloud_handler.py:24-30 | keys only in `base` are unchanged |
| `CloudParams.MergeSets` | monkey/cloud/cloud_handler.py:25-29 | each key of `additional` holds the base list extended by the new value, or else the new value |
| `CloudParams.MergeKeepsKeyOrder` | monkey/cloud/cloud_handler.py:25-29 | `base`'s keys keep their order, and new keys follow |
| `CloudParams.MergeFailsIff` | monkey/cloud/cloud_handler.py:26-27 | the merge raises exactly when some base list cannot be extended by its new value |
| `CloudParams.MergeExample` | monkey/cloud/cloud_handler.py:24-30 | `{a:[1], b:1}` merged with `{a:[2], b:2, c:3}` is `{a:[1,2], b:2, c:3}` |
| `CloudParams.MergeLookup` | monkey/cloud/cloud_handler.py:24-30 | every key holds the base value, overridden or extended by the additional value when there is one |
| `CloudParams.LayeringPerKey` | monkey/cloud/cloud_handler.py:84-92 | the defaults are layered `all`, then `gcp`, then the provider's own section, key by key |
| `CloudParams.LayeringOrderMatters` | monkey/cloud/cloud_handler.py:88-92 | layering is not associative: merging two overrides first changes the result |
| `CloudInstance.StartupScript` | monkey/cloud/cloud_handler.py:334-346 | the script is empty without a script file and the file's text unchanged otherwise. An unreadable file or a non-string metadata value raises "Could not read startup script file" |
| `CloudInstance.ConfigDict` | monkey/cloud/cloud_handler.py:242-365 | the request body carries the name, machine type, firewall tag, labels and metadata items given |
| `CloudInstance.ConfigOptionalSettings` | monkey/cloud/cloud_handler.py:308-319 | `scheduling` is present exactly when `preemptible` was given, with that value; `guestAccelerators` exactly when `gpus` was given, with one accelerator of the given type and count |
| `CloudInstance.PlanChecksInOrder` | monkey/cloud/cloud_handler.py:192-227 | no source image, and then no instance type, gives no instance. An instance is only planned with the source image, the instance type and the monkey identifier all present |
| `CloudInstance.MissingIdentifierRaises` | monkey/cloud/cloud_handler.py:297-301 | a missing monkey identifier raises `ValueError` with the source's message |
| `CloudInstance.LaunchShape` | monkey/cloud/cloud_handler.py:230-254 | the zone, `zones/<zone>/machineTypes/<type>`, the name prefix (default `monkey-`) followed by the six-letter suffix, disk size `10` and type `pd-standard` by default, and the service account |
| `CloudInstance.LaunchLabels` | monkey/cloud/cloud_handler.py:288-305 | the labels hold the user's labels first, in order, then the creation time and the monkey identifier |
| `CloudInstance.LaunchMetadata` | monkey/cloud/cloud_handler.py:322-365 | the user's metadata items in order, then `startup-script` last, which is start-inject + the user's script + end-inject |
| `CloudInstance.CopyEntries` | monkey/cloud/cloud_handler.py:288-291 | the label copying loop |
| `CloudInstance.CollectMetadata` | monkey/cloud/cloud_handler.py:326-331 | the metadata loop appends one item per user entry, in order |
| `CloudInstance.SubstitutionRaises` | monkey/cloud/cloud_handler.py:341-342 | the substitution loop raises exactly when some metadata value is not a string |
| `CloudInstance.BuildPlan` | monkey/cloud/cloud_handler.py:192-365 | the step-by-step construction gives the plan: no instance, the exception, or the configuration |
| `CloudHandler.ComputeApi.InsertFirewall` | monkey/cloud/cloud_handler.py:132 | the inserted rule is listed from then on |
| `CloudHandler.ComputeApi.InsertInstance` | monkey/cloud/cloud_handler.py:367-370 | the insert is recorded with project, zone and body |
| `CloudHandler.CreatedRuleIsRecognised` | monkey/cloud/cloud_handler.py:114-131 | the created rule is named `monkey-firewall`, opens `9991` for tcp and udp, and targets the tag `monkey-firewall` |
| `CloudHandler.FirewallCheckIsIdempotent` | monkey/cloud/cloud_handler.py:102-112 | after the check the rule exists. A second check changes nothing. At most one rule is added and the others are kept |
| `CloudHandler.Names` | monkey/cloud/cloud_handler.py:155 | every item's name, in order, when every item has one |
| `CloudHandler.CollectAppend` | monkey/cloud/cloud_handler.py:148-174 | zones are listed in order: the names of `a + b` are those of `a`, then those of `b` |
| `CloudHandler.RaisingZoneContributesNothing` | monkey/cloud/cloud_handler.py:150-157 | a zone whose listing raises adds nothing, and the other zones are listed as if it were absent |
| `CloudHandler.CollectedNamesComeFromZones` | monkey/cloud/cloud_handler.py:148-174 | every listed name comes from one of the zones |
| `CloudHandler.ZoneInstances` | monkey/cloud/cloud_handler.py:152-155 | a zone whose items all have names contributes them all in order. One nameless item voids the zone |
| `CloudHandler.JobsAreMatchingItems` | monkey/cloud/cloud_handler.py:166-171 | every listed job is an item whose labels carry the target identifier |
| `CloudHandler.MatchingItemsAreJobs` | monkey/cloud/cloud_handler.py:166-171 | when no item raises, every matching item is listed |
| `CloudHandler.RaisingItemEndsZone` | monkey/cloud/cloud_handler.py:163-173 | an item that raises abandons the rest of its zone, and the earlier jobs are kept |
| `CloudHandler.WaitReturnsFirstDone` | monkey/cloud/cloud_handler.py:381-393 | a returned result is the first `DONE` poll, after only readable non-`DONE` statuses, and has no `error` |
| `CloudHandler.FirstDoneIsReturned` | monkey/cloud/cloud_handler.py:383-393 | the first `DONE` poll without `error` is returned |
| `CloudHandler.WaitRaisesDoneError` | monkey/cloud/cloud_handler.py:389-392 | a first `DONE` poll with `error` raises that error |
| `CloudHandler.OnlyGcpIsSupported` | monkey/cloud/cloud_handler.py:33-38 | only `gcp` is accepted. Another type raises `ValueError("<type> type for provider not supported yet")`, and a missing type raises `KeyError` |
| `CloudHandler.SettingsAreLayered` | monkey/cloud/cloud_handler.py:40-47 | a handler keeps the provider's name, zones and project, and has the layered defaults |
| `CloudHandler.BuiltHandlerValidity` | monkey/cloud/cloud_handler.py:67-72 | a built handler is valid exactly when its name and project are not `None` |
| `CloudHandler.PreparedZone` | monkey/cloud/cloud_handler.py:189-190 | the prepared parameters hold the merged zone, or else the first zone, and every other key as merged |
| `CloudHandler.CloudHandlerGCP.constructor` | monkey/cloud/cloud_handler.py:84-100 | the handler keeps its settings, has type `gcp`, and checks the project's firewall |
| `CloudHandler.CloudHandlerGCP.CheckForFirewallRule` | monkey/cloud/cloud_handler.py:102-112 | the scan with early exit leaves the rules as the idempotent check says |
| `CloudHandler.CloudHandlerGCP.CreateFirewallRule` | monkey/cloud/cloud_handler.py:114-132 | the monkey rule is inserted |
| `CloudHandler.CloudHandlerGCP.ConnectionMeansFirstZoneListed` | monkey/cloud/cloud_handler.py:138-146 | a connected handler has iterable zones, and listing the first zone gives truthy `items`. When those items are iterable, the listings scan them and there is at least one; when they all have names, `list_instances` is not empty |
| `CloudHandler.CloudHandlerGCP.ConnectionWithUniterableItems` | monkey/cloud/cloud_handler.py:138-146 | `items` equal to `True` counts as a connection, yet the zone contributes no instance |
| `CloudHandler.CloudHandlerGCP.ListInstances` | monkey/cloud/cloud_handler.py:148-158 | every zone's instance names in zone order. Zones that cannot be iterated raise `TypeError` |
| `CloudHandler.CloudHandlerGCP.CollectZones` | monkey/cloud/cloud_handler.py:150-173 | the loop over the zones that both listings share gathers exactly the names of all zones, in order |
| `CloudHandler.CloudHandlerGCP.ZoneQueryNames` | monkey/cloud/cloud_handler.py:151-172 | one zone's `try` body for either listing |
| `CloudHandler.CloudHandlerGCP.ZoneInstanceNames` | monkey/cloud/cloud_handler.py:151-157 | one zone's `try` body for instances |
| `CloudHandler.CloudHandlerGCP.ListJobs` | monkey/cloud/cloud_handler.py:160-174 | every zone's job names in zone order, for the handler's monkey identifier. Zones that cannot be iterated raise `TypeError` |
| `CloudHandler.CloudHandlerGCP.ZoneJobNames` | monkey/cloud/cloud_handler.py:163-173 | one zone's `try` body for jobs |
| `CloudHandler.CloudHandlerGCP.ScanZone` | monkey/cloud/cloud_handler.py:166-171 | the inner loop appends the matching items' names until an item raises |
| `CloudHandler.CloudHandlerGCP.WaitForOperation` | monkey/cloud/cloud_handler.py:381-395 | the polling loop returns the first `DONE` result or raises its error |
| `CloudHandler.CloudHandlerGCP.CreateInstance` | monkey/cloud/cloud_handler.py:188-379 | the merge, with the zone, persists in the handler's defaults. There is then no instance, or the exception with nothing inserted, or one insert of the configuration and the report of name, project, zone and operation |
| `CloudHandler.CreateCloudHandler` | monkey/cloud/cloud_handler.py:32-47 | a handler exactly when its settings can be read, with the firewall checked. Otherwise the exception is raised and nothing is sent |

## Left out

- The automation runner and its calls are an oracle. `update_uuid` is modelled as issuing token + 1. The `MonkeyInstance` base class and its call bodies are not part of this model. Its initial `additional_extravars` is a parameter of the local instance's constructor.
- The Google API client and service-account credentials are inputs:
  - the project's firewall rules;
  - a per-zone listing oracle;
  - the poll results;
  - the reply to an insert;
  - a credentials loader.
- Errors raised by the firewall list and insert, and by the instance insert, are not modelled. Neither are errors from `googleapiclient.discovery.build` (monkey/cloud/cloud_handler.py:98-99).
- `CloudHandler.HandlerSettings`: every failure to load the credentials becomes `OSError` naming the key file. `from_service_account_file` can raise other errors as well, such as `ValueError` on a malformed key file; those are not distinguished.
- Errors raised by the poll in `wait_for_operation` (`zoneOperations().get(...).execute()`, monkey/cloud/cloud_handler.py:384-387) are not modelled: each poll is an input result.
- A `KeyError` from a missing key is not modelled for records whose fields are typed in the model: the job's `job_uid`, `run` and `cmd` (monkey-core/core/monkey_instance_local.py:282, 336, 399, 401, 422); `run_yml`'s `env_type` and `env_file` (monkey-core/core/monkey_instance_local.py:343-344, monkey_core/core/instance/monkey_instance_shared.py:196-197), so a missing `env_type` is not the `KeyError` it is in the source; and the data and code item keys (monkey-core/core/monkey_instance_local.py:114-119, 168-170, monkey_core/core/instance/monkey_instance_shared.py:13-17, 75-77), which in the shared stages are read outside the `try`.
- File reads are inputs:
  - the local hosts file;
  - the startup-script file;
  - the inject scripts, as `None` when they cannot be opened.
- The random name suffix is a parameter: any six lowercase letters.
- Clocks are inputs. `datetime.now()` is an integer of seconds, and `total_seconds()` is integer seconds. The `job-creation-time` label takes its timestamp text as a parameter.
- `time.sleep`. `CloudHandler.CloudHandlerGCP.WaitForOperation` models a finite sequence of polls and reports still pending when they run out. The source loops forever.
- The unreachable ping and offline counting after `check_online`'s early return.
- `list_images` and `__str__`. `__str__` appears only as the condition that the zones can be joined when the new handler is logged.
- Printing, logging, Mongo `save()` and the mongoengine field machinery.
- The command-line tool.
- Aliasing is not modelled:
  - `machine_defaults` is the same dictionary as `default_params["all"]`, or, without an `all` section, the class-level dictionary shared by all handlers;
  - merges write through to it;
  - a provider named `all` merges that section into itself.

  The model copies values instead.
- A default-parameters section that is not a dictionary cannot be represented: sections are dictionaries by type. Labels or metadata that are not dictionaries are modelled, as `AttributeError`.
- Python's equality of `1` and `True` is not modelled. Values compare structurally.
- `Common.Value` has no float case, so a YAML float such as `disk-size: 10.5` or a float `acceleratorCount` cannot be represented.
- Constructors that raise are modelled as `None` or `Raised` results. The `Exception("Failed to create instance")` of the local instance is `None` in `LocalInstance.CreateLocalInstance`.
- `Common.Format` renders lists and dictionaries as the empty string. So a list- or dictionary-valued project, zone or type is not rendered by its `repr` in names, paths and messages.
- The local instance's layout lookups are fixed fields of the instance: `get_scratch_dir` and `get_monkeyfs_dir`, read from the provider's local variables. The shared stages' lookups (`get_job_dir`, `get_monkeyfs_job_dir`, `get_dataset_path`, `get_codebase_file_path`) are given functions; their definitions are not part of this model. `update_instance_details` and `get_json` are not modelled. They only copy or report fields.
