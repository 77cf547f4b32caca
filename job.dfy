/** The job record: its declared fields with their defaults, and the state
    setter that stamps the time a job enters each stage. Times are whole
    seconds on one clock. */
module Job {
  import opened Common

  /** `timedelta(days=5)` in seconds: how far back a job's cleanup stamp is
      dated when it finishes without ever having entered CLEANUP. */
  const CleanupBackdate: int := 5 * 24 * 60 * 60

  /** The lifecycle states. Besides the six that carry a timestamp, the
      record may be set to any other state (a fresh job's state, FAILED);
      those are represented by `Created` and `Failed`. */
  datatype State =
    | Created
    | DispatchingMachine
    | DispatchingInstalls
    | DispatchingSetup
    | Running
    | Cleanup
    | Finished
    | Failed

  class MonkeyJob {
    var jobUid: string
    var jobYml: map<string, Value>
    var state: State
    var providerType: string
    var providerName: string
    var providerVars: map<string, Value>
    var currentIpAddress: Option<string>

    var creationDate: int
    var runDispatchDate: Option<int>
    var runDispatchMachineStartDate: Option<int>
    var runDispatchInstallsStartDate: Option<int>
    var runDispatchSetupStartDate: Option<int>
    /** The declared field for the RUNNING stamp, spelt `run_runing_start_date`. */
    var runRuningStartDate: Option<int>
    /** The attribute `set_state` actually writes on entering RUNNING
        (`run_running_start_date`), which the dynamic document stores as an
        extra field. */
    var runRunningStartDate: Option<int>
    var runCleanupStartDate: Option<int>
    var completionDate: Option<int>

    var runTimeoutTime: int
    var runElapsedTime: int
    var totalWallTime: int

    /** A new record: creation is stamped with the construction time, the
        optional dates are unset and the counters take their defaults. */
    constructor (uid: string, yml: map<string, Value>, initial: State,
                 pType: string, pName: string, pVars: map<string, Value>, now: int)
      ensures jobUid == uid && jobYml == yml && state == initial
      ensures providerType == pType && providerName == pName && providerVars == pVars
      ensures currentIpAddress == None
      ensures creationDate == now
      ensures runDispatchDate == None && runDispatchMachineStartDate == None
      ensures runDispatchInstallsStartDate == None && runDispatchSetupStartDate == None
      ensures runRuningStartDate == None && runRunningStartDate == None
      ensures runCleanupStartDate == None && completionDate == None
      ensures runTimeoutTime == -1 && runElapsedTime == 0 && totalWallTime == 0
    {
      jobUid, jobYml, state := uid, yml, initial;
      providerType, providerName, providerVars := pType, pName, pVars;
      currentIpAddress := None;
      creationDate := now;
      runDispatchDate, runDispatchMachineStartDate := None, None;
      runDispatchInstallsStartDate, runDispatchSetupStartDate := None, None;
      runRuningStartDate, runRunningStartDate := None, None;
      runCleanupStartDate, completionDate := None, None;
      runTimeoutTime, runElapsedTime, totalWallTime := -1, 0, 0;
    }

    /** Sets the state, whatever the current one, and stamps the entered
        stage with `now`, overwriting an earlier stamp. Entering FINISHED
        records the completion time and the wall time since creation, and
        dates a missing cleanup stamp five days back so that the job is
        immediately due for cleanup. Nothing else changes. */
    method SetState(s: State, now: int)
      modifies this
      ensures state == s
      ensures runDispatchMachineStartDate
           == if s == DispatchingMachine then Some(now) else old(runDispatchMachineStartDate)
      ensures runDispatchInstallsStartDate
           == if s == DispatchingInstalls then Some(now) else old(runDispatchInstallsStartDate)
      ensures runDispatchSetupStartDate
           == if s == DispatchingSetup then Some(now) else old(runDispatchSetupStartDate)
      ensures runRunningStartDate
           == if s == Running then Some(now) else old(runRunningStartDate)
      ensures runCleanupStartDate
           == if s == Cleanup then Some(now)
              else if s == Finished && old(runCleanupStartDate) == None then Some(now - CleanupBackdate)
              else old(runCleanupStartDate)
      ensures s == Finished && old(runCleanupStartDate) == None
           ==> runCleanupStartDate.Some? && runCleanupStartDate.value < now
      ensures completionDate == if s == Finished then Some(now) else old(completionDate)
      ensures totalWallTime == if s == Finished then now - creationDate else old(totalWallTime)
      ensures runRuningStartDate == old(runRuningStartDate)
      ensures jobUid == old(jobUid) && jobYml == old(jobYml)
      ensures providerType == old(providerType) && providerName == old(providerName)
      ensures providerVars == old(providerVars) && currentIpAddress == old(currentIpAddress)
      ensures creationDate == old(creationDate) && runDispatchDate == old(runDispatchDate)
      ensures runTimeoutTime == old(runTimeoutTime) && runElapsedTime == old(runElapsedTime)
    {
      state := s;
      if s == DispatchingMachine {
        runDispatchMachineStartDate := Some(now);
      } else if s == DispatchingInstalls {
        runDispatchInstallsStartDate := Some(now);
      } else if s == DispatchingSetup {
        runDispatchSetupStartDate := Some(now);
      } else if s == Running {
        runRunningStartDate := Some(now);
      } else if s == Cleanup {
        runCleanupStartDate := Some(now);
      } else if s == Finished {
        completionDate := Some(now);
        totalWallTime := now - creationDate;
        if runCleanupStartDate == None {
          runCleanupStartDate := Some(now - CleanupBackdate);
        }
      }
    }
  }

  /** A fresh job driven through every stage in pipeline order by a clock
      that never goes back ends FINISHED with each stage stamp set, in
      pipeline order, and a non-negative wall time; the declared RUNNING
      field is still unset. */
  method DriveThroughPipeline(job: MonkeyJob, t: seq<int>)
    requires |t| == 6
    requires job.creationDate <= t[0]
    requires forall i :: 0 < i < 6 ==> t[i - 1] <= t[i]
    requires job.runRuningStartDate == None
    modifies job
    ensures job.state == Finished
    ensures job.runDispatchMachineStartDate == Some(t[0])
    ensures job.runDispatchInstallsStartDate == Some(t[1])
    ensures job.runDispatchSetupStartDate == Some(t[2])
    ensures job.runRunningStartDate == Some(t[3])
    ensures job.runCleanupStartDate == Some(t[4])
    ensures job.completionDate == Some(t[5])
    ensures job.creationDate <= t[0] <= t[1] <= t[2] <= t[3] <= t[4] <= t[5]
    ensures job.totalWallTime >= 0
    ensures job.runRuningStartDate == None
  {
    job.SetState(DispatchingMachine, t[0]);
    job.SetState(DispatchingInstalls, t[1]);
    job.SetState(DispatchingSetup, t[2]);
    job.SetState(Running, t[3]);
    job.SetState(Cleanup, t[4]);
    job.SetState(Finished, t[5]);
    assert t[0] <= t[1] <= t[2] <= t[3] <= t[4] <= t[5] by {
      assert t[0] <= t[1] && t[1] <= t[2] && t[2] <= t[3] && t[3] <= t[4] && t[4] <= t[5];
    }
  }
}
