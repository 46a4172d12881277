/** The persistent job queue of internal/service/jobqueue.go: what each statement
    does to the jobs table, and the worker that issues them. */
module JobQueue {
  import opened Wrappers

  // Whole seconds: the table stores times with a resolution of one second.
  type Time = nat

  datatype Status = Pending | Running | Complete | Failed

  datatype Job = Job(
    jobType: string, payload: string, status: Status, attempts: int, lastError: Option<string>, updatedAt: Time)
  {
    predicate Due(now: Time) {
      status.Pending? && updatedAt <= now
    }

    predicate Unfinished() {
      status.Pending? || status.Running?
    }
  }

  /** Rows are never deleted and ids are handed out in order, so a job's position
      in the table stands for its id. */
  type Table = seq<Job>

  const FINAL_ATTEMPT := 3
  const MINUTE := 60

  function Enqueued(jobs: Table, jobType: string, payload: string, now: Time): Table {
    jobs + [Job(jobType, payload, Pending, 0, None, now)]
  }

  /** The row the claiming transaction selects: the lowest id among the due ones. */
  ghost predicate IsFirstDue(jobs: Table, now: Time, found: Option<nat>) {
    match found
    case None => forall i :: 0 <= i < |jobs| ==> !(jobs[i].status.Pending? && jobs[i].updatedAt <= now)
    case Some(id) =>
      && id < |jobs| && jobs[id].status.Pending? && jobs[id].updatedAt <= now
      && forall i :: 0 <= i < id ==> !(jobs[i].status.Pending? && jobs[i].updatedAt <= now)
  }

  function FirstDue(jobs: Table, now: Time): (found: Option<nat>)
    ensures IsFirstDue(jobs, now, found)
  {
    FirstDueFrom(jobs, now, 0)
  }

  function FirstDueFrom(jobs: Table, now: Time, from: nat): (found: Option<nat>)
    requires from <= |jobs| && forall i :: 0 <= i < from ==> !(jobs[i].status.Pending? && jobs[i].updatedAt <= now)
    ensures IsFirstDue(jobs, now, found)
    decreases |jobs| - from
  {
    if from == |jobs| then None
    else if jobs[from].Due(now) then Some(from)
    else FirstDueFrom(jobs, now, from + 1)
  }

  function Claimed(jobs: Table, id: nat, now: Time): Table
    requires id < |jobs|
  {
    jobs[id := jobs[id].(status := Running, updatedAt := now)]
  }

  function Completed(jobs: Table, id: nat, now: Time): Table
    requires id < |jobs|
  {
    jobs[id := jobs[id].(status := Complete, updatedAt := now)]
  }

  function GivenUp(jobs: Table, id: nat, attempts: int, message: string, now: Time): Table
    requires id < |jobs|
  {
    jobs[id := jobs[id].(status := Failed, attempts := attempts, lastError := Some(message), updatedAt := now)]
  }

  function Delay(attempts: int): Time {
    match attempts
    case 1 => 1 * MINUTE
    case 2 => 5 * MINUTE
    case _ => 15 * MINUTE
  }

  function Retried(jobs: Table, id: nat, attempts: int, message: string, now: Time): Table
    requires id < |jobs|
  {
    jobs[id := jobs[id].(status := Pending, attempts := attempts, lastError := Some(message),
        updatedAt := now + Delay(attempts))]
  }

  function Resumed(jobs: Table, now: Time): (resumed: Table)
    ensures |resumed| == |jobs|
    ensures forall i :: 0 <= i < |jobs| ==>
      resumed[i] == if jobs[i].status.Running? then jobs[i].(status := Pending, updatedAt := now) else jobs[i]
  {
    if jobs == [] then []
    else
      var job := jobs[0];
      [if job.status.Running? then job.(status := Pending, updatedAt := now) else job] + Resumed(jobs[1..], now)
  }

  /** How the service call behind a job ends. */
  datatype Outcome = Done | Error(message: string) | Panic(reason: string)

  function ErrorText(outcome: Outcome): string
    requires !outcome.Done?
  {
    match outcome
    case Error(message) => message
    case Panic(reason) => "panic: " + reason
  }

  function Finished(jobs: Table, id: nat, attempts: int, outcome: Outcome, now: Time): Table
    requires id < |jobs|
  {
    if outcome.Done? then Completed(jobs, id, now)
    else if attempts + 1 >= FINAL_ATTEMPT then GivenUp(jobs, id, attempts + 1, ErrorText(outcome), now)
    else Retried(jobs, id, attempts + 1, ErrorText(outcome), now)
  }

  class Queue {
    var jobs: Table
    // The jobs whose rollback was triggered, oldest first.
    var rollbacks: seq<nat>

    /** Works on the table as it finds it. */
    constructor (jobs: Table)
      ensures this.jobs == jobs && rollbacks == []
    {
      this.jobs, rollbacks := jobs, [];
    }

    method Enqueue(jobType: string, payload: string, now: Time)
      modifies this`jobs
      ensures jobs == Enqueued(old(jobs), jobType, payload, now)
      ensures jobs == old(jobs) + [Job(jobType, payload, Pending, 0, None, now)]
    {
      jobs := jobs + [Job(jobType, payload, Pending, 0, None, now)];
    }

    method ResumeOnStartup(now: Time)
      modifies this`jobs
      ensures jobs == Resumed(old(jobs), now) && |jobs| == |old(jobs)|
      ensures forall i :: 0 <= i < |jobs| ==>
        jobs[i] == if old(jobs)[i].status == Running then old(jobs)[i].(status := Pending, updatedAt := now)
                   else old(jobs)[i]
    {
      hide Resumed;
      var i := 0;
      while i < |jobs|
        invariant 0 <= i <= |jobs| == |old(jobs)|
        invariant forall k :: 0 <= k < i ==> jobs[k] == Resumed(old(jobs), now)[k]
        invariant forall k :: i <= k < |jobs| ==> jobs[k] == old(jobs)[k]
      {
        if jobs[i].status.Running? {
          jobs := jobs[i := jobs[i].(status := Pending, updatedAt := now)];
        }
        i := i + 1;
      }
    }

    /** The claiming transaction: select the oldest due job and mark it running. */
    method Claim(now: Time) returns (claimed: Option<nat>)
      modifies this`jobs
      ensures IsFirstDue(old(jobs), now, claimed)
      ensures jobs == if claimed.Some? then Claimed(old(jobs), claimed.value, now) else old(jobs)
      ensures match claimed
              case None => jobs == old(jobs)
              case Some(id) => jobs == old(jobs)[id := old(jobs)[id].(status := Running, updatedAt := now)]
    {
      var id := 0;
      while id < |jobs| && !jobs[id].Due(now)
        invariant 0 <= id <= |jobs|
        invariant forall i :: 0 <= i < id ==> !jobs[i].Due(now)
      {
        id := id + 1;
      }
      if id == |jobs| {
        return None;
      }
      jobs := jobs[id := jobs[id].(status := Running, updatedAt := now)];
      return Some(id);
    }

    method MarkComplete(id: nat, now: Time)
      requires id < |jobs|
      modifies this`jobs
      ensures jobs == Completed(old(jobs), id, now)
      ensures jobs == old(jobs)[id := old(jobs)[id].(status := Complete, updatedAt := now)]
    {
      jobs := jobs[id := jobs[id].(status := Complete, updatedAt := now)];
    }

    method MarkFailed(id: nat, message: string, newAttempts: int, now: Time)
      requires id < |jobs|
      modifies this
      ensures jobs == if newAttempts >= FINAL_ATTEMPT then GivenUp(old(jobs), id, newAttempts, message, now)
                      else Retried(old(jobs), id, newAttempts, message, now)
      ensures rollbacks == if newAttempts >= 3 then old(rollbacks) + [id] else old(rollbacks)
      ensures jobs == old(jobs)[id := jobs[id]]
      ensures jobs[id] == old(jobs)[id].(status := if newAttempts >= 3 then Failed else Pending,
                attempts := newAttempts, lastError := Some(message), updatedAt := jobs[id].updatedAt)
      ensures newAttempts == 1 ==> jobs[id].updatedAt == now + 60
      ensures newAttempts == 2 ==> jobs[id].updatedAt == now + 300
      ensures newAttempts >= 3 ==> jobs[id].updatedAt == now
      ensures newAttempts <= 0 ==> jobs[id].updatedAt == now + 900
    {
      if newAttempts >= FINAL_ATTEMPT {
        TriggerRollback(id);
        jobs := jobs[id := jobs[id].(status := Failed, attempts := newAttempts, lastError := Some(message),
            updatedAt := now)];
        return;
      }
      var delay;
      match newAttempts {
        case 1 => delay := 1 * MINUTE;
        case 2 => delay := 5 * MINUTE;
        case _ => delay := 15 * MINUTE;
      }
      jobs := jobs[id := jobs[id].(status := Pending, attempts := newAttempts, lastError := Some(message),
          updatedAt := now + delay)];
    }

    method TriggerRollback(id: nat)
      modifies this`rollbacks
      ensures rollbacks == old(rollbacks) + [id]
    {
      rollbacks := rollbacks + [id];
    }

    method RunJobWithRecovery(id: nat, attempts: int, outcome: Outcome, now: Time)
      requires id < |jobs|
      modifies this
      ensures jobs == Finished(old(jobs), id, attempts, outcome, now)
      ensures rollbacks == if !outcome.Done? && attempts + 1 >= FINAL_ATTEMPT then old(rollbacks) + [id]
          else old(rollbacks)
      ensures outcome.Done? ==>
                && jobs == old(jobs)[id := old(jobs)[id].(status := Complete, updatedAt := now)]
                && rollbacks == old(rollbacks)
      ensures outcome.Error? ==> jobs[id].lastError == Some(outcome.message)
      ensures outcome.Panic? ==> jobs[id].lastError == Some("panic: " + outcome.reason)
      ensures !outcome.Done? && attempts == 0 ==>
                && jobs == old(jobs)[id := old(jobs)[id].(status := Pending, attempts := 1,
                    lastError := jobs[id].lastError, updatedAt := now + 60)]
                && rollbacks == old(rollbacks)
      ensures !outcome.Done? && attempts == 1 ==>
                && jobs == old(jobs)[id := old(jobs)[id].(status := Pending, attempts := 2,
                    lastError := jobs[id].lastError, updatedAt := now + 300)]
                && rollbacks == old(rollbacks)
      ensures !outcome.Done? && attempts == 2 ==>
                && jobs == old(jobs)[id := old(jobs)[id].(status := Failed, attempts := 3,
                    lastError := jobs[id].lastError, updatedAt := now)]
                && rollbacks == old(rollbacks) + [id]
    {
      match outcome {
        case Done => MarkComplete(id, now);
        case Error(message) => MarkFailed(id, message, attempts + 1, now);
        case Panic(reason) => MarkFailed(id, "panic: " + reason, attempts + 1, now);
      }
    }

    /** One tick of the worker, given how the job it claims turns out. A failure after
        no attempt is tried again a minute later, one after one attempt five minutes
        later, and one after two attempts is rolled back and final. */
    method ProcessOneJob(outcome: Outcome, claimAt: Time, finishAt: Time) returns (executed: Option<nat>)
      modifies this
      ensures executed == FirstDue(old(jobs), claimAt) && IsFirstDue(old(jobs), claimAt, executed)
      ensures executed.None? ==> jobs == old(jobs) && rollbacks == old(rollbacks)
      ensures executed.Some? ==>
                var id, job := executed.value, old(jobs)[executed.value];
                && jobs == Finished(Claimed(old(jobs), id, claimAt), id, job.attempts, outcome, finishAt)
                && jobs == old(jobs)[id := jobs[id]]
                && (outcome.Error? ==> jobs[id].lastError == Some(outcome.message))
                && (outcome.Panic? ==> jobs[id].lastError == Some("panic: " + outcome.reason))
      ensures executed.Some? && outcome.Done? ==>
                && jobs[executed.value] == old(jobs)[executed.value].(status := Complete, updatedAt := finishAt)
                && rollbacks == old(rollbacks)
      ensures executed.Some? && !outcome.Done? && old(jobs)[executed.value].attempts == 0 ==>
                && jobs[executed.value] == old(jobs)[executed.value].(status := Pending, attempts := 1,
                     lastError := jobs[executed.value].lastError, updatedAt := finishAt + 60)
                && rollbacks == old(rollbacks)
      ensures executed.Some? && !outcome.Done? && old(jobs)[executed.value].attempts == 1 ==>
                && jobs[executed.value] == old(jobs)[executed.value].(status := Pending, attempts := 2,
                     lastError := jobs[executed.value].lastError, updatedAt := finishAt + 300)
                && rollbacks == old(rollbacks)
      ensures executed.Some? && !outcome.Done? && old(jobs)[executed.value].attempts == 2 ==>
                && jobs[executed.value] == old(jobs)[executed.value].(status := Failed, attempts := 3,
                     lastError := jobs[executed.value].lastError, updatedAt := finishAt)
                && rollbacks == old(rollbacks) + [executed.value]
    {
      executed := Claim(claimAt);
      FirstDueUnique(old(jobs), claimAt, executed, FirstDue(old(jobs), claimAt));
      if executed.Some? {
        RunJobWithRecovery(executed.value, jobs[executed.value].attempts, outcome, finishAt);
      }
    }
  }

  lemma FirstDueUnique(jobs: Table, now: Time, a: Option<nat>, b: Option<nat>)
    requires IsFirstDue(jobs, now, a) && IsFirstDue(jobs, now, b)
    ensures a == b
  {
  }
}
