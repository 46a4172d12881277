/** Whole runs of the queue: jobs are enqueued, the clock advances, the single
    worker claims and finishes jobs, a status write can be lost, and the process
    can crash and restart at any point, even between a rollback and the write
    that records the failure. */
module JobRuns {
  import opened Wrappers
  import opened JobQueue

  datatype Worker =
    | Idle
    | Executing(id: nat, attempts: int)
    | RolledBack(id: nat, attempts: int, message: string)

  /** What happened to one job so far: how often it was executed, how many of those
      executions ended without a status write (a crash, or a failed write), how
      often its rollback was triggered, and when it last failed. */
  datatype Past = Past(executions: nat, interruptions: nat, rollbacks: nat, failedAt: Time)

  datatype System = System(jobs: Table, clock: Time, worker: Worker, past: seq<Past>, lost: set<nat>)

  const INITIAL := System([], 0, Idle, [], {})

  datatype Action =
    | Enqueue(jobType: string, payload: string)
    | Wait(seconds: nat)
    | Claim
    | Finish(outcome: Outcome)
    | RecordFailure
    | LoseWrite
    | Crash

  predicate Enabled(s: System, a: Action) {
    match a
    case Enqueue(_, _) => true
    case Wait(_) => true
    case Claim => s.worker.Idle? && FirstDue(s.jobs, s.clock).Some? && |s.past| == |s.jobs|
    case Finish(_) => s.worker.Executing? && Known(s, s.worker.id)
    case RecordFailure => s.worker.RolledBack? && Known(s, s.worker.id)
    case LoseWrite => !s.worker.Idle? && Known(s, s.worker.id)
    case Crash => s.worker.Idle? || Known(s, s.worker.id)
  }

  predicate Known(s: System, id: nat) {
    id < |s.jobs| == |s.past|
  }

  function Interrupted(s: System, id: nat): seq<Past>
    requires Known(s, id)
  {
    s.past[id := s.past[id].(interruptions := s.past[id].interruptions + 1)]
  }

  function Next(s: System, a: Action): System
    requires Enabled(s, a)
  {
    match a
    case Enqueue(jobType, payload) =>
      s.(jobs := Enqueued(s.jobs, jobType, payload, s.clock), past := s.past + [Past(0, 0, 0, 0)])
    case Wait(seconds) => s.(clock := s.clock + seconds)
    case Claim =>
      var id := FirstDue(s.jobs, s.clock).value;
      s.(jobs := Claimed(s.jobs, id, s.clock), worker := Executing(id, s.jobs[id].attempts),
         past := s.past[id := s.past[id].(executions := s.past[id].executions + 1)])
    case Finish(outcome) =>
      var id, attempts := s.worker.id, s.worker.attempts;
      if outcome.Done? then s.(jobs := Completed(s.jobs, id, s.clock), worker := Idle)
      else if attempts + 1 >= FINAL_ATTEMPT then
        s.(worker := RolledBack(id, attempts, ErrorText(outcome)),
           past := s.past[id := s.past[id].(rollbacks := s.past[id].rollbacks + 1)])
      else
        s.(jobs := Finished(s.jobs, id, attempts, outcome, s.clock), worker := Idle,
           past := s.past[id := s.past[id].(failedAt := s.clock)])
    case RecordFailure =>
      var id, attempts := s.worker.id, s.worker.attempts;
      s.(jobs := GivenUp(s.jobs, id, attempts + 1, s.worker.message, s.clock), worker := Idle)
    case LoseWrite =>
      s.(worker := Idle, past := Interrupted(s, s.worker.id), lost := s.lost + {s.worker.id})
    case Crash =>
      s.(jobs := Resumed(s.jobs, s.clock), worker := Idle, lost := {},
         past := if s.worker.Idle? then s.past else Interrupted(s, s.worker.id))
  }

  function Step(s: System, a: Action): System {
    if Enabled(s, a) then Next(s, a) else s
  }

  function Exec(s: System, actions: seq<Action>): System
    decreases |actions|
  {
    if actions == [] then s else Step(Exec(s, actions[..|actions| - 1]), actions[|actions| - 1])
  }

  // ---- The invariant ----

  predicate Busy(s: System, id: nat) {
    !s.worker.Idle? && s.worker.id == id
  }

  function ReadyAt(job: Job, past: Past): Time {
    if job.attempts <= 0 then 0 else past.failedAt + Delay(job.attempts)
  }

  predicate JobOk(s: System, id: nat)
    requires Known(s, id)
  {
    var job, past := s.jobs[id], s.past[id];
    && 0 <= job.attempts <= FINAL_ATTEMPT
    && (job.attempts == FINAL_ATTEMPT <==> job.status.Failed?)
    && past.executions == job.attempts + past.interruptions
         + (if Busy(s, id) then 1 else 0) + (if job.status.Complete? then 1 else 0)
    && (job.status.Failed? ==> past.rollbacks > 0)
    && (Busy(s, id) ==> job.status.Running? && s.worker.attempts == job.attempts)
    && (Busy(s, id) && s.worker.RolledBack? ==> past.rollbacks > 0 && job.attempts == FINAL_ATTEMPT - 1)
    && (job.status.Running? ==> Busy(s, id) || id in s.lost)
    && (past.executions == 0 ==> job.status.Pending? && job.updatedAt <= s.clock)
    && (job.status.Pending? ==> ReadyAt(job, past) <= job.updatedAt)
    && (job.status.Running? ==> ReadyAt(job, past) <= s.clock)
  }

  predicate InOrder(s: System)
    requires |s.past| == |s.jobs|
  {
    forall i, j :: 0 <= i < j < |s.jobs| && s.past[j].executions > 0 ==> s.past[i].executions > 0
  }

  predicate Inv(s: System) {
    && |s.past| == |s.jobs|
    && (!s.worker.Idle? ==> s.worker.id < |s.jobs|)
    && (forall id :: 0 <= id < |s.jobs| ==> JobOk(s, id))
    && InOrder(s)
  }

  lemma ClaimKeeps(s: System)
    requires Inv(s) && Enabled(s, Claim)
    ensures Inv(Next(s, Claim))
  {
    var s' := Next(s, Claim);
    var id := FirstDue(s.jobs, s.clock).value;
    forall j | 0 <= j < |s'.jobs| ensures JobOk(s', j) {
      assert JobOk(s, j);
    }
    forall i | 0 <= i < id ensures s.past[i].executions > 0 {
      assert JobOk(s, i) && !s.jobs[i].Due(s.clock);
    }
  }

  lemma StepKeepsJob(s: System, a: Action, id: nat)
    requires |s.past| == |s.jobs| && (!s.worker.Idle? ==> s.worker.id < |s.jobs|)
    requires Enabled(s, a) && !a.Claim? && id < |Next(s, a).jobs| == |Next(s, a).past|
    requires id < |s.jobs| ==> JobOk(s, id)
    ensures JobOk(Next(s, a), id)
  {
    hide JobOk;
    if a.Finish? {
      FinishKeepsJob(s, a, id);
    } else if a.Crash? || a.Enqueue? {
      TableKeepsJob(s, a, id);
    } else {
      OtherKeepsJob(s, a, id);
    }
  }

  lemma FinishKeepsJob(s: System, a: Action, id: nat)
    requires Enabled(s, a) && a.Finish? && id < |s.jobs| == |Next(s, a).jobs| == |Next(s, a).past| && JobOk(s, id)
    ensures JobOk(Next(s, a), id)
  {
  }

  lemma TableKeepsJob(s: System, a: Action, id: nat)
    requires |s.past| == |s.jobs| && (!s.worker.Idle? ==> s.worker.id < |s.jobs|)
    requires Enabled(s, a) && (a.Crash? || a.Enqueue?) && id < |Next(s, a).jobs| == |Next(s, a).past|
    requires id < |s.jobs| ==> JobOk(s, id)
    ensures JobOk(Next(s, a), id)
  {
  }

  lemma OtherKeepsJob(s: System, a: Action, id: nat)
    requires Enabled(s, a) && (a.Wait? || a.RecordFailure? || a.LoseWrite?)
    requires id < |s.jobs| == |Next(s, a).jobs| == |Next(s, a).past| && JobOk(s, id)
    ensures JobOk(Next(s, a), id)
  {
  }

  lemma StepKeepsOrder(s: System, a: Action)
    requires |s.past| == |s.jobs| && InOrder(s) && (!s.worker.Idle? ==> s.worker.id < |s.jobs|)
    requires Enabled(s, a) && !a.Claim?
    ensures |Next(s, a).past| == |Next(s, a).jobs| && InOrder(Next(s, a))
    ensures !Next(s, a).worker.Idle? ==> Next(s, a).worker.id < |Next(s, a).jobs|
  {
  }

  lemma StepKeeps(s: System, a: Action)
    requires Inv(s) && Enabled(s, a)
    ensures Inv(Next(s, a))
  {
    if a.Claim? {
      ClaimKeeps(s);
    } else {
      hide JobOk, InOrder, Next;
      StepKeepsOrder(s, a);
      forall id | 0 <= id < |Next(s, a).jobs| ensures JobOk(Next(s, a), id) {
        StepKeepsJob(s, a, id);
      }
    }
  }

  lemma {:induction false} Invariant(actions: seq<Action>)
    ensures Inv(Exec(INITIAL, actions))
    decreases |actions|
  {
    if actions != [] {
      var init, a := actions[..|actions| - 1], actions[|actions| - 1];
      Invariant(init);
      if Enabled(Exec(INITIAL, init), a) {
        StepKeeps(Exec(INITIAL, init), a);
      }
    }
  }

  // ---- Safety over every run ----

  /** A job is executed at most three times plus once for every execution a crash
      or a lost write cut off. A failed job failed exactly three times, and its
      rollback was triggered before it was marked. */
  lemma ExecutionsBounded(actions: seq<Action>, id: nat)
    requires id < |Exec(INITIAL, actions).jobs|
    ensures var s := Exec(INITIAL, actions);
            && Known(s, id)
            && s.past[id].executions <= 3 + s.past[id].interruptions
            && (s.jobs[id].status.Failed? ==>
                  && s.jobs[id].attempts == 3
                  && s.past[id].executions == 3 + s.past[id].interruptions
                  && s.past[id].rollbacks > 0)
            && (s.jobs[id].Unfinished() ==> s.jobs[id].attempts < 3)
  {
    Invariant(actions);
    assert JobOk(Exec(INITIAL, actions), id);
  }

  /** How an execution ends, from every reachable state: the first failure is due again
      exactly 60 seconds later, the second 300 seconds later, and the third triggers
      one rollback before the row changes and is then final. */
  lemma FailureCourse(actions: seq<Action>, outcome: Outcome)
    requires Exec(INITIAL, actions).worker.Executing?
    ensures var s := Exec(INITIAL, actions);
            var s', s'' := Exec(s, [Finish(outcome)]), Exec(s, [Finish(outcome), RecordFailure]);
            var id := s.worker.id;
            && Known(s, id) && Known(s', id) && Known(s'', id) && s.jobs[id].status.Running?
            && s'.jobs == s.jobs[id := s'.jobs[id]] && s''.jobs == s.jobs[id := s''.jobs[id]]
            && (outcome.Done? ==>
                  && s'.jobs[id] == s.jobs[id].(status := Complete, updatedAt := s.clock)
                  && s'.past[id] == s.past[id] && s'.worker.Idle?)
            && (!outcome.Done? ==>
                  var text := Some(if outcome.Error? then outcome.message else "panic: " + outcome.reason);
                  && s.jobs[id].attempts in {0, 1, 2}
                  && (s.jobs[id].attempts == 0 ==>
                        && s'.jobs[id] == s.jobs[id].(status := Pending, attempts := 1, lastError := text,
                             updatedAt := s.clock + 60)
                        && s'.past[id] == s.past[id].(failedAt := s.clock) && s'.worker.Idle?)
                  && (s.jobs[id].attempts == 1 ==>
                        && s'.jobs[id] == s.jobs[id].(status := Pending, attempts := 2, lastError := text,
                             updatedAt := s.clock + 300)
                        && s'.past[id] == s.past[id].(failedAt := s.clock) && s'.worker.Idle?)
                  && (s.jobs[id].attempts == 2 ==>
                        && s'.jobs == s.jobs && s'.past[id] == s.past[id].(rollbacks := s.past[id].rollbacks + 1)
                        && s''.jobs[id] == s.jobs[id].(status := Failed, attempts := 3, lastError := text,
                             updatedAt := s.clock)
                        && s''.past == s'.past && s''.worker.Idle?))
  {
    Invariant(actions);
    var s := Exec(INITIAL, actions);
    assert JobOk(s, s.worker.id);
    FinishOne(s, outcome);
  }

  // Two steps, written out.
  lemma FinishOne(s: System, outcome: Outcome)
    ensures Exec(s, [Finish(outcome)]) == Step(s, Finish(outcome))
    ensures Exec(s, [Finish(outcome), RecordFailure]) == Step(Step(s, Finish(outcome)), RecordFailure)
  {
    assert [Finish(outcome), RecordFailure][..1] == [Finish(outcome)] && [Finish(outcome)][..0] == [];
    assert Exec(s, [Finish(outcome)]) == Step(Exec(s, []), Finish(outcome));
  }

  /** An idle worker claims exactly if some pending job is due, and then the one with
      the lowest id. */
  lemma ClaimCourse(actions: seq<Action>)
    requires Exec(INITIAL, actions).worker.Idle?
    ensures var s := Exec(INITIAL, actions);
            && (Enabled(s, Claim)
                <==> exists i :: 0 <= i < |s.jobs| && s.jobs[i].status.Pending? && s.jobs[i].updatedAt <= s.clock)
            && (Enabled(s, Claim) ==>
                  var s' := Step(s, Claim);
                  && s'.worker.Executing? && Known(s, s'.worker.id)
                  && s'.worker.attempts == s.jobs[s'.worker.id].attempts
                  && s.jobs[s'.worker.id].status.Pending? && s.jobs[s'.worker.id].updatedAt <= s.clock
                  && (forall i :: 0 <= i < s'.worker.id ==>
                        !(s.jobs[i].status.Pending? && s.jobs[i].updatedAt <= s.clock))
                  && s'.jobs == s.jobs[s'.worker.id := s.jobs[s'.worker.id].(status := Running, updatedAt := s.clock)])
  {
    Invariant(actions);
  }

  /** Jobs are first executed in the order they were enqueued. */
  lemma FirstExecutionsInOrder(actions: seq<Action>, i: nat, j: nat)
    requires i < j < |Exec(INITIAL, actions).jobs|
    ensures var s := Exec(INITIAL, actions);
            |s.past| == |s.jobs| && (s.past[j].executions > 0 ==> s.past[i].executions > 0)
  {
    Invariant(actions);
  }

  /** Unless a status write was lost since the last start, the only running job is
      the one the worker is executing. */
  lemma OneRunningJob(actions: seq<Action>, i: nat, j: nat)
    requires var s := Exec(INITIAL, actions);
             i < |s.jobs| && j < |s.jobs| && s.jobs[i].status.Running? && s.jobs[j].status.Running? && s.lost == {}
    ensures i == j && Busy(Exec(INITIAL, actions), i)
  {
    Invariant(actions);
    assert JobOk(Exec(INITIAL, actions), i) && JobOk(Exec(INITIAL, actions), j);
  }

  /** Whatever crashes and restarts happen in between, a job that has failed is not
      claimed again before its one-minute or five-minute backoff is over. */
  lemma BackoffRespected(actions: seq<Action>)
    requires Enabled(Exec(INITIAL, actions), Claim)
    ensures var s := Exec(INITIAL, actions);
            var id := FirstDue(s.jobs, s.clock).value;
            && Known(s, id)
            && (s.jobs[id].attempts == 0 || s.jobs[id].attempts == 1 || s.jobs[id].attempts == 2)
            && (s.jobs[id].attempts == 1 ==> s.clock >= s.past[id].failedAt + 60)
            && (s.jobs[id].attempts == 2 ==> s.clock >= s.past[id].failedAt + 300)
  {
    Invariant(actions);
    var s := Exec(INITIAL, actions);
    assert JobOk(s, FirstDue(s.jobs, s.clock).value);
  }

  lemma PersistsByStep(s: System, a: Action, id: nat)
    requires Inv(s) && id < |s.jobs|
    ensures var s' := Step(s, a);
            && id < |s'.jobs|
            && s'.jobs[id].jobType == s.jobs[id].jobType && s'.jobs[id].payload == s.jobs[id].payload
            && s'.jobs[id].attempts >= s.jobs[id].attempts
            && (!s.jobs[id].Unfinished() ==> s'.jobs[id] == s.jobs[id])
  {
    assert JobOk(s, id);
    if !s.worker.Idle? {
      assert JobOk(s, s.worker.id);
    }
  }

  /** No job is lost or altered, and a finished job is never touched again. */
  lemma {:induction false} JobsPersist(actions: seq<Action>, more: seq<Action>, id: nat)
    requires id < |Exec(INITIAL, actions).jobs|
    ensures var s, s' := Exec(INITIAL, actions), Exec(INITIAL, actions + more);
            && id < |s'.jobs|
            && s'.jobs[id].jobType == s.jobs[id].jobType && s'.jobs[id].payload == s.jobs[id].payload
            && s'.jobs[id].attempts >= s.jobs[id].attempts
            && (!s.jobs[id].Unfinished() ==> s'.jobs[id] == s.jobs[id])
    decreases |more|
  {
    if more == [] {
      assert actions + more == actions;
    } else {
      hide Step, Inv;
      var init, a := more[..|more| - 1], more[|more| - 1];
      JobsPersist(actions, init, id);
      assert (actions + more)[..|actions + more| - 1] == actions + init;
      Invariant(actions + init);
      PersistsByStep(Exec(INITIAL, actions + init), a, id);
    }
  }

  // ---- Progress ----

  // Executions that the unfinished jobs may still need.
  function Remaining(jobs: Table): int {
    if jobs == [] then 0
    else (if jobs[0].Unfinished() then FINAL_ATTEMPT - jobs[0].attempts else 0) + Remaining(jobs[1..])
  }

  function UnfinishedCount(jobs: Table): nat {
    if jobs == [] then 0
    else (if jobs[0].Unfinished() then 1 else 0) + UnfinishedCount(jobs[1..])
  }

  function Share(job: Job): int {
    if job.Unfinished() then FINAL_ATTEMPT - job.attempts else 0
  }

  lemma {:induction false} RemainingAfterUpdate(jobs: Table, id: nat, job: Job)
    requires id < |jobs|
    ensures Remaining(jobs[id := job]) == Remaining(jobs) - Share(jobs[id]) + Share(job)
    decreases jobs
  {
    if id == 0 {
      assert jobs[id := job][1..] == jobs[1..];
    } else {
      assert jobs[id := job][1..] == jobs[1..][id - 1 := job];
      RemainingAfterUpdate(jobs[1..], id - 1, job);
    }
  }

  lemma {:induction false} RemainingBounds(jobs: Table)
    requires forall i :: 0 <= i < |jobs| && jobs[i].Unfinished() ==> 0 <= jobs[i].attempts < FINAL_ATTEMPT
    ensures UnfinishedCount(jobs) <= Remaining(jobs) <= 3 * UnfinishedCount(jobs)
    ensures Remaining(jobs) == 0 <==> forall i :: 0 <= i < |jobs| ==> !jobs[i].Unfinished()
    decreases jobs
  {
    if jobs != [] {
      RemainingBounds(jobs[1..]);
      if forall i :: 0 <= i < |jobs[1..]| ==> !jobs[1..][i].Unfinished() {
        assert forall i :: 1 <= i < |jobs| ==> jobs[i] == jobs[1..][i - 1];
      }
    }
  }

  // No crash, no lost write, nothing new.
  predicate Quiet(actions: seq<Action>) {
    forall a :: a in actions ==> !a.Enqueue? && !a.LoseWrite? && !a.Crash?
  }

  // The action is the status write that ends an execution.
  predicate Ends(s: System, a: Action) {
    Enabled(s, a) && (a.RecordFailure? || (a.Finish? && (a.outcome.Done? || s.worker.attempts + 1 < FINAL_ATTEMPT)))
  }

  function Ended(s: System, actions: seq<Action>): nat
    decreases |actions|
  {
    if actions == [] then 0
    else
      var init, a := actions[..|actions| - 1], actions[|actions| - 1];
      Ended(s, init) + if Ends(Exec(s, init), a) then 1 else 0
  }

  lemma StepSpends(s: System, a: Action)
    requires Inv(s) && !a.Enqueue? && !a.LoseWrite? && !a.Crash?
    ensures Remaining(Step(s, a).jobs) <= Remaining(s.jobs) - if Ends(s, a) then 1 else 0
  {
    if Enabled(s, a) && !a.Wait? {
      var id := if a.Claim? then FirstDue(s.jobs, s.clock).value else s.worker.id;
      assert JobOk(s, id);
      RemainingAfterUpdate(s.jobs, id, Next(s, a).jobs[id]);
      assert Next(s, a).jobs == s.jobs[id := Next(s, a).jobs[id]];
    }
  }

  /** Between crashes the queue runs down: every execution uses up at least one of
      the attempts that remain, so there are at most three per unfinished job, and
      once they are used up nothing is left to do. */
  lemma {:induction false} QueueDrains(before: seq<Action>, actions: seq<Action>)
    requires Quiet(actions)
    ensures var s := Exec(INITIAL, before);
            var s' := Exec(s, actions);
            && Inv(s')
            && Ended(s, actions) + Remaining(s'.jobs) <= Remaining(s.jobs) <= 3 * UnfinishedCount(s.jobs)
            && 0 <= Remaining(s'.jobs)
            && (Ended(s, actions) == Remaining(s.jobs) ==> forall i :: 0 <= i < |s'.jobs| ==> !s'.jobs[i].Unfinished())
    decreases |actions|
  {
    var s := Exec(INITIAL, before);
    var s' := Exec(s, actions);
    if actions == [] {
      Invariant(before);
    } else {
      var init, a := actions[..|actions| - 1], actions[|actions| - 1];
      assert a in actions && forall b :: b in init ==> b in actions;
      QueueDrains(before, init);
      StepSpends(Exec(s, init), a);
      if Enabled(Exec(s, init), a) {
        StepKeeps(Exec(s, init), a);
      }
    }
    UnfinishedAttempts(s');
    RemainingBounds(s'.jobs);
    Invariant(before);
    UnfinishedAttempts(s);
    RemainingBounds(s.jobs);
  }

  lemma UnfinishedAttempts(s: System)
    requires Inv(s)
    ensures forall i :: 0 <= i < |s.jobs| && s.jobs[i].Unfinished() ==> 0 <= s.jobs[i].attempts < FINAL_ATTEMPT
  {
    forall i | 0 <= i < |s.jobs| && s.jobs[i].Unfinished() ensures 0 <= s.jobs[i].attempts < FINAL_ATTEMPT {
      assert JobOk(s, i);
    }
  }

  /** An idle worker with unfinished jobs only ever needs to wait: after some time
      one of them can be claimed. */
  lemma AlwaysProgress(actions: seq<Action>, id: nat)
    requires var s := Exec(INITIAL, actions);
             s.worker.Idle? && s.lost == {} && id < |s.jobs| && s.jobs[id].Unfinished()
    ensures var s := Exec(INITIAL, actions);
            Enabled(Step(s, Wait(s.jobs[id].updatedAt)), Claim)
  {
    Invariant(actions);
    var s := Exec(INITIAL, actions);
    assert JobOk(s, id);
    assert s.jobs[id].Due(s.clock + s.jobs[id].updatedAt);
  }
}
