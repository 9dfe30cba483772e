/**
 What the jobs of a run do, event by event: a transition table in terms of the world's answers, the order in which
 jobs can follow each other, and what must have happened for a run to be completed.
 */
module AgentPipelineTrace {
  import opened Options
  import opened Counting
  import opened AgentPipeline
  import opened AgentPipelineRuns

  /** Some validation command ran and exited with a code other than zero. */
  ghost predicate FailedCheck(o: Outcome) {
    o.canValidate && exists i :: 0 <= i < |o.checks| && o.checks[i].Exited? && o.checks[i].code != 0
  }

  lemma ValidationMeaning(o: Outcome)
    ensures !ValidationPassed(o) <==> FailedCheck(o)
  {
    if i :| 0 <= i < |o.checks| && o.checks[i].Exited? && o.checks[i].code != 0 {
      assert o.checks[i] != ExecError && o.checks[i] != Exited(0);
    }
  }

  /** The job ends its run as failed. */
  ghost predicate GoesWrong(cfg: Config, job: Job, o: Outcome) {
    || !o.ok
    || (job.kind == ProvisionSandbox && "provisioned" !in cfg.sessionStatuses)
    || (job.kind == RunAgent && !(o.providerFound && o.commandOk))
    || (job.kind == ValidateOutput && FailedCheck(o) && job.retryCount >= 1 && job.retryCount >= cfg.sandboxMaxRetries)
  }

  ghost function NextKind(kind: TaskName, o: Outcome): TaskName
    requires kind != Notify
  {
    match kind
    case PrepareContext => ProvisionSandbox
    case ProvisionSandbox => RunAgent
    case RunAgent => ValidateOutput
    case ValidateOutput => if FailedCheck(o) then RunAgent else CreatePR
    case CreatePR => Notify
  }

  /** The state after the live job `job` has met the answers `o`. */
  ghost predicate Follows(cfg: Config, job: Job, o: Outcome, t: State) {
    if GoesWrong(cfg, job, o) then t.queue == [] && t.run == RunFailed
    else if job.kind == Notify then t.queue == [] && t.run == RunCompleted
    else if !o.insertOk then t.queue == [] && t.run == RunPending && t.lostInserts == 1
    else t.run == RunPending && |t.queue| == 1 && t.queue[0].kind == NextKind(job.kind, o)
  }

  ghost predicate TasksFollow(cfg: Config, job: Job, o: Outcome, before: seq<Task>, after: seq<Task>)
    requires Named(before) && Named(after)
  {
    forall k :: 0 <= k < 6 ==>
      if k == Stage(job.kind)
      then after[k].attempt == before[k].attempt + 1
           && after[k].status == if GoesWrong(cfg, job, o) then TaskFailed else TaskCompleted
      else after[k] == before[k]
  }

  /** A status write that the schema may refuse. */
  ghost function Put(cfg: Config, status: string, before: string): string {
    if status in cfg.sessionStatuses then status else before
  }

  ghost function StatusAfter(cfg: Config, job: Job, o: Outcome, before: string): string {
    match job.kind
    case RunAgent =>
      if !o.ok then before
      else if !o.providerFound then Put(cfg, "running", before)
      else if !o.commandOk then Put(cfg, "failed", Put(cfg, "running", before))
      else Put(cfg, "validating", Put(cfg, "running", before))
    case ValidateOutput => if o.ok && !FailedCheck(o) then Put(cfg, "completed", before) else before
    case _ => before
  }

  /** A retry is counted in the session, unless the store refuses. */
  ghost predicate CountsRetry(cfg: Config, job: Job, o: Outcome) {
    job.kind == ValidateOutput && FailedCheck(o) && !GoesWrong(cfg, job, o) && o.retryWriteOk
  }

  ghost predicate SessionFollows(cfg: Config, job: Job, o: Outcome, before: Option<Session>, after: Option<Session>) {
    if job.kind == ProvisionSandbox && !GoesWrong(cfg, job, o) then
      && after.Some? && after.value.status == "provisioned" && after.value.retryCount == 0
      && after.value.maxRetries >= 1 && after.value.maxRetries >= cfg.sandboxMaxRetries
      && (after.value.maxRetries == 1 || after.value.maxRetries == cfg.sandboxMaxRetries)
    else if before.None? then after.None?
    else
      && after.Some? && after.value.maxRetries == before.value.maxRetries
      && after.value.status == StatusAfter(cfg, job, o, before.value.status)
      && after.value.retryCount == before.value.retryCount + if CountsRetry(cfg, job, o) then 1 else 0
  }

  // ---------- the transition table ----------

  /** Every job of every run, in terms of what the world answers. */
  lemma StepFollows(cfg: Config, s: State, o: Outcome)
    requires Inv(cfg, s) && Live(cfg, s)
    ensures var t := Step(cfg, s, 0, o);
            && Inv(cfg, t) && Follows(cfg, s.queue[0], o, t)
            && TasksFollow(cfg, s.queue[0], o, s.tasks, t.tasks)
            && SessionFollows(cfg, s.queue[0], o, s.session, t.session)
  {
    StepKeepsInv(cfg, s, 0, o);
    assert s.queue[..0] + s.queue[1..] == [];
    QueueFollows(cfg, s, o);
    TaskRowsFollow(cfg, s, o);
    SessionRowFollows(cfg, s, o);
  }

  lemma QueueFollows(cfg: Config, s: State, o: Outcome)
    requires Inv(cfg, s) && Live(cfg, s) && Inv(cfg, Step(cfg, s, 0, o)) && s.queue[..0] + s.queue[1..] == []
    ensures Follows(cfg, s.queue[0], o, Step(cfg, s, 0, o))
  {
    hide FailedCheck, ValidationPassed, CountersBounded, TaskIDByName;
    ValidationMeaning(o);
  }

  /** A job writes its own task's status twice. */
  lemma TaskWrites(cfg: Config, s: State, o: Outcome)
    requires Inv(cfg, s) && Live(cfg, s) && s.queue[..0] + s.queue[1..] == []
    ensures var job := s.queue[0];
            Step(cfg, s, 0, o).tasks
            == WithStatus(WithStatus(s.tasks, job.taskID, TaskRunning), job.taskID,
                          if GoesWrong(cfg, job, o) then TaskFailed else TaskCompleted)
  {
    hide FailedCheck, ValidationPassed, CountersBounded, TaskIDByName, WithStatus, WithSessionStatus, WithSessionResult;
    hide DerivedStatus, AnyFailed, AllCompleted, OneFailed;
    ValidationMeaning(o);
  }

  lemma TaskRowsFollow(cfg: Config, s: State, o: Outcome)
    requires Inv(cfg, s) && Live(cfg, s) && Inv(cfg, Step(cfg, s, 0, o)) && s.queue[..0] + s.queue[1..] == []
    ensures TasksFollow(cfg, s.queue[0], o, s.tasks, Step(cfg, s, 0, o).tasks)
  {
    hide Step, GoesWrong;
    TaskWrites(cfg, s, o);
  }

  lemma SessionRowFollows(cfg: Config, s: State, o: Outcome)
    requires Inv(cfg, s) && Live(cfg, s) && s.queue[..0] + s.queue[1..] == []
    ensures SessionFollows(cfg, s.queue[0], o, s.session, Step(cfg, s, 0, o).session)
  {
    hide FailedCheck, ValidationPassed, TaskIDByName, WithStatus, DerivedStatus;
    ValidationMeaning(o);
  }

  // ---------- the jobs of a history ----------

  /** The delivered jobs, in order. */
  ghost function Jobs(cfg: Config, history: seq<Event>): (jobs: seq<Job>)
    requires Possible(cfg, history)
    ensures |jobs| == |history|
  {
    if history == [] then []
    else
      var n := |history| - 1;
      Jobs(cfg, history[..n]) + [After(cfg, history[..n]).queue[history[n].pick]]
  }

  /** `job`, which met the answers `o`, has done its work and handed over to `next`. */
  ghost predicate HandsOver(cfg: Config, job: Job, o: Outcome, next: Job) {
    !GoesWrong(cfg, job, o) && o.insertOk && job.kind != Notify && next.kind == NextKind(job.kind, o)
  }

  ghost predicate InOrder(cfg: Config, jobs: seq<Job>, history: seq<Event>)
    requires |jobs| == |history|
  {
    && (jobs != [] ==> jobs[0].kind == PrepareContext)
    && forall i, j :: 0 <= i < |jobs| && 0 <= j < |jobs| && j == i + 1 ==>
         HandsOver(cfg, jobs[i], history[i].outcome, jobs[j])
  }

  /** The state says how the last job ended. */
  ghost predicate LastFollows(cfg: Config, jobs: seq<Job>, history: seq<Event>, s: State)
    requires |jobs| == |history|
  {
    if jobs == [] then s == Initial() else Follows(cfg, jobs[|jobs| - 1], history[|jobs| - 1].outcome, s)
  }

  lemma {:induction false} JobsInOrder(cfg: Config, history: seq<Event>)
    requires Possible(cfg, history)
    ensures InOrder(cfg, Jobs(cfg, history), history)
    ensures LastFollows(cfg, Jobs(cfg, history), history, After(cfg, history))
    decreases |history|
  {
    if history != [] {
      hide *;
      var front, e := Split(cfg, history);
      JobsInOrder(cfg, front);
      NextFollows(cfg, After(cfg, front), e.outcome);
      OrderSnoc(cfg, Jobs(cfg, front), front, After(cfg, front), e);
    }
  }

  /** The last event of a history, which delivered the one live job. */
  lemma Split(cfg: Config, history: seq<Event>) returns (front: seq<Event>, e: Event)
    requires Possible(cfg, history) && history != []
    ensures history == front + [e] && Possible(cfg, front)
    ensures var s := After(cfg, front);
            && Inv(cfg, s) && Live(cfg, s) && |s.queue| == 1 && After(cfg, history) == Step(cfg, s, 0, e.outcome)
            && Jobs(cfg, history) == Jobs(cfg, front) + [s.queue[0]]
  {
    hide Inv, Live, Step;
    var n := |history| - 1;
    front, e := history[..n], history[n];
    OnlyPick(cfg, front, e.pick);
    LiveIfQueued(cfg, After(cfg, front));
  }

  lemma NextFollows(cfg: Config, s: State, o: Outcome)
    requires Inv(cfg, s) && Live(cfg, s) && |s.queue| == 1
    ensures Follows(cfg, s.queue[0], o, Step(cfg, s, 0, o))
  {
    hide *;
    StepFollows(cfg, s, o);
  }

  /** The queue holds one live job, so there is nothing to pick. */
  lemma OnlyPick(cfg: Config, history: seq<Event>, pick: nat)
    requires Possible(cfg, history) && pick < |After(cfg, history).queue|
    ensures pick == 0 && Inv(cfg, After(cfg, history)) && Live(cfg, After(cfg, history))
  {
    AlwaysInv(cfg, history);
    LiveIfQueued(cfg, After(cfg, history));
  }

  lemma LiveIfQueued(cfg: Config, s: State)
    requires Inv(cfg, s) && s.queue != []
    ensures Live(cfg, s) && |s.queue| == 1
  {
  }

  lemma OrderSnoc(cfg: Config, jobs: seq<Job>, front: seq<Event>, s: State, e: Event)
    requires |jobs| == |front| && InOrder(cfg, jobs, front) && LastFollows(cfg, jobs, front, s)
    requires |s.queue| == 1 && Follows(cfg, s.queue[0], e.outcome, Step(cfg, s, 0, e.outcome))
    ensures InOrder(cfg, jobs + [s.queue[0]], front + [e])
    ensures LastFollows(cfg, jobs + [s.queue[0]], front + [e], Step(cfg, s, 0, e.outcome))
  {
    hide Step, GoesWrong, NextKind;
    if jobs != [] {
      assert HandsOver(cfg, jobs[|jobs| - 1], front[|jobs| - 1].outcome, s.queue[0]);
    }
  }

  /** What the history of a completed run looks like: nothing went wrong in it, the last validation had no failed
      check, and only create_pr and notify came after it. */
  ghost predicate WellDone(cfg: Config, jobs: seq<Job>, history: seq<Event>)
    requires |jobs| == |history|
  {
    && (forall i :: 0 <= i < |jobs| ==> history[i].outcome.ok)
    && (forall i :: 0 <= i < |jobs| && jobs[i].kind == RunAgent ==>
          history[i].outcome.providerFound && history[i].outcome.commandOk)
    && |jobs| >= 3
    && jobs[|jobs| - 3].kind == ValidateOutput && jobs[|jobs| - 2].kind == CreatePR && jobs[|jobs| - 1].kind == Notify
    && var o := history[|jobs| - 3].outcome;
       o.canValidate ==> forall i :: 0 <= i < |o.checks| ==> o.checks[i].ExecError? || o.checks[i].code == 0
  }

  /** A run is completed exactly when its last job was notify and did not go wrong; it is failed exactly when the
      last job went wrong. */
  lemma EndsByLastJob(cfg: Config, history: seq<Event>)
    requires Possible(cfg, history) && history != []
    ensures var n := |history| - 1;
            var job, o, s := Jobs(cfg, history)[n], history[n].outcome, After(cfg, history);
            && (s.run == RunCompleted <==> job.kind == Notify && !GoesWrong(cfg, job, o))
            && (s.run == RunFailed <==> GoesWrong(cfg, job, o))
  {
    hide GoesWrong, Jobs, After;
    JobsInOrder(cfg, history);
  }

  lemma CompletedWasWellDone(cfg: Config, history: seq<Event>)
    requires Possible(cfg, history) && After(cfg, history).run == RunCompleted
    ensures WellDone(cfg, Jobs(cfg, history), history)
  {
    hide WellDone, GoesWrong, InOrder;
    if history != [] {
      EndsByLastJob(cfg, history);
      JobsInOrder(cfg, history);
      OrderedToTheEnd(cfg, Jobs(cfg, history), history);
    }
  }

  lemma OrderedToTheEnd(cfg: Config, jobs: seq<Job>, history: seq<Event>)
    requires |jobs| == |history| && jobs != [] && InOrder(cfg, jobs, history)
    requires jobs[|jobs| - 1].kind == Notify && !GoesWrong(cfg, jobs[|jobs| - 1], history[|jobs| - 1].outcome)
    ensures WellDone(cfg, jobs, history)
  {
    var n := |jobs| - 1;
    assert n > 0 && HandsOver(cfg, jobs[n - 1], history[n - 1].outcome, jobs[n]);
    assert n > 1 && HandsOver(cfg, jobs[n - 2], history[n - 2].outcome, jobs[n - 1]);
    forall i | 0 <= i < |jobs| ensures !GoesWrong(cfg, jobs[i], history[i].outcome) {
      if i < n { assert HandsOver(cfg, jobs[i], history[i].outcome, jobs[i + 1]); }
    }
  }

  /** The attempt column of a task counts the deliveries of its job. */
  lemma {:induction false} AttemptsAreDeliveries(cfg: Config, history: seq<Event>, kind: TaskName)
    requires Possible(cfg, history)
    ensures var s := After(cfg, history);
            |s.tasks| == 6 && s.tasks[Stage(kind)].attempt == Count(Jobs(cfg, history), (j: Job) => j.kind == kind)
    decreases |history|
  {
    AlwaysInv(cfg, history);
    if history != [] {
      hide Step, Follows, SessionFollows;
      var front, e := Split(cfg, history);
      AttemptsAreDeliveries(cfg, front, kind);
      StepFollows(cfg, After(cfg, front), e.outcome);
      CountSnoc(Jobs(cfg, front), (j: Job) => j.kind == kind, After(cfg, front).queue[0]);
    }
  }
}
