/**
 The rows of one run and its job queue as an object that the workers update in place, statement by
 statement, each worker proved against its `AgentPipeline` step.  `Valid` ties the rows to a history of
 delivered jobs, so that what `AgentPipelineRuns` proves of histories holds of the object; `DrainQueue`
 delivers until nothing is queued.
 */
module AgentPipelineStore {
  import opened Options
  import opened AgentPipeline
  import opened AgentPipelineRuns
  import opened AgentPipelineTrace

  class RunStore {
    const cfg: Config
    var tasks: seq<Task>
    var run: RunStatus
    var session: Option<Session>
    var queue: seq<Job>
    ghost var failedRetryWrites: nat
    ghost var lostInserts: nat
    ghost var verdict: Option<bool>
    /** The jobs delivered so far. */
    ghost var history: seq<Event>

    /** The rows are what the delivered jobs have left. */
    ghost predicate Valid()
      reads this
    {
      Possible(cfg, history) && View() == After(cfg, history)
    }

    ghost function View(): State
      reads this
    {
      State(tasks, run, session, queue, failedRetryWrites, lostInserts, verdict)
    }

    /** CreateAgentCodegenPipeline: one pending task per name in order, then the first job. */
    constructor (cfg: Config)
      ensures this.cfg == cfg && Valid() && history == [] && View() == Initial()
    {
      this.cfg, history := cfg, [];
      tasks, run, session, queue := [], RunPending, None, [];
      failedRetryWrites, lostInserts, verdict := 0, 0, None;
      new;
      var i := 0;
      while i < |TASK_NAMES|
        invariant 0 <= i == |tasks| <= |TASK_NAMES|
        invariant forall j :: 0 <= j < i ==> tasks[j] == Task(TASK_NAMES[j], TaskPending, 0)
        invariant run == RunPending && session == None && queue == [] && history == []
        invariant failedRetryWrites == lostInserts == 0 && verdict == None
      {
        tasks := tasks + [Task(TASK_NAMES[i], TaskPending, 0)];
        i := i + 1;
      }
      queue := queue + [Job(PrepareContext, Some(0), 0)];
      assert tasks == Initial().tasks;
    }

    // ---------- store writes ----------

    method UpdateTaskStatus(id: Option<nat>, status: TaskStatus)
      modifies `tasks
      ensures tasks == WithStatus(old(tasks), id, status)
    {
      if id.Some? && id.value < |tasks| {
        var t := tasks[id.value];
        var attempt := t.attempt;
        if status == TaskRunning {
          attempt := attempt + 1;
        }
        tasks := tasks[id.value := Task(t.name, status, attempt)];
      }
    }

    method UpdateSessionStatus(status: string)
      modifies `session
      ensures session == WithSessionStatus(cfg, old(session), status)
    {
      if session.Some? && status in cfg.sessionStatuses {
        session := Some(session.value.(status := status));
      }
    }

    method UpdateSessionResult(retryCount: Option<int>)
      modifies `session
      ensures session == WithSessionResult(old(session), retryCount)
    {
      if session.Some? && retryCount.Some? {
        session := Some(session.value.(retryCount := retryCount.value));
      }
    }

    // ---------- pipeline helpers ----------

    /** The scan stops at the first failed task; otherwise it remembers whether every task was completed. */
    method CheckPipelineCompletion()
      modifies `run
      ensures run == DerivedStatus(tasks, old(run))
    {
      var allCompleted, anyFailed := true, false;
      var i := 0;
      while i < |tasks|
        invariant 0 <= i <= |tasks|
        invariant !anyFailed && forall j :: 0 <= j < i ==> tasks[j].status != TaskFailed
        invariant allCompleted <==> forall j :: 0 <= j < i ==> tasks[j].status == TaskCompleted
      {
        if tasks[i].status == TaskFailed {
          anyFailed := true;
          break;
        }
        if tasks[i].status != TaskCompleted {
          allCompleted := false;
        }
        i := i + 1;
      }
      if anyFailed {
        run := RunFailed;
      } else if allCompleted {
        run := RunCompleted;
      }
    }

    method FailTask(id: Option<nat>)
      modifies `tasks, `run
      ensures View() == Fail(old(View()), id)
    {
      UpdateTaskStatus(id, TaskFailed);
      CheckPipelineCompletion();
    }

    /** The linear scan for a task name. */
    method PipelineTaskIDByName(name: TaskName) returns (id: Option<nat>)
      ensures id == TaskIDByName(tasks, name)
    {
      var i := 0;
      while i < |tasks|
        invariant 0 <= i <= |tasks|
        invariant forall j :: 0 <= j < i ==> tasks[j].name != name
      {
        if tasks[i].name == name {
          return Some(i);
        }
        i := i + 1;
      }
      return None;
    }

    method Insert(name: TaskName, retryCount: int, insertOk: bool)
      modifies `queue, `lostInserts
      ensures View() == Enqueue(old(View()), name, retryCount, insertOk)
    {
      var id := PipelineTaskIDByName(name);
      if insertOk {
        queue := queue + [Job(name, id, retryCount)];
      } else {
        lostInserts := lostInserts + 1;
      }
    }

    // ---------- workers ----------

    method PrepareContextWork(job: Job, o: Outcome)
      modifies this
      ensures View() == PrepareContextStep(Start(old(View()), job.taskID), job, o)
    {
      UpdateTaskStatus(job.taskID, TaskRunning);
      if !o.ok {
        FailTask(job.taskID);
        return;
      }
      UpdateTaskStatus(job.taskID, TaskCompleted);
      Insert(ProvisionSandbox, 0, o.insertOk);
    }

    method ProvisionSandboxWork(job: Job, o: Outcome)
      modifies this
      ensures View() == ProvisionSandboxStep(cfg, Start(old(View()), job.taskID), job, o)
    {
      UpdateTaskStatus(job.taskID, TaskRunning);
      if !o.ok {
        FailTask(job.taskID);
        return;
      }
      if "provisioned" !in cfg.sessionStatuses {
        // the INSERT of the session row violates the CHECK constraint
        FailTask(job.taskID);
        return;
      }
      session := Some(Session("provisioned", 0, NormalizeMaxRetries(cfg.sandboxMaxRetries)));
      UpdateTaskStatus(job.taskID, TaskCompleted);
      Insert(RunAgent, 0, o.insertOk);
    }

    method RunAgentWork(job: Job, o: Outcome)
      modifies this
      ensures View() == RunAgentStep(cfg, Start(old(View()), job.taskID), job, o)
    {
      UpdateTaskStatus(job.taskID, TaskRunning);
      if !o.ok || session.None? {
        FailTask(job.taskID);
        return;
      }
      var loaded := session.value;
      UpdateSessionStatus("running");
      if !o.providerFound {
        FailTask(job.taskID);
        return;
      }
      if !o.commandOk {
        UpdateSessionStatus("failed");
        FailTask(job.taskID);
        return;
      }
      verdict := None;
      UpdateSessionResult(None);
      UpdateSessionStatus("validating");
      UpdateTaskStatus(job.taskID, TaskCompleted);
      Insert(ValidateOutput, loaded.retryCount, o.insertOk);
    }

    /** The loop over the validation commands. */
    method Validate(o: Outcome) returns (passed: bool)
      ensures !passed <==>
                o.canValidate && exists i :: 0 <= i < |o.checks| && o.checks[i].Exited? && o.checks[i].code != 0
    {
      passed := true;
      if o.canValidate {
        var i := 0;
        while i < |o.checks|
          invariant 0 <= i <= |o.checks|
          invariant !passed <==> exists j :: 0 <= j < i && o.checks[j].Exited? && o.checks[j].code != 0
        {
          if o.checks[i].Exited? && o.checks[i].code != 0 {
            passed := false;
          }
          i := i + 1;
        }
      }
    }

    method ValidateOutputWork(job: Job, o: Outcome)
      modifies this
      ensures View() == ValidateOutputStep(cfg, Start(old(View()), job.taskID), job, o)
    {
      UpdateTaskStatus(job.taskID, TaskRunning);
      if !o.ok || session.None? {
        FailTask(job.taskID);
        return;
      }
      var passed := Validate(o);
      ValidationMeaning(o);
      verdict := Some(passed);
      UpdateSessionResult(None);
      var maxRetries := NormalizeMaxRetries(cfg.sandboxMaxRetries);
      if !passed {
        if job.retryCount < maxRetries {
          var nextRetry := job.retryCount + 1;
          if o.retryWriteOk {
            UpdateSessionResult(Some(nextRetry));
          } else {
            failedRetryWrites := failedRetryWrites + 1;
          }
          UpdateTaskStatus(job.taskID, TaskCompleted);
          Insert(RunAgent, 0, o.insertOk);
          return;
        }
        FailTask(job.taskID);
        return;
      }
      UpdateSessionStatus("completed");
      UpdateTaskStatus(job.taskID, TaskCompleted);
      Insert(CreatePR, 0, o.insertOk);
    }

    method CreatePRWork(job: Job, o: Outcome)
      modifies this
      ensures View() == CreatePRStep(Start(old(View()), job.taskID), job, o)
    {
      UpdateTaskStatus(job.taskID, TaskRunning);
      if !o.ok {
        FailTask(job.taskID);
        return;
      }
      UpdateTaskStatus(job.taskID, TaskCompleted);
      Insert(Notify, 0, o.insertOk);
    }

    method NotifyWork(job: Job, o: Outcome)
      modifies this
      ensures View() == NotifyStep(Start(old(View()), job.taskID), job, o)
    {
      UpdateTaskStatus(job.taskID, TaskRunning);
      if !o.ok {
        FailTask(job.taskID);
        return;
      }
      UpdateTaskStatus(job.taskID, TaskCompleted);
      CheckPipelineCompletion();
    }

    /** Takes one job off the queue and runs its worker. */
    method Dispatch(pick: nat, o: Outcome)
      requires pick < |queue|
      modifies this
      ensures View() == Step(cfg, old(View()), pick, o)
    {
      var job := queue[pick];
      queue := queue[..pick] + queue[pick + 1..];
      match job.kind
      case PrepareContext => PrepareContextWork(job, o);
      case ProvisionSandbox => ProvisionSandboxWork(job, o);
      case RunAgent => RunAgentWork(job, o);
      case ValidateOutput => ValidateOutputWork(job, o);
      case CreatePR => CreatePRWork(job, o);
      case Notify => NotifyWork(job, o);
    }

    /** Delivers one queued job. */
    method Deliver(pick: nat, o: Outcome)
      requires Valid() && pick < |queue|
      modifies this
      ensures Valid() && history == old(history) + [Event(pick, o)]
      ensures View() == Step(cfg, old(View()), pick, o) && Kept(cfg, old(View()), View())
    {
      hide Step, Kept, Inv;
      AlwaysInv(cfg, history);
      StepKeepsInv(cfg, View(), pick, o);
      Delivered(cfg, history, Event(pick, o));
      ghost var longer := history + [Event(pick, o)];
      Dispatch(pick, o);
      history := longer;
    }

    /** Jobs that can still be delivered at most, when no more than `refusals` further retry writes are refused. */
    ghost function JobsLeft(refusals: nat): int
      reads this
    {
      Fuel(cfg, View()) + 2 * refusals
    }

    /** The queue's own loop: whatever is queued is delivered.  `outcomes` are the world's answers; from number
        `settled` on no retry write is refused.  The loop ends, in one of the end states of a run. */
    method DrainQueue(outcomes: nat -> Outcome, ghost settled: nat) returns (delivered: nat)
      requires Valid() && forall i: nat :: i >= settled ==> outcomes(i).retryWriteOk
      modifies this
      ensures Valid() && Ended(cfg, View()) && old(history) <= history && |history| == |old(history)| + delivered
      ensures AgentStarts(View()) <= NormalizeMaxRetries(cfg.sandboxMaxRetries) + 1 + failedRetryWrites
      ensures failedRetryWrites <= old(failedRetryWrites) + settled
      ensures delivered <= old(JobsLeft(settled))
      ensures (forall i: nat :: outcomes(i).insertOk) && old(lostInserts) == 0 ==>
                run == RunCompleted || run == RunFailed
      ensures "provisioned" !in cfg.sessionStatuses ==> run != RunCompleted && AgentStarts(View()) == 0
      ensures InOrder(cfg, Jobs(cfg, history), history)
      ensures run == RunCompleted ==> WellDone(cfg, Jobs(cfg, history), history)
    {
      delivered := 0;
      while |queue| > 0
        invariant Valid() && old(history) <= history && |history| == |old(history)| + delivered
        invariant failedRetryWrites <= old(failedRetryWrites) + if delivered < settled then delivered else settled
        invariant (forall i: nat :: outcomes(i).insertOk) ==> lostInserts == old(lostInserts)
        invariant JobsLeft(if delivered < settled then settled - delivered else 0) + delivered <= old(JobsLeft(settled))
        decreases JobsLeft(if delivered < settled then settled - delivered else 0)
      {
        StepCounts(cfg, View(), 0, outcomes(delivered));
        Deliver(0, outcomes(delivered));
        delivered := delivered + 1;
      }
      AlwaysInv(cfg, history);
      EndStates(cfg, history);
      JobsInOrder(cfg, history);
      if run == RunCompleted { CompletedWasWellDone(cfg, history); }
    }
  }
}
