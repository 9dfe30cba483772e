/**
 Every history of the agent pipeline: at most one live job, a bound on agent executions and on the
 length of a run, and how a run can end.
 */
module AgentPipelineRuns {
  import opened Options
  import opened AgentPipeline

  /** One delivered job: its position in the queue and what the world answered. */
  datatype Event = Event(pick: nat, outcome: Outcome)

  /** A history that can happen: every event delivers a job that is queued at that moment. */
  ghost predicate Possible(cfg: Config, history: seq<Event>)
    decreases |history|, 0
  {
    history != [] ==>
      var before := history[..|history| - 1];
      Possible(cfg, before) && history[|history| - 1].pick < |After(cfg, before).queue|
  }

  ghost function After(cfg: Config, history: seq<Event>): State
    requires Possible(cfg, history)
    decreases |history|, 1
  {
    if history == [] then Initial()
    else
      var last := history[|history| - 1];
      Step(cfg, After(cfg, history[..|history| - 1]), last.pick, last.outcome)
  }

  function MaxRetries(cfg: Config): int { NormalizeMaxRetries(cfg.sandboxMaxRetries) }

  /** The position of a task in its run. */
  function Stage(name: TaskName): (i: nat)
    ensures i < |TASK_NAMES| && TASK_NAMES[i] == name
  {
    match name
    case PrepareContext => 0
    case ProvisionSandbox => 1
    case RunAgent => 2
    case ValidateOutput => 3
    case CreatePR => 4
    case Notify => 5
  }

  /** How often run_agent was started: the attempt column of its task. */
  function AgentStarts(s: State): nat {
    if |s.tasks| == 6 then s.tasks[2].attempt else 0
  }

  ghost predicate Named(tasks: seq<Task>) {
    |tasks| == 6 && forall i :: 0 <= i < 6 ==> tasks[i].name == TASK_NAMES[i]
  }

  ghost predicate CountersBounded(cfg: Config, s: State) {
    && AgentStarts(s) <= MaxRetries(cfg) + 1 + s.failedRetryWrites
    && (s.session.Some? ==> 0 <= s.session.value.retryCount <= MaxRetries(cfg) == s.session.value.maxRetries)
  }

  /** One job is live and everything before its stage is done. */
  ghost predicate Live(cfg: Config, s: State)
    requires Named(s.tasks)
  {
    && |s.queue| == 1 && s.run == RunPending && s.lostInserts == 0
    && var job := s.queue[0];
       var stage := Stage(job.kind);
    && job.taskID == Some(stage)
    && (forall i :: 0 <= i < stage ==> s.tasks[i].status == TaskCompleted)
    && !AnyFailed(s.tasks)
    && s.tasks[5].status == TaskPending
    && (stage <= 1 ==> AgentStarts(s) == s.failedRetryWrites == 0 && s.session.None?)
    && (stage >= 2 ==> s.session.Some? && "provisioned" in cfg.sessionStatuses)
    && (stage == 2 ==> AgentStarts(s) == s.session.value.retryCount + s.failedRetryWrites)
    && (stage == 3 ==> AgentStarts(s) == s.session.value.retryCount + s.failedRetryWrites + 1
                       && job.retryCount == s.session.value.retryCount && s.verdict == None)
    && (stage >= 4 ==> s.verdict == Some(true))
  }

  ghost predicate Succeeded(s: State) {
    s.queue == [] && s.run == RunCompleted && AllCompleted(s.tasks) && s.lostInserts == 0
  }

  ghost predicate OneFailed(tasks: seq<Task>) {
    exists i :: 0 <= i < |tasks| && tasks[i].status == TaskFailed
      && forall j :: 0 <= j < |tasks| && j != i ==> tasks[j].status != TaskFailed
  }

  ghost predicate FailedRun(s: State) {
    s.queue == [] && s.run == RunFailed && OneFailed(s.tasks) && s.lostInserts == 0
  }

  /** The next job was lost: nothing is queued, nothing failed, and the run is pending for good. */
  ghost predicate Stranded(s: State) {
    && s.queue == [] && s.run == RunPending && !AnyFailed(s.tasks) && !AllCompleted(s.tasks) && s.lostInserts == 1
  }

  ghost predicate Inv(cfg: Config, s: State) {
    && Named(s.tasks)
    && CountersBounded(cfg, s)
    && (Live(cfg, s) || Succeeded(s) || FailedRun(s) || Stranded(s))
    && ("provisioned" !in cfg.sessionStatuses ==> AgentStarts(s) == 0 && s.session.None? && s.run != RunCompleted)
  }

  // ---------- one step keeps the invariant ----------

  lemma TaskIDAt(tasks: seq<Task>, name: TaskName)
    requires Named(tasks)
    ensures TaskIDByName(tasks, name) == Some(Stage(name))
  {
    assert tasks[Stage(name)].name == name;
    var r := TaskIDByName(tasks, name);
    assert r.Some?;
  }

  /** An upper bound on the number of jobs still to be delivered if no further retry write fails. */
  function Fuel(cfg: Config, s: State): int {
    if s.queue == [] then 0 else
    var left := if s.session.Some? then MaxRetries(cfg) - s.session.value.retryCount else MaxRetries(cfg);
    match s.queue[0].kind
    case PrepareContext => 2 * MaxRetries(cfg) + 6
    case ProvisionSandbox => 2 * MaxRetries(cfg) + 5
    case RunAgent => 2 * left + 4
    case ValidateOutput => 2 * left + 3
    case CreatePR => 2
    case Notify => 1
  }

  /** The state in which the worker of the live job starts its work. */
  function Started(s: State): State
    requires |s.queue| == 1
  {
    Start(s.(queue := []), s.queue[0].taskID)
  }

  /** Progress from `s` to `t`: fuel is spent, save for retry writes that failed. */
  ghost predicate Kept(cfg: Config, s: State, t: State) {
    Inv(cfg, t) && 0 <= Fuel(cfg, t) <= Fuel(cfg, s) - 1 + 2 * (t.failedRetryWrites - s.failedRetryWrites)
  }

  /** Failing the task of the live job ends the run as failed. */
  lemma FailEnds(tasks: seq<Task>, stage: nat, t: State)
    requires Named(tasks) && stage < 6 && !AnyFailed(tasks) && t.queue == [] && t.tasks == tasks && t.lostInserts == 0
    ensures Named(Fail(t, Some(stage)).tasks) && FailedRun(Fail(t, Some(stage)))
    ensures stage != 2 || tasks[2].status == TaskRunning ==> AgentStarts(Fail(t, Some(stage))) == AgentStarts(t)
  {
    var r := Fail(t, Some(stage));
    assert r.tasks[stage].status == TaskFailed;
  }

  /** Failing the live job, at any point of its work that has changed no more than a session status. */
  lemma FailKeeps(cfg: Config, s: State, t: State)
    requires Inv(cfg, s) && Live(cfg, s) && t.tasks == Started(s).tasks && t.queue == []
    requires t.lostInserts == 0 && t.failedRetryWrites == s.failedRetryWrites && SameCounters(s.session, t.session)
    ensures Kept(cfg, s, Fail(t, s.queue[0].taskID))
  {
    FailEnds(t.tasks, Stage(s.queue[0].kind), t);
  }

  predicate SameCounters(a: Option<Session>, b: Option<Session>) {
    if a.None? then b.None?
    else b.Some? && b.value.retryCount == a.value.retryCount && b.value.maxRetries == a.value.maxRetries
  }

  /** Completing the task of the live job and queueing the next one: the next job is live, or lost. */
  lemma CompleteThenEnqueue(t: State, stage: nat, next: TaskName, retryCount: int, insertOk: bool)
    requires Named(t.tasks) && stage < 5 && t.queue == [] && t.run == RunPending && t.lostInserts == 0
    requires !AnyFailed(t.tasks) && t.tasks[5].status == TaskPending
    ensures var r := Enqueue(Complete(t, Some(stage)), next, retryCount, insertOk);
            && Named(r.tasks) && !AnyFailed(r.tasks) && !AllCompleted(r.tasks)
            && r.tasks[5] == t.tasks[5] && AgentStarts(r) == AgentStarts(t)
            && r.queue == (if insertOk then [Job(next, Some(Stage(next)), retryCount)] else [])
            && r.lostInserts == (if insertOk then 0 else 1)
            && (forall i :: 0 <= i < 6 ==> r.tasks[i].status == if i == stage then TaskCompleted else t.tasks[i].status)
  {
    TaskIDAt(Complete(t, Some(stage)).tasks, next);
  }

  lemma StepKeepsInv(cfg: Config, s: State, pick: nat, o: Outcome)
    requires Inv(cfg, s) && pick < |s.queue|
    ensures Kept(cfg, s, Step(cfg, s, pick, o))
  {
    var job := s.queue[0];
    assert s.queue[..pick] + s.queue[pick + 1..] == [];
    match job.kind
    case PrepareContext => PrepareContextKeeps(cfg, s, o);
    case ProvisionSandbox => ProvisionSandboxKeeps(cfg, s, o);
    case RunAgent => RunAgentKeeps(cfg, s, o);
    case ValidateOutput => ValidateOutputKeeps(cfg, s, o);
    case CreatePR => CreatePRKeeps(cfg, s, o);
    case Notify => NotifyKeeps(cfg, s, o);
  }

  lemma PrepareContextKeeps(cfg: Config, s: State, o: Outcome)
    requires Inv(cfg, s) && Live(cfg, s) && s.queue[0].kind == PrepareContext
    ensures Kept(cfg, s, PrepareContextStep(Started(s), s.queue[0], o))
  {
    hide Fail;
    var s1 := Started(s);
    FailKeeps(cfg, s, s1);
    CompleteThenEnqueue(s1, 0, ProvisionSandbox, 0, o.insertOk);
  }

  lemma ProvisionSandboxKeeps(cfg: Config, s: State, o: Outcome)
    requires Inv(cfg, s) && Live(cfg, s) && s.queue[0].kind == ProvisionSandbox
    ensures Kept(cfg, s, ProvisionSandboxStep(cfg, Started(s), s.queue[0], o))
  {
    hide Fail;
    var s1 := Started(s);
    FailKeeps(cfg, s, s1);
    var created := s1.(session := Some(Session("provisioned", 0, MaxRetries(cfg))));
    CompleteThenEnqueue(created, 1, RunAgent, 0, o.insertOk);
  }

  lemma RunAgentKeeps(cfg: Config, s: State, o: Outcome)
    requires Inv(cfg, s) && Live(cfg, s) && s.queue[0].kind == RunAgent
    ensures Kept(cfg, s, RunAgentStep(cfg, Started(s), s.queue[0], o))
  {
    hide Fail, Kept, Enqueue, Complete;
    var s1 := Started(s);
    var running := s1.(session := WithSessionStatus(cfg, s1.session, "running"));
    FailKeeps(cfg, s, s1);
    FailKeeps(cfg, s, running);
    FailKeeps(cfg, s, running.(session := WithSessionStatus(cfg, running.session, "failed")));
    AgentDoneKeeps(cfg, s, running, o);
  }

  lemma AgentDoneKeeps(cfg: Config, s: State, running: State, o: Outcome)
    requires Inv(cfg, s) && Live(cfg, s) && s.queue[0].kind == RunAgent
    requires running == Started(s).(session := WithSessionStatus(cfg, s.session, "running"))
    ensures var logged := running.(session := WithSessionResult(running.session, None), verdict := None);
            var validating := logged.(session := WithSessionStatus(cfg, logged.session, "validating"));
            Kept(cfg, s, Enqueue(Complete(validating, Some(2)), ValidateOutput, s.session.value.retryCount, o.insertOk))
  {
    var logged := running.(session := WithSessionResult(running.session, None), verdict := None);
    var validating := logged.(session := WithSessionStatus(cfg, logged.session, "validating"));
    CompleteThenEnqueue(validating, 2, ValidateOutput, s.session.value.retryCount, o.insertOk);
  }

  lemma ValidateOutputKeeps(cfg: Config, s: State, o: Outcome)
    requires Inv(cfg, s) && Live(cfg, s) && s.queue[0].kind == ValidateOutput
    ensures Kept(cfg, s, ValidateOutputStep(cfg, Started(s), s.queue[0], o))
  {
    hide Fail, Kept, Enqueue, Complete, ValidationPassed;
    var s1 := Started(s);
    var judged := s1.(session := WithSessionResult(s1.session, None), verdict := Some(ValidationPassed(o)));
    FailKeeps(cfg, s, s1);
    FailKeeps(cfg, s, judged);
    if ValidationPassed(o) {
      PassKeeps(cfg, s, judged, o);
    } else if s.queue[0].retryCount < MaxRetries(cfg) {
      RetryKeeps(cfg, s, judged, o);
    }
  }

  lemma PassKeeps(cfg: Config, s: State, judged: State, o: Outcome)
    requires Inv(cfg, s) && Live(cfg, s) && s.queue[0].kind == ValidateOutput
    requires judged == Started(s).(verdict := Some(true))
    ensures var done := judged.(session := WithSessionStatus(cfg, judged.session, "completed"));
            Kept(cfg, s, Enqueue(Complete(done, Some(3)), CreatePR, 0, o.insertOk))
  {
    var done := judged.(session := WithSessionStatus(cfg, judged.session, "completed"));
    CompleteThenEnqueue(done, 3, CreatePR, 0, o.insertOk);
  }

  lemma RetryKeeps(cfg: Config, s: State, judged: State, o: Outcome)
    requires Inv(cfg, s) && Live(cfg, s) && s.queue[0].kind == ValidateOutput
    requires judged == Started(s).(verdict := Some(false)) && s.queue[0].retryCount < MaxRetries(cfg)
    ensures var counted := if o.retryWriteOk
                           then judged.(session := WithSessionResult(judged.session, Some(s.queue[0].retryCount + 1)))
                           else judged.(failedRetryWrites := judged.failedRetryWrites + 1);
            Kept(cfg, s, Enqueue(Complete(counted, Some(3)), RunAgent, 0, o.insertOk))
  {
    var counted := if o.retryWriteOk
                   then judged.(session := WithSessionResult(judged.session, Some(s.queue[0].retryCount + 1)))
                   else judged.(failedRetryWrites := judged.failedRetryWrites + 1);
    CompleteThenEnqueue(counted, 3, RunAgent, 0, o.insertOk);
  }

  lemma CreatePRKeeps(cfg: Config, s: State, o: Outcome)
    requires Inv(cfg, s) && Live(cfg, s) && s.queue[0].kind == CreatePR
    ensures Kept(cfg, s, CreatePRStep(Started(s), s.queue[0], o))
  {
    hide Fail;
    var s1 := Started(s);
    FailKeeps(cfg, s, s1);
    CompleteThenEnqueue(s1, 4, Notify, 0, o.insertOk);
  }

  lemma NotifyKeeps(cfg: Config, s: State, o: Outcome)
    requires Inv(cfg, s) && Live(cfg, s) && s.queue[0].kind == Notify
    ensures Kept(cfg, s, NotifyStep(Started(s), s.queue[0], o))
  {
    hide Fail;
    var s1 := Started(s);
    FailKeeps(cfg, s, s1);
    var c := Complete(s1, Some(5));
    assert forall i :: 0 <= i < 6 ==> c.tasks[i].status == TaskCompleted;
  }

  // ---------- every history ----------

  lemma {:induction false} AlwaysInv(cfg: Config, history: seq<Event>)
    requires Possible(cfg, history)
    ensures Inv(cfg, After(cfg, history))
    ensures |history| + Fuel(cfg, After(cfg, history))
            <= 2 * MaxRetries(cfg) + 6 + 2 * After(cfg, history).failedRetryWrites
    ensures 0 <= Fuel(cfg, After(cfg, history))
    decreases |history|
  {
    if history == [] {
      assert Live(cfg, Initial());
    } else {
      var before := history[..|history| - 1];
      AlwaysInv(cfg, before);
      var last := history[|history| - 1];
      StepKeepsInv(cfg, After(cfg, before), last.pick, last.outcome);
    }
  }

  /** Delivering a queued job makes a longer history. */
  lemma Delivered(cfg: Config, history: seq<Event>, e: Event)
    requires Possible(cfg, history) && e.pick < |After(cfg, history).queue|
    ensures Possible(cfg, history + [e])
    ensures After(cfg, history + [e]) == Step(cfg, After(cfg, history), e.pick, e.outcome)
  {
    assert (history + [e])[..|history|] == history;
  }

  /** The two counters of refused writes and lost jobs move only when the world says no. */
  lemma StepCounts(cfg: Config, s: State, pick: nat, o: Outcome)
    requires pick < |s.queue|
    ensures var t := Step(cfg, s, pick, o);
            && s.failedRetryWrites <= t.failedRetryWrites <= s.failedRetryWrites + (if o.retryWriteOk then 0 else 1)
            && s.lostInserts <= t.lostInserts <= s.lostInserts + (if o.insertOk then 0 else 1)
  {
  }

  /** Exactly one job is live until the run is over. */
  lemma OneLiveJob(cfg: Config, history: seq<Event>)
    requires Possible(cfg, history)
    ensures var s := After(cfg, history);
            if s.run == RunPending && s.lostInserts == 0 then |s.queue| == 1 else s.queue == []
  {
    AlwaysInv(cfg, history);
  }

  /** run_agent starts at most once more than the configured retries, plus once for every retry counter
      write that the store refused; the stored counter never passes the session's limit. */
  lemma AgentStartsBounded(cfg: Config, history: seq<Event>)
    requires Possible(cfg, history)
    ensures var s := After(cfg, history);
            && AgentStarts(s) <= NormalizeMaxRetries(cfg.sandboxMaxRetries) + 1 + s.failedRetryWrites
            && (s.session.Some? ==> 0 <= s.session.value.retryCount <= s.session.value.maxRetries)
  {
    AlwaysInv(cfg, history);
  }

  /** A pull request job is only ever live after the validation of the latest agent execution passed. */
  lemma CreatePROnlyAfterPass(cfg: Config, history: seq<Event>, job: Job)
    requires Possible(cfg, history) && job in After(cfg, history).queue
    requires job.kind == CreatePR || job.kind == Notify
    ensures After(cfg, history).verdict == Some(true)
  {
    AlwaysInv(cfg, history);
    LiveAfterPass(cfg, After(cfg, history), job);
  }

  lemma LiveAfterPass(cfg: Config, s: State, job: Job)
    requires Inv(cfg, s) && job in s.queue && (job.kind == CreatePR || job.kind == Notify)
    ensures s.verdict == Some(true)
  {
    assert Live(cfg, s) && job == s.queue[0];
  }

  /** No history is longer than this, so every run reaches an empty queue. */
  lemma HistoryBounded(cfg: Config, history: seq<Event>)
    requires Possible(cfg, history)
    ensures |history| <= 2 * NormalizeMaxRetries(cfg.sandboxMaxRetries) + 6 + 2 * After(cfg, history).failedRetryWrites
  {
    AlwaysInv(cfg, history);
  }

  /** Whatever the world answers, a history whose queue is not empty goes on. */
  lemma GoesOn(cfg: Config, history: seq<Event>, o: Outcome)
    requires Possible(cfg, history) && After(cfg, history).queue != []
    ensures Possible(cfg, history + [Event(0, o)])
  {
    Delivered(cfg, history, Event(0, o));
  }

  /** How a run whose queue is empty has ended. */
  ghost predicate Ended(cfg: Config, s: State) {
    && s.queue == []
    && (s.run == RunCompleted <==> AllCompleted(s.tasks))
    && (s.run == RunFailed <==> OneFailed(s.tasks))
    && (s.run == RunFailed <==> AnyFailed(s.tasks))
    && (s.run == RunCompleted || s.run == RunFailed <==> s.lostInserts == 0)
    && (s.lostInserts != 0 ==> s.run == RunPending && s.lostInserts == 1)
  }

  /** How a run ends: completed with six completed tasks, or failed with exactly one failed task -- and this
      if and only if every next job could be queued.  Otherwise it stays pending for good. */
  lemma EndStates(cfg: Config, history: seq<Event>)
    requires Possible(cfg, history) && After(cfg, history).queue == []
    ensures Ended(cfg, After(cfg, history))
  {
    AlwaysInv(cfg, history);
    var s := After(cfg, history);
    if AnyFailed(s.tasks) {
      assert !AllCompleted(s.tasks);
    }
    assert OneFailed(s.tasks) ==> AnyFailed(s.tasks);
  }

  /** The statuses that migrations/000017_agent_codegen.up.sql admits; "provisioned" is not one of them. */
  const MIGRATION_STATUSES: set<string> :=
    {"pending", "provisioning", "running", "validating", "completed", "failed", "cancelled", "timed_out"}

  /** Under that schema the session row can never be created, so no agent ever runs and every run whose jobs
      could all be queued ends failed. */
  lemma NoAgentUnderMigratedSchema(cfg: Config, history: seq<Event>)
    requires Possible(cfg, history) && cfg.sessionStatuses == MIGRATION_STATUSES
    ensures var s := After(cfg, history);
            AgentStarts(s) == 0 && s.session.None? && s.run != RunCompleted
            && (s.queue == [] && s.lostInserts == 0 ==> s.run == RunFailed)
  {
    AlwaysInv(cfg, history);
    SchemaRefuses(cfg, After(cfg, history));
  }

  lemma SchemaRefuses(cfg: Config, s: State)
    requires Inv(cfg, s) && cfg.sessionStatuses == MIGRATION_STATUSES
    ensures AgentStarts(s) == 0 && s.session.None? && s.run != RunCompleted
    ensures s.queue == [] && s.lostInserts == 0 ==> s.run == RunFailed
  {
    assert "provisioned" !in MIGRATION_STATUSES;
  }

  // ---------- the bound is attained ----------

  const FINE: Outcome := Outcome(true, true, true, true, [Exited(1)], true, true)

  /** run_agent is the live job, with these counters. */
  ghost predicate AtAgent(cfg: Config, s: State, retries: nat, failedWrites: nat) {
    && Inv(cfg, s) && Live(cfg, s) && s.queue[0].kind == RunAgent
    && s.session.value.retryCount == retries && s.failedRetryWrites == failedWrites
  }

  lemma AgentThenValidate(cfg: Config, s: State, retries: nat, failedWrites: nat)
    requires AtAgent(cfg, s, retries, failedWrites)
    ensures var t := Step(cfg, s, 0, FINE);
            && Inv(cfg, t) && Live(cfg, t) && t.queue[0].kind == ValidateOutput && t.queue[0].retryCount == retries
            && t.session.value.retryCount == retries && t.failedRetryWrites == failedWrites
            && AgentStarts(t) == retries + failedWrites + 1
  {
    StepKeepsInv(cfg, s, 0, FINE);
    assert s.queue[..0] + s.queue[1..] == [];
    TaskIDAtAny();
  }

  lemma ValidateThenAgent(cfg: Config, s: State, retries: nat, failedWrites: nat, writeOk: bool)
    requires Inv(cfg, s) && Live(cfg, s) && s.queue[0].kind == ValidateOutput && s.queue[0].retryCount == retries
    requires retries < MaxRetries(cfg) && s.failedRetryWrites == failedWrites
    ensures AtAgent(cfg, Step(cfg, s, 0, FINE.(retryWriteOk := writeOk)),
                    if writeOk then retries + 1 else retries, if writeOk then failedWrites else failedWrites + 1)
  {
    var o := FINE.(retryWriteOk := writeOk);
    StepKeepsInv(cfg, s, 0, o);
    assert s.queue[..0] + s.queue[1..] == [];
    assert o.checks[0] == Exited(1);
    assert !ValidationPassed(o);
  }

  lemma TaskIDAtAny()
    ensures forall tasks: seq<Task>, name :: Named(tasks) ==> TaskIDByName(tasks, name) == Some(Stage(name))
  {
    forall tasks: seq<Task>, name | Named(tasks) { TaskIDAt(tasks, name); }
  }

  lemma Extend(cfg: Config, history: seq<Event>, o: Outcome) returns (longer: seq<Event>)
    requires Possible(cfg, history) && |After(cfg, history).queue| > 0
    ensures Possible(cfg, longer) && history <= longer && After(cfg, longer) == Step(cfg, After(cfg, history), 0, o)
  {
    longer := history + [Event(0, o)];
    Delivered(cfg, history, Event(0, o));
  }

  lemma {:induction false} ReachAgent(cfg: Config, retries: nat, failedWrites: nat) returns (history: seq<Event>)
    requires "provisioned" in cfg.sessionStatuses && retries <= MaxRetries(cfg)
    ensures Possible(cfg, history) && AtAgent(cfg, After(cfg, history), retries, failedWrites)
    decreases retries + failedWrites
  {
    if retries + failedWrites == 0 {
      history := Extend(cfg, [], FINE);
      AlwaysInv(cfg, history);
      history := Extend(cfg, history, FINE);
      AlwaysInv(cfg, history);
    } else {
      var writeOk := retries > 0;
      var r, f := if writeOk then retries - 1 else 0, if writeOk then failedWrites else failedWrites - 1;
      history := ReachAgent(cfg, r, f);
      AgentThenValidate(cfg, After(cfg, history), r, f);
      history := Extend(cfg, history, FINE);
      ValidateThenAgent(cfg, After(cfg, history), r, f, writeOk);
      history := Extend(cfg, history, FINE.(retryWriteOk := writeOk));
    }
  }

  /** The bound on agent starts is met exactly, for every number of refused retry writes -- so without the
      assumption that these writes succeed, no bound on agent executions holds at all. */
  lemma AgentStartsBoundAttained(cfg: Config, failedWrites: nat)
    requires "provisioned" in cfg.sessionStatuses
    ensures exists history :: Possible(cfg, history)
              && After(cfg, history).failedRetryWrites == failedWrites
              && AgentStarts(After(cfg, history)) == NormalizeMaxRetries(cfg.sandboxMaxRetries) + 1 + failedWrites
  {
    var history := ReachAgent(cfg, MaxRetries(cfg), failedWrites);
    AgentThenValidate(cfg, After(cfg, history), MaxRetries(cfg), failedWrites);
    var longer := Extend(cfg, history, FINE);
  }

  // ---------- a run that nothing disturbs ----------

  const PASS: Outcome := Outcome(true, true, true, true, [Exited(0), ExecError], true, true)

  /** With good answers the live job hands over to the next stage, and the last one completes the run. */
  lemma PassAdvances(cfg: Config, s: State)
    requires Inv(cfg, s) && Live(cfg, s) && "provisioned" in cfg.sessionStatuses
    ensures var t := Step(cfg, s, 0, PASS);
            && Inv(cfg, t)
            && if s.queue[0].kind == Notify then Succeeded(t)
               else Live(cfg, t) && Stage(t.queue[0].kind) == Stage(s.queue[0].kind) + 1
  {
    hide Fail, Fuel, CountersBounded, TaskIDByName;
    StepKeepsInv(cfg, s, 0, PASS);
    assert s.queue[..0] + s.queue[1..] == [];
    assert ValidationPassed(PASS);
  }

  /** From every live state there is a continuation that completes the run. */
  lemma {:induction false} CanComplete(cfg: Config, history: seq<Event>) returns (longer: seq<Event>)
    requires Possible(cfg, history) && "provisioned" in cfg.sessionStatuses
    requires After(cfg, history).queue != []
    ensures Possible(cfg, longer) && history <= longer && Succeeded(After(cfg, longer))
    decreases 6 - (if |After(cfg, history).queue| > 0 then Stage(After(cfg, history).queue[0].kind) else 6)
  {
    AlwaysInv(cfg, history);
    PassAdvances(cfg, After(cfg, history));
    longer := Extend(cfg, history, PASS);
    if !Succeeded(After(cfg, longer)) {
      longer := CanComplete(cfg, longer);
    }
  }

  /** Some history completes the run if and only if the schema admits the status that new sessions get. */
  lemma CompletesIff(cfg: Config)
    ensures (exists history :: Possible(cfg, history) && After(cfg, history).run == RunCompleted)
            <==> "provisioned" in cfg.sessionStatuses
  {
    if "provisioned" in cfg.sessionStatuses {
      var history := CanComplete(cfg, []);
      assert After(cfg, history).run == RunCompleted;
    }
    if history :| Possible(cfg, history) && After(cfg, history).run == RunCompleted {
      AlwaysInv(cfg, history);
    }
  }
}
