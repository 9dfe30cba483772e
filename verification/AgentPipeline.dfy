/**
 The agent code generation pipeline: six tasks, one job queue, one sandbox session with a retry
 counter, and a run status derived from the task statuses.  `Step` says what one job does to the
 rows of a run; class `RunStore` carries out the same work statement by statement; the lemmas speak
 about every finite history of jobs.
 */
module AgentPipeline {
  import opened Options

  datatype TaskName = PrepareContext | ProvisionSandbox | RunAgent | ValidateOutput | CreatePR | Notify
  datatype TaskStatus = TaskPending | TaskRunning | TaskCompleted | TaskFailed
  datatype RunStatus = RunPending | RunRunning | RunCompleted | RunFailed

  datatype Task = Task(name: TaskName, status: TaskStatus, attempt: nat)
  datatype Session = Session(status: string, retryCount: int, maxRetries: int)

  /** A queued job.  `retryCount` is an argument of validate_output jobs only (0 elsewhere). */
  datatype Job = Job(kind: TaskName, taskID: Option<nat>, retryCount: int)

  /** SANDBOX_MAX_RETRIES, and the session statuses that the database's CHECK constraint admits. */
  datatype Config = Config(sandboxMaxRetries: int, sessionStatuses: set<string>)

  /** What one validation command did: it could not be run at all, or it exited with a code. */
  datatype Check = ExecError | Exited(code: int)

  /** What the world answers while one job runs.
      - `ok`: every read and external call whose error makes the job fail its task succeeded
      - `providerFound`, `commandOk`: the agent provider is registered and could build its command (run_agent)
      - `canValidate`, `checks`: a sandbox is there, and what its validation commands did
      - `retryWriteOk`: the write of the incremented retry counter succeeded
      - `insertOk`: a queue client exists and accepted the next job */
  datatype Outcome = Outcome(ok: bool, providerFound: bool, commandOk: bool, canValidate: bool, checks: seq<Check>,
                             retryWriteOk: bool, insertOk: bool)

  /** The rows of one run and its queued jobs.  The last three fields are bookkeeping about the history:
      retry writes and job inserts that failed, and the verdict of the validation that followed the latest
      agent execution. */
  datatype State = State(tasks: seq<Task>, run: RunStatus, session: Option<Session>, queue: seq<Job>,
                         failedRetryWrites: nat, lostInserts: nat, verdict: Option<bool>)

  const TASK_NAMES: seq<TaskName> := [PrepareContext, ProvisionSandbox, RunAgent, ValidateOutput, CreatePR, Notify]

  function NormalizeMaxRetries(v: int): (r: int)
    ensures 1 <= r && v <= r && (r == v || r == 1)
  {
    if v <= 0 then 1 else v
  }

  // ---------- store rules ----------

  /** UPDATE ... WHERE id = taskID: no row changes for a missing task. */
  function WithStatus(tasks: seq<Task>, id: Option<nat>, status: TaskStatus): seq<Task> {
    if id.Some? && id.value < |tasks| then
      var t := tasks[id.value];
      tasks[id.value := Task(t.name, status, if status == TaskRunning then t.attempt + 1 else t.attempt)]
    else
      tasks
  }

  /** The session status write, which the CHECK constraint may refuse. */
  function WithSessionStatus(cfg: Config, session: Option<Session>, status: string): Option<Session> {
    if session.Some? && status in cfg.sessionStatuses then Some(session.value.(status := status)) else session
  }

  /** The session result write: retry_count = COALESCE(new, retry_count). */
  function WithSessionResult(session: Option<Session>, retryCount: Option<int>): Option<Session> {
    if session.Some? && retryCount.Some? then Some(session.value.(retryCount := retryCount.value)) else session
  }

  predicate AnyFailed(tasks: seq<Task>) { exists i :: 0 <= i < |tasks| && tasks[i].status == TaskFailed }

  predicate AllCompleted(tasks: seq<Task>) { forall i :: 0 <= i < |tasks| ==> tasks[i].status == TaskCompleted }

  function DerivedStatus(tasks: seq<Task>, current: RunStatus): RunStatus {
    if AnyFailed(tasks) then RunFailed else if AllCompleted(tasks) then RunCompleted else current
  }

  /** The first task with this name, if any. */
  function TaskIDByName(tasks: seq<Task>, name: TaskName): (r: Option<nat>)
    ensures r.Some? ==> r.value < |tasks| && tasks[r.value].name == name
    ensures r.Some? ==> forall i :: 0 <= i < r.value ==> tasks[i].name != name
    ensures r.None? ==> forall i :: 0 <= i < |tasks| ==> tasks[i].name != name
  {
    if tasks == [] then None
    else if tasks[0].name == name then Some(0)
    else
      var rest := TaskIDByName(tasks[1..], name);
      assert forall i :: 0 < i < |tasks| ==> tasks[i] == tasks[1..][i - 1];
      if rest.Some? then Some(rest.value + 1) else None
  }

  // ---------- one job ----------

  function Start(s: State, id: Option<nat>): State { s.(tasks := WithStatus(s.tasks, id, TaskRunning)) }

  function Complete(s: State, id: Option<nat>): State { s.(tasks := WithStatus(s.tasks, id, TaskCompleted)) }

  function CheckCompletion(s: State): State { s.(run := DerivedStatus(s.tasks, s.run)) }

  function Fail(s: State, id: Option<nat>): State { CheckCompletion(s.(tasks := WithStatus(s.tasks, id, TaskFailed))) }

  function Enqueue(s: State, name: TaskName, retryCount: int, insertOk: bool): State {
    if insertOk then s.(queue := s.queue + [Job(name, TaskIDByName(s.tasks, name), retryCount)])
    else s.(lostInserts := s.lostInserts + 1)
  }

  function PrepareContextStep(s: State, job: Job, o: Outcome): State {
    if !o.ok then Fail(s, job.taskID)
    else Enqueue(Complete(s, job.taskID), ProvisionSandbox, 0, o.insertOk)
  }

  function ProvisionSandboxStep(cfg: Config, s: State, job: Job, o: Outcome): State {
    if !o.ok || "provisioned" !in cfg.sessionStatuses then Fail(s, job.taskID)
    else
      var created := s.(session := Some(Session("provisioned", 0, NormalizeMaxRetries(cfg.sandboxMaxRetries))));
      Enqueue(Complete(created, job.taskID), RunAgent, 0, o.insertOk)
  }

  function RunAgentStep(cfg: Config, s: State, job: Job, o: Outcome): State {
    if !o.ok || s.session.None? then Fail(s, job.taskID)
    else
      var retryCount := s.session.value.retryCount;
      var running := s.(session := WithSessionStatus(cfg, s.session, "running"));
      if !o.providerFound then Fail(running, job.taskID)
      else if !o.commandOk then
        Fail(running.(session := WithSessionStatus(cfg, running.session, "failed")), job.taskID)
      else
        var logged := running.(session := WithSessionResult(running.session, None), verdict := None);
        var validating := logged.(session := WithSessionStatus(cfg, logged.session, "validating"));
        Enqueue(Complete(validating, job.taskID), ValidateOutput, retryCount, o.insertOk)
  }

  /** A command that cannot be run is skipped; only a non-zero exit code fails validation. */
  predicate ValidationPassed(o: Outcome) {
    o.canValidate ==> forall i :: 0 <= i < |o.checks| ==> o.checks[i] != ExecError ==> o.checks[i] == Exited(0)
  }

  function ValidateOutputStep(cfg: Config, s: State, job: Job, o: Outcome): State {
    if !o.ok || s.session.None? then Fail(s, job.taskID)
    else
      var judged := s.(session := WithSessionResult(s.session, None), verdict := Some(ValidationPassed(o)));
      if ValidationPassed(o) then
        var done := judged.(session := WithSessionStatus(cfg, judged.session, "completed"));
        Enqueue(Complete(done, job.taskID), CreatePR, 0, o.insertOk)
      else if job.retryCount < NormalizeMaxRetries(cfg.sandboxMaxRetries) then
        var counted := if o.retryWriteOk
                       then judged.(session := WithSessionResult(judged.session, Some(job.retryCount + 1)))
                       else judged.(failedRetryWrites := judged.failedRetryWrites + 1);
        Enqueue(Complete(counted, job.taskID), RunAgent, 0, o.insertOk)
      else
        Fail(judged, job.taskID)
  }

  function CreatePRStep(s: State, job: Job, o: Outcome): State {
    if !o.ok then Fail(s, job.taskID)
    else Enqueue(Complete(s, job.taskID), Notify, 0, o.insertOk)
  }

  function NotifyStep(s: State, job: Job, o: Outcome): State {
    if !o.ok then Fail(s, job.taskID) else CheckCompletion(Complete(s, job.taskID))
  }

  /** Job number `pick` of the queue is delivered, once, and runs to its end. */
  function Step(cfg: Config, s: State, pick: nat, o: Outcome): State
    requires pick < |s.queue|
  {
    var job := s.queue[pick];
    var s1 := Start(s.(queue := s.queue[..pick] + s.queue[pick + 1..]), job.taskID);
    match job.kind
    case PrepareContext => PrepareContextStep(s1, job, o)
    case ProvisionSandbox => ProvisionSandboxStep(cfg, s1, job, o)
    case RunAgent => RunAgentStep(cfg, s1, job, o)
    case ValidateOutput => ValidateOutputStep(cfg, s1, job, o)
    case CreatePR => CreatePRStep(s1, job, o)
    case Notify => NotifyStep(s1, job, o)
  }

  /** The rows that creating a run leaves: six pending tasks in order and one prepare_context job. */
  function Initial(): State {
    State(seq(|TASK_NAMES|, i requires 0 <= i < |TASK_NAMES| => Task(TASK_NAMES[i], TaskPending, 0)),
          RunPending, None, [Job(PrepareContext, Some(0), 0)], 0, 0, None)
  }
}
