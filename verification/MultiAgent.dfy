/**
 `MultiAgentCoordinator.RunAll` as an interleaving of its goroutines -- one per registered provider slot, a
 channel of `MaxParallel` tokens, and in the race strategy a cancellation raised by the first success -- and
 the choice among the collected runs.
 */
module MultiAgent {
  import opened Options
  import opened Counting
  import opened Sorting

  /** Durations are nanoseconds and may be anything a provider reports. */
  datatype ExecutionResult = ExecutionResult(success: bool, fileChanges: nat, exitCode: int, duration: int)

  datatype AgentRun = AgentRun(provider: string, result: Option<ExecutionResult>, hasError: bool,
                               completedAt: int, score: real)

  const RACE := "race"
  const BEST_OF := "best_of"
  const CONSENSUS := "consensus"

  datatype Config = Config(strategy: string, providers: seq<string>, maxParallel: int)

  function NormalizeConfig(c: Config): (r: Config)
    ensures r.maxParallel >= 1 && r.strategy != "" && r.providers == c.providers
    ensures r.strategy == c.strategy || (c.strategy == "" && r.strategy == RACE)
    ensures c.maxParallel >= 1 ==> r.maxParallel == c.maxParallel
    ensures c.maxParallel <= 0 ==> r.maxParallel == |c.providers| || (|c.providers| == 0 && r.maxParallel == 3)
  {
    var m1 := if c.maxParallel <= 0 then |c.providers| else c.maxParallel;
    var m2 := if m1 <= 0 then 3 else m1;
    Config(if c.strategy == "" then RACE else c.strategy, c.providers, m2)
  }

  const MINUTE: int := 60_000_000_000

  predicate Succeeded(r: AgentRun) { !r.hasError && r.result.Some? && r.result.value.success }

  // ---------- scores ----------

  function SpeedPoints(duration: int): real {
    if 0 < duration < 5 * MINUTE then 15.0 else if duration < 10 * MINUTE then 10.0 else 0.0
  }

  /** The score as a sum of independent criteria. */
  function Score(r: ExecutionResult): real {
    if !r.success then 0.0
    else
      50.0 + (if r.fileChanges > 0 then 20.0 else 0.0) + (if r.exitCode == 0 then 15.0 else 0.0)
      + SpeedPoints(r.duration)
  }

  method ScoreResult(r: Option<ExecutionResult>) returns (score: real)
    ensures score == if r.None? then 0.0 else Score(r.value)
    ensures 0.0 <= score <= 100.0
    ensures score >= 50.0 <==> r.Some? && r.value.success
  {
    if r.None? || !r.value.success {
      return 0.0;
    }
    score := 50.0;
    if r.value.fileChanges > 0 {
      score := score + 20.0;
    }
    if r.value.exitCode == 0 {
      score := score + 15.0;
    }
    if r.value.duration > 0 && r.value.duration < 5 * MINUTE {
      score := score + 15.0;
    } else if r.value.duration < 10 * MINUTE {
      score := score + 10.0;
    }
  }

  /** Every success outscores every failure, and a perfect score says everything about a run. */
  lemma ScoreMeaning(a: ExecutionResult, b: ExecutionResult)
    ensures a.success && !b.success ==> Score(a) > Score(b)
    ensures Score(a) == 100.0 <==> a.success && a.fileChanges > 0 && a.exitCode == 0 && 0 < a.duration < 5 * MINUTE
  {
  }

  // ---------- the interleaving ----------

  datatype PC =
    | Skipped
    | Waiting
    | Running
    | Returned(run: AgentRun)
    | Appended(run: AgentRun)
    | Releasing(run: AgentRun)
    | Finished(run: AgentRun)
    | Left

  datatype Entry = Entry(slot: nat, run: AgentRun)

  /** `expired`: the caller's context or the selection timeout ended; `won`: a race success cancelled the rest. */
  datatype State = State(slots: seq<PC>, held: nat, expired: bool, won: bool, runs: seq<Entry>)

  datatype Label =
    | Expire
    | Acquire(w: nat)
    | Leave(w: nat)
    | Return(w: nat, result: Option<ExecutionResult>, hasError: bool, completedAt: int)
    | Append(w: nat)
    | Signal(w: nat)
    | Release(w: nat)

  function Initial(c: Config, registered: set<string>): State {
    State(seq(|c.providers|, i requires 0 <= i < |c.providers| =>
            if c.providers[i] in registered then Waiting else Skipped),
          0, false, false, [])
  }

  predicate Enabled(c: Config, s: State, l: Label) {
    match l
    case Expire => !s.expired
    case Acquire(w) => w < |s.slots| && s.slots[w] == Waiting && s.held < c.maxParallel
    case Leave(w) => w < |s.slots| && s.slots[w] == Waiting && (s.expired || s.won)
    case Return(w, _, _, _) => w < |s.slots| && s.slots[w] == Running
    case Append(w) => w < |s.slots| && s.slots[w].Returned?
    case Signal(w) => w < |s.slots| && s.slots[w].Appended?
    case Release(w) => w < |s.slots| && s.slots[w].Releasing? && s.held > 0
  }

  function RunOf(provider: string, result: Option<ExecutionResult>, hasError: bool, completedAt: int): AgentRun {
    AgentRun(provider, result, hasError, completedAt, if result.Some? then Score(result.value) else 0.0)
  }

  function Next(c: Config, s: State, l: Label): State
    requires |s.slots| == |c.providers| && Enabled(c, s, l)
  {
    match l
    case Expire => s.(expired := true)
    case Acquire(w) => s.(slots := s.slots[w := Running], held := s.held + 1)
    case Leave(w) => s.(slots := s.slots[w := Left])
    case Return(w, result, hasError, completedAt) =>
      s.(slots := s.slots[w := Returned(RunOf(c.providers[w], result, hasError, completedAt))])
    case Append(w) =>
      s.(slots := s.slots[w := Appended(s.slots[w].run)], runs := s.runs + [Entry(w, s.slots[w].run)])
    case Signal(w) =>
      s.(slots := s.slots[w := Releasing(s.slots[w].run)],
         won := s.won || (c.strategy == RACE && Succeeded(s.slots[w].run)))
    case Release(w) => s.(slots := s.slots[w := Finished(s.slots[w].run)], held := s.held - 1)
  }

  predicate HoldsToken(pc: PC) { pc.Running? || pc.Returned? || pc.Appended? || pc.Releasing? }

  predicate IsRunning(pc: PC) { pc.Running? }

  predicate HasEntry(pc: PC) { pc.Appended? || pc.Releasing? || pc.Finished? }

  predicate HasLeft(pc: PC) { pc.Left? }

  predicate IsSkipped(pc: PC) { pc.Skipped? }

  predicate Over(s: State) {
    forall w :: 0 <= w < |s.slots| ==> s.slots[w].Finished? || s.slots[w].Left? || s.slots[w].Skipped?
  }

  ghost predicate RunsTracked(c: Config, s: State)
    requires |s.slots| == |c.providers|
  {
    && (forall i, j :: 0 <= i < j < |s.runs| ==> s.runs[i].slot != s.runs[j].slot)
    && (forall i :: 0 <= i < |s.runs| ==>
          var e := s.runs[i];
          && e.slot < |s.slots| && HasEntry(s.slots[e.slot]) && s.slots[e.slot].run == e.run
          && e.run.provider == c.providers[e.slot])
    && (forall w :: 0 <= w < |s.slots| && HasEntry(s.slots[w]) ==> HasRun(s.runs, w))
    && |s.runs| == Count(s.slots, HasEntry)
  }

  ghost predicate HasRun(runs: seq<Entry>, w: nat) { exists i :: 0 <= i < |runs| && runs[i].slot == w }

  ghost predicate SlotsTracked(c: Config, registered: set<string>, s: State)
    requires |s.slots| == |c.providers|
  {
    forall w :: 0 <= w < |s.slots| ==>
      && (s.slots[w].Skipped? <==> c.providers[w] !in registered)
      && (s.slots[w].Returned? ==> s.slots[w].run.provider == c.providers[w])
      && (s.slots[w].Left? ==> s.expired || s.won)
  }

  /** A race is won only by a success that is among the runs. */
  ghost predicate WonBySuccess(c: Config, s: State) {
    s.won ==> c.strategy == RACE && exists i :: 0 <= i < |s.runs| && Succeeded(s.runs[i].run)
  }

  ghost predicate Inv(c: Config, registered: set<string>, s: State) {
    && |s.slots| == |c.providers|
    && s.held == Count(s.slots, HoldsToken) <= c.maxParallel
    && RunsTracked(c, s)
    && SlotsTracked(c, registered, s)
    && WonBySuccess(c, s)
  }

  function Rank(pc: PC): nat {
    match pc
    case Skipped => 0
    case Waiting => 5
    case Running => 4
    case Returned(_) => 3
    case Appended(_) => 2
    case Releasing(_) => 1
    case Finished(_) => 0
    case Left => 0
  }

  function Fuel(s: State): nat { Sum(s.slots, Rank) + if s.expired then 0 else 1 }

  lemma StepKeepsRuns(c: Config, registered: set<string>, s: State, l: Label)
    requires Inv(c, registered, s) && Enabled(c, s, l)
    ensures RunsTracked(c, Next(c, s, l))
  {
    if l.Append? {
      AppendKeepsRuns(c, registered, s, l.w);
    } else if l != Expire {
      MoveKeepsRuns(c, s, l.w, Next(c, s, l));
    }
  }

  /** A step that appends nothing and neither gives a slot its entry nor takes it away. */
  lemma MoveKeepsRuns(c: Config, s: State, w: nat, t: State)
    requires |s.slots| == |c.providers| && w < |s.slots| && RunsTracked(c, s)
    requires t.runs == s.runs && |t.slots| == |s.slots| && t.slots == s.slots[w := t.slots[w]]
    requires HasEntry(t.slots[w]) == HasEntry(s.slots[w]) && (HasEntry(s.slots[w]) ==> t.slots[w].run == s.slots[w].run)
    ensures RunsTracked(c, t)
  {
    CountUpdate(s.slots, HasEntry, w, t.slots[w]);
    forall v | 0 <= v < |s.slots| && HasEntry(t.slots[v]) ensures HasRun(t.runs, v) {
      assert HasEntry(s.slots[v]) && HasRun(s.runs, v);
    }
  }

  lemma AppendKeepsRuns(c: Config, registered: set<string>, s: State, w: nat)
    requires Inv(c, registered, s) && Enabled(c, s, Append(w))
    ensures RunsTracked(c, Next(c, s, Append(w)))
  {
    var t := Next(c, s, Append(w));
    CountUpdate(s.slots, HasEntry, w, t.slots[w]);
    forall i | 0 <= i < |s.runs|
      ensures var e := s.runs[i]; e.slot != w && t.slots[e.slot] == s.slots[e.slot]
    {
      assert HasEntry(s.slots[s.runs[i].slot]);
    }
    forall v | 0 <= v < |s.slots| && HasEntry(t.slots[v]) ensures HasRun(t.runs, v) {
      assert v != w ==> HasEntry(s.slots[v]) && HasRun(s.runs, v);
      HasRunSnoc(s.runs, Entry(w, s.slots[w].run), v);
    }
  }

  lemma HasRunSnoc(runs: seq<Entry>, e: Entry, v: nat)
    requires HasRun(runs, v) || e.slot == v
    ensures HasRun(runs + [e], v)
  {
    if HasRun(runs, v) {
      var i :| 0 <= i < |runs| && runs[i].slot == v;
      assert (runs + [e])[i].slot == v;
    } else {
      assert (runs + [e])[|runs|].slot == v;
    }
  }

  lemma StepKeepsWon(c: Config, registered: set<string>, s: State, l: Label)
    requires Inv(c, registered, s) && Enabled(c, s, l)
    ensures WonBySuccess(c, Next(c, s, l))
  {
    var t := Next(c, s, l);
    assert s.runs <= t.runs;
    if s.won {
      var i :| 0 <= i < |s.runs| && Succeeded(s.runs[i].run);
      assert t.runs[i] == s.runs[i];
    } else if t.won {
      assert HasRun(s.runs, l.w);
      var i :| 0 <= i < |s.runs| && s.runs[i].slot == l.w;
      assert t.runs[i] == s.runs[i];
    }
  }

  lemma StepKeepsHeld(c: Config, s: State, l: Label)
    requires |s.slots| == |c.providers| && Enabled(c, s, l) && s.held == Count(s.slots, HoldsToken) <= c.maxParallel
    ensures Next(c, s, l).held == Count(Next(c, s, l).slots, HoldsToken) <= c.maxParallel
  {
    if l != Expire {
      CountUpdate(s.slots, HoldsToken, l.w, Next(c, s, l).slots[l.w]);
    }
  }

  lemma StepSpendsFuel(c: Config, s: State, l: Label)
    requires |s.slots| == |c.providers| && Enabled(c, s, l)
    ensures Fuel(Next(c, s, l)) < Fuel(s)
  {
    if l != Expire {
      SumUpdate(s.slots, Rank, l.w, Next(c, s, l).slots[l.w]);
    }
  }

  lemma StepKeepsSlots(c: Config, registered: set<string>, s: State, l: Label)
    requires |s.slots| == |c.providers| && SlotsTracked(c, registered, s) && Enabled(c, s, l)
    ensures SlotsTracked(c, registered, Next(c, s, l))
  {
  }

  lemma StepKeepsInv(c: Config, registered: set<string>, s: State, l: Label)
    requires Inv(c, registered, s) && Enabled(c, s, l)
    ensures Inv(c, registered, Next(c, s, l))
    ensures Fuel(Next(c, s, l)) < Fuel(s)
  {
    StepKeepsRuns(c, registered, s, l);
    StepKeepsWon(c, registered, s, l);
    StepKeepsHeld(c, s, l);
    StepKeepsSlots(c, registered, s, l);
    StepSpendsFuel(c, s, l);
  }

  // ---------- every interleaving ----------

  ghost predicate Possible(c: Config, registered: set<string>, history: seq<Label>)
    decreases |history|, 0
  {
    history != [] ==>
      var before := history[..|history| - 1];
      Possible(c, registered, before)
      && |After(c, registered, before).slots| == |c.providers|
      && Enabled(c, After(c, registered, before), history[|history| - 1])
  }

  ghost function After(c: Config, registered: set<string>, history: seq<Label>): State
    requires Possible(c, registered, history)
    decreases |history|, 1
  {
    if history == [] then Initial(c, registered)
    else Next(c, After(c, registered, history[..|history| - 1]), history[|history| - 1])
  }

  lemma {:induction false} AlwaysInv(c: Config, registered: set<string>, history: seq<Label>)
    requires c.maxParallel >= 1 && Possible(c, registered, history)
    ensures Inv(c, registered, After(c, registered, history))
    ensures |history| + Fuel(After(c, registered, history)) <= 5 * |c.providers| + 1
    decreases |history|
  {
    if history == [] {
      var s := Initial(c, registered);
      CountZero(s.slots, HoldsToken);
      CountZero(s.slots, HasEntry);
      SumBound(s.slots, Rank, 5);
    } else {
      var before := history[..|history| - 1];
      AlwaysInv(c, registered, before);
      StepKeepsInv(c, registered, After(c, registered, before), history[|history| - 1]);
    }
  }

  /** At most `MaxParallel` agents run at once, and no interleaving is longer than five steps per provider. */
  lemma ParallelismBounded(config: Config, registered: set<string>, history: seq<Label>)
    requires Possible(NormalizeConfig(config), registered, history)
    ensures var c := NormalizeConfig(config);
            Count(After(c, registered, history).slots, IsRunning) <= c.maxParallel && |history| <= 5 * |c.providers| + 1
  {
    var c := NormalizeConfig(config);
    AlwaysInv(c, registered, history);
    CountSub(After(c, registered, history).slots, IsRunning, HoldsToken);
  }

  /** When `RunAll` returns: at most one run per slot, each under its slot's provider name, and a slot without a
      run is an unregistered provider or a worker that left on cancellation. */
  lemma RunsAccounted(config: Config, registered: set<string>, history: seq<Label>)
    requires Possible(NormalizeConfig(config), registered, history)
    requires Over(After(NormalizeConfig(config), registered, history))
    ensures var s := After(NormalizeConfig(config), registered, history);
            && |s.slots| == |config.providers|
            && |s.runs| + Count(s.slots, HasLeft) + Count(s.slots, IsSkipped) == |config.providers|
            && (forall i, j :: 0 <= i < j < |s.runs| ==> s.runs[i].slot != s.runs[j].slot)
            && (forall e :: e in s.runs ==> e.slot < |s.slots| && s.slots[e.slot] == Finished(e.run)
                                            && e.run.provider == config.providers[e.slot]
                                            && e.run.provider in registered)
  {
    var c := NormalizeConfig(config);
    AlwaysInv(c, registered, history);
    var s := After(c, registered, history);
    CountThreeWays(s.slots, HasEntry, HasLeft, IsSkipped);
    forall e | e in s.runs
      ensures e.slot < |s.slots| && s.slots[e.slot] == Finished(e.run)
              && e.run.provider == c.providers[e.slot] && e.run.provider in registered
    {
      var i :| 0 <= i < |s.runs| && s.runs[i] == e;
      assert s.slots[e.slot].Finished?;
    }
  }

  /** Without a timeout every registered slot has its run, unless a race was won -- and then some run succeeded. */
  lemma NothingLostWithoutCancellation(config: Config, registered: set<string>, history: seq<Label>)
    requires Possible(NormalizeConfig(config), registered, history)
    requires Over(After(NormalizeConfig(config), registered, history))
    requires !After(NormalizeConfig(config), registered, history).expired
    ensures var s := After(NormalizeConfig(config), registered, history);
            if s.won then NormalizeConfig(config).strategy == RACE && exists e :: e in s.runs && Succeeded(e.run)
            else |s.runs| + Count(s.slots, IsSkipped) == |config.providers|
                 && forall w :: 0 <= w < |config.providers| && config.providers[w] in registered ==> HasRun(s.runs, w)
  {
    var c := NormalizeConfig(config);
    AlwaysInv(c, registered, history);
    RunsAccounted(config, registered, history);
    var s := After(c, registered, history);
    if s.won {
      var i :| 0 <= i < |s.runs| && Succeeded(s.runs[i].run);
      assert s.runs[i] in s.runs;
    } else {
      CountZero(s.slots, HasLeft);
      forall w | 0 <= w < |c.providers| && c.providers[w] in registered ensures HasRun(s.runs, w) {
        assert s.slots[w].Finished?;
      }
    }
  }

  /** Until `RunAll` can return some worker has a step of its own. */
  lemma NeverStuck(config: Config, registered: set<string>, history: seq<Label>) returns (l: Label)
    requires Possible(NormalizeConfig(config), registered, history)
    requires !Over(After(NormalizeConfig(config), registered, history))
    ensures l != Expire && Possible(NormalizeConfig(config), registered, history + [l])
  {
    var c := NormalizeConfig(config);
    AlwaysInv(c, registered, history);
    l := WorkerStep(c, registered, After(c, registered, history));
    assert (history + [l])[..|history|] == history;
  }

  lemma WorkerStep(c: Config, registered: set<string>, s: State) returns (l: Label)
    requires Inv(c, registered, s) && !Over(s) && c.maxParallel >= 1
    ensures l != Expire && Enabled(c, s, l)
  {
    var w :| 0 <= w < |s.slots| && !s.slots[w].Finished? && !s.slots[w].Left? && !s.slots[w].Skipped?;
    if s.slots[w].Waiting? {
      if s.held < c.maxParallel {
        return Acquire(w);
      }
      CountZero(s.slots, HoldsToken);
      w :| 0 <= w < |s.slots| && HoldsToken(s.slots[w]);
    }
    match s.slots[w]
    case Running => l := Return(w, None, true, 0);
    case Returned(_) => l := Append(w);
    case Appended(_) => l := Signal(w);
    case Releasing(_) =>
      CountZero(s.slots, HoldsToken);
      l := Release(w);
  }

  // ---------- what agents returned is what is collected ----------

  /** The slot's agent has returned. */
  predicate HasReturned(pc: PC) { pc.Returned? || pc.Appended? || pc.Releasing? || pc.Finished? }

  ghost predicate IsAnswer(history: seq<Label>, w: nat, run: AgentRun) {
    Return(w, run.result, run.hasError, run.completedAt) in history
  }

  /** The points of a result, criterion by criterion; durations in nanoseconds. */
  ghost predicate ScoredByResult(run: AgentRun) {
    run.score ==
      if run.result.None? || !run.result.value.success then 0.0
      else
        var r := run.result.value;
        50.0 + (if r.fileChanges > 0 then 20.0 else 0.0) + (if r.exitCode == 0 then 15.0 else 0.0)
        + if 0 < r.duration < 300_000_000_000 then 15.0 else if r.duration < 600_000_000_000 then 10.0 else 0.0
  }

  /** The slot's position and the labels of a history agree: its run is the one answer of its agent, scored. */
  ghost predicate Traced(history: seq<Label>, w: nat, pc: PC) {
    && (HasReturned(pc) ==> IsAnswer(history, w, pc.run) && ScoredByResult(pc.run))
    && (forall result, hasError, at :: Return(w, result, hasError, at) in history ==>
          HasReturned(pc) && pc.run.result == result && pc.run.hasError == hasError && pc.run.completedAt == at)
  }

  ghost predicate AllTraced(history: seq<Label>, s: State) {
    forall w :: 0 <= w < |s.slots| ==> Traced(history, w, s.slots[w])
  }

  /** A race in which a success has been announced is won. */
  ghost predicate Announced(c: Config, s: State) {
    forall w :: 0 <= w < |s.slots| && (s.slots[w].Releasing? || s.slots[w].Finished?) ==>
      c.strategy == RACE && Succeeded(s.slots[w].run) ==> s.won
  }

  lemma StepKeepsTraced(c: Config, s: State, history: seq<Label>, l: Label)
    requires |s.slots| == |c.providers| && AllTraced(history, s) && Enabled(c, s, l)
    ensures AllTraced(history + [l], Next(c, s, l))
  {
    forall w | 0 <= w < |s.slots| ensures Traced(history + [l], w, Next(c, s, l).slots[w]) {
      hide Traced, Next;
      assert Traced(history, w, s.slots[w]);
      SlotStaysTraced(c, s, history, l, w);
    }
  }

  lemma SlotStaysTraced(c: Config, s: State, history: seq<Label>, l: Label, w: nat)
    requires |s.slots| == |c.providers| && Enabled(c, s, l) && w < |s.slots| && Traced(history, w, s.slots[w])
    ensures Traced(history + [l], w, Next(c, s, l).slots[w])
  {
    assert forall x :: x in history + [l] <==> x in history || x == l;
  }

  lemma StepKeepsAnnounced(c: Config, s: State, l: Label)
    requires |s.slots| == |c.providers| && Announced(c, s) && Enabled(c, s, l)
    ensures Announced(c, Next(c, s, l))
  {
  }

  lemma {:induction false} HistoryTraced(c: Config, registered: set<string>, history: seq<Label>)
    requires c.maxParallel >= 1 && Possible(c, registered, history)
    ensures var s := After(c, registered, history);
            Inv(c, registered, s) && AllTraced(history, s) && Announced(c, s)
    decreases |history|
  {
    AlwaysInv(c, registered, history);
    if history != [] {
      hide Inv, AllTraced, Announced, Next, Enabled;
      var before, l := history[..|history| - 1], history[|history| - 1];
      HistoryTraced(c, registered, before);
      StepKeepsTraced(c, After(c, registered, before), before, l);
      StepKeepsAnnounced(c, After(c, registered, before), l);
      assert history == before + [l];
    }
  }

  /** Every collected run is an answer of its slot's agent, and its score is the score of that answer; when `RunAll`
      returns, every answer has been collected, and a race with a success among the runs has cancelled the rest. */
  lemma RunsAreAnswers(config: Config, registered: set<string>, history: seq<Label>)
    requires Possible(NormalizeConfig(config), registered, history)
    ensures var s := After(NormalizeConfig(config), registered, history);
            && (forall e :: e in s.runs ==> IsAnswer(history, e.slot, e.run) && ScoredByResult(e.run))
            && (Over(s) ==> AllCollected(history, s))
            && (Over(s) && NormalizeConfig(config).strategy == RACE ==>
                  (s.won <==> exists e :: e in s.runs && Succeeded(e.run)))
  {
    var c := NormalizeConfig(config);
    HistoryTraced(c, registered, history);
    SlotsInRange(c, registered, history);
    var s := After(c, registered, history);
    hide *;
    EntriesAreAnswers(c, registered, history, s);
    if Over(s) {
      AnswersAreEntries(c, registered, history, s);
      RaceIsWon(c, registered, s);
    }
  }

  /** Every answer is among the runs. */
  ghost predicate AllCollected(history: seq<Label>, s: State) {
    forall w: nat, result, hasError, at :: Return(w, result, hasError, at) in history ==>
      HasRunWith(s.runs, w, result, hasError, at)
  }

  lemma EntriesAreAnswers(c: Config, registered: set<string>, history: seq<Label>, s: State)
    requires Inv(c, registered, s) && AllTraced(history, s)
    ensures forall e :: e in s.runs ==> IsAnswer(history, e.slot, e.run) && ScoredByResult(e.run)
  {
    hide IsAnswer, ScoredByResult;
    forall e | e in s.runs ensures IsAnswer(history, e.slot, e.run) && ScoredByResult(e.run) {
      var i :| 0 <= i < |s.runs| && s.runs[i] == e;
      assert Traced(history, e.slot, s.slots[e.slot]);
    }
  }

  lemma AnswersAreEntries(c: Config, registered: set<string>, history: seq<Label>, s: State)
    requires Inv(c, registered, s) && AllTraced(history, s) && Over(s)
    requires forall l :: l in history && l != Expire ==> l.w < |c.providers|
    ensures AllCollected(history, s)
  {
    hide IsAnswer, ScoredByResult;
    forall w: nat, result, hasError, at | Return(w, result, hasError, at) in history
      ensures HasRunWith(s.runs, w, result, hasError, at)
    {
      assert Traced(history, w, s.slots[w]);
      assert s.slots[w].Finished? && HasRun(s.runs, w);
    }
  }

  lemma RaceIsWon(c: Config, registered: set<string>, s: State)
    requires Inv(c, registered, s) && Announced(c, s) && Over(s)
    ensures c.strategy == RACE ==> (s.won <==> exists e :: e in s.runs && Succeeded(e.run))
  {
    if e :| e in s.runs && Succeeded(e.run) {
      var i :| 0 <= i < |s.runs| && s.runs[i] == e;
      assert s.slots[e.slot].Finished?;
    }
    if s.won {
      var i :| 0 <= i < |s.runs| && Succeeded(s.runs[i].run);
      assert s.runs[i] in s.runs;
    }
  }

  ghost predicate HasRunWith(runs: seq<Entry>, w: nat, result: Option<ExecutionResult>, hasError: bool, at: int) {
    exists i :: 0 <= i < |runs| && runs[i].slot == w && runs[i].run.result == result
                && runs[i].run.hasError == hasError && runs[i].run.completedAt == at
  }

  /** Only slots of this call appear in its history. */
  lemma {:induction false} SlotsInRange(c: Config, registered: set<string>, history: seq<Label>)
    requires Possible(c, registered, history)
    ensures forall l :: l in history && l != Expire ==> l.w < |c.providers|
    decreases |history|
  {
    if history != [] {
      hide Next;
      var before := history[..|history| - 1];
      SlotsInRange(c, registered, before);
      assert history == before + [history[|history| - 1]];
    }
  }

  // ---------- choosing a run ----------

  predicate Earlier(a: AgentRun, b: AgentRun) { a.completedAt < b.completedAt }

  predicate HigherScore(a: AgentRun, b: AgentRun) { a.score > b.score }

  function Successes(runs: seq<AgentRun>): seq<AgentRun> {
    if runs == [] then []
    else Successes(runs[..|runs| - 1]) + if Succeeded(runs[|runs| - 1]) then [runs[|runs| - 1]] else []
  }

  lemma {:induction false} SuccessesMembers(runs: seq<AgentRun>, r: AgentRun)
    ensures r in Successes(runs) <==> r in runs && Succeeded(r)
  {
    if runs != [] {
      SuccessesMembers(runs[..|runs| - 1], r);
      assert runs == runs[..|runs| - 1] + [runs[|runs| - 1]];
    }
  }

  /** What the strategies promise about the chosen run: a success, earliest for a race, of maximal score for
      best_of and consensus alike, and the first one collected under any other name. */
  ghost predicate Chosen(strategy: string, runs: seq<AgentRun>, r: AgentRun) {
    && r in runs && Succeeded(r)
    && (strategy == RACE ==> forall x :: x in runs && Succeeded(x) ==> r.completedAt <= x.completedAt)
    && (strategy == BEST_OF || strategy == CONSENSUS ==> forall x :: x in runs && Succeeded(x) ==> r.score >= x.score)
    && (strategy !in {RACE, BEST_OF, CONSENSUS} ==>
          exists i: nat :: IsFirstSuccess(runs, i) && runs[i] == r)
  }

  ghost predicate IsFirstSuccess(runs: seq<AgentRun>, i: nat) {
    i < |runs| && Succeeded(runs[i]) && forall j :: 0 <= j < i ==> !Succeeded(runs[j])
  }

  lemma {:induction false} FirstSuccess(runs: seq<AgentRun>) returns (i: nat)
    requires Successes(runs) != []
    ensures IsFirstSuccess(runs, i) && runs[i] == Successes(runs)[0]
  {
    var n := |runs| - 1;
    if Successes(runs[..n]) != [] {
      i := FirstSuccess(runs[..n]);
    } else {
      i := n;
      forall j | 0 <= j < n ensures !Succeeded(runs[j]) {
        SuccessesMembers(runs[..n], runs[j]);
        assert runs[..n][j] == runs[j];
      }
    }
  }

  /** The head of any permutation of the successes is a success. */
  lemma HeadIsSuccess(runs: seq<AgentRun>, sorted: seq<AgentRun>)
    requires multiset(sorted) == multiset(Successes(runs))
    ensures forall r :: r in sorted <==> r in runs && Succeeded(r)
  {
    forall r ensures r in sorted <==> r in runs && Succeeded(r) {
      SameElements(sorted, Successes(runs), r);
      SuccessesMembers(runs, r);
    }
  }

  method SelectBest(strategy: string, runs: seq<AgentRun>) returns (best: Option<AgentRun>)
    ensures best.None? <==>
              forall r :: r in runs ==> !(!r.hasError && r.result.Some? && r.result.value.success)
    ensures best.Some? ==> Chosen(strategy, runs, best.value)
  {
    var successful := [];
    for i := 0 to |runs|
      invariant successful == Successes(runs[..i])
    {
      assert runs[..i + 1][..i] == runs[..i];
      if !runs[i].hasError && runs[i].result.Some? && runs[i].result.value.success {
        successful := successful + [runs[i]];
      }
    }
    assert runs[..|runs|] == runs;
    HeadIsSuccess(runs, successful);
    if |successful| == 0 {
      return None;
    }
    assert successful[0] in successful;
    if strategy == RACE {
      var sorted := SortSlice(Earlier, successful);
      HeadIsSuccess(runs, sorted);
      best := Some(sorted[0]);
    } else if strategy == BEST_OF {
      var sorted := SortSlice(HigherScore, successful);
      HeadIsSuccess(runs, sorted);
      best := Some(sorted[0]);
    } else if strategy == CONSENSUS {
      var sorted := SortSlice(HigherScore, successful);
      HeadIsSuccess(runs, sorted);
      best := Some(sorted[0]);
    } else {
      ghost var i := FirstSuccess(runs);
      assert IsFirstSuccess(runs, i) && runs[i] == successful[0];
      best := Some(successful[0]);
    }
  }
}
