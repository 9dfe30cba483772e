/**
 `ParallelSandboxRunner.Run` as an interleaving of its goroutines: one worker per sandbox config, a channel
 of slots, a context that can end at any moment, and deferred clean-up (destroy first, then the slot).
 Every step of every worker is one label; the lemmas hold for every order of labels.
 */
module ParallelSandbox {
  import opened Options
  import opened Counting

  /** What a worker ends up with.  `Value` is the non-nil result of the caller's function. */
  datatype Outcome = ProvisionError | FnError | NilResult | Value(success: bool, hasError: bool, fileChanges: nat)

  /** Where a worker is.  From `Acquired` to `Releasing` it holds a slot; in `Running`, `Answered` (unless the
      sandbox could not be provisioned) and `Destroying` its sandbox has not been destroyed yet. */
  datatype PC =
    | Waiting
    | Acquired
    | Running
    | Answered(outcome: Outcome)
    | Destroying(outcome: Outcome)
    | Releasing(outcome: Outcome)
    | Finished(outcome: Outcome)
    | Left

  datatype Entry = Entry(worker: nat, outcome: Outcome)

  /** The shared state: worker positions, tokens in the channel, the context, the result slice.  The last three
      fields watch the sandbox manager: calls of Destroy per worker, sandboxes that exist, failed destroys. */
  datatype State = State(workers: seq<PC>, held: nat, cancelled: bool, results: seq<Entry>,
                         destroyCalls: seq<nat>, exist: seq<bool>, failedDestroys: nat)

  datatype Label =
    | Cancel
    | Acquire(w: nat)
    | Leave(w: nat)
    | Provision(w: nat, ok: bool)
    | Return(w: nat, answer: Outcome)
    | Record(w: nat)
    | Destroy(w: nat, ok: bool)
    | Release(w: nat)

  function NormalizeMaxSandboxes(v: int): (r: int)
    ensures r >= 1 && (r == v || r == 3) && (v >= 1 ==> r == v)
  {
    if v <= 0 then 3 else v
  }

  /** The capacity of the channel. */
  function Limit(maxSandboxes: int, configs: nat): nat {
    var limit := NormalizeMaxSandboxes(maxSandboxes);
    if configs < limit then configs else limit
  }

  function Initial(n: nat): State {
    State(seq(n, _ => Waiting), 0, false, [], seq(n, _ => 0), seq(n, _ => false), 0)
  }

  predicate WellFormed(s: State) {
    |s.workers| == |s.destroyCalls| == |s.exist|
  }

  predicate Enabled(limit: nat, s: State, l: Label)
    requires WellFormed(s)
  {
    match l
    case Cancel => !s.cancelled
    case Acquire(w) => w < |s.workers| && s.workers[w] == Waiting && s.held < limit
    case Leave(w) => w < |s.workers| && s.workers[w] == Waiting && s.cancelled
    case Provision(w, _) => w < |s.workers| && s.workers[w] == Acquired
    case Return(w, answer) => w < |s.workers| && s.workers[w] == Running && answer != ProvisionError
    case Record(w) => w < |s.workers| && s.workers[w].Answered?
    case Destroy(w, _) => w < |s.workers| && s.workers[w].Destroying?
    case Release(w) => w < |s.workers| && s.workers[w].Releasing? && s.held > 0
  }

  function Next(limit: nat, s: State, l: Label): State
    requires WellFormed(s) && Enabled(limit, s, l)
  {
    match l
    case Cancel => s.(cancelled := true)
    case Acquire(w) => s.(workers := s.workers[w := Acquired], held := s.held + 1)
    case Leave(w) => s.(workers := s.workers[w := Left])
    case Provision(w, ok) =>
      if ok then s.(workers := s.workers[w := Running], exist := s.exist[w := true])
      else s.(workers := s.workers[w := Answered(ProvisionError)])
    case Return(w, answer) => s.(workers := s.workers[w := Answered(answer)])
    case Record(w) =>
      var o := s.workers[w].outcome;
      s.(workers := s.workers[w := if o == ProvisionError then Releasing(o) else Destroying(o)],
         results := if o == NilResult then s.results else s.results + [Entry(w, o)])
    case Destroy(w, ok) =>
      s.(workers := s.workers[w := Releasing(s.workers[w].outcome)],
         destroyCalls := s.destroyCalls[w := s.destroyCalls[w] + 1],
         exist := s.exist[w := !ok],
         failedDestroys := s.failedDestroys + if ok then 0 else 1)
    case Release(w) => s.(workers := s.workers[w := Finished(s.workers[w].outcome)], held := s.held - 1)
  }

  // ---------- what the workers' positions mean ----------

  predicate HoldsSlot(pc: PC) { !pc.Waiting? && !pc.Finished? && !pc.Left? }

  /** The worker's sandbox was provisioned and Destroy has not been called on it. */
  predicate OwnsSandbox(pc: PC) {
    pc.Running? || (pc.Answered? && pc.outcome != ProvisionError) || pc.Destroying?
  }

  predicate Settled(pc: PC) { pc.Destroying? || pc.Releasing? || pc.Finished? }

  predicate HasEntry(pc: PC) { Settled(pc) && pc.outcome != NilResult }

  predicate HasNil(pc: PC) { Settled(pc) && pc.outcome == NilResult }

  predicate HasLeft(pc: PC) { pc.Left? }

  predicate IsTrue(b: bool) { b }

  predicate Over(s: State) { forall w :: 0 <= w < |s.workers| ==> s.workers[w].Finished? || s.workers[w].Left? }

  ghost predicate SandboxesTracked(s: State)
    requires WellFormed(s)
  {
    forall w :: 0 <= w < |s.workers| ==>
      var pc := s.workers[w];
      && (OwnsSandbox(pc) ==> s.exist[w])
      && (s.exist[w] ==> OwnsSandbox(pc) || s.destroyCalls[w] == 1)
      && (pc.Destroying? ==> pc.outcome != ProvisionError)
      && s.destroyCalls[w] == if (pc.Releasing? || pc.Finished?) && pc.outcome != ProvisionError then 1 else 0
  }

  ghost predicate ResultsTracked(s: State) {
    && (forall i, j :: 0 <= i < j < |s.results| ==> s.results[i].worker != s.results[j].worker)
    && (forall i :: 0 <= i < |s.results| ==>
          var e := s.results[i];
          e.worker < |s.workers| && HasEntry(s.workers[e.worker]) && s.workers[e.worker].outcome == e.outcome)
    && |s.results| == Count(s.workers, HasEntry)
  }

  ghost predicate Inv(limit: nat, s: State) {
    && WellFormed(s)
    && s.held == Count(s.workers, HoldsSlot) <= limit
    && SandboxesTracked(s)
    && Count(s.exist, IsTrue) == Count(s.workers, OwnsSandbox) + s.failedDestroys
    && ResultsTracked(s)
    && LeftOnlyWhenCancelled(s)
  }

  ghost predicate LeftOnlyWhenCancelled(s: State) {
    forall w :: 0 <= w < |s.workers| && s.workers[w].Left? ==> s.cancelled
  }

  function Rank(pc: PC): nat {
    match pc
    case Waiting => 6
    case Acquired => 5
    case Running => 4
    case Answered(_) => 3
    case Destroying(_) => 2
    case Releasing(_) => 1
    case Finished(_) => 0
    case Left => 0
  }

  /** Steps still possible at most. */
  function Fuel(s: State): nat { Sum(s.workers, Rank) + if s.cancelled then 0 else 1 }

  lemma StepKeepsSandboxes(limit: nat, s: State, l: Label)
    requires WellFormed(s) && SandboxesTracked(s) && Enabled(limit, s, l)
    ensures SandboxesTracked(Next(limit, s, l))
  {
    if l != Cancel {
      var t := Next(limit, s, l);
      forall w | 0 <= w < |s.workers| && w != l.w
        ensures t.workers[w] == s.workers[w] && t.exist[w] == s.exist[w] && t.destroyCalls[w] == s.destroyCalls[w]
      {
      }
    }
  }

  lemma StepKeepsResults(limit: nat, s: State, l: Label)
    requires WellFormed(s) && ResultsTracked(s) && Enabled(limit, s, l)
    ensures ResultsTracked(Next(limit, s, l))
  {
    if l.Record? {
      RecordKeepsResults(limit, s, l.w);
    } else if l != Cancel {
      MoveKeepsResults(s, l.w, Next(limit, s, l));
    }
  }

  /** A step that records nothing and leaves the outcome of a settled worker alone. */
  lemma MoveKeepsResults(s: State, w: nat, t: State)
    requires ResultsTracked(s) && w < |s.workers|
    requires t.results == s.results && |t.workers| == |s.workers| && t.workers == s.workers[w := t.workers[w]]
    requires HasEntry(t.workers[w]) == HasEntry(s.workers[w])
    requires HasEntry(s.workers[w]) ==> t.workers[w].outcome == s.workers[w].outcome
    ensures ResultsTracked(t)
  {
    CountUpdate(s.workers, HasEntry, w, t.workers[w]);
  }

  lemma RecordKeepsResults(limit: nat, s: State, w: nat)
    requires WellFormed(s) && ResultsTracked(s) && Enabled(limit, s, Record(w))
    ensures ResultsTracked(Next(limit, s, Record(w)))
  {
    var t := Next(limit, s, Record(w));
    CountUpdate(s.workers, HasEntry, w, t.workers[w]);
    forall i | 0 <= i < |s.results|
      ensures var e := s.results[i]; e.worker != w && t.workers[e.worker] == s.workers[e.worker]
    {
      assert HasEntry(s.workers[s.results[i].worker]);
    }
  }

  lemma StepKeepsHeld(limit: nat, s: State, l: Label)
    requires WellFormed(s) && Enabled(limit, s, l) && s.held == Count(s.workers, HoldsSlot) <= limit
    ensures Next(limit, s, l).held == Count(Next(limit, s, l).workers, HoldsSlot) <= limit
  {
    if l != Cancel {
      CountUpdate(s.workers, HoldsSlot, l.w, Next(limit, s, l).workers[l.w]);
    }
  }

  lemma StepKeepsExisting(limit: nat, s: State, l: Label)
    requires WellFormed(s) && SandboxesTracked(s) && Enabled(limit, s, l)
    requires Count(s.exist, IsTrue) == Count(s.workers, OwnsSandbox) + s.failedDestroys
    ensures var t := Next(limit, s, l); Count(t.exist, IsTrue) == Count(t.workers, OwnsSandbox) + t.failedDestroys
  {
    if l != Cancel {
      var t := Next(limit, s, l);
      CountUpdate(s.workers, OwnsSandbox, l.w, t.workers[l.w]);
      CountUpdate(s.exist, IsTrue, l.w, t.exist[l.w]);
      assert t.exist == s.exist[l.w := t.exist[l.w]];
    }
  }

  lemma StepSpendsFuel(limit: nat, s: State, l: Label)
    requires WellFormed(s) && Enabled(limit, s, l)
    ensures Fuel(Next(limit, s, l)) < Fuel(s)
  {
    if l != Cancel {
      SumUpdate(s.workers, Rank, l.w, Next(limit, s, l).workers[l.w]);
    }
  }

  lemma StepKeepsLeft(limit: nat, s: State, l: Label)
    requires WellFormed(s) && LeftOnlyWhenCancelled(s) && Enabled(limit, s, l)
    ensures LeftOnlyWhenCancelled(Next(limit, s, l))
  {
  }

  lemma StepKeepsInv(limit: nat, s: State, l: Label)
    requires Inv(limit, s) && Enabled(limit, s, l)
    ensures Inv(limit, Next(limit, s, l))
    ensures Fuel(Next(limit, s, l)) < Fuel(s)
  {
    StepKeepsSandboxes(limit, s, l);
    StepKeepsResults(limit, s, l);
    StepKeepsHeld(limit, s, l);
    StepKeepsExisting(limit, s, l);
    StepKeepsLeft(limit, s, l);
    StepSpendsFuel(limit, s, l);
  }

  // ---------- every interleaving ----------

  /** An interleaving that can happen when `Run` is called with `n` configs. */
  ghost predicate Possible(limit: nat, n: nat, history: seq<Label>)
    decreases |history|, 0
  {
    history != [] ==>
      var before := history[..|history| - 1];
      Possible(limit, n, before)
      && WellFormed(After(limit, n, before)) && Enabled(limit, After(limit, n, before), history[|history| - 1])
  }

  ghost function After(limit: nat, n: nat, history: seq<Label>): State
    requires Possible(limit, n, history)
    decreases |history|, 1
  {
    if history == [] then Initial(n)
    else Next(limit, After(limit, n, history[..|history| - 1]), history[|history| - 1])
  }

  lemma {:induction false} AlwaysInv(limit: nat, n: nat, history: seq<Label>)
    requires Possible(limit, n, history)
    ensures Inv(limit, After(limit, n, history)) && |After(limit, n, history).workers| == n
    ensures |history| + Fuel(After(limit, n, history)) <= 6 * n + 1
    decreases |history|
  {
    if history == [] {
      var s := Initial(n);
      CountZero(s.workers, HoldsSlot);
      CountZero(s.workers, OwnsSandbox);
      CountZero(s.workers, HasEntry);
      CountZero(s.exist, IsTrue);
      SumBound(s.workers, Rank, 6);
    } else {
      var before := history[..|history| - 1];
      AlwaysInv(limit, n, before);
      StepKeepsInv(limit, After(limit, n, before), history[|history| - 1]);
    }
  }

  /** Sandboxes in use never outnumber the slots taken, which never outnumber the configured limit; what
      exists beyond that are sandboxes whose Destroy call failed. */
  lemma LiveSandboxesBounded(maxSandboxes: int, n: nat, history: seq<Label>)
    requires Possible(Limit(maxSandboxes, n), n, history)
    ensures var s := After(Limit(maxSandboxes, n), n, history);
            && Count(s.workers, OwnsSandbox) <= s.held <= Limit(maxSandboxes, n) <= NormalizeMaxSandboxes(maxSandboxes)
            && Count(s.exist, IsTrue) == Count(s.workers, OwnsSandbox) + s.failedDestroys
  {
    var limit := Limit(maxSandboxes, n);
    AlwaysInv(limit, n, history);
    CountSub(After(limit, n, history).workers, OwnsSandbox, HoldsSlot);
  }

  /** When `Run` returns every slot is free again, each sandbox that was provisioned had Destroy called on it
      exactly once (no other call was made), and it exists only if that call failed. */
  lemma AllDestroyedOnce(limit: nat, n: nat, history: seq<Label>)
    requires Possible(limit, n, history) && Over(After(limit, n, history))
    ensures var s := After(limit, n, history);
            && |s.workers| == |s.destroyCalls| == n
            && s.held == 0 && Count(s.exist, IsTrue) == s.failedDestroys
            && forall w :: 0 <= w < n ==>
                 s.destroyCalls[w] == if s.workers[w].Finished? && s.workers[w].outcome != ProvisionError then 1 else 0
  {
    AlwaysInv(limit, n, history);
    var s := After(limit, n, history);
    CountZero(s.workers, HoldsSlot);
    CountZero(s.workers, OwnsSandbox);
  }

  /** When `Run` returns every worker is accounted for: one result each -- its own outcome --, no result for a
      nil answer, none for a worker that left on cancellation. */
  lemma ResultsAccounted(limit: nat, n: nat, history: seq<Label>)
    requires Possible(limit, n, history) && Over(After(limit, n, history))
    ensures var s := After(limit, n, history);
            && |s.workers| == n
            && |s.results| + Count(s.workers, HasLeft) + Count(s.workers, HasNil) == n
            && (!s.cancelled ==> Count(s.workers, HasLeft) == 0)
            && (forall i, j :: 0 <= i < j < |s.results| ==> s.results[i].worker != s.results[j].worker)
            && (forall e :: e in s.results ==> e.worker < n && s.workers[e.worker] == Finished(e.outcome))
  {
    AlwaysInv(limit, n, history);
    var s := After(limit, n, history);
    CountThreeWays(s.workers, HasEntry, HasLeft, HasNil);
    CountZero(s.workers, HasLeft);
    forall e | e in s.results ensures e.worker < n && s.workers[e.worker] == Finished(e.outcome) {
      var i :| 0 <= i < |s.results| && s.results[i] == e;
    }
  }

  /** No interleaving is longer than six steps per config plus the cancellation. */
  lemma Terminates(limit: nat, n: nat, history: seq<Label>)
    requires Possible(limit, n, history)
    ensures |history| <= 6 * n + 1
  {
    AlwaysInv(limit, n, history);
  }

  /** Until `Run` can return some worker has a step of its own: nobody waits for a slot forever. */
  lemma NeverStuck(maxSandboxes: int, n: nat, history: seq<Label>) returns (l: Label)
    requires Possible(Limit(maxSandboxes, n), n, history) && !Over(After(Limit(maxSandboxes, n), n, history))
    ensures l != Cancel && Possible(Limit(maxSandboxes, n), n, history + [l])
  {
    var limit := Limit(maxSandboxes, n);
    AlwaysInv(limit, n, history);
    var s := After(limit, n, history);
    l := WorkerStep(limit, s);
    assert (history + [l])[..|history|] == history;
  }

  lemma WorkerStep(limit: nat, s: State) returns (l: Label)
    requires Inv(limit, s) && !Over(s) && (s.workers != [] ==> limit >= 1)
    ensures l != Cancel && Enabled(limit, s, l)
  {
    var w :| 0 <= w < |s.workers| && !s.workers[w].Finished? && !s.workers[w].Left?;
    if s.workers[w].Waiting? {
      if s.held < limit {
        return Acquire(w);
      }
      CountZero(s.workers, HoldsSlot);
      w :| 0 <= w < |s.workers| && HoldsSlot(s.workers[w]);
    }
    match s.workers[w]
    case Acquired => l := Provision(w, true);
    case Running => l := Return(w, NilResult);
    case Answered(_) => l := Record(w);
    case Destroying(_) => l := Destroy(w, true);
    case Releasing(_) =>
      CountZero(s.workers, HoldsSlot);
      l := Release(w);
  }

  // ---------- what was answered is what is returned ----------

  /** The worker knows its outcome. */
  predicate HasOutcome(pc: PC) { pc.Answered? || Settled(pc) }

  /** The worker's positions and the labels of a history agree: an outcome is the answer of the caller's function, or a
      provisioning that failed, and no such answer is forgotten. */
  ghost predicate Traced(history: seq<Label>, w: nat, pc: PC) {
    && (HasOutcome(pc) ==>
          if pc.outcome == ProvisionError then Provision(w, false) in history else Return(w, pc.outcome) in history)
    && (forall v :: Return(w, v) in history ==> HasOutcome(pc) && pc.outcome == v != ProvisionError)
    && (Provision(w, false) in history ==> HasOutcome(pc) && pc.outcome == ProvisionError)
    && (Provision(w, true) in history <==> pc.Running? || (HasOutcome(pc) && pc.outcome != ProvisionError))
  }

  ghost predicate AllTraced(history: seq<Label>, s: State) {
    forall w :: 0 <= w < |s.workers| ==> Traced(history, w, s.workers[w])
  }

  ghost predicate HasResult(results: seq<Entry>, w: nat) { exists i :: 0 <= i < |results| && results[i].worker == w }

  ghost predicate AllRecorded(s: State) {
    forall w :: 0 <= w < |s.workers| && HasEntry(s.workers[w]) ==> HasResult(s.results, w)
  }

  lemma StepKeepsTraced(limit: nat, s: State, history: seq<Label>, l: Label)
    requires WellFormed(s) && SandboxesTracked(s) && AllTraced(history, s) && Enabled(limit, s, l)
    ensures AllTraced(history + [l], Next(limit, s, l))
  {
    forall w | 0 <= w < |s.workers| ensures Traced(history + [l], w, Next(limit, s, l).workers[w]) {
      hide Traced, Next;
      assert Traced(history, w, s.workers[w]);
      WorkerStaysTraced(limit, s, history, l, w);
    }
  }

  lemma WorkerStaysTraced(limit: nat, s: State, history: seq<Label>, l: Label, w: nat)
    requires WellFormed(s) && SandboxesTracked(s) && Enabled(limit, s, l)
    requires w < |s.workers| && Traced(history, w, s.workers[w])
    ensures Traced(history + [l], w, Next(limit, s, l).workers[w])
  {
    assert forall x :: x in history + [l] <==> x in history || x == l;
  }

  lemma HasResultSnoc(results: seq<Entry>, e: Entry, w: nat)
    requires HasResult(results, w) || e.worker == w
    ensures HasResult(results + [e], w)
  {
    if HasResult(results, w) {
      var i :| 0 <= i < |results| && results[i].worker == w;
      assert (results + [e])[i].worker == w;
    } else {
      assert (results + [e])[|results|].worker == w;
    }
  }

  lemma StepKeepsRecorded(limit: nat, s: State, l: Label)
    requires WellFormed(s) && AllRecorded(s) && Enabled(limit, s, l)
    ensures AllRecorded(Next(limit, s, l))
  {
    var t := Next(limit, s, l);
    forall w | 0 <= w < |s.workers| && HasEntry(t.workers[w]) ensures HasResult(t.results, w) {
      if HasEntry(s.workers[w]) { assert HasResult(s.results, w); }
      if t.results != s.results { HasResultSnoc(s.results, Entry(l.w, s.workers[l.w].outcome), w); }
    }
  }

  predicate DestroysOf(w: nat, l: Label) { l.Destroy? && l.w == w }

  predicate FailedDestroy(l: Label) { l.Destroy? && !l.ok }

  ghost predicate CallsCounted(history: seq<Label>, s: State) {
    && (forall w :: 0 <= w < |s.destroyCalls| ==> s.destroyCalls[w] == Count(history, (l: Label) => DestroysOf(w, l)))
    && s.failedDestroys == Count(history, FailedDestroy)
    && (s.cancelled <==> Cancel in history)
  }

  lemma StepKeepsCalls(limit: nat, s: State, history: seq<Label>, l: Label)
    requires WellFormed(s) && CallsCounted(history, s) && Enabled(limit, s, l)
    ensures CallsCounted(history + [l], Next(limit, s, l))
  {
    var t := Next(limit, s, l);
    forall w | 0 <= w < |s.destroyCalls|
      ensures t.destroyCalls[w] == Count(history + [l], (l: Label) => DestroysOf(w, l))
    {
      CountSnoc(history, (l: Label) => DestroysOf(w, l), l);
    }
    CountSnoc(history, FailedDestroy, l);
  }

  lemma {:induction false} HistoryTraced(limit: nat, n: nat, history: seq<Label>)
    requires Possible(limit, n, history)
    ensures var s := After(limit, n, history);
            |s.workers| == n && Inv(limit, s) && AllTraced(history, s) && AllRecorded(s) && CallsCounted(history, s)
    decreases |history|
  {
    AlwaysInv(limit, n, history);
    if history != [] {
      hide Inv, AllTraced, AllRecorded, CallsCounted, Next, Enabled;
      var before, l := history[..|history| - 1], history[|history| - 1];
      HistoryTraced(limit, n, before);
      StepTraced(limit, After(limit, n, before), before, l);
      assert history == before + [l];
    }
  }

  lemma StepTraced(limit: nat, s: State, history: seq<Label>, l: Label)
    requires Inv(limit, s) && Enabled(limit, s, l)
    requires AllTraced(history, s) && AllRecorded(s) && CallsCounted(history, s)
    ensures var t := Next(limit, s, l); AllTraced(history + [l], t) && AllRecorded(t) && CallsCounted(history + [l], t)
  {
    hide AllTraced, AllRecorded, CallsCounted, Next, Enabled;
    StepKeepsTraced(limit, s, history, l);
    StepKeepsRecorded(limit, s, l);
    StepKeepsCalls(limit, s, history, l);
  }

  /** Every result is what the caller's function returned to that worker, or the failed provisioning; when `Run`
      returns, every non-nil answer and every failed provisioning is among the results. */
  lemma ResultsAreAnswers(limit: nat, n: nat, history: seq<Label>)
    requires Possible(limit, n, history)
    ensures forall e :: e in After(limit, n, history).results ==>
              Return(e.worker, e.outcome) in history
              || (e.outcome == ProvisionError && Provision(e.worker, false) in history)
    ensures Over(After(limit, n, history)) ==>
              && (forall w: nat, v :: Return(w, v) in history && v != NilResult ==>
                    Entry(w, v) in After(limit, n, history).results)
              && (forall w: nat :: Provision(w, false) in history ==>
                    Entry(w, ProvisionError) in After(limit, n, history).results)
  {
    HistoryTraced(limit, n, history);
    var s := After(limit, n, history);
    forall i | 0 <= i < |history| ensures history[i] != Cancel ==> history[i].w < n {
      LabelsInRange(limit, n, history, i);
    }
    hide After, Possible;
    forall e | e in s.results
      ensures Return(e.worker, e.outcome) in history
              || (e.outcome == ProvisionError && Provision(e.worker, false) in history)
    {
      var i :| 0 <= i < |s.results| && s.results[i] == e;
      assert Traced(history, e.worker, s.workers[e.worker]);
    }
    if Over(s) {
      forall w: nat, v | Return(w, v) in history && v != NilResult ensures Entry(w, v) in s.results {
        assert Traced(history, w, s.workers[w]);
        EntryOf(s, w);
      }
      forall w: nat | Provision(w, false) in history ensures Entry(w, ProvisionError) in s.results {
        assert Traced(history, w, s.workers[w]);
        EntryOf(s, w);
      }
    }
  }

  lemma EntryOf(s: State, w: nat)
    requires ResultsTracked(s) && AllRecorded(s) && w < |s.workers| && HasEntry(s.workers[w])
    ensures Entry(w, s.workers[w].outcome) in s.results
  {
    assert HasResult(s.results, w);
    var i :| 0 <= i < |s.results| && s.results[i].worker == w;
    assert s.results[i] == Entry(w, s.workers[w].outcome);
  }

  /** Only workers of this call appear in its history. */
  lemma {:induction false} LabelsInRange(limit: nat, n: nat, history: seq<Label>, i: nat)
    requires Possible(limit, n, history) && i < |history|
    ensures history[i] != Cancel ==> history[i].w < n
    decreases |history|
  {
    var before := history[..|history| - 1];
    AlwaysInv(limit, n, before);
    if i < |history| - 1 { LabelsInRange(limit, n, before, i); }
  }

  /** In terms of calls alone: when `Run` returns, each worker has called Destroy once if its sandbox was provisioned
      and never otherwise. */
  lemma DestroyedAsProvisioned(limit: nat, n: nat, history: seq<Label>, w: nat)
    requires Possible(limit, n, history) && Over(After(limit, n, history)) && w < n
    ensures Count(history, (l: Label) => DestroysOf(w, l)) == if Provision(w, true) in history then 1 else 0
  {
    HistoryTraced(limit, n, history);
    var s := After(limit, n, history);
    hide After, Possible;
    assert Traced(history, w, s.workers[w]);
    assert s.workers[w].Finished? || s.workers[w].Left?;
  }

  // ---------- choosing a result ----------

  predicate IsSuccess(o: Outcome) { o.Value? && o.success && !o.hasError }

  /** The first successful result without error that has the most file changes. */
  method BestResult(results: seq<Outcome>) returns (best: Option<nat>)
    ensures best.None? <==> forall i :: 0 <= i < |results| ==>
              !(results[i].Value? && results[i].success && !results[i].hasError)
    ensures best.Some? ==> best.value < |results| && IsSuccess(results[best.value])
    ensures best.Some? ==> forall i :: 0 <= i < |results| && IsSuccess(results[i]) ==>
              results[i].fileChanges <= results[best.value].fileChanges
              && (i < best.value ==> results[i].fileChanges < results[best.value].fileChanges)
  {
    best := None;
    for i := 0 to |results|
      invariant best.None? <==> forall j :: 0 <= j < i ==> !IsSuccess(results[j])
      invariant best.Some? ==> best.value < i && IsSuccess(results[best.value])
      invariant best.Some? ==> forall j :: 0 <= j < i && IsSuccess(results[j]) ==>
                  results[j].fileChanges <= results[best.value].fileChanges
                  && (j < best.value ==> results[j].fileChanges < results[best.value].fileChanges)
    {
      var res := results[i];
      if !res.Value? || !res.success || res.hasError {
        continue;
      }
      if best.None? || res.fileChanges > results[best.value].fileChanges {
        best := Some(i);
      }
    }
  }
}
