/**
 The circuit breaker in front of the LLM calls: a three-state machine with a clock, and the rule on the log
 of recorded outcomes that it is observably equal to.
 */
module CircuitBreaker {
  import opened Counting

  datatype CbState = Closed | Open | HalfOpen

  /** The fields of a breaker.  Times and the cooldown are in the clock's unit. */
  datatype Breaker = Breaker(state: CbState, consecutiveFails: nat, failureThreshold: int, cooldown: int,
                             lastFailure: int)

  datatype Call = Allow(at: int) | RecordSuccess | RecordFailure(at: int)

  function NewBreaker(failureThreshold: int, cooldown: int, zeroTime: int): Breaker {
    Breaker(Closed, 0, failureThreshold, cooldown, zeroTime)
  }

  // ---------- the machine ----------

  function AfterAllow(b: Breaker, at: int): Breaker {
    if b.state == Open && at - b.lastFailure >= b.cooldown then b.(state := HalfOpen) else b
  }

  predicate Allowed(b: Breaker, at: int) { b.state != Open || at - b.lastFailure >= b.cooldown }

  function AfterSuccess(b: Breaker): Breaker { b.(consecutiveFails := 0, state := Closed) }

  function AfterFailure(b: Breaker, at: int): Breaker {
    var fails := b.consecutiveFails + 1;
    b.(consecutiveFails := fails, lastFailure := at, state := if fails >= b.failureThreshold then Open else b.state)
  }

  function After(b: Breaker, call: Call): Breaker {
    match call
    case Allow(at) => AfterAllow(b, at)
    case RecordSuccess => AfterSuccess(b)
    case RecordFailure(at) => AfterFailure(b, at)
  }

  /** The answers that a sequence of calls gets. */
  function Answers(b: Breaker, calls: seq<Call>): seq<bool>
    decreases |calls|
  {
    if calls == [] then []
    else (if calls[0].Allow? then [Allowed(b, calls[0].at)] else []) + Answers(After(b, calls[0]), calls[1..])
  }

  // ---------- the rule ----------

  /** Length of the run of failures at the end of a log. */
  function TrailingFailures(log: seq<Call>): nat {
    if log == [] then 0
    else
      match log[|log| - 1]
      case RecordSuccess => 0
      case RecordFailure(_) => 1 + TrailingFailures(log[..|log| - 1])
      case Allow(_) => TrailingFailures(log[..|log| - 1])
  }

  /** Time of the last failure of a log, if any. */
  function LastFailure(log: seq<Call>, otherwise: int): int {
    if log == [] then otherwise
    else if log[|log| - 1].RecordFailure? then log[|log| - 1].at
    else LastFailure(log[..|log| - 1], otherwise)
  }

  /** Stateless: a request is refused exactly while enough failures in a row are the latest outcomes and the
      last of them is more recent than the cooldown. */
  predicate RuleAllows(failureThreshold: int, cooldown: int, log: seq<Call>, at: int) {
    !(TrailingFailures(log) >= 1 && TrailingFailures(log) >= failureThreshold && at - LastFailure(log, 0) < cooldown)
  }

  function RuleAnswers(failureThreshold: int, cooldown: int, log: seq<Call>, calls: seq<Call>): seq<bool>
    decreases |calls|
  {
    if calls == [] then []
    else (if calls[0].Allow? then [RuleAllows(failureThreshold, cooldown, log, calls[0].at)] else [])
         + RuleAnswers(failureThreshold, cooldown, log + [calls[0]], calls[1..])
  }

  predicate IsFailure(c: Call) { c.RecordFailure? }

  /** From position i on the log has no success and at least as many failures as the threshold, and the latest
      failure, at position f, is more recent than the cooldown. */
  ghost predicate TrippedFrom(failureThreshold: int, cooldown: int, log: seq<Call>, at: int, i: nat, f: nat) {
    && i <= f < |log| && log[f].RecordFailure? && at - log[f].at < cooldown
    && (forall j :: i <= j < |log| ==> !log[j].RecordSuccess?)
    && (forall j :: f < j < |log| ==> !log[j].RecordFailure?)
    && Count(log[i..], IsFailure) >= failureThreshold
  }

  ghost predicate Tripped(failureThreshold: int, cooldown: int, log: seq<Call>, at: int) {
    exists i, f :: TrippedFrom(failureThreshold, cooldown, log, at, i, f)
  }

  /** Where the trailing run of failures begins. */
  lemma {:induction false} TrailingFrom(log: seq<Call>) returns (i: nat)
    ensures i <= |log| && (i > 0 ==> log[i - 1].RecordSuccess?)
    ensures forall j :: i <= j < |log| ==> !log[j].RecordSuccess?
    ensures TrailingFailures(log) == Count(log[i..], IsFailure)
  {
    if log == [] {
      i := 0;
    } else {
      var n := |log| - 1;
      if log[n].RecordSuccess? {
        i := |log|;
        assert log[i..] == [];
      } else {
        i := TrailingFrom(log[..n]);
        assert log[i..] == log[..n][i..] + [log[n]];
        CountSnoc(log[..n][i..], IsFailure, log[n]);
      }
    }
  }

  lemma {:induction false} LatestFailure(log: seq<Call>, i: nat) returns (f: nat)
    requires i <= |log| && Count(log[i..], IsFailure) > 0
    ensures i <= f < |log| && log[f].RecordFailure? && LastFailure(log, 0) == log[f].at
    ensures forall j :: f < j < |log| ==> !log[j].RecordFailure?
  {
    CountZero(log[i..], IsFailure);
    var n := |log| - 1;
    if log[n].RecordFailure? {
      f := n;
    } else {
      assert log[i..] == log[..n][i..] + [log[n]];
      CountSnoc(log[..n][i..], IsFailure, log[n]);
      f := LatestFailure(log[..n], i);
    }
  }

  lemma {:induction false} CountSuffix(log: seq<Call>, i: nat, j: nat)
    requires i <= j <= |log|
    ensures Count(log[j..], IsFailure) <= Count(log[i..], IsFailure)
    decreases j - i
  {
    if i < j {
      CountSuffix(log, i + 1, j);
      assert log[i..][1..] == log[i + 1..];
    }
  }

  /** The rule, read off the log directly: a request is refused exactly when the breaker has tripped. */
  lemma RuleMeaning(failureThreshold: int, cooldown: int, log: seq<Call>, at: int)
    ensures !RuleAllows(failureThreshold, cooldown, log, at) <==> Tripped(failureThreshold, cooldown, log, at)
  {
    var start := TrailingFrom(log);
    if Count(log[start..], IsFailure) > 0 {
      var latest := LatestFailure(log, start);
      if !RuleAllows(failureThreshold, cooldown, log, at) {
        assert TrippedFrom(failureThreshold, cooldown, log, at, start, latest);
      }
    }
    if i, f :| TrippedFrom(failureThreshold, cooldown, log, at, i, f) {
      TripsTheRule(failureThreshold, cooldown, log, at, i, f, start);
    }
  }

  lemma TripsTheRule(failureThreshold: int, cooldown: int, log: seq<Call>, at: int, i: nat, f: nat, start: nat)
    requires TrippedFrom(failureThreshold, cooldown, log, at, i, f)
    requires start <= |log| && (start > 0 ==> log[start - 1].RecordSuccess?)
    requires TrailingFailures(log) == Count(log[start..], IsFailure)
    ensures !RuleAllows(failureThreshold, cooldown, log, at)
  {
    assert start <= i;
    CountSuffix(log, start, i);
    CountZero(log[start..], IsFailure);
    assert IsFailure(log[start..][f - start]);
    var latest := LatestFailure(log, start);
    assert latest == f;
  }

  // ---------- they agree ----------

  ghost predicate Monotone(calls: seq<Call>, now: int)
    decreases |calls|
  {
    calls != [] ==>
      match calls[0]
      case RecordSuccess => Monotone(calls[1..], now)
      case Allow(at) => now <= at && Monotone(calls[1..], at)
      case RecordFailure(at) => now <= at && Monotone(calls[1..], at)
  }

  /** The machine's fields say about the log what the rule reads from it. */
  ghost predicate Reflects(b: Breaker, log: seq<Call>, now: int) {
    var n := TrailingFailures(log);
    && b.consecutiveFails == n
    && (n >= 1 ==> b.lastFailure == LastFailure(log, 0))
    && (b.state == Closed <==> !(n >= 1 && n >= b.failureThreshold))
    && (b.state == HalfOpen ==> now - b.lastFailure >= b.cooldown)
  }

  lemma CallKeepsReflects(b: Breaker, log: seq<Call>, now: int, call: Call)
    requires Reflects(b, log, now)
    requires !call.RecordSuccess? ==> now <= call.at
    ensures Reflects(After(b, call), log + [call], if call.RecordSuccess? then now else call.at)
    ensures call.Allow? ==> (Allowed(b, call.at) <==> RuleAllows(b.failureThreshold, b.cooldown, log, call.at))
  {
    assert (log + [call])[..|log|] == log;
  }

  lemma {:induction false} AgreeFrom(b: Breaker, log: seq<Call>, now: int, calls: seq<Call>)
    requires Reflects(b, log, now) && Monotone(calls, now)
    ensures Answers(b, calls) == RuleAnswers(b.failureThreshold, b.cooldown, log, calls)
    decreases |calls|
  {
    if calls != [] {
      CallKeepsReflects(b, log, now, calls[0]);
      AgreeFrom(After(b, calls[0]), log + [calls[0]], if calls[0].RecordSuccess? then now else calls[0].at, calls[1..]);
    }
  }

  /** For every threshold, every cooldown and every sequence of calls under a clock that does not go back, the
      machine answers as the stateless rule does. */
  lemma BreakerFollowsRule(failureThreshold: int, cooldown: int, zeroTime: int, calls: seq<Call>, start: int)
    requires Monotone(calls, start)
    ensures Answers(NewBreaker(failureThreshold, cooldown, zeroTime), calls)
            == RuleAnswers(failureThreshold, cooldown, [], calls)
  {
    AgreeFrom(NewBreaker(failureThreshold, cooldown, zeroTime), [], start, calls);
  }

  /** A clock that goes back would tell them apart: once half-open, the machine no longer looks at the clock. */
  lemma ClockMustNotGoBack()
    ensures var calls := [RecordFailure(0), Allow(10), Allow(1)];
            Answers(NewBreaker(1, 10, 0), calls) == [true, true] && RuleAnswers(1, 10, [], calls) == [true, false]
  {
    var calls := [RecordFailure(0), Allow(10), Allow(1)];
    var b1 := After(NewBreaker(1, 10, 0), calls[0]);
    assert calls[1..] == [Allow(10), Allow(1)] && calls[1..][1..] == [Allow(1)];
    assert Answers(b1, [Allow(10), Allow(1)]) == [true] + Answers(After(b1, Allow(10)), [Allow(1)]);
    var log1 := [RecordFailure(0)];
    var log2 := [RecordFailure(0), Allow(10)];
    assert log2[..1] == log1 && [] + [calls[0]] == log1 && log1 + [Allow(10)] == log2;
    assert RuleAnswers(1, 10, log1, [Allow(10), Allow(1)]) == [true] + RuleAnswers(1, 10, log2, [Allow(1)]);
  }

  // ---------- in place ----------

  class CircuitBreaker {
    var state: CbState
    var consecutiveFails: nat
    const failureThreshold: int
    const cooldown: int
    var lastFailure: int
    /** Every call so far, and the latest clock reading. */
    ghost var log: seq<Call>
    ghost var now: int

    ghost function View(): Breaker
      reads this
    {
      Breaker(state, consecutiveFails, failureThreshold, cooldown, lastFailure)
    }

    ghost predicate Valid()
      reads this
    {
      Reflects(View(), log, now)
    }

    constructor (failureThreshold: int, cooldown: int, zeroTime: int, ghost start: int)
      ensures Valid() && log == [] && now == start
      ensures View() == NewBreaker(failureThreshold, cooldown, zeroTime)
    {
      this.failureThreshold, this.cooldown := failureThreshold, cooldown;
      state, consecutiveFails, lastFailure := Closed, 0, zeroTime;
      log, now := [], start;
    }

    method IsAllowed(at: int) returns (allowed: bool)
      requires Valid() && now <= at
      modifies this
      ensures Valid() && log == old(log) + [Allow(at)] && now == at
      ensures View() == AfterAllow(old(View()), at)
      ensures allowed == RuleAllows(failureThreshold, cooldown, old(log), at)
      ensures allowed <==> !Tripped(failureThreshold, cooldown, old(log), at)
    {
      RuleMeaning(failureThreshold, cooldown, log, at);
      CallKeepsReflects(View(), log, now, Allow(at));
      log, now := log + [Allow(at)], at;
      match state
      case Closed => allowed := true;
      case HalfOpen => allowed := true;
      case Open =>
        if at - lastFailure >= cooldown {
          state := HalfOpen;
          allowed := true;
        } else {
          allowed := false;
        }
    }

    method Succeed()
      requires Valid()
      modifies this
      ensures Valid() && log == old(log) + [RecordSuccess] && now == old(now)
      ensures View() == AfterSuccess(old(View()))
    {
      CallKeepsReflects(View(), log, now, RecordSuccess);
      log := log + [RecordSuccess];
      consecutiveFails := 0;
      state := Closed;
    }

    method Fail(at: int)
      requires Valid() && now <= at
      modifies this
      ensures Valid() && log == old(log) + [RecordFailure(at)] && now == at
      ensures View() == AfterFailure(old(View()), at)
    {
      CallKeepsReflects(View(), log, now, RecordFailure(at));
      log, now := log + [RecordFailure(at)], at;
      consecutiveFails := consecutiveFails + 1;
      lastFailure := at;
      if consecutiveFails >= failureThreshold {
        state := Open;
      }
    }
  }
}
