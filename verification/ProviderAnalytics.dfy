/**
 Run records of coding agents, aggregated by provider in one pass, and the ranking of providers.  Durations
 and timestamps are nanoseconds (timestamps since Go's zero time), money is exact.
 */
module ProviderAnalytics {
  import opened Counting
  import opened Sorting
  import opened Strings

  datatype RunRecord = RunRecord(provider: string, orgID: nat, success: bool, duration: int, tokensUsed: int,
                                 costUSD: real, timestamp: int)

  datatype ProviderMetrics = ProviderMetrics(provider: string, orgID: nat, totalRuns: nat, successfulRuns: nat,
                                             failedRuns: nat, totalDuration: int, avgDuration: int, totalTokens: int,
                                             totalCostUSD: real, avgCostUSD: real, successRate: real, lastRunAt: int)

  /** Go's integer division. */
  function TruncDiv(a: int, b: int): int
    requires b > 0
  {
    if a >= 0 then a / b else -((-a) / b)
  }

  // ---------- the aggregate ----------

  function NewEntry(provider: string, orgID: nat): ProviderMetrics {
    ProviderMetrics(provider, orgID, 0, 0, 0, 0, 0, 0, 0.0, 0.0, 0.0, 0)
  }

  function AddRun(m: ProviderMetrics, r: RunRecord): ProviderMetrics {
    m.(totalRuns := m.totalRuns + 1,
       successfulRuns := m.successfulRuns + (if r.success then 1 else 0),
       failedRuns := m.failedRuns + (if r.success then 0 else 1),
       totalDuration := m.totalDuration + r.duration,
       totalTokens := m.totalTokens + r.tokensUsed,
       totalCostUSD := m.totalCostUSD + r.costUSD,
       lastRunAt := if r.timestamp > m.lastRunAt then r.timestamp else m.lastRunAt)
  }

  function Ratio(x: real, y: real): real
    requires y != 0.0
  {
    x / y
  }

  function WithAverages(m: ProviderMetrics): ProviderMetrics {
    if m.totalRuns == 0 then m
    else m.(avgDuration := TruncDiv(m.totalDuration, m.totalRuns),
            avgCostUSD := Ratio(m.totalCostUSD, m.totalRuns as real),
            successRate := Ratio(m.successfulRuns as real, m.totalRuns as real))
  }

  predicate Counts(r: RunRecord, orgID: nat, provider: string) { r.orgID == orgID && r.provider == provider }

  /** The fold of one provider's records. */
  function Tally(runs: seq<RunRecord>, orgID: nat, provider: string): ProviderMetrics {
    if runs == [] then NewEntry(provider, orgID)
    else
      var m, r := Tally(runs[..|runs| - 1], orgID, provider), runs[|runs| - 1];
      if Counts(r, orgID, provider) then AddRun(m, r) else m
  }

  function Providers(runs: seq<RunRecord>, orgID: nat): set<string> {
    set r | r in runs && r.orgID == orgID :: r.provider
  }

  function MetricsOf(runs: seq<RunRecord>, orgID: nat): map<string, ProviderMetrics> {
    map p | p in Providers(runs, orgID) :: WithAverages(Tally(runs, orgID, p))
  }

  /** The entries while the first loop runs: totals without averages. */
  ghost predicate Aggregates(metrics: map<string, ProviderMetrics>, runs: seq<RunRecord>, orgID: nat) {
    && metrics.Keys == Providers(runs, orgID)
    && forall p :: p in metrics ==> metrics[p] == Tally(runs, orgID, p)
  }

  /** A provider without runs has an empty tally. */
  lemma {:induction false} NoRunsNoTally(runs: seq<RunRecord>, orgID: nat, provider: string)
    requires provider !in Providers(runs, orgID)
    ensures Tally(runs, orgID, provider) == NewEntry(provider, orgID)
  {
    if runs != [] {
      var n := |runs| - 1;
      ProvidersSnoc(runs, orgID, n);
      assert runs[..n + 1] == runs;
      NoRunsNoTally(runs[..n], orgID, provider);
    }
  }

  lemma AggregateStep(metrics: map<string, ProviderMetrics>, runs: seq<RunRecord>, orgID: nat, i: nat)
    requires i < |runs| && Aggregates(metrics, runs[..i], orgID)
    ensures var run := runs[i];
            var entry := if run.provider in metrics then metrics[run.provider] else NewEntry(run.provider, orgID);
            Aggregates(if run.orgID != orgID then metrics else metrics[run.provider := AddRun(entry, run)],
                       runs[..i + 1], orgID)
  {
    var run := runs[i];
    assert runs[..i + 1][..i] == runs[..i];
    ProvidersSnoc(runs, orgID, i);
    if run.provider !in metrics { NoRunsNoTally(runs[..i], orgID, run.provider); }
  }

  /** The second loop, over the entries. */
  method Average(totals: map<string, ProviderMetrics>) returns (metrics: map<string, ProviderMetrics>)
    ensures metrics == map p | p in totals :: WithAverages(totals[p])
  {
    metrics := totals;
    var todo := totals.Keys;
    while todo != {}
      invariant todo <= totals.Keys && metrics.Keys == totals.Keys
      invariant forall p :: p in metrics ==> metrics[p] == if p in todo then totals[p] else WithAverages(totals[p])
      decreases |todo|
    {
      var p :| p in todo;
      todo := todo - {p};
      metrics := metrics[p := WithAverages(metrics[p])];
    }
  }

  class AnalyticsCollector {
    var runs: seq<RunRecord>

    constructor ()
      ensures runs == []
    {
      runs := [];
    }

    method Record(record: RunRecord)
      modifies this
      ensures runs == old(runs) + [record]
    {
      runs := runs + [record];
    }

    method MetricsByProvider(orgID: nat) returns (metrics: map<string, ProviderMetrics>)
      ensures metrics == MetricsOf(runs, orgID)
    {
      var snapshot := runs;
      metrics := map[];
      for i := 0 to |snapshot|
        invariant Aggregates(metrics, snapshot[..i], orgID)
      {
        var run := snapshot[i];
        AggregateStep(metrics, snapshot, orgID, i);
        if run.orgID != orgID {
          continue;
        }
        var entry := if run.provider in metrics then metrics[run.provider] else NewEntry(run.provider, orgID);
        metrics := metrics[run.provider := AddRun(entry, run)];
      }
      assert snapshot[..|snapshot|] == snapshot;
      metrics := Average(metrics);
    }

    /** The first `limit` providers of the ranking, or all of them. */
    method TopProviders(orgID: nat, limit: int) returns (top: seq<ProviderMetrics>)
      ensures exists ranking :: IsRanking(runs, orgID, ranking) && top == FirstOf(ranking, limit)
      ensures forall i, j :: 0 <= i < j < |top| ==> ByMerit(top[i], top[j])
    {
      var metrics := MetricsByProvider(orgID);
      forall p | p in metrics ensures metrics[p].provider == p { TallyAddsUp(runs, orgID, p); }
      var entries := Values(metrics);
      RanksAboveIsWeakOrder();
      var sorted := SortSlice(RanksAbove, entries);
      SortedRanking(runs, orgID, entries, sorted);
      RankingByMerit(runs, orgID, sorted);
      if limit <= 0 || limit >= |sorted| {
        return sorted;
      }
      top := sorted[..limit];
    }
  }

  lemma ProvidersSnoc(runs: seq<RunRecord>, orgID: nat, i: nat)
    requires i < |runs|
    ensures Providers(runs[..i + 1], orgID)
            == Providers(runs[..i], orgID) + if runs[i].orgID == orgID then {runs[i].provider} else {}
  {
    assert runs[..i + 1] == runs[..i] + [runs[i]];
    var a, b := Providers(runs[..i + 1], orgID), Providers(runs[..i], orgID);
    if runs[i].orgID == orgID { assert runs[i] in runs[..i + 1]; }
    forall p | p in b ensures p in a {
      var r :| r in runs[..i] && r.orgID == orgID && r.provider == p;
      assert r in runs[..i + 1];
    }
  }

  /** The entries of a map, in the order its enumeration happens to take. */
  method Values(m: map<string, ProviderMetrics>) returns (r: seq<ProviderMetrics>)
    requires forall p :: p in m ==> m[p].provider == p
    ensures DistinctProviders(r)
    ensures forall x :: x in r <==> x.provider in m && m[x.provider] == x
  {
    r := [];
    var todo := m.Keys;
    while todo != {}
      invariant todo <= m.Keys && DistinctProviders(r)
      invariant forall x :: x in r <==> x.provider in m && x.provider !in todo && m[x.provider] == x
      decreases |todo|
    {
      var p :| p in todo;
      todo := todo - {p};
      forall i | 0 <= i < |r| ensures r[i].provider != p { assert r[i] in r; }
      r := r + [m[p]];
    }
  }

  // ---------- order of records ----------

  lemma AddRunCommutes(m: ProviderMetrics, a: RunRecord, b: RunRecord)
    ensures AddRun(AddRun(m, a), b) == AddRun(AddRun(m, b), a)
  {
  }

  lemma TallySnoc(s: seq<RunRecord>, r: RunRecord, orgID: nat, provider: string)
    ensures Tally(s + [r], orgID, provider)
            == if Counts(r, orgID, provider) then AddRun(Tally(s, orgID, provider), r) else Tally(s, orgID, provider)
  {
    assert (s + [r])[..|s|] == s;
  }

  lemma {:induction false} TallyInsert(s: seq<RunRecord>, x: RunRecord, t: seq<RunRecord>, orgID: nat, provider: string)
    ensures Tally(s + [x] + t, orgID, provider)
            == if Counts(x, orgID, provider) then AddRun(Tally(s + t, orgID, provider), x)
               else Tally(s + t, orgID, provider)
  {
    hide Tally, AddRun, Counts;
    if t == [] {
      assert s + [x] + t == s + [x] && s + t == s;
      TallySnoc(s, x, orgID, provider);
    } else {
      var n := |t| - 1;
      var front, y := t[..n], t[n];
      TallyInsert(s, x, front, orgID, provider);
      assert s + [x] + t == (s + [x] + front) + [y];
      assert s + t == (s + front) + [y];
      TallySnoc(s + [x] + front, y, orgID, provider);
      TallySnoc(s + front, y, orgID, provider);
      AddRunCommutes(Tally(s + front, orgID, provider), x, y);
    }
  }

  /** The last element of one permutation can be taken out of the other. */
  lemma TakeOut(a: seq<RunRecord>, b: seq<RunRecord>) returns (i: nat)
    requires a != [] && multiset(a) == multiset(b)
    ensures i < |b| && b[i] == a[|a| - 1]
    ensures multiset(a[..|a| - 1]) == multiset(b[..i] + b[i + 1..])
  {
    SameElements(a, b, a[|a| - 1]);
    i :| 0 <= i < |b| && b[i] == a[|a| - 1];
    RemoveAt(a, |a| - 1);
    RemoveAt(b, i);
    assert a[..|a| - 1] + a[|a|..] == a[..|a| - 1];
  }

  lemma RemoveAt<T>(s: seq<T>, i: nat)
    requires i < |s|
    ensures multiset(s[..i] + s[i + 1..]) == multiset(s) - multiset{s[i]}
  {
    assert s == s[..i] + [s[i]] + s[i + 1..];
  }

  lemma {:induction false} TallyPermutes(a: seq<RunRecord>, b: seq<RunRecord>, orgID: nat, provider: string)
    requires multiset(a) == multiset(b)
    ensures Tally(a, orgID, provider) == Tally(b, orgID, provider)
    decreases |a|
  {
    if a == [] {
      assert |multiset(b)| == 0;
    } else {
      var i := TakeOut(a, b);
      TallyPermutes(a[..|a| - 1], b[..i] + b[i + 1..], orgID, provider);
      TallyInsert(b[..i], b[i], b[i + 1..], orgID, provider);
      assert b == b[..i] + [b[i]] + b[i + 1..];
    }
  }

  /** The metrics do not depend on the order in which runs were recorded. */
  lemma MetricsPermute(a: seq<RunRecord>, b: seq<RunRecord>, orgID: nat)
    requires multiset(a) == multiset(b)
    ensures MetricsOf(a, orgID) == MetricsOf(b, orgID)
  {
    forall r: RunRecord ensures r in a <==> r in b { SameElements(a, b, r); }
    forall p | p in Providers(a, orgID) ensures MetricsOf(a, orgID)[p] == WithAverages(Tally(b, orgID, p)) {
      TallyPermutes(a, b, orgID, p);
    }
  }

  // ---------- what the metrics say ----------

  /** The organisation's records of one provider, in order. */
  function RecordsOf(runs: seq<RunRecord>, orgID: nat, provider: string): seq<RunRecord> {
    if runs == [] then []
    else
      var n := |runs| - 1;
      RecordsOf(runs[..n], orgID, provider)
      + if runs[n].orgID == orgID && runs[n].provider == provider then [runs[n]] else []
  }

  lemma {:induction false} RecordsOfMembers(runs: seq<RunRecord>, orgID: nat, provider: string)
    ensures forall r :: r in RecordsOf(runs, orgID, provider) <==>
              r in runs && r.orgID == orgID && r.provider == provider
  {
    if runs != [] {
      var n := |runs| - 1;
      RecordsOfMembers(runs[..n], orgID, provider);
      assert runs == runs[..n] + [runs[n]];
    }
  }

  function IntSum(s: seq<RunRecord>, f: RunRecord -> int): int {
    if s == [] then 0 else IntSum(s[..|s| - 1], f) + f(s[|s| - 1])
  }

  function RealSum(s: seq<RunRecord>, f: RunRecord -> real): real {
    if s == [] then 0.0 else RealSum(s[..|s| - 1], f) + f(s[|s| - 1])
  }

  predicate Successful(r: RunRecord) { r.success }

  predicate Unsuccessful(r: RunRecord) { !r.success }

  function DurationOf(r: RunRecord): int { r.duration }

  function TokensOf(r: RunRecord): int { r.tokensUsed }

  function CostOf(r: RunRecord): real { r.costUSD }

  /** The totals, by counting and adding up the records. */
  ghost predicate Totalled(rs: seq<RunRecord>, m: ProviderMetrics) {
    && m.totalRuns == |rs|
    && m.successfulRuns == Count(rs, Successful) && m.failedRuns == Count(rs, Unsuccessful)
    && m.totalDuration == IntSum(rs, DurationOf)
    && m.totalTokens == IntSum(rs, TokensOf)
    && m.totalCostUSD == RealSum(rs, CostOf)
    && IsLatest(rs, m.lastRunAt)
  }

  /** The latest time of a record, but not before the zero time. */
  ghost predicate IsLatest(rs: seq<RunRecord>, at: int) {
    at >= 0 && (forall r :: r in rs ==> r.timestamp <= at) && (at == 0 || exists r :: r in rs && r.timestamp == at)
  }

  lemma LatestSnoc(rs: seq<RunRecord>, at: int, r: RunRecord)
    requires IsLatest(rs, at)
    ensures IsLatest(rs + [r], if r.timestamp > at then r.timestamp else at)
  {
    assert r in rs + [r];
    if x :| x in rs && x.timestamp == at { assert x in rs + [r]; }
  }

  lemma SumSnoc(rs: seq<RunRecord>, r: RunRecord, f: RunRecord -> int, g: RunRecord -> real)
    ensures IntSum(rs + [r], f) == IntSum(rs, f) + f(r)
    ensures RealSum(rs + [r], g) == RealSum(rs, g) + g(r)
  {
    assert (rs + [r])[..|rs|] == rs;
  }

  lemma AddRunTotalled(rs: seq<RunRecord>, m: ProviderMetrics, r: RunRecord)
    requires Totalled(rs, m)
    ensures Totalled(rs + [r], AddRun(m, r))
  {
    hide Count, IntSum, RealSum, IsLatest;
    CountSnoc(rs, Successful, r);
    CountSnoc(rs, Unsuccessful, r);
    SumSnoc(rs, r, DurationOf, CostOf);
    SumSnoc(rs, r, TokensOf, CostOf);
    LatestSnoc(rs, m.lastRunAt, r);
  }

  lemma {:induction false} TallyTotalled(runs: seq<RunRecord>, orgID: nat, provider: string)
    ensures Totalled(RecordsOf(runs, orgID, provider), Tally(runs, orgID, provider))
  {
    if runs != [] {
      hide Totalled, AddRun;
      var n := |runs| - 1;
      TallyTotalled(runs[..n], orgID, provider);
      AddRunTotalled(RecordsOf(runs[..n], orgID, provider), Tally(runs[..n], orgID, provider), runs[n]);
      if !(runs[n].orgID == orgID && runs[n].provider == provider) {
        assert RecordsOf(runs, orgID, provider) == RecordsOf(runs[..n], orgID, provider);
      }
    }
  }

  /** Rates and averages against the records: successes over runs, cost over runs, and duration over runs cut off
      towards zero. */
  ghost predicate Averaged(rs: seq<RunRecord>, m: ProviderMetrics) {
    var n := |rs|;
    var rest := m.totalDuration - m.avgDuration * n;
    && m.successRate * n as real == Count(rs, Successful) as real
    && m.avgCostUSD * n as real == RealSum(rs, CostOf)
    && (if m.totalDuration >= 0 then 0 <= rest < n else -n < rest <= 0)
  }

  lemma AveragesOf(rs: seq<RunRecord>, m: ProviderMetrics)
    requires Totalled(rs, m) && m.totalRuns > 0
    ensures Totalled(rs, WithAverages(m)) && Averaged(rs, WithAverages(m))
  {
    hide Ratio, TruncDiv, Count, IntSum, RealSum, IsLatest;
    TruncDivRest(m.totalDuration, m.totalRuns);
    RatioTimes(m.successfulRuns as real, m.totalRuns as real);
    RatioTimes(m.totalCostUSD, m.totalRuns as real);
  }

  lemma TruncDivRest(a: int, b: int)
    requires b > 0
    ensures var rest := a - TruncDiv(a, b) * b; if a >= 0 then 0 <= rest < b else -b < rest <= 0
  {
    assert a >= 0 ==> a == (a / b) * b + a % b;
    assert -a == ((-a) / b) * b + (-a) % b;
  }

  lemma RatioTimes(x: real, y: real)
    requires y != 0.0
    ensures Ratio(x, y) * y == x
  {
  }

  /** What is reported about a provider, in terms of its records alone; reported are exactly the providers that have
      any. */
  lemma MetricsMeaning(runs: seq<RunRecord>, orgID: nat, provider: string)
    ensures provider in MetricsOf(runs, orgID) <==> RecordsOf(runs, orgID, provider) != []
    ensures provider in MetricsOf(runs, orgID) ==>
              var rs, m := RecordsOf(runs, orgID, provider), MetricsOf(runs, orgID)[provider];
              m.provider == provider && m.orgID == orgID && Totalled(rs, m) && Averaged(rs, m)
  {
    hide Totalled, Averaged, WithAverages;
    TallyAddsUp(runs, orgID, provider);
    TallyTotalled(runs, orgID, provider);
    var rs, m := RecordsOf(runs, orgID, provider), Tally(runs, orgID, provider);
    TotalIsLength(rs, m);
    if provider in MetricsOf(runs, orgID) {
      AveragesOf(rs, m);
      KeepsNames(m);
    }
  }

  lemma TotalIsLength(rs: seq<RunRecord>, m: ProviderMetrics)
    requires Totalled(rs, m)
    ensures m.totalRuns == |rs|
  {
  }

  lemma KeepsNames(m: ProviderMetrics)
    ensures WithAverages(m).provider == m.provider && WithAverages(m).orgID == m.orgID
  {
  }

  // ---------- conservation ----------

  function OrgRuns(runs: seq<RunRecord>, orgID: nat): nat {
    if runs == [] then 0 else OrgRuns(runs[..|runs| - 1], orgID) + if runs[|runs| - 1].orgID == orgID then 1 else 0
  }

  /** Successes and failures make up the total, and a provider that is listed has a run. */
  lemma {:induction false} TallyAddsUp(runs: seq<RunRecord>, orgID: nat, provider: string)
    ensures var m := Tally(runs, orgID, provider);
            && m.successfulRuns + m.failedRuns == m.totalRuns
            && (m.totalRuns > 0 <==> provider in Providers(runs, orgID))
            && m.provider == provider && m.orgID == orgID
  {
    if runs == [] {
    } else {
      var n := |runs| - 1;
      TallyAddsUp(runs[..n], orgID, provider);
      ProvidersSnoc(runs, orgID, n);
      assert runs[..n + 1] == runs;
    }
  }

  ghost predicate DistinctProviders(entries: seq<ProviderMetrics>) {
    forall i, j :: 0 <= i < j < |entries| ==> entries[i].provider != entries[j].provider
  }

  function Totals(runs: seq<RunRecord>, orgID: nat, providers: seq<string>): nat {
    if providers == [] then 0
    else Totals(runs, orgID, providers[..|providers| - 1]) + Tally(runs, orgID, providers[|providers| - 1]).totalRuns
  }

  lemma {:induction false} TotalsSnoc(runs: seq<RunRecord>, orgID: nat, providers: seq<string>)
    requires runs != [] && Distinct(providers)
    ensures var n := |runs| - 1;
            Totals(runs, orgID, providers)
            == Totals(runs[..n], orgID, providers)
               + if runs[n].orgID == orgID && runs[n].provider in providers then 1 else 0
  {
    if providers != [] {
      var k := |providers| - 1;
      TotalsSnoc(runs, orgID, providers[..k]);
      assert providers == providers[..k] + [providers[k]];
      assert runs[|runs| - 1].provider == providers[k] ==> runs[|runs| - 1].provider !in providers[..k];
    }
  }

  /** The totals of all providers add up to the number of the organisation's records. */
  lemma {:induction false} TotalsAddUp(runs: seq<RunRecord>, orgID: nat, providers: seq<string>)
    requires Distinct(providers) && forall r :: r in runs && r.orgID == orgID ==> r.provider in providers
    ensures Totals(runs, orgID, providers) == OrgRuns(runs, orgID)
    decreases |runs|
  {
    if runs == [] {
      NoTotals(orgID, providers);
    } else {
      var n := |runs| - 1;
      TotalsSnoc(runs, orgID, providers);
      assert runs[n] in runs;
      TotalsAddUp(runs[..n], orgID, providers);
    }
  }

  lemma {:induction false} NoTotals(orgID: nat, providers: seq<string>)
    ensures Totals([], orgID, providers) == 0
  {
    if providers != [] { NoTotals(orgID, providers[..|providers| - 1]); }
  }

  // ---------- ranking ----------

  predicate RanksAbove(a: ProviderMetrics, b: ProviderMetrics) {
    if a.successRate != b.successRate then a.successRate > b.successRate
    else if a.successfulRuns != b.successfulRuns then a.successfulRuns > b.successfulRuns
    else if a.totalRuns != b.totalRuns then a.totalRuns > b.totalRuns
    else Less(a.provider, b.provider)
  }

  lemma RanksAboveIsWeakOrder()
    ensures WeakOrder(RanksAbove)
  {
    forall x, y | RanksAbove(x, y) ensures !RanksAbove(y, x) { LessTotal(x.provider, y.provider); }
    forall x, y, z | !RanksAbove(y, x) && !RanksAbove(z, y) ensures !RanksAbove(z, x) {
      LessTotal(x.provider, y.provider);
      LessTotal(y.provider, z.provider);
      LessTotal(x.provider, z.provider);
      if Less(x.provider, y.provider) && Less(y.provider, z.provider) {
        LessTransitive(x.provider, y.provider, z.provider);
      }
    }
  }

  /** Every provider's metrics once, best first. */
  ghost predicate IsRanking(runs: seq<RunRecord>, orgID: nat, ranking: seq<ProviderMetrics>) {
    var metrics := MetricsOf(runs, orgID);
    && DistinctProviders(ranking) && Sorted(RanksAbove, ranking)
    && forall x :: x in ranking <==> x.provider in metrics && metrics[x.provider] == x
  }

  function FirstOf(ranking: seq<ProviderMetrics>, limit: int): seq<ProviderMetrics> {
    if limit <= 0 || limit >= |ranking| then ranking else ranking[..limit]
  }

  lemma SortedRanking(runs: seq<RunRecord>, orgID: nat, entries: seq<ProviderMetrics>, sorted: seq<ProviderMetrics>)
    requires var metrics := MetricsOf(runs, orgID);
             && DistinctProviders(entries)
             && forall x :: x in entries <==> x.provider in metrics && metrics[x.provider] == x
    requires Sorted(RanksAbove, sorted) && multiset(sorted) == multiset(entries)
    ensures IsRanking(runs, orgID, sorted)
  {
    forall x ensures x in sorted <==> x in entries { SameElements(sorted, entries, x); }
    PermutationKeepsDistinct(entries, sorted);
    forall i, j | 0 <= i < j < |sorted| ensures sorted[i].provider != sorted[j].provider {
      assert sorted[i] in entries && sorted[j] in entries && sorted[i] != sorted[j];
    }
  }

  function RankedRuns(ranking: seq<ProviderMetrics>): nat {
    if ranking == [] then 0 else RankedRuns(ranking[..|ranking| - 1]) + ranking[|ranking| - 1].totalRuns
  }

  function Names(ranking: seq<ProviderMetrics>): (r: seq<string>)
    ensures |r| == |ranking|
  {
    seq(|ranking|, i requires 0 <= i < |ranking| => ranking[i].provider)
  }

  lemma {:induction false} RankedAreTotals(runs: seq<RunRecord>, orgID: nat, ranking: seq<ProviderMetrics>)
    requires forall x :: x in ranking ==> x.totalRuns == Tally(runs, orgID, x.provider).totalRuns
    ensures RankedRuns(ranking) == Totals(runs, orgID, Names(ranking))
  {
    if ranking != [] {
      var n := |ranking| - 1;
      RankedAreTotals(runs, orgID, ranking[..n]);
      assert Names(ranking)[..n] == Names(ranking[..n]);
    }
  }

  /** The runs of all ranked providers together are the organisation's records. */
  lemma RankingAddsUp(runs: seq<RunRecord>, orgID: nat, ranking: seq<ProviderMetrics>)
    requires IsRanking(runs, orgID, ranking)
    ensures RankedRuns(ranking) == OrgRuns(runs, orgID)
  {
    var metrics := MetricsOf(runs, orgID);
    RankedAreTotals(runs, orgID, ranking);
    forall r | r in runs && r.orgID == orgID ensures r.provider in Names(ranking) {
      assert r.provider in metrics;
      TallyAddsUp(runs, orgID, r.provider);
      var m := metrics[r.provider];
      assert m in ranking;
      var i :| 0 <= i < |ranking| && ranking[i] == m;
      assert Names(ranking)[i] == r.provider;
    }
    TotalsAddUp(runs, orgID, Names(ranking));
  }

  /** A ranking is by success rate, then by successes, then by runs -- more is better -- and then by name. */
  ghost predicate ByMerit(a: ProviderMetrics, b: ProviderMetrics) {
    || a.successRate > b.successRate
    || (a.successRate == b.successRate && a.successfulRuns > b.successfulRuns)
    || (a.successRate == b.successRate && a.successfulRuns == b.successfulRuns && a.totalRuns > b.totalRuns)
    || (a.successRate == b.successRate && a.successfulRuns == b.successfulRuns && a.totalRuns == b.totalRuns
        && Less(a.provider, b.provider))
  }

  lemma RankingByMerit(runs: seq<RunRecord>, orgID: nat, ranking: seq<ProviderMetrics>)
    requires IsRanking(runs, orgID, ranking)
    ensures forall i, j :: 0 <= i < j < |ranking| ==> ByMerit(ranking[i], ranking[j])
  {
    forall i, j | 0 <= i < j < |ranking| ensures ByMerit(ranking[i], ranking[j]) {
      LessTotal(ranking[i].provider, ranking[j].provider);
      assert !RanksAbove(ranking[j], ranking[i]);
    }
  }

  /** There is one ranking, whatever order the metrics map is enumerated in. */
  lemma RankingUnique(runs: seq<RunRecord>, orgID: nat, a: seq<ProviderMetrics>, b: seq<ProviderMetrics>)
    requires IsRanking(runs, orgID, a) && IsRanking(runs, orgID, b)
    ensures a == b
  {
    SameSet(a, b);
    forall x, y | x in a && y in a && x != y ensures RanksAbove(x, y) || RanksAbove(y, x) {
      LessTotal(x.provider, y.provider);
    }
    SortedUnique(RanksAbove, a, b);
  }
}
