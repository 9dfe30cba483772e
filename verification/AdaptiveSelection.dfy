/**
 Choosing a provider from its history: weighted scores of all registered providers, and a fallback while any of
 them has too few runs.
 */
module AdaptiveSelection {
  import opened Options
  import opened ProviderAnalytics
  import opened Sorting
  import opened Strings

  const MIN_SAMPLES := 3
  const MAX_DURATION: int := 30 * 60_000_000_000
  const MAX_COST_USD: real := 1.0

  datatype ProviderScore = ProviderScore(provider: string, score: real, confidence: real, sampleSize: nat)

  /** Within [0, 1], and away from the value only at the end nearer to it. */
  function Clamp(value: real): (r: real)
    ensures 0.0 <= r <= 1.0 && (r < value ==> r == 1.0) && (value < r ==> r == 0.0)
  {
    if value < 0.0 then 0.0 else if value > 1.0 then 1.0 else value
  }

  function WeightedScore(m: Option<ProviderMetrics>): real {
    if m.None? || m.value.totalRuns == 0 then 0.0
    else
      var successRate := Clamp(m.value.successRate);
      var speedScore := Clamp(1.0 - Clamp(m.value.avgDuration as real / MAX_DURATION as real));
      var costScore := Clamp(1.0 - Clamp(m.value.avgCostUSD / MAX_COST_USD));
      successRate * 0.6 + speedScore * 0.2 + costScore * 0.2
  }

  function SampleConfidence(sampleSize: int): real {
    if sampleSize <= 0 then 0.0 else Clamp(sampleSize as real / 10.0)
  }

  /** Every score is a share of 1, and a provider without failures scores at least 0.6. */
  lemma WeightedScoreBounds(m: Option<ProviderMetrics>)
    ensures 0.0 <= WeightedScore(m) <= 1.0
    ensures m.Some? && m.value.totalRuns > 0 && m.value.successRate >= 1.0 ==> WeightedScore(m) >= 0.6
  {
  }

  /** Within the scales -- rates up to 1, half an hour, one dollar -- a score is three fifths success rate, one fifth
      speed and one fifth thrift. */
  lemma WeightedScoreShares(m: ProviderMetrics)
    requires m.totalRuns > 0 && 0.0 <= m.successRate <= 1.0
    requires 0 <= m.avgDuration <= 1_800_000_000_000 && 0.0 <= m.avgCostUSD <= 1.0
    ensures WeightedScore(Some(m)) * 5.0
            == 3.0 * m.successRate + (1.0 - m.avgDuration as real / 1_800_000_000_000.0) + (1.0 - m.avgCostUSD)
  {
  }

  /** Succeeding more often, being faster or being cheaper never lowers the score; a provider without runs scores 0. */
  lemma WeightedScoreMonotone(a: ProviderMetrics, b: ProviderMetrics)
    requires a.totalRuns > 0 && b.totalRuns > 0
    requires a.successRate <= b.successRate && a.avgDuration >= b.avgDuration && a.avgCostUSD >= b.avgCostUSD
    ensures WeightedScore(Some(a)) <= WeightedScore(Some(b))
    ensures WeightedScore(None) == 0.0 && WeightedScore(Some(a.(totalRuns := 0))) == 0.0
  {
    ClampMonotone(a.successRate, b.successRate);
    var da, db := a.avgDuration as real / MAX_DURATION as real, b.avgDuration as real / MAX_DURATION as real;
    ClampMonotone(db, da);
    ClampMonotone(1.0 - Clamp(da), 1.0 - Clamp(db));
    ClampMonotone(b.avgCostUSD / MAX_COST_USD, a.avgCostUSD / MAX_COST_USD);
    ClampMonotone(1.0 - Clamp(a.avgCostUSD / MAX_COST_USD), 1.0 - Clamp(b.avgCostUSD / MAX_COST_USD));
  }

  lemma ClampMonotone(x: real, y: real)
    requires x <= y
    ensures Clamp(x) <= Clamp(y)
  {
  }

  /** Ten runs are full confidence, fewer are that many tenths. */
  lemma ConfidenceMeaning(n: nat)
    ensures SampleConfidence(n) * 10.0 == if n >= 10 then 10.0 else n as real
  {
  }

  function Lookup(metrics: map<string, ProviderMetrics>, provider: string): Option<ProviderMetrics> {
    if provider in metrics then Some(metrics[provider]) else None
  }

  function ScoreOf(metrics: map<string, ProviderMetrics>, provider: string): (s: ProviderScore)
    ensures s.provider == provider
  {
    var m := Lookup(metrics, provider);
    if m.None? then ProviderScore(provider, 0.0, 0.0, 0)
    else ProviderScore(provider, WeightedScore(m), SampleConfidence(m.value.totalRuns), m.value.totalRuns)
  }

  predicate Preferred(a: ProviderScore, b: ProviderScore) {
    if a.score == b.score then
      if a.confidence == b.confidence then Less(a.provider, b.provider) else a.confidence > b.confidence
    else a.score > b.score
  }

  lemma PreferredIsWeakOrder()
    ensures WeakOrder(Preferred)
  {
    forall x, y | Preferred(x, y) ensures !Preferred(y, x) { LessTotal(x.provider, y.provider); }
    forall x, y, z | !Preferred(y, x) && !Preferred(z, y) ensures !Preferred(z, x) {
      LessTotal(x.provider, y.provider);
      LessTotal(y.provider, z.provider);
      LessTotal(x.provider, z.provider);
      if Less(x.provider, y.provider) && Less(y.provider, z.provider) {
        LessTransitive(x.provider, y.provider, z.provider);
      }
    }
  }

  lemma LessIsWeakOrder()
    ensures WeakOrder(Less)
  {
    forall x: string, y: string | Less(x, y) ensures !Less(y, x) { LessTotal(x, y); }
    forall x: string, y: string, z: string | !Less(y, x) && !Less(z, y) ensures !Less(z, x) {
      LessTotal(x, y);
      LessTotal(y, z);
      LessTotal(x, z);
      if Less(x, y) && Less(y, z) { LessTransitive(x, y, z); }
    }
  }

  ghost predicate OnePerProvider(scores: seq<ProviderScore>) {
    forall i, j :: 0 <= i < j < |scores| ==> scores[i].provider != scores[j].provider
  }

  /** One score for each registered provider, best first. */
  ghost predicate Scores(registered: set<string>, metrics: map<string, ProviderMetrics>, scores: seq<ProviderScore>) {
    && Sorted(Preferred, scores) && OnePerProvider(scores) && |scores| == |registered|
    && (forall s :: s in scores <==> s.provider in registered && s == ScoreOf(metrics, s.provider))
  }

  lemma ScoredOnce(metrics: map<string, ProviderMetrics>, providers: seq<string>, all: seq<ProviderScore>,
                   scores: seq<ProviderScore>)
    requires Distinct(providers) && |all| == |providers|
    requires forall i :: 0 <= i < |all| ==> all[i] == ScoreOf(metrics, providers[i])
    requires multiset(scores) == multiset(all)
    ensures OnePerProvider(scores)
  {
    PermutationKeepsDistinct(all, scores);
    forall i, j | 0 <= i < j < |scores| ensures scores[i].provider != scores[j].provider {
      SameElements(scores, all, scores[i]);
      SameElements(scores, all, scores[j]);
      assert scores[i] in all && scores[j] in all && scores[i] != scores[j];
    }
  }

  /** What choosing promises: no default, no answer; the default while some registered provider has fewer than
      three runs; otherwise a registered provider that no other one beats. */
  ghost predicate Selected(registered: set<string>, default: string, metrics: map<string, ProviderMetrics>,
                           r: Option<string>)
  {
    if default !in registered then r.None?
    else if exists p :: p in registered && ScoreOf(metrics, p).sampleSize < MIN_SAMPLES then r == Some(default)
    else
      && r.Some? && r.value in registered
      && forall p :: p in registered ==>
           var best, other := ScoreOf(metrics, r.value), ScoreOf(metrics, p);
           && other.score <= best.score
           && (other.score == best.score ==> other.confidence <= best.confidence)
           && (other.score == best.score && other.confidence == best.confidence ==> p == r.value || Less(r.value, p))
  }

  /** The configured default, or the first registered name when none is configured. */
  ghost predicate IsDefault(registered: set<string>, configured: string, name: string) {
    if configured != "" then name == configured
    else if registered == {} then name == ""
    else name in registered && forall p :: p in registered ==> p == name || Less(name, p)
  }

  lemma DefaultIsScored(registered: set<string>, default: string, metrics: map<string, ProviderMetrics>,
                        scores: seq<ProviderScore>)
    requires Scores(registered, metrics, scores) && default in registered
    ensures scores != []
  {
    assert ScoreOf(metrics, default) in scores;
  }

  lemma TooFewSamples(registered: set<string>, default: string, metrics: map<string, ProviderMetrics>,
                      scores: seq<ProviderScore>, i: nat)
    requires Scores(registered, metrics, scores) && default in registered
    requires i < |scores| && scores[i].sampleSize < MIN_SAMPLES
    ensures Selected(registered, default, metrics, Some(default))
  {
    assert scores[i] in scores;
  }

  lemma FirstIsBest(registered: set<string>, default: string, metrics: map<string, ProviderMetrics>,
                    scores: seq<ProviderScore>)
    requires Scores(registered, metrics, scores) && default in registered
    requires scores != [] && forall i :: 0 <= i < |scores| ==> scores[i].sampleSize >= MIN_SAMPLES
    ensures scores[0].provider in registered && Selected(registered, default, metrics, Some(scores[0].provider))
  {
    assert scores[0] in scores;
    var best := scores[0];
    forall p | p in registered
      ensures var other := ScoreOf(metrics, p);
              && other.sampleSize >= MIN_SAMPLES && other.score <= best.score
              && (other.score == best.score ==> other.confidence <= best.confidence)
              && (other.score == best.score && other.confidence == best.confidence ==>
                    p == best.provider || Less(best.provider, p))
    {
      hide *;
      FirstBeats(registered, metrics, scores, p);
    }
  }

  lemma FirstBeats(registered: set<string>, metrics: map<string, ProviderMetrics>, scores: seq<ProviderScore>,
                   p: string)
    requires Scores(registered, metrics, scores) && scores != [] && p in registered
    requires forall i :: 0 <= i < |scores| ==> scores[i].sampleSize >= MIN_SAMPLES
    ensures var best, other := scores[0], ScoreOf(metrics, p);
            && other.sampleSize >= MIN_SAMPLES && other.score <= best.score
            && (other.score == best.score ==> other.confidence <= best.confidence)
            && (other.score == best.score && other.confidence == best.confidence ==>
                  p == best.provider || Less(best.provider, p))
  {
    hide WeightedScore, SampleConfidence;
    LessTotal(scores[0].provider, p);
    assert ScoreOf(metrics, p) in scores;
    var i :| 0 <= i < |scores| && scores[i] == ScoreOf(metrics, p);
  }

  /** A provider's score in terms of its records: how many there are decides the sample size, and without any the
      score is zero. */
  lemma ScoreByRecords(runs: seq<RunRecord>, orgID: nat, provider: string)
    ensures var s, rs := ScoreOf(MetricsOf(runs, orgID), provider), RecordsOf(runs, orgID, provider);
            && s.provider == provider && s.sampleSize == |rs| && s.confidence == SampleConfidence(|rs|)
            && s.score == if rs == [] then 0.0 else WeightedScore(Some(MetricsOf(runs, orgID)[provider]))
  {
    hide Totalled, Averaged, WeightedScore;
    MetricsMeaning(runs, orgID, provider);
    if provider in MetricsOf(runs, orgID) {
      TotalIsLength(RecordsOf(runs, orgID, provider), MetricsOf(runs, orgID)[provider]);
    }
  }

  /** What choosing comes to for an organisation: the default while some registered provider has fewer than three
      records, otherwise a registered provider of maximal score. */
  lemma SelectedByRecords(registered: set<string>, default: string, runs: seq<RunRecord>, orgID: nat, r: Option<string>)
    requires Selected(registered, default, MetricsOf(runs, orgID), r) && default in registered
    ensures if exists p :: p in registered && |RecordsOf(runs, orgID, p)| < 3 then r == Some(default)
            else
              && r.Some? && r.value in registered
              && forall p :: p in registered ==>
                   WeightedScore(Lookup(MetricsOf(runs, orgID), p))
                   <= WeightedScore(Lookup(MetricsOf(runs, orgID), r.value))
  {
    hide RecordsOf, WeightedScore;
    forall p ensures ScoreOf(MetricsOf(runs, orgID), p).sampleSize == |RecordsOf(runs, orgID, p)| {
      ScoreByRecords(runs, orgID, p);
    }
    NoScoreWithoutMetrics();
    if p :| p in registered && |RecordsOf(runs, orgID, p)| < 3 {
      assert ScoreOf(MetricsOf(runs, orgID), p).sampleSize < MIN_SAMPLES;
    }
  }

  lemma NoScoreWithoutMetrics()
    ensures WeightedScore(None) == 0.0
  {
  }

  class AdaptiveSelector {
    const analytics: AnalyticsCollector
    const registered: set<string>
    const defaultProvider: string

    constructor (registered: set<string>, analytics: AnalyticsCollector, defaultProvider: string)
      ensures this.registered == registered && this.analytics == analytics
      ensures this.defaultProvider == TrimSpace(defaultProvider)
    {
      this.registered, this.analytics := registered, analytics;
      this.defaultProvider := TrimSpace(defaultProvider);
    }

    /** The registry's names in sorted order. */
    method List() returns (names: seq<string>)
      ensures Sorted(Less, names) && Distinct(names) && |names| == |registered|
      ensures forall p :: p in names <==> p in registered
    {
      var out: seq<string> := [];
      var todo := registered;
      while todo != {}
        invariant todo <= registered && Distinct(out) && |out| + |todo| == |registered|
        invariant forall p :: p in out <==> p in registered && p !in todo
        decreases |todo|
      {
        var p :| p in todo;
        todo := todo - {p};
        out := out + [p];
      }
      LessIsWeakOrder();
      names := SortSlice(Less, out);
      forall p ensures p in names <==> p in out { SameElements(names, out, p); }
      PermutationKeepsDistinct(out, names);
    }

    method ScoreProviders(orgID: nat) returns (scores: seq<ProviderScore>)
      ensures Scores(registered, MetricsOf(analytics.runs, orgID), scores)
    {
      hide ScoreOf;
      var providers := List();
      var metrics := analytics.MetricsByProvider(orgID);
      var all: seq<ProviderScore> := [];
      for i := 0 to |providers|
        invariant |all| == i && forall j :: 0 <= j < i ==> all[j] == ScoreOf(metrics, providers[j])
        invariant forall s :: s in all <==> s.provider in providers[..i] && s == ScoreOf(metrics, s.provider)
      {
        assert providers[..i + 1] == providers[..i] + [providers[i]];
        all := all + [ScoreOf(metrics, providers[i])];
      }
      assert providers[..|providers|] == providers;
      PreferredIsWeakOrder();
      scores := SortSlice(Preferred, all);
      forall s ensures s in scores <==> s in all { SameElements(scores, all, s); }
      ScoredOnce(metrics, providers, all, scores);
    }

    method DefaultAgentProvider() returns (name: Option<string>)
      ensures exists default :: IsDefault(registered, TrimSpace(defaultProvider), default)
                && name == if default in registered then Some(default) else None
    {
      var configured := TrimSpace(defaultProvider);
      if configured == "" {
        var providers := List();
        if |providers| == 0 {
          assert forall p :: p in registered <==> p in providers;
          assert IsDefault(registered, "", "");
          return None;
        }
        configured := providers[0];
        assert providers[0] in providers;
        forall p | p in registered ensures p == configured || Less(configured, p) {
          var i :| 0 <= i < |providers| && providers[i] == p;
          LessTotal(p, configured);
        }
      }
      assert IsDefault(registered, TrimSpace(defaultProvider), configured);
      name := if configured in registered then Some(configured) else None;
    }

    method SelectProvider(orgID: nat) returns (r: Option<string>)
      ensures exists default :: IsDefault(registered, TrimSpace(defaultProvider), default)
                && Selected(registered, default, MetricsOf(analytics.runs, orgID), r)
    {
      var fallback := DefaultAgentProvider();
      ghost var default :| IsDefault(registered, TrimSpace(defaultProvider), default)
                           && fallback == if default in registered then Some(default) else None;
      if fallback.None? {
        return None;
      }
      ghost var metrics := MetricsOf(analytics.runs, orgID);
      hide ScoreOf, Selected, IsDefault;
      var scores := ScoreProviders(orgID);
      DefaultIsScored(registered, default, metrics, scores);
      if |scores| == 0 {
        return fallback;
      }
      for i := 0 to |scores|
        invariant forall j :: 0 <= j < i ==> scores[j].sampleSize >= MIN_SAMPLES
      {
        if scores[i].sampleSize < MIN_SAMPLES {
          TooFewSamples(registered, default, metrics, scores, i);
          return fallback;
        }
      }
      FirstIsBest(registered, default, metrics, scores);
      if scores[0].provider !in registered {
        return fallback;
      }
      return Some(scores[0].provider);
    }
  }
}
