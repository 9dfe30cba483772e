/**
 `BuildRichContext`: repository files become candidates, candidates are sorted, and a greedy pass packs them
 into a token budget.  Strings stand for byte strings.  Which paths are vendored or must be included, and how
 relevant a file is, are parameters: any functions of the path (and content).
 */
module RichContext {
  import opened Sorting
  import opened Strings

  datatype Config = Config(tokenBudget: int, maxFileSize: int, minScore: real)

  /** The heuristics of one call. */
  datatype Heuristics = Heuristics(vendored: string -> bool, mustInclude: string -> bool,
                                   score: (string, string) -> real)

  datatype Candidate = Candidate(path: string, content: string, score: real, tokens: nat, lines: nat, must: bool)

  datatype ContextFile = ContextFile(path: string, content: string, score: real, tokenEstimate: nat)

  datatype ManifestEntry = ManifestEntry(path: string, lines: nat, tokenEstimate: nat)

  datatype Bundle = Bundle(files: seq<ContextFile>, manifest: seq<ManifestEntry>, totalTokens: nat, truncated: bool)

  function NormalizeConfig(cfg: Config): (r: Config)
    ensures r.tokenBudget > 0 && (r.tokenBudget == cfg.tokenBudget || (cfg.tokenBudget <= 0 && r.tokenBudget == 50000))
    ensures r.maxFileSize > 0
    ensures r.maxFileSize == cfg.maxFileSize || (cfg.maxFileSize <= 0 && r.maxFileSize == 100 * 1024)
    ensures r.minScore != 0.0 && (r.minScore == cfg.minScore || (cfg.minScore == 0.0 && r.minScore == 1.0))
  {
    Config(if cfg.tokenBudget <= 0 then 50000 else cfg.tokenBudget,
           if cfg.maxFileSize <= 0 then 100 * 1024 else cfg.maxFileSize,
           if cfg.minScore == 0.0 then 1.0 else cfg.minScore)
  }

  /** A quarter of the length, rounded up. */
  function EstimateTokens(content: string): (r: nat)
    ensures 4 * r - 4 < |content| <= 4 * r
  {
    (|content| + 3) / 4
  }

  function CountLines(content: string): nat {
    if content == "" then 0 else 1 + |set i | 0 <= i < |content| && content[i] == '\n'|
  }

  function Truncate(content: string, size: int): string
    requires size > 0
  {
    if |content| > size then content[..size] else content
  }

  function CandidateFor(h: Heuristics, cfg: Config, path: string, content: string): Candidate
    requires cfg.maxFileSize > 0
  {
    var kept := Truncate(content, cfg.maxFileSize);
    Candidate(path, kept, h.score(path, content), EstimateTokens(kept), CountLines(kept), h.mustInclude(path))
  }

  // ---------- the order of candidates ----------

  predicate Before(a: Candidate, b: Candidate) {
    if a.must != b.must then a.must
    else if a.score == b.score then
      if a.tokens == b.tokens then Less(a.path, b.path) else a.tokens < b.tokens
    else a.score > b.score
  }

  lemma BeforeIsWeakOrder()
    ensures WeakOrder(Before)
  {
    forall x, y | Before(x, y) ensures !Before(y, x) { LessTotal(x.path, y.path); }
    forall x, y, z | !Before(y, x) && !Before(z, y) ensures !Before(z, x) {
      LessTotal(x.path, y.path);
      LessTotal(y.path, z.path);
      LessTotal(x.path, z.path);
      if Less(x.path, y.path) && Less(y.path, z.path) { LessTransitive(x.path, y.path, z.path); }
    }
  }

  ghost predicate DistinctPaths(s: seq<Candidate>) { forall i, j :: 0 <= i < j < |s| ==> s[i].path != s[j].path }

  lemma BeforeIsTotal(s: seq<Candidate>)
    requires DistinctPaths(s)
    ensures TotalOn(Before, s)
  {
    forall x, y | x in s && y in s && x != y ensures Before(x, y) || Before(y, x) {
      LessTotal(x.path, y.path);
    }
  }

  // ---------- packing ----------

  /** The variables of the packing loops. */
  datatype Packing = Packing(files: seq<ContextFile>, manifest: seq<ManifestEntry>, truncated: bool,
                             usedTokens: nat, selected: set<string>)

  const EMPTY_PACKING := Packing([], [], false, 0, {})

  function FileOf(c: Candidate): ContextFile { ContextFile(c.path, c.content, c.score, c.tokens) }

  function AppendCandidate(cfg: Config, p: Packing, c: Candidate, force: bool): Packing {
    if c.path in p.selected then p
    else if !force && c.score < cfg.minScore then p
    else if !force && p.usedTokens + c.tokens > cfg.tokenBudget then p.(truncated := true)
    else Packing(p.files + [FileOf(c)], p.manifest + [ManifestEntry(c.path, c.lines, c.tokens)],
                 p.truncated || p.usedTokens + c.tokens > cfg.tokenBudget,
                 p.usedTokens + c.tokens, p.selected + {c.path})
  }

  /** The first loop: the candidates that must be included. */
  function Forced(cfg: Config, cs: seq<Candidate>): Packing {
    if cs == [] then EMPTY_PACKING
    else
      var p, c := Forced(cfg, cs[..|cs| - 1]), cs[|cs| - 1];
      if c.must then AppendCandidate(cfg, p, c, true) else p
  }

  /** The second loop, over the others. */
  function Filled(cfg: Config, start: Packing, cs: seq<Candidate>): Packing {
    if cs == [] then start
    else
      var p, c := Filled(cfg, start, cs[..|cs| - 1]), cs[|cs| - 1];
      if !c.must then AppendCandidate(cfg, p, c, false) else p
  }

  function BundleOf(p: Packing): Bundle { Bundle(p.files, p.manifest, p.usedTokens, p.truncated) }

  // ---------- the whole ----------

  /** The sequence holds the candidate of each file that is not vendored, once. */
  ghost predicate CandidatesOf(h: Heuristics, cfg: Config, files: map<string, string>, cs: seq<Candidate>)
    requires cfg.maxFileSize > 0
  {
    && DistinctPaths(cs)
    && (forall c :: c in cs ==>
          c.path in files && !h.vendored(c.path) && c == CandidateFor(h, cfg, c.path, files[c.path]))
    && (forall path :: path in files && !h.vendored(path) ==> CandidateFor(h, cfg, path, files[path]) in cs)
  }

  /** The bundle comes from packing the sorted candidates; nothing is said about how the map was enumerated. */
  ghost predicate Built(h: Heuristics, config: Config, files: map<string, string>, cs: seq<Candidate>, bundle: Bundle) {
    var cfg := NormalizeConfig(config);
    && CandidatesOf(h, cfg, files, cs) && Sorted(Before, cs)
    && bundle == BundleOf(Filled(cfg, Forced(cfg, cs), cs))
  }

  /** The bundle is built from some sequence of sorted candidates. */
  ghost predicate IsBundle(h: Heuristics, config: Config, files: map<string, string>, bundle: Bundle) {
    exists cs :: Built(h, config, files, cs, bundle)
  }

  /** `order` is the order in which the range over the map visits its keys. */
  ghost predicate Enumerates(order: seq<string>, files: map<string, string>) {
    && (forall i, j :: 0 <= i < j < |order| ==> order[i] != order[j])
    && (forall path :: path in order <==> path in files)
  }

  method CollectCandidates(h: Heuristics, cfg: Config, files: map<string, string>, order: seq<string>)
    returns (cs: seq<Candidate>)
    requires cfg.maxFileSize > 0 && Enumerates(order, files)
    ensures CandidatesOf(h, cfg, files, cs)
  {
    cs := [];
    for i := 0 to |order|
      invariant DistinctPaths(cs)
      invariant forall c :: c in cs ==> c.path in order[..i] && !h.vendored(c.path)
                                        && c.path in files && c == CandidateFor(h, cfg, c.path, files[c.path])
      invariant forall j :: 0 <= j < i && !h.vendored(order[j]) ==>
          CandidateFor(h, cfg, order[j], files[order[j]]) in cs
    {
      var path := order[i];
      assert order[i] in order && path !in order[..i];
      if h.vendored(path) {
        continue;
      }
      var entry := CandidateFor(h, cfg, path, files[path]);
      forall j | 0 <= j < |cs| ensures cs[j].path != path { assert cs[j] in cs; }
      cs := cs + [entry];
    }
    forall path | path in files && !h.vendored(path) ensures CandidateFor(h, cfg, path, files[path]) in cs {
      var j :| 0 <= j < |order| && order[j] == path;
    }
  }

  lemma SortedKeepsCandidates(h: Heuristics, cfg: Config, files: map<string, string>, cs: seq<Candidate>,
                              sorted: seq<Candidate>)
    requires cfg.maxFileSize > 0 && CandidatesOf(h, cfg, files, cs) && multiset(cs) == multiset(sorted)
    ensures CandidatesOf(h, cfg, files, sorted)
  {
    forall c ensures c in sorted <==> c in cs { SameElements(sorted, cs, c); }
    PermutationKeepsDistinct(cs, sorted);
    forall i, j | 0 <= i < j < |sorted| ensures sorted[i].path != sorted[j].path {
      assert sorted[i] in cs && sorted[j] in cs && sorted[i] != sorted[j];
    }
  }

  method BuildRichContext(h: Heuristics, config: Config, files: map<string, string>, order: seq<string>)
    returns (bundle: Bundle)
    requires Enumerates(order, files)
    ensures IsBundle(h, config, files, bundle)
  {
    var cfg := NormalizeConfig(config);
    var candidates := CollectCandidates(h, cfg, files, order);
    if |candidates| == 0 {
      assert Built(h, config, files, [], Bundle([], [], 0, false));
      return Bundle([], [], 0, false);
    }
    BeforeIsWeakOrder();
    var cs := SortSlice(Before, candidates);
    SortedKeepsCandidates(h, cfg, files, candidates, cs);
    var p := EMPTY_PACKING;
    for i := 0 to |cs|
      invariant p == Forced(cfg, cs[..i])
    {
      assert cs[..i + 1][..i] == cs[..i];
      if cs[i].must {
        p := AppendCandidate(cfg, p, cs[i], true);
      }
    }
    assert cs[..|cs|] == cs;
    for i := 0 to |cs|
      invariant p == Filled(cfg, Forced(cfg, cs), cs[..i])
    {
      assert cs[..i + 1][..i] == cs[..i];
      if !cs[i].must {
        p := AppendCandidate(cfg, p, cs[i], false);
      }
    }
    bundle := BundleOf(p);
    assert Built(h, config, files, cs, bundle);
  }

  // ---------- the same bundle for every enumeration ----------

  lemma SameCandidates(h: Heuristics, config: Config, files: map<string, string>,
                       cs1: seq<Candidate>, bundle1: Bundle, cs2: seq<Candidate>, bundle2: Bundle)
    requires Built(h, config, files, cs1, bundle1) && Built(h, config, files, cs2, bundle2)
    ensures cs1 == cs2
  {
    var cfg := NormalizeConfig(config);
    forall c ensures c in cs1 <==> c in cs2 {
      if c in cs1 { assert CandidateFor(h, cfg, c.path, files[c.path]) in cs2; }
      if c in cs2 { assert CandidateFor(h, cfg, c.path, files[c.path]) in cs1; }
    }
    SameSet(cs1, cs2);
    BeforeIsTotal(cs1);
    SortedUnique(Before, cs1, cs2);
  }

  /** Whatever order the map is enumerated in, the bundle comes out the same. */
  lemma OrderDoesNotMatter(h: Heuristics, config: Config, files: map<string, string>, a: Bundle, b: Bundle)
    requires IsBundle(h, config, files, a) && IsBundle(h, config, files, b)
    ensures a == b
  {
    var cs1 :| Built(h, config, files, cs1, a);
    var cs2 :| Built(h, config, files, cs2, b);
    SameCandidates(h, config, files, cs1, a, cs2, b);
  }

  // ---------- what packing achieves ----------

  function SumTokens(files: seq<ContextFile>): nat {
    if files == [] then 0 else SumTokens(files[..|files| - 1]) + files[|files| - 1].tokenEstimate
  }

  /** The tokens of the candidates that must be included. */
  function MustTokens(cs: seq<Candidate>): nat {
    if cs == [] then 0 else MustTokens(cs[..|cs| - 1]) + if cs[|cs| - 1].must then cs[|cs| - 1].tokens else 0
  }

  /** The packing's own books agree: the token count, the manifest, and the set of selected paths. */
  ghost predicate Books(p: Packing) {
    && p.usedTokens == SumTokens(p.files)
    && |p.manifest| == |p.files|
    && (forall i :: 0 <= i < |p.files| ==>
          p.manifest[i].path == p.files[i].path && p.manifest[i].tokenEstimate == p.files[i].tokenEstimate)
    && (forall i, j :: 0 <= i < j < |p.files| ==> p.files[i].path != p.files[j].path)
    && (forall path :: path in p.selected <==> HasPath(p.files, path))
  }

  ghost predicate HasPath(files: seq<ContextFile>, path: string) {
    exists i :: 0 <= i < |files| && files[i].path == path
  }

  lemma AppendBooks(cfg: Config, p: Packing, c: Candidate, force: bool)
    requires Books(p)
    ensures Books(AppendCandidate(cfg, p, c, force))
  {
    var q := AppendCandidate(cfg, p, c, force);
    if q.files != p.files {
      assert q.files[..|p.files|] == p.files;
      forall path ensures path in q.selected <==> HasPath(q.files, path) {
        HasPathSnoc(p.files, FileOf(c), path);
      }
    }
  }

  lemma HasPathSnoc(files: seq<ContextFile>, f: ContextFile, path: string)
    ensures HasPath(files + [f], path) <==> HasPath(files, path) || f.path == path
  {
    if HasPath(files, path) {
      var i :| 0 <= i < |files| && files[i].path == path;
      assert (files + [f])[i].path == path;
    }
    assert (files + [f])[|files|] == f;
  }

  /** Every file comes from a candidate. */
  ghost predicate Sourced(p: Packing, cs: seq<Candidate>) {
    forall f :: f in p.files ==> exists i :: 0 <= i < |cs| && f == FileOf(cs[i])
  }

  lemma {:induction false} ForcedBooks(cfg: Config, all: seq<Candidate>, n: nat)
    requires n <= |all|
    ensures Books(Forced(cfg, all[..n])) && Sourced(Forced(cfg, all[..n]), all)
  {
    if n > 0 {
      ForcedBooks(cfg, all, n - 1);
      assert all[..n][..n - 1] == all[..n - 1];
      AppendBooks(cfg, Forced(cfg, all[..n - 1]), all[n - 1], true);
    }
  }

  lemma {:induction false} FilledBooks(cfg: Config, all: seq<Candidate>, n: nat)
    requires n <= |all|
    ensures var p := Filled(cfg, Forced(cfg, all), all[..n]); Books(p) && Sourced(p, all)
  {
    if n == 0 {
      assert all[..|all|] == all;
      ForcedBooks(cfg, all, |all|);
    } else {
      FilledBooks(cfg, all, n - 1);
      assert all[..n][..n - 1] == all[..n - 1];
      AppendBooks(cfg, Filled(cfg, Forced(cfg, all), all[..n - 1]), all[n - 1], false);
    }
  }

  /** After the first loop over a prefix: exactly its must-include candidates are in, and the flag says whether
      they exceed the budget. */
  lemma {:induction false} ForcedFacts(cfg: Config, all: seq<Candidate>, n: nat)
    requires DistinctPaths(all) && n <= |all| && cfg.tokenBudget > 0
    ensures var p := Forced(cfg, all[..n]);
            && (forall i :: 0 <= i < |all| ==> (all[i].path in p.selected <==> i < n && all[i].must))
            && p.usedTokens == MustTokens(all[..n])
            && (p.truncated <==> p.usedTokens > cfg.tokenBudget)
  {
    if n == 0 {
      assert all[..0] == [];
    } else {
      ForcedFacts(cfg, all, n - 1);
      assert all[..n][..n - 1] == all[..n - 1];
    }
  }

  /** A candidate that was relevant enough but is not in the bundle. */
  ghost predicate Omitted(cfg: Config, p: Packing, c: Candidate) {
    !c.must && c.score >= cfg.minScore && c.path !in p.selected
  }

  ghost predicate SomeOmitted(cfg: Config, p: Packing, cs: seq<Candidate>, n: nat) {
    exists i :: 0 <= i < n <= |cs| && Omitted(cfg, p, cs[i])
  }

  /** What holds after the second loop has seen a prefix. */
  ghost predicate FilledTo(cfg: Config, p: Packing, all: seq<Candidate>, n: nat)
    requires n <= |all|
  {
    && MustTokens(all) <= p.usedTokens
    && (p.usedTokens <= cfg.tokenBudget || p.usedTokens == MustTokens(all))
    && (forall i :: 0 <= i < |all| && all[i].must ==> all[i].path in p.selected)
    && (forall i :: 0 <= i < |all| && !all[i].must && all[i].path in p.selected ==>
          i < n && all[i].score >= cfg.minScore)
    && (forall i :: 0 <= i < n && Omitted(cfg, p, all[i]) ==> p.usedTokens + all[i].tokens > cfg.tokenBudget)
    && (p.truncated <==> MustTokens(all) > cfg.tokenBudget || SomeOmitted(cfg, p, all, n))
  }

  /** After the second loop over a prefix. */
  lemma {:induction false} FilledFacts(cfg: Config, all: seq<Candidate>, n: nat)
    requires DistinctPaths(all) && n <= |all| && cfg.tokenBudget > 0
    ensures FilledTo(cfg, Filled(cfg, Forced(cfg, all), all[..n]), all, n)
  {
    var start := Forced(cfg, all);
    if n == 0 {
      assert all[..|all|] == all && all[..0] == [];
      ForcedFacts(cfg, all, |all|);
    } else {
      hide FilledTo, Forced, AppendCandidate;
      FilledFacts(cfg, all, n - 1);
      assert all[..n][..n - 1] == all[..n - 1];
      FilledStep(cfg, all, n, Filled(cfg, start, all[..n - 1]));
    }
  }

  lemma FilledStep(cfg: Config, all: seq<Candidate>, n: nat, before: Packing)
    requires DistinctPaths(all) && 0 < n <= |all| && FilledTo(cfg, before, all, n - 1)
    ensures var c := all[n - 1];
            FilledTo(cfg, if !c.must then AppendCandidate(cfg, before, c, false) else before, all, n)
  {
    hide MustTokens, SomeOmitted;
    var c := all[n - 1];
    FilledTruncation(cfg, all, n, before, if !c.must then AppendCandidate(cfg, before, c, false) else before);
  }

  lemma FilledTruncation(cfg: Config, all: seq<Candidate>, n: nat, before: Packing, p: Packing)
    requires DistinctPaths(all) && 0 < n <= |all|
    requires var c := all[n - 1];
             && p == (if !c.must then AppendCandidate(cfg, before, c, false) else before)
             && (c.path in before.selected ==> c.must)
    requires before.usedTokens <= cfg.tokenBudget || before.usedTokens == MustTokens(all)
    requires before.usedTokens >= MustTokens(all)
    requires before.truncated <==> MustTokens(all) > cfg.tokenBudget || SomeOmitted(cfg, before, all, n - 1)
    ensures p.truncated <==> MustTokens(all) > cfg.tokenBudget || SomeOmitted(cfg, p, all, n)
  {
    hide MustTokens, SomeOmitted;
    OmittedSnoc(cfg, p, all, n);
    OmittedUnchanged(cfg, before, p, all, n - 1);
  }

  lemma OmittedSnoc(cfg: Config, p: Packing, all: seq<Candidate>, n: nat)
    requires 0 < n <= |all|
    ensures SomeOmitted(cfg, p, all, n) <==> SomeOmitted(cfg, p, all, n - 1) || Omitted(cfg, p, all[n - 1])
  {
  }

  lemma OmittedUnchanged(cfg: Config, before: Packing, p: Packing, all: seq<Candidate>, n: nat)
    requires DistinctPaths(all) && n < |all|
    requires p.selected == before.selected || p.selected == before.selected + {all[n].path}
    ensures SomeOmitted(cfg, p, all, n) <==> SomeOmitted(cfg, before, all, n)
  {
    forall i | 0 <= i < n ensures Omitted(cfg, before, all[i]) <==> Omitted(cfg, p, all[i]) {
      assert all[i].path != all[n].path;
    }
  }

  /** Packing is exact and maximal:
      - the total is the sum over the files, none of them twice, and stays within the budget unless the
        must-include files alone exceed it;
      - every must-include file that is not vendored is in, every other file in the bundle is relevant enough;
      - no relevant file left out would still fit;
      - the flag is raised exactly when the must-include files exceed the budget or a relevant file is left out. */
  lemma PackingExactAndMaximal(h: Heuristics, config: Config, files: map<string, string>, cs: seq<Candidate>,
                               bundle: Bundle)
    requires Built(h, config, files, cs, bundle)
    ensures var cfg := NormalizeConfig(config);
            && bundle.totalTokens == SumTokens(bundle.files)
            && (bundle.totalTokens <= cfg.tokenBudget || bundle.totalTokens == MustTokens(cs))
            && (forall i, j :: 0 <= i < j < |bundle.files| ==> bundle.files[i].path != bundle.files[j].path)
            && (forall f :: f in bundle.files ==>
                  exists c :: c in cs && f == FileOf(c) && (c.must || c.score >= cfg.minScore))
            && (forall c :: c in cs && c.must ==> FileOf(c) in bundle.files)
            && (forall c :: c in cs && c.score >= cfg.minScore && FileOf(c) !in bundle.files ==>
                  bundle.totalTokens + c.tokens > cfg.tokenBudget)
            && (bundle.truncated <==>
                  || MustTokens(cs) > cfg.tokenBudget
                  || exists c :: c in cs && c.score >= cfg.minScore && FileOf(c) !in bundle.files)
  {
    hide NormalizeConfig, Forced, Filled, AppendCandidate, MustTokens, SumTokens, CandidateFor, Before;
    var cfg := NormalizeConfig(config);
    var p := Filled(cfg, Forced(cfg, cs), cs);
    assert cs[..|cs|] == cs;
    FilledFacts(cfg, cs, |cs|);
    FilledBooks(cfg, cs, |cs|);
    forall c | c in cs ensures FileOf(c) in bundle.files <==> c.path in p.selected {
      InBundle(cs, p, c);
    }
    forall f | f in bundle.files ensures exists c :: c in cs && f == FileOf(c) && (c.must || c.score >= cfg.minScore) {
      var i :| 0 <= i < |cs| && f == FileOf(cs[i]);
      assert cs[i] in cs;
    }
    if c :| c in cs && c.score >= cfg.minScore && FileOf(c) !in bundle.files {
      var i :| 0 <= i < |cs| && cs[i] == c;
      assert Omitted(cfg, p, cs[i]);
    }
    if SomeOmitted(cfg, p, cs, |cs|) {
      var i :| 0 <= i < |cs| && Omitted(cfg, p, cs[i]);
      assert cs[i] in cs;
    }
  }

  lemma InBundle(cs: seq<Candidate>, p: Packing, c: Candidate)
    requires Books(p) && Sourced(p, cs) && DistinctPaths(cs) && c in cs
    ensures FileOf(c) in p.files <==> c.path in p.selected
  {
    if c.path in p.selected {
      var i :| 0 <= i < |p.files| && p.files[i].path == c.path;
      assert p.files[i] in p.files;
      var j :| 0 <= j < |cs| && p.files[i] == FileOf(cs[j]);
    }
  }

  // ---------- which files are preferred ----------

  /** File a is listed before file b: must-include files first, then the higher score, then fewer tokens, then the
      smaller path. */
  ghost predicate Outranks(h: Heuristics, a: ContextFile, b: ContextFile) {
    if h.mustInclude(a.path) != h.mustInclude(b.path) then h.mustInclude(a.path)
    else
      || a.score > b.score
      || (a.score == b.score && a.tokenEstimate < b.tokenEstimate)
      || (a.score == b.score && a.tokenEstimate == b.tokenEstimate && Less(a.path, b.path))
  }

  ghost predicate Ranked(h: Heuristics, files: seq<ContextFile>) {
    forall i, j :: 0 <= i < j < |files| ==> Outranks(h, files[i], files[j])
  }

  /** The candidates of one call, sorted. */
  ghost predicate SortedCandidates(h: Heuristics, cs: seq<Candidate>) {
    && DistinctPaths(cs) && Sorted(Before, cs)
    && forall i :: 0 <= i < |cs| ==> cs[i].must == h.mustInclude(cs[i].path)
  }

  lemma EarlierOutranks(h: Heuristics, cs: seq<Candidate>, k: nat, n: nat)
    requires SortedCandidates(h, cs) && k < |cs| && n < |cs|
    requires k < n || (cs[k].must && !cs[n].must)
    ensures Outranks(h, FileOf(cs[k]), FileOf(cs[n]))
  {
    if k < n {
      assert !Before(cs[n], cs[k]);
      LessTotal(cs[k].path, cs[n].path);
    }
  }

  /** Where a file of the packing comes from, while the loops look at candidate n. */
  ghost predicate Source(cs: seq<Candidate>, f: ContextFile, n: nat, forced: bool) {
    exists k :: 0 <= k < |cs| && f == FileOf(cs[k]) && if forced then k < n && cs[k].must else k < n || cs[k].must
  }

  ghost predicate InRank(h: Heuristics, cs: seq<Candidate>, p: Packing, n: nat, forced: bool) {
    Ranked(h, p.files) && forall i :: 0 <= i < |p.files| ==> Source(cs, p.files[i], n, forced)
  }

  lemma AppendInRank(h: Heuristics, cfg: Config, cs: seq<Candidate>, p: Packing, n: nat, forced: bool)
    requires SortedCandidates(h, cs) && n < |cs| && InRank(h, cs, p, n, forced)
    ensures InRank(h, cs, if cs[n].must == forced then AppendCandidate(cfg, p, cs[n], forced) else p, n + 1, forced)
  {
    var q := if cs[n].must == forced then AppendCandidate(cfg, p, cs[n], forced) else p;
    forall i | 0 <= i < |p.files|
      ensures Source(cs, p.files[i], n + 1, forced) && (cs[n].must == forced ==> Outranks(h, p.files[i], FileOf(cs[n])))
    {
      assert Source(cs, p.files[i], n, forced);
      var k :| 0 <= k < |cs| && p.files[i] == FileOf(cs[k])
               && if forced then k < n && cs[k].must else k < n || cs[k].must;
      if cs[n].must == forced { EarlierOutranks(h, cs, k, n); }
    }
    if q.files != p.files {
      assert q.files == p.files + [FileOf(cs[n])];
      assert Source(cs, FileOf(cs[n]), n + 1, forced);
    }
  }

  lemma {:induction false} ForcedInRank(h: Heuristics, cfg: Config, cs: seq<Candidate>, n: nat)
    requires SortedCandidates(h, cs) && n <= |cs|
    ensures InRank(h, cs, Forced(cfg, cs[..n]), n, true)
  {
    if n > 0 {
      hide SortedCandidates, InRank, AppendCandidate;
      ForcedInRank(h, cfg, cs, n - 1);
      assert cs[..n][..n - 1] == cs[..n - 1];
      AppendInRank(h, cfg, cs, Forced(cfg, cs[..n - 1]), n - 1, true);
    }
  }

  lemma ForcedThenFilled(h: Heuristics, cs: seq<Candidate>, p: Packing)
    requires InRank(h, cs, p, |cs|, true)
    ensures InRank(h, cs, p, 0, false)
  {
    forall i | 0 <= i < |p.files| ensures Source(cs, p.files[i], 0, false) {
      assert Source(cs, p.files[i], |cs|, true);
    }
  }

  lemma {:induction false} FilledInRank(h: Heuristics, cfg: Config, cs: seq<Candidate>, n: nat)
    requires SortedCandidates(h, cs) && n <= |cs|
    ensures InRank(h, cs, Filled(cfg, Forced(cfg, cs), cs[..n]), n, false)
  {
    hide SortedCandidates, InRank, AppendCandidate, Forced;
    if n == 0 {
      assert cs[..|cs|] == cs;
      ForcedInRank(h, cfg, cs, |cs|);
      ForcedThenFilled(h, cs, Forced(cfg, cs));
    } else {
      FilledInRank(h, cfg, cs, n - 1);
      assert cs[..n][..n - 1] == cs[..n - 1];
      AppendInRank(h, cfg, cs, Filled(cfg, Forced(cfg, cs), cs[..n - 1]), n - 1, false);
    }
  }

  lemma BuiltIsSorted(h: Heuristics, config: Config, files: map<string, string>, cs: seq<Candidate>, bundle: Bundle)
    requires Built(h, config, files, cs, bundle)
    ensures SortedCandidates(h, cs)
  {
    forall i | 0 <= i < |cs| ensures cs[i].must == h.mustInclude(cs[i].path) { assert cs[i] in cs; }
  }

  /** Every bundle lists must-include files first and then the others by descending score, with fewer tokens and then
      the smaller path on ties. */
  lemma BundleRanked(h: Heuristics, config: Config, files: map<string, string>, bundle: Bundle)
    requires IsBundle(h, config, files, bundle)
    ensures Ranked(h, bundle.files)
  {
    var cs :| Built(h, config, files, cs, bundle);
    BuiltIsSorted(h, config, files, cs, bundle);
    assert cs[..|cs|] == cs;
    FilledInRank(h, NormalizeConfig(config), cs, |cs|);
  }

  /** The tokens of the must-include files and of those that score at least x. */
  function TokensFrom(h: Heuristics, files: seq<ContextFile>, x: real): nat {
    if files == [] then 0
    else
      var n := |files| - 1;
      TokensFrom(h, files[..n], x)
      + if h.mustInclude(files[n].path) || files[n].score >= x then files[n].tokenEstimate else 0
  }

  lemma {:induction false} AllTokens(h: Heuristics, files: seq<ContextFile>, x: real)
    requires forall f :: f in files ==> h.mustInclude(f.path) || f.score >= x
    ensures TokensFrom(h, files, x) == SumTokens(files)
  {
    if files != [] {
      assert files[|files| - 1] in files;
      AllTokens(h, files[..|files| - 1], x);
    }
  }

  lemma {:induction false} TokensGrow(h: Heuristics, a: seq<ContextFile>, b: seq<ContextFile>, x: real)
    requires a <= b
    ensures TokensFrom(h, a, x) <= TokensFrom(h, b, x)
  {
    if a != b {
      assert a <= b[..|b| - 1];
      TokensGrow(h, a, b[..|b| - 1], x);
    }
  }

  lemma {:induction false} FilledGrows(cfg: Config, start: Packing, cs: seq<Candidate>, n: nat)
    requires n <= |cs|
    ensures Filled(cfg, start, cs[..n]).files <= Filled(cfg, start, cs).files
    ensures Filled(cfg, start, cs[..n]).selected <= Filled(cfg, start, cs).selected
  {
    if n < |cs| {
      var m := |cs| - 1;
      FilledGrows(cfg, start, cs[..m], n);
      assert cs[..m][..n] == cs[..n];
    } else {
      assert cs[..n] == cs;
    }
  }

  /** A relevant candidate that is left out had no room behind the files that come before it. */
  lemma OmittedHadNoRoom(h: Heuristics, cfg: Config, cs: seq<Candidate>, n: nat)
    requires SortedCandidates(h, cs) && n < |cs|
    requires Omitted(cfg, Filled(cfg, Forced(cfg, cs), cs), cs[n])
    ensures TokensFrom(h, Filled(cfg, Forced(cfg, cs), cs).files, cs[n].score) + cs[n].tokens > cfg.tokenBudget
  {
    var start := Forced(cfg, cs);
    var before, end := Filled(cfg, start, cs[..n]), Filled(cfg, start, cs);
    hide Forced;
    FilledGrows(cfg, start, cs, n);
    FilledGrows(cfg, start, cs, n + 1);
    assert cs[..n + 1][..n] == cs[..n];
    FilledInRank(h, cfg, cs, n);
    FilledBooks(cfg, cs, n);
    BeforeScoresHigher(h, cs, before, n);
    AllTokens(h, before.files, cs[n].score);
    TokensGrow(h, before.files, end.files, cs[n].score);
  }

  lemma BeforeScoresHigher(h: Heuristics, cs: seq<Candidate>, p: Packing, n: nat)
    requires SortedCandidates(h, cs) && n < |cs| && InRank(h, cs, p, n, false) && !cs[n].must
    ensures forall f :: f in p.files ==> h.mustInclude(f.path) || f.score >= cs[n].score
  {
    forall f | f in p.files ensures h.mustInclude(f.path) || f.score >= cs[n].score {
      var i :| 0 <= i < |p.files| && p.files[i] == f;
      assert Source(cs, p.files[i], n, false);
      var k :| 0 <= k < |cs| && f == FileOf(cs[k]) && (k < n || cs[k].must);
      EarlierOutranks(h, cs, k, n);
    }
  }

  /** Relevance decides: a file that is relevant enough and not vendored, yet left out, does not fit behind the
      must-include files and the files of at least its score. */
  lemma RelevantFirst(h: Heuristics, config: Config, files: map<string, string>, bundle: Bundle, path: string)
    requires IsBundle(h, config, files, bundle)
    requires path in files && !h.vendored(path) && !h.mustInclude(path)
    requires h.score(path, files[path]) >= NormalizeConfig(config).minScore
    requires forall f :: f in bundle.files ==> f.path != path
    ensures TokensFrom(h, bundle.files, h.score(path, files[path]))
            + EstimateTokens(Truncate(files[path], NormalizeConfig(config).maxFileSize))
            > NormalizeConfig(config).tokenBudget
  {
    hide NormalizeConfig, Before, Forced, Filled, CountLines, TokensFrom;
    var cfg := NormalizeConfig(config);
    var cs :| Built(h, config, files, cs, bundle);
    BuiltIsSorted(h, config, files, cs, bundle);
    var c := CandidateFor(h, cfg, path, files[path]);
    assert c in cs;
    var n :| 0 <= n < |cs| && cs[n] == c;
    assert cs[..|cs|] == cs;
    FilledBooks(cfg, cs, |cs|);
    OmittedHadNoRoom(h, cfg, cs, n);
  }

  // ---------- what an entry says ----------

  /** Manifest and files come from the same candidates. */
  ghost predicate Listed(p: Packing, cs: seq<Candidate>) {
    && |p.manifest| == |p.files|
    && forall i :: 0 <= i < |p.files| ==> ListedFrom(p.files[i], p.manifest[i], cs)
  }

  ghost predicate ListedFrom(f: ContextFile, m: ManifestEntry, cs: seq<Candidate>) {
    exists c :: c in cs && f == FileOf(c) && m == ManifestEntry(c.path, c.lines, c.tokens)
  }

  lemma AppendListed(cfg: Config, p: Packing, cs: seq<Candidate>, c: Candidate, force: bool)
    requires Listed(p, cs) && c in cs
    ensures Listed(AppendCandidate(cfg, p, c, force), cs)
  {
    assert ListedFrom(FileOf(c), ManifestEntry(c.path, c.lines, c.tokens), cs);
  }

  lemma {:induction false} ForcedListed(cfg: Config, all: seq<Candidate>, n: nat)
    requires n <= |all|
    ensures Listed(Forced(cfg, all[..n]), all)
  {
    if n > 0 {
      ForcedListed(cfg, all, n - 1);
      assert all[..n][..n - 1] == all[..n - 1];
      AppendListed(cfg, Forced(cfg, all[..n - 1]), all, all[n - 1], true);
    }
  }

  lemma {:induction false} FilledListed(cfg: Config, all: seq<Candidate>, n: nat)
    requires n <= |all|
    ensures Listed(Filled(cfg, Forced(cfg, all), all[..n]), all)
  {
    if n == 0 {
      assert all[..|all|] == all;
      ForcedListed(cfg, all, |all|);
    } else {
      FilledListed(cfg, all, n - 1);
      assert all[..n][..n - 1] == all[..n - 1];
      AppendListed(cfg, Filled(cfg, Forced(cfg, all), all[..n - 1]), all, all[n - 1], false);
    }
  }

  /** The manifest lists the files in order, with their line counts and estimates. */
  lemma ManifestFacts(h: Heuristics, config: Config, files: map<string, string>, bundle: Bundle)
    requires IsBundle(h, config, files, bundle)
    ensures |bundle.manifest| == |bundle.files|
    ensures forall i :: 0 <= i < |bundle.files| ==>
              var f, m := bundle.files[i], bundle.manifest[i];
              m.path == f.path && m.lines == CountLines(f.content) && m.tokenEstimate == f.tokenEstimate
  {
    var cs :| Built(h, config, files, cs, bundle);
    assert cs[..|cs|] == cs;
    FilledListed(NormalizeConfig(config), cs, |cs|);
    forall i | 0 <= i < |bundle.files|
      ensures var f, m := bundle.files[i], bundle.manifest[i];
              m.path == f.path && m.lines == CountLines(f.content) && m.tokenEstimate == f.tokenEstimate
    {
      assert ListedFrom(bundle.files[i], bundle.manifest[i], cs);
    }
  }

  /** Each entry is a file that is not vendored, cut to the maximal size, with the score of the whole file and a token
      estimate of a quarter of what is kept, rounded up. */
  lemma EntryFacts(h: Heuristics, config: Config, files: map<string, string>, bundle: Bundle, f: ContextFile)
    requires IsBundle(h, config, files, bundle) && f in bundle.files
    ensures f.path in files && !h.vendored(f.path) && f.score == h.score(f.path, files[f.path])
    ensures f.content <= files[f.path] && |f.content| <= NormalizeConfig(config).maxFileSize
    ensures f.content == files[f.path] || |f.content| == NormalizeConfig(config).maxFileSize
    ensures 4 * f.tokenEstimate - 4 < |f.content| <= 4 * f.tokenEstimate
  {
    var cs :| Built(h, config, files, cs, bundle);
    var cfg := NormalizeConfig(config);
    assert cs[..|cs|] == cs;
    FilledBooks(cfg, cs, |cs|);
    var i :| 0 <= i < |cs| && f == FileOf(cs[i]);
    assert cs[i] in cs;
  }

  /** The line count: none in the empty text, otherwise one more than there are line ends. */
  lemma LinesSnoc(content: string, c: char)
    ensures CountLines("") == 0
    ensures CountLines(content + [c]) == (if content == "" then 1 else CountLines(content)) + if c == '\n' then 1 else 0
  {
    var n := |content|;
    var a := set i | 0 <= i < n && content[i] == '\n';
    var b := set i | 0 <= i < n + 1 && (content + [c])[i] == '\n';
    assert b == if c == '\n' then a + {n} else a;
    if content == "" { assert a == {}; }
  }
}
