/**
 `BuildCodegenContext`: a preamble and few-shot sections written into a prompt while a token budget lasts.
 Strings stand for byte strings.  Whether a name occurs in the spec text is a parameter: any predicate.
 */
module CodegenContext {
  import opened Counting
  import opened Options
  import opened Strings

  datatype DesignToken = DesignToken(path: string, fileSize: int)
  datatype Story = Story(path: string, componentName: string, fileSize: int)
  datatype Component = Component(path: string, name: string, imports: seq<string>, props: seq<string>, fileSize: int)
  datatype TypeFile = TypeFile(path: string, fileSize: int)

  datatype RepoIndex = RepoIndex(components: seq<Component>, stories: seq<Story>, typeFiles: seq<TypeFile>,
                                 designTokens: seq<DesignToken>, framework: string, styling: string, testSetup: string)

  const MAX_CONTEXT_TOKENS := 4000

  /** A quarter of the length, rounded up. */
  function TokenEstimate(s: string): (r: nat)
    ensures 4 * r - 4 < |s| <= 4 * r
  {
    (|s| + 3) / 4
  }

  function Digits(n: nat): string {
    if n < 10 then ["0123456789"[n]] else Digits(n / 10) + ["0123456789"[n % 10]]
  }

  function Itoa(n: int): string { if n < 0 then "-" + Digits(-n) else Digits(n) }

  /** What a decimal numeral denotes. */
  function Denotes(s: string): int {
    if s == "" then 0 else 10 * Denotes(s[..|s| - 1]) + (s[|s| - 1] as int - '0' as int)
  }

  /** Printed numbers read back, without leading zeros. */
  lemma {:induction false} DigitsDenote(n: nat)
    ensures Denotes(Digits(n)) == n && Digits(n) != "" && (n > 0 ==> Digits(n)[0] != '0')
    ensures forall i :: 0 <= i < |Digits(n)| ==> '0' <= Digits(n)[i] <= '9'
  {
    assert "0123456789"[n % 10] as int == '0' as int + n % 10;
    if n >= 10 {
      DigitsDenote(n / 10);
      assert Digits(n)[..|Digits(n)| - 1] == Digits(n / 10);
    } else {
      assert Digits(n)[..0] == "";
    }
  }

  // ---------- sorting components ----------

  /** `x` goes in behind every element that is not larger. */
  function Insert(s: seq<Component>, x: Component): seq<Component> {
    if s != [] && s[|s| - 1].fileSize > x.fileSize then Insert(s[..|s| - 1], x) + [s[|s| - 1]] else s + [x]
  }

  function SortedBySize(s: seq<Component>): seq<Component> {
    if s == [] then [] else Insert(SortedBySize(s[..|s| - 1]), s[|s| - 1])
  }

  ghost predicate Ascending(s: seq<Component>) {
    forall i, j :: 0 <= i < j < |s| ==> s[i].fileSize <= s[j].fileSize
  }

  /** The components of one size, in order. */
  function OfSize(s: seq<Component>, size: int): seq<Component> {
    if s == [] then []
    else OfSize(s[..|s| - 1], size) + if s[|s| - 1].fileSize == size then [s[|s| - 1]] else []
  }

  lemma OfSizeSnoc(s: seq<Component>, x: Component, size: int)
    ensures OfSize(s + [x], size) == OfSize(s, size) + if x.fileSize == size then [x] else []
  {
    assert (s + [x])[..|s|] == s;
  }

  lemma {:induction false} InsertAt(s: seq<Component>, x: Component, k: nat)
    requires k <= |s| && (k > 0 ==> s[k - 1].fileSize <= x.fileSize)
    requires forall i :: k <= i < |s| ==> s[i].fileSize > x.fileSize
    ensures Insert(s, x) == s[..k] + [x] + s[k..]
  {
    if k < |s| {
      var n := |s| - 1;
      InsertAt(s[..n], x, k);
      assert s[..n][..k] == s[..k] && s[k..] == s[..n][k..] + [s[n]];
    } else {
      assert s[..k] == s && s[k..] == [];
    }
  }

  lemma {:induction false} InsertPermutes(s: seq<Component>, x: Component)
    ensures multiset(Insert(s, x)) == multiset(s) + multiset{x}
  {
    if s != [] && s[|s| - 1].fileSize > x.fileSize {
      InsertPermutes(s[..|s| - 1], x);
      assert s == s[..|s| - 1] + [s[|s| - 1]];
    }
  }

  lemma {:induction false} InsertOfSize(s: seq<Component>, x: Component, size: int)
    ensures OfSize(Insert(s, x), size) == OfSize(s, size) + if x.fileSize == size then [x] else []
  {
    hide OfSize;
    if s != [] && s[|s| - 1].fileSize > x.fileSize {
      var n := |s| - 1;
      InsertOfSize(s[..n], x, size);
      OfSizeSnoc(Insert(s[..n], x), s[n], size);
      OfSizeSnoc(s[..n], s[n], size);
      assert s == s[..n] + [s[n]];
    } else {
      OfSizeSnoc(s, x, size);
    }
  }

  /** Every element of an insertion is an old one or the new one. */
  lemma {:induction false} InsertMembers(s: seq<Component>, x: Component, i: nat)
    requires i < |Insert(s, x)|
    ensures Insert(s, x)[i] in s || Insert(s, x)[i] == x
  {
    if s != [] && s[|s| - 1].fileSize > x.fileSize && i < |Insert(s, x)| - 1 {
      InsertMembers(s[..|s| - 1], x, i);
    }
  }

  lemma {:induction false} InsertAscending(s: seq<Component>, x: Component)
    requires Ascending(s)
    ensures Ascending(Insert(s, x))
  {
    if s != [] && s[|s| - 1].fileSize > x.fileSize {
      var n := |s| - 1;
      InsertAscending(s[..n], x);
      var t := Insert(s[..n], x);
      forall i | 0 <= i < |t| ensures t[i].fileSize <= s[n].fileSize {
        InsertMembers(s[..n], x, i);
      }
    }
  }

  lemma {:induction false} SortAscends(s: seq<Component>)
    ensures Ascending(SortedBySize(s))
  {
    if s != [] {
      SortAscends(s[..|s| - 1]);
      InsertAscending(SortedBySize(s[..|s| - 1]), s[|s| - 1]);
    }
  }

  lemma {:induction false} SortPermutes(s: seq<Component>)
    ensures multiset(SortedBySize(s)) == multiset(s)
  {
    hide Insert;
    if s != [] {
      var n := |s| - 1;
      SortPermutes(s[..n]);
      InsertPermutes(SortedBySize(s[..n]), s[n]);
      assert s == s[..n] + [s[n]];
    }
  }

  lemma {:induction false} SortStable(s: seq<Component>, size: int)
    ensures OfSize(SortedBySize(s), size) == OfSize(s, size)
  {
    if s != [] {
      SortStable(s[..|s| - 1], size);
      InsertOfSize(SortedBySize(s[..|s| - 1]), s[|s| - 1], size);
    }
  }

  /** The sort is an ascending permutation that keeps components of equal size in their order. */
  lemma SortFacts(s: seq<Component>, size: int)
    ensures Ascending(SortedBySize(s)) && multiset(SortedBySize(s)) == multiset(s)
    ensures OfSize(SortedBySize(s), size) == OfSize(s, size)
  {
    SortAscends(s);
    SortPermutes(s);
    SortStable(s, size);
  }

  /** A sequence that is `s` with `x` put in behind the elements that are not larger. */
  lemma InsertedAt(s: seq<Component>, x: Component, k: nat, r: seq<Component>)
    requires k <= |s| == |r| - 1 && (k > 0 ==> s[k - 1].fileSize <= x.fileSize)
    requires forall i :: k <= i < |s| ==> s[i].fileSize > x.fileSize
    requires (forall i :: 0 <= i < k ==> r[i] == s[i]) && r[k] == x && forall i :: k < i < |r| ==> r[i] == s[i - 1]
    ensures r == Insert(s, x)
  {
    InsertAt(s, x, k);
    assert r == s[..k] + [x] + s[k..];
  }

  /** The inner loop: shift larger components up and drop the key into the gap. */
  method InsertInPlace(comps: array<Component>, i: nat)
    requires i < comps.Length
    modifies comps
    ensures comps[..i + 1] == Insert(old(comps[..i]), old(comps[i]))
    ensures forall k :: i < k < comps.Length ==> comps[k] == old(comps[k])
  {
    ghost var s := comps[..i];
    var key := comps[i];
    var j := i - 1;
    while j >= 0 && comps[j].fileSize > key.fileSize
      invariant -1 <= j < i
      invariant forall k :: 0 <= k <= j ==> comps[k] == s[k]
      invariant forall k :: j + 2 <= k <= i ==> comps[k] == s[k - 1]
      invariant forall k :: j < k < i ==> s[k].fileSize > key.fileSize
      invariant forall k :: i < k < comps.Length ==> comps[k] == old(comps[k])
    {
      comps[j + 1] := comps[j];
      j := j - 1;
    }
    comps[j + 1] := key;
    InsertedAt(s, key, j + 1, comps[..i + 1]);
  }

  lemma SortStep(s: seq<Component>, i: nat)
    requires i < |s|
    ensures SortedBySize(s[..i + 1]) == Insert(SortedBySize(s[..i]), s[i])
  {
    assert s[..i + 1][..i] == s[..i];
  }

  method SortByFileSize(comps: array<Component>)
    modifies comps
    ensures comps[..] == SortedBySize(old(comps[..]))
  {
    ghost var was := comps[..];
    ghost var n := comps.Length;
    if n > 0 { SortStep(was, 0); }
    var i := 1;
    while i < comps.Length
      invariant 1 <= i && (n > 0 ==> i <= n)
      invariant n > 0 ==> comps[..i] == SortedBySize(was[..i])
      invariant forall k :: i <= k < n ==> comps[k] == was[k]
    {
      SortStep(was, i);
      InsertInPlace(comps, i);
      i := i + 1;
    }
    if n > 0 { assert was[..n] == was && comps[..n] == comps[..]; }
  }

  // ---------- the relevance split ----------

  function Filter<T>(s: seq<T>, p: T -> bool): seq<T> {
    if s == [] then [] else Filter(s[..|s| - 1], p) + if p(s[|s| - 1]) then [s[|s| - 1]] else []
  }

  function Not<T>(p: T -> bool): T -> bool { x => !p(x) }

  /** Relevant elements first, each part in the order it had. */
  function Split<T>(s: seq<T>, p: T -> bool): seq<T> { Filter(s, p) + Filter(s, Not(p)) }

  method SplitByRelevance<T>(s: seq<T>, p: T -> bool) returns (r: seq<T>)
    ensures r == Split(s, p)
  {
    var relevant, other := [], [];
    for i := 0 to |s|
      invariant relevant == Filter(s[..i], p) && other == Filter(s[..i], Not(p))
    {
      assert s[..i + 1][..i] == s[..i];
      if p(s[i]) {
        relevant := relevant + [s[i]];
      } else {
        other := other + [s[i]];
      }
    }
    assert s[..|s|] == s;
    r := relevant + other;
  }

  lemma {:induction false} FilterFacts<T>(s: seq<T>, p: T -> bool)
    ensures multiset(Filter(s, p)) + multiset(Filter(s, Not(p))) == multiset(s)
    ensures forall x :: x in Filter(s, p) ==> p(x) && x in s
    ensures forall x :: x in Filter(s, Not(p)) ==> !p(x)
  {
    if s != [] {
      FilterFacts(s[..|s| - 1], p);
      assert s == s[..|s| - 1] + [s[|s| - 1]];
    }
  }

  lemma {:induction false} FilterAscending(s: seq<Component>, p: Component -> bool)
    requires Ascending(s)
    ensures Ascending(Filter(s, p))
    ensures forall x :: x in Filter(s, p) ==> x in s
  {
    if s != [] {
      var n := |s| - 1;
      FilterAscending(s[..n], p);
      forall x | x in Filter(s[..n], p) ensures x.fileSize <= s[n].fileSize {
        var i :| 0 <= i < n && s[..n][i] == x;
      }
    }
  }

  /** Sorting and splitting: nothing is lost or duplicated, relevant components come first, and each part is
      ascending by size. */
  lemma ComponentOrder(comps: seq<Component>, p: Component -> bool)
    ensures var sorted := SortedBySize(comps);
            var m := |Filter(sorted, p)|;
            var r := Split(sorted, p);
            && multiset(r) == multiset(comps) && m <= |r|
            && (forall i :: 0 <= i < |r| ==> (p(r[i]) <==> i < m))
            && Ascending(r[..m]) && Ascending(r[m..])
  {
    SortFacts(comps, 0);
    var sorted := SortedBySize(comps);
    FilterFacts(sorted, p);
    FilterAscending(sorted, p);
    FilterAscending(sorted, Not(p));
    var r := Split(sorted, p);
    var m := |Filter(sorted, p)|;
    assert r[..m] == Filter(sorted, p) && r[m..] == Filter(sorted, Not(p));
    forall i | 0 <= i < |r| ensures p(r[i]) <==> i < m {
      if i < m { assert r[i] == r[..m][i]; } else { assert r[i] == r[m..][i - m]; }
    }
  }

  lemma {:induction false} FilterCounts<T>(s: seq<T>, p: T -> bool)
    ensures |Filter(s, p)| == Count(s, p)
  {
    if s != [] {
      var n := |s| - 1;
      FilterCounts(s[..n], p);
      CountSnoc(s[..n], p, s[n]);
      assert s == s[..n] + [s[n]];
    }
  }

  lemma {:induction false} FilterPlace<T>(s: seq<T>, p: T -> bool, i: nat)
    requires i < |s| && p(s[i])
    ensures Count(s[..i], p) < |Filter(s, p)| && Filter(s, p)[Count(s[..i], p)] == s[i]
  {
    var n := |s| - 1;
    FilterCounts(s[..n], p);
    if i < n {
      FilterPlace(s[..n], p, i);
      assert s[..n][..i] == s[..i];
    }
  }

  /** Where the split puts an item: behind the earlier items of its kind, and all of the relevant ones if it is not. */
  lemma SplitPlace<T>(s: seq<T>, p: T -> bool, i: nat)
    requires i < |s|
    ensures |Split(s, p)| == |s|
    ensures var place := if p(s[i]) then Count(s[..i], p) else Count(s, p) + Count(s[..i], Not(p));
            place < |s| && Split(s, p)[place] == s[i]
  {
    SplitLength(s, p);
    FilterCounts(s, p);
    if p(s[i]) { FilterPlace(s, p, i); } else { FilterPlace(s, Not(p), i); }
  }

  lemma {:induction false} SplitLength<T>(s: seq<T>, p: T -> bool)
    ensures |Split(s, p)| == |s|
  {
    if s != [] { SplitLength(s[..|s| - 1], p); }
  }

  // ---------- writing sections ----------

  function Block(header: string, path: string, content: string): string {
    "### " + header + "\n```\n// " + path + "\n" + TrimSpace(content) + "\n```\n\n"
  }

  function TokenBlock(t: DesignToken): string {
    Block("Design token: " + t.path, t.path, "(size: " + Itoa(t.fileSize) + " bytes)")
  }

  function StoryBlock(s: Story): string {
    Block("Story example: " + s.path, s.path,
          "(Storybook story for " + s.componentName + ", " + Itoa(s.fileSize) + " bytes)")
  }

  function Description(c: Component): string {
    (if c.props != [] then "// Props: " + Join(c.props, ", ") + "\n" else "")
    + (if c.imports != [] then "// Imports: " + Join(c.imports, ", ") + "\n" else "")
    + "// File size: " + Itoa(c.fileSize) + " bytes"
  }

  function ComponentBlock(c: Component): string { Block("Component: " + c.name, c.path, Description(c)) }

  function TypeBlock(t: TypeFile): string {
    Block("Type definitions: " + t.path, t.path, "(size: " + Itoa(t.fileSize) + " bytes)")
  }

  /** A line of the preamble for a property that is known. */
  function Line(property: string, value: string): string {
    if value == "" then "" else "- " + property + ": " + value + "\n"
  }

  function Preamble(index: RepoIndex): string {
    if index.framework == "" && index.styling == "" then ""
    else
      "## Codebase Context\n\n" + Line("Framework", index.framework) + Line("Styling", index.styling)
      + Line("Test setup", index.testSetup) + "\n"
  }

  function Blocks<T>(items: seq<T>, render: T -> string): (r: seq<string>)
    ensures |r| == |items|
  {
    seq(|items|, i requires 0 <= i < |items| => render(items[i]))
  }

  function Cost(blocks: seq<string>): nat {
    if blocks == [] then 0 else Cost(blocks[..|blocks| - 1]) + TokenEstimate(blocks[|blocks| - 1])
  }

  function Concat(blocks: seq<string>): string {
    if blocks == [] then "" else Concat(blocks[..|blocks| - 1]) + blocks[|blocks| - 1]
  }

  /** One section loop: each block in turn is written if it fits what is left, until `cap` have been written. */
  function Fill(blocks: seq<string>, cap: nat, remaining: int): seq<string> {
    if blocks == [] then []
    else
      var written, b := Fill(blocks[..|blocks| - 1], cap, remaining), blocks[|blocks| - 1];
      if |written| < cap && TokenEstimate(b) <= remaining - Cost(written) then written + [b] else written
  }

  /** The two loops that look at the first two items only. */
  function FirstTwo<T>(items: seq<T>): (r: seq<T>)
    ensures r <= items && |r| == if |items| <= 2 then |items| else 2
  {
    if |items| <= 2 then items else items[..2]
  }

  datatype Sections = Sections(tokens: seq<string>, stories: seq<string>, components: seq<string>, types: seq<string>)

  function MentionedStory(mentioned: string -> bool): Story -> bool {
    (s: Story) => mentioned(s.componentName)
  }

  function MentionedComponent(mentioned: string -> bool): Component -> bool {
    (c: Component) => mentioned(c.name)
  }

  /** What could be written, in order. */
  function Offered(index: RepoIndex, mentioned: string -> bool): Sections {
    Sections(Blocks(FirstTwo(index.designTokens), TokenBlock),
             Blocks(Split(index.stories, MentionedStory(mentioned)), StoryBlock),
             Blocks(Split(SortedBySize(index.components), MentionedComponent(mentioned)), ComponentBlock),
             Blocks(FirstTwo(index.typeFiles), TypeBlock))
  }

  /** What is written: each loop starts with the budget the one before has left. */
  function Written(offered: Sections, start: int): Sections {
    var t := Fill(offered.tokens, 2, start);
    var left1 := Left(start, t);
    var s := Fill(offered.stories, 3, left1);
    var left2 := Left(left1, s);
    var c := Fill(offered.components, 5, left2);
    Sections(t, s, c, Fill(offered.types, 2, Left(left2, c)))
  }

  function Left(budget: int, written: seq<string>): int { budget - Cost(written) }

  function AllBlocks(w: Sections): seq<string> { w.tokens + w.stories + w.components + w.types }

  function BudgetAfterPreamble(index: RepoIndex): int { MAX_CONTEXT_TOKENS - TokenEstimate(Preamble(index)) }

  function ContextText(index: RepoIndex, mentioned: string -> bool): string {
    Preamble(index) + Concat(AllBlocks(Written(Offered(index, mentioned), BudgetAfterPreamble(index))))
  }

  lemma FillSnoc(blocks: seq<string>, cap: nat, remaining: int, i: nat)
    requires i < |blocks|
    ensures var written := Fill(blocks[..i], cap, remaining);
            Fill(blocks[..i + 1], cap, remaining)
            == if |written| < cap && TokenEstimate(blocks[i]) <= remaining - Cost(written)
               then written + [blocks[i]] else written
  {
    assert blocks[..i + 1][..i] == blocks[..i];
  }

  lemma {:induction false} FillStops(blocks: seq<string>, cap: nat, remaining: int, i: nat)
    requires i <= |blocks| && |Fill(blocks[..i], cap, remaining)| >= cap
    ensures Fill(blocks, cap, remaining) == Fill(blocks[..i], cap, remaining)
    decreases |blocks| - i
  {
    if i == |blocks| {
      assert blocks[..i] == blocks;
    } else {
      FillSnoc(blocks, cap, remaining, i);
      FillStops(blocks, cap, remaining, i + 1);
    }
  }

  lemma WrittenSnoc(written: seq<string>, b: string)
    ensures Cost(written + [b]) == Cost(written) + TokenEstimate(b)
    ensures Concat(written + [b]) == Concat(written) + b
  {
    assert (written + [b])[..|written|] == written;
  }

  /** One loop's effect on the text and the budget. */
  ghost predicate Wrote(blocks: seq<string>, cap: nat, before: string, budget: int, after: string, left: int) {
    var written := Fill(blocks, cap, budget);
    after == before + Concat(written) && left == Left(budget, written)
  }

  class ContextWriter {
    var text: string
    var remaining: int

    constructor ()
      ensures text == "" && remaining == MAX_CONTEXT_TOKENS
    {
      text, remaining := "", MAX_CONTEXT_TOKENS;
    }

    method WriteBlock(block: string) returns (ok: bool)
      modifies this
      ensures ok <==> TokenEstimate(block) <= old(remaining)
      ensures text == old(text) + if ok then block else ""
      ensures remaining == old(remaining) - if ok then TokenEstimate(block) else 0
    {
      var cost := TokenEstimate(block);
      if cost > remaining {
        return false;
      }
      text := text + block;
      remaining := remaining - cost;
      return true;
    }

    /** The preamble is written whatever it costs. */
    method WritePreamble(preamble: string)
      modifies this
      ensures text == old(text) + preamble && remaining == old(remaining) - TokenEstimate(preamble)
    {
      text := text + preamble;
      remaining := remaining - TokenEstimate(preamble);
    }

    /** The writer has dealt with the first i blocks, `added` of which it wrote. */
    ghost predicate Progress(blocks: seq<string>, cap: nat, i: nat, before: string, budget: int, added: nat)
      requires i <= |blocks|
      reads this
    {
      var written := Fill(blocks[..i], cap, budget);
      text == before + Concat(written) && remaining == budget - Cost(written) && added == |written|
    }

    /** One more block. */
    method WriteNext(block: string, ghost blocks: seq<string>, ghost cap: nat, ghost i: nat, ghost before: string,
                     ghost budget: int, ghost added: nat)
      returns (ok: bool)
      requires i < |blocks| && block == blocks[i] && added < cap && Progress(blocks, cap, i, before, budget, added)
      modifies this
      ensures Progress(blocks, cap, i + 1, before, budget, if ok then added + 1 else added)
    {
      hide Fill, Cost, Concat;
      ghost var written := Fill(blocks[..i], cap, budget);
      FillSnoc(blocks, cap, budget, i);
      WrittenSnoc(written, blocks[i]);
      ok := WriteBlock(block);
    }

    /** A loop that counts the sections it has added and stops at `cap`. */
    method WriteUpTo<T>(items: seq<T>, render: T -> string, cap: nat)
      modifies this
      ensures Wrote(Blocks(items, render), cap, old(text), old(remaining), text, remaining)
    {
      ghost var blocks := Blocks(items, render);
      var added := 0;
      var i := 0;
      while i < |items|
        invariant 0 <= i <= |items|
        invariant Progress(blocks, cap, i, old(text), old(remaining), added)
      {
        if added >= cap {
          FillStops(blocks, cap, old(remaining), i);
          break;
        }
        var ok := WriteNext(render(items[i]), blocks, cap, i, old(text), old(remaining), added);
        if ok {
          added := added + 1;
        }
        i := i + 1;
      }
      assert blocks[..|items|] == blocks;
    }

    /** A loop that looks at the first two items only. */
    method WriteFirstTwo<T>(items: seq<T>, render: T -> string)
      modifies this
      ensures Wrote(Blocks(FirstTwo(items), render), 2, old(text), old(remaining), text, remaining)
    {
      ghost var blocks := Blocks(FirstTwo(items), render);
      ghost var before, budget := text, remaining;
      ghost var added := 0;
      var i := 0;
      while i < |items| && i < 2
        invariant 0 <= i <= |blocks| && added <= i
        invariant Progress(blocks, 2, i, before, budget, added)
      {
        var ok := WriteNext(render(items[i]), blocks, 2, i, before, budget, added);
        added := if ok then added + 1 else added;
        i := i + 1;
      }
      AllDone(blocks, 2, i, before, budget, added);
    }

    lemma AllDone(blocks: seq<string>, cap: nat, i: nat, before: string, budget: int, added: nat)
      requires i == |blocks| && Progress(blocks, cap, i, before, budget, added)
      ensures Wrote(blocks, cap, before, budget, text, remaining)
    {
      assert blocks[..i] == blocks;
    }
  }

  lemma {:induction false} ConcatAppend(a: seq<string>, b: seq<string>)
    ensures Concat(a + b) == Concat(a) + Concat(b)
    ensures Cost(a + b) == Cost(a) + Cost(b)
  {
    if b == [] {
      assert a + b == a;
    } else {
      var n := |b| - 1;
      assert (a + b)[..|a + b| - 1] == a + b[..n];
      ConcatAppend(a, b[..n]);
    }
  }

  lemma JoinSections(w: Sections)
    ensures Concat(AllBlocks(w)) == Concat(w.tokens) + Concat(w.stories) + Concat(w.components) + Concat(w.types)
    ensures Cost(AllBlocks(w)) == Cost(w.tokens) + Cost(w.stories) + Cost(w.components) + Cost(w.types)
  {
    ConcatAppend(w.tokens, w.stories);
    ConcatAppend(w.tokens + w.stories, w.components);
    ConcatAppend(w.tokens + w.stories + w.components, w.types);
  }

  // ---------- what one loop writes ----------

  lemma {:induction false} FillWithinBudget(blocks: seq<string>, cap: nat, remaining: int)
    ensures |Fill(blocks, cap, remaining)| <= cap
    ensures Cost(Fill(blocks, cap, remaining)) <= (if remaining >= 0 then remaining else 0)
  {
    if blocks != [] {
      var front := blocks[..|blocks| - 1];
      FillWithinBudget(front, cap, remaining);
      WrittenSnoc(Fill(front, cap, remaining), blocks[|blocks| - 1]);
    }
  }

  /** A block that was passed over although the cap was not reached does not fit what is left at the end. */
  lemma {:induction false} FillMaximal(blocks: seq<string>, cap: nat, remaining: int, i: nat)
    requires i < |blocks| && |Fill(blocks, cap, remaining)| < cap
    ensures blocks[i] in Fill(blocks, cap, remaining)
            || TokenEstimate(blocks[i]) > remaining - Cost(Fill(blocks, cap, remaining))
    decreases |blocks|
  {
    hide Cost, TokenEstimate;
    var n := |blocks| - 1;
    var written := Fill(blocks[..n], cap, remaining);
    WrittenSnoc(written, blocks[n]);
    if i < n {
      FillMaximal(blocks[..n], cap, remaining, i);
      assert blocks[..n][i] == blocks[i];
    }
  }

  lemma {:induction false} FillMembers(blocks: seq<string>, cap: nat, remaining: int)
    ensures forall b :: b in Fill(blocks, cap, remaining) ==> b in blocks
  {
    if blocks != [] { FillMembers(blocks[..|blocks| - 1], cap, remaining); }
  }

  lemma FillLeavesOnlyMisfits(blocks: seq<string>, cap: nat, remaining: int)
    ensures var written := Fill(blocks, cap, remaining);
            forall b :: b in blocks && b !in written ==>
              |written| == cap || TokenEstimate(b) > remaining - Cost(written)
  {
    var written := Fill(blocks, cap, remaining);
    FillWithinBudget(blocks, cap, remaining);
    forall b | b in blocks && b !in written && |written| < cap
      ensures TokenEstimate(b) > remaining - Cost(written)
    {
      var i :| 0 <= i < |blocks| && blocks[i] == b;
      FillMaximal(blocks, cap, remaining, i);
    }
  }

  /** What one loop achieves: no more than `cap` of the offered blocks, within the budget, and a block passed over
      before the cap was reached does not fit what is left. */
  ghost predicate Filled(blocks: seq<string>, cap: nat, budget: int, written: seq<string>, left: int) {
    && |written| <= cap && left <= budget && (left >= 0 || left == budget)
    && (forall b :: b in written ==> b in blocks)
    && (forall b :: b in blocks && b !in written ==> |written| == cap || TokenEstimate(b) > left)
  }

  lemma FillFilled(blocks: seq<string>, cap: nat, budget: int)
    ensures Filled(blocks, cap, budget, Fill(blocks, cap, budget), Left(budget, Fill(blocks, cap, budget)))
  {
    FillWithinBudget(blocks, cap, budget);
    FillMembers(blocks, cap, budget);
    FillLeavesOnlyMisfits(blocks, cap, budget);
  }

  /** The four loops and the budgets between them. */
  lemma Stages(o: Sections, start: int) returns (w: Sections, left1: int, left2: int, left3: int)
    ensures w == Written(o, start)
    ensures Filled(o.tokens, 2, start, w.tokens, left1) && Filled(o.stories, 3, left1, w.stories, left2)
    ensures Filled(o.components, 5, left2, w.components, left3)
    ensures Filled(o.types, 2, left3, w.types, start - Cost(AllBlocks(w)))
  {
    w := Written(o, start);
    left1 := Left(start, w.tokens);
    left2 := Left(left1, w.stories);
    left3 := Left(left2, w.components);
    JoinSections(w);
    FillFilled(o.tokens, 2, start);
    FillFilled(o.stories, 3, left1);
    FillFilled(o.components, 5, left2);
    FillFilled(o.types, 2, left3);
  }

  lemma FourLoops(o: Sections, start: int, t0: string, t1: string, t2: string, t3: string, t4: string,
                  left1: int, left2: int, left3: int, left4: int)
    requires Wrote(o.tokens, 2, t0, start, t1, left1) && Wrote(o.stories, 3, t1, left1, t2, left2)
    requires Wrote(o.components, 5, t2, left2, t3, left3) && Wrote(o.types, 2, t3, left3, t4, left4)
    ensures t4 == t0 + Concat(AllBlocks(Written(o, start)))
  {
    var w := Written(o, start);
    JoinSections(w);
    Reassociate(t0, Concat(w.tokens), Concat(w.stories), Concat(w.components), Concat(w.types));
  }

  lemma Reassociate(t: string, a: string, b: string, c: string, d: string)
    ensures (((t + a) + b) + c) + d == t + (((a + b) + c) + d)
  {
  }

  /** The four loops, in order. */
  method WriteSections(w: ContextWriter, index: RepoIndex, mentioned: string -> bool)
    modifies w
    ensures w.text == old(w.text) + Concat(AllBlocks(Written(Offered(index, mentioned), old(w.remaining))))
  {
    var stories := SplitByRelevance(index.stories, MentionedStory(mentioned));
    var components := OrderComponents(index.components, mentioned);
    w.WriteFirstTwo(index.designTokens, TokenBlock);
    ghost var t1, left1 := w.text, w.remaining;
    w.WriteUpTo(stories, StoryBlock, 3);
    ghost var t2, left2 := w.text, w.remaining;
    w.WriteUpTo(components, ComponentBlock, 5);
    ghost var t3, left3 := w.text, w.remaining;
    w.WriteFirstTwo(index.typeFiles, TypeBlock);
    FourLoops(Offered(index, mentioned), old(w.remaining), old(w.text), t1, t2, t3, w.text,
              left1, left2, left3, w.remaining);
  }

  /** A sorted copy of the components, those mentioned in the spec first. */
  method OrderComponents(components: seq<Component>, mentioned: string -> bool) returns (ordered: seq<Component>)
    ensures ordered == Split(SortedBySize(components), MentionedComponent(mentioned))
  {
    var sorted := new Component[|components|](i requires 0 <= i < |components| => components[i]);
    assert sorted[..] == components;
    SortByFileSize(sorted);
    ordered := SplitByRelevance(sorted[..], MentionedComponent(mentioned));
  }

  method AddLine(text: string, property: string, value: string) returns (longer: string)
    ensures longer == text + Line(property, value)
  {
    longer := text;
    if value != "" {
      longer := longer + ("- " + property + ": " + value + "\n");
    }
  }

  method RenderPreamble(index: RepoIndex) returns (preamble: string)
    ensures preamble == Preamble(index)
  {
    hide Line;
    preamble := "";
    if index.framework != "" || index.styling != "" {
      preamble := "## Codebase Context\n\n";
      preamble := AddLine(preamble, "Framework", index.framework);
      preamble := AddLine(preamble, "Styling", index.styling);
      preamble := AddLine(preamble, "Test setup", index.testSetup);
      preamble := preamble + "\n";
    }
  }

  /** The preamble and, with what it leaves of the budget, the sections. */
  method WriteAll(preamble: string, index: RepoIndex, mentioned: string -> bool) returns (text: string)
    ensures var left := MAX_CONTEXT_TOKENS - TokenEstimate(preamble);
            text == preamble + Concat(AllBlocks(Written(Offered(index, mentioned), left)))
  {
    hide Written, Offered, AllBlocks;
    var w := new ContextWriter();
    w.WritePreamble(preamble);
    assert "" + preamble == preamble;
    WriteSections(w, index, mentioned);
    text := w.text;
  }

  method WriteContext(index: RepoIndex, mentioned: string -> bool) returns (text: string)
    ensures text == ContextText(index, mentioned)
  {
    hide Preamble, Written, Offered, AllBlocks;
    var preamble := RenderPreamble(index);
    text := WriteAll(preamble, index, mentioned);
  }

  method BuildCodegenContext(index: Option<RepoIndex>, mentioned: string -> bool) returns (result: string)
    ensures result == if index.None? then "" else ContextText(index.value, mentioned)
  {
    if index.None? {
      return "";
    }
    result := WriteContext(index.value, mentioned);
    TextOpensWithHash(index.value, mentioned);
    if TrimSpace(result) == "" {
      return "";
    }
  }

  predicate Opens(s: string) { s != "" && s[0] == '#' }

  lemma {:induction false} TrimRightKeepsFirst(s: string)
    requires Opens(s)
    ensures TrimRight(s) != ""
  {
    if IsSpace(s[|s| - 1]) { TrimRightKeepsFirst(s[..|s| - 1]); }
  }

  lemma {:induction false} ConcatOpens(blocks: seq<string>)
    requires forall b :: b in blocks ==> Opens(b)
    ensures Concat(blocks) == "" || Opens(Concat(blocks))
  {
    if blocks != [] {
      ConcatOpens(blocks[..|blocks| - 1]);
      assert blocks[|blocks| - 1] in blocks;
    }
  }

  lemma BlocksOpen<T>(items: seq<T>, render: T -> string)
    requires forall x :: x in items ==> Opens(render(x))
    ensures forall b :: b in Blocks(items, render) ==> Opens(b)
  {
    assert forall i :: 0 <= i < |items| ==> items[i] in items;
  }

  lemma BlockOpens(header: string, path: string, content: string)
    ensures Opens(Block(header, path, content))
  {
  }

  lemma OfferedOpen(index: RepoIndex, mentioned: string -> bool)
    ensures var o := Offered(index, mentioned);
            forall b :: b in o.tokens || b in o.stories || b in o.components || b in o.types ==> Opens(b)
  {
    forall t: DesignToken ensures Opens(TokenBlock(t)) {
      BlockOpens("Design token: " + t.path, t.path, "(size: " + Itoa(t.fileSize) + " bytes)");
    }
    BlocksOpen(FirstTwo(index.designTokens), TokenBlock);
    BlocksOpen(Split(index.stories, MentionedStory(mentioned)), StoryBlock);
    BlocksOpen(Split(SortedBySize(index.components), MentionedComponent(mentioned)), ComponentBlock);
    BlocksOpen(FirstTwo(index.typeFiles), TypeBlock);
  }

  lemma WrittenOpens(o: Sections, start: int)
    requires forall b :: b in o.tokens || b in o.stories || b in o.components || b in o.types ==> Opens(b)
    ensures forall b :: b in AllBlocks(Written(o, start)) ==> Opens(b)
  {
    var w, left1, left2, left3 := Stages(o, start);
  }

  lemma PreambleOpens(index: RepoIndex)
    ensures Preamble(index) == "" || Opens(Preamble(index))
  {
  }

  /** A text of sections that open with `#` is empty or not blank. */
  lemma NotBlank(preamble: string, blocks: seq<string>)
    requires preamble == "" || Opens(preamble)
    requires forall b :: b in blocks ==> Opens(b)
    ensures preamble + Concat(blocks) == "" || TrimSpace(preamble + Concat(blocks)) != ""
  {
    var t := preamble + Concat(blocks);
    ConcatOpens(blocks);
    if t != "" {
      assert Opens(t);
      TrimRightKeepsFirst(t);
    }
  }

  /** So the final trim test of `BuildCodegenContext` never discards anything. */
  lemma TextOpensWithHash(index: RepoIndex, mentioned: string -> bool)
    ensures var t := ContextText(index, mentioned); t != "" ==> TrimSpace(t) != ""
  {
    var start := BudgetAfterPreamble(index);
    OfferedOpen(index, mentioned);
    WrittenOpens(Offered(index, mentioned), start);
    PreambleOpens(index);
    NotBlank(Preamble(index), AllBlocks(Written(Offered(index, mentioned), start)));
  }

  // ---------- what is offered ----------

  /** Components are offered as their blocks: those whose name the spec mentions first, each part by ascending size. */
  lemma OfferedComponents(index: RepoIndex, mentioned: string -> bool) returns (r: seq<Component>, m: nat)
    ensures Offered(index, mentioned).components == Blocks(r, ComponentBlock)
    ensures multiset(r) == multiset(index.components) && m <= |r|
    ensures forall i :: 0 <= i < |r| ==> (mentioned(r[i].name) <==> i < m)
    ensures Ascending(r[..m]) && Ascending(r[m..])
  {
    var p := MentionedComponent(mentioned);
    r := Split(SortedBySize(index.components), p);
    m := |Filter(SortedBySize(index.components), p)|;
    ComponentOrder(index.components, p);
  }

  /** Stories are offered as their blocks: those whose component the spec mentions first, in the order they had. */
  lemma OfferedStories(index: RepoIndex, mentioned: string -> bool, i: nat)
    requires i < |index.stories|
    ensures var s := index.stories;
            var p := MentionedStory(mentioned);
            var place := if mentioned(s[i].componentName) then Count(s[..i], p)
                         else Count(s, p) + Count(s[..i], Not(p));
            && |Offered(index, mentioned).stories| == |s| && place < |s|
            && Offered(index, mentioned).stories[place] == StoryBlock(s[i])
  {
    SplitPlace(index.stories, MentionedStory(mentioned), i);
  }

  /** Of design tokens and type files the first two are offered. */
  lemma OfferedFirstTwo(index: RepoIndex, mentioned: string -> bool)
    ensures var o := Offered(index, mentioned);
            && |o.tokens| == (if |index.designTokens| < 2 then |index.designTokens| else 2)
            && (forall i :: 0 <= i < |o.tokens| ==> o.tokens[i] == TokenBlock(index.designTokens[i]))
            && |o.types| == (if |index.typeFiles| < 2 then |index.typeFiles| else 2)
            && (forall i :: 0 <= i < |o.types| ==> o.types[i] == TypeBlock(index.typeFiles[i]))
  {
  }

  lemma Untrimmed(s: string)
    requires s != "" && !IsSpace(s[0]) && !IsSpace(s[|s| - 1])
    ensures TrimSpace(s) == s
  {
  }

  lemma BlockOf(header: string, path: string, content: string)
    requires content != "" && !IsSpace(content[0]) && !IsSpace(content[|content| - 1])
    ensures Block(header, path, content) == "### " + header + "\n```\n// " + path + "\n" + content + "\n```\n\n"
  {
    Untrimmed(content);
  }

  /** One block of each kind, spelled out. */
  lemma BlockExamples()
    ensures TokenBlock(DesignToken("a", 7))
            == "### " + "Design token: a" + "\n```\n// " + "a" + "\n" + "(size: 7 bytes)" + "\n```\n\n"
    ensures TypeBlock(TypeFile("a", 7))
            == "### " + "Type definitions: a" + "\n```\n// " + "a" + "\n" + "(size: 7 bytes)" + "\n```\n\n"
    ensures StoryBlock(Story("a", "B", 7))
            == "### " + "Story example: a" + "\n```\n// " + "a" + "\n"
               + "(Storybook story for B, 7 bytes)" + "\n```\n\n"
  {
    hide Block, TrimSpace, IsSpace, Digits;
    Seven();
    var size, story := "(size: 7 bytes)", "(Storybook story for B, 7 bytes)";
    assert "(size: " + "7" + " bytes)" == size && "(Storybook story for " + "B" + ", " + "7" + " bytes)" == story;
    assert "Design token: " + "a" == "Design token: a" && "Type definitions: " + "a" == "Type definitions: a";
    assert "Story example: " + "a" == "Story example: a";
    NoSpaceAtEnds();
    BlockOf("Design token: a", "a", size);
    BlockOf("Type definitions: a", "a", size);
    BlockOf("Story example: a", "a", story);
  }

  lemma Seven()
    ensures Itoa(7) == "7"
  {
    assert "0123456789"[7] == '7';
  }

  lemma NoSpaceAtEnds()
    ensures !IsSpace('(') && !IsSpace(')') && !IsSpace('/') && !IsSpace('s')
  {
  }

  /** A component's block, spelled out. */
  lemma ComponentExample()
    ensures Description(Component("a", "B", ["i", "j"], ["p", "q"], 7))
            == "// Props: p, q\n" + "// Imports: i, j\n" + "// File size: " + "7" + " bytes"
    ensures ComponentBlock(Component("a", "B", [], [], 7))
            == "### " + "Component: B" + "\n```\n// " + "a" + "\n" + "// File size: 7 bytes" + "\n```\n\n"
  {
    hide Block, TrimSpace, IsSpace, Digits;
    Seven();
    assert ["p", "q"][1..] == ["q"] && ["i", "j"][1..] == ["j"];
    assert "p" + ", " + "q" == "p, q" && "i" + ", " + "j" == "i, j";
    assert "// Props: " + "p, q" + "\n" == "// Props: p, q\n" && "// Imports: " + "i, j" + "\n" == "// Imports: i, j\n";
    assert "" + "" + "// File size: " + "7" + " bytes" == "// File size: 7 bytes";
    assert "Component: " + "B" == "Component: B";
    NoSpaceAtEnds();
    BlockOf("Component: B", "a", "// File size: 7 bytes");
  }

  /** The preamble, spelled out: only what is known is listed, and the test setup alone does not open it. */
  lemma PreambleExamples()
    ensures Preamble(RepoIndex([], [], [], [], "", "", "t")) == ""
    ensures Preamble(RepoIndex([], [], [], [], "f", "s", "t"))
            == "## Codebase Context\n\n" + "- Framework: f\n" + "- Styling: s\n" + "- Test setup: t\n" + "\n"
  {
    assert "- " + "Framework" + ": " + "f" + "\n" == "- Framework: f\n";
    assert "- " + "Styling" + ": " + "s" + "\n" == "- Styling: s\n";
    assert "- " + "Test setup" + ": " + "t" + "\n" == "- Test setup: t\n";
  }

  // ---------- first come, first served ----------

  function Picked(blocks: seq<string>, picks: seq<bool>): seq<string>
    requires |picks| == |blocks|
  {
    if blocks == [] then []
    else
      var n := |blocks| - 1;
      Picked(blocks[..n], picks[..n]) + if picks[n] then [blocks[n]] else []
  }

  /** The estimates of the picked blocks, added up. */
  function Charged(blocks: seq<string>, picks: seq<bool>): nat
    requires |picks| == |blocks|
  {
    if blocks == [] then 0
    else
      var n := |blocks| - 1;
      Charged(blocks[..n], picks[..n]) + if picks[n] then TokenEstimate(blocks[n]) else 0
  }

  predicate Yes(b: bool) { b }

  /** A block is picked exactly when fewer than `cap` before it are, and it fits what those have left. */
  ghost predicate FirstFit(blocks: seq<string>, cap: nat, budget: int, picks: seq<bool>) {
    && |picks| == |blocks|
    && forall i :: 0 <= i < |blocks| ==>
         (picks[i] <==> Count(picks[..i], Yes) < cap
                        && TokenEstimate(blocks[i]) <= budget - Charged(blocks[..i], picks[..i]))
  }

  /** Each loop takes blocks first come, first served, and keeps their order. */
  lemma {:induction false} FillIsFirstFit(blocks: seq<string>, cap: nat, budget: int) returns (picks: seq<bool>)
    ensures FirstFit(blocks, cap, budget, picks) && Fill(blocks, cap, budget) == Picked(blocks, picks)
    ensures |Fill(blocks, cap, budget)| == Count(picks, Yes)
    ensures Cost(Fill(blocks, cap, budget)) == Charged(blocks, picks)
  {
    if blocks == [] {
      picks := [];
    } else {
      var n := |blocks| - 1;
      var front := FillIsFirstFit(blocks[..n], cap, budget);
      var written := Fill(blocks[..n], cap, budget);
      var pick := |written| < cap && TokenEstimate(blocks[n]) <= budget - Cost(written);
      picks := front + [pick];
      CountSnoc(front, Yes, pick);
      WrittenSnoc(written, blocks[n]);
      assert picks[..n] == front;
      FirstFitSnoc(blocks, cap, budget, front, pick);
    }
  }

  lemma FirstFitSnoc(blocks: seq<string>, cap: nat, budget: int, front: seq<bool>, pick: bool)
    requires blocks != [] && FirstFit(blocks[..|blocks| - 1], cap, budget, front)
    requires var n := |blocks| - 1;
             pick <==> Count(front, Yes) < cap && TokenEstimate(blocks[n]) <= budget - Charged(blocks[..n], front)
    ensures FirstFit(blocks, cap, budget, front + [pick])
  {
    var n := |blocks| - 1;
    var picks := front + [pick];
    hide Count, Charged, TokenEstimate;
    assert picks[..n] == front;
    forall i | 0 <= i < |blocks|
      ensures picks[i] <==> Count(picks[..i], Yes) < cap
                            && TokenEstimate(blocks[i]) <= budget - Charged(blocks[..i], picks[..i])
    {
      if i < n { assert picks[..i] == front[..i] && blocks[..i] == blocks[..n][..i] && blocks[i] == blocks[..n][i]; }
    }
  }

  ghost predicate FirstCome(blocks: seq<string>, cap: nat, budget: int, written: seq<string>) {
    exists picks :: FirstFit(blocks, cap, budget, picks) && written == Picked(blocks, picks)
  }

  lemma FillIsFirstCome(blocks: seq<string>, cap: nat, budget: int)
    ensures FirstCome(blocks, cap, budget, Fill(blocks, cap, budget))
  {
    hide FirstFit, Picked, Fill;
    var picks := FillIsFirstFit(blocks, cap, budget);
  }

  /** What is written of the four kinds, each first come, first served on what the kinds before it have left. */
  ghost predicate Served(o: Sections, start: int, w: Sections) {
    && FirstCome(o.tokens, 2, start, w.tokens)
    && FirstCome(o.stories, 3, start - Cost(w.tokens), w.stories)
    && FirstCome(o.components, 5, start - Cost(w.tokens) - Cost(w.stories), w.components)
    && FirstCome(o.types, 2, start - Cost(w.tokens) - Cost(w.stories) - Cost(w.components), w.types)
  }

  lemma WrittenIsServed(o: Sections, start: int)
    ensures Served(o, start, Written(o, start))
  {
    hide FirstCome, Fill, Cost;
    var w := Written(o, start);
    FillIsFirstCome(o.tokens, 2, start);
    FillIsFirstCome(o.stories, 3, start - Cost(w.tokens));
    FillIsFirstCome(o.components, 5, start - Cost(w.tokens) - Cost(w.stories));
    FillIsFirstCome(o.types, 2, start - Cost(w.tokens) - Cost(w.stories) - Cost(w.components));
  }

  /** The text is the preamble followed by the tokens, stories, components and types served from 4000 tokens less the
      preamble's. */
  lemma ContextLayout(index: RepoIndex, mentioned: string -> bool) returns (w: Sections)
    ensures Served(Offered(index, mentioned), 4000 - TokenEstimate(Preamble(index)), w)
    ensures ContextText(index, mentioned)
            == Preamble(index) + (Concat(w.tokens) + Concat(w.stories) + Concat(w.components) + Concat(w.types))
  {
    hide Preamble, Offered, Written, Served, Concat, AllBlocks, TokenEstimate;
    w := Written(Offered(index, mentioned), BudgetAfterPreamble(index));
    WrittenIsServed(Offered(index, mentioned), BudgetAfterPreamble(index));
    JoinSections(w);
  }

  // ---------- budget ----------

  /** The estimate of a concatenation is at most the cost that was charged. */
  lemma {:induction false} EstimateSubadditive(preamble: string, blocks: seq<string>)
    ensures TokenEstimate(preamble + Concat(blocks)) <= TokenEstimate(preamble) + Cost(blocks)
  {
    if blocks == [] {
      assert preamble + Concat(blocks) == preamble;
    } else {
      EstimateSubadditive(preamble, blocks[..|blocks| - 1]);
    }
  }

  /** The whole text stays within the budget unless the preamble alone exceeds it; it holds at most two token,
      three story, five component and two type sections. */
  lemma ContextWithinBudget(index: RepoIndex, mentioned: string -> bool)
    ensures TokenEstimate(ContextText(index, mentioned)) <= 4000
            || TokenEstimate(ContextText(index, mentioned)) <= TokenEstimate(Preamble(index))
    ensures |ContextText(index, mentioned)| <= 16000 || |ContextText(index, mentioned)| <= |Preamble(index)| + 3
    ensures var w := Written(Offered(index, mentioned), BudgetAfterPreamble(index));
            |w.tokens| <= 2 && |w.stories| <= 3 && |w.components| <= 5 && |w.types| <= 2
  {
    var o, start := Offered(index, mentioned), BudgetAfterPreamble(index);
    var w, left1, left2, left3 := Stages(o, start);
    EstimateSubadditive(Preamble(index), AllBlocks(w));
  }

  /** No section is left out needlessly: one that could have been offered and is not written does not fit what is
      left of the budget in the end, unless its kind has reached its limit. */
  ghost predicate NothingFits(o: Sections, w: Sections, left: int) {
    && (forall b :: b in o.tokens && b !in w.tokens ==> |w.tokens| == 2 || TokenEstimate(b) > left)
    && (forall b :: b in o.stories && b !in w.stories ==> |w.stories| == 3 || TokenEstimate(b) > left)
    && (forall b :: b in o.components && b !in w.components ==> |w.components| == 5 || TokenEstimate(b) > left)
    && (forall b :: b in o.types && b !in w.types ==> |w.types| == 2 || TokenEstimate(b) > left)
  }

  lemma ContextMaximal(o: Sections, start: int)
    ensures NothingFits(o, Written(o, start), start - Cost(AllBlocks(Written(o, start))))
  {
    var w, left1, left2, left3 := Stages(o, start);
  }
}
