/**
 Cutting a JSON value out of a model's answer: the bracket scanner of the code generator and its brace twin
 in the spec generator are the same scan over another pair of delimiters.
 */
module JsonScan {

  import opened Counting

  /** A pair of delimiters: `[` and `]`, or `{` and `}`. */
  datatype Pair = Pair(open: char, close: char)

  const BRACKETS := Pair('[', ']')
  const BRACES := Pair('{', '}')

  function Delta(p: Pair, c: char): int { if c == p.open then 1 else if c == p.close then -1 else 0 }

  /** Opening minus closing delimiters. */
  function Depth(p: Pair, s: string): int {
    if s == [] then 0 else Depth(p, s[..|s| - 1]) + Delta(p, s[|s| - 1])
  }

  lemma DepthSnoc(p: Pair, s: string, i: nat)
    requires i < |s|
    ensures Depth(p, s[..i + 1]) == Depth(p, s[..i]) + Delta(p, s[i])
  {
    assert s[..i + 1][..i] == s[..i];
  }

  /** The depth is the number of opening delimiters less the number of closing ones. */
  lemma {:induction false} DepthCounts(p: Pair, s: string)
    requires p.open != p.close
    ensures Depth(p, s) == Count(s, (c: char) => c == p.open) - Count(s, (c: char) => c == p.close)
  {
    if s != [] {
      var n := |s| - 1;
      DepthCounts(p, s[..n]);
      CountSnoc(s[..n], (c: char) => c == p.open, s[n]);
      CountSnoc(s[..n], (c: char) => c == p.close, s[n]);
      assert s == s[..n] + [s[n]];
    }
  }

  /** A block that opens with its first character and closes with its last, and not before. */
  ghost predicate Balanced(p: Pair, block: string) {
    && |block| >= 2 && block[0] == p.open
    && Depth(p, block) == 0
    && forall k :: 0 < k < |block| ==> Depth(p, block[..k]) > 0
  }

  // ---------- the two scans ----------

  ghost predicate IsStart(p: Pair, s: string, r: int) {
    if r == -1 then p.open !in s else 0 <= r < |s| && s[r] == p.open && p.open !in s[..r]
  }

  /** Position `i` closes a level-zero block somewhere after a first opening delimiter. */
  ghost predicate Closes(p: Pair, s: string, i: int) {
    0 <= i < |s| && s[i] == p.close && p.open in s[..i] && Depth(p, s[..i + 1]) == 0
  }

  ghost predicate IsEnd(p: Pair, s: string, r: int) {
    if r == -1 then forall i :: !Closes(p, s, i) else Closes(p, s, r) && forall i :: i < r ==> !Closes(p, s, i)
  }

  method FindStart(p: Pair, s: string) returns (r: int)
    ensures IsStart(p, s, r)
  {
    for i := 0 to |s|
      invariant p.open !in s[..i]
    {
      if s[i] == p.open {
        return i;
      }
    }
    return -1;
  }

  method FindEnd(p: Pair, s: string) returns (r: int)
    requires p.open != p.close
    ensures IsEnd(p, s, r)
  {
    var depth, started := 0, false;
    for i := 0 to |s|
      invariant depth == Depth(p, s[..i])
      invariant started <==> p.open in s[..i]
      invariant forall j :: j < i ==> !Closes(p, s, j)
    {
      DepthSnoc(p, s, i);
      if s[i] == p.open {
        depth := depth + 1;
        started := true;
      } else if s[i] == p.close {
        depth := depth - 1;
        if started && depth == 0 {
          return i;
        }
      }
    }
    return -1;
  }

  // ---------- extraction ----------

  /** What is handed to the JSON decoder, by the positions the two scans found. */
  function Cut(text: string, start: int, end: int): string
    requires -1 <= start < |text| && -1 <= end < |text| - (if start >= 0 then start else 0)
  {
    var tail := if start >= 0 then text[start..] else text;
    if end >= 0 then tail[..end + 1] else tail
  }

  ghost predicate Extracts(p: Pair, text: string, r: string) {
    exists start, end :: IsStart(p, text, start)
      && IsEnd(p, if start >= 0 then text[start..] else text, end)
      && r == Cut(text, start, end)
  }

  method Extract(p: Pair, text: string) returns (r: string)
    requires p.open != p.close
    ensures Extracts(p, text, r)
  {
    r := text;
    var start := FindStart(p, r);
    if start >= 0 {
      r := r[start..];
    }
    var end := FindEnd(p, r);
    if end >= 0 {
      r := r[..end + 1];
    }
    assert r == Cut(text, start, end);
  }

  // ---------- what extraction means ----------

  /** In a text that opens with its first character, the first closing position ends the balanced block. */
  lemma {:induction false} PositiveBefore(p: Pair, s: string, k: nat)
    requires p.open != p.close && s != [] && s[0] == p.open
    requires 0 < k <= |s| && forall i :: i < k - 1 ==> !Closes(p, s, i)
    ensures Depth(p, s[..k - 1]) > 0 || k == 1
    ensures Depth(p, s[..k]) > 0 || (Depth(p, s[..k]) == 0 && Closes(p, s, k - 1))
  {
    DepthSnoc(p, s, k - 1);
    if k == 1 {
      assert s[..0] == [];
    } else {
      PositiveBefore(p, s, k - 1);
      assert !Closes(p, s, k - 2);
      assert s[..k - 1][0] == p.open;
    }
  }

  lemma ClosingIsBalanced(p: Pair, s: string, e: int)
    requires p.open != p.close && s != [] && s[0] == p.open && IsEnd(p, s, e) && e >= 0
    ensures Balanced(p, s[..e + 1])
  {
    var block := s[..e + 1];
    forall k | 0 < k < |block| ensures Depth(p, block[..k]) > 0 {
      PositiveBefore(p, s, k);
      assert block[..k] == s[..k];
      assert !Closes(p, s, k - 1);
    }
  }

  lemma BalancedCloses(p: Pair, block: string, suffix: string, e: int)
    requires p.open != p.close && Balanced(p, block) && IsEnd(p, block + suffix, e)
    ensures e == |block| - 1
  {
    var s := block + suffix;
    var n := |block|;
    DepthSnoc(p, block, n - 1);
    assert block[..n] == block && s[..n] == block && block[..n - 1] == s[..n - 1];
    assert s[..n - 1][0] == p.open;
    assert Closes(p, s, n - 1);
    forall i | 0 <= i < n - 1 ensures !Closes(p, s, i) {
      assert s[..i + 1] == block[..i + 1];
    }
  }

  lemma StartUnique(p: Pair, s: string, a: int, b: int)
    requires IsStart(p, s, a) && IsStart(p, s, b)
    ensures a == b
  {
    assert forall i, j :: 0 <= i < j <= |s| ==> s[i] in s[..j];
  }

  lemma StartAfterPrefix(p: Pair, prefix: string, rest: string, start: int)
    requires p.open !in prefix && rest != [] && rest[0] == p.open && IsStart(p, prefix + rest, start)
    ensures start == |prefix| && (prefix + rest)[start..] == rest
  {
    assert (prefix + rest)[..|prefix|] == prefix;
    StartUnique(p, prefix + rest, start, |prefix|);
  }

  /** Extraction returns exactly the block -- after any prefix without an opening delimiter and before any
      suffix -- if the block is balanced, and, when something follows it, only if it is. */
  lemma ExtractsBlockIffBalanced(p: Pair, prefix: string, block: string, suffix: string, r: string)
    requires p.open != p.close && p.open !in prefix && block != [] && block[0] == p.open
    requires Extracts(p, prefix + block + suffix, r)
    ensures Balanced(p, block) ==> r == block
    ensures suffix != [] && r == block ==> Balanced(p, block)
  {
    var text := prefix + block + suffix;
    var start, end :| IsStart(p, text, start)
      && IsEnd(p, if start >= 0 then text[start..] else text, end) && r == Cut(text, start, end);
    assert text == prefix + (block + suffix);
    StartAfterPrefix(p, prefix, block + suffix, start);
    assert text[start..] == block + suffix;
    if Balanced(p, block) {
      BalancedCloses(p, block, suffix, end);
    }
    if suffix != [] && r == block {
      assert end == -1 ==> |r| == |block| + |suffix|;
      ClosingIsBalanced(p, block + suffix, end);
    }
  }

  /** What is left of a text that opens at position `i`: a balanced block, or everything when no balanced block
      starts there. */
  ghost predicate BlockAt(p: Pair, text: string, i: int, r: string) {
    && i >= 0 && IsStart(p, text, i) && r <= text[i..]
    && (Balanced(p, r) || (r == text[i..] && forall k :: 0 <= k <= |r| ==> !Balanced(p, r[..k])))
  }

  /** Every outcome of the extraction: the text itself when nothing opens, otherwise what `BlockAt` says. */
  lemma ExtractsCases(p: Pair, text: string, r: string)
    requires p.open != p.close && Extracts(p, text, r)
    ensures p.open !in text ==> r == text
    ensures p.open in text ==> exists i :: BlockAt(p, text, i, r)
  {
    var start, end :| IsStart(p, text, start)
      && IsEnd(p, if start >= 0 then text[start..] else text, end) && r == Cut(text, start, end);
    if p.open in text {
      var tail := text[start..];
      if end >= 0 {
        ClosingIsBalanced(p, tail, end);
        assert BlockAt(p, text, start, r);
      } else {
        forall k | 0 <= k <= |tail| ensures !Balanced(p, tail[..k]) {
          if Balanced(p, tail[..k]) {
            assert tail == tail[..k] + tail[k..];
            BalancedCloses(p, tail[..k], tail[k..], end);
          }
        }
        assert BlockAt(p, text, start, r);
      }
    } else {
      assert start == -1;
      assert forall i :: 0 <= i < |text| ==> p.open !in text[..i];
    }
  }

  /** Balanced in this sense is not JSON: a closing bracket inside a JSON string ends the block early. */
  lemma StringLiteralsAreNotSkipped(r: string)
    requires Extracts(BRACKETS, "[\"]\"]", r)
    ensures r == "[\"]" && r != "[\"]\"]"
  {
    var block := "[\"]";
    assert block[..1] == "[" && block[..2] == "[\"" && block[..3] == block;
    assert Depth(BRACKETS, []) == 0;
    DepthSnoc(BRACKETS, block, 0);
    DepthSnoc(BRACKETS, block, 1);
    DepthSnoc(BRACKETS, block, 2);
    assert block[..0] == [];
    assert Balanced(BRACKETS, block);
    assert [] + block + "\"]" == "[\"]\"]";
    ExtractsBlockIffBalanced(BRACKETS, [], block, "\"]", r);
  }
}
