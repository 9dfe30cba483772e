/**
 `buildCommandString` prints words for a shell; `Lex` reads them back by the token recognition and quoting
 rules of the POSIX.1-2017 Shell Command Language (sections 2.2.1, 2.2.2, 2.2.3, 2.3, 2.6.1 and 2.6.7).
 */
module ShellWords {
  import opened Options
  import opened Strings

  // ---------- the printer ----------

  const SPECIAL: string := " \t\n\r\"'`$\\|&;<>*?()[]{}!"

  /** The word is printed as it is. */
  predicate Plain(w: string) { w != "" && forall i :: 0 <= i < |w| ==> w[i] !in SPECIAL }

  /** Every single quote becomes: close, double-quoted quote, reopen. */
  function QuoteBody(w: string): string {
    if w == "" then "" else (if w[0] == '\'' then "'\"'\"'" else [w[0]]) + QuoteBody(w[1..])
  }

  function ShellEscape(w: string): string {
    if w == "" then "''" else if Plain(w) then w else "'" + QuoteBody(w) + "'"
  }

  function Escaped(words: seq<string>): (r: seq<string>)
    ensures |r| == |words|
  {
    seq(|words|, i requires 0 <= i < |words| => ShellEscape(words[i]))
  }

  function CommandString(words: seq<string>): string { TrimSpace(Join(Escaped(words), " ")) }

  method BuildCommandString(cmd: string, args: seq<string>) returns (line: string)
    ensures line == CommandString([cmd] + args)
  {
    var parts := [ShellEscape(cmd)];
    for i := 0 to |args|
      invariant parts == Escaped([cmd] + args[..i])
    {
      parts := parts + [ShellEscape(args[i])];
      assert [cmd] + args[..i + 1] == ([cmd] + args[..i]) + [args[i]];
    }
    assert args[..|args|] == args;
    line := TrimSpace(Join(parts, " "));
  }

  // ---------- the shell ----------

  datatype Token = Word(text: string) | Newline | Operator(c: char)

  datatype Mode = Unquoted | SingleQuoted | DoubleQuoted | Comment

  function Flush(word: Option<string>): seq<Token> {
    if word.Some? then [Word(word.value)] else []
  }

  function Text(word: Option<string>): string { if word.Some? then word.value else "" }

  function Prepend(tokens: seq<Token>, rest: Option<seq<Token>>): Option<seq<Token>> {
    if rest.Some? then Some(tokens + rest.value) else None
  }

  /** Tokens of the rest of a line, with quotes removed.  `word` is the token being delimited, if one has
      begun.  None: a quotation is not closed, or the text has a meaning that is not modelled -- an expansion (`$`,
      backquote, `~` at the start of a word), a pattern, braces or `!`. */
  function Lex(s: string, mode: Mode, word: Option<string>): Option<seq<Token>>
    decreases |s|
  {
    if s == "" then
      if mode == Unquoted then Some(Flush(word)) else if mode == Comment then Some([]) else None
    else
      var c := s[0];
      match mode
      case SingleQuoted =>
        if c == '\'' then Lex(s[1..], Unquoted, word) else Lex(s[1..], SingleQuoted, Some(Text(word) + [c]))
      case DoubleQuoted =>
        if c == '"' then Lex(s[1..], Unquoted, word)
        else if c == '$' || c == '`' then None
        else if c == '\\' && |s| > 1 && s[1] in "$`\"\\" then Lex(s[2..], DoubleQuoted, Some(Text(word) + [s[1]]))
        else if c == '\\' && |s| > 1 && s[1] == '\n' then Lex(s[2..], DoubleQuoted, word)
        else Lex(s[1..], DoubleQuoted, Some(Text(word) + [c]))
      case Comment =>
        if c == '\n' then Prepend([Newline], Lex(s[1..], Unquoted, None)) else Lex(s[1..], Comment, None)
      case Unquoted =>
        if c == ' ' || c == '\t' then Prepend(Flush(word), Lex(s[1..], Unquoted, None))
        else if c == '\n' then Prepend(Flush(word) + [Newline], Lex(s[1..], Unquoted, None))
        else if c == '#' && word.None? then Lex(s[1..], Comment, None)
        else if c == '~' && word.None? then None
        else if c == '\'' then Lex(s[1..], SingleQuoted, Some(Text(word)))
        else if c == '"' then Lex(s[1..], DoubleQuoted, Some(Text(word)))
        else if c in "$`*?[]{}!" then None
        else if c in "|&;<>()" then Prepend(Flush(word) + [Operator(c)], Lex(s[1..], Unquoted, None))
        else if c == '\\' && |s| > 1 && s[1] == '\n' then Lex(s[2..], Unquoted, word)
        else if c == '\\' && |s| > 1 then Lex(s[2..], Unquoted, Some(Text(word) + [s[1]]))
        else Lex(s[1..], Unquoted, Some(Text(word) + [c]))
  }

  function ShellTokens(line: string): Option<seq<Token>> { Lex(line, Unquoted, None) }

  function AsWords(words: seq<string>): (r: seq<Token>)
    ensures |r| == |words|
  {
    seq(|words|, i requires 0 <= i < |words| => Word(words[i]))
  }

  // ---------- reading one printed word ----------

  lemma LexQuotedQuote(tail: string, word: string)
    ensures Lex("'\"'\"'" + tail, SingleQuoted, Some(word)) == Lex(tail, SingleQuoted, Some(word + "'"))
  {
    var s4 := "'" + tail;
    var s3 := "\"" + s4;
    var s2 := "'" + s3;
    var s1 := "\"" + s2;
    var s0 := "'" + s1;
    assert s0 == "'\"'\"'" + tail;
    assert s0[1..] == s1 && s1[1..] == s2 && s2[1..] == s3 && s3[1..] == s4 && s4[1..] == tail;
    assert Lex(s0, SingleQuoted, Some(word)) == Lex(s1, Unquoted, Some(word));
    assert Lex(s1, Unquoted, Some(word)) == Lex(s2, DoubleQuoted, Some(word));
    assert Lex(s2, DoubleQuoted, Some(word)) == Lex(s3, DoubleQuoted, Some(word + "'"));
    assert Lex(s3, DoubleQuoted, Some(word + "'")) == Lex(s4, Unquoted, Some(word + "'"));
    assert Lex(s4, Unquoted, Some(word + "'")) == Lex(tail, SingleQuoted, Some(word + "'"));
  }

  lemma {:induction false} LexQuoteBody(w: string, rest: string, word: string)
    ensures Lex(QuoteBody(w) + "'" + rest, SingleQuoted, Some(word)) == Lex(rest, Unquoted, Some(word + w))
  {
    if w == "" {
      assert QuoteBody(w) + "'" + rest == "'" + rest;
      assert ("'" + rest)[1..] == rest;
      assert word + w == word;
    } else {
      var tail := QuoteBody(w[1..]) + "'" + rest;
      LexQuoteBody(w[1..], rest, word + [w[0]]);
      assert word + [w[0]] + w[1..] == word + w;
      if w[0] == '\'' {
        assert QuoteBody(w) + "'" + rest == "'\"'\"'" + tail;
        assert [w[0]] == "'";
        LexQuotedQuote(tail, word);
      } else {
        assert QuoteBody(w) + "'" + rest == [w[0]] + tail;
        assert ([w[0]] + tail)[1..] == tail;
      }
    }
  }

  lemma LexQuoted(w: string, rest: string)
    ensures Lex("'" + QuoteBody(w) + "'" + rest, Unquoted, None) == Lex(rest, Unquoted, Some(w))
  {
    var s := "'" + QuoteBody(w) + "'" + rest;
    assert s[1..] == QuoteBody(w) + "'" + rest;
    assert Lex(s, Unquoted, None) == Lex(s[1..], SingleQuoted, Some(""));
    LexQuoteBody(w, rest, "");
    assert "" + w == w;
  }

  lemma LexOrdinary(c: char, rest: string, word: Option<string>)
    requires c !in SPECIAL && (word.None? ==> c !in "#~")
    ensures Lex([c] + rest, Unquoted, word) == Lex(rest, Unquoted, Some(Text(word) + [c]))
  {
    assert c !in " \t\n'\"$`|&;<>()\\*?[]{}!";
    assert ([c] + rest)[1..] == rest;
  }

  lemma {:induction false} LexPlain(w: string, rest: string, word: Option<string>)
    requires forall i :: 0 <= i < |w| ==> w[i] !in SPECIAL
    requires word.None? ==> w != "" && w[0] !in "#~"
    ensures Lex(w + rest, Unquoted, word) == Lex(rest, Unquoted, Some(Text(word) + w))
  {
    hide Lex;
    if w == "" {
      assert w + rest == rest && Text(word) + w == Text(word);
    } else {
      assert w + rest == [w[0]] + (w[1..] + rest);
      LexOrdinary(w[0], w[1..] + rest, word);
      LexPlain(w[1..], rest, Some(Text(word) + [w[0]]));
      assert Text(word) + [w[0]] + w[1..] == Text(word) + w;
    }
  }

  /** The printed word opens a comment or asks for tilde expansion. */
  predicate Misread(w: string) { Plain(w) && (w[0] == '#' || w[0] == '~') }

  lemma LexEscaped(w: string, rest: string)
    requires !Misread(w)
    ensures Lex(ShellEscape(w) + rest, Unquoted, None) == Lex(rest, Unquoted, Some(w))
  {
    if Plain(w) {
      LexPlain(w, rest, None);
      assert "" + w == w;
    } else {
      assert ShellEscape(w) == "'" + QuoteBody(w) + "'";
      LexQuoted(w, rest);
    }
  }

  predicate Harmless(c: char) {
    'a' <= c <= 'z' || 'A' <= c <= 'Z' || '0' <= c <= '9' || c in "-_./:=+,@%^#~"
  }

  lemma HarmlessIsOrdinary(c: char)
    requires Harmless(c)
    ensures c !in SPECIAL
  {
  }

  /** Words without special characters are printed as they are. */
  lemma PrintedVerbatim(w: string)
    requires w != "" && forall i :: 0 <= i < |w| ==> Harmless(w[i])
    ensures ShellEscape(w) == w
  {
    hide Harmless, QuoteBody;
    forall i | 0 <= i < |w| ensures w[i] !in SPECIAL { HarmlessIsOrdinary(w[i]); }
    assert Plain(w);
  }

  // ---------- reading a printed line that is not trimmed ----------

  lemma EscapedCons(words: seq<string>)
    requires words != []
    ensures Escaped(words)[0] == ShellEscape(words[0]) && Escaped(words)[1..] == Escaped(words[1..])
    ensures |words| > 1 ==> Join(Escaped(words), " ") == ShellEscape(words[0]) + (" " + Join(Escaped(words[1..]), " "))
  {
  }

  /** What the shell reads when no word is misread: the words. */
  lemma {:induction false} LexLine(words: seq<string>)
    requires forall w :: w in words ==> !Misread(w)
    ensures ShellTokens(Join(Escaped(words), " ")) == Some(AsWords(words))
  {
    hide ShellEscape, Misread;
    if words != [] {
      EscapedCons(words);
      if |words| == 1 {
        LexEscaped(words[0], "");
        assert ShellEscape(words[0]) + "" == ShellEscape(words[0]);
        assert AsWords(words) == [Word(words[0])];
      } else {
        var tail := Join(Escaped(words[1..]), " ");
        LexEscaped(words[0], " " + tail);
        assert (" " + tail)[1..] == tail;
        LexLine(words[1..]);
        assert AsWords(words) == [Word(words[0])] + AsWords(words[1..]);
      }
    }
  }

  /** Nothing but comment follows, or a newline token comes next. */
  predicate NoWordNext(r: Option<seq<Token>>) { r.Some? && r.value != [] ==> r.value[0] == Newline }

  lemma {:induction false} LexComment(s: string)
    ensures NoWordNext(Lex(s, Comment, None))
  {
    if s != "" { LexComment(s[1..]); }
  }

  lemma MisreadFirst(line: string, expected: seq<string>)
    requires line != "" && line[0] in "#~" && expected != []
    ensures ShellTokens(line) != Some(AsWords(expected))
  {
    if line[0] == '#' { LexComment(line[1..]); }
  }

  lemma MisreadLater(first: string, tail: string, expected: seq<string>)
    requires !Misread(first) && expected != [] && ShellTokens(tail) != Some(AsWords(expected[1..]))
    ensures ShellTokens(ShellEscape(first) + (" " + tail)) != Some(AsWords(expected))
  {
    hide ShellEscape, Misread;
    LexEscaped(first, " " + tail);
    assert (" " + tail)[1..] == tail;
    assert AsWords(expected) == [Word(expected[0])] + AsWords(expected[1..]);
    var r := Lex(tail, Unquoted, None);
    assert r.Some? ==> ([Word(first)] + r.value)[1..] == r.value;
  }

  /** What the shell reads when some word is misread is not the words, nor any other list of words at least as
      long. */
  lemma {:induction false} LexLineMisread(words: seq<string>, expected: seq<string>)
    requires |words| <= |expected| && exists w :: w in words && Misread(w)
    ensures ShellTokens(Join(Escaped(words), " ")) != Some(AsWords(expected))
  {
    hide ShellTokens;
    EscapedCons(words);
    if Misread(words[0]) {
      MisreadFirst(Join(Escaped(words), " "), expected);
    } else {
      assert |words| > 1;
      LexLineMisread(words[1..], expected[1..]);
      MisreadLater(words[0], Join(Escaped(words[1..]), " "), expected);
    }
  }

  // ---------- trimming the line ----------

  /** The words that are left when trailing and leading white space is cut off the line.  Only words printed as
      they are can lose characters, and only white space that needs no quotes (vertical tab, no-break space...). */
  function TrimFront(words: seq<string>): (r: seq<string>)
    ensures |r| <= |words|
  {
    if words == [] || !Plain(words[0]) then words
    else
      var w := TrimLeft(words[0]);
      if w == "" then TrimFront(words[1..]) else [w] + words[1..]
  }

  function TrimBack(words: seq<string>): (r: seq<string>)
    ensures |r| <= |words|
  {
    if words == [] || !Plain(words[|words| - 1]) then words
    else
      var w := TrimRight(words[|words| - 1]);
      if w == "" then TrimBack(words[..|words| - 1]) else words[..|words| - 1] + [w]
  }

  lemma {:induction false} TrimLeftAppend(w: string, rest: string)
    ensures TrimLeft(w + rest) == if TrimLeft(w) == "" then TrimLeft(rest) else TrimLeft(w) + rest
    ensures TrimLeft(w) != "" ==> |TrimLeft(w)| <= |w| && w[|w| - |TrimLeft(w)|..] == TrimLeft(w)
  {
    if w == "" {
      assert w + rest == rest;
    } else {
      assert (w + rest)[1..] == w[1..] + rest;
      TrimLeftAppend(w[1..], rest);
    }
  }

  lemma {:induction false} TrimRightAppend(front: string, w: string)
    ensures TrimRight(front + w) == if TrimRight(w) == "" then TrimRight(front) else front + TrimRight(w)
    ensures TrimRight(w) <= w
  {
    if w == "" {
      assert front + w == front;
    } else {
      assert (front + w)[..|front + w| - 1] == front + w[..|w| - 1];
      TrimRightAppend(front, w[..|w| - 1]);
    }
  }

  lemma QuotedEnds(w: string)
    requires !Plain(w)
    ensures ShellEscape(w) != "" && ShellEscape(w)[0] == '\'' == ShellEscape(w)[|ShellEscape(w)| - 1]
  {
  }

  lemma {:induction false} TrimLeftLine(words: seq<string>)
    ensures TrimLeft(Join(Escaped(words), " ")) == Join(Escaped(TrimFront(words)), " ")
  {
    if words != [] {
      EscapedCons(words);
      if Plain(words[0]) {
        var w := TrimLeft(words[0]);
        var tail := if |words| == 1 then "" else " " + Join(Escaped(words[1..]), " ");
        assert Join(Escaped(words), " ") == words[0] + tail;
        TrimLeftAppend(words[0], tail);
        if w == "" {
          if |words| > 1 { assert tail[1..] == Join(Escaped(words[1..]), " "); }
          TrimLeftLine(words[1..]);
        } else {
          var trimmed := [w] + words[1..];
          EscapedCons(trimmed);
          assert Plain(w);
          assert trimmed[1..] == words[1..];
          assert Join(Escaped(trimmed), " ") == w + tail;
        }
      } else {
        QuotedEnds(words[0]);
      }
    }
  }

  lemma EscapedSnoc(words: seq<string>, n: nat)
    requires |words| == n + 1
    ensures Escaped(words) == Escaped(words[..n]) + [ShellEscape(words[n])]
  {
    assert |Escaped(words)| == |Escaped(words[..n]) + [ShellEscape(words[n])]|;
  }

  lemma LineSnoc(words: seq<string>, n: nat)
    requires |words| == n + 1
    ensures Join(Escaped(words), " ")
            == (if n == 0 then "" else Join(Escaped(words[..n]), " ") + " ") + ShellEscape(words[n])
  {
    EscapedSnoc(words, n);
    if n > 0 {
      JoinSnoc(Escaped(words[..n]), ShellEscape(words[n]), " ");
    } else {
      assert Escaped(words) == [ShellEscape(words[0])];
    }
  }

  lemma QuotedLineEnds(front: string, w: string)
    requires !Plain(w)
    ensures TrimRight(front + ShellEscape(w)) == front + ShellEscape(w)
  {
    QuotedEnds(w);
    var line := front + ShellEscape(w);
    assert line[|line| - 1] == '\'';
  }

  lemma TrimSeparator(line: string)
    ensures TrimRight(line + " ") == TrimRight(line)
  {
    assert (line + " ")[..|line|] == line;
  }

  lemma {:induction false} TrimRightLine(words: seq<string>)
    ensures TrimRight(Join(Escaped(words), " ")) == Join(Escaped(TrimBack(words)), " ")
  {
    if words != [] {
      var n := |words| - 1;
      LineSnoc(words, n);
      var front := if n == 0 then "" else Join(Escaped(words[..n]), " ") + " ";
      if !Plain(words[n]) {
        QuotedLineEnds(front, words[n]);
      } else {
        var w := TrimRight(words[n]);
        TrimRightAppend(front, words[n]);
        if w == "" {
          TrimSeparator(Join(Escaped(words[..n]), " "));
          TrimRightLine(words[..n]);
        } else {
          var trimmed := words[..n] + [w];
          assert trimmed[..n] == words[..n] && Plain(w);
          LineSnoc(trimmed, n);
        }
      }
    }
  }

  // ---------- the round trip ----------

  /** The line does not begin with unquoted white space. */
  predicate FrontSafe(words: seq<string>) { words != [] && Plain(words[0]) ==> !IsSpace(words[0][0]) }

  /** The line does not end with unquoted white space. */
  predicate BackSafe(words: seq<string>) {
    words != [] ==>
      var w := words[|words| - 1];
      Plain(w) ==> !IsSpace(w[|w| - 1])
  }

  /** What a caller can check beforehand: no word that is printed unquoted begins with `#` or `~`, and neither end
      of the line is unquoted white space. */
  predicate SafeToPrint(words: seq<string>) {
    (forall w :: w in words ==> !Misread(w)) && FrontSafe(words) && BackSafe(words)
  }

  lemma TrimLeftShorter(w: string)
    ensures |TrimLeft(w)| <= |w| && (w != "" && IsSpace(w[0]) ==> |TrimLeft(w)| < |w|)
  {
  }

  lemma TrimRightShorter(w: string)
    ensures |TrimRight(w)| <= |w| && (w != "" && IsSpace(w[|w| - 1]) ==> |TrimRight(w)| < |w|)
  {
  }

  lemma FrontUnchanged(words: seq<string>)
    requires FrontSafe(words)
    ensures TrimFront(words) == words
  {
    if words != [] && Plain(words[0]) {
      assert TrimLeft(words[0]) == words[0];
      assert [words[0]] + words[1..] == words;
    }
  }

  lemma BackUnchanged(words: seq<string>)
    requires BackSafe(words)
    ensures TrimBack(words) == words
  {
    if words != [] && Plain(words[|words| - 1]) {
      assert TrimRight(words[|words| - 1]) == words[|words| - 1];
      assert words[..|words| - 1] + [words[|words| - 1]] == words;
    }
  }

  /** Trimming leaves the words alone exactly when neither end of the line is unquoted white space. */
  lemma TrimmedWords(words: seq<string>)
    ensures TrimBack(TrimFront(words)) == words <==> FrontSafe(words) && BackSafe(words)
  {
    if !FrontSafe(words) {
      FrontLoses(words);
    } else {
      FrontUnchanged(words);
      if BackSafe(words) {
        BackUnchanged(words);
      } else {
        BackLoses(words);
      }
    }
  }

  /** Total length, with one for each word: what trimming can only lower. */
  function Weight(words: seq<string>): nat {
    if words == [] then 0 else 1 + |words[0]| + Weight(words[1..])
  }

  lemma {:induction false} WeightSnoc(words: seq<string>, w: string)
    ensures Weight(words + [w]) == Weight(words) + 1 + |w|
  {
    if words != [] {
      assert (words + [w])[1..] == words[1..] + [w];
      WeightSnoc(words[1..], w);
    }
  }

  lemma {:induction false} FrontWeight(words: seq<string>)
    ensures Weight(TrimFront(words)) <= Weight(words)
  {
    if words != [] {
      FrontWeight(words[1..]);
      TrimLeftShorter(words[0]);
      var trimmed := [TrimLeft(words[0])] + words[1..];
      assert trimmed[1..] == words[1..];
    }
  }

  lemma {:induction false} BackWeight(words: seq<string>)
    ensures Weight(TrimBack(words)) <= Weight(words)
  {
    if words != [] && Plain(words[|words| - 1]) {
      var n := |words| - 1;
      var w := TrimRight(words[n]);
      TrimRightShorter(words[n]);
      assert words == words[..n] + [words[n]];
      WeightSnoc(words[..n], words[n]);
      if w == "" { BackWeight(words[..n]); } else { WeightSnoc(words[..n], w); }
    }
  }

  lemma FrontLoses(words: seq<string>)
    requires words != [] && Plain(words[0]) && IsSpace(words[0][0])
    ensures TrimBack(TrimFront(words)) != words
  {
    BackWeight(TrimFront(words));
    TrimLeftShorter(words[0]);
    FrontWeight(words[1..]);
    var trimmed := [TrimLeft(words[0])] + words[1..];
    assert trimmed[1..] == words[1..];
  }

  lemma BackLoses(words: seq<string>)
    requires words != [] && Plain(words[|words| - 1]) && IsSpace(words[|words| - 1][|words[|words| - 1]| - 1])
    ensures TrimBack(words) != words
  {
    var n := |words| - 1;
    TrimRightShorter(words[n]);
    if TrimRight(words[n]) != "" {
      assert TrimBack(words)[n] == TrimRight(words[n]);
    }
  }

  lemma PrintedLine(words: seq<string>)
    ensures CommandString(words) == Join(Escaped(TrimBack(TrimFront(words))), " ")
  {
    TrimLeftLine(words);
    TrimRightLine(TrimFront(words));
  }

  lemma ReadBack(printed: seq<string>, words: seq<string>)
    requires |printed| <= |words|
    ensures ShellTokens(Join(Escaped(printed), " ")) == Some(AsWords(words))
            <==> printed == words && forall w :: w in words ==> !Misread(w)
  {
    if exists w :: w in printed && Misread(w) {
      LexLineMisread(printed, words);
    } else {
      LexLine(printed);
      if printed != words {
        DifferentWords(printed, words);
      }
    }
  }

  /** The shell reads a printed command back as exactly its words if and only if they are safe to print. */
  lemma CommandRoundTrip(cmd: string, args: seq<string>)
    ensures ShellTokens(CommandString([cmd] + args)) == Some(AsWords([cmd] + args)) <==> SafeToPrint([cmd] + args)
  {
    var words := [cmd] + args;
    PrintedLine(words);
    TrimmedWords(words);
    ReadBack(TrimBack(TrimFront(words)), words);
  }

  lemma DifferentWords(a: seq<string>, b: seq<string>)
    requires a != b
    ensures AsWords(a) != AsWords(b)
  {
    if |a| == |b| {
      var i :| 0 <= i < |a| && a[i] != b[i];
      assert AsWords(a)[i] != AsWords(b)[i];
    }
  }

  /** Printable ASCII, space, tab, carriage return and newline. */
  predicate OrdinaryText(w: string) {
    forall i :: 0 <= i < |w| ==> ' ' <= w[i] <= '~' || w[i] in "\t\r\n"
  }

  /** Ordinary words -- empty words and words with quotes, blanks or newlines included -- come back if and only if
      none that is printed unquoted begins with `#` or `~`. */
  lemma OrdinaryCommandRoundTrip(cmd: string, args: seq<string>)
    requires forall w :: w in [cmd] + args ==> OrdinaryText(w)
    ensures ShellTokens(CommandString([cmd] + args)) == Some(AsWords([cmd] + args))
            <==> forall w :: w in [cmd] + args ==> !Misread(w)
  {
    var words := [cmd] + args;
    assert words[0] in words && words[|words| - 1] in words;
    OrdinaryEnds(words[0]);
    OrdinaryEnds(words[|words| - 1]);
    CommandRoundTrip(cmd, args);
  }

  /** An ordinary character that needs no quotes is not white space. */
  lemma OrdinaryEnds(w: string)
    requires OrdinaryText(w)
    ensures Plain(w) ==> !IsSpace(w[0]) && !IsSpace(w[|w| - 1])
  {
    assert forall c: char :: (' ' <= c <= '~' || c in "\t\r\n") && c !in " \t\r\n" ==> !IsSpace(c);
    assert forall c: char :: c in " \t\r\n" ==> c in SPECIAL;
  }

  ghost predicate ComesBack(cmd: string, args: seq<string>) {
    ShellTokens(CommandString([cmd] + args)) == Some(AsWords([cmd] + args))
  }

  lemma UnsafeArgument(cmd: string, w: string)
    requires Plain(w) && (w[0] in "#~" || IsSpace(w[|w| - 1]))
    ensures !ComesBack(cmd, [w])
  {
    hide ShellTokens, CommandString;
    CommandRoundTrip(cmd, [w]);
    assert ([cmd] + [w])[1] == w && w in [cmd] + [w];
  }

  /** Commands that are read back as something else: a comment sign, a tilde, a trailing no-break space. */
  lemma UnsafeWords()
    ensures !ComesBack("echo", ["#1"]) && !ComesBack("ls", ["~"]) && !ComesBack("echo", ["a\U{A0}"])
  {
    hide ComesBack;
    UnsafeArgument("echo", "#1");
    UnsafeArgument("ls", "~");
    UnsafeArgument("echo", "a\U{A0}");
  }
}
