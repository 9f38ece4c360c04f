/** src/Parser.cpp: `parseLine` and `parsePipeline`, a printer, and the proof that they undo each
    other on everything the parser can return. */
module Parser {
  import opened Jobs

  /** `std::isspace` in the "C" locale. */
  predicate IsSpace(c: char) {
    c == ' ' || c == '\t' || c == '\n' || c == '\r' || c == '\U{0B}' || c == '\U{0C}'
  }

  predicate NoSpace(s: string) {
    forall i :: 0 <= i < |s| ==> !IsSpace(s[i])
  }

  predicate IsToken(s: string) {
    s != "" && NoSpace(s)
  }

  // ----- operator>> -----

  function SkipSpace(s: string): (r: string)
    ensures |r| <= |s| && (r == "" || !IsSpace(r[0]))
  {
    if s != "" && IsSpace(s[0]) then SkipSpace(s[1..]) else s
  }

  /** Length of the leading run without white space. */
  function WordLength(s: string): (n: nat)
    ensures n <= |s| && NoSpace(s[..n]) && (n < |s| ==> IsSpace(s[n]))
  {
    if s == "" || IsSpace(s[0]) then 0
    else
      var n := WordLength(s[1..]);
      assert s[..n + 1] == [s[0]] + s[1..][..n];
      n + 1
  }

  /** All words of s, in order. */
  function Tokens(s: string): (r: seq<string>)
    ensures forall i :: 0 <= i < |r| ==> IsToken(r[i])
    decreases |s|
  {
    var rest := SkipSpace(s);
    if rest == "" then []
    else
      var n := WordLength(rest);
      [rest[..n]] + Tokens(rest[n..])
  }

  /** The white space characters by their codes. */
  lemma SpaceCodes(c: char)
    ensures IsSpace(c) <==> c as int == 32 || 9 <= c as int <= 13
  {
  }

  predicate AllSpace(s: string) {
    forall i :: 0 <= i < |s| ==> IsSpace(s[i])
  }

  lemma {:induction false} SkipsSpaces(space: string, s: string)
    requires AllSpace(space)
    ensures SkipSpace(space + s) == SkipSpace(s) && Tokens(space + s) == Tokens(s)
  {
    if space == "" {
      assert space + s == s;
    } else {
      assert (space + s)[0] == space[0] && (space + s)[1..] == space[1..] + s;
      SkipsSpaces(space[1..], s);
    }
  }

  lemma {:induction false} WordLengthOfToken(t: string, rest: string)
    requires NoSpace(t) && (rest == "" || IsSpace(rest[0]))
    ensures WordLength(t + rest) == |t|
  {
    var s := t + rest;
    if t == "" {
      assert s == rest;
    } else {
      assert s[0] == t[0] && s[1..] == t[1..] + rest;
      WordLengthOfToken(t[1..], rest);
    }
  }

  lemma WordAtOnce(t: string, rest: string)
    requires IsToken(t) && (rest == "" || IsSpace(rest[0]))
    ensures Tokens(t + rest) == [t] + Tokens(rest)
  {
    var s := t + rest;
    assert s[0] == t[0];
    WordLengthOfToken(t, rest);
    assert s[..|t|] == t && s[|t|..] == rest;
  }

  /** Words are the maximal runs without white space, and all of them are there: a line is white space
      alone, or white space, a word and then nothing or a line that begins with white space. */
  lemma LeadingWord(space: string, t: string, rest: string)
    requires AllSpace(space) && IsToken(t) && (rest == "" || IsSpace(rest[0]))
    ensures Tokens(space) == [] && Tokens(space + t + rest) == [t] + Tokens(rest)
  {
    NoWords(space);
    SkipsSpaces(space, t + rest);
    ConcatAssociates(space, t, rest);
    WordAtOnce(t, rest);
  }

  lemma NoWords(space: string)
    requires AllSpace(space)
    ensures Tokens(space) == []
  {
    SkipsSpaces(space, "");
    assert space + "" == space;
  }

  /** `std::istringstream`: what is left to read. */
  class TokenStream {
    var rest: string

    constructor (input: string)
      ensures rest == input
    {
      rest := input;
    }

    /** `stream >> token`; on failure the token is of no interest. */
    method Extract() returns (ok: bool, token: string)
      modifies this
      ensures ok <==> Tokens(old(rest)) != []
      ensures ok ==> token == Tokens(old(rest))[0] && Tokens(rest) == Tokens(old(rest))[1..] && |rest| < |old(rest)|
      ensures !ok ==> Tokens(rest) == []
    {
      ghost var before := rest;
      var s := rest;
      while s != "" && IsSpace(s[0])
        invariant SkipSpace(s) == SkipSpace(before) && |s| <= |before|
        decreases |s|
      {
        s := s[1..];
      }
      var n := 0;
      while n < |s| && !IsSpace(s[n])
        invariant n <= |s| && n + WordLength(s[n..]) == WordLength(s)
      {
        n := n + 1;
      }
      ok, token := n > 0, s[..n];
      rest := s[n..];
    }
  }

  // ----- parseLine -----

  /** What the loop of `parseLine` makes of the words after the first. */
  function Absorb(cmd: Command, toks: seq<string>): Command
    decreases |toks|
  {
    if toks == [] then cmd
    else if toks[0] == "&" then Absorb(cmd.(isBackground := true), toks[1..])
    else if toks[0] == ">" then
      if |toks| == 1 then cmd else Absorb(cmd.(redirectOutput := toks[1]), toks[2..])
    else if toks[0] == "<" then
      if |toks| == 1 then cmd else Absorb(cmd.(redirectInput := toks[1]), toks[2..])
    else Absorb(cmd.(arguments := cmd.arguments + [toks[0]]), toks[1..])
  }

  function Parsed(toks: seq<string>): Command {
    if toks == [] then EMPTY_COMMAND
    else Absorb(EMPTY_COMMAND.(executable := toks[0], arguments := [toks[0]]), toks[1..])
  }

  method ParseLine(input: string) returns (cmd: Command)
    ensures cmd == Parsed(Tokens(input))
    ensures WellFormed(cmd) && IsReadingOf(cmd, Tokens(input))
  {
    cmd := EMPTY_COMMAND;
    if input == "" {
      ParsedReadsTheWords([]);
      return;
    }
    var stream := new TokenStream(input);
    var ok, token := stream.Extract();
    if ok {
      cmd := cmd.(executable := token, arguments := cmd.arguments + [token]);
    }
    assert [] + [token] == [token];
    ghost var first := cmd;
    ghost var toks := Tokens(stream.rest);
    ok, token := stream.Extract();
    while ok
      invariant Absorb(first, toks) == if ok then Absorb(cmd, [token] + Tokens(stream.rest)) else cmd
      decreases if ok then |stream.rest| + 1 else 0
    {
      ghost var left := Tokens(stream.rest);
      assert ([token] + left)[1..] == left;
      assert left != [] ==> ([token] + left)[2..] == left[1..] && ([token] + left)[1] == left[0];
      if token == "&" {
        cmd := cmd.(isBackground := true);
      } else if token == ">" {
        ok, token := stream.Extract();
        if ok {
          cmd := cmd.(redirectOutput := token);
        }
      } else if token == "<" {
        ok, token := stream.Extract();
        if ok {
          cmd := cmd.(redirectInput := token);
        }
      } else {
        cmd := cmd.(arguments := cmd.arguments + [token]);
      }
      assert Absorb(first, toks) == Absorb(cmd, Tokens(stream.rest));
      left := Tokens(stream.rest);
      ok, token := stream.Extract();
      assert left == if ok then [token] + Tokens(stream.rest) else [];
    }
    ParsedIsWellFormed(Tokens(input));
    ParsedReadsTheWords(Tokens(input));
  }

  // ----- what the words of a line mean -----

  predicate IsOperator(s: string) {
    s == "&" || s == ">" || s == "<"
  }

  /** Word i is what the redirection before it redirects to. The first word is no operator, and a
      target is none either. */
  predicate IsTarget(toks: seq<string>, i: int) {
    2 <= i < |toks| && (toks[i - 1] == ">" || toks[i - 1] == "<") && !IsTarget(toks, i - 1)
  }

  /** Operator op stands at position i. */
  predicate Operates(toks: seq<string>, op: string, i: int) {
    1 <= i < |toks| && toks[i] == op && !IsTarget(toks, i)
  }

  /** The last op that has a target stands at position i. */
  predicate IsLastRedirect(toks: seq<string>, op: string, i: int) {
    && i + 1 < |toks| && Operates(toks, op, i)
    && forall k :: i < k < |toks| - 1 ==> !Operates(toks, op, k)
  }

  /** The first n words but for operators and targets. */
  function Plain(toks: seq<string>, n: nat): seq<string>
    requires n <= |toks|
  {
    if n == 0 then []
    else
      Plain(toks, n - 1)
      + if n > 1 && (IsOperator(toks[n - 1]) || IsTarget(toks, n - 1)) then [] else [toks[n - 1]]
  }

  /** A redirection without a target, at the end of the line, is ignored; the last one with a target
      counts. */
  ghost predicate IsRedirection(file: string, toks: seq<string>, op: string) {
    && (forall i :: IsLastRedirect(toks, op, i) ==> file == toks[i + 1])
    && ((forall i :: !IsLastRedirect(toks, op, i)) ==> file == "")
  }

  /** The command that the words of a line mean. */
  ghost predicate IsReadingOf(cmd: Command, toks: seq<string>) {
    && cmd.executable == (if toks == [] then "" else toks[0])
    && cmd.arguments == Plain(toks, |toks|)
    && (cmd.isBackground <==> exists i :: Operates(toks, "&", i))
    && IsRedirection(cmd.redirectOutput, toks, ">")
    && IsRedirection(cmd.redirectInput, toks, "<")
  }

  /** The last target of op among the first n words. */
  function LastTarget(toks: seq<string>, op: string, n: nat): string
    requires n <= |toks|
  {
    if n == 0 then ""
    else if n > 1 && Operates(toks, op, n - 2) then toks[n - 1]
    else LastTarget(toks, op, n - 1)
  }

  ghost predicate InBackground(toks: seq<string>, n: nat) {
    exists i :: i < n && Operates(toks, "&", i)
  }

  /** The command is what the first n words say. */
  ghost predicate ReadsUpTo(cmd: Command, toks: seq<string>, n: nat)
    requires 1 <= n <= |toks|
  {
    && cmd.executable == toks[0] && cmd.arguments == Plain(toks, n)
    && (cmd.isBackground <==> InBackground(toks, n))
    && cmd.redirectOutput == LastTarget(toks, ">", n) && cmd.redirectInput == LastTarget(toks, "<", n)
  }

  /** A word that starts no redirection. */
  lemma ReadsWord(cmd: Command, toks: seq<string>, n: nat)
    requires 1 <= n < |toks| && ReadsUpTo(cmd, toks, n) && !IsTarget(toks, n)
    requires toks[n] != ">" && toks[n] != "<"
    ensures !IsTarget(toks, n + 1)
    ensures
      var next := if toks[n] == "&" then cmd.(isBackground := true)
                  else cmd.(arguments := cmd.arguments + [toks[n]]);
      ReadsUpTo(next, toks, n + 1)
  {
    if toks[n] == "&" {
      assert Operates(toks, "&", n);
    } else {
      assert InBackground(toks, n + 1) ==> InBackground(toks, n);
    }
    assert n > 1 ==> !Operates(toks, ">", n - 1) && !Operates(toks, "<", n - 1);
  }

  /** A redirection: without a target it changes nothing. */
  lemma ReadsRedirection(cmd: Command, toks: seq<string>, n: nat)
    requires 1 <= n < |toks| && ReadsUpTo(cmd, toks, n) && !IsTarget(toks, n)
    requires toks[n] == ">" || toks[n] == "<"
    ensures ReadsUpTo(cmd, toks, n + 1)
    ensures n + 1 < |toks| ==> IsTarget(toks, n + 1) && !IsTarget(toks, n + 2)
    ensures n + 1 < |toks| ==>
      var next := if toks[n] == ">" then cmd.(redirectOutput := toks[n + 1])
                  else cmd.(redirectInput := toks[n + 1]);
      ReadsUpTo(next, toks, n + 2)
  {
    assert InBackground(toks, n + 1) ==> InBackground(toks, n);
    assert n > 1 ==> !Operates(toks, ">", n - 1) && !Operates(toks, "<", n - 1);
    if n + 1 < |toks| {
      assert InBackground(toks, n + 2) ==> InBackground(toks, n);
    }
  }

  lemma {:induction false} AbsorbReads(cmd: Command, toks: seq<string>, n: nat)
    requires 1 <= n <= |toks| && ReadsUpTo(cmd, toks, n) && !IsTarget(toks, n)
    ensures ReadsUpTo(Absorb(cmd, toks[n..]), toks, |toks|)
    decreases |toks| - n
  {
    if n < |toks| {
      assert toks[n..][0] == toks[n] && toks[n..][1..] == toks[n + 1..];
      if toks[n] == ">" || toks[n] == "<" {
        ReadsRedirection(cmd, toks, n);
        if n + 1 < |toks| {
          assert toks[n..][1] == toks[n + 1] && toks[n..][2..] == toks[n + 2..];
          AbsorbReads(if toks[n] == ">" then cmd.(redirectOutput := toks[n + 1])
                      else cmd.(redirectInput := toks[n + 1]), toks, n + 2);
        }
      } else {
        ReadsWord(cmd, toks, n);
        AbsorbReads(if toks[n] == "&" then cmd.(isBackground := true)
                    else cmd.(arguments := cmd.arguments + [toks[n]]), toks, n + 1);
      }
    }
  }

  lemma {:induction false} LastTargetIsLast(toks: seq<string>, op: string, n: nat)
    requires n <= |toks| && forall k :: n - 1 <= k < |toks| - 1 ==> !Operates(toks, op, k)
    ensures IsRedirection(LastTarget(toks, op, n), toks, op)
  {
    if n > 1 && Operates(toks, op, n - 2) {
      assert IsLastRedirect(toks, op, n - 2);
    } else if n > 0 {
      LastTargetIsLast(toks, op, n - 1);
    }
  }

  lemma FirstWordRead(toks: seq<string>)
    requires toks != []
    ensures ReadsUpTo(EMPTY_COMMAND.(executable := toks[0], arguments := [toks[0]]), toks, 1)
  {
    assert Plain(toks, 0) == [] && Plain(toks, 1) == [toks[0]];
    assert !InBackground(toks, 1);
    assert LastTarget(toks, ">", 1) == LastTarget(toks, ">", 0) == "";
    assert LastTarget(toks, "<", 1) == LastTarget(toks, "<", 0) == "";
  }

  /** For every sequence of words: the last `>` and the last `<` in operator position that have a target
      give the redirections, some `&` in operator position sends the command to the background, and
      the arguments are the first word and, in order, all that are neither operators nor targets. */
  lemma ParsedReadsTheWords(toks: seq<string>)
    ensures IsReadingOf(Parsed(toks), toks)
  {
    if toks != [] {
      var start := EMPTY_COMMAND.(executable := toks[0], arguments := [toks[0]]);
      FirstWordRead(toks);
      AbsorbReads(start, toks, 1);
      LastTargetIsLast(toks, ">", |toks|);
      LastTargetIsLast(toks, "<", |toks|);
    }
  }

  // ----- the commands that the parser can return -----

  /** Only the first word may be an operator; redirect targets may be any word. */
  predicate WellFormed(c: Command) {
    || c == EMPTY_COMMAND
    || (&& c.arguments != [] && c.executable == c.arguments[0]
        && (forall i :: 0 <= i < |c.arguments| ==> IsToken(c.arguments[i]))
        && (forall i :: 1 <= i < |c.arguments| ==> !IsOperator(c.arguments[i]))
        && NoSpace(c.redirectInput) && NoSpace(c.redirectOutput))
  }

  lemma {:induction false} AbsorbIsWellFormed(c: Command, toks: seq<string>)
    requires WellFormed(c) && c != EMPTY_COMMAND && forall i :: 0 <= i < |toks| ==> IsToken(toks[i])
    ensures WellFormed(Absorb(c, toks)) && Absorb(c, toks) != EMPTY_COMMAND
    decreases |toks|
  {
    if toks == [] {
    } else if toks[0] == "&" {
      AbsorbIsWellFormed(c.(isBackground := true), toks[1..]);
    } else if toks[0] == ">" {
      if |toks| > 1 {
        AbsorbIsWellFormed(c.(redirectOutput := toks[1]), toks[2..]);
      }
    } else if toks[0] == "<" {
      if |toks| > 1 {
        AbsorbIsWellFormed(c.(redirectInput := toks[1]), toks[2..]);
      }
    } else {
      AbsorbIsWellFormed(c.(arguments := c.arguments + [toks[0]]), toks[1..]);
    }
  }

  lemma ParsedIsWellFormed(toks: seq<string>)
    requires forall i :: 0 <= i < |toks| ==> IsToken(toks[i])
    ensures WellFormed(Parsed(toks))
  {
    if toks != [] {
      AbsorbIsWellFormed(EMPTY_COMMAND.(executable := toks[0], arguments := [toks[0]]), toks[1..]);
    }
  }

  // ----- the printer -----

  /** The words of a command in canonical order: arguments, output, input, background. */
  function Words(c: Command): seq<string> {
    c.arguments
    + (if c.redirectOutput == "" then [] else [">", c.redirectOutput])
    + (if c.redirectInput == "" then [] else ["<", c.redirectInput])
    + (if c.isBackground then ["&"] else [])
  }

  function Join(words: seq<string>): string {
    if words == [] then "" else words[0] + " " + Join(words[1..])
  }

  function Print(c: Command): string {
    Join(Words(c))
  }

  lemma TokensOfWord(t: string, rest: string)
    requires IsToken(t)
    ensures Tokens(t + " " + rest) == [t] + Tokens(rest)
  {
    var after := " " + rest;
    LeadingWord("", t, after);
    SkipsSpaces(" ", rest);
    assert "" + t + after == t + " " + rest;
  }

  lemma {:induction false} TokensOfJoin(words: seq<string>)
    requires forall i :: 0 <= i < |words| ==> IsToken(words[i])
    ensures Tokens(Join(words)) == words
  {
    if words != [] {
      TokensOfJoin(words[1..]);
      TokensOfWord(words[0], Join(words[1..]));
    }
  }

  /** Plain words are appended to the arguments. */
  lemma {:induction false} AbsorbArguments(c: Command, args: seq<string>, more: seq<string>)
    requires forall i :: 0 <= i < |args| ==> !IsOperator(args[i])
    ensures Absorb(c, args + more) == Absorb(c.(arguments := c.arguments + args), more)
    decreases |args|
  {
    if args == [] {
      assert args + more == more;
      assert c.arguments + args == c.arguments;
    } else {
      assert (args + more)[1..] == args[1..] + more;
      AbsorbArguments(c.(arguments := c.arguments + [args[0]]), args[1..], more);
      assert c.arguments + [args[0]] + args[1..] == c.arguments + args;
    }
  }

  /** The canonical tail sets the three remaining fields. */
  lemma AbsorbTail(c: Command, output: string, input: string, background: bool)
    requires c.redirectOutput == "" && c.redirectInput == "" && !c.isBackground
    ensures
      Absorb(c, (if output == "" then [] else [">", output]) + (if input == "" then [] else ["<", input])
                + (if background then ["&"] else []))
      == c.(redirectOutput := output, redirectInput := input, isBackground := background)
  {
    var bg: seq<string> := if background then ["&"] else [];
    var i: seq<string> := if input == "" then [] else ["<", input];
    var o: seq<string> := if output == "" then [] else [">", output];
    var c1 := c.(redirectOutput := output);
    var c2 := c1.(redirectInput := input);
    assert Absorb(c2, bg) == c2.(isBackground := background);
    assert Absorb(c1, i + bg) == Absorb(c2, bg) by {
      if input != "" {
        assert (i + bg)[2..] == bg;
      } else {
        assert i + bg == bg;
      }
    }
    assert Absorb(c, o + (i + bg)) == Absorb(c1, i + bg) by {
      if output != "" {
        assert (o + (i + bg))[2..] == i + bg;
      } else {
        assert o + (i + bg) == i + bg;
      }
    }
    assert o + i + bg == o + (i + bg);
  }

  lemma ParsedWords(c: Command)
    requires WellFormed(c)
    ensures Parsed(Words(c)) == c
  {
    if c != EMPTY_COMMAND {
      var tail :=
        (if c.redirectOutput == "" then [] else [">", c.redirectOutput])
        + (if c.redirectInput == "" then [] else ["<", c.redirectInput])
        + (if c.isBackground then ["&"] else []);
      assert Words(c) == c.arguments + tail;
      var start := EMPTY_COMMAND.(executable := c.executable, arguments := [c.executable]);
      assert Words(c)[1..] == c.arguments[1..] + tail;
      AbsorbArguments(start, c.arguments[1..], tail);
      assert [c.executable] + c.arguments[1..] == c.arguments;
      AbsorbTail(start.(arguments := c.arguments), c.redirectOutput, c.redirectInput, c.isBackground);
    }
  }

  lemma WordsAreTokens(c: Command)
    requires WellFormed(c)
    ensures forall i :: 0 <= i < |Words(c)| ==> IsToken(Words(c)[i])
  {
  }

  /** The parser undoes the printer on every well-formed command. */
  lemma ParseUndoesPrint(c: Command)
    requires WellFormed(c)
    ensures Parsed(Tokens(Print(c))) == c
  {
    WordsAreTokens(c);
    TokensOfJoin(Words(c));
    ParsedWords(c);
  }

  /** For every line: printing what was parsed and parsing it again changes nothing. */
  lemma LineRoundTrip(s: string)
    ensures var c := Parsed(Tokens(s)); Parsed(Tokens(Print(c))) == c
  {
    ParsedIsWellFormed(Tokens(s));
    ParseUndoesPrint(Parsed(Tokens(s)));
  }

  /** Well-formed commands are exactly those that the parser returns for some line. */
  lemma ParserRange(c: Command)
    ensures WellFormed(c) <==> exists s :: Parsed(Tokens(s)) == c
  {
    if WellFormed(c) {
      ParseUndoesPrint(c);
    }
    forall s | Parsed(Tokens(s)) == c ensures WellFormed(c) {
      ParsedIsWellFormed(Tokens(s));
    }
  }

  // ----- parsePipeline -----

  predicate NoBar(s: string) {
    forall i :: 0 <= i < |s| ==> s[i] != '|'
  }

  /** Index of the first bar, or the length. */
  function FirstBar(s: string): (n: nat)
    ensures n <= |s| && NoBar(s[..n]) && (n < |s| ==> s[n] == '|')
  {
    if s == "" || s[0] == '|' then 0
    else
      var n := FirstBar(s[1..]);
      assert s[..n + 1] == [s[0]] + s[1..][..n];
      n + 1
  }

  /** `std::getline(stream, segment, '|')` until it fails: the last segment needs no bar, and what
      follows a final bar, being empty, is no segment. */
  function Segments(s: string): (r: seq<string>)
    ensures forall i :: 0 <= i < |r| ==> NoBar(r[i])
    decreases |s|
  {
    if s == "" then []
    else
      var n := FirstBar(s);
      if n == |s| then [s] else [s[..n]] + Segments(s[n + 1..])
  }

  function EndedByBars(segments: seq<string>): string {
    if segments == [] then "" else segments[0] + "|" + EndedByBars(segments[1..])
  }

  lemma EndedByBarsCons(piece: string, more: seq<string>)
    ensures EndedByBars([piece] + more) == piece + "|" + EndedByBars(more)
  {
    assert ([piece] + more)[1..] == more;
  }

  /** The line, with a bar at its end. */
  function Barred(s: string): string {
    if s == "" || s[|s| - 1] == '|' then s else s + "|"
  }

  lemma BarredAfterBar(piece: string, rest: string)
    ensures Barred(piece + "|" + rest) == piece + "|" + Barred(rest)
  {
    var s := piece + "|" + rest;
    if rest != "" {
      assert s[|s| - 1] == rest[|rest| - 1];
      assert s + "|" == piece + "|" + (rest + "|");
    }
  }

  /** The segments are the pieces of the line between bars. A final bar is optional. */
  lemma {:induction false} SegmentsRejoin(s: string)
    ensures EndedByBars(Segments(s)) == Barred(s)
    decreases |s|
  {
    if s != "" {
      var n := FirstBar(s);
      if n < |s| {
        var piece, rest := s[..n], s[n + 1..];
        assert s == piece + "|" + rest;
        SegmentsRejoin(rest);
        EndedByBarsCons(piece, Segments(rest));
        BarredAfterBar(piece, rest);
      } else {
        EndedByBarsCons(s, []);
        assert [s] + [] == [s];
      }
    }
  }

  function ParsedAll(segments: seq<string>): (r: seq<Command>)
    ensures |r| == |segments|
    ensures forall i :: 0 <= i < |r| ==> r[i] == Parsed(Tokens(segments[i]))
  {
    if segments == [] then [] else [Parsed(Tokens(segments[0]))] + ParsedAll(segments[1..])
  }

  function AfterBar(s: string): (r: string)
    requires s != ""
    ensures |r| < |s|
  {
    var n := FirstBar(s);
    if n < |s| then s[n + 1..] else ""
  }

  lemma SegmentsUnfold(s: string)
    requires s != ""
    ensures Segments(s) == [s[..FirstBar(s)]] + Segments(AfterBar(s))
    ensures ParsedAll(Segments(s)) == [Parsed(Tokens(s[..FirstBar(s)]))] + ParsedAll(Segments(AfterBar(s)))
  {
    assert s[..|s|] == s;
    assert Segments(s) == [s[..FirstBar(s)]] + Segments(AfterBar(s));
    assert Segments(s)[1..] == Segments(AfterBar(s));
  }

  /** One call of `std::getline`. */
  method GetSegment(s: string) returns (segment: string, rest: string)
    requires s != ""
    ensures segment == s[..FirstBar(s)] && rest == AfterBar(s)
  {
    var n := 0;
    while n < |s| && s[n] != '|'
      invariant n <= |s| && n + FirstBar(s[n..]) == FirstBar(s)
    {
      n := n + 1;
    }
    segment, rest := s[..n], if n < |s| then s[n + 1..] else "";
  }

  lemma ConcatAssociates<T>(a: seq<T>, b: seq<T>, c: seq<T>)
    ensures a + (b + c) == (a + b) + c
  {
  }

  method ParsePipeline(input: string) returns (pipeline: seq<Command>)
    ensures pipeline == ParsedAll(Segments(input))
  {
    pipeline := [];
    var left := input;
    while left != ""
      invariant pipeline + ParsedAll(Segments(left)) == ParsedAll(Segments(input))
      decreases |left|
    {
      SegmentsUnfold(left);
      var segment, rest := GetSegment(left);
      var cmd := ParseLine(segment);
      ConcatAssociates(pipeline, [cmd], ParsedAll(Segments(rest)));
      pipeline, left := pipeline + [cmd], rest;
    }
  }

  function PrintPipeline(p: seq<Command>): string {
    if p == [] then "" else Print(p[0]) + "|" + PrintPipeline(p[1..])
  }

  /** A command without bars, such as a pipeline consists of. */
  predicate Barless(c: Command) {
    && (forall i :: 0 <= i < |c.arguments| ==> NoBar(c.arguments[i]))
    && NoBar(c.redirectInput) && NoBar(c.redirectOutput)
  }

  lemma {:induction false} JoinHasNoBar(words: seq<string>)
    requires forall i :: 0 <= i < |words| ==> NoBar(words[i])
    ensures NoBar(Join(words))
  {
    if words != [] {
      JoinHasNoBar(words[1..]);
    }
  }

  lemma PrintHasNoBar(c: Command)
    requires Barless(c)
    ensures NoBar(Print(c))
  {
    var w := Words(c);
    assert forall i :: 0 <= i < |w| ==> NoBar(w[i]);
    JoinHasNoBar(w);
  }

  lemma {:induction false} FirstBarAfter(s: string, rest: string)
    requires NoBar(s)
    ensures FirstBar(s + "|" + rest) == |s|
  {
    var t := s + "|" + rest;
    if s != "" {
      assert t[0] == s[0] && t[1..] == s[1..] + "|" + rest;
      FirstBarAfter(s[1..], rest);
    }
  }

  lemma SegmentsOfBar(s: string, rest: string)
    requires NoBar(s)
    ensures Segments(s + "|" + rest) == [s] + Segments(rest)
  {
    var t := s + "|" + rest;
    FirstBarAfter(s, rest);
    assert t[..|s|] == s && t[|s| + 1..] == rest;
  }

  /** Tokens are pieces of the line, so they bring no new characters. */
  lemma {:induction false} SkipSpaceNoBar(s: string)
    requires NoBar(s)
    ensures NoBar(SkipSpace(s))
  {
    if s != "" && IsSpace(s[0]) {
      SkipSpaceNoBar(s[1..]);
    }
  }

  lemma {:induction false} TokensNoBar(s: string)
    requires NoBar(s)
    ensures forall i :: 0 <= i < |Tokens(s)| ==> NoBar(Tokens(s)[i])
    decreases |s|
  {
    var rest := SkipSpace(s);
    SkipSpaceNoBar(s);
    if rest != "" {
      var n := WordLength(rest);
      TokensNoBar(rest[n..]);
    }
  }

  lemma {:induction false} AbsorbNoBar(c: Command, toks: seq<string>)
    requires Barless(c) && forall i :: 0 <= i < |toks| ==> NoBar(toks[i])
    ensures Barless(Absorb(c, toks))
    decreases |toks|
  {
    if toks == [] {
    } else if toks[0] == "&" {
      AbsorbNoBar(c.(isBackground := true), toks[1..]);
    } else if toks[0] == ">" {
      if |toks| > 1 {
        AbsorbNoBar(c.(redirectOutput := toks[1]), toks[2..]);
      }
    } else if toks[0] == "<" {
      if |toks| > 1 {
        AbsorbNoBar(c.(redirectInput := toks[1]), toks[2..]);
      }
    } else {
      AbsorbNoBar(c.(arguments := c.arguments + [toks[0]]), toks[1..]);
    }
  }

  lemma ParsedNoBar(s: string)
    requires NoBar(s)
    ensures Barless(Parsed(Tokens(s)))
  {
    TokensNoBar(s);
    var toks := Tokens(s);
    if toks != [] {
      AbsorbNoBar(EMPTY_COMMAND.(executable := toks[0], arguments := [toks[0]]), toks[1..]);
    }
  }

  predicate WellFormedPipeline(p: seq<Command>) {
    forall i :: 0 <= i < |p| ==> WellFormed(p[i]) && Barless(p[i])
  }

  lemma {:induction false} ParsePipelineUndoesPrint(p: seq<Command>)
    requires WellFormedPipeline(p)
    ensures ParsedAll(Segments(PrintPipeline(p))) == p
  {
    if p != [] {
      ParsePipelineUndoesPrint(p[1..]);
      PrintHasNoBar(p[0]);
      SegmentsOfBar(Print(p[0]), PrintPipeline(p[1..]));
      ParseUndoesPrint(p[0]);
      var segments := Segments(PrintPipeline(p));
      assert segments == [Print(p[0])] + Segments(PrintPipeline(p[1..]));
      assert segments[1..] == Segments(PrintPipeline(p[1..]));
    }
  }

  lemma ParsedPipelineIsWellFormed(s: string)
    ensures WellFormedPipeline(ParsedAll(Segments(s)))
  {
    var segments := Segments(s);
    forall i | 0 <= i < |segments|
      ensures WellFormed(Parsed(Tokens(segments[i]))) && Barless(Parsed(Tokens(segments[i])))
    {
      ParsedIsWellFormed(Tokens(segments[i]));
      ParsedNoBar(segments[i]);
    }
  }

  /** For every line: printing the parsed pipeline, each command ended by a bar, and parsing it
      again changes nothing, empty segments included. */
  lemma {:induction false} PipelineRoundTrip(s: string)
    ensures var p := ParsedAll(Segments(s)); ParsedAll(Segments(PrintPipeline(p))) == p
  {
    ParsedPipelineIsWellFormed(s);
    ParsePipelineUndoesPrint(ParsedAll(Segments(s)));
  }
}
