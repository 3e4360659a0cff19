/**
 * The recognizers of parser.rs. Each `parse_*` function tries one anchored
 * regular expression `^(group 1)(group 2)$` on the remaining text and, on a
 * match, returns the token together with group 1 (the text the token takes)
 * and group 2 (what is left). Here every expression is written out as the
 * prefix it accepts.
 */
module Recognizers {
  import opened Wrappers
  import opened Keywords
  import opened Tokens
  import opened Text

  /** A recognizer's answer: the token, the text it took and the text left over. */
  datatype Scanned = Scanned(token: Token, matched: string, rest: string)

  /**
   * A successful answer `r` splits `s` exactly into a non-empty taken part and
   * the rest, and carries a token of `kind` stamped with `line`.
   */
  ghost predicate SplitsAs(r: Option<Scanned>, s: string, kind: TokenKind, line: int) {
    r.Some? ==>
      && r.value.token == Stamp(kind, line, false)
      && r.value.matched != []
      && r.value.matched + r.value.rest == s
  }

  /** The `parse_capture!` macro: a match whose first group ends at `end`. */
  function Capture(s: string, kind: TokenKind, line: int, end: Option<nat>): (r: Option<Scanned>)
    requires end.Some? ==> 0 < end.value <= |s|
    ensures r.Some? <==> end.Some?
    ensures SplitsAs(r, s, kind, line)
    ensures r.Some? ==> |r.value.matched| == end.value
    ensures r.Some? ==> r.value.matched == s[..end.value] && r.value.rest == s[end.value..]
  {
    match end
    case None => None
    case Some(e) =>
      assert s[..e] + s[e..] == s;
      Some(Scanned(Stamp(kind, line, false), s[..e], s[e..]))
  }

  /** `^(text)(?s)(.*)$`: the input starts with `text`, and the token takes just that. */
  function FixedText(s: string, text: string, kind: TokenKind, line: int): (r: Option<Scanned>)
    requires text != []
    ensures r.Some? <==> text <= s
    ensures SplitsAs(r, s, kind, line)
    ensures r.Some? ==> r.value.matched == text
  {
    Capture(s, kind, line, if text <= s then Some(|text|) else None)
  }

  /** `^(word\s)(?s)(.*)$`: `word` and the one whitespace character after it. */
  function WordThenSpace(s: string, word: string, kind: TokenKind, line: int): (r: Option<Scanned>)
    requires word != []
    ensures r.Some? <==> word <= s && |word| < |s| && IsSpace(s[|word|])
    ensures SplitsAs(r, s, kind, line)
    ensures r.Some? ==> r.value.matched == s[..|word| + 1]
  {
    Capture(s, kind, line, if word <= s && |word| < |s| && IsSpace(s[|word|]) then Some(|word| + 1) else None)
  }

  // ----- single-pattern recognizers, in the order parser.rs declares them -----

  /** `parse_open_parens`: `^(\()(?s)(.*)$`. */
  function ParseOpenParens(s: string, line: int): (r: Option<Scanned>)
    ensures r.Some? <==> "(" <= s
    ensures SplitsAs(r, s, OpenParen, line)
    ensures r.Some? ==> r.value.matched == "("
  {
    FixedText(s, "(", OpenParen, line)
  }

  /** `parse_close_parens`: `^(\)\n?)(?s)(.*)$`, a line feed right after `)` goes with it. */
  function ParseCloseParens(s: string, line: int): (r: Option<Scanned>)
    ensures r.Some? <==> ")" <= s
    ensures SplitsAs(r, s, CloseParen, line)
    ensures r.Some? ==> r.value.matched[0] == ')' && |r.value.matched| <= 2
    ensures r.Some? ==> (|r.value.matched| == 2 <==> ")\n" <= s)
  {
    Capture(s, CloseParen, line, if ")" <= s then Some(NewlineAfter(s, 1)) else None)
  }

  /** `parse_dot`: `^(\.)(?s)(.*)$`. */
  function ParseDot(s: string, line: int): (r: Option<Scanned>)
    ensures r.Some? <==> "." <= s
    ensures SplitsAs(r, s, Dot, line)
    ensures r.Some? ==> r.value.matched == "."
  {
    FixedText(s, ".", Dot, line)
  }

  /** `parse_comma`: `^(,)(?s)(.*)$`. */
  function ParseComma(s: string, line: int): (r: Option<Scanned>)
    ensures r.Some? <==> "," <= s
    ensures SplitsAs(r, s, Comma, line)
    ensures r.Some? ==> r.value.matched == ","
  {
    FixedText(s, ",", Comma, line)
  }

  /** `parse_line_comment`: `^(//.*)(?s)(.*)$`, the comment runs to the end of its line. */
  function ParseLineComment(s: string, line: int): (r: Option<Scanned>)
    ensures r.Some? <==> "//" <= s
    ensures SplitsAs(r, s, LineComment, line)
    ensures r.Some? ==> "//" <= r.value.matched && '\n' !in r.value.matched
    ensures r.Some? ==> r.value.rest == [] || r.value.rest[0] == '\n'
  {
    Capture(s, LineComment, line, if "//" <= s then Some(LineEnd(s, 2)) else None)
  }

  /** A comment closer, star then slash, starts at position `j` of `s`. */
  predicate CloserAt(s: string, j: int) {
    0 <= j && j + 1 < |s| && s[j] == '*' && s[j + 1] == '/'
  }

  /** The last comment closer starting in `[lo, hi)`. */
  function LastCloser(s: string, lo: nat, hi: nat): (r: Option<nat>)
    requires lo <= hi
    ensures r.Some? ==> lo <= r.value < hi && CloserAt(s, r.value)
    ensures r.Some? ==> forall j :: r.value < j < hi ==> !CloserAt(s, j)
    ensures r.None? ==> forall j :: lo <= j < hi ==> !CloserAt(s, j)
    decreases hi - lo
  {
    if lo == hi then None
    else if CloserAt(s, hi - 1) then Some(hi - 1)
    else LastCloser(s, lo, hi - 1)
  }

  // `parse_block_comment`: `^(?s)(/\*.*\*/)(.*)$`. The `.*` is greedy and may
  // cross lines, so the comment ends at the LAST closer of the input.
  function ParseBlockComment(s: string, line: int): (r: Option<Scanned>)
    ensures r.Some? <==> "/*" <= s && exists j :: 2 <= j && CloserAt(s, j)
    ensures SplitsAs(r, s, BlockComment(true), line)
    ensures r.Some? ==> "/*" <= r.value.matched && |r.value.matched| >= 4
    ensures r.Some? ==> CloserAt(s, |r.value.matched| - 2)
    ensures r.Some? ==> forall j :: |r.value.matched| - 2 < j ==> !CloserAt(s, j)
  {
    var end := if "/*" <= s then match LastCloser(s, 2, |s|) case Some(j) => Some(j + 2) case None => None else None;
    assert "/*" <= s ==> forall j :: |s| <= j ==> !CloserAt(s, j);
    Capture(s, BlockComment(true), line, end)
  }

  /**
   * `parse_identifier`: `^([A-Za-z_0-9]+\n?)(?s)(\s|\(|.*)$`. The run of word
   * characters is the longest one, a line feed right after it goes with it,
   * and the last group can always take the rest.
   */
  function ParseIdentifier(s: string, line: int): (r: Option<Scanned>)
    ensures r.Some? <==> |s| > 0 && IsWordChar(s[0])
    ensures SplitsAs(r, s, Identifier, line)
    ensures r.Some? ==> IdentifierSplit(r.value.matched, r.value.rest)
  {
    var w := RunEnd(s, 0, IsWordChar);
    if w > 0 then
      WordRun(s, w);
      Capture(s, Identifier, line, Some(NewlineAfter(s, w)))
    else None
  }

  /**
   * An identifier token `m` followed by `rest`: word characters, the last of
   * them possibly replaced by a line feed; without that line feed the run
   * cannot go on into `rest`.
   */
  ghost predicate IdentifierSplit(m: string, rest: string) {
    && m != []
    && IsWordChar(m[0])
    && (forall k :: 0 <= k < |m| - 1 ==> IsWordChar(m[k]))
    && (IsWordChar(m[|m| - 1]) || m[|m| - 1] == '\n')
    && (m[|m| - 1] == '\n' || rest == [] || (!IsWordChar(rest[0]) && rest[0] != '\n'))
  }

  /** A text splits as an identifier in at most one way: the contract of `ParseIdentifier` fixes its answer. */
  lemma IdentifierSplitUnique(m1: string, r1: string, m2: string, r2: string)
    requires m1 + r1 == m2 + r2 && IdentifierSplit(m1, r1) && IdentifierSplit(m2, r2)
    ensures m1 == m2 && r1 == r2
  {
    NoShorterIdentifierSplit(m1, r1, m2, r2);
    NoShorterIdentifierSplit(m2, r2, m1, r1);
    assert m1 == (m1 + r1)[..|m1|] && m2 == (m2 + r2)[..|m2|];
  }

  /** No identifier split of a text stops inside the run of another one. */
  lemma NoShorterIdentifierSplit(m1: string, r1: string, m2: string, r2: string)
    requires m1 + r1 == m2 + r2 && IdentifierSplit(m1, r1) && IdentifierSplit(m2, r2)
    ensures |m2| <= |m1|
  {
    SameText(m1, r1, m2, r2);
  }

  /** Two splits of one text agree character by character. */
  lemma SameText(m1: string, r1: string, m2: string, r2: string)
    requires m1 + r1 == m2 + r2
    ensures forall k :: 0 <= k < |m1| && k < |m2| ==> m1[k] == m2[k]
    ensures forall j :: 0 <= j < |r1| && |m1| + j < |m2| ==> r1[j] == m2[|m1| + j]
  {
    forall k | 0 <= k < |m1| && k < |m2|
      ensures m1[k] == m2[k]
    {
      assert m1[k] == (m1 + r1)[k];
    }
    forall j | 0 <= j < |r1| && |m1| + j < |m2|
      ensures r1[j] == m2[|m1| + j]
    {
      assert r1[j] == (m1 + r1)[|m1| + j];
    }
  }

  /** The longest run of word characters, and a line feed right after it, split the text as the identifier does. */
  lemma WordRun(s: string, w: nat)
    requires 0 < w == RunEnd(s, 0, IsWordChar)
    ensures IdentifierSplit(s[..NewlineAfter(s, w)], s[NewlineAfter(s, w)..])
  {
  }

  /** `parse_whitespace`: `^([[:blank:]])(?s)(.*)$`, one space or tab. */
  function ParseWhitespace(s: string, line: int): (r: Option<Scanned>)
    ensures r.Some? <==> |s| > 0 && IsBlank(s[0])
    ensures SplitsAs(r, s, Whitespace, line)
    ensures r.Some? ==> |r.value.matched| == 1
  {
    Capture(s, Whitespace, line, if |s| > 0 && IsBlank(s[0]) then Some(1) else None)
  }

  /** `parse_newline`: `^(\n)(?s)(.*)$`. */
  function ParseNewline(s: string, line: int): (r: Option<Scanned>)
    ensures r.Some? <==> "\n" <= s
    ensures SplitsAs(r, s, NewLine, line)
    ensures r.Some? ==> r.value.matched == "\n"
  {
    FixedText(s, "\n", NewLine, line)
  }

  /** `parse_as`: `^(\sas)(?s)(.*)$`, a whitespace character then `as`, whatever follows. */
  function ParseAs(s: string, line: int): (r: Option<Scanned>)
    ensures r.Some? <==> |s| >= 3 && IsSpace(s[0]) && s[1..3] == "as"
    ensures SplitsAs(r, s, Keyword(As), line)
    ensures r.Some? ==> |r.value.matched| == 3
  {
    Capture(s, Keyword(As), line, if |s| >= 3 && IsSpace(s[0]) && s[1..3] == "as" then Some(3) else None)
  }

  /**
   * `e` is where `.*[cs]\n?` started at `from` ends: after the last character
   * of `cs` on the line, and after the line feed that follows it, if one does.
   */
  ghost predicate ClosesAtLast(s: string, from: nat, e: nat, cs: set<char>)
    requires from <= |s|
  {
    exists q ::
      && from <= q < LineEnd(s, from) && s[q] in cs
      && (forall k :: q < k < LineEnd(s, from) ==> s[k] !in cs)
      && e == NewlineAfter(s, q + 1)
  }

  /** The end of `.*[cs]\n?` started at `from`, if the line has a character of `cs`. */
  function LastOnLine(s: string, from: nat, cs: set<char>): (e: Option<nat>)
    requires from <= |s|
    ensures e.Some? <==> exists q :: from <= q < LineEnd(s, from) && s[q] in cs
    ensures e.Some? ==> from < e.value <= |s| && ClosesAtLast(s, from, e.value, cs)
  {
    var hi := LineEnd(s, from);
    var last := LastIndexIn(s, from, hi, cs);
    if last.Some? then
      var q := last.value;
      assert from <= q < hi && s[q] in cs;
      assert ClosesAtLast(s, from, NewlineAfter(s, q + 1), cs) by {
        assert forall k :: q < k < hi ==> s[k] !in cs;
      }
      Some(NewlineAfter(s, q + 1))
    else
      assert forall k :: from <= k < hi ==> s[k] !in cs;
      None
  }

  /**
   * `parse_type_with_generics`: `^([A-Za-z0-9]+<.*>\n?)(?s)(.*)$`: a name, `<`,
   * then up to the last `>` on that line, and a line feed right after it.
   */
  function ParseTypeWithGenerics(s: string, line: int): (r: Option<Scanned>)
    ensures r.Some? <==>
      var n := RunEnd(s, 0, IsAlnum);
      0 < n < |s| && s[n] == '<' && exists q :: n < q < LineEnd(s, n + 1) && s[q] == '>'
    ensures SplitsAs(r, s, TypeWithGeneric, line)
    ensures r.Some? ==>
      var n := RunEnd(s, 0, IsAlnum);
      0 < n < |s| && s[n] == '<' && ClosesAtLast(s, n + 1, |r.value.matched|, {'>'})
  {
    var n := RunEnd(s, 0, IsAlnum);
    Capture(s, TypeWithGeneric, line, if 0 < n < |s| && s[n] == '<' then LastOnLine(s, n + 1, {'>'}) else None)
  }

  /**
   * The two bracket expressions of the macro pattern, `[\(?|{?|\[?]` and
   * `[\)?|}?|\]?]`, are character classes: they also accept `?` and `|`.
   */
  const MacroOpeners: set<char> := {'(', '?', '|', '{', '['}
  const MacroClosers: set<char> := {')', '?', '|', '}', ']'}

  /**
   * `parse_macro`: `^([A-Za-z_0-9]+![\(?|{?|\[?].*[\)?|}?|\]?]\n?)(?s)(.*)$`:
   * a name, `!`, an opening character, then up to the last closing character
   * on that line, and a line feed right after it.
   */
  function ParseMacro(s: string, line: int): (r: Option<Scanned>)
    ensures r.Some? <==>
      var w := RunEnd(s, 0, IsWordChar);
      && 0 < w && w + 1 < |s| && s[w] == '!' && s[w + 1] in MacroOpeners
      && exists q :: w + 1 < q < LineEnd(s, w + 2) && s[q] in MacroClosers
    ensures SplitsAs(r, s, Macro, line)
    ensures r.Some? ==>
      var w := RunEnd(s, 0, IsWordChar);
      && 0 < w && w + 1 < |s| && s[w] == '!' && s[w + 1] in MacroOpeners
      && ClosesAtLast(s, w + 2, |r.value.matched|, MacroClosers)
  {
    var w := RunEnd(s, 0, IsWordChar);
    var opens := 0 < w && w + 1 < |s| && s[w] == '!' && s[w + 1] in MacroOpeners;
    Capture(s, Macro, line, if opens then LastOnLine(s, w + 2, MacroClosers) else None)
  }

  /** `parse_namespace_separator`: `^(::)(?s)(.*)$`. */
  function ParseNamespaceSeparator(s: string, line: int): (r: Option<Scanned>)
    ensures r.Some? <==> "::" <= s
    ensures SplitsAs(r, s, NamespaceSeparator, line)
    ensures r.Some? ==> r.value.matched == "::"
  {
    FixedText(s, "::", NamespaceSeparator, line)
  }

  /** `parse_not_operator`: `^(not\s)(?s)(.*)$`. */
  function ParseNotOperator(s: string, line: int): (r: Option<Scanned>)
    ensures r.Some? <==> "not" <= s && |s| > 3 && IsSpace(s[3])
    ensures SplitsAs(r, s, Not, line)
    ensures r.Some? ==> |r.value.matched| == 4
  {
    WordThenSpace(s, "not", Not, line)
  }

  // ----- collection literals: `<open>.*,.*<close>\n?` then `(\s.*)$` -----

  /**
   * Where the first group ends if its closing character is at `b`: after a
   * line feed that follows `b` when whitespace comes next, otherwise right
   * after `b` when the next character is whitespace (a line feed is).
   */
  function TailEnd(s: string, b: nat): (r: Option<nat>)
    requires b < |s|
    ensures r.Some? ==> r.value < |s| && IsSpace(s[r.value])
    ensures r.Some? ==> r.value == b + 1 || (r.value == b + 2 && s[b + 1] == '\n')
  {
    if b + 2 < |s| && s[b + 1] == '\n' && IsSpace(s[b + 2]) then Some(b + 2)
    else if b + 1 < |s| && IsSpace(s[b + 1]) then Some(b + 1)
    else None
  }

  /** `b` closes a collection opened just before `start`: a comma comes first and the pattern can finish. */
  predicate CollectionCloser(s: string, start: nat, b: nat, close: char) {
    start <= b < |s| && s[b] == close && ',' in s[start..b] && TailEnd(s, b).Some?
  }

  /** The last position in `[lo, hi)` that closes a collection opened just before `start`. */
  function LastCollectionCloser(s: string, start: nat, lo: nat, hi: nat, close: char): (r: Option<nat>)
    requires start <= lo <= hi
    ensures r.Some? ==> lo <= r.value < hi && CollectionCloser(s, start, r.value, close)
    ensures r.Some? ==> forall b :: r.value < b < hi ==> !CollectionCloser(s, start, b, close)
    ensures r.None? ==> forall b :: lo <= b < hi ==> !CollectionCloser(s, start, b, close)
    decreases hi - lo
  {
    if lo == hi then None
    else if CollectionCloser(s, start, hi - 1, close) then Some(hi - 1)
    else LastCollectionCloser(s, start, lo, hi - 1, close)
  }

  /** Some closing character on the line from `start` closes the collection. */
  ghost predicate ClosableFrom(s: string, start: nat, close: char)
    requires start <= |s|
  {
    exists b :: start <= b < LineEnd(s, start) && CollectionCloser(s, start, b, close)
  }

  /** `b` is the closer the regex settles on: the last one on the line that lets the pattern finish. */
  ghost predicate SettlesAt(s: string, start: nat, b: nat, close: char)
    requires start <= |s|
  {
    && start <= b < LineEnd(s, start) && CollectionCloser(s, start, b, close)
    && forall b' :: b < b' < LineEnd(s, start) ==> !CollectionCloser(s, start, b', close)
  }

  /**
   * The token `m` closes on the character the regex settles on: its last
   * character, or the one before a trailing line feed; and it ends where the
   * pattern finishes after that character.
   */
  ghost predicate EndsAtLastCloser(s: string, start: nat, close: char, m: string)
    requires start <= |s|
  {
    var b := if m != [] && m[|m| - 1] == '\n' then |m| - 2 else |m| - 1;
    0 <= b && SettlesAt(s, start, b, close) && |m| == TailEnd(s, b).value
  }

  /** What a collection recognizer's answer looks like: `matched` ends with `close`, or `close` and a line feed. */
  ghost predicate CollectionShape(r: Option<Scanned>, close: char) {
    r.Some? ==>
      var m, rest := r.value.matched, r.value.rest;
      && ',' in m
      && (m[|m| - 1] == close || (|m| >= 2 && m[|m| - 2] == close && m[|m| - 1] == '\n'))
      && rest != [] && IsSpace(rest[0])
  }

  /** The text up to where the pattern finishes after the closer `b` has the collection's shape. */
  lemma CollectionPieces(s: string, start: nat, b: nat, close: char)
    requires 0 < start && CollectionCloser(s, start, b, close)
    ensures var e := TailEnd(s, b).value;
      && b < e < |s|
      && ',' in s[..e]
      && (s[e - 1] == close || (s[e - 2] == close && s[e - 1] == '\n'))
      && IsSpace(s[e])
  {
    var e := TailEnd(s, b).value;
    assert s[..e][start..b] == s[start..b];
  }

  /**
   * A collection literal whose opening part fills `s[..start]`: `.*,.*<close>\n?`
   * followed by `\s`, where both `.*` stay on the line and the regex settles
   * on the last closing character of the line after which it can finish. The
   * token runs through that closing character (and a line feed right after it).
   */
  function CollectionAt(s: string, start: nat, close: char, kind: TokenKind, line: int): (r: Option<Scanned>)
    requires 0 < start <= |s| && close != '\n'
    ensures r.Some? <==> ClosableFrom(s, start, close)
    ensures SplitsAs(r, s, kind, line)
    ensures r.Some? ==> start < |r.value.matched| && r.value.matched[..start] == s[..start]
    ensures r.Some? ==> EndsAtLastCloser(s, start, close, r.value.matched)
    ensures CollectionShape(r, close)
  {
    var hi := LineEnd(s, start);
    match LastCollectionCloser(s, start, start, hi, close)
    case Some(b) =>
      CollectionPieces(s, start, b, close);
      var e := TailEnd(s, b).value;
      assert SettlesAt(s, start, b, close);
      assert EndsAtLastCloser(s, start, close, s[..e]);
      var r := Scanned(Stamp(kind, line, false), s[..e], s[e..]);
      assert r.matched[..start] == s[..start];
      assert r.matched + r.rest == s;
      Some(r)
    case None =>
      assert !ClosableFrom(s, start, close);
      None
  }

  /** `parse_array`: `^(\[.*,.*\]\n?)(?s)(\s.*)$`. */
  function ParseArray(s: string, line: int): (r: Option<Scanned>)
    ensures r.Some? <==> "[" <= s && ClosableFrom(s, 1, ']')
    ensures SplitsAs(r, s, Collection(Array), line)
    ensures r.Some? ==> r.value.matched[0] == '['
    ensures r.Some? ==> EndsAtLastCloser(s, 1, ']', r.value.matched)
    ensures CollectionShape(r, ']')
  {
    if "[" <= s then CollectionAt(s, 1, ']', Collection(Array), line) else None
  }

  /** `parse_tuple`: `^(\(.*,.*\)\n?)(?s)(\s.*)$`. */
  function ParseTuple(s: string, line: int): (r: Option<Scanned>)
    ensures r.Some? <==> "(" <= s && ClosableFrom(s, 1, ')')
    ensures SplitsAs(r, s, Collection(Tuple), line)
    ensures r.Some? ==> r.value.matched[0] == '('
    ensures r.Some? ==> EndsAtLastCloser(s, 1, ')', r.value.matched)
    ensures CollectionShape(r, ')')
  {
    if "(" <= s then CollectionAt(s, 1, ')', Collection(Tuple), line) else None
  }

  /**
   * A collection opened by the first character of `s`, a run of characters
   * `space` accepts, and `open`. The test for the run is a parameter so that
   * the proof here does not depend on which characters it accepts.
   */
  function CollectionAfterRun(s: string, space: char -> bool, open: char, close: char, kind: TokenKind, line: int): (r: Option<Scanned>)
    requires s != [] && close != '\n'
    ensures r.Some? <==>
      var o := RunEnd(s, 1, space);
      o < |s| && s[o] == open && ClosableFrom(s, o + 1, close)
    ensures SplitsAs(r, s, kind, line)
    ensures r.Some? ==> r.value.matched[0] == s[0]
    ensures r.Some? ==> EndsAtLastCloser(s, RunEnd(s, 1, space) + 1, close, r.value.matched)
    ensures CollectionShape(r, close)
  {
    var o := RunEnd(s, 1, space);
    if o < |s| && s[o] == open then
      var r := CollectionAt(s, o + 1, close, kind, line);
      assert r.Some? ==> r.value.matched[0] == r.value.matched[..o + 1][0];
      r
    else None
  }

  /**
   * `parse_hash_map`: `^(=\s*\{.*,.*\}\n?)(?s)(\s.*)$`. The whitespace between
   * `=` and `{` may span lines; the braces' contents may not.
   */
  function ParseHashMap(s: string, line: int): (r: Option<Scanned>)
    ensures r.Some? <==>
      && "=" <= s
      && var o := RunEnd(s, 1, IsSpace);
      && o < |s| && s[o] == '{' && ClosableFrom(s, o + 1, '}')
    ensures SplitsAs(r, s, Collection(HashMap), line)
    ensures r.Some? ==> r.value.matched[0] == '='
    ensures r.Some? ==> EndsAtLastCloser(s, RunEnd(s, 1, IsSpace) + 1, '}', r.value.matched)
    ensures CollectionShape(r, '}')
  {
    if "=" <= s then CollectionAfterRun(s, IsSpace, '{', '}', Collection(HashMap), line) else None
  }

  /** Where `derive\(.*\)` ends: after the last `)` on the line. */
  function DeriveEnd(s: string): (e: Option<nat>)
    requires "derive(" <= s
    ensures e.Some? <==> exists q :: 7 <= q < LineEnd(s, 7) && s[q] == ')'
    ensures e.Some? ==> 7 < e.value <= LineEnd(s, 7) && s[e.value - 1] == ')'
    ensures e.Some? ==> forall k :: e.value <= k < LineEnd(s, 7) ==> s[k] != ')'
  {
    match LastIndexIn(s, 7, LineEnd(s, 7), {')'})
    case Some(q) => Some(q + 1)
    case None => None
  }

  /** `parse_derive`: `^(derive\(.*\))(?s)(.*)$`, up to the last `)` on the line. */
  function ParseDerive(s: string, line: int): (r: Option<Scanned>)
    ensures r.Some? <==> "derive(" <= s && exists q :: 7 <= q < LineEnd(s, 7) && s[q] == ')'
    ensures SplitsAs(r, s, Keyword(Derive), line)
    ensures r.Some? ==>
      var m := r.value.matched;
      && "derive(" <= m && m[|m| - 1] == ')' && '\n' !in m
      && forall k :: |m| <= k < LineEnd(s, 7) ==> s[k] != ')'
  {
    if "derive(" <= s then
      var end := DeriveEnd(s);
      if end.Some? then
        DerivePrefixOnLine(s, end.value);
        Capture(s, Keyword(Derive), line, end)
      else None
    else None
  }

  /** A prefix of `derive(...` that stops before the line's end starts with `derive(` and holds no line feed. */
  lemma DerivePrefixOnLine(s: string, e: nat)
    requires "derive(" <= s && 7 <= e <= LineEnd(s, 7)
    ensures "derive(" <= s[..e] && '\n' !in s[..e]
  {
    forall k | 0 <= k < e
      ensures s[k] != '\n'
    {
      if k < 7 {
        assert s[k] == "derive("[k];
      }
    }
  }

  /** `parse_string`: `^(?s)(".*?")(.*)$`, lazy: up to the next `"`, across lines. */
  function ParseString(s: string, line: int): (r: Option<Scanned>)
    ensures r.Some? <==> |s| > 0 && s[0] == '"' && '"' in s[1..]
    ensures SplitsAs(r, s, Lexeme(Lexemes.String), line)
    ensures r.Some? ==>
      var m := r.value.matched;
      |m| >= 2 && m[0] == '"' && m[|m| - 1] == '"' && '"' !in m[1..|m| - 1]
  {
    if |s| > 0 && s[0] == '"' then
      match FirstIndexOf(s, 1, '"')
      case Some(j) =>
        ClosingQuote(s, j);
        Capture(s, Lexeme(Lexemes.String), line, Some(j + 1))
      case None =>
        assert '"' !in s[1..] by {
          forall k | 0 <= k < |s| - 1
            ensures s[1..][k] != '"'
          {
            assert s[1..][k] == s[k + 1];
          }
        }
        None
    else None
  }

  /** The first `"` after the opening one closes the string, which holds no other `"`. */
  lemma ClosingQuote(s: string, j: nat)
    requires 1 <= j < |s| && s[j] == '"'
    requires forall k :: 1 <= k < j ==> s[k] != '"'
    ensures '"' in s[1..]
    ensures '"' !in s[..j + 1][1..j]
  {
    assert s[1..][j - 1] == '"';
    var body := s[..j + 1][1..j];
    forall k | 0 <= k < |body|
      ensures body[k] != '"'
    {
      assert body[k] == s[k + 1];
    }
  }

  /** `parse_borrow`: `^(borrow\s)(?s)(.*)$`. */
  function ParseBorrow(s: string, line: int): (r: Option<Scanned>)
    ensures r.Some? <==> "borrow" <= s && |s| > 6 && IsSpace(s[6])
    ensures SplitsAs(r, s, Keyword(Borrow), line)
    ensures r.Some? ==> |r.value.matched| == 7
  {
    WordThenSpace(s, "borrow", Keyword(Borrow), line)
  }

  /** `parse_own`: `^(own\s)(?s)(.*)$`. */
  function ParseOwn(s: string, line: int): (r: Option<Scanned>)
    ensures r.Some? <==> "own" <= s && |s| > 3 && IsSpace(s[3])
    ensures SplitsAs(r, s, Keyword(Own), line)
    ensures r.Some? ==> |r.value.matched| == 4
  {
    WordThenSpace(s, "own", Keyword(Own), line)
  }
}
