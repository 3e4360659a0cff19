/**
 * `complete_parse` of parser.rs: the source text is cut into tokens, one
 * recognizer after another in a fixed priority order, and each token becomes
 * a childless node appended to the tree's children.
 */
module Parser {
  import opened Wrappers
  import opened Keywords
  import opened Tokens
  import opened Ast
  import opened Text
  import opened Recognizers
  import opened Tables

  /** One step of the tokenizer: the recognized token and the line counter after it. */
  datatype Step = Step(scanned: Scanned, nextLine: int)

  /**
   * How far a token moves the line counter: a block comment by the line feeds
   * it spans, a line feed by one, and every other token not at all, even one
   * that swallowed a trailing line feed.
   */
  function LineAdvance(kind: TokenKind, matched: string): (n: nat)
    ensures n > 0 ==> kind == NewLine || kind == BlockComment(true)
    ensures kind == NewLine ==> n == 1
    ensures kind == BlockComment(true) ==> n == multiset(matched)['\n']
  {
    if kind == BlockComment(true) then CountNewlines(matched)
    else if kind == NewLine then 1
    else 0
  }

  /**
   * A recognizer's answer that splits the input, stamps the line, and is
   * neither a block comment nor a line feed.
   */
  ghost predicate Plain(r: Option<Scanned>, s: string, line: int) {
    r.Some? ==>
      && SplitsAs(r, s, r.value.token.kind, line)
      && r.value.token.kind != NewLine && !r.value.token.kind.BlockComment?
  }

  /** A recognizer: the token it finds at the start of a text, stamped with a line. */
  type Recognizer = (string, int) -> Option<Scanned>

  /**
   * The answer of the first recognizer of `tries` that gives one: the
   * `if result.is_none()` chain of `complete_parse`.
   */
  function FirstOf(tries: seq<Recognizer>, s: string, line: int): Option<Scanned> {
    if tries == [] then None else tries[0](s, line).OrElse(FirstOf(tries[1..], s, line))
  }

  /** `f` answers, on every input, with a plain token. */
  ghost predicate PlainRecognizer(f: Recognizer) {
    forall s, line :: Plain(f(s, line), s, line)
  }

  /** Every recognizer of `tries` answers with a plain token. */
  ghost predicate AllPlain(tries: seq<Recognizer>) {
    forall i :: 0 <= i < |tries| ==> PlainRecognizer(tries[i])
  }

  /**
   * A chain of recognizers that each answer with a plain token answers with
   * one, and answers exactly when one of them does.
   */
  lemma {:induction false} FirstOfPlain(tries: seq<Recognizer>, s: string, line: int)
    requires AllPlain(tries)
    ensures Plain(FirstOf(tries, s, line), s, line)
    ensures FirstOf(tries, s, line).Some? <==> exists i :: 0 <= i < |tries| && tries[i](s, line).Some?
    decreases |tries|
  {
    if tries != [] {
      var tail := tries[1..];
      assert PlainRecognizer(tries[0]);
      assert Plain(tries[0](s, line), s, line);
      assert AllPlain(tail) by {
        forall i | 0 <= i < |tail|
          ensures PlainRecognizer(tail[i])
        {
          assert tail[i] == tries[i + 1];
        }
      }
      FirstOfPlain(tail, s, line);
      if FirstOf(tail, s, line).Some? {
        var i :| 0 <= i < |tail| && tail[i](s, line).Some?;
        assert tries[i + 1] == tail[i];
      }
      if exists i :: 0 <= i < |tries| && tries[i](s, line).Some? {
        var i :| 0 <= i < |tries| && tries[i](s, line).Some?;
        if i > 0 {
          assert tail[i - 1] == tries[i];
        }
      }
    }
  }

  /** A chain of two chains tries the whole first one before the second. */
  lemma {:induction false} FirstOfAppend(a: seq<Recognizer>, b: seq<Recognizer>, s: string, line: int)
    ensures FirstOf(a + b, s, line) == FirstOf(a, s, line).OrElse(FirstOf(b, s, line))
    decreases |a|
  {
    if a == [] {
      assert a + b == b;
    } else {
      assert (a + b)[0] == a[0] && (a + b)[1..] == a[1..] + b;
      FirstOfAppend(a[1..], b, s, line);
      var x, y, z := a[0](s, line), FirstOf(a[1..], s, line), FirstOf(b, s, line);
      assert FirstOf(a + b, s, line) == x.OrElse(y.OrElse(z));
      assert FirstOf(a, s, line) == x.OrElse(y);
      assert x.OrElse(y.OrElse(z)) == x.OrElse(y).OrElse(z);
    }
  }

  /** A chain of five recognizers, written out. */
  lemma FirstOfFive(t: seq<Recognizer>, s: string, line: int)
    requires |t| == 5
    ensures FirstOf(t, s, line)
      == t[0](s, line).OrElse(t[1](s, line).OrElse(t[2](s, line).OrElse(t[3](s, line).OrElse(t[4](s, line)))))
  {
    assert t[4..][1..] == [];
    assert FirstOf(t[4..], s, line) == t[4](s, line);
    assert t[3..][1..] == t[4..];
    assert FirstOf(t[3..], s, line) == t[3](s, line).OrElse(FirstOf(t[4..], s, line));
    assert t[2..][1..] == t[3..];
    assert FirstOf(t[2..], s, line) == t[2](s, line).OrElse(FirstOf(t[3..], s, line));
    assert t[1..][1..] == t[2..];
    assert FirstOf(t[1..], s, line) == t[1](s, line).OrElse(FirstOf(t[2..], s, line));
  }

  /** A chain of six recognizers, written out. */
  lemma FirstOfSix(t: seq<Recognizer>, s: string, line: int)
    requires |t| == 6
    ensures FirstOf(t, s, line)
      == t[0](s, line).OrElse(t[1](s, line).OrElse(t[2](s, line).OrElse(t[3](s, line).OrElse(t[4](s, line).OrElse(t[5](s, line))))))
  {
    FirstOfFive(t[1..], s, line);
  }

  /** Joining chains whose recognizers answer with plain tokens. */
  lemma AllPlainAppend(a: seq<Recognizer>, b: seq<Recognizer>)
    requires AllPlain(a) && AllPlain(b)
    ensures AllPlain(a + b)
  {
    forall i | 0 <= i < |a + b|
      ensures PlainRecognizer((a + b)[i])
    {
      if i < |a| {
        assert (a + b)[i] == a[i];
      } else {
        assert (a + b)[i] == b[i - |a|];
      }
    }
  }

  // The recognizers tried before the block comment, in the order of the
  // chain, taken five at a time.

  const WordChain: seq<Recognizer> := [ParseHashMap, KeywordMatch, ParseBorrow, ParseOwn, ParseNamespaceSeparator]
  const TypeChain: seq<Recognizer> := [OperatorMatch, TypeMatch, ParseAs, ParseNotOperator, ParseDerive]
  const CompoundChain: seq<Recognizer> := [ParseTypeWithGenerics, ParseMacro, ParseString, ParseArray, ParseTuple]
  const PunctuationChain: seq<Recognizer> := [ParseIdentifier, ParseLineComment, ParseOpenParens, ParseCloseParens, ParseDot, ParseComma]
  const EarlyChain: seq<Recognizer> := WordChain + TypeChain + CompoundChain + PunctuationChain

  lemma WordChainPlain()
    ensures AllPlain(WordChain)
  {
    assert PlainRecognizer(ParseHashMap);
    assert PlainRecognizer(KeywordMatch);
    assert PlainRecognizer(ParseBorrow);
    assert PlainRecognizer(ParseOwn);
    assert PlainRecognizer(ParseNamespaceSeparator);
  }

  lemma TypeTablesPlain()
    ensures PlainRecognizer(OperatorMatch) && PlainRecognizer(TypeMatch)
  {
  }

  lemma TypeChainPlain()
    ensures AllPlain(TypeChain)
  {
    TypeTablesPlain();
    assert PlainRecognizer(ParseAs);
    assert PlainRecognizer(ParseNotOperator);
    assert PlainRecognizer(ParseDerive);
  }

  lemma GenericsAndMacroPlain()
    ensures PlainRecognizer(ParseTypeWithGenerics) && PlainRecognizer(ParseMacro)
  {
  }

  lemma CollectionsPlain()
    ensures PlainRecognizer(ParseArray) && PlainRecognizer(ParseTuple)
  {
  }

  lemma CompoundChainPlain()
    ensures AllPlain(CompoundChain)
  {
    GenericsAndMacroPlain();
    assert PlainRecognizer(ParseString);
    CollectionsPlain();
  }

  lemma PunctuationChainPlain()
    ensures AllPlain(PunctuationChain)
  {
    assert PlainRecognizer(ParseIdentifier);
    assert PlainRecognizer(ParseLineComment);
    assert PlainRecognizer(ParseOpenParens);
    assert PlainRecognizer(ParseCloseParens);
    assert PlainRecognizer(ParseDot);
    assert PlainRecognizer(ParseComma);
  }

  lemma EarlyChainPlain()
    ensures AllPlain(EarlyChain)
  {
    WordChainPlain();
    TypeChainPlain();
    CompoundChainPlain();
    PunctuationChainPlain();
    AllPlainAppend(WordChain, TypeChain);
    AllPlainAppend(WordChain + TypeChain, CompoundChain);
    AllPlainAppend(WordChain + TypeChain + CompoundChain, PunctuationChain);
  }

  /** The tries before the block comment, in order; the first that answers wins. */
  function EarlyToken(s: string, line: int): (r: Option<Scanned>)
    ensures Plain(r, s, line)
  {
    EarlyChainPlain();
    FirstOfPlain(EarlyChain, s, line);
    FirstOf(EarlyChain, s, line)
  }

  /**
   * A step that splits the input into a non-empty token text and a rest,
   * stamps the token with the current line, and moves the line counter by
   * what the token spans.
   */
  ghost predicate StepOk(r: Option<Step>, s: string, line: int) {
    r.Some? ==>
      && SplitsAs(Some(r.value.scanned), s, r.value.scanned.token.kind, line)
      && r.value.nextLine == line + LineAdvance(r.value.scanned.token.kind, r.value.scanned.matched)
  }

  /**
   * One turn of `complete_parse`'s loop: the first recognizer of the chain
   * that matches, and the line counter as the loop leaves it.
   */
  function NextToken(s: string, line: int): (r: Option<Step>)
    ensures StepOk(r, s, line)
  {
    var early := EarlyToken(s, line);
    if early.Some? then
      assert LineAdvance(early.value.token.kind, early.value.matched) == 0;
      Some(Step(early.value, line))
    else LateToken(s, line)
  }

  /** The last three recognizers of the chain, with their effect on the line counter. */
  function LateToken(s: string, line: int): (r: Option<Step>)
    ensures StepOk(r, s, line)
  {
    var comment := ParseBlockComment(s, line);
    if comment.Some? then
      Some(Step(comment.value, line + CountNewlines(comment.value.matched)))
    else
      var blank := ParseWhitespace(s, line);
      if blank.Some? then Some(Step(blank.value, line))
      else
        var feed := ParseNewline(s, line);
        if feed.Some? then Some(Step(feed.value, line + 1)) else None
  }

  /** The nodes the tokenizer produced and whether it consumed the whole input. */
  datatype Lexed = Lexed(nodes: seq<Node>, complete: bool)

  /** The node `complete_parse` appends for a token: childless, holding the matched text. */
  function Leaf(t: Scanned): Node {
    Node(t.token, [], Some(t.matched))
  }

  /** The text a node was recognized from. */
  function SourceOf(n: Node): string {
    match n.data
    case Some(d) => d
    case None => ""
  }

  /** The text a sequence of nodes was recognized from, in order. */
  function SourceOfAll(nodes: seq<Node>): string {
    if nodes == [] then "" else SourceOf(nodes[0]) + SourceOfAll(nodes[1..])
  }

  /** `step` behaves as one turn of the loop must, on every input. */
  ghost predicate Tokenizer(step: (string, int) -> Option<Step>) {
    forall s, line :: StepOk(step(s, line), s, line)
  }

  /**
   * The loop of `complete_parse` run with the turn `step`: one leaf per token
   * until the input is used up (`complete`) or `step` finds nothing (the
   * leaves pushed so far stay).
   */
  function LexWith(step: (string, int) -> Option<Step>, s: string, line: int): (r: Lexed)
    requires Tokenizer(step)
    ensures forall i :: 0 <= i < |r.nodes| ==>
      r.nodes[i].children == [] && r.nodes[i].data.Some? && r.nodes[i].data.value != []
    ensures r.complete ==> r.nodes != []
    decreases |s|
  {
    var next := step(s, line);
    assert StepOk(next, s, line);
    match next
    case None => Lexed([], false)
    case Some(st) =>
      if st.scanned.rest == [] then Lexed([Leaf(st.scanned)], true)
      else
        var tail := LexWith(step, st.scanned.rest, st.nextLine);
        Lexed([Leaf(st.scanned)] + tail.nodes, tail.complete)
  }

  /** The chain of recognizers is a proper turn of the loop. */
  lemma NextTokenIsTokenizer()
    ensures Tokenizer(NextToken)
  {
    forall s, line
      ensures StepOk(NextToken(s, line), s, line)
    {
      assert StepOk(NextToken(s, line), s, line);
    }
  }

  /** What `complete_parse` appends to the tree when started on `s` with line counter `line`. */
  function Lex(s: string, line: int): (r: Lexed)
    ensures forall i :: 0 <= i < |r.nodes| ==>
      r.nodes[i].children == [] && r.nodes[i].data.Some? && r.nodes[i].data.value != []
    ensures SourceOfAll(r.nodes) <= s
    ensures r.complete <==> s != [] && SourceOfAll(r.nodes) == s
  {
    NextTokenIsTokenizer();
    LexCoversPrefix(NextToken, s, line);
    LexWith(NextToken, s, line)
  }

  /** Moving the leaf just pushed from the pending part to the tree's part. */
  lemma PushLeaf(whole: seq<Node>, before: seq<Node>, leaf: Node, tail: seq<Node>)
    requires whole == before + ([leaf] + tail)
    ensures whole == (before + [leaf]) + tail
  {
  }

  /** One turn of the loop, then the rest of the loop on what is left. */
  lemma LexUnfold(s: string, line: int)
    ensures NextToken(s, line).None? ==> Lex(s, line) == Lexed([], false)
    ensures NextToken(s, line).Some? ==>
      var st := NextToken(s, line).value;
      Lex(s, line) == if st.scanned.rest == [] then Lexed([Leaf(st.scanned)], true)
        else Lexed([Leaf(st.scanned)] + Lex(st.scanned.rest, st.nextLine).nodes, Lex(st.scanned.rest, st.nextLine).complete)
  {
    NextTokenIsTokenizer();
  }

  /**
   * The leaves' texts, read in order, are a prefix of the input; they are the
   * whole input exactly when the loop succeeds, which on an empty input it
   * never does.
   */
  lemma {:induction false} LexCoversPrefix(step: (string, int) -> Option<Step>, s: string, line: int)
    requires Tokenizer(step)
    ensures SourceOfAll(LexWith(step, s, line).nodes) <= s
    ensures LexWith(step, s, line).complete <==> s != [] && SourceOfAll(LexWith(step, s, line).nodes) == s
    decreases |s|
  {
    var next := step(s, line);
    assert StepOk(next, s, line);
    match next
    case None =>
    case Some(st) =>
      var t := st.scanned;
      if t.rest == [] {
        assert SourceOfAll([Leaf(t)]) == t.matched + SourceOfAll([]);
      } else {
        var tail := LexWith(step, t.rest, st.nextLine);
        LexCoversPrefix(step, t.rest, st.nextLine);
        var nodes := [Leaf(t)] + tail.nodes;
        assert nodes[1..] == tail.nodes;
        assert SourceOfAll(nodes) == t.matched + SourceOfAll(tail.nodes);
      }
  }

  /**
   * Each leaf carries the line counter as it stood when its token was
   * recognized: the first one the starting line, and each next one the line
   * of the one before moved on by what that one spans.
   */
  lemma {:induction false} LexLineStamps(step: (string, int) -> Option<Step>, s: string, line: int)
    requires Tokenizer(step)
    ensures LexWith(step, s, line).nodes != [] ==> LexWith(step, s, line).nodes[0].token.span.line == line
    ensures forall i :: 0 < i < |LexWith(step, s, line).nodes| ==>
      var prev := LexWith(step, s, line).nodes[i - 1];
      LexWith(step, s, line).nodes[i].token.span.line
        == prev.token.span.line + LineAdvance(prev.token.kind, prev.data.value)
    decreases |s|
  {
    var next := step(s, line);
    assert StepOk(next, s, line);
    match next
    case None =>
    case Some(st) =>
      var t := st.scanned;
      if t.rest != [] {
        var tail := LexWith(step, t.rest, st.nextLine);
        LexLineStamps(step, t.rest, st.nextLine);
        var nodes := [Leaf(t)] + tail.nodes;
        forall i | 0 < i < |nodes|
          ensures nodes[i].token.span.line
            == nodes[i - 1].token.span.line + LineAdvance(nodes[i - 1].token.kind, nodes[i - 1].data.value)
        {
          if i > 1 {
            assert nodes[i] == tail.nodes[i - 1] && nodes[i - 1] == tail.nodes[i - 2];
          }
        }
      }
  }

  /** The tries before the block comment, taken group by group. */
  lemma EarlyTokenByGroups(s: string, line: int)
    ensures EarlyToken(s, line)
      == FirstOf(WordChain, s, line)
           .OrElse(FirstOf(TypeChain, s, line))
           .OrElse(FirstOf(CompoundChain, s, line))
           .OrElse(FirstOf(PunctuationChain, s, line))
  {
    FirstOfAppend(WordChain, TypeChain, s, line);
    FirstOfAppend(WordChain + TypeChain, CompoundChain, s, line);
    FirstOfAppend(WordChain + TypeChain + CompoundChain, PunctuationChain, s, line);
  }

  /**
   * A keyword of `parse_to_token`'s table is taken before any recognizer
   * further down the chain is tried. Only `parse_hash_map`, tried first, can
   * take the text instead, and only when it starts with `=`.
   */
  lemma KeywordsComeFirst(s: string, line: int)
    requires KeywordMatch(s, line).Some?
    ensures EarlyToken(s, line) == ParseHashMap(s, line).OrElse(KeywordMatch(s, line))
    ensures !("=" <= s) ==> EarlyToken(s, line) == KeywordMatch(s, line)
  {
    EarlyTokenByGroups(s, line);
    FirstOfFive(WordChain, s, line);
  }

  /**
   * `parse_own` never decides: whenever it would match, the `own` row of
   * `parse_to_token`'s table, tried before it, already has, taking the word
   * without the whitespace after it.
   */
  lemma OwnRecognizerShadowed(s: string, line: int)
    requires ParseOwn(s, line).Some?
    ensures EarlyToken(s, line) == Some(Scanned(Stamp(Keyword(Own), line, false), "own", s[3..]))
    ensures EarlyToken(s, line) != ParseOwn(s, line)
  {
    assert s[..3] == "own";
    OwnIsAKeyword(s, line);
    KeywordsComeFirst(s, line);
  }

  /**
   * `not equal` is one `NotEqual` token, although `parse_not_operator`, tried
   * later, would take its first word.
   */
  lemma NotEqualBeforeNot(s: string, line: int)
    requires StartsWord(s, "not equal")
    ensures ParseNotOperator(s, line).Some?
    ensures EarlyToken(s, line) == Some(Scanned(Stamp(NotEqual, line, false), "not equal", s[9..]))
  {
    NotWordOpensNotEqual(s, line);
    NotEqualIsOneToken(s, line);
    KeywordsComeFirst(s, line);
  }

  lemma NotWordOpensNotEqual(s: string, line: int)
    requires StartsWord(s, "not equal")
    ensures ParseNotOperator(s, line).Some?
  {
    assert s[..3] == "not" && s[3] == ' ';
  }

  /** The first five tries of the chain, the keyword table searched by its loop. */
  method TryWordTokens(s: string, line: int) returns (r: Option<Scanned>)
    ensures r == FirstOf(WordChain, s, line)
  {
    r := ParseHashMap(s, line);
    if r.None? {
      r := ParseToToken(s, line);
    }
    if r.None? {
      r := ParseBorrow(s, line);
    }
    if r.None? {
      r := ParseOwn(s, line);
    }
    if r.None? {
      r := ParseNamespaceSeparator(s, line);
    }
    FirstOfFive(WordChain, s, line);
  }

  /** The next five tries, the operator and type tables searched by their loops. */
  method TryTypeTokens(s: string, line: int) returns (r: Option<Scanned>)
    ensures r == FirstOf(TypeChain, s, line)
  {
    r := ParseOperator(s, line);
    if r.None? {
      r := ParseType(s, line);
    }
    if r.None? {
      r := ParseAs(s, line);
    }
    if r.None? {
      r := ParseNotOperator(s, line);
    }
    if r.None? {
      r := ParseDerive(s, line);
    }
    FirstOfFive(TypeChain, s, line);
  }

  /** The tries of tokens that enclose other text. */
  method TryCompoundTokens(s: string, line: int) returns (r: Option<Scanned>)
    ensures r == FirstOf(CompoundChain, s, line)
  {
    r := ParseTypeWithGenerics(s, line);
    if r.None? {
      r := ParseMacro(s, line);
    }
    if r.None? {
      r := ParseString(s, line);
    }
    if r.None? {
      r := ParseArray(s, line);
    }
    if r.None? {
      r := ParseTuple(s, line);
    }
    FirstOfFive(CompoundChain, s, line);
  }

  /** The identifier, the line comment and the punctuation. */
  method TryPunctuationTokens(s: string, line: int) returns (r: Option<Scanned>)
    ensures r == FirstOf(PunctuationChain, s, line)
  {
    r := ParseIdentifier(s, line);
    if r.None? {
      r := ParseLineComment(s, line);
    }
    if r.None? {
      r := ParseOpenParens(s, line);
    }
    if r.None? {
      r := ParseCloseParens(s, line);
    }
    if r.None? {
      r := ParseDot(s, line);
    }
    if r.None? {
      r := ParseComma(s, line);
    }
    FirstOfSix(PunctuationChain, s, line);
  }

  /** The tries before the block comment. */
  method TryEarlyTokens(s: string, line: int) returns (r: Option<Scanned>)
    ensures r == EarlyToken(s, line)
  {
    r := TryWordTokens(s, line);
    if r.None? {
      r := TryTypeTokens(s, line);
    }
    if r.None? {
      r := TryCompoundTokens(s, line);
    }
    if r.None? {
      r := TryPunctuationTokens(s, line);
    }
    EarlyTokenByGroups(s, line);
  }

  /**
   * The last three tries: the block comment moves the line counter by its
   * line feeds, and the counter moves by one before the line feed is tried,
   * whether that one matches or not.
   */
  method TryLateTokens(s: string, line: int) returns (r: Option<Scanned>, nextLine: int)
    ensures r.Some? <==> LateToken(s, line).Some?
    ensures r.Some? ==> LateToken(s, line) == Some(Step(r.value, nextLine))
  {
    nextLine := line;
    r := ParseBlockComment(s, line);
    if r.Some? {
      nextLine := nextLine + CountNewlines(r.value.matched);
    }
    if r.None? {
      r := ParseWhitespace(s, line);
    }
    if r.None? {
      r := ParseNewline(s, line);
      nextLine := nextLine + 1;
    }
  }

  /**
   * One turn of the loop of `complete_parse`: the tries in order until one
   * matches, and the line counter as the turn leaves it.
   */
  method Turn(s: string, line: int) returns (r: Option<Scanned>, nextLine: int)
    ensures r.Some? <==> NextToken(s, line).Some?
    ensures r.Some? ==> NextToken(s, line) == Some(Step(r.value, nextLine))
  {
    r := TryEarlyTokens(s, line);
    nextLine := line;
    if r.None? {
      r, nextLine := TryLateTokens(s, line);
    }
  }

  /** The error `complete_parse` returns: a fixed message followed by the whole input. */
  function NotRecognized(syntax: string): (message: string)
    ensures |message| == 22 + |syntax|
    ensures message[..22] == "pattern not recognize " && message[22..] == syntax
  {
    "pattern not recognize " + syntax
  }

  /**
   * `complete_parse(syntax, tree, line_number)`: appends the leaves of the
   * tokens of `syntax` to `tree`'s children, and answers `Ok(true)` when the
   * whole text was recognized or an error quoting the whole text otherwise. The
   * `&mut Node` of the source is the pair of `tree` in and `tree'` out.
   */
  method CompleteParse(syntax: string, tree: Node, lineNumber: int) returns (outcome: Result<bool, string>, tree': Node)
    ensures tree'.token == tree.token && tree'.data == tree.data
    ensures tree'.children == tree.children + Lex(syntax, lineNumber).nodes
    ensures outcome == if Lex(syntax, lineNumber).complete then Ok(true) else Err(NotRecognized(syntax))
  {
    var fullCode := syntax;
    var newLineNumber := lineNumber;
    tree' := tree;
    while true
      invariant tree'.token == tree.token && tree'.data == tree.data
      invariant tree.children + Lex(syntax, lineNumber).nodes == tree'.children + Lex(fullCode, newLineNumber).nodes
      invariant Lex(syntax, lineNumber).complete == Lex(fullCode, newLineNumber).complete
      decreases |fullCode|
    {
      ghost var code0, line0 := fullCode, newLineNumber;
      var result;
      result, newLineNumber := Turn(fullCode, newLineNumber);
      LexUnfold(code0, line0);
      match result
      case Some(t) =>
        ghost var before := tree'.children;
        tree' := tree'.(children := tree'.children + [Leaf(t)]);
        fullCode := t.rest;
        if fullCode == "" {
          assert Lex(code0, line0) == Lexed([Leaf(t)], true);
          assert tree.children + Lex(syntax, lineNumber).nodes == tree'.children;
          outcome := Ok(true);
          return;
        }
        ghost var tail := Lex(fullCode, newLineNumber);
        assert Lex(code0, line0) == Lexed([Leaf(t)] + tail.nodes, tail.complete);
        PushLeaf(tree.children + Lex(syntax, lineNumber).nodes, before, Leaf(t), tail.nodes);
      case None =>
        outcome := Err(NotRecognized(syntax));
        return;
    }
  }
}
