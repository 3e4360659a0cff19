/**
 * `transpile` of transpiler.rs: the children of a tree, in order, each
 * written as the Rust text its token stands for, followed by the
 * translation of that child's own children. The root's own token and text
 * are not written.
 *
 * The walk over the tree is stated for any mapping from a token to its text
 * (`Walk`), so that its structural facts do not depend on the arms of the
 * `match`; `Translation` is that walk with the `match` itself (`RustText`).
 */
module Transpiler {
  import opened Wrappers
  import opened Keywords
  import opened Tokens
  import opened Ast
  import opened Parser
  import opened BlockKeyword

  /** A mapping from a token's kind and text to the text written for it. */
  type Spelling = (TokenKind, string) -> string

  /** The kinds the `match` in `transpile` has an arm for. */
  const MappedKinds: set<TokenKind> := {
    Keyword(Module), Keyword(Public), Keyword(Trait), Keyword(As), Keyword(Do), Keyword(End),
    Keyword(Derive), OpenParen, CloseParen, Dot, NewLine, Keyword(Function), Whitespace, Identifier
  }

  /**
   * The `match` in `transpile`: the Rust text the token of a node holding
   * `data` is written as. Only an identifier's own text passes through; the
   * `_` arm writes nothing.
   */
  function RustText(kind: TokenKind, data: string): (r: string)
    ensures kind == Identifier ==> r == data
    ensures kind != Identifier ==> (r == "" <==> kind !in MappedKinds)
  {
    if kind == Keyword(Module) then "mod"
    else if kind == Keyword(Public) then "pub"
    else if kind == Keyword(Trait) then "trait"
    else if kind == Keyword(As) then ":"
    else if kind == Keyword(Do) then "{"
    else if kind == Keyword(End) then "}"
    else if kind == Keyword(Derive) then "derive"
    else if kind == OpenParen then "("
    else if kind == CloseParen then ")"
    else if kind == Dot then "."
    else if kind == NewLine then ";"
    else if kind == Keyword(Function) then "fn"
    else if kind == Whitespace then " "
    else if kind == Identifier then data
    else ""
  }

  /** The children of `ast`, in order, each as its own piece followed by its own walk. */
  function Walk(text: Spelling, ast: Node): string
    decreases ast, 1
  {
    WalkChildren(text, ast.children)
  }

  /** The pieces of a sequence of children, joined in order. */
  function WalkChildren(text: Spelling, children: seq<Node>): string
    decreases children
  {
    if children == [] then ""
    else Piece(text, children[0]) + Walk(text, children[0]) + WalkChildren(text, children[1..])
  }

  /** What a child contributes before its own children: its text, if it holds text at all. */
  function Piece(text: Spelling, n: Node): string {
    match n.data
    case Some(d) => text(n.token.kind, d)
    case None => ""
  }

  /** What `transpile(ast)` returns. */
  function Translation(ast: Node): string {
    Walk(RustText, ast)
  }

  /** `syntax.join("")`: the strings of `parts`, one after the other. */
  function Join(parts: seq<string>): string {
    if parts == [] then "" else Join(parts[..|parts| - 1]) + parts[|parts| - 1]
  }

  /** Walking two runs of children one after the other is walking them together. */
  lemma {:induction false} WalkAppend(text: Spelling, a: seq<Node>, b: seq<Node>)
    ensures WalkChildren(text, a + b) == WalkChildren(text, a) + WalkChildren(text, b)
    decreases a
  {
    if a == [] {
      assert a + b == b;
    } else {
      assert (a + b)[0] == a[0] && (a + b)[1..] == a[1..] + b;
      WalkAppend(text, a[1..], b);
    }
  }

  /** Pushing a string onto the parts to join puts it at the end of the joined text. */
  lemma JoinPush(parts: seq<string>, x: string)
    ensures Join(parts + [x]) == Join(parts) + x
  {
    assert (parts + [x])[..|parts|] == parts;
  }

  /** The walk of the first `i + 1` children: that of the first `i`, then child `i`'s pieces. */
  lemma WalkPush(text: Spelling, children: seq<Node>, i: nat)
    requires i < |children|
    ensures WalkChildren(text, children[..i + 1])
      == WalkChildren(text, children[..i]) + Piece(text, children[i]) + Walk(text, children[i])
  {
    var n := children[i];
    assert children[..i + 1] == children[..i] + [n];
    WalkAppend(text, children[..i], [n]);
    assert [n][1..] == [];
  }

  /** `transpile`: a loop over the children that pushes each child's pieces, then the join. */
  method Transpile(ast: Node) returns (out: string)
    ensures out == Translation(ast)
    decreases ast
  {
    var syntax: seq<string> := [];
    for i := 0 to |ast.children|
      invariant Join(syntax) == WalkChildren(RustText, ast.children[..i])
    {
      var node := ast.children[i];
      WalkPush(RustText, ast.children, i);
      if node.data.Some? {
        var piece := RustText(node.token.kind, node.data.value);
        JoinPush(syntax, piece);
        syntax := syntax + [piece];
      }
      assert Join(syntax) == WalkChildren(RustText, ast.children[..i]) + Piece(RustText, node);
      var inner := Transpile(node);
      JoinPush(syntax, inner);
      syntax := syntax + [inner];
    }
    assert ast.children[..|ast.children|] == ast.children;
    out := Join(syntax);
  }

  /**
   * No state passes between siblings: translating a node whose children are
   * `a` then `b` is translating `a`, then `b`, under the same root.
   */
  lemma SiblingsTranslateIndependently(token: Token, data: Option<string>, a: seq<Node>, b: seq<Node>)
    ensures Translation(Node(token, a + b, data))
      == Translation(Node(token, a, data)) + Translation(Node(token, b, data))
  {
    WalkAppend(RustText, a, b);
  }

  /** A child without text writes nothing of its own, but its subtree is still written. */
  lemma UntextedChildKeepsSubtree(n: Node)
    requires n.data.None?
    ensures WalkChildren(RustText, [n]) == Translation(n)
  {
    assert [n][1..] == [];
  }

  /** Only an identifier's text reaches the output; every other kind is written the same whatever its text. */
  lemma OnlyIdentifiersKeepText(kind: TokenKind, d1: string, d2: string)
    ensures kind == Identifier ==> RustText(kind, d1) == d1
    ensures kind != Identifier ==> RustText(kind, d1) == RustText(kind, d2)
  {
  }

  /**
   * The tokens that open and close a block are written as the Rust brackets
   * of the same block: `do` .. `end` as braces, `(` .. `)` as parentheses.
   */
  lemma BlocksBecomeBrackets(kind: TokenKind, mark: string, data: string)
    ensures MatchBlockBegin(kind, mark) ==> RustText(kind, data) == (if mark == DoMark then "{" else "(")
    ensures MatchBlockEnd(kind, mark) ==> RustText(kind, data) == (if mark == DoMark then "}" else ")")
  {
    if mark == DoMark {
      assert mark != OpenParenMark;
    }
  }

  /** A token the tokenizer pushes whose text passes through unchanged: an identifier, or a single space. */
  predicate Verbatim(n: Node) {
    && n.children == []
    && n.data.Some?
    && (n.token.kind == Identifier || (n.token.kind == Whitespace && n.data.value == " "))
  }

  /** A verbatim leaf is written as the text it was recognized from, and has nothing below it. */
  lemma VerbatimLeaf(n: Node)
    requires Verbatim(n)
    ensures Piece(RustText, n) == SourceOf(n) && Walk(RustText, n) == ""
  {
  }

  /** Leaves each written as the text it was recognized from are, together, written as their joint source. */
  lemma {:induction false} LeavesKeepSource(text: Spelling, nodes: seq<Node>)
    requires forall i :: 0 <= i < |nodes| ==> nodes[i].children == [] && Piece(text, nodes[i]) == SourceOf(nodes[i])
    ensures WalkChildren(text, nodes) == SourceOfAll(nodes)
    decreases nodes
  {
    if nodes != [] {
      assert nodes[0].children == [] && Piece(text, nodes[0]) == SourceOf(nodes[0]);
      assert Walk(text, nodes[0]) == WalkChildren(text, []) == "";
      LeavesKeepSource(text, nodes[1..]);
    }
  }

  /** Leaves that are identifiers and single spaces are written as the text they were recognized from. */
  lemma VerbatimLeavesKeepSource(nodes: seq<Node>)
    requires forall i :: 0 <= i < |nodes| ==> Verbatim(nodes[i])
    ensures WalkChildren(RustText, nodes) == SourceOfAll(nodes)
  {
    forall i | 0 <= i < |nodes|
      ensures nodes[i].children == [] && Piece(RustText, nodes[i]) == SourceOf(nodes[i])
    {
      VerbatimLeaf(nodes[i]);
    }
    LeavesKeepSource(RustText, nodes);
  }

  /**
   * A text the tokenizer reads whole into identifiers and single spaces is
   * written back unchanged by `transpile` of the tree it fills.
   */
  lemma WordsAndSpacesRoundTrip(syntax: string, line: int, root: Node)
    requires Lex(syntax, line).complete
    requires forall i :: 0 <= i < |Lex(syntax, line).nodes| ==> Verbatim(Lex(syntax, line).nodes[i])
    ensures Translation(Node(root.token, root.children + Lex(syntax, line).nodes, root.data))
      == Translation(root) + syntax
  {
    var nodes := Lex(syntax, line).nodes;
    VerbatimLeavesKeepSource(nodes);
    WalkAppend(RustText, root.children, nodes);
  }

  /** A leaf of any kind the `match` has no arm for is dropped, whatever text it holds. */
  lemma DroppedKinds(n: Node)
    requires n.children == [] && n.token.kind !in MappedKinds
    ensures WalkChildren(RustText, [n]) == ""
  {
    assert [n][1..] == [];
  }
}
