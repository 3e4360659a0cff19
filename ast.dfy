/** The syntax tree (ast.rs). */
module Ast {
  import opened Wrappers
  import opened Tokens

  /**
   * A tree node: its token, its children in source order, and the source text
   * the token was recognized from (`None` for a synthetic node such as the root).
   */
  datatype Node = Node(token: Token, children: seq<Node>, data: Option<string>)
}
