/**
 * The marks that open and close a block (block_keyword.rs): a block opened
 * by `do` is closed by the keyword `end`, a block opened by `(` by `)`.
 * Both tests are asked with the mark that OPENED the block; the other marks
 * are declared but neither test accepts them.
 */
module BlockKeyword {
  import opened Wrappers
  import opened Keywords
  import opened Tokens
  import opened Text
  import opened Recognizers
  import opened Tables

  const DoMark: string := "do"
  const EndMark: string := "end"
  const OpenParenMark: string := "("
  const CloseParenMark: string := ")"
  const OpenBracketMark: string := "["
  const CloseBracketMark: string := "]"
  const OpenBraceMark: string := "{"
  const CloseBraceMark: string := "}"

  /** `match_block_begin`: `kind` opens a block begun with `beginMark`. */
  predicate MatchBlockBegin(kind: TokenKind, beginMark: string): (b: bool)
    ensures b ==> beginMark == DoMark || beginMark == OpenParenMark
    ensures b ==> kind == if beginMark == DoMark then Keyword(Do) else OpenParen
  {
    (kind == Keyword(Do) && beginMark == DoMark) || (kind == OpenParen && beginMark == OpenParenMark)
  }

  /** `match_block_end`: `kind` closes a block begun with `beginMark`. */
  predicate MatchBlockEnd(kind: TokenKind, beginMark: string): (b: bool)
    ensures b ==> beginMark == DoMark || beginMark == OpenParenMark
    ensures b ==> kind == if beginMark == DoMark then Keyword(End) else CloseParen
  {
    (kind == Keyword(End) && beginMark == DoMark) || (kind == CloseParen && beginMark == OpenParenMark)
  }

  /** The marks the tests know: `do` and `(`; every other mark, `end` among them, is refused. */
  lemma OnlyDoAndParenAreMarks(kind: TokenKind, mark: string)
    requires mark != DoMark && mark != OpenParenMark
    ensures !MatchBlockBegin(kind, mark) && !MatchBlockEnd(kind, mark)
  {
  }

  /** Each mark has one token kind that opens its block. */
  lemma OneOpener(mark: string, k1: TokenKind, k2: TokenKind)
    requires MatchBlockBegin(k1, mark) && MatchBlockBegin(k2, mark)
    ensures k1 == k2
  {
    if mark == DoMark {
      assert mark != OpenParenMark;
      assert k1 == Keyword(Do) && k2 == Keyword(Do);
    } else {
      assert k1 == OpenParen && k2 == OpenParen;
    }
  }

  /** Each mark has one token kind that closes its block. */
  lemma OneCloser(mark: string, k1: TokenKind, k2: TokenKind)
    requires MatchBlockEnd(k1, mark) && MatchBlockEnd(k2, mark)
    ensures k1 == k2
  {
    if mark == DoMark {
      assert mark != OpenParenMark;
      assert k1 == Keyword(End) && k2 == Keyword(End);
    } else {
      assert k1 == CloseParen && k2 == CloseParen;
    }
  }

  /** No token both opens and closes a block of the same mark. */
  lemma OpenerIsNotCloser(mark: string, kind: TokenKind)
    requires MatchBlockBegin(kind, mark)
    ensures !MatchBlockEnd(kind, mark)
  {
    if mark == DoMark {
      assert mark != OpenParenMark;
      assert kind == Keyword(Do);
    } else {
      assert kind == OpenParen;
    }
  }

  /** The opener and closer of each known mark. */
  lemma MarkPairs()
    ensures MatchBlockBegin(Keyword(Do), DoMark) && MatchBlockEnd(Keyword(End), DoMark)
    ensures MatchBlockBegin(OpenParen, OpenParenMark) && MatchBlockEnd(CloseParen, OpenParenMark)
  {
  }

  lemma DoTry(s: string, line: int)
    requires StartsWord(s, "do")
    ensures forall i :: 0 <= i < 2 ==> DeclarationKeywords[i].text[0] != s[0]
    ensures Try(FollowedBySpace, DeclarationKeywords[2], s, line)
      == Some(Scanned(Stamp(Keyword(Do), line, false), "do", s[2..]))
  {
    assert forall i :: 0 <= i < 2 ==> DeclarationKeywords[i].text[0] != s[0];
    assert DeclarationKeywords[2] == Entry("do", Keyword(Do));
    TryWord(DeclarationKeywords[2], s, line);
  }

  lemma DoRow(s: string, line: int)
    requires StartsWord(s, "do")
    ensures WellFormed(DeclarationKeywords)
    ensures FirstHit(DeclarationKeywords, FollowedBySpace, s, line)
      == Some(Scanned(Stamp(Keyword(Do), line, false), "do", s[2..]))
  {
    assert WellFormed(DeclarationKeywords);
    DoTry(s, line);
    FirstHitAt(DeclarationKeywords, 2, FollowedBySpace, s, line);
  }

  lemma EndTry(s: string, line: int)
    requires StartsWord(s, "end")
    ensures forall i :: 0 <= i < 3 ==> DeclarationKeywords[i].text[0] != s[0]
    ensures Try(FollowedBySpace, DeclarationKeywords[3], s, line)
      == Some(Scanned(Stamp(Keyword(End), line, false), "end", s[3..]))
  {
    assert forall i :: 0 <= i < 3 ==> DeclarationKeywords[i].text[0] != s[0];
    assert DeclarationKeywords[3] == Entry("end", Keyword(End));
    TryWord(DeclarationKeywords[3], s, line);
  }

  lemma EndRow(s: string, line: int)
    requires StartsWord(s, "end")
    ensures WellFormed(DeclarationKeywords)
    ensures FirstHit(DeclarationKeywords, FollowedBySpace, s, line)
      == Some(Scanned(Stamp(Keyword(End), line, false), "end", s[3..]))
  {
    assert WellFormed(DeclarationKeywords);
    EndTry(s, line);
    FirstHitAt(DeclarationKeywords, 3, FollowedBySpace, s, line);
  }

  /** The word `do`, whitespace after it, is a token that opens a `do` block. */
  lemma DoOpensBlock(s: string, line: int)
    requires StartsWord(s, DoMark)
    ensures KeywordMatch(s, line).Some? && MatchBlockBegin(KeywordMatch(s, line).value.token.kind, DoMark)
  {
    KeywordMatchPieces(s, line);
    DoRow(s, line);
  }

  /** The word `end`, whitespace after it, is a token that closes a `do` block. */
  lemma EndClosesBlock(s: string, line: int)
    requires StartsWord(s, EndMark)
    ensures KeywordMatch(s, line).Some? && MatchBlockEnd(KeywordMatch(s, line).value.token.kind, DoMark)
  {
    KeywordMatchPieces(s, line);
    EndRow(s, line);
  }

  /** `parse_open_parens` and `parse_close_parens` give the tokens that open and close a `(` block. */
  lemma ParensMarkBlocks(s: string, line: int)
    ensures ParseOpenParens(s, line).Some? ==> MatchBlockBegin(ParseOpenParens(s, line).value.token.kind, OpenParenMark)
    ensures ParseCloseParens(s, line).Some? ==> MatchBlockEnd(ParseCloseParens(s, line).value.token.kind, OpenParenMark)
  {
  }
}
