/**
 * The token model (token.rs): token kinds, source positions, tokens, and the
 * comparisons their derived `PartialEq`/`Ord` implementations provide.
 */
module Tokens {
  import opened Compare
  import opened Keywords
  import Lexemes

  /** Type names a `Literal` token stands for; token.rs order, then Boolean, which parser.rs also names. */
  datatype LiteralKind = Int32 | Int64 | UInt32 | UInt64 | Float64 | Float32 | Usize | Isize | Char | Byte | String | Boolean

  const AllLiteralKinds: seq<LiteralKind> := [
      LiteralKind.Int32, LiteralKind.Int64, LiteralKind.UInt32, LiteralKind.UInt64, LiteralKind.Float64, LiteralKind.Float32, LiteralKind.Usize, LiteralKind.Isize, LiteralKind.Char, LiteralKind.Byte, LiteralKind.String, LiteralKind.Boolean
    ]

  function LiteralKindRank(k: LiteralKind): (r: nat)
    ensures r < |AllLiteralKinds| && AllLiteralKinds[r] == k
  {
    match k
    case Int32 => 0
    case Int64 => 1
    case UInt32 => 2
    case UInt64 => 3
    case Float64 => 4
    case Float32 => 5
    case Usize => 6
    case Isize => 7
    case Char => 8
    case Byte => 9
    case String => 10
    case Boolean => 11
  }

  /** Derived `Ord` on `LiteralKind`: declaration order. */
  function CmpLiteralKind(a: LiteralKind, b: LiteralKind): Ordering {
    CmpInt(LiteralKindRank(a), LiteralKindRank(b))
  }

  /** Arithmetic operators recognized by parser.rs, in its table order. */
  datatype Operator = Add | Minus | Multiply | Divide | Mod

  const AllOperators: seq<Operator> := [Operator.Add, Operator.Minus, Operator.Multiply, Operator.Divide, Operator.Mod]

  function OperatorRank(o: Operator): (r: nat)
    ensures r < |AllOperators| && AllOperators[r] == o
  {
    match o
    case Add => 0
    case Minus => 1
    case Multiply => 2
    case Divide => 3
    case Mod => 4
  }

  /** Collection literals recognized by parser.rs. */
  datatype Collection = Array | Tuple | HashMap

  const AllCollections: seq<Collection> := [Array, Tuple, HashMap]

  function CollectionRank(c: Collection): (r: nat)
    ensures r < |AllCollections| && AllCollections[r] == c
  {
    match c
    case Array => 0
    case Tuple => 1
    case HashMap => 2
  }

  /**
   * Token kinds: the variants of token.rs in declaration order (its
   * `keyword(..)` written `Keyword(..)`, its `Literal` carrying the literal
   * type), followed by the variants the other files use.
   */
  datatype TokenKind =
    | LineComment
    | BlockComment(terminated: bool)
    | Whitespace
    | Ident
    | RawIdent
    | Literal(literal: LiteralKind)
    | Lifetime
    | Semi
    | Comma
    | DotDotDot
    | DotDotEq
    | DotDot
    | Dot
    | OpenParen
    | CloseParen
    | OpenBrace
    | CloseBrace
    | OpenBracket
    | CloseBracket
    | At
    | Pound
    | Tilde
    | Question
    | ColonColon
    | Colon
    | Dollar
    | EqEq
    | Eq
    | FatArrow
    | Ne
    | Not
    | Le
    | LArrow
    | Lt
    | ShlEq
    | Shl
    | Ge
    | Gt
    | ShrEq
    | Shr
    | RArrow
    | Minus
    | MinusEq
    | And
    | AndAnd
    | AndEq
    | Or
    | OrOr
    | OrEq
    | PlusEq
    | Plus
    | StarEq
    | Star
    | SlashEq
    | Slash
    | CaretEq
    | Caret
    | PercentEq
    | Percent
    | Keyword(keyword: Keyword)
    | Unknown
    // used by parser.rs, transpiler.rs and block_keyword.rs, absent from token.rs
    | Identifier
    | NewLine
    | Lexeme(lexeme: Lexemes.Lexeme)
    | Operator(operator: Operator)
    | Collection(collection: Collection)
    | Macro
    | TypeWithGeneric
    | Assign
    | DoubleDot
    | Equal
    | NotEqual
    | NamespaceSeparator

  /** The discriminant of `k`: its variant's position in declaration order. */
  function Rank(k: TokenKind): nat {
    match k
    case LineComment => 0
    case BlockComment(_) => 1
    case Whitespace => 2
    case Ident => 3
    case RawIdent => 4
    case Literal(_) => 5
    case Lifetime => 6
    case Semi => 7
    case Comma => 8
    case DotDotDot => 9
    case DotDotEq => 10
    case DotDot => 11
    case Dot => 12
    case OpenParen => 13
    case CloseParen => 14
    case OpenBrace => 15
    case CloseBrace => 16
    case OpenBracket => 17
    case CloseBracket => 18
    case At => 19
    case Pound => 20
    case Tilde => 21
    case Question => 22
    case ColonColon => 23
    case Colon => 24
    case Dollar => 25
    case EqEq => 26
    case Eq => 27
    case FatArrow => 28
    case Ne => 29
    case Not => 30
    case Le => 31
    case LArrow => 32
    case Lt => 33
    case ShlEq => 34
    case Shl => 35
    case Ge => 36
    case Gt => 37
    case ShrEq => 38
    case Shr => 39
    case RArrow => 40
    case Minus => 41
    case MinusEq => 42
    case And => 43
    case AndAnd => 44
    case AndEq => 45
    case Or => 46
    case OrOr => 47
    case OrEq => 48
    case PlusEq => 49
    case Plus => 50
    case StarEq => 51
    case Star => 52
    case SlashEq => 53
    case Slash => 54
    case CaretEq => 55
    case Caret => 56
    case PercentEq => 57
    case Percent => 58
    case Keyword(_) => 59
    case Unknown => 60
    case Identifier => 61
    case NewLine => 62
    case Lexeme(_) => 63
    case Operator(_) => 64
    case Collection(_) => 65
    case Macro => 66
    case TypeWithGeneric => 67
    case Assign => 68
    case DoubleDot => 69
    case Equal => 70
    case NotEqual => 71
    case NamespaceSeparator => 72
  }

  /**
   * Variant and field rank determine a kind: the discriminant comparison loses nothing.
   *
   * With 73 variants, one proof over all of them is too large for the
   * solver. `Rebuild` is therefore a binary search over the ranks, and each
   * lemma below proves the inversion for one small range of ranks, so that
   * each proof unfolds only one path of the search.
   */
  lemma RebuildInvertsRank(k: TokenKind)
    ensures Rebuild(Rank(k), Payload(k)) == k
  {
    RebuildInvertsRanks0To1(k);
    RebuildInvertsRanks1To2(k);
    RebuildInvertsRanks2To5(k);
    RebuildInvertsRanks5To6(k);
    RebuildInvertsRanks6To10(k);
    RebuildInvertsRanks10To14(k);
    RebuildInvertsRanks14To18(k);
    RebuildInvertsRanks18To22(k);
    RebuildInvertsRanks22To26(k);
    RebuildInvertsRanks26To30(k);
    RebuildInvertsRanks30To34(k);
    RebuildInvertsRanks34To38(k);
    RebuildInvertsRanks38To42(k);
    RebuildInvertsRanks42To46(k);
    RebuildInvertsRanks46To50(k);
    RebuildInvertsRanks50To54(k);
    RebuildInvertsRanks54To59(k);
    RebuildInvertsRanks59To60(k);
    RebuildInvertsRanks60To63(k);
    RebuildInvertsRanks63To64(k);
    RebuildInvertsRanks64To65(k);
    RebuildInvertsRanks65To66(k);
    RebuildInvertsRanks66To70(k);
    RebuildInvertsRanks70To73(k);
  }

  lemma RebuildInvertsRanks0To1(k: TokenKind)
    ensures 0 <= Rank(k) < 1 ==> Rebuild(Rank(k), Payload(k)) == k
  {
  }

  lemma RebuildInvertsRanks1To2(k: TokenKind)
    ensures 1 <= Rank(k) < 2 ==> Rebuild(Rank(k), Payload(k)) == k
  {
  }

  lemma RebuildInvertsRanks2To5(k: TokenKind)
    ensures 2 <= Rank(k) < 5 ==> Rebuild(Rank(k), Payload(k)) == k
  {
  }

  lemma RebuildInvertsRanks5To6(k: TokenKind)
    ensures 5 <= Rank(k) < 6 ==> Rebuild(Rank(k), Payload(k)) == k
  {
  }

  lemma RebuildInvertsRanks6To10(k: TokenKind)
    ensures 6 <= Rank(k) < 10 ==> Rebuild(Rank(k), Payload(k)) == k
  {
  }

  lemma RebuildInvertsRanks10To14(k: TokenKind)
    ensures 10 <= Rank(k) < 14 ==> Rebuild(Rank(k), Payload(k)) == k
  {
  }

  lemma RebuildInvertsRanks14To18(k: TokenKind)
    ensures 14 <= Rank(k) < 18 ==> Rebuild(Rank(k), Payload(k)) == k
  {
  }

  lemma RebuildInvertsRanks18To22(k: TokenKind)
    ensures 18 <= Rank(k) < 22 ==> Rebuild(Rank(k), Payload(k)) == k
  {
  }

  lemma RebuildInvertsRanks22To26(k: TokenKind)
    ensures 22 <= Rank(k) < 26 ==> Rebuild(Rank(k), Payload(k)) == k
  {
  }

  lemma RebuildInvertsRanks26To30(k: TokenKind)
    ensures 26 <= Rank(k) < 30 ==> Rebuild(Rank(k), Payload(k)) == k
  {
  }

  lemma RebuildInvertsRanks30To34(k: TokenKind)
    ensures 30 <= Rank(k) < 34 ==> Rebuild(Rank(k), Payload(k)) == k
  {
  }

  lemma RebuildInvertsRanks34To38(k: TokenKind)
    ensures 34 <= Rank(k) < 38 ==> Rebuild(Rank(k), Payload(k)) == k
  {
  }

  lemma RebuildInvertsRanks38To42(k: TokenKind)
    ensures 38 <= Rank(k) < 42 ==> Rebuild(Rank(k), Payload(k)) == k
  {
  }

  lemma RebuildInvertsRanks42To46(k: TokenKind)
    ensures 42 <= Rank(k) < 46 ==> Rebuild(Rank(k), Payload(k)) == k
  {
  }

  lemma RebuildInvertsRanks46To50(k: TokenKind)
    ensures 46 <= Rank(k) < 50 ==> Rebuild(Rank(k), Payload(k)) == k
  {
  }

  lemma RebuildInvertsRanks50To54(k: TokenKind)
    ensures 50 <= Rank(k) < 54 ==> Rebuild(Rank(k), Payload(k)) == k
  {
  }

  lemma RebuildInvertsRanks54To59(k: TokenKind)
    ensures 54 <= Rank(k) < 59 ==> Rebuild(Rank(k), Payload(k)) == k
  {
  }

  lemma RebuildInvertsRanks59To60(k: TokenKind)
    ensures 59 <= Rank(k) < 60 ==> Rebuild(Rank(k), Payload(k)) == k
  {
  }

  lemma RebuildInvertsRanks60To63(k: TokenKind)
    ensures 60 <= Rank(k) < 63 ==> Rebuild(Rank(k), Payload(k)) == k
  {
  }

  lemma RebuildInvertsRanks63To64(k: TokenKind)
    ensures 63 <= Rank(k) < 64 ==> Rebuild(Rank(k), Payload(k)) == k
  {
  }

  lemma RebuildInvertsRanks64To65(k: TokenKind)
    ensures 64 <= Rank(k) < 65 ==> Rebuild(Rank(k), Payload(k)) == k
  {
  }

  lemma RebuildInvertsRanks65To66(k: TokenKind)
    ensures 65 <= Rank(k) < 66 ==> Rebuild(Rank(k), Payload(k)) == k
  {
  }

  lemma RebuildInvertsRanks66To70(k: TokenKind)
    ensures 66 <= Rank(k) < 70 ==> Rebuild(Rank(k), Payload(k)) == k
  {
  }

  lemma RebuildInvertsRanks70To73(k: TokenKind)
    ensures 70 <= Rank(k) < 73 ==> Rebuild(Rank(k), Payload(k)) == k
  {
  }

  /** The rank of the variant's field, 0 for a variant without one. */
  function Payload(k: TokenKind): nat {
    match k
    case BlockComment(terminated) => if terminated then 1 else 0
    case Literal(literal) => LiteralKindRank(literal)
    case Keyword(keyword) => KeywordRank(keyword)
    case Lexeme(lexeme) => Lexemes.LexemeRank(lexeme)
    case Operator(operator) => OperatorRank(operator)
    case Collection(collection) => CollectionRank(collection)
    case _ => 0
  }

  /** The kind with the given discriminant and field rank (a search over the discriminants). */
  function Rebuild(rank: nat, payload: nat): TokenKind {
    if rank < 36 then
      if rank < 18 then
        if rank < 9 then
          if rank < 4 then
            if rank < 2 then
              if rank < 1 then
                LineComment
              else
                BlockComment(payload == 1)
            else
              if rank < 3 then
                Whitespace
              else
                Ident
          else
            if rank < 6 then
              if rank < 5 then
                RawIdent
              else
                if payload < |AllLiteralKinds| then Literal(AllLiteralKinds[payload]) else Unknown
            else
              if rank < 7 then
                Lifetime
              else
                if rank < 8 then
                  Semi
                else
                  Comma
        else
          if rank < 13 then
            if rank < 11 then
              if rank < 10 then
                DotDotDot
              else
                DotDotEq
            else
              if rank < 12 then
                DotDot
              else
                Dot
          else
            if rank < 15 then
              if rank < 14 then
                OpenParen
              else
                CloseParen
            else
              if rank < 16 then
                OpenBrace
              else
                if rank < 17 then
                  CloseBrace
                else
                  OpenBracket
      else
        if rank < 27 then
          if rank < 22 then
            if rank < 20 then
              if rank < 19 then
                CloseBracket
              else
                At
            else
              if rank < 21 then
                Pound
              else
                Tilde
          else
            if rank < 24 then
              if rank < 23 then
                Question
              else
                ColonColon
            else
              if rank < 25 then
                Colon
              else
                if rank < 26 then
                  Dollar
                else
                  EqEq
        else
          if rank < 31 then
            if rank < 29 then
              if rank < 28 then
                Eq
              else
                FatArrow
            else
              if rank < 30 then
                Ne
              else
                Not
          else
            if rank < 33 then
              if rank < 32 then
                Le
              else
                LArrow
            else
              if rank < 34 then
                Lt
              else
                if rank < 35 then
                  ShlEq
                else
                  Shl
    else
      if rank < 54 then
        if rank < 45 then
          if rank < 40 then
            if rank < 38 then
              if rank < 37 then
                Ge
              else
                Gt
            else
              if rank < 39 then
                ShrEq
              else
                Shr
          else
            if rank < 42 then
              if rank < 41 then
                RArrow
              else
                TokenKind.Minus
            else
              if rank < 43 then
                MinusEq
              else
                if rank < 44 then
                  And
                else
                  AndAnd
        else
          if rank < 49 then
            if rank < 47 then
              if rank < 46 then
                AndEq
              else
                Or
            else
              if rank < 48 then
                OrOr
              else
                OrEq
          else
            if rank < 51 then
              if rank < 50 then
                PlusEq
              else
                Plus
            else
              if rank < 52 then
                StarEq
              else
                if rank < 53 then
                  Star
                else
                  SlashEq
      else
        if rank < 63 then
          if rank < 58 then
            if rank < 56 then
              if rank < 55 then
                Slash
              else
                CaretEq
            else
              if rank < 57 then
                Caret
              else
                PercentEq
          else
            if rank < 60 then
              if rank < 59 then
                Percent
              else
                if payload < |AllKeywords| then Keyword(AllKeywords[payload]) else Unknown
            else
              if rank < 61 then
                Unknown
              else
                if rank < 62 then
                  Identifier
                else
                  NewLine
        else
          if rank < 68 then
            if rank < 65 then
              if rank < 64 then
                if payload < |Lexemes.AllLexemes| then Lexeme(Lexemes.AllLexemes[payload]) else Unknown
              else
                if payload < |AllOperators| then Operator(AllOperators[payload]) else Unknown
            else
              if rank < 66 then
                if payload < |AllCollections| then Collection(AllCollections[payload]) else Unknown
              else
                if rank < 67 then
                  Macro
                else
                  TypeWithGeneric
          else
            if rank < 70 then
              if rank < 69 then
                Assign
              else
                DoubleDot
            else
              if rank < 71 then
                TokenKind.Equal
              else
                if rank < 72 then
                  NotEqual
                else
                  NamespaceSeparator
  }

  /**
   * Derived `Ord` on `TokenKind`: by variant, then by the variant's field
   * (`terminated` for a block comment, the keyword's own order for a keyword).
   */
  function CmpKind(a: TokenKind, b: TokenKind): Ordering {
    CmpInt(Rank(a), Rank(b)).Then(CmpInt(Payload(a), Payload(b)))
  }

  /** A position in the source text. */
  datatype Span = Span(line: int, col: int)

  /**
   * A token. token.rs gives it a kind and a span; parser.rs also hands every
   * token a statement-end flag, kept here as a third field.
   */
  datatype Token = Token(kind: TokenKind, span: Span, statementEnd: bool)

  /** `Token::new(kind, line, col)` of token.rs. */
  function New(kind: TokenKind, line: int, col: int): (t: Token)
    ensures t.kind == kind && t.span.line == line && t.span.col == col
    ensures !t.statementEnd
  {
    Token(kind, Span(line, col), false)
  }

  /**
   * `Token::new(kind, line, flag)` as parser.rs calls it: the recognizers know
   * the line but compute no column, so the column is 0.
   */
  function Stamp(kind: TokenKind, line: int, statementEnd: bool): (t: Token)
    ensures t.kind == kind && t.span.line == line && t.statementEnd == statementEnd
  {
    Token(kind, Span(line, 0), statementEnd)
  }

  /** Derived `Ord` on `Span`: line, then column. */
  function CmpSpan(a: Span, b: Span): Ordering {
    CmpInt(a.line, b.line).Then(CmpInt(a.col, b.col))
  }

  /** Derived `Ord` on `Token`: kind, then span, then the flag. */
  function CmpToken(a: Token, b: Token): Ordering {
    CmpKind(a.kind, b.kind).Then(CmpSpan(a.span, b.span)).Then(CmpBool(a.statementEnd, b.statementEnd))
  }

  lemma LiteralKindOrderTotal()
    ensures IsTotalOrder(CmpLiteralKind)
  {
    forall a: LiteralKind, b: LiteralKind | CmpLiteralKind(a, b) == Ordering.Equal
      ensures a == b
    {
      assert AllLiteralKinds[LiteralKindRank(a)] == AllLiteralKinds[LiteralKindRank(b)];
    }
  }

  /** Two kinds compare `Equal` exactly when they are the same kind. */
  lemma KindEqualIffSame(a: TokenKind, b: TokenKind)
    ensures CmpKind(a, b) == Ordering.Equal <==> a == b
  {
    var ra, rb, pa, pb := Rank(a), Rank(b), Payload(a), Payload(b);
    assert CmpKind(a, b) == CmpInt(ra, rb).Then(CmpInt(pa, pb));
    if ra == rb && pa == pb {
      SameRankAndPayload(a, b);
    }
  }

  /** Discriminant and field rank together determine the kind. */
  lemma SameRankAndPayload(a: TokenKind, b: TokenKind)
    requires Rank(a) == Rank(b) && Payload(a) == Payload(b)
    ensures a == b
  {
    RebuildInvertsRank(a);
    RebuildInvertsRank(b);
  }

  lemma KindOrderTotal()
    ensures IsTotalOrder(CmpKind)
  {
    forall a: TokenKind, b: TokenKind
      ensures CmpKind(a, b) == Ordering.Equal <==> a == b
    {
      KindEqualIffSame(a, b);
    }
  }

  /** A block comment compares by its `terminated` flag, a keyword kind by the keyword's own order. */
  lemma KindFieldOrder(t: bool, u: bool, k: Keyword, l: Keyword, x: LiteralKind, y: LiteralKind)
    ensures CmpKind(BlockComment(t), BlockComment(u)) == CmpBool(t, u)
    ensures CmpKind(Keyword(k), Keyword(l)) == CmpKeyword(k, l)
    ensures CmpKind(Literal(x), Literal(y)) == CmpLiteralKind(x, y)
  {
  }

  /** Kinds of different variants compare by declaration order, whatever their fields. */
  lemma KindVariantOrder(a: TokenKind, b: TokenKind)
    requires Rank(a) < Rank(b)
    ensures CmpKind(a, b) == Less
  {
  }

  lemma SpanOrderTotal()
    ensures IsTotalOrder(CmpSpan)
  {
  }

  /** Tokens compare `Equal` exactly when kind, span and flag all agree. */
  lemma TokenEqualIffSame(a: Token, b: Token)
    ensures CmpToken(a, b) == Ordering.Equal <==> a == b
  {
    KindEqualIffSame(a.kind, b.kind);
  }

  lemma TokenOrderTotal()
    ensures IsTotalOrder(CmpToken)
  {
    forall a: Token, b: Token
      ensures CmpToken(a, b) == Ordering.Equal <==> a == b
    {
      TokenEqualIffSame(a, b);
    }
    forall a: Token, b: Token, c: Token | CmpToken(a, b) == Less && CmpToken(b, c) == Less
      ensures CmpToken(a, c) == Less
    {
      KindEqualIffSame(a.kind, b.kind);
      KindEqualIffSame(b.kind, c.kind);
      KindEqualIffSame(a.kind, c.kind);
    }
  }
}
