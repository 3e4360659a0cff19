/**
 * The three table-driven recognizers of parser.rs (`parse_to_token`,
 * `parse_type`, `parse_operator`). Each walks a fixed list of (text, token)
 * pairs in order, builds one regular expression per entry with the helper
 * `parse`, and returns the first entry that matches.
 */
module Tables {
  import opened Wrappers
  import opened Keywords
  import opened Tokens
  import opened Text
  import opened Recognizers

  /** What must follow an entry's text for the entry to match. */
  datatype Follow =
    | FollowedBySpace          // `^(text)(?s)(\s.*)$`: whitespace, which stays in the rest
    | FollowedByTypeDelimiter  // `^(text[,|>|)|\n])(?s)(.*)$`: a delimiter, which the token takes

  /** One row of a table: the literal text (regex escapes removed) and the token kind it yields. */
  datatype Entry = Entry(text: string, kind: TokenKind)

  /** The character class `[,|>|)|\n]`: the `|` inside the brackets is a member, not an alternative. */
  const TypeDelimiters: set<char> := {',', '|', '>', ')', '\n'}

  predicate Follows(follow: Follow, c: char) {
    match follow
    case FollowedBySpace => IsSpace(c)
    case FollowedByTypeDelimiter => c in TypeDelimiters
  }

  /** The `parse` helper applied to the pattern built from `text`: the two groups, if it matches. */
  function Parse(follow: Follow, text: string, s: string): (r: Option<(string, string)>)
    requires text != []
    ensures r.Some? <==> text <= s && |text| < |s| && Follows(follow, s[|text|])
    ensures r.Some? ==> r.value.0 + r.value.1 == s
    ensures r.Some? && follow == FollowedBySpace ==> r.value.0 == text
    ensures r.Some? && follow == FollowedByTypeDelimiter ==> r.value.0 == s[..|text| + 1]
  {
    if text <= s && |text| < |s| && Follows(follow, s[|text|]) then
      var e := if follow == FollowedBySpace then |text| else |text| + 1;
      assert s[..e] + s[e..] == s;
      Some((s[..e], s[e..]))
    else None
  }

  /** Every entry of a table has non-empty text. */
  predicate WellFormed(table: seq<Entry>) {
    forall i :: 0 <= i < |table| ==> table[i].text != []
  }

  /** The answer one entry gives: its token, stamped with `line`, and the two groups. */
  function Try(follow: Follow, e: Entry, s: string, line: int): (r: Option<Scanned>)
    requires e.text != []
    ensures r.Some? <==> Parse(follow, e.text, s).Some?
    ensures SplitsAs(r, s, e.kind, line)
    ensures r.Some? && follow == FollowedBySpace ==> r.value.matched == e.text && r.value.rest != [] && IsSpace(r.value.rest[0])
    ensures r.Some? && follow == FollowedByTypeDelimiter ==>
      && r.value.matched == e.text + [s[|e.text|]]
      && s[|e.text|] in TypeDelimiters
  {
    match Parse(follow, e.text, s)
    case Some((taken, rest)) =>
      assert follow == FollowedByTypeDelimiter ==> s[..|e.text| + 1] == e.text + [s[|e.text|]];
      Some(Scanned(Stamp(e.kind, line, false), taken, rest))
    case None => None
  }

  /** Entry `i` of `table` matches `s`. */
  predicate Hits(table: seq<Entry>, follow: Follow, s: string, i: int)
    requires WellFormed(table)
  {
    0 <= i < |table| && Parse(follow, table[i].text, s).Some?
  }

  /** The answer of a table search: the answer of the first entry that gives one. */
  function FirstHit(table: seq<Entry>, follow: Follow, s: string, line: int): (r: Option<Scanned>)
    requires WellFormed(table)
    ensures r.Some? ==> SplitsAs(r, s, r.value.token.kind, line)
    ensures r.Some? && follow == FollowedBySpace ==> r.value.rest != [] && IsSpace(r.value.rest[0])
    ensures r.Some? && follow == FollowedByTypeDelimiter ==>
      r.value.matched[|r.value.matched| - 1] in TypeDelimiters
    decreases |table|
  {
    if table == [] then None
    else Try(follow, table[0], s, line).OrElse(FirstHit(table[1..], follow, s, line))
  }

  /** Entry `i` is the first entry of `table` that matches `s`. */
  predicate FirstMatchAt(table: seq<Entry>, follow: Follow, s: string, i: int)
    requires WellFormed(table)
  {
    Hits(table, follow, s, i) && forall j :: 0 <= j < i ==> !Hits(table, follow, s, j)
  }

  /** Below any entry that matches there is a first one that does. */
  lemma {:induction false} LeastHit(table: seq<Entry>, follow: Follow, s: string, i: int) returns (k: int)
    requires WellFormed(table) && Hits(table, follow, s, i)
    ensures k <= i && FirstMatchAt(table, follow, s, k)
    decreases i
  {
    if j :| 0 <= j < i && Hits(table, follow, s, j) {
      k := LeastHit(table, follow, s, j);
    } else {
      k := i;
    }
  }

  /**
   * A table search answers exactly when some entry matches, and then with the
   * answer of the first entry that matches: earlier entries shadow later ones.
   */
  lemma FirstHitIsFirstMatch(table: seq<Entry>, follow: Follow, s: string, line: int)
    requires WellFormed(table)
    ensures FirstHit(table, follow, s, line).Some? <==> exists i :: Hits(table, follow, s, i)
    ensures FirstHit(table, follow, s, line).Some? ==> exists i ::
      FirstMatchAt(table, follow, s, i) && FirstHit(table, follow, s, line) == Try(follow, table[i], s, line)
  {
    if i :| Hits(table, follow, s, i) {
      var k := LeastHit(table, follow, s, i);
      FirstHitSkip(table, k, follow, s, line);
      assert table[k..][0] == table[k];
      FirstHitHead(table[k..], follow, s, line);
    } else {
      FirstHitSkip(table, |table|, follow, s, line);
      assert table[|table|..] == [];
    }
  }

  /** A table search answers with the token kind of one of the table's entries. */
  lemma FirstHitKind(table: seq<Entry>, follow: Follow, s: string, line: int)
    requires WellFormed(table)
    ensures FirstHit(table, follow, s, line).Some? ==> exists i ::
      0 <= i < |table| && FirstHit(table, follow, s, line).value.token.kind == table[i].kind
  {
    FirstHitIsFirstMatch(table, follow, s, line);
  }

  /**
   * A table search as parser.rs runs it: a loop over the entries that returns
   * at the first match.
   */
  method SearchTable(table: seq<Entry>, follow: Follow, s: string, line: int) returns (r: Option<Scanned>)
    requires WellFormed(table)
    ensures r == FirstHit(table, follow, s, line)
  {
    for i := 0 to |table|
      invariant FirstHit(table[i..], follow, s, line) == FirstHit(table, follow, s, line)
    {
      assert table[i..][1..] == table[i + 1..];
      var hit := Try(follow, table[i], s, line);
      if hit.Some? {
        return hit;
      }
    }
    return None;
  }

  /** A search of two tables one after the other is the search of their concatenation. */
  lemma {:induction false} FirstHitAppend(a: seq<Entry>, b: seq<Entry>, follow: Follow, s: string, line: int)
    requires WellFormed(a) && WellFormed(b)
    ensures WellFormed(a + b)
    ensures FirstHit(a + b, follow, s, line) == FirstHit(a, follow, s, line).OrElse(FirstHit(b, follow, s, line))
    decreases |a|
  {
    assert WellFormed(a + b) by {
      forall i | 0 <= i < |a + b|
        ensures (a + b)[i].text != []
      {
        if i < |a| {
          assert (a + b)[i] == a[i];
        } else {
          assert (a + b)[i] == b[i - |a|];
        }
      }
    }
    if a == [] {
      assert a + b == b;
    } else {
      var tail := a[1..];
      assert WellFormed(tail) by {
        forall i | 0 <= i < |tail|
          ensures tail[i].text != []
        {
          assert tail[i] == a[i + 1];
        }
      }
      assert (a + b)[0] == a[0] && (a + b)[1..] == tail + b;
      FirstHitAppend(tail, b, follow, s, line);
      var x, y, z := Try(follow, a[0], s, line), FirstHit(tail, follow, s, line), FirstHit(b, follow, s, line);
      assert FirstHit(a + b, follow, s, line) == x.OrElse(y.OrElse(z));
      assert FirstHit(a, follow, s, line) == x.OrElse(y);
      assert x.OrElse(y.OrElse(z)) == x.OrElse(y).OrElse(z);
    }
  }

  /** A table whose first entry matches answers with that entry. */
  lemma FirstHitHead(table: seq<Entry>, follow: Follow, s: string, line: int)
    requires WellFormed(table) && table != [] && Try(follow, table[0], s, line).Some?
    ensures FirstHit(table, follow, s, line) == Try(follow, table[0], s, line)
  {
  }

  /** A table none of whose entries matches gives no answer. */
  lemma FirstHitMisses(table: seq<Entry>, follow: Follow, s: string, line: int)
    requires WellFormed(table)
    requires forall i :: 0 <= i < |table| ==> !Hits(table, follow, s, i)
    ensures FirstHit(table, follow, s, line).None?
  {
    FirstHitIsFirstMatch(table, follow, s, line);
  }

  // The table of `parse_to_token`, in its order, written as four consecutive
  // pieces; `let` is listed twice.
  const DeclarationKeywords: seq<Entry> := [
    Entry("module", Keyword(Module)),
    Entry("let", Keyword(Let)),
    Entry("do", Keyword(Do)),
    Entry("end", Keyword(End)),
    Entry("trait", Keyword(Trait)),
    Entry("match", Keyword(Match)),
    Entry("enum", Keyword(Enum)),
    Entry("use", Keyword(Use)),
    Entry("extern crate", Keyword(ExternCrate)),
    Entry("struct", Keyword(Struct))
  ]
  const PublicKeywords: seq<Entry> := [
    Entry("public struct", Keyword(PublicStruct)),
    Entry("public trait", Keyword(PublicTrait)),
    Entry("public use", Keyword(PublicUse)),
    Entry("public module", Keyword(PublicModule)),
    Entry("public function", Keyword(PublicFunction)),
    Entry("public enum", Keyword(PublicEnum)),
    Entry("public", Keyword(Public))
  ]
  const ClauseKeywords: seq<Entry> := [
    Entry("implements", Keyword(Implements)),
    Entry("inherits", Keyword(Inherits)),
    Entry("if", Keyword(If)),
    Entry("then", Keyword(Then)),
    Entry("else", Keyword(Else)),
    Entry("for", Keyword(For)),
    Entry("in", Keyword(In))
  ]
  const StatementKeywords: seq<Entry> := [
    Entry("let", Keyword(Let)),
    Entry("equal", TokenKind.Equal),
    Entry("not equal", NotEqual),
    Entry("function", Keyword(Function)),
    Entry("mutable", Keyword(Mutable)),
    Entry("own", Keyword(Own)),
    Entry("return", Keyword(Return)),
    Entry("=", Assign),
    Entry(":", DoubleDot)
  ]
  const KeywordTable: seq<Entry> := DeclarationKeywords + PublicKeywords + ClauseKeywords + StatementKeywords

  /** The kinds `parse_to_token` can yield. */
  predicate IsKeywordKind(k: TokenKind) {
    k.Keyword? || k in {TokenKind.Equal, NotEqual, Assign, DoubleDot}
  }

  /** Every row of `parse_to_token`'s table has text and yields a keyword kind. */
  lemma KeywordTableRows()
    ensures WellFormed(KeywordTable)
    ensures forall i :: 0 <= i < |KeywordTable| ==> IsKeywordKind(KeywordTable[i].kind)
  {
    assert forall i :: 0 <= i < |DeclarationKeywords| ==>
      DeclarationKeywords[i].text != [] && IsKeywordKind(DeclarationKeywords[i].kind);
    assert forall i :: 0 <= i < |PublicKeywords| ==>
      PublicKeywords[i].text != [] && IsKeywordKind(PublicKeywords[i].kind);
    assert forall i :: 0 <= i < |ClauseKeywords| ==>
      ClauseKeywords[i].text != [] && IsKeywordKind(ClauseKeywords[i].kind);
    assert forall i :: 0 <= i < |StatementKeywords| ==>
      StatementKeywords[i].text != [] && IsKeywordKind(StatementKeywords[i].kind);
  }

  /** The table of `parse_type`, in its order. */
  const TypeTable: seq<Entry> := [
    Entry("Boolean", Literal(LiteralKind.Boolean)),
    Entry("String", Literal(LiteralKind.String)),
    Entry("Int32", Literal(LiteralKind.Int32)),
    Entry("Int64", Literal(LiteralKind.Int64)),
    Entry("UInt32", Literal(LiteralKind.UInt32)),
    Entry("UInt64", Literal(LiteralKind.UInt64)),
    Entry("Float64", Literal(LiteralKind.Float64)),
    Entry("Float32", Literal(LiteralKind.Float32)),
    Entry("Usize", Literal(LiteralKind.Usize)),
    Entry("Isize", Literal(LiteralKind.Isize)),
    Entry("Char", Literal(LiteralKind.Char)),
    Entry("Byte", Literal(LiteralKind.Byte))
  ]

  /** Every row of `parse_type`'s table has text and yields a literal kind. */
  lemma TypeTableRows()
    ensures WellFormed(TypeTable)
    ensures forall i :: 0 <= i < |TypeTable| ==> TypeTable[i].kind.Literal?
  {
  }

  /** The table of `parse_operator`, in its order. */
  const OperatorTable: seq<Entry> := [
    Entry("+", Operator(Add)),
    Entry("-", Operator(Operator.Minus)),
    Entry("*", Operator(Multiply)),
    Entry("/", Operator(Divide)),
    Entry("%", Operator(Mod))
  ]

  /** Every row of `parse_operator`'s table is one character and yields an operator kind. */
  lemma OperatorTableRows()
    ensures WellFormed(OperatorTable)
    ensures forall i :: 0 <= i < |OperatorTable| ==> |OperatorTable[i].text| == 1 && OperatorTable[i].kind.Operator?
  {
  }

  /**
   * What `parse_to_token` answers: a keyword or word operator that whitespace
   * follows, the whitespace left in the rest.
   */
  function KeywordMatch(s: string, line: int): (r: Option<Scanned>)
    ensures r.Some? ==> SplitsAs(r, s, r.value.token.kind, line)
    ensures r.Some? ==> r.value.rest != [] && IsSpace(r.value.rest[0])
    ensures r.Some? ==> IsKeywordKind(r.value.token.kind)
  {
    KeywordTableRows();
    FirstHitKind(KeywordTable, FollowedBySpace, s, line);
    FirstHit(KeywordTable, FollowedBySpace, s, line)
  }

  /** What `parse_type` answers: a type name and the delimiter after it, both taken. */
  function TypeMatch(s: string, line: int): (r: Option<Scanned>)
    ensures r.Some? ==> SplitsAs(r, s, r.value.token.kind, line)
    ensures r.Some? ==> r.value.matched[|r.value.matched| - 1] in TypeDelimiters
    ensures r.Some? ==> r.value.token.kind.Literal?
  {
    TypeTableRows();
    FirstHitKind(TypeTable, FollowedByTypeDelimiter, s, line);
    FirstHit(TypeTable, FollowedByTypeDelimiter, s, line)
  }

  /** What `parse_operator` answers: an arithmetic operator that whitespace follows. */
  function OperatorMatch(s: string, line: int): (r: Option<Scanned>)
    ensures r.Some? ==> SplitsAs(r, s, r.value.token.kind, line)
    ensures r.Some? ==> r.value.rest != [] && IsSpace(r.value.rest[0])
    ensures r.Some? ==> |r.value.matched| == 1 && r.value.token.kind.Operator?
  {
    OperatorTableRows();
    FirstHitKind(OperatorTable, FollowedBySpace, s, line);
    FirstHit(OperatorTable, FollowedBySpace, s, line)
  }

  /** `parse_to_token`. */
  method ParseToToken(s: string, line: int) returns (r: Option<Scanned>)
    ensures r == KeywordMatch(s, line)
  {
    KeywordTableRows();
    r := SearchTable(KeywordTable, FollowedBySpace, s, line);
  }

  /** `parse_type`. */
  method ParseType(s: string, line: int) returns (r: Option<Scanned>)
    ensures r == TypeMatch(s, line)
  {
    TypeTableRows();
    r := SearchTable(TypeTable, FollowedByTypeDelimiter, s, line);
  }

  /** `parse_operator`. */
  method ParseOperator(s: string, line: int) returns (r: Option<Scanned>)
    ensures r == OperatorMatch(s, line)
  {
    OperatorTableRows();
    r := SearchTable(OperatorTable, FollowedBySpace, s, line);
  }

  /** `parse_to_token` answers with what the first table piece to answer gives, in order. */
  lemma KeywordMatchPieces(s: string, line: int)
    ensures WellFormed(DeclarationKeywords) && WellFormed(PublicKeywords)
    ensures WellFormed(ClauseKeywords) && WellFormed(StatementKeywords)
    ensures KeywordMatch(s, line)
      == FirstHit(DeclarationKeywords, FollowedBySpace, s, line)
           .OrElse(FirstHit(PublicKeywords, FollowedBySpace, s, line))
           .OrElse(FirstHit(ClauseKeywords, FollowedBySpace, s, line))
           .OrElse(FirstHit(StatementKeywords, FollowedBySpace, s, line))
  {
    assert WellFormed(DeclarationKeywords) && WellFormed(PublicKeywords);
    assert WellFormed(ClauseKeywords) && WellFormed(StatementKeywords);
    FirstHitAppend(DeclarationKeywords, PublicKeywords, FollowedBySpace, s, line);
    FirstHitAppend(DeclarationKeywords + PublicKeywords, ClauseKeywords, FollowedBySpace, s, line);
    FirstHitAppend(DeclarationKeywords + PublicKeywords + ClauseKeywords, StatementKeywords, FollowedBySpace, s, line);
  }

  /** `s` opens with the text `w` and whitespace after it. */
  predicate StartsWord(s: string, w: string) {
    |s| > |w| && s[..|w|] == w && IsSpace(s[|w|])
  }

  /** The entries of a table from `k` on are well formed too. */
  lemma DropWellFormed(table: seq<Entry>, k: nat)
    requires WellFormed(table) && k <= |table|
    ensures WellFormed(table[k..])
  {
    forall i | 0 <= i < |table| - k
      ensures table[k..][i].text != []
    {
      assert table[k..][i] == table[k + i];
    }
  }

  /** A table whose first `k` entries miss answers as the rest of it does. */
  lemma {:induction false} FirstHitSkip(table: seq<Entry>, k: nat, follow: Follow, s: string, line: int)
    requires WellFormed(table) && k <= |table|
    requires forall i :: 0 <= i < k ==> !Hits(table, follow, s, i)
    ensures WellFormed(table[k..])
    ensures FirstHit(table, follow, s, line) == FirstHit(table[k..], follow, s, line)
    decreases k
  {
    DropWellFormed(table, k);
    if k > 0 {
      var tail := table[1..];
      DropWellFormed(table, 1);
      assert !Hits(table, follow, s, 0);
      assert FirstHit(table, follow, s, line) == FirstHit(tail, follow, s, line);
      forall i | 0 <= i < k - 1
        ensures !Hits(tail, follow, s, i)
      {
        assert tail[i] == table[i + 1];
        assert !Hits(table, follow, s, i + 1);
      }
      FirstHitSkip(tail, k - 1, follow, s, line);
      assert tail[k - 1..] == table[k..];
    }
  }

  /** An entry whose text starts with another letter than `s` does not match `s`. */
  lemma MissesByInitial(table: seq<Entry>, k: nat, follow: Follow, s: string)
    requires WellFormed(table) && s != [] && k <= |table|
    requires forall i :: 0 <= i < k ==> table[i].text[0] != s[0]
    ensures forall i :: 0 <= i < k ==> !Hits(table, follow, s, i)
  {
    forall i | 0 <= i < k
      ensures !Hits(table, follow, s, i)
    {
      assert table[i].text[0] != s[0];
    }
  }

  /**
   * A table answers with entry `k` when that entry matches and no entry
   * before it starts with the letter `s` starts with.
   */
  lemma FirstHitAt(table: seq<Entry>, k: nat, follow: Follow, s: string, line: int)
    requires WellFormed(table) && s != [] && k < |table|
    requires forall i :: 0 <= i < k ==> table[i].text[0] != s[0]
    requires Try(follow, table[k], s, line).Some?
    ensures FirstHit(table, follow, s, line) == Try(follow, table[k], s, line)
  {
    MissesByInitial(table, k, follow, s);
    FirstHitSkip(table, k, follow, s, line);
    assert table[k..][0] == table[k];
    FirstHitHead(table[k..], follow, s, line);
  }

  /** A table none of whose entries starts with the letter `s` starts with gives no answer. */
  lemma FirstHitNone(table: seq<Entry>, follow: Follow, s: string, line: int)
    requires WellFormed(table) && s != []
    requires forall i :: 0 <= i < |table| ==> table[i].text[0] != s[0]
    ensures FirstHit(table, follow, s, line).None?
  {
    MissesByInitial(table, |table|, follow, s);
    FirstHitMisses(table, follow, s, line);
  }

  /** What the entry spelled `w` answers on a text that opens with `w` and whitespace. */
  lemma TryWord(e: Entry, s: string, line: int)
    requires e.text != [] && StartsWord(s, e.text)
    ensures Try(FollowedBySpace, e, s, line) == Some(Scanned(Stamp(e.kind, line, false), e.text, s[|e.text|..]))
  {
    assert e.text <= s;
  }

  lemma DeclarationRowsMiss(s: string, line: int)
    requires s != [] && s[0] in {'p', 'o', 'n', '=', ':'}
    ensures WellFormed(DeclarationKeywords)
    ensures FirstHit(DeclarationKeywords, FollowedBySpace, s, line).None?
  {
    assert forall i :: 0 <= i < |DeclarationKeywords| ==> DeclarationKeywords[i].text[0] != s[0];
    FirstHitNone(DeclarationKeywords, FollowedBySpace, s, line);
  }

  lemma PublicRowsMiss(s: string, line: int)
    requires s != [] && s[0] in {'o', 'n', '=', ':'}
    ensures WellFormed(PublicKeywords)
    ensures FirstHit(PublicKeywords, FollowedBySpace, s, line).None?
  {
    assert forall i :: 0 <= i < |PublicKeywords| ==> PublicKeywords[i].text[0] != s[0];
    FirstHitNone(PublicKeywords, FollowedBySpace, s, line);
  }

  lemma ClauseRowsMiss(s: string, line: int)
    requires s != [] && s[0] in {'o', 'n', '=', ':'}
    ensures WellFormed(ClauseKeywords)
    ensures FirstHit(ClauseKeywords, FollowedBySpace, s, line).None?
  {
    assert forall i :: 0 <= i < |ClauseKeywords| ==> ClauseKeywords[i].text[0] != s[0];
    FirstHitNone(ClauseKeywords, FollowedBySpace, s, line);
  }

  lemma PublicStructTry(s: string, line: int)
    requires StartsWord(s, "public struct")
    ensures Try(FollowedBySpace, PublicKeywords[0], s, line)
      == Some(Scanned(Stamp(Keyword(PublicStruct), line, false), "public struct", s[13..]))
  {
    assert PublicKeywords[0] == Entry("public struct", Keyword(PublicStruct));
    TryWord(PublicKeywords[0], s, line);
  }

  lemma PublicStructRow(s: string, line: int)
    requires StartsWord(s, "public struct")
    ensures WellFormed(PublicKeywords)
    ensures FirstHit(PublicKeywords, FollowedBySpace, s, line)
      == Some(Scanned(Stamp(Keyword(PublicStruct), line, false), "public struct", s[13..]))
  {
    assert WellFormed(PublicKeywords);
    PublicStructTry(s, line);
    FirstHitHead(PublicKeywords, FollowedBySpace, s, line);
  }

  lemma NotEqualInitials(s: string)
    requires StartsWord(s, "not equal")
    ensures forall i :: 0 <= i < 2 ==> StatementKeywords[i].text[0] != s[0]
  {
    assert StatementKeywords[0].text[0] != s[0] && StatementKeywords[1].text[0] != s[0];
  }

  lemma NotEqualTry(s: string, line: int)
    requires StartsWord(s, "not equal")
    ensures Try(FollowedBySpace, StatementKeywords[2], s, line)
      == Some(Scanned(Stamp(NotEqual, line, false), "not equal", s[9..]))
  {
    assert StatementKeywords[2] == Entry("not equal", NotEqual);
    TryWord(StatementKeywords[2], s, line);
  }

  lemma NotEqualRow(s: string, line: int)
    requires StartsWord(s, "not equal")
    ensures WellFormed(StatementKeywords)
    ensures FirstHit(StatementKeywords, FollowedBySpace, s, line)
      == Some(Scanned(Stamp(NotEqual, line, false), "not equal", s[9..]))
  {
    assert WellFormed(StatementKeywords);
    NotEqualInitials(s);
    NotEqualTry(s, line);
    FirstHitAt(StatementKeywords, 2, FollowedBySpace, s, line);
  }

  lemma OwnInitials(s: string)
    requires StartsWord(s, "own")
    ensures forall i :: 0 <= i < 5 ==> StatementKeywords[i].text[0] != s[0]
  {
    assert forall i :: 0 <= i < 5 ==> StatementKeywords[i].text[0] != s[0];
  }

  lemma OwnTry(s: string, line: int)
    requires StartsWord(s, "own")
    ensures Try(FollowedBySpace, StatementKeywords[5], s, line)
      == Some(Scanned(Stamp(Keyword(Own), line, false), "own", s[3..]))
  {
    assert StatementKeywords[5] == Entry("own", Keyword(Own));
    TryWord(StatementKeywords[5], s, line);
  }

  lemma OwnRow(s: string, line: int)
    requires StartsWord(s, "own")
    ensures WellFormed(StatementKeywords)
    ensures FirstHit(StatementKeywords, FollowedBySpace, s, line)
      == Some(Scanned(Stamp(Keyword(Own), line, false), "own", s[3..]))
  {
    assert WellFormed(StatementKeywords);
    OwnInitials(s);
    OwnTry(s, line);
    FirstHitAt(StatementKeywords, 5, FollowedBySpace, s, line);
  }

  lemma LetTry(s: string, line: int)
    requires StartsWord(s, "let")
    ensures forall i :: 0 <= i < 1 ==> DeclarationKeywords[i].text[0] != s[0]
    ensures Try(FollowedBySpace, DeclarationKeywords[1], s, line)
      == Some(Scanned(Stamp(Keyword(Let), line, false), "let", s[3..]))
  {
    assert DeclarationKeywords[0].text[0] != s[0];
    assert DeclarationKeywords[1] == Entry("let", Keyword(Let));
    TryWord(DeclarationKeywords[1], s, line);
  }

  lemma LetRow(s: string, line: int)
    requires StartsWord(s, "let")
    ensures WellFormed(DeclarationKeywords)
    ensures FirstHit(DeclarationKeywords, FollowedBySpace, s, line)
      == Some(Scanned(Stamp(Keyword(Let), line, false), "let", s[3..]))
    ensures FirstHit(DeclarationKeywords, FollowedBySpace, s, line)
      == Try(FollowedBySpace, DeclarationKeywords[1], s, line)
  {
    assert WellFormed(DeclarationKeywords);
    LetTry(s, line);
    FirstHitAt(DeclarationKeywords, 1, FollowedBySpace, s, line);
  }

  /** `parse_to_token` on `public struct` and whitespace: the longer entry, listed first, wins over `public`. */
  lemma PublicStructBeforePublic(s: string, line: int)
    requires StartsWord(s, "public struct")
    ensures KeywordMatch(s, line) == Some(Scanned(Stamp(Keyword(PublicStruct), line, false), "public struct", s[13..]))
  {
    KeywordMatchPieces(s, line);
    DeclarationRowsMiss(s, line);
    PublicStructRow(s, line);
  }

  /**
   * On a text opening with `o`, `n`, `=` or `:`, only the statement rows of
   * `parse_to_token`'s table can answer.
   */
  lemma StatementRowsDecide(s: string, line: int)
    requires s != [] && s[0] in {'o', 'n', '=', ':'}
    ensures WellFormed(StatementKeywords)
    ensures KeywordMatch(s, line) == FirstHit(StatementKeywords, FollowedBySpace, s, line)
  {
    KeywordMatchPieces(s, line);
    DeclarationRowsMiss(s, line);
    PublicRowsMiss(s, line);
    ClauseRowsMiss(s, line);
  }

  /** `parse_to_token` on `not equal` and whitespace: the two-word operator `NotEqual`. */
  lemma NotEqualIsOneToken(s: string, line: int)
    requires StartsWord(s, "not equal")
    ensures KeywordMatch(s, line) == Some(Scanned(Stamp(NotEqual, line, false), "not equal", s[9..]))
  {
    StatementRowsDecide(s, line);
    NotEqualRow(s, line);
  }

  /** `parse_to_token` on `own` and whitespace: the keyword `Own`. */
  lemma OwnIsAKeyword(s: string, line: int)
    requires StartsWord(s, "own")
    ensures KeywordMatch(s, line) == Some(Scanned(Stamp(Keyword(Own), line, false), "own", s[3..]))
  {
    StatementRowsDecide(s, line);
    OwnRow(s, line);
  }

  /**
   * `parse_to_token` on `let` and whitespace: the keyword `Let`, from its first
   * row; the second `let` row is never reached.
   */
  lemma LetFromFirstRow(s: string, line: int)
    requires StartsWord(s, "let")
    ensures KeywordMatch(s, line) == Some(Scanned(Stamp(Keyword(Let), line, false), "let", s[3..]))
    ensures KeywordMatch(s, line) == Try(FollowedBySpace, DeclarationKeywords[1], s, line)
  {
    KeywordMatchPieces(s, line);
    LetRow(s, line);
  }

  /**
   * The word `parse_to_token`'s table spells a token kind with, for the kinds
   * it yields; kinds of other recognizers have none.
   */
  function TableSpelling(k: TokenKind): Option<string> {
    if k.Keyword? then KeywordSpelling(k.keyword)
    else if k.Equal? then Some("equal")
    else if k.NotEqual? then Some("not equal")
    else if k.Assign? then Some("=")
    else if k.DoubleDot? then Some(":")
    else None
  }

  function KeywordSpelling(w: Keyword): Option<string> {
    match w
    case Module => Some("module")
    case Let => Some("let")
    case Do => Some("do")
    case End => Some("end")
    case Trait => Some("trait")
    case Match => Some("match")
    case Enum => Some("enum")
    case Use => Some("use")
    case ExternCrate => Some("extern crate")
    case Struct => Some("struct")
    case PublicStruct => Some("public struct")
    case PublicTrait => Some("public trait")
    case PublicUse => Some("public use")
    case PublicModule => Some("public module")
    case PublicFunction => Some("public function")
    case PublicEnum => Some("public enum")
    case Public => Some("public")
    case Implements => Some("implements")
    case Inherits => Some("inherits")
    case If => Some("if")
    case Then => Some("then")
    case Else => Some("else")
    case For => Some("for")
    case In => Some("in")
    case Function => Some("function")
    case Mutable => Some("mutable")
    case Own => Some("own")
    case Return => Some("return")
    case As => None
    case Equal => None
    case Borrow => None
    case Optional => None
    case Derive => None
  }

  /** Every row of `table` spells its kind as `TableSpelling` does. */
  predicate SpelledRows(table: seq<Entry>) {
    forall i :: 0 <= i < |table| ==> TableSpelling(table[i].kind) == Some(table[i].text)
  }

  /** A search of a table of spelled rows answers with a kind's spelling, whitespace after it. */
  lemma FirstHitSpelled(table: seq<Entry>, s: string, line: int)
    requires WellFormed(table) && SpelledRows(table)
    ensures FirstHit(table, FollowedBySpace, s, line).Some? ==>
      TableSpelling(FirstHit(table, FollowedBySpace, s, line).value.token.kind)
        == Some(FirstHit(table, FollowedBySpace, s, line).value.matched)
  {
    FirstHitIsFirstMatch(table, FollowedBySpace, s, line);
  }

  lemma DeclarationRowsSpelled()
    ensures WellFormed(DeclarationKeywords) && SpelledRows(DeclarationKeywords)
  {    assert TableSpelling(DeclarationKeywords[0].kind) == Some(DeclarationKeywords[0].text);
    assert TableSpelling(DeclarationKeywords[1].kind) == Some(DeclarationKeywords[1].text);
    assert TableSpelling(DeclarationKeywords[2].kind) == Some(DeclarationKeywords[2].text);
    assert TableSpelling(DeclarationKeywords[3].kind) == Some(DeclarationKeywords[3].text);
    assert TableSpelling(DeclarationKeywords[4].kind) == Some(DeclarationKeywords[4].text);
    assert TableSpelling(DeclarationKeywords[5].kind) == Some(DeclarationKeywords[5].text);
    assert TableSpelling(DeclarationKeywords[6].kind) == Some(DeclarationKeywords[6].text);
    assert TableSpelling(DeclarationKeywords[7].kind) == Some(DeclarationKeywords[7].text);
    assert TableSpelling(DeclarationKeywords[8].kind) == Some(DeclarationKeywords[8].text);
    assert TableSpelling(DeclarationKeywords[9].kind) == Some(DeclarationKeywords[9].text);
  }

  lemma PublicRowsSpelled()
    ensures WellFormed(PublicKeywords) && SpelledRows(PublicKeywords)
  {    assert TableSpelling(PublicKeywords[0].kind) == Some(PublicKeywords[0].text);
    assert TableSpelling(PublicKeywords[1].kind) == Some(PublicKeywords[1].text);
    assert TableSpelling(PublicKeywords[2].kind) == Some(PublicKeywords[2].text);
    assert TableSpelling(PublicKeywords[3].kind) == Some(PublicKeywords[3].text);
    assert TableSpelling(PublicKeywords[4].kind) == Some(PublicKeywords[4].text);
    assert TableSpelling(PublicKeywords[5].kind) == Some(PublicKeywords[5].text);
    assert TableSpelling(PublicKeywords[6].kind) == Some(PublicKeywords[6].text);
  }

  lemma ClauseRowsSpelled()
    ensures WellFormed(ClauseKeywords) && SpelledRows(ClauseKeywords)
  {    assert TableSpelling(ClauseKeywords[0].kind) == Some(ClauseKeywords[0].text);
    assert TableSpelling(ClauseKeywords[1].kind) == Some(ClauseKeywords[1].text);
    assert TableSpelling(ClauseKeywords[2].kind) == Some(ClauseKeywords[2].text);
    assert TableSpelling(ClauseKeywords[3].kind) == Some(ClauseKeywords[3].text);
    assert TableSpelling(ClauseKeywords[4].kind) == Some(ClauseKeywords[4].text);
    assert TableSpelling(ClauseKeywords[5].kind) == Some(ClauseKeywords[5].text);
    assert TableSpelling(ClauseKeywords[6].kind) == Some(ClauseKeywords[6].text);
  }

  lemma StatementRowsSpelled()
    ensures WellFormed(StatementKeywords) && SpelledRows(StatementKeywords)
  {    assert TableSpelling(StatementKeywords[0].kind) == Some(StatementKeywords[0].text);
    assert TableSpelling(StatementKeywords[1].kind) == Some(StatementKeywords[1].text);
    assert TableSpelling(StatementKeywords[2].kind) == Some(StatementKeywords[2].text);
    assert TableSpelling(StatementKeywords[3].kind) == Some(StatementKeywords[3].text);
    assert TableSpelling(StatementKeywords[4].kind) == Some(StatementKeywords[4].text);
    assert TableSpelling(StatementKeywords[5].kind) == Some(StatementKeywords[5].text);
    assert TableSpelling(StatementKeywords[6].kind) == Some(StatementKeywords[6].text);
    assert TableSpelling(StatementKeywords[7].kind) == Some(StatementKeywords[7].text);
    assert TableSpelling(StatementKeywords[8].kind) == Some(StatementKeywords[8].text);
  }

  /**
   * `parse_to_token` takes exactly the spelling of the kind it answers with,
   * and leaves the whitespace after it: both `let` rows spell `Let` alike,
   * and every other kind has one row.
   */
  lemma KeywordMatchSpelled(s: string, line: int)
    ensures KeywordMatch(s, line).Some? ==>
      && TableSpelling(KeywordMatch(s, line).value.token.kind) == Some(KeywordMatch(s, line).value.matched)
      && StartsWord(s, KeywordMatch(s, line).value.matched)
  {
    KeywordMatchPieces(s, line);
    DeclarationRowsSpelled();
    FirstHitSpelled(DeclarationKeywords, s, line);
    PublicRowsSpelled();
    FirstHitSpelled(PublicKeywords, s, line);
    ClauseRowsSpelled();
    FirstHitSpelled(ClauseKeywords, s, line);
    StatementRowsSpelled();
    FirstHitSpelled(StatementKeywords, s, line);
    var r := KeywordMatch(s, line);
    if r.Some? {
      var m := r.value.matched;
      assert m + r.value.rest == s;
      assert s[..|m|] == m;
    }
  }

  /** A word that only begins with `do`, such as `done`, is not the keyword `Do`. */
  lemma DoNeedsWhitespace(s: string, line: int)
    requires |s| > 2 && s[..2] == "do" && !IsSpace(s[2])
    ensures KeywordMatch(s, line).Some? ==> KeywordMatch(s, line).value.token.kind != Keyword(Do)
  {
    KeywordMatchSpelled(s, line);
  }
}
