# amelia front end and code generator, in Dafny

amelia translates a small keyword-oriented language into Rust text. This
project models the core of one snapshot of it:

- **The tokenizer loop** (`complete_parse`, src/parser.rs). It tries a fixed
  priority list of anchored recognizers on the rest of the input. Each
  success appends one childless node holding the matched text to the tree.
  The loop stops with `Ok(true)` when the rest is empty. It stops with an
  error as soon as nothing matches.
- **The recognizers** (`parse_*`, src/parser.rs). Each regular expression is
  written out as a prefix function over the string, with the regex engine's
  leftmost-first meaning:
  - `.` outside `(?s)` stops at a line feed;
  - `\s` is Unicode white space;
  - a greedy `.*` ends at the last candidate on the line and a lazy `.*?` at
    the first.
- **The table searches** (`parse_to_token`, `parse_type`, `parse_operator`).
  Each is written twice: as the source's `for` loop with early return
  (`Tables.SearchTable`) and as a first-match search function (`FirstHit`).
- **The code generator** (`transpile`, src/transpiler.rs). The source's loop,
  which pushes and then joins, is proved to equal a pre-order walk of the tree.
- **The block marks** (src/block_keyword.rs).
- **The token model** (src/token.rs, with src/keyword.rs, src/lexeme.rs and
  src/ast.rs as datatypes): `Token::new` and the derived equality and
  ordering.

Files: wrappers.dfy (`Option`, `Result`), compare.dfy (derived orderings),
keyword.dfy, lexeme.dfy, token.dfy, ast.dfy, text.dfy (character classes and
the scans the patterns are built from), recognizers.dfy, tables.dfy,
parser.dfy, block_keyword.dfy, transpiler.dfy.

The files of the snapshot do not agree with each other, so the model makes
these choices:

- **One `TokenKind`.** It lists token.rs's variants in declaration order, then
  the variants the other files use but token.rs lacks. token.rs's
  `keyword(..)` and the other files' `Keyword(..)` are one variant.
- **Extra keywords.** Keywords used only by parser.rs (`Trait`, `Match`,
  `Enum`, `Use`, `ExternCrate`, the `Public…` forms, `Return`) come after
  keyword.rs's own.
- **`Boolean`** is added to `LiteralKind`.
- **`Operator` and `Collection`** are declared in none of the files. They are
  modelled in the order parser.rs uses them.
- **`Token`** keeps token.rs's kind and span and adds the statement-end flag
  that parser.rs passes to `Token::new`. Recognizer tokens get column 0,
  since the parser computes no column.

## Model

| member | source | states |
|---|---|---|
| Keywords.KeywordRank | src/keyword.rs:1-23 | A keyword's rank is its declaration position: the list of all keywords holds that keyword at that rank |
| Keywords.KeywordOrderTotal | src/keyword.rs:1-23 | Ordering keywords by declaration position is a total order: `Equal` exactly on equal keywords, antisymmetric, transitive |
| Lexemes.LexemeRank | src/lexeme.rs:1-14 | A lexeme's rank is its declaration position in the enum |
| Tokens.LiteralKindRank | src/token.rs:80-93 | A literal kind's rank is its declaration position in the enum |
| Tokens.LiteralKindOrderTotal | src/token.rs:80-93 | Derived `Ord` on `LiteralKind` is a total order |
| Tokens.RebuildInvertsRank | src/token.rs:15-78 | A token kind is recovered from its variant position and its field, so no two kinds share both |
| Tokens.SameRankAndPayload | src/token.rs:15-78 | Two kinds with the same variant and the same field are the same kind |
| Tokens.KindEqualIffSame | src/token.rs:15-78 | Derived `Ord` on `TokenKind` answers `Equal` exactly when derived `Eq` holds, in both directions |
| Tokens.KindOrderTotal | src/token.rs:15-78 | Derived `Ord` on `TokenKind` is a total order |
| Tokens.KindVariantOrder | src/token.rs:15-78 | A variant declared earlier is `Less` than one declared later, whatever their fields |
| Tokens.KindFieldOrder | src/token.rs:15-78 | Within a variant, `BlockComment` compares `terminated` (false first), `keyword` compares the keyword order, `Literal` the literal-kind order |
| Tokens.New | src/token.rs:95-99 | `Token::new(kind, line, col)` yields a token whose kind, line and column are the arguments |
| Tokens.Stamp | src/parser.rs:129-143 | A recognizer's token carries the given kind, line and statement-end flag |
| Tokens.SpanOrderTotal | src/token.rs:3-7 | Ordering spans by line, then column, is a total order |
| Tokens.CmpKind | src/token.rs:15-78 | Derived `Ord` on `TokenKind`: by variant position, then by the variant's field. It has no contract of its own; `KindEqualIffSame`, `KindVariantOrder`, `KindFieldOrder` and `KindOrderTotal` state its properties |
| Tokens.CmpToken | src/token.rs:9-13 | Derived `Ord` on `Token`: kind, then span, then the added statement-end flag. It has no contract of its own; `TokenEqualIffSame` and `TokenOrderTotal` state its properties |
| Tokens.TokenEqualIffSame | src/token.rs:9-13 | Comparing tokens (kind, then span, then the added statement-end flag) answers `Equal` exactly on equal tokens |
| Tokens.TokenOrderTotal | src/token.rs:9-13 | Derived `Ord` on `Token` is a total order |
| Text.CountNewlines | src/parser.rs:193-198 | `match_newlines` counts each line feed of the text once: the count is the line feed's multiplicity, at most the length |
| Recognizers.Capture | src/parser.rs:129-143 | `parse_capture!` answers exactly when the pattern matched; group 1 is the prefix up to the match's end and group 2 the rest, so the two concatenate to the input, with a token of the kind at the current line |
| Recognizers.ParseOpenParens | src/parser.rs:145-151 | Matches exactly when the text starts with `(`, and takes just that character |
| Recognizers.ParseCloseParens | src/parser.rs:153-159 | Matches exactly when the text starts with `)`, and takes it together with a line feed right after it when there is one |
| Recognizers.ParseDot | src/parser.rs:161-167 | Matches exactly when the text starts with `.`, and takes just that character |
| Recognizers.ParseComma | src/parser.rs:169-175 | Matches exactly when the text starts with `,`, and takes just that character |
| Recognizers.ParseLineComment | src/parser.rs:177-183 | Matches exactly when the text starts with `//`; takes the comment up to and excluding the line feed, so the rest is empty or starts with the line feed |
| Recognizers.ParseBlockComment | src/parser.rs:185-191 | Matches exactly when the text starts with `/*` and holds a later `*/`; greedy: the token ends at the last `*/` of the whole text |
| Recognizers.ParseIdentifier | src/parser.rs:200-206 | Matches exactly when the text starts with a word character; takes the whole run of word characters plus one line feed right after it, if any |
| Recognizers.IdentifierSplitUnique | src/parser.rs:200-206 | A text splits in at most one way into an identifier token (a word run, with a line feed right after it if there is one) and a rest that cannot continue the run, so the contract of `ParseIdentifier` fixes its answer |
| Recognizers.ParseWhitespace | src/parser.rs:208-214 | Matches exactly when the text starts with a space or tab, and takes one character |
| Recognizers.ParseNewline | src/parser.rs:216-222 | Matches exactly when the text starts with a line feed, and takes it |
| Recognizers.ParseAs | src/parser.rs:224-230 | Matches exactly when a white-space character is followed by `as`, and takes those three characters |
| Recognizers.ParseTypeWithGenerics | src/parser.rs:232-238 | Matches exactly when an alphanumeric run is followed by `<` and a `>` later on that line; the token ends at the last `>` of the line (and a line feed right after it) |
| Recognizers.ParseMacro | src/parser.rs:240-246 | Matches exactly when a word run is followed by `!`, one of the opening characters, and a closing character later on that line; the token ends at the last closing character of the line |
| Recognizers.ParseNamespaceSeparator | src/parser.rs:248-254 | Matches exactly when the text starts with `::`, and takes it |
| Recognizers.ParseNotOperator | src/parser.rs:256-262 | Matches exactly when the text starts with `not` and a white-space character, and takes the four characters |
| Recognizers.ParseArray | src/parser.rs:264-270 | Matches exactly when `[` starts a run on one line with a comma before some `]` that is followed by white space (directly, or after one line feed); the token runs to the last such `]` on the line (no later `]` on the line lets the pattern finish), with that line feed, and the rest starts with white space |
| Recognizers.ParseTuple | src/parser.rs:272-278 | As for arrays, with `(` and `)`: the token ends at the last `)` of the line after which the pattern can finish |
| Recognizers.ParseHashMap | src/parser.rs:280-286 | Matches exactly when `=`, optional white space (line feeds included) and `{` open a run that closes as an array does, with `}`: the token ends at the last `}` of that line after which the pattern can finish |
| Recognizers.ParseDerive | src/parser.rs:288-306 | Matches exactly when the text starts with `derive(` and a `)` follows on that line; the token ends at the last `)` of the line and holds no line feed |
| Recognizers.ParseString | src/parser.rs:308-314 | Matches exactly when the text starts with `"` and holds another `"`; lazy: the token ends at the next `"`, with no quote inside |
| Recognizers.ParseBorrow | src/parser.rs:316-322 | Matches exactly when the text starts with `borrow` and a white-space character, and takes the seven characters |
| Recognizers.ParseOwn | src/parser.rs:324-330 | Matches exactly when the text starts with `own` and a white-space character, and takes the four characters |
| Tables.Parse | src/parser.rs:583-593 | A row's pattern matches exactly when the row's text is a prefix followed by a character the pattern allows; the groups concatenate to the input; group 1 is the text (white-space patterns) or the text plus its delimiter (type patterns) |
| Tables.Try | src/parser.rs:572-577 | One row answers exactly when its pattern matches, with a token of the row's kind; after a keyword or operator the rest starts with white space; after a type name the token ends with a comma, a bar, `>`, `)` or a line feed |
| Tables.FirstHit | src/parser.rs:571-580 | The search's answer splits the input, is stamped with the current line, and has the shape its pattern demands |
| Tables.FirstHitIsFirstMatch | src/parser.rs:571-580 | The search answers exactly when some row matches, and then gives the answer of a row that matches with no earlier row matching |
| Tables.FirstHitKind | src/parser.rs:571-580 | The answer's kind is the kind of one of the table's rows |
| Tables.SearchTable | src/parser.rs:571-580 | The `for` loop with early return computes the first-match search |
| Tables.FirstHitAppend | src/parser.rs:436-569 | Searching two runs of rows in turn is the first run's answer, or else the second's |
| Tables.KeywordTableRows | src/parser.rs:436-569 | Every row of the keyword table has a non-empty text and a keyword-like kind |
| Tables.TypeTableRows | src/parser.rs:371-420 | Every row of the type table has a non-empty text and a `Literal` kind |
| Tables.OperatorTableRows | src/parser.rs:334-355 | Every row of the operator table is one character with an `Operator` kind |
| Tables.KeywordMatch | src/parser.rs:434-581 | A keyword-table answer splits the input, leaves a rest that starts with white space, and has a keyword-like kind |
| Tables.TypeMatch | src/parser.rs:369-432 | A type-table answer ends with a comma, a bar, `>`, `)` or a line feed, and has a `Literal` kind |
| Tables.OperatorMatch | src/parser.rs:332-367 | An operator answer is one character with an `Operator` kind, and the rest starts with white space |
| Tables.ParseToToken | src/parser.rs:434-581 | `parse_to_token` computes the keyword table's first match |
| Tables.ParseType | src/parser.rs:369-432 | `parse_type` computes the type table's first match |
| Tables.ParseOperator | src/parser.rs:332-367 | `parse_operator` computes the operator table's first match |
| Tables.PublicStructBeforePublic | src/parser.rs:477-504 | `public struct` followed by white space is one `PublicStruct` token, never `Public` |
| Tables.NotEqualIsOneToken | src/parser.rs:541-544 | `not equal` followed by white space is one `NotEqual` token |
| Tables.OwnIsAKeyword | src/parser.rs:553-556 | `own` followed by white space is the keyword-table token `Keyword(Own)`, holding `own` without the white space |
| Tables.LetFromFirstRow | src/parser.rs:441-444 | `let` is answered by the table's first `let` row; the second (line 534) is never reached |
| Tables.KeywordMatchSpelled | src/parser.rs:436-578 | A keyword-table token holds exactly the spelling its kind has in the table, and the input starts with that word and white space |
| Tables.DoNeedsWhitespace | src/parser.rs:445-448 | `do` followed by anything but white space (as in `done`) is never the `Do` keyword |
| Parser.LineAdvance | src/parser.rs:95-110 | The counter moves only after a block comment or a line feed: by the comment's line feeds, or by one. Other tokens move it by nothing, even one that swallowed a line feed |
| Parser.FirstOf | src/parser.rs:13-93 | The `if result.is_none()` chain: the first answer among the recognizers, in order. It has no contract of its own; `FirstOfPlain` and `FirstOfAppend` state its properties |
| Parser.FirstOfPlain | src/parser.rs:13-93 | A chain of recognizers answers exactly when one of them does; when each splits its input, so does the chain |
| Parser.FirstOfAppend | src/parser.rs:13-93 | Trying two chains in turn gives the first chain's answer, or else the second's |
| Parser.EarlyChainPlain | src/parser.rs:13-93 | Every recognizer tried before the block comment splits its input into a non-empty token and the rest, stamps the current line, and yields neither a line feed nor a block comment |
| Parser.EarlyToken | src/parser.rs:13-93 | The first 21 tries give a token that splits the input and does not move the line counter |
| Parser.LateToken | src/parser.rs:95-110 | Block comment, blank, newline: the counter grows by the comment's line feeds or by one after a line feed, and the token keeps the line from before the match |
| Parser.NextToken | src/parser.rs:13-110 | One turn of the loop splits the input into a non-empty token and the rest, stamps the current line, and advances the counter as the token demands |
| Parser.NextTokenIsTokenizer | src/parser.rs:13-110 | The chain is a proper turn of the loop on every input |
| Parser.LexWith | src/parser.rs:112-118 | Every node the loop appends is childless and holds non-empty text; a successful run appends at least one node |
| Parser.Lex | src/parser.rs:12-126 | What the loop appends: childless nodes holding non-empty text, whose texts concatenate to a prefix of the input. The run succeeds exactly when the input is non-empty and they are the whole of it |
| Parser.LexUnfold | src/parser.rs:112-125 | No match: nothing is appended and the run fails. A match with an empty rest: one node and success. Otherwise: the node, then the run on the rest |
| Parser.LexCoversPrefix | src/parser.rs:112-125 | The appended nodes' texts concatenate to a prefix of the input; the run succeeds exactly when the input is non-empty and they concatenate to all of it |
| Parser.LexLineStamps | src/parser.rs:95-114 | The first token has the starting line; every later token has the previous one's line plus that token's advance (line feeds of a block comment, one for a line feed, none otherwise) |
| Parser.KeywordsComeFirst | src/parser.rs:13-17 | Whenever the keyword table matches, the early token is the hash-map match if there is one (only possible on `=`) and otherwise the keyword-table match |
| Parser.OwnRecognizerShadowed | src/parser.rs:16-25 | Whenever `parse_own` would match, the keyword table has already answered with a different token (`own` without its white space) |
| Parser.NotEqualBeforeNot | src/parser.rs:16-45 | For `not equal`, `parse_not_operator` would match, but the keyword table answers first with `NotEqual` |
| Parser.TryWordTokens | src/parser.rs:13-29 | The first five tries of the loop, step by step, give the first answer among hash map, keywords, `borrow`, `own`, `::` |
| Parser.TryTypeTokens | src/parser.rs:31-49 | The next five tries: operator, type, ` as`, `not`, derive |
| Parser.TryCompoundTokens | src/parser.rs:51-69 | The next five tries: generic type, macro, string, array, tuple |
| Parser.TryPunctuationTokens | src/parser.rs:71-93 | The next six tries: identifier, line comment, `(`, `)`, `.`, `,` |
| Parser.TryEarlyTokens | src/parser.rs:13-93 | The 21 early tries in order compute the early token |
| Parser.TryLateTokens | src/parser.rs:95-110 | The last three tries and their updates of the line counter compute the late step |
| Parser.Turn | src/parser.rs:13-110 | One pass through the `if result.is_none()` chain computes one turn of the loop |
| Parser.NotRecognized | src/parser.rs:120 | The error message is `pattern not recognize ` followed by the whole original input |
| Parser.CompleteParse | src/parser.rs:7-127 | The tree keeps its token and text; its children grow by exactly the nodes the loop produces; the result is `Ok(true)` when the loop consumed the whole input, and otherwise the error carrying the original input |
| BlockKeyword.MatchBlockBegin | src/block_keyword.rs:13-16 | Holds only for the marks `do` and `(`, and then only for the kind that opens that mark: the `Do` keyword for `do`, `OpenParen` for `(` |
| BlockKeyword.MatchBlockEnd | src/block_keyword.rs:18-21 | Holds only for the marks `do` and `(`, and then only for the kind that closes that mark: the `End` keyword for `do`, `CloseParen` for `(` |
| BlockKeyword.OnlyDoAndParenAreMarks | src/block_keyword.rs:13-21 | For any mark other than `do` and `(` (`end`, `[`, `{` included), neither test holds for any kind |
| BlockKeyword.MarkPairs | src/block_keyword.rs:13-21 | `do` is opened by the `Do` keyword and closed by `End`; `(` is opened by `OpenParen` and closed by `CloseParen` |
| BlockKeyword.OneOpener | src/block_keyword.rs:13-16 | Each mark has at most one kind that opens it |
| BlockKeyword.OneCloser | src/block_keyword.rs:18-21 | Each mark has at most one kind that closes it |
| BlockKeyword.OpenerIsNotCloser | src/block_keyword.rs:13-21 | No kind both opens and closes a block of the same mark |
| BlockKeyword.DoOpensBlock | src/block_keyword.rs:13-16 | The word `do` and white space is read as a token that opens a `do` block |
| BlockKeyword.EndClosesBlock | src/block_keyword.rs:18-21 | The word `end` and white space is read as a token that closes a `do` block |
| BlockKeyword.ParensMarkBlocks | src/block_keyword.rs:13-21 | The tokens of `parse_open_parens` and `parse_close_parens` open and close a `(` block |
| Transpiler.RustText | src/transpiler.rs:11-27 | An identifier is written as its own text. Any other kind is written as nothing exactly when the `match` has no arm for it |
| Transpiler.Translation | src/transpiler.rs:6-33 | What `transpile` returns: the children in order, each as its text and then its own translation. It has no contract of its own; `Transpile` proves the source's loop returns it, and the lemmas below state its properties |
| Transpiler.WalkAppend | src/transpiler.rs:8-32 | Walking children `a` then `b` is walking `a`, then walking `b` |
| Transpiler.Transpile | src/transpiler.rs:6-33 | The loop that pushes each child's text and its translation, then joins, returns the pre-order walk of the tree |
| Transpiler.SiblingsTranslateIndependently | src/transpiler.rs:7-32 | Translating the children `a ++ b` is translating `a`, then `b`: no state passes between siblings |
| Transpiler.UntextedChildKeepsSubtree | src/transpiler.rs:9-30 | A child with no text writes nothing of its own, but its subtree is still written |
| Transpiler.OnlyIdentifiersKeepText | src/transpiler.rs:11-27 | An identifier is written as its own text; every other kind is written the same whatever text it holds |
| Transpiler.BlocksBecomeBrackets | src/transpiler.rs:16-20 | The tokens that open and close a block are written as the matching Rust brackets: `do`..`end` as `{`..`}`, `(`..`)` as `(`..`)` |
| Transpiler.VerbatimLeaf | src/transpiler.rs:24-25 | An identifier leaf, or a leaf holding one space, is written as its own text |
| Transpiler.VerbatimLeavesKeepSource | src/transpiler.rs:8-32 | A run of such leaves is written as the concatenation of their texts |
| Transpiler.WordsAndSpacesRoundTrip | src/transpiler.rs:6-33 | A text the loop reads wholly into identifiers and single spaces is written back unchanged after what the tree already wrote |
| Transpiler.DroppedKinds | src/transpiler.rs:11-27 | A leaf of any kind the `match` has no arm for is dropped from the output, whatever text it holds |

## Left out

- src/main.rs is not part of this model. It is an earlier prototype built on parser combinators whose source is not shown, and no other file uses it.
- Compiling and caching the regular expressions, and the `unwrap` on their compilation: each pattern is a prefix function instead.
- Tokens.Stamp: the line counter is an `i32` in the source and an unbounded integer here, so wrap-around after 2^31 lines is not modelled.
- `[[:blank:]]` is space or tab; `[A-Za-z0-9_]` is ASCII; `\s` is the Unicode White_Space property over characters. Strings are sequences of characters, not UTF-8 bytes.
- parser.rs builds `TokenKind::BlockComment` without its `terminated` field; the model sets it to true, because the pattern demands the closing `*/`.
- lexeme.rs derives only `PartialOrd`, which on a field-less enum orders variants by declaration position, as `LexemeRank` states.
- The statement-end flag is passed as `false` by every recognizer; no recognizer sets it.
- This version of amelia has no recognizer that sets the statement-end flag, no balanced-delimiter scanning of macro bodies, no begin/end scope counters, and no state carried between siblings in `transpile`. Its only error is the message `pattern not recognize ` followed by the whole original input, not the unread rest, and with no line number. `complete_parse` tries block comments after `,` (src/parser.rs:95-101), and the model keeps that order.
- `Float32`/`Float64` are type names only; no floating-point arithmetic occurs.
- Reading and writing files: none is present in the modelled code.
- The line counter is not advanced for tokens that swallow a line feed (identifiers, `)`, generic types, macros, collections, strings that span lines, and hash maps with line feeds before `{`). The model keeps this as written: `LineAdvance` and `Parser.LexLineStamps` state it.
