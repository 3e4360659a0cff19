/** The lexeme classes of literal text (lexeme.rs). */
module Lexemes {

  datatype Lexeme = String | Int32 | Int64 | UInt32 | UInt64 | Float64 | Float32 | Usize | Isize | Char | Byte

  /** Every lexeme class, in declaration order. */
  const AllLexemes: seq<Lexeme> := [
      Lexeme.String, Lexeme.Int32, Lexeme.Int64, Lexeme.UInt32, Lexeme.UInt64, Lexeme.Float64, Lexeme.Float32, Lexeme.Usize, Lexeme.Isize, Lexeme.Char, Lexeme.Byte
    ]

  /** The position of `l` in declaration order, the discriminant a derived comparison uses. */
  function LexemeRank(l: Lexeme): (r: nat)
    ensures r < |AllLexemes| && AllLexemes[r] == l
  {
    match l
    case String => 0
    case Int32 => 1
    case Int64 => 2
    case UInt32 => 3
    case UInt64 => 4
    case Float64 => 5
    case Float32 => 6
    case Usize => 7
    case Isize => 8
    case Char => 9
    case Byte => 10
  }
}
