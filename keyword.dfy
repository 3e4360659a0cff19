/** The reserved words of the source language (keyword.rs). */
module Keywords {
  import opened Compare

  /**
   * Declared in keyword.rs: If .. Derive. The table of parser.rs also names
   * Trait .. Return, which keyword.rs does not declare; they follow in order of
   * their first appearance in that table.
   */
  datatype Keyword =
    | If
    | Then
    | Else
    | For
    | Do
    | End
    | Public
    | Struct
    | Implements
    | Inherits
    | As
    | Equal
    | Function
    | Mutable
    | Borrow
    | Own
    | In
    | Optional
    | Let
    | Module
    | Derive
    | Trait
    | Match
    | Enum
    | Use
    | ExternCrate
    | PublicStruct
    | PublicTrait
    | PublicUse
    | PublicModule
    | PublicFunction
    | PublicEnum
    | Return

  /** Every keyword, in declaration order. */
  const AllKeywords: seq<Keyword> := [
      If, Then, Else, For, Do, End, Public,
      Struct, Implements, Inherits, As, Keyword.Equal, Function, Mutable,
      Borrow, Own, In, Optional, Let, Module, Derive,
      Trait, Match, Enum, Use, ExternCrate, PublicStruct, PublicTrait,
      PublicUse, PublicModule, PublicFunction, PublicEnum, Return
    ]

  /** The position of `k` in declaration order, the discriminant a derived `Ord` compares. */
  function KeywordRank(k: Keyword): (r: nat)
    ensures r < |AllKeywords| && AllKeywords[r] == k
  {
    match k
    case If => 0
    case Then => 1
    case Else => 2
    case For => 3
    case Do => 4
    case End => 5
    case Public => 6
    case Struct => 7
    case Implements => 8
    case Inherits => 9
    case As => 10
    case Equal => 11
    case Function => 12
    case Mutable => 13
    case Borrow => 14
    case Own => 15
    case In => 16
    case Optional => 17
    case Let => 18
    case Module => 19
    case Derive => 20
    case Trait => 21
    case Match => 22
    case Enum => 23
    case Use => 24
    case ExternCrate => 25
    case PublicStruct => 26
    case PublicTrait => 27
    case PublicUse => 28
    case PublicModule => 29
    case PublicFunction => 30
    case PublicEnum => 31
    case Return => 32
  }

  /** Derived `Ord` on a fieldless enum: declaration order. */
  function CmpKeyword(a: Keyword, b: Keyword): Ordering {
    CmpInt(KeywordRank(a), KeywordRank(b))
  }

  lemma KeywordOrderTotal()
    ensures IsTotalOrder(CmpKeyword)
  {
    forall a: Keyword, b: Keyword | CmpKeyword(a, b) == Ordering.Equal
      ensures a == b
    {
      assert AllKeywords[KeywordRank(a)] == AllKeywords[KeywordRank(b)];
    }
  }
}
