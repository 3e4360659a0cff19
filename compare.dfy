/**
 * The three-way comparison that Rust's derived `PartialOrd`/`Ord` produce,
 * shared by every ordered type of the token model.
 */
module Compare {

  /** Rust's `std::cmp::Ordering`. */
  datatype Ordering = Less | Equal | Greater {

    /** `Ordering::reverse`: the comparison seen from the other side. */
    function Reverse(): Ordering {
      match this
      case Less => Greater
      case Equal => Equal
      case Greater => Less
    }

    /** `Ordering::then`: a derived comparison moves to the next field only on a tie. */
    function Then(next: Ordering): Ordering {
      if this == Equal then next else this
    }
  }

  /** Comparison of two integers (ranks, line and column numbers). */
  function CmpInt(a: int, b: int): (r: Ordering)
    ensures r == Less <==> a < b
    ensures r == Equal <==> a == b
    ensures r == Greater <==> a > b
  {
    if a < b then Less else if a == b then Equal else Greater
  }

  /** `bool` orders `false` before `true`. */
  function CmpBool(a: bool, b: bool): (r: Ordering)
    ensures r == Equal <==> a == b
    ensures r == Less <==> !a && b
  {
    CmpInt(if a then 1 else 0, if b then 1 else 0)
  }

  /**
   * What a derived `Ord` promises: `Equal` exactly on equal values, the
   * comparison is antisymmetric, and `Less` is transitive.
   */
  ghost predicate IsTotalOrder<T(!new)>(cmp: (T, T) -> Ordering) {
    && (forall a, b :: cmp(a, b) == Equal <==> a == b)
    && (forall a, b :: cmp(b, a) == cmp(a, b).Reverse())
    && (forall a, b, c :: cmp(a, b) == Less && cmp(b, c) == Less ==> cmp(a, c) == Less)
  }
}
