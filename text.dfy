/**
 * Character classes and prefix searches out of which the recognizers of
 * parser.rs are built: each stands for one piece of a regular expression,
 * under the regex crate's rule that the first alternative in priority order
 * wins (greedy quantifiers try the longest span first, lazy ones the shortest).
 */
module Text {
  import opened Wrappers

  /** `\s`: a Unicode White_Space character. */
  predicate IsSpace(c: char) {
    || ('\t' <= c <= '\r')
    || c == ' '
    || c == '\U{85}'
    || c == '\U{A0}'
    || c == '\U{1680}'
    || ('\U{2000}' <= c <= '\U{200A}')
    || c == '\U{2028}'
    || c == '\U{2029}'
    || c == '\U{202F}'
    || c == '\U{205F}'
    || c == '\U{3000}'
  }

  /** `[[:blank:]]`: a space or a tab. */
  predicate IsBlank(c: char) {
    c == ' ' || c == '\t'
  }

  /** `[A-Za-z_0-9]` */
  predicate IsWordChar(c: char) {
    ('A' <= c <= 'Z') || ('a' <= c <= 'z') || ('0' <= c <= '9') || c == '_'
  }

  /** `[A-Za-z0-9]` */
  predicate IsAlnum(c: char) {
    ('A' <= c <= 'Z') || ('a' <= c <= 'z') || ('0' <= c <= '9')
  }

  /** `.` outside `(?s)`: anything but a line feed. */
  predicate NotNewline(c: char) {
    c != '\n'
  }

  /** Where a greedy `[p]*` that starts at `i` stops: the end of the longest run of `p`. */
  function RunEnd(s: string, i: nat, p: char -> bool): (e: nat)
    requires i <= |s|
    ensures i <= e <= |s|
    ensures forall k :: i <= k < e ==> p(s[k])
    ensures e < |s| ==> !p(s[e])
    decreases |s| - i
  {
    if i == |s| || !p(s[i]) then i else RunEnd(s, i + 1, p)
  }

  /** How far `.*` outside `(?s)` can reach from `i`: the next line feed, or the end. */
  function LineEnd(s: string, i: nat): (e: nat)
    requires i <= |s|
    ensures i <= e <= |s|
    ensures forall k :: i <= k < e ==> s[k] != '\n'
    ensures e < |s| ==> s[e] == '\n'
  {
    RunEnd(s, i, NotNewline)
  }

  /**
   * The last position in `[lo, hi)` holding a character of `cs`: where a
   * greedy `.*` followed by `[cs]` settles when the span may not pass `hi`.
   */
  function LastIndexIn(s: string, lo: nat, hi: nat, cs: set<char>): (r: Option<nat>)
    requires lo <= hi <= |s|
    ensures r.Some? ==> lo <= r.value < hi && s[r.value] in cs
    ensures r.Some? ==> forall k :: r.value < k < hi ==> s[k] !in cs
    ensures r.None? ==> forall k :: lo <= k < hi ==> s[k] !in cs
    decreases hi - lo
  {
    if lo == hi then None
    else if s[hi - 1] in cs then Some(hi - 1)
    else LastIndexIn(s, lo, hi - 1, cs)
  }

  /** The first position from `lo` holding `c`: where a lazy `.*?` followed by `c` settles. */
  function FirstIndexOf(s: string, lo: nat, c: char): (r: Option<nat>)
    requires lo <= |s|
    ensures r.Some? ==> lo <= r.value < |s| && s[r.value] == c
    ensures r.Some? ==> forall k :: lo <= k < r.value ==> s[k] != c
    ensures r.None? ==> forall k :: lo <= k < |s| ==> s[k] != c
    decreases |s| - lo
  {
    if lo == |s| then None
    else if s[lo] == c then Some(lo)
    else FirstIndexOf(s, lo + 1, c)
  }

  /** A trailing greedy `\n?` after position `e`. */
  function NewlineAfter(s: string, e: nat): (r: nat)
    requires e <= |s|
    ensures r == e || (r == e + 1 && e < |s| && s[e] == '\n')
    ensures e < |s| && s[e] == '\n' ==> r == e + 1
  {
    if e < |s| && s[e] == '\n' then e + 1 else e
  }

  /** `match_newlines(s).len()`: the number of line feeds in `s`. */
  function CountNewlines(s: string): (n: nat)
    ensures n == multiset(s)['\n']
    ensures n <= |s|
  {
    if s == [] then 0
    else
      assert s == [s[0]] + s[1..];
      (if s[0] == '\n' then 1 else 0) + CountNewlines(s[1..])
  }

  /** Counting line feeds distributes over concatenation. */
  lemma CountNewlinesAppend(a: string, b: string)
    ensures CountNewlines(a + b) == CountNewlines(a) + CountNewlines(b)
  {
    assert multiset(a + b) == multiset(a) + multiset(b);
  }
}
