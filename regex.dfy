/**
 * The order in which Python's backtracking regular-expression engine tries the
 * choices of one quantifier. A greedy quantifier tries its longest repetition
 * first, a lazy one its shortest, and `re.search` tries start positions from
 * left to right; in each case the first choice from which the rest of the
 * pattern succeeds decides the match and its groups.
 */
module Regex {

  datatype Option<T> = None | Some(value: T)

  /**
   * Greedy choice: tries `f(hi)`, `f(hi - 1)`, ..., `f(lo)` and returns the first
   * choice that succeeds, with its result.
   */
  function Longest<T>(lo: nat, hi: nat, f: nat -> Option<T>): (r: Option<(nat, T)>)
    ensures r.Some? ==> lo <= r.value.0 <= hi && f(r.value.0) == Some(r.value.1)
    ensures r.Some? ==> forall k :: r.value.0 < k <= hi ==> f(k).None?
    ensures r.None? ==> forall k :: lo <= k <= hi ==> f(k).None?
    decreases hi
  {
    if hi < lo then None
    else match f(hi)
      case Some(v) => Some((hi, v))
      case None => if hi == 0 then None else Longest(lo, hi - 1, f)
  }

  /**
   * Lazy choice, and the left-to-right scan of `re.search`: tries `f(lo)`,
   * `f(lo + 1)`, ..., `f(hi)` and returns the first choice that succeeds.
   */
  function Shortest<T>(lo: nat, hi: nat, f: nat -> Option<T>): (r: Option<(nat, T)>)
    ensures r.Some? ==> lo <= r.value.0 <= hi && f(r.value.0) == Some(r.value.1)
    ensures r.Some? ==> forall k :: lo <= k < r.value.0 ==> f(k).None?
    ensures r.None? ==> forall k :: lo <= k <= hi ==> f(k).None?
    decreases hi - lo
  {
    if hi < lo then None
    else match f(lo)
      case Some(v) => Some((lo, v))
      case None => Shortest(lo + 1, hi, f)
  }
}
