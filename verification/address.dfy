/**
 The abbreviated wallet address shown once a wallet is connected: the first
 six characters, an ellipsis and the last four, built with the language's
 `slice`, which clamps its bounds and counts negative bounds from the end.
 */
module Address {

  const Ellipsis: char := '\U{2026}'

  function Min(a: int, b: int): int {
    if a <= b then a else b
  }

  /** Where a `slice` bound lands in a string of length `n`. */
  function SliceBound(i: int, n: nat): (k: nat)
    ensures k <= n
  {
    if i < 0 then (if n + i < 0 then 0 else n + i)
    else if i > n then n
    else i
  }

  /** The string method `slice(start, end)`: empty when the bounds cross. */
  function Slice(s: string, start: int, end: int): string {
    var from := SliceBound(start, |s|);
    var to := SliceBound(end, |s|);
    if from < to then s[from..to] else []
  }

  /** `slice(0, 6) + "…" + slice(-4)` */
  function ShortAddr(a: string): (r: string)
    ensures |r| == Min(6, |a|) + 1 + Min(4, |a|)
    // the head of `a`, as much of it as there is, then the ellipsis
    ensures r[..Min(6, |a|)] == a[..Min(6, |a|)]
    ensures r[Min(6, |a|)] == Ellipsis
    // then the tail of `a`, as much of it as there is
    ensures r[Min(6, |a|) + 1..] == a[|a| - Min(4, |a|)..]
  {
    Slice(a, 0, 6) + [Ellipsis] + Slice(a, -4, |a|)
  }

  /** An address of ten characters or more keeps exactly its first six and last four. */
  lemma ShortAddrLong(a: string)
    requires |a| >= 10
    ensures |ShortAddr(a)| == 11
    ensures ShortAddr(a) == a[..6] + [Ellipsis] + a[|a| - 4..]
  {
  }
}
