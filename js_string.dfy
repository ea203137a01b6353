/**
 * `String.prototype.slice(start, end)` of ECMA-262: negative positions count
 * from the end of the string, positions are clamped to the string, an omitted
 * `end` means the length, and an empty range gives "".
 */
module JsString {
  import opened Wrappers

  function Min(a: int, b: int): int { if a <= b then a else b }
  function Max(a: int, b: int): int { if a <= b then b else a }

  /** A relative position resolved against a string of length `len`. */
  function ResolveIndex(k: int, len: nat): (r: nat)
    ensures r <= len
  {
    if k < 0 then Max(len + k, 0) else Min(k, len)
  }

  /** `s.slice(start)` when `end` is `None`, `s.slice(start, end)` otherwise. */
  function Slice(s: string, start: int, end: Option<int>): string
  {
    var from := ResolveIndex(start, |s|);
    var to := if end.None? then |s| else ResolveIndex(end.value, |s|);
    if from >= to then "" else s[from..to]
  }

  /** `s.slice(0, k)` is the first `min(k, |s|)` characters. */
  lemma SliceHead(s: string, k: nat)
    ensures Slice(s, 0, Some(k)) == s[..Min(k, |s|)]
  {
  }

  /** `s.slice(-k)` for a positive `k` is the last `min(k, |s|)` characters (`-0` is `0`, the whole string). */
  lemma SliceTail(s: string, k: nat)
    requires k > 0
    ensures Slice(s, -(k as int), None) == s[|s| - Min(k, |s|)..]
  {
  }
}
