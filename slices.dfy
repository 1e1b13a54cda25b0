/**
 * Python's negative-start list slice `s[-k:]`, and the append-then-trim step
 * with which the compass and tilt services keep their reading histories bounded.
 */
module Slices {

  /** Python's `s[-k:]`: the `k` most recent entries of `s`, all of `s` when `k`
      is at least its length, and also all of `s` when `k == 0`, because `-0 == 0`. */
  function Last<T>(s: seq<T>, k: nat): (r: seq<T>)
    ensures |r| == if k == 0 || k >= |s| then |s| else k
    ensures r == s[|s| - |r|..]
  {
    if k == 0 || k >= |s| then s else s[|s| - k..]
  }

  /** `if len(s) > limit: s = s[-keep:]`, the trim both sensor services run after
      appending a reading. */
  function Trimmed<T>(s: seq<T>, limit: nat, keep: nat): (r: seq<T>)
    ensures |r| <= |s|
    ensures r == s[|s| - |r|..]
    ensures |s| > limit && 0 < keep <= |s| ==> |r| == keep
    ensures |s| <= limit ==> r == s
  {
    if |s| > limit then Last(s, keep) else s
  }

  /** A trim that keeps at least one entry keeps the newest one, and a history
      at most one entry over its limit ends up within it. */
  lemma TrimmedKeepsNewest<T>(s: seq<T>, limit: nat, keep: nat)
    requires s != [] && 0 < keep <= limit
    ensures Trimmed(s, limit, keep) != []
    ensures Trimmed(s, limit, keep)[|Trimmed(s, limit, keep)| - 1] == s[|s| - 1]
    ensures |s| <= limit + 1 ==> |Trimmed(s, limit, keep)| <= limit
  {
  }

  /** Taking the `k` most recent entries ignores everything older than them. */
  lemma {:induction false} LastOfConcat<T>(older: seq<T>, recent: seq<T>, k: nat)
    requires 0 < k <= |recent|
    ensures Last(older + recent, k) == Last(recent, k)
  {
    var s := older + recent;
    assert Last(s, k) == s[|s| - k..];
    assert Last(recent, k) == recent[|recent| - k..];
    assert s[|s| - k..] == recent[|recent| - k..];
  }
}
