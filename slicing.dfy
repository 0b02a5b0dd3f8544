/** Python list slicing and indexing: bounds past either end are clamped,
    and a negative bound or index counts from the end. */
module Slicing {

  /** How Python normalises a slice bound `i` against a length `n`. */
  function Bound(i: int, n: nat): (b: nat)
    ensures b <= n
  {
    if i < 0 then (if i + n < 0 then 0 else i + n)
    else if i > n then n
    else i
  }

  /** `s[lo:hi]`. */
  function Slice<T>(s: seq<T>, lo: int, hi: int): seq<T> {
    var a, b := Bound(lo, |s|), Bound(hi, |s|);
    if a < b then s[a..b] else []
  }

  /** `s[:k]`. */
  function Take<T>(s: seq<T>, k: int): seq<T> {
    Slice(s, 0, k)
  }

  /** `s[k:]`. */
  function Drop<T>(s: seq<T>, k: int): seq<T> {
    Slice(s, k, |s|)
  }

  /** `s[::-1]`. */
  function Reverse<T>(s: seq<T>): (r: seq<T>)
    ensures |r| == |s|
    ensures forall k :: 0 <= k < |s| ==> r[k] == s[|s| - 1 - k]
  {
    if |s| == 0 then [] else Reverse(s[1..]) + [s[0]]
  }

  /** `i` is a valid index of a list of length `n`: `s[i]` does not raise. */
  predicate InIndexRange(i: int, n: nat) {
    -(n as int) <= i < n
  }

  /** `s[i]` for a valid, possibly negative, index. */
  function At<T>(s: seq<T>, i: int): T
    requires InIndexRange(i, |s|)
  {
    if i < 0 then s[i + |s|] else s[i]
  }

  /** `s[:k] + s[k:] == s` for every `k`, negative or out of range. */
  lemma {:induction false} TakeDrop<T>(s: seq<T>, k: int)
    ensures Take(s, k) + Drop(s, k) == s
  {
    var b := Bound(k, |s|);
    assert Take(s, k) == s[..b];
    assert Drop(s, k) == s[b..];
    assert s[..b] + s[b..] == s;
  }

  /** `s[:k]` for `0 <= k`: the first `k` items, or all of them. */
  lemma {:induction false} TakePrefix<T>(s: seq<T>, k: int)
    requires 0 <= k
    ensures Take(s, k) == if k <= |s| then s[..k] else s
  {
  }

  /** `s[-m:]` for `0 < m`: the last `m` items, or all of them; `s[-0:]` is
      the whole list. */
  lemma {:induction false} DropLast<T>(s: seq<T>, m: int)
    requires 0 <= m
    ensures Drop(s, -m) == if m == 0 || |s| <= m then s else s[|s| - m..]
  {
  }

  /** `s[:-m]` for `0 < m`: all but the last `m` items; `s[:-0]` is empty. */
  lemma {:induction false} TakeAllButLast<T>(s: seq<T>, m: int)
    requires 0 <= m
    ensures Take(s, -m) == if m == 0 || |s| <= m then [] else s[..|s| - m]
  {
  }

  /** `s[:k]` and `s[k:]` for `-len(s) <= k < 0` cut `-k` items from the
      end. */
  lemma {:induction false} CutFromEnd<T>(s: seq<T>, k: int)
    requires -|s| <= k < 0
    ensures Take(s, k) == s[..|s| + k] && Drop(s, k) == s[|s| + k..]
  {
  }
}
