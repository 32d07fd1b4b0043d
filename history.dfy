// The bounded history of index.mjs:99-102: push, then drop the oldest entry
// once when the length exceeds `maxHistory`. Its meaning is a window: the
// retained entries are the most recent ones, oldest first.

module History {

  /** How many entries the history can hold for a given `maxHistory`. Since
      the code drops an entry whenever the length exceeds `maxHistory`, a
      zero or negative setting keeps nothing. */
  function Capacity(maxHistory: int): (n: nat)
    ensures maxHistory >= 0 ==> n == maxHistory
    ensures maxHistory < 0 ==> n == 0
  {
    if maxHistory < 0 then 0 else maxHistory
  }

  /** The last `n` elements of `s` (all of `s` if it is shorter). */
  function Window<T>(s: seq<T>, n: nat): (w: seq<T>)
    ensures |w| <= n && |w| <= |s|
    ensures |w| == n || |w| == |s|
  {
    if |s| <= n then s else s[|s| - n..]
  }

  /** The window is the tail of the sequence: its elements are the most
      recent ones, in their original order. */
  lemma WindowIsSuffix<T>(s: seq<T>, n: nat)
    ensures s == s[..|s| - |Window(s, n)|] + Window(s, n)
    ensures forall i :: 0 <= i < |Window(s, n)| ==> Window(s, n)[i] == s[|s| - |Window(s, n)| + i]
  {
  }

  /** A window's last element is the last element of the whole sequence. */
  lemma WindowLast<T>(s: seq<T>, n: nat)
    requires n > 0 && |s| > 0
    ensures |Window(s, n)| > 0
    ensures Window(s, n)[|Window(s, n)| - 1] == s[|s| - 1]
  {
  }

  /** One push with a single eviction, as `_pushHistory` does it, gives the
      window of the history extended by the new entry, provided the history
      was within its capacity. */
  lemma PushShiftIsWindow<T>(h: seq<T>, e: T, maxHistory: int)
    requires |h| <= Capacity(maxHistory)
    ensures |h + [e]| > maxHistory ==> (h + [e])[1..] == Window(h + [e], Capacity(maxHistory))
    ensures |h + [e]| <= maxHistory ==> h + [e] == Window(h + [e], Capacity(maxHistory))
  {
  }

  /** Pushing onto a history that has room keeps every entry. */
  lemma WindowPushRoom<T>(h: seq<T>, e: T, n: nat)
    requires |h| < n
    ensures Window(h + [e], n) == h + [e]
  {
  }

  /** Pushing onto a full history evicts exactly the oldest entry. */
  lemma WindowPushFull<T>(h: seq<T>, e: T, n: nat)
    requires |h| == n > 0
    ensures Window(h + [e], n) == h[1..] + [e]
  {
    assert (h + [e])[|h| + 1 - n..] == h[1..] + [e];
  }

  /** Sliding a window one element at a time gives the window of the whole
      sequence: what is retained never depends on what was evicted. */
  lemma WindowSlide<T>(s: seq<T>, e: T, n: nat)
    ensures Window(Window(s, n) + [e], n) == Window(s + [e], n)
  {
    var w := Window(s, n);
    if |s| + 1 > n && |w| == n && n > 0 {
      assert Window(w + [e], n) == w[1..] + [e];
      assert w[1..] == s[|s| - n + 1..];
      assert Window(s + [e], n) == (s + [e])[|s| + 1 - n..];
      assert (s + [e])[|s| + 1 - n..] == s[|s| + 1 - n..] + [e];
    }
  }
}
