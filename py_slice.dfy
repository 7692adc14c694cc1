/** Python's slice `s[start:]`, which the log buffer and the metrics history use with a
    negated limit, and a reference definition of "the last n elements". */
module PySlice {

  function Min(a: int, b: int): int {
    if a <= b then a else b
  }

  /** `s[start:]`: a negative start counts from the end; the result is clamped to `s`. */
  function Suffix<T>(s: seq<T>, start: int): (r: seq<T>)
    ensures |r| <= |s| && r == s[|s| - |r|..]
  {
    var i := if start < 0 then start + |s| else start;
    var j := if i < 0 then 0 else if i > |s| then |s| else i;
    s[j..]
  }

  /** The last `n` elements of `s`, collected from the back. */
  function LastN<T>(s: seq<T>, n: nat): seq<T>
    decreases |s|
  {
    if n == 0 || s == [] then [] else LastN(s[..|s| - 1], n - 1) + [s[|s| - 1]]
  }

  lemma {:induction false} LastNIsSuffix<T>(s: seq<T>, n: nat)
    ensures |LastN(s, n)| == Min(n, |s|)
    ensures LastN(s, n) == s[|s| - Min(n, |s|)..]
    decreases |s|
  {
    if n != 0 && s != [] {
      var p := s[..|s| - 1];
      LastNIsSuffix(p, n - 1);
      assert p[|p| - Min(n - 1, |p|)..] + [s[|s| - 1]] == s[|s| - Min(n, |s|)..];
    }
  }

  /** `s[-limit:]`. For a positive limit it is the last `min(limit, |s|)` elements; since
      `-0 == 0`, a zero limit gives the whole sequence; a negative limit drops a prefix. */
  function Tail<T>(s: seq<T>, limit: int): (r: seq<T>)
    ensures limit >= 1 ==> r == LastN(s, limit) && |r| == Min(limit, |s|)
    ensures limit == 0 ==> r == s
    ensures limit < 0 ==> r == s[Min(-limit, |s|)..]
  {
    if limit >= 1 then LastNIsSuffix(s, limit); Suffix(s, -limit) else Suffix(s, -limit)
  }

  /** Appending to a sequence and keeping the last `n`: below the bound nothing is dropped;
      at the bound exactly the oldest element is. */
  lemma {:induction false} LastNAfterAppend<T>(s: seq<T>, x: T, n: nat)
    requires n >= 1
    ensures |s| < n ==> LastN(s + [x], n) == s + [x]
    ensures |s| == n ==> LastN(s + [x], n) == s[1..] + [x]
    ensures |LastN(s + [x], n)| <= n
    ensures LastN(s + [x], n)[|LastN(s + [x], n)| - 1] == x
  {
    LastNIsSuffix(s + [x], n);
    var t := s + [x];
    if |s| == n {
      assert t[|t| - n..] == s[1..] + [x];
    }
  }
}
