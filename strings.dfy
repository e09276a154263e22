/** The few pieces of Python's `str` that the parsers rely on, written out
    with Python's own semantics: `startswith`, `find` with a start index,
    slicing with negative indices, `strip()` and `"".join`. */
module Strings {

  /** `s.startswith(prefix)` */
  predicate StartsWith(s: string, prefix: string)
  {
    |prefix| <= |s| && s[..|prefix|] == prefix
  }

  /** `s.find(c, start)`: an index at or after `start` holding `c`, or -1
      (`FindFirst` shows it is the first such index, and -1 only when there
      is none). */
  function Find(s: string, c: char, start: nat): (r: int)
    ensures r == -1 || (start <= r < |s| && s[r] == c)
    decreases |s| - start
  {
    if start >= |s| then -1
    else if s[start] == c then start
    else Find(s, c, start + 1)
  }

  /** `find` returns -1 exactly when `c` does not occur at or after `start`,
      and otherwise the first index where it occurs. */
  lemma {:induction false} FindFirst(s: string, c: char, start: nat)
    ensures Find(s, c, start) == -1 <==> forall k :: start <= k < |s| ==> s[k] != c
    ensures Find(s, c, start) != -1 ==> forall k :: start <= k < Find(s, c, start) ==> s[k] != c
    decreases |s| - start
  {
    if start < |s| && s[start] != c {
      FindFirst(s, c, start + 1);
    }
  }

  /** Python's normalisation of one slice bound: a negative bound counts
      from the end, and the result is clamped to `[0, n]`. */
  function SliceBound(k: int, n: nat): (b: nat)
    ensures b <= n
  {
    if k < 0 then (if k + n < 0 then 0 else k + n)
    else if k > n then n
    else k
  }

  /** `s[i:j]` */
  function Slice(s: string, i: int, j: int): (r: string)
    ensures |r| <= |s|
    ensures 0 <= i <= j <= |s| ==> r == s[i..j]
    ensures 0 <= i && -|s| <= j < 0 && i <= j + |s| ==> r == s[i..j + |s|]
    ensures 0 <= j <= i ==> r == []
    ensures SliceBound(j, |s|) <= SliceBound(i, |s|) ==> r == []
  {
    var lo, hi := SliceBound(i, |s|), SliceBound(j, |s|);
    if lo < hi then s[lo..hi] else []
  }

  /** The characters Python 2's `str.strip()` removes. */
  predicate IsSpace(c: char)
  {
    c == ' ' || c == '\t' || c == '\n' || c == '\r' || c == '\U{0B}' || c == '\U{0C}'
  }

  /** `s.lstrip()` */
  function TrimStart(s: string): (r: string)
    ensures |r| <= |s|
    ensures r == [] || !IsSpace(r[0])
  {
    if s != [] && IsSpace(s[0]) then TrimStart(s[1..]) else s
  }

  /** `s.rstrip()` */
  function TrimEnd(s: string): (r: string)
    ensures |r| <= |s| && r == s[..|r|]
    ensures r == [] || !IsSpace(r[|r| - 1])
  {
    if s != [] && IsSpace(s[|s| - 1]) then TrimEnd(s[..|s| - 1]) else s
  }

  /** `s.strip()` */
  function Strip(s: string): (r: string)
    ensures |r| <= |s|
    ensures r == [] || (!IsSpace(r[0]) && !IsSpace(r[|r| - 1]))
  {
    TrimEnd(TrimStart(s))
  }

  /** `lstrip()` removes exactly the leading whitespace: the result is a
      suffix of the input, and everything before it is whitespace. */
  lemma {:induction false} TrimStartDrops(s: string)
    ensures TrimStart(s) == s[|s| - |TrimStart(s)|..]
    ensures forall k :: 0 <= k < |s| - |TrimStart(s)| ==> IsSpace(s[k])
  {
    if s != [] && IsSpace(s[0]) {
      TrimStartDrops(s[1..]);
    }
  }

  /** `rstrip()` removes exactly the trailing whitespace: the result is a
      prefix of the input, and everything after it is whitespace. */
  lemma {:induction false} TrimEndDrops(s: string)
    ensures TrimEnd(s) == s[..|TrimEnd(s)|]
    ensures forall k :: |TrimEnd(s)| <= k < |s| ==> IsSpace(s[k])
  {
    if s != [] && IsSpace(s[|s| - 1]) {
      TrimEndDrops(s[..|s| - 1]);
    }
  }

  /** `strip()` keeps a slice `s[lo..hi]` of the input and removes only
      whitespace on either side of it. */
  lemma StripDrops(s: string) returns (lo: nat, hi: nat)
    ensures lo <= hi <= |s| && Strip(s) == s[lo..hi]
    ensures forall k :: 0 <= k < lo ==> IsSpace(s[k])
    ensures forall k :: hi <= k < |s| ==> IsSpace(s[k])
  {
    var t := TrimStart(s);
    TrimStartDrops(s);
    TrimEndDrops(t);
    lo, hi := |s| - |t|, |s| - |t| + |TrimEnd(t)|;
    assert t == s[lo..];
    assert forall k :: hi <= k < |s| ==> s[k] == t[k - lo];
  }

  /** `"".join(parts)` */
  function Concat(parts: seq<string>): string
  {
    if parts == [] then "" else Concat(parts[..|parts| - 1]) + parts[|parts| - 1]
  }

  /** Joining a single string gives it back. */
  lemma ConcatOne(s: string)
    ensures Concat([s]) == s
  {
    assert [s][..0] == [];
    assert "" + s == s;
  }
}
