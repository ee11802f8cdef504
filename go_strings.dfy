/**
 * The subset of Go's `strings` package that the research agent relies on,
 * over `seq<char>`. Each `char` stands for one byte of a Go string, so `|s|`
 * is Go's `len(s)` and slicing is by position.
 */
module GoStrings {

  datatype Option<+T> = None | Some(value: T)

  datatype Result<+T, +E> = Ok(value: T) | Err(error: E)

  /** `sub` occurs in `s` starting at position `i`. */
  predicate OccursAt(s: string, sub: string, i: int) {
    0 <= i && i + |sub| <= |s| && s[i..i + |sub|] == sub
  }

  predicate HasPrefix(s: string, prefix: string) {
    |prefix| <= |s| && s[..|prefix|] == prefix
  }

  predicate HasSuffix(s: string, suffix: string) {
    |suffix| <= |s| && s[|s| - |suffix|..] == suffix
  }

  function IndexFrom(s: string, sub: string, k: nat): (r: int)
    ensures r == -1 ==> forall i :: k <= i ==> !OccursAt(s, sub, i)
    ensures r != -1 ==> k <= r && OccursAt(s, sub, r)
    ensures r != -1 ==> forall i :: k <= i < r ==> !OccursAt(s, sub, i)
    decreases |s| - k
  {
    if k + |sub| > |s| then -1
    else if s[k..k + |sub|] == sub then k
    else IndexFrom(s, sub, k + 1)
  }

  /** `strings.Index`: the first position of `sub` in `s`, or -1. */
  function Index(s: string, sub: string): (r: int)
    ensures r == -1 <==> forall i :: !OccursAt(s, sub, i)
    ensures r != -1 ==> OccursAt(s, sub, r) && forall i :: 0 <= i < r ==> !OccursAt(s, sub, i)
  {
    IndexFrom(s, sub, 0)
  }

  function LastIndexFrom(s: string, sub: string, k: int): (r: int)
    ensures r == -1 ==> forall i :: i <= k ==> !OccursAt(s, sub, i)
    ensures r != -1 ==> 0 <= r <= k && OccursAt(s, sub, r)
    ensures r != -1 ==> forall i :: r < i <= k ==> !OccursAt(s, sub, i)
    decreases k + 1
  {
    if k < 0 then -1
    else if OccursAt(s, sub, k) then k
    else LastIndexFrom(s, sub, k - 1)
  }

  /** `strings.LastIndex`: the last position of `sub` in `s`, or -1. */
  function LastIndex(s: string, sub: string): (r: int)
    ensures r == -1 <==> forall i :: !OccursAt(s, sub, i)
    ensures r != -1 ==> OccursAt(s, sub, r) && forall i :: r < i ==> !OccursAt(s, sub, i)
  {
    LastIndexFrom(s, sub, |s| - |sub|)
  }

  /** `strings.Contains`. */
  function Contains(s: string, sub: string): (r: bool)
    ensures r <==> exists i :: OccursAt(s, sub, i)
  {
    Index(s, sub) != -1
  }

  /**
   * The single-byte white space of `strings.TrimSpace`: space, tab, newline,
   * carriage return, vertical tab and form feed. Multi-byte Unicode spaces
   * are not single bytes and are not trimmed here.
   */
  const SpaceChars: set<char> := {' ', '\t', '\n', '\r', '\U{000B}', '\U{000C}'}

  predicate IsSpace(c: char) {
    c in SpaceChars
  }

  /** The end of the run of white space in `s` that starts at `k`. */
  function SpaceRunEnd(s: string, k: nat): (n: nat)
    requires k <= |s|
    ensures k <= n <= |s|
    ensures forall j :: k <= j < n ==> IsSpace(s[j])
    ensures n == |s| || !IsSpace(s[n])
    decreases |s| - k
  {
    if k < |s| && IsSpace(s[k]) then SpaceRunEnd(s, k + 1) else k
  }

  /** The start of the run of white space in `s[lo..e]` that ends at `e`. */
  function SpaceRunStart(s: string, lo: nat, e: nat): (n: nat)
    requires lo <= e <= |s|
    ensures lo <= n <= e
    ensures forall j :: n <= j < e ==> IsSpace(s[j])
    ensures n == lo || !IsSpace(s[n - 1])
    decreases e
  {
    if e > lo && IsSpace(s[e - 1]) then SpaceRunStart(s, lo, e - 1) else e
  }

  /** `s` trims to `r`, which starts at position `i` of `s`: only white space is cut off. */
  predicate TrimsTo(s: string, i: int, r: string) {
    OccursAt(s, r, i)
    && (forall j :: 0 <= j < i ==> IsSpace(s[j]))
    && (forall j :: i + |r| <= j < |s| ==> IsSpace(s[j]))
  }

  ghost predicate IsTrimOf(s: string, r: string) {
    exists i :: TrimsTo(s, i, r)
  }

  /**
   * `strings.TrimSpace`: the slice of `s` left after dropping its leading and
   * trailing white space.
   */
  function TrimSpace(s: string): (r: string)
    ensures IsTrimOf(s, r)
    ensures r == [] || (!IsSpace(r[0]) && !IsSpace(r[|r| - 1]))
  {
    var start := SpaceRunEnd(s, 0);
    var stop := SpaceRunStart(s, start, |s|);
    assert TrimsTo(s, start, s[start..stop]);
    s[start..stop]
  }

  /** `strings.TrimSuffix`: drops one copy of `suffix` from the end, if there. */
  function TrimSuffix(s: string, suffix: string): (r: string)
    ensures HasSuffix(s, suffix) ==> r + suffix == s
    ensures !HasSuffix(s, suffix) ==> r == s
  {
    if HasSuffix(s, suffix) then s[..|s| - |suffix|] else s
  }

  /** ASCII letters are lower-cased; every other character is left alone. */
  function LowerChar(c: char): (r: char)
    ensures 'A' <= c <= 'Z' ==> 'a' <= r <= 'z' && r as int == c as int + 32
    ensures !('A' <= c <= 'Z') ==> r == c
  {
    if 'A' <= c <= 'Z' then (c as int + 32) as char else c
  }

  /** `strings.ToLower`, restricted to ASCII. */
  function ToLower(s: string): (r: string)
    ensures |r| == |s|
    ensures forall i :: 0 <= i < |s| ==> r[i] == LowerChar(s[i])
  {
    seq(|s|, i requires 0 <= i < |s| => LowerChar(s[i]))
  }

  /**
   * `strings.ReplaceAll`: non-overlapping occurrences of `pat`, found left to
   * right, are replaced by `rep`. As in Go, an empty `pat` inserts `rep` before
   * every character and at the end.
   */
  function ReplaceAll(s: string, pat: string, rep: string): string
    decreases |s|
  {
    if pat == [] then
      if s == [] then rep else rep + [s[0]] + ReplaceAll(s[1..], pat, rep)
    else if s == [] then []
    else if HasPrefix(s, pat) then rep + ReplaceAll(s[|pat|..], pat, rep)
    else [s[0]] + ReplaceAll(s[1..], pat, rep)
  }

  /** A one-character `ReplaceAll` rewrites character by character. */
  lemma {:induction false} ReplaceCharPointwise(s: string, a: char, b: char)
    ensures |ReplaceAll(s, [a], [b])| == |s|
    ensures forall i :: 0 <= i < |s| ==> ReplaceAll(s, [a], [b])[i] == if s[i] == a then b else s[i]
  {
    if s != [] {
      ReplaceCharPointwise(s[1..], a, b);
      assert HasPrefix(s, [a]) <==> s[0] == a;
      assert s[|[a]|..] == s[1..];
    }
  }

  /** `strings.Count(s, [c])`: how many times `c` occurs in `s`. */
  function CountChar(s: string, c: char): (r: nat)
    ensures r == multiset(s)[c]
  {
    if s == [] then 0
    else
      assert s == [s[0]] + s[1..];
      (if s[0] == c then 1 else 0) + CountChar(s[1..], c)
  }

  /**
   * `strings.Trim(s, cutset)` for a one-character cut set: every leading and
   * trailing `c` is removed.
   */
  function TrimChar(s: string, c: char): (r: string)
    ensures r == [] || (r[0] != c && r[|r| - 1] != c)
    ensures |r| <= |s|
    decreases |s|
  {
    if s != [] && s[0] == c then TrimChar(s[1..], c)
    else if s != [] && s[|s| - 1] == c then TrimChar(s[..|s| - 1], c)
    else s
  }

  /** `s` trims to `r`, which starts at position `i` of `s`: only copies of `c` are cut off. */
  predicate CutsTo(s: string, c: char, i: int, r: string) {
    OccursAt(s, r, i)
    && (forall j :: 0 <= j < i ==> s[j] == c)
    && (forall j :: i + |r| <= j < |s| ==> s[j] == c)
  }

  /** What `TrimChar` keeps is a piece of its input, and only copies of `c` are cut from either end. */
  lemma {:induction false} TrimCharInside(s: string, c: char)
    ensures exists i :: CutsTo(s, c, i, TrimChar(s, c))
    decreases |s|
  {
    var r := TrimChar(s, c);
    if s != [] && s[0] == c {
      TrimCharInside(s[1..], c);
      var i :| CutsTo(s[1..], c, i, r);
      assert s[1..][i..i + |r|] == s[i + 1..i + 1 + |r|];
      forall j | 0 <= j < i + 1
        ensures s[j] == c
      {
        if j > 0 {
          assert s[j] == s[1..][j - 1];
        }
      }
      forall j | i + 1 + |r| <= j < |s|
        ensures s[j] == c
      {
        assert s[j] == s[1..][j - 1];
      }
      assert CutsTo(s, c, i + 1, r);
    } else if s != [] && s[|s| - 1] == c {
      TrimCharInside(s[..|s| - 1], c);
      var i :| CutsTo(s[..|s| - 1], c, i, r);
      assert s[..|s| - 1][i..i + |r|] == s[i..i + |r|];
      forall j | i + |r| <= j < |s|
        ensures s[j] == c
      {
        if j < |s| - 1 {
          assert s[j] == s[..|s| - 1][j];
        }
      }
      assert CutsTo(s, c, i, r);
    } else {
      assert CutsTo(s, c, 0, s);
    }
  }

  /** The concatenation of a sequence of strings. */
  function Concat(parts: seq<string>): (r: string)
    ensures |r| == 0 <==> forall i :: 0 <= i < |parts| ==> parts[i] == []
  {
    if parts == [] then [] else parts[0] + Concat(parts[1..])
  }

  /** `strings.Join`. */
  function Join(parts: seq<string>, sep: string): string {
    if parts == [] then []
    else if |parts| == 1 then parts[0]
    else parts[0] + sep + Join(parts[1..], sep)
  }

  function DigitChar(d: nat): char
    requires d < 10
  {
    "0123456789"[d]
  }

  /** `fmt`'s `%d` for a non-negative number. */
  function NatToString(n: nat): (r: string)
    ensures |r| >= 1
    ensures forall i :: 0 <= i < |r| ==> '0' <= r[i] <= '9'
  {
    if n < 10 then [DigitChar(n)] else NatToString(n / 10) + [DigitChar(n % 10)]
  }
}
