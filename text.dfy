/**
 * The string operations the crawler borrows from Python's `str`:
 * `p in s` (substring test), `s.split(c)`, `s.strip()`, `s.strip('/')`
 * and `s.lower()`.
 */
module Text {

  /** `p` occurs in `s` at offset `i`. */
  ghost predicate OccursAt(p: string, s: string, i: int)
  {
    0 <= i && i + |p| <= |s| && s[i..i + |p|] == p
  }

  /** Python's `p in s` for two strings: some slice of `s` equals `p`. */
  function Contains(s: string, p: string): (r: bool)
    ensures r <==> exists i :: OccursAt(p, s, i)
    decreases |s|
  {
    if |p| > |s| then
      false
    else if s[..|p|] == p then
      assert OccursAt(p, s, 0);
      true
    else
      var r := Contains(s[1..], p);
      if r then
        assert exists i :: OccursAt(p, s, i) by {
          var i :| OccursAt(p, s[1..], i);
          assert s[1..][i..i + |p|] == s[i + 1..i + 1 + |p|];
          assert OccursAt(p, s, i + 1);
        }
        r
      else
        assert !OccursAt(p, s, 0);
        forall i | 0 < i && OccursAt(p, s, i) ensures OccursAt(p, s[1..], i - 1) {
          assert s[1..][i - 1..i - 1 + |p|] == s[i..i + |p|];
        }
        r
  }

  /** Joins pieces with a separator character (the inverse of `Split`). */
  function Join(parts: seq<string>, sep: char): string
  {
    if |parts| == 0 then ""
    else if |parts| == 1 then parts[0]
    else parts[0] + [sep] + Join(parts[1..], sep)
  }

  /**
   * Python's `s.split(sep)` for a one-character separator: the maximal pieces
   * between separators, so `"".split(",") == [""]` and `"a,,b"` gives an empty
   * middle piece.
   */
  function Split(s: string, sep: char): (parts: seq<string>)
    ensures |parts| >= 1
    ensures forall k :: 0 <= k < |parts| ==> sep !in parts[k]
    ensures Join(parts, sep) == s
    decreases |s|
  {
    if sep !in s then
      [s]
    else
      var i := IndexOf(s, sep);
      var rest := Split(s[i + 1..], sep);
      assert s == s[..i] + [sep] + s[i + 1..];
      [s[..i]] + rest
  }

  /** Position of the first occurrence of `c` in `s`. */
  function IndexOf(s: string, c: char): (i: nat)
    requires c in s
    ensures i < |s| && s[i] == c && c !in s[..i]
  {
    if s[0] == c then 0 else IndexOf(s[1..], c) + 1
  }

  /** The characters Python's `str.isspace()` accepts (the Unicode White_Space set it uses). */
  predicate IsSpace(c: char)
  {
    var n := c as int;
    (9 <= n <= 13) || (28 <= n <= 32) || n == 0x85 || n == 0xA0 || n == 0x1680
    || (0x2000 <= n <= 0x200A) || n == 0x2028 || n == 0x2029 || n == 0x202F
    || n == 0x205F || n == 0x3000
  }

  predicate IsSlash(c: char)
  {
    c == '/'
  }

  /**
   * Removes every leading and trailing character that `drop` accepts:
   * `s.strip()` with `drop == IsSpace`, `s.strip('/')` with `drop == IsSlash`.
   * Neither end of the result can be dropped any further; `StripIsMiddle`
   * shows that the result is the middle part of `s`.
   */
  function Strip(s: string, drop: char -> bool): (r: string)
    ensures |r| <= |s|
    ensures r != [] ==> !drop(r[0]) && !drop(r[|r| - 1])
  {
    var i := LeadingCount(s, drop);
    var n := TrailingCount(s[i..], drop);
    s[i..][..|s[i..]| - n]
  }

  /**
   * `s[i..j]` is `s` with its dropped ends cut off: only dropped characters
   * lie outside the slice, and neither end of a non-empty slice is dropped.
   */
  ghost predicate TrimmedAt(s: string, drop: char -> bool, i: int, j: int)
  {
    && 0 <= i <= j <= |s|
    && (forall k :: 0 <= k < i ==> drop(s[k]))
    && (forall k :: j <= k < |s| ==> drop(s[k]))
    && (i < j ==> !drop(s[i]) && !drop(s[j - 1]))
  }

  /** Strip removes only dropped characters, only at the two ends, and all of them. */
  lemma StripIsMiddle(s: string, drop: char -> bool)
    ensures exists i, j :: TrimmedAt(s, drop, i, j) && Strip(s, drop) == s[i..j]
  {
    var i := LeadingCount(s, drop);
    var t := s[i..];
    var n := TrailingCount(t, drop);
    var j := |s| - n;
    assert t[..|t| - n] == s[i..j];
    forall k | j <= k < |s| ensures drop(s[k]) {
      assert s[k] == t[k - i];
    }
    if i < j {
      assert !drop(s[i]);
      assert s[j - 1] == t[|t| - n - 1];
    }
    assert TrimmedAt(s, drop, i, j);
  }

  /** Number of leading characters of `s` that `drop` accepts. */
  function LeadingCount(s: string, drop: char -> bool): (n: nat)
    ensures n <= |s|
    ensures forall k :: 0 <= k < n ==> drop(s[k])
    ensures n < |s| ==> !drop(s[n])
  {
    if s == [] || !drop(s[0]) then 0 else 1 + LeadingCount(s[1..], drop)
  }

  /** Number of trailing characters of `s` that `drop` accepts. */
  function TrailingCount(s: string, drop: char -> bool): (n: nat)
    ensures n <= |s|
    ensures forall k :: |s| - n <= k < |s| ==> drop(s[k])
    ensures n < |s| ==> !drop(s[|s| - n - 1])
  {
    if s == [] || !drop(s[|s| - 1]) then 0 else 1 + TrailingCount(s[..|s| - 1], drop)
  }

  /** ASCII part of Python's `str.lower()`. */
  function LowerChar(c: char): char
  {
    if 'A' <= c <= 'Z' then (c as int + 32) as char else c
  }

  function Lower(s: string): (r: string)
    ensures |r| == |s|
    ensures forall k :: 0 <= k < |s| ==> r[k] == LowerChar(s[k])
  {
    if s == [] then [] else [LowerChar(s[0])] + Lower(s[1..])
  }

  /** A string without ASCII capitals is its own lower-case form. */
  lemma {:induction false} LowerOfLowercase(s: string)
    requires forall k :: 0 <= k < |s| ==> !('A' <= s[k] <= 'Z')
    ensures Lower(s) == s
  {
    if s != [] {
      LowerOfLowercase(s[1..]);
      assert s == [s[0]] + s[1..];
    }
  }
}
