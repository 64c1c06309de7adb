/**
 * The few pieces of Kotlin's string library the part-lookup code relies on:
 * `split` on one character, `trim`, `substringAfterLast`, `lowercase` and
 * `equals(ignoreCase = true)`. Case folding is ASCII-only.
 */
module Text {

  /** Kotlin's `s.startsWith(prefix)`. */
  predicate StartsWith(s: string, prefix: string) {
    |prefix| <= |s| && s[..|prefix|] == prefix
  }

  /** Index of the first occurrence of `c` in `s`. */
  function IndexOf(s: string, c: char): (i: nat)
    requires c in s
    ensures i < |s| && s[i] == c
    ensures c !in s[..i]
  {
    if s[0] == c then 0
    else
      var j := IndexOf(s[1..], c);
      assert s[..1 + j] == [s[0]] + s[1..][..j];
      1 + j
  }

  /** The first occurrence is the one with no occurrence before it. */
  lemma {:induction false} IndexOfAt(s: string, c: char, i: nat)
    requires i < |s| && s[i] == c && c !in s[..i]
    ensures IndexOf(s, c) == i
  {
    if i > 0 {
      assert s[0] in s[..i];
      assert s[1..][..i - 1] == s[1..i];
      IndexOfAt(s[1..], c, i - 1);
    }
  }

  /** Index of the last occurrence of `c` in `s`. */
  function LastIndexOf(s: string, c: char): (i: nat)
    requires c in s
    ensures i < |s| && s[i] == c
    ensures c !in s[i + 1..]
  {
    if s[|s| - 1] == c then |s| - 1
    else
      var j := LastIndexOf(s[..|s| - 1], c);
      assert s[j + 1..] == s[..|s| - 1][j + 1..] + [s[|s| - 1]];
      j
  }

  /**
   * Kotlin's `s.split(sep.toString())`: the pieces between separators, empty
   * pieces (also leading and trailing ones) included; there is always at least one.
   */
  function Split(s: string, sep: char): (r: seq<string>)
    ensures |r| >= 1
    ensures forall i :: 0 <= i < |r| ==> sep !in r[i]
  {
    if s == [] then [[]]
    else
      var rest := Split(s[1..], sep);
      if s[0] == sep then [[]] + rest
      else [[s[0]] + rest[0]] + rest[1..]
  }

  /** The inverse of `Split`: the pieces glued back with the separator. */
  function Join(parts: seq<string>, sep: char): string
    requires |parts| >= 1
  {
    if |parts| == 1 then parts[0] else parts[0] + [sep] + Join(parts[1..], sep)
  }

  lemma {:induction false} JoinSplit(s: string, sep: char)
    ensures Join(Split(s, sep), sep) == s
  {
    if s != [] {
      JoinSplit(s[1..], sep);
      var rest := Split(s[1..], sep);
      if s[0] != sep && |rest| > 1 {
        assert Split(s, sep)[1..] == rest[1..];
      }
    }
  }

  /** Splitting at the first separator: a string with no separator is one piece. */
  lemma {:induction false} SplitAtFirst(s: string, sep: char)
    ensures sep !in s ==> Split(s, sep) == [s]
    ensures sep in s ==>
      Split(s, sep) == [s[..IndexOf(s, sep)]] + Split(s[IndexOf(s, sep) + 1..], sep)
  {
    if s != [] && s[0] != sep {
      var t := s[1..];
      SplitAtFirst(t, sep);
      var rest := Split(t, sep);
      assert Split(s, sep) == [[s[0]] + rest[0]] + rest[1..];
      if sep in s {
        var j := IndexOf(t, sep);
        assert IndexOf(s, sep) == 1 + j;
        assert rest == [t[..j]] + Split(t[j + 1..], sep);
        assert t[j + 1..] == s[1 + j + 1..];
        assert [s[0]] + t[..j] == s[..1 + j];
      } else {
        assert rest == [t];
        assert [s[0]] + t == s;
      }
    }
  }

  /** Separator-free pieces survive a `Join` followed by a `Split`. */
  lemma {:induction false} SplitJoin(parts: seq<string>, sep: char)
    requires |parts| >= 1
    requires forall i :: 0 <= i < |parts| ==> sep !in parts[i]
    ensures Split(Join(parts, sep), sep) == parts
  {
    if |parts| == 1 {
      SplitAtFirst(parts[0], sep);
    } else {
      var s := Join(parts, sep);
      var tail := Join(parts[1..], sep);
      assert s == parts[0] + [sep] + tail;
      assert s[|parts[0]|] == sep;
      assert s[..|parts[0]|] == parts[0];
      assert sep in s;
      SplitAtFirst(s, sep);
      var i := IndexOf(s, sep);
      assert i == |parts[0]|;
      assert s[i + 1..] == tail;
      SplitJoin(parts[1..], sep);
      assert parts == [parts[0]] + parts[1..];
    }
  }

  /** The first piece of `Split(s, sep)`. */
  function FirstField(s: string, sep: char): string {
    if sep in s then s[..IndexOf(s, sep)] else s
  }

  /** The text after the first separator, when there is one. */
  function AfterFirst(s: string, sep: char): string
    requires sep in s
  {
    s[IndexOf(s, sep) + 1..]
  }

  /**
   * The first two pieces of `Split(s, sep)`: there is a second one exactly
   * when `s` holds a separator, and it runs to the next separator.
   */
  lemma SplitFields(s: string, sep: char)
    ensures Split(s, sep)[0] == FirstField(s, sep)
    ensures |Split(s, sep)| >= 2 <==> sep in s
    ensures sep in s ==> Split(s, sep)[1] == FirstField(AfterFirst(s, sep), sep)
  {
    SplitAtFirst(s, sep);
    if sep in s {
      var i := IndexOf(s, sep);
      var rest := s[i + 1..];
      assert AfterFirst(s, sep) == rest;
      assert Split(s, sep) == [s[..i]] + Split(rest, sep);
      SplitAtFirst(rest, sep);
      assert Split(rest, sep)[0] == FirstField(rest, sep);
      assert Split(s, sep)[1] == Split(rest, sep)[0];
    } else {
      assert Split(s, sep) == [s];
    }
  }

  /**
   * Kotlin's `Char.isWhitespace()`: Java's `Character.isWhitespace` or
   * `Character.isSpaceChar`, listed by code point.
   */
  predicate IsWhitespace(c: char) {
    var n := c as int;
    (9 <= n <= 13) || (0x1C <= n <= 0x20) || n == 0xA0 || n == 0x1680
    || (0x2000 <= n <= 0x200A) || n == 0x2028 || n == 0x2029 || n == 0x202F
    || n == 0x205F || n == 0x3000
  }

  /**
   * The bounds `trim()` settles on within `s[lo..hi]`: the start moves past
   * leading whitespace first, then the end moves back past trailing
   * whitespace. Only whitespace lies outside the bounds, and a non-empty
   * range neither starts nor ends with whitespace.
   */
  function TrimBounds(s: string, lo: nat, hi: nat): (r: (nat, nat))
    requires lo <= hi <= |s|
    ensures lo <= r.0 <= r.1 <= hi
    ensures forall i :: lo <= i < r.0 ==> IsWhitespace(s[i])
    ensures forall i :: r.1 <= i < hi ==> IsWhitespace(s[i])
    ensures r.0 < r.1 ==> !IsWhitespace(s[r.0]) && !IsWhitespace(s[r.1 - 1])
    decreases hi - lo
  {
    if lo < hi && IsWhitespace(s[lo]) then TrimBounds(s, lo + 1, hi)
    else if lo < hi && IsWhitespace(s[hi - 1]) then TrimBounds(s, lo, hi - 1)
    else (lo, hi)
  }

  /**
   * Kotlin's `trim()`: the slice of `s` left once its leading and trailing
   * whitespace are cut off. Everything before and after the slice is
   * whitespace, and the slice neither starts nor ends with whitespace, which
   * fixes it.
   */
  function Trim(s: string): (r: string)
    ensures |r| <= |s|
    ensures r == [] || (!IsWhitespace(r[0]) && !IsWhitespace(r[|r| - 1]))
    ensures r == [] ==> forall i :: 0 <= i < |s| ==> IsWhitespace(s[i])
    ensures exists a, b ::
      && 0 <= a <= b <= |s| && r == s[a..b]
      && (forall i :: 0 <= i < a ==> IsWhitespace(s[i]))
      && (forall i :: b <= i < |s| ==> IsWhitespace(s[i]))
  {
    var bounds := TrimBounds(s, 0, |s|);
    s[bounds.0..bounds.1]
  }

  /** A string whose ends are not whitespace is its own trim; so `Trim` is idempotent. */
  lemma TrimKeeps(s: string)
    requires s == [] || (!IsWhitespace(s[0]) && !IsWhitespace(s[|s| - 1]))
    ensures Trim(s) == s
  {
    assert TrimBounds(s, 0, |s|) == (0, |s|);
    assert s[0..|s|] == s;
  }

  lemma TrimIdempotent(s: string)
    ensures Trim(Trim(s)) == Trim(s)
  {
    var t := Trim(s);
    assert t == [] || (!IsWhitespace(t[0]) && !IsWhitespace(t[|t| - 1]));
    TrimKeeps(t);
  }

  /** ASCII lower case; every other character is left alone. */
  function LowerAscii(c: char): (r: char)
    ensures 'A' <= c <= 'Z' ==> r as int == c as int + 32
    ensures !('A' <= c <= 'Z') ==> r == c
  {
    if 'A' <= c <= 'Z' then (c as int + 32) as char else c
  }

  /** Kotlin's `lowercase()`, restricted to ASCII letters. */
  function Lower(s: string): (r: string)
    ensures |r| == |s|
    ensures forall i :: 0 <= i < |s| ==> r[i] == LowerAscii(s[i])
  {
    if s == [] then [] else [LowerAscii(s[0])] + Lower(s[1..])
  }

  /** Lowering never makes or removes a character that `LowerAscii` fixes, such as '.'. */
  lemma LowerKeepsPunctuation(s: string, c: char)
    requires !('A' <= c <= 'Z') && !('a' <= c <= 'z')
    ensures c in Lower(s) <==> c in s
  {
    if c in Lower(s) {
      var i :| 0 <= i < |s| && Lower(s)[i] == c;
      assert s[i] == c;
    }
    if c in s {
      var i :| 0 <= i < |s| && s[i] == c;
      assert Lower(s)[i] == c;
    }
  }

  /** Kotlin's `a.equals(b, ignoreCase = true)` on ASCII letters. */
  predicate EqualsIgnoreCase(a: string, b: string) {
    |a| == |b| && forall i :: 0 <= i < |a| ==> LowerAscii(a[i]) == LowerAscii(b[i])
  }

  /** Case-insensitive equality is equality after lowering both sides. */
  lemma EqualsIgnoreCaseLower(a: string, b: string)
    ensures EqualsIgnoreCase(a, b) <==> Lower(a) == Lower(b)
  {
    if Lower(a) == Lower(b) {
      assert forall i :: 0 <= i < |a| ==> Lower(a)[i] == Lower(b)[i];
    }
  }
}
