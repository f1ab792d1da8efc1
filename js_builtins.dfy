/** The few JavaScript built-ins the page logic relies on, stated on Dafny strings and sequences. */
module JsBuiltins {
  import opened Wrappers

  /** The ECMAScript WhiteSpace and LineTerminator code points: what the regex class `\s` matches
      and what `String.prototype.trim` strips. */
  predicate IsWhitespace(c: char) {
    || c == '\t' || c == '\n' || c == '\U{000B}' || c == '\U{000C}' || c == '\r' || c == ' '
    || c == '\U{00A0}' || c == '\U{1680}' || ('\U{2000}' <= c <= '\U{200A}')
    || c == '\U{2028}' || c == '\U{2029}' || c == '\U{202F}' || c == '\U{205F}'
    || c == '\U{3000}' || c == '\U{FEFF}'
  }

  /** `Array.prototype.indexOf` / `String.prototype.indexOf`: the first position of `x`, or -1. */
  function IndexOf<T(==)>(s: seq<T>, x: T): (r: int)
    ensures -1 <= r < |s|
    ensures r >= 0 ==> s[r] == x && forall k | 0 <= k < r :: s[k] != x
    ensures r == -1 <==> x !in s
  {
    if s == [] then -1
    else if s[0] == x then 0
    else
      var r := IndexOf(s[1..], x);
      if r == -1 then -1 else r + 1
  }

  /** The number of UTF-16 code units of a character: 2 (a surrogate pair) above U+FFFF. */
  function Units(c: char): nat {
    if c as int >= 0x1_0000 then 2 else 1
  }

  /** A JavaScript string's `length`: its UTF-16 code units. */
  function Utf16Length(s: string): nat {
    if s == [] then 0 else Units(s[0]) + Utf16Length(s[1..])
  }

  lemma {:induction false} Utf16LengthAppend(a: string, b: string)
    ensures Utf16Length(a + b) == Utf16Length(a) + Utf16Length(b)
  {
    if a == [] {
      assert a + b == b;
    } else {
      assert (a + b)[1..] == a[1..] + b;
      Utf16LengthAppend(a[1..], b);
    }
  }

  /** Code unit `n` of `s` falls inside a surrogate pair: the character at position `k` takes two
      units and the first `n` units end after its first one. */
  ghost predicate SplitsPairAt(s: string, n: int, k: int) {
    0 <= k < |s| && Units(s[k]) == 2 && Utf16Length(s[..k]) + 1 == n
  }

  ghost predicate SplitsPair(s: string, n: int) {
    exists k :: SplitsPairAt(s, n, k)
  }

  /** Dropping the first character moves every split point one position and its units left. */
  lemma SplitsPairShift(s: string, n: int)
    requires s != [] && Units(s[0]) <= n
    ensures SplitsPair(s, n) <==> SplitsPair(s[1..], n - Units(s[0]))
  {
    var t := s[1..];
    forall k | 0 < k <= |t|
      ensures Utf16Length(s[..k]) == Units(s[0]) + Utf16Length(t[..k - 1])
    {
      assert s[..k] == [s[0]] + t[..k - 1];
      Utf16LengthAppend([s[0]], t[..k - 1]);
    }
    if SplitsPair(s, n) {
      var k :| SplitsPairAt(s, n, k);
      assert k != 0;
      assert SplitsPairAt(t, n - Units(s[0]), k - 1);
    }
    if SplitsPair(t, n - Units(s[0])) {
      var k :| SplitsPairAt(t, n - Units(s[0]), k);
      assert SplitsPairAt(s, n, k + 1);
    }
  }

  /** `s.substring(0, n)`, counted in UTF-16 code units, for use by `encodeURIComponent`. When
      unit `n` falls inside a surrogate pair the substring ends in a lone surrogate, which
      `encodeURIComponent` rejects with a URIError: that is None. Otherwise the result is the
      longest prefix of at most `n` units, which is all of `s` or exactly `n` units long. */
  function Utf16Prefix(s: string, n: nat): (r: Option<string>)
    ensures r.None? <==> SplitsPair(s, n)
    ensures r.Some? ==> r.value <= s && Utf16Length(r.value) <= n
    ensures r.Some? ==> r.value == s || Utf16Length(r.value) == n
  {
    if s == [] then
      assert !SplitsPair(s, n);
      Some([])
    else if n == 0 then
      assert !SplitsPair(s, n);
      Some([])
    else if Units(s[0]) > n then
      assert SplitsPairAt(s, n, 0);
      None
    else
      SplitsPairShift(s, n);
      match Utf16Prefix(s[1..], n - Units(s[0]))
      case None => None
      case Some(t) =>
        assert ([s[0]] + t)[1..] == t;
        Some([s[0]] + t)
  }

  /** The number of whitespace characters at the start of `s`. */
  function LeadingWhitespace(s: string): (n: nat)
    ensures n <= |s|
    ensures forall k | 0 <= k < n :: IsWhitespace(s[k])
    ensures n < |s| ==> !IsWhitespace(s[n])
  {
    if s != [] && IsWhitespace(s[0]) then 1 + LeadingWhitespace(s[1..]) else 0
  }

  /** The number of whitespace characters at the end of `s`. */
  function TrailingWhitespace(s: string): (n: nat)
    ensures n <= |s|
    ensures forall k | |s| - n <= k < |s| :: IsWhitespace(s[k])
    ensures n < |s| ==> !IsWhitespace(s[|s| - 1 - n])
  {
    if s != [] && IsWhitespace(s[|s| - 1]) then 1 + TrailingWhitespace(s[..|s| - 1]) else 0
  }

  /** `r` is the infix of `s` that starts at `i`, and everything of `s` outside it is whitespace. */
  ghost predicate CutFrom(s: string, i: int, r: string) {
    && 0 <= i <= |s| - |r|
    && r == s[i..i + |r|]
    && (forall k | 0 <= k < i :: IsWhitespace(s[k]))
    && (forall k | i + |r| <= k < |s| :: IsWhitespace(s[k]))
  }

  /** `String.prototype.trim`: `s` without its leading and trailing whitespace. The result is an
      infix of `s` that starts and ends at non-whitespace, everything cut off being whitespace. */
  function Trim(s: string): (r: string)
    ensures r == [] || (!IsWhitespace(r[0]) && !IsWhitespace(r[|r| - 1]))
    ensures exists i :: CutFrom(s, i, r)
  {
    var lead := LeadingWhitespace(s);
    var rest := s[lead..];
    var r := rest[..|rest| - TrailingWhitespace(rest)];
    assert CutFrom(s, lead, r);
    r
  }
}
