/**
 * The JavaScript string primitives the airline core relies on: the `\s`
 * whitespace class and `trim`, `toLowerCase` (ASCII letters), `includes`,
 * decimal rendering of non-negative integers (`toString`, template
 * literals), `padStart`, the regular-expression replacement of
 * whitespace runs and `length`, which counts UTF-16 code units.
 */
module JsText {

  /** The characters of `\s` in a JavaScript regular expression; `trim` removes exactly these. */
  predicate IsJsWhitespace(c: char) {
    var n := c as int;
    (9 <= n <= 13) || n == 0x20 || n == 0xA0 || n == 0x1680 || (0x2000 <= n <= 0x200A)
    || n == 0x2028 || n == 0x2029 || n == 0x202F || n == 0x205F || n == 0x3000 || n == 0xFEFF
  }

  /** The UTF-16 code units a character takes: a surrogate pair above U+FFFF, one unit otherwise. */
  function Utf16Units(c: char): (n: nat)
    ensures n == 1 || n == 2
  {
    if c as int > 0xFFFF then 2 else 1
  }

  /** `s.length` in JavaScript: the number of UTF-16 code units, not of characters. */
  function Utf16Length(s: string): (n: nat)
    ensures |s| <= n <= 2 * |s|
  {
    if s == [] then 0 else Utf16Units(s[0]) + Utf16Length(s[1..])
  }

  /** The length of a concatenation is the sum of the lengths. */
  lemma {:induction false} Utf16LengthAppend(a: string, b: string)
    ensures Utf16Length(a + b) == Utf16Length(a) + Utf16Length(b)
  {
    if a != [] {
      assert (a + b)[1..] == a[1..] + b;
      Utf16LengthAppend(a[1..], b);
    } else {
      assert a + b == b;
    }
  }

  /** The code-unit length equals the character count exactly when no character lies above U+FFFF. */
  lemma {:induction false} Utf16LengthBmp(s: string)
    ensures Utf16Length(s) == |s| <==> forall i :: 0 <= i < |s| ==> s[i] as int <= 0xFFFF
  {
    if s != [] {
      Utf16LengthBmp(s[1..]);
      assert forall i :: 1 <= i < |s| ==> s[i] == s[1..][i - 1];
    }
  }

  /** Text made only of characters above U+FFFF is twice as long in code units as in characters. */
  lemma {:induction false} Utf16LengthAstral(s: string)
    requires forall i :: 0 <= i < |s| ==> s[i] as int > 0xFFFF
    ensures Utf16Length(s) == 2 * |s|
  {
    if s != [] {
      assert forall i :: 0 <= i < |s[1..]| ==> s[1..][i] == s[i + 1];
      Utf16LengthAstral(s[1..]);
    }
  }

  /** Every character is whitespace (the empty string included). */
  predicate IsBlank(s: string) {
    forall i :: 0 <= i < |s| ==> IsJsWhitespace(s[i])
  }

  /** `s` without its leading whitespace. */
  function TrimStart(s: string): (r: string)
    ensures |r| <= |s| && r == s[|s| - |r|..]
    ensures r != [] ==> !IsJsWhitespace(r[0])
    ensures forall i :: 0 <= i < |s| - |r| ==> IsJsWhitespace(s[i])
  {
    if s != [] && IsJsWhitespace(s[0]) then TrimStart(s[1..]) else s
  }

  /** `s` without its trailing whitespace. */
  function TrimEnd(s: string): (r: string)
    ensures |r| <= |s| && r == s[..|r|]
    ensures r != [] ==> !IsJsWhitespace(r[|r| - 1])
    ensures forall i :: |r| <= i < |s| ==> IsJsWhitespace(s[i])
  {
    if s != [] && IsJsWhitespace(s[|s| - 1]) then TrimEnd(s[..|s| - 1]) else s
  }

  /** `String.prototype.trim`. */
  function Trim(s: string): string {
    TrimEnd(TrimStart(s))
  }

  /** `!s.trim()` holds exactly for the strings made only of whitespace. */
  lemma {:induction false} TrimEmptyIffBlank(s: string)
    ensures Trim(s) == [] <==> IsBlank(s)
  {
    var t := TrimStart(s);
    if IsBlank(s) {
      if t != [] {
        assert false;
      }
      assert Trim(s) == TrimEnd([]);
    } else {
      var i :| 0 <= i < |s| && !IsJsWhitespace(s[i]);
      assert |s| - |t| <= i;
      assert t[i - (|s| - |t|)] == s[i];
      assert t != [] && !IsJsWhitespace(t[0]);
      assert TrimEnd(t) != [];
    }
  }

  /** `toLowerCase` on one character; only ASCII letters are modelled. */
  function LowerChar(c: char): char {
    if 'A' <= c <= 'Z' then (c as int + 32) as char else c
  }

  predicate IsUpperAscii(c: char) {
    'A' <= c <= 'Z'
  }

  /** `String.prototype.toLowerCase` restricted to ASCII letters. */
  function ToLower(s: string): (r: string)
    ensures |r| == |s|
    ensures forall i :: 0 <= i < |s| ==> r[i] == LowerChar(s[i])
  {
    seq(|s|, i requires 0 <= i < |s| => LowerChar(s[i]))
  }

  /** Lower-casing leaves no upper-case letter and does not touch whitespace. */
  lemma ToLowerFacts(s: string)
    ensures forall i :: 0 <= i < |s| ==> !IsUpperAscii(ToLower(s)[i])
    ensures forall i :: 0 <= i < |s| ==> (IsJsWhitespace(ToLower(s)[i]) <==> IsJsWhitespace(s[i]))
    ensures ToLower(ToLower(s)) == ToLower(s)
  {
  }

  predicate StartsWith(s: string, prefix: string) {
    |prefix| <= |s| && s[..|prefix|] == prefix
  }

  /** `String.prototype.includes`. */
  predicate Contains(s: string, sub: string)
    decreases |s|
  {
    StartsWith(s, sub) || (s != [] && Contains(s[1..], sub))
  }

  /** A string containing `longer` contains every prefix of `longer`. */
  lemma {:induction false} ContainsPrefixOf(s: string, longer: string, shorter: string)
    requires StartsWith(longer, shorter)
    requires Contains(s, longer)
    ensures Contains(s, shorter)
    decreases |s|
  {
    if StartsWith(s, longer) {
      assert s[..|shorter|] == longer[..|shorter|];
    } else {
      ContainsPrefixOf(s[1..], longer, shorter);
    }
  }

  /** A string contains every piece it was concatenated from. */
  lemma {:induction false} ContainsMiddle(a: string, b: string, c: string)
    ensures Contains(a + b + c, b)
    decreases |a|
  {
    if a == [] {
      assert a + b + c == b + c;
      assert (b + c)[..|b|] == b;
    } else {
      assert (a + b + c)[1..] == a[1..] + b + c;
      ContainsMiddle(a[1..], b, c);
    }
  }

  /** Text appended after a string does not hide what it contains. */
  lemma {:induction false} ContainsAppend(s: string, sub: string, tail: string)
    requires Contains(s, sub)
    ensures Contains(s + tail, sub)
    decreases |s|
  {
    if StartsWith(s, sub) {
      assert (s + tail)[..|sub|] == s[..|sub|];
    } else {
      ContainsAppend(s[1..], sub, tail);
      assert (s + tail)[1..] == s[1..] + tail;
    }
  }

  /** Text put in front of a string does not hide what it contains. */
  lemma {:induction false} ContainsPrepend(head: string, s: string, sub: string)
    requires Contains(s, sub)
    ensures Contains(head + s, sub)
    decreases |head|
  {
    if head != [] {
      ContainsPrepend(head[1..], s, sub);
      assert (head + s)[1..] == head[1..] + s;
    } else {
      assert head + s == s;
    }
  }

  predicate IsDigit(c: char) {
    '0' <= c <= '9'
  }

  predicate AllDigits(s: string) {
    forall i :: 0 <= i < |s| ==> IsDigit(s[i])
  }

  function DigitChar(d: nat): (c: char)
    requires d < 10
    ensures IsDigit(c)
  {
    ('0' as int + d) as char
  }

  function DigitValue(c: char): (d: nat)
    requires IsDigit(c)
    ensures d < 10
  {
    c as int - '0' as int
  }

  /** Decimal rendering of a non-negative integer (`n.toString()`, `${n}`). */
  function NatToString(n: nat): (s: string)
    ensures |s| >= 1 && AllDigits(s)
    decreases n
  {
    if n < 10 then [DigitChar(n)] else NatToString(n / 10) + [DigitChar(n % 10)]
  }

  /** Decimal rendering of an integer, with a leading '-' when negative. */
  function IntToString(n: int): string {
    if n < 0 then "-" + NatToString(-n) else NatToString(n)
  }

  /** The value of a string of decimal digits (leading zeros allowed). */
  function ParseNat(s: string): nat
    requires AllDigits(s)
  {
    if s == [] then 0 else ParseNat(s[..|s| - 1]) * 10 + DigitValue(s[|s| - 1])
  }

  /** Rendering a number in decimal and reading it back gives the number. */
  lemma {:induction false} ParseNatToString(n: nat)
    ensures ParseNat(NatToString(n)) == n
    decreases n
  {
    var s := NatToString(n);
    if n >= 10 {
      ParseNatToString(n / 10);
      assert s[..|s| - 1] == NatToString(n / 10);
    }
  }

  /** Leading zeros do not change the value read. */
  lemma {:induction false} ParseNatLeadingZeros(zeros: string, s: string)
    requires forall i :: 0 <= i < |zeros| ==> zeros[i] == '0'
    requires AllDigits(s)
    ensures AllDigits(zeros + s) && ParseNat(zeros + s) == ParseNat(s)
    decreases |s|
  {
    var t := zeros + s;
    if s == [] {
      assert t == zeros;
      ParseNatAllZeros(zeros);
    } else {
      assert t[..|t| - 1] == zeros + s[..|s| - 1];
      ParseNatLeadingZeros(zeros, s[..|s| - 1]);
    }
  }

  lemma {:induction false} ParseNatAllZeros(zeros: string)
    requires forall i :: 0 <= i < |zeros| ==> zeros[i] == '0'
    ensures AllDigits(zeros) && ParseNat(zeros) == 0
    decreases |zeros|
  {
    if zeros != [] {
      ParseNatAllZeros(zeros[..|zeros| - 1]);
    }
  }

  function Pow10(k: nat): (p: nat)
    ensures p >= 1
  {
    if k == 0 then 1 else 10 * Pow10(k - 1)
  }

  lemma Pow10Values()
    ensures Pow10(2) == 100 && Pow10(3) == 1000 && Pow10(5) == 100000 && Pow10(6) == 1000000
    ensures Pow10(7) == 10000000 && Pow10(8) == 100000000
  {
    assert Pow10(2) == 100;
    assert Pow10(4) == 10000;
    assert Pow10(6) == 1000000;
  }

  /** A number with exactly `k` decimal digits renders as `k` characters. */
  lemma {:induction false} NatToStringLength(n: nat, k: nat)
    requires 1 <= k
    requires (k == 1 || Pow10(k - 1) <= n) && n < Pow10(k)
    ensures |NatToString(n)| == k
    decreases k
  {
    if k > 1 {
      assert Pow10(k - 1) == 10 * Pow10(k - 2);
      assert n >= 10;
      NatToStringLength(n / 10, k - 1);
    }
  }

  /** A number below `10^k` renders in at most `k` characters. */
  lemma {:induction false} NatToStringLengthAtMost(n: nat, k: nat)
    requires 1 <= k && n < Pow10(k)
    ensures |NatToString(n)| <= k
    decreases k
  {
    if n >= 10 {
      assert k > 1;
      NatToStringLengthAtMost(n / 10, k - 1);
    }
  }

  /** `String.prototype.padStart(width, fill)`. */
  function PadStart(s: string, width: nat, fill: char): (r: string)
    ensures |s| <= |r| && |r| == (if |s| < width then width else |s|)
    ensures r[|r| - |s|..] == s
    ensures forall i :: 0 <= i < |r| - |s| ==> r[i] == fill
  {
    if |s| < width then seq(width - |s|, _ => fill) + s else s
  }

  /**
   * `s.replace(/\s+/g, sep)`: every maximal run of whitespace becomes the
   * single character `sep`. Scanning left to right, a whitespace character
   * followed by more whitespace is dropped and the last one of its run is
   * replaced by `sep`.
   */
  function ReplaceWhitespaceRuns(s: string, sep: char): (r: string)
    ensures |r| <= |s|
  {
    if s == [] then []
    else if !IsJsWhitespace(s[0]) then [s[0]] + ReplaceWhitespaceRuns(s[1..], sep)
    else if |s| > 1 && IsJsWhitespace(s[1]) then ReplaceWhitespaceRuns(s[1..], sep)
    else [sep] + ReplaceWhitespaceRuns(s[1..], sep)
  }

  /** With a separator that is not whitespace, the result has no whitespace. */
  lemma {:induction false} ReplaceWhitespaceRunsNoSpace(s: string, sep: char)
    requires !IsJsWhitespace(sep)
    ensures forall i :: 0 <= i < |ReplaceWhitespaceRuns(s, sep)| ==> !IsJsWhitespace(ReplaceWhitespaceRuns(s, sep)[i])
  {
    if s != [] {
      ReplaceWhitespaceRunsNoSpace(s[1..], sep);
    }
  }

  /** The replacement introduces no character but `sep`: every other character comes from the input. */
  lemma {:induction false} ReplaceWhitespaceRunsChars(s: string, sep: char)
    ensures forall i :: 0 <= i < |ReplaceWhitespaceRuns(s, sep)| ==>
              ReplaceWhitespaceRuns(s, sep)[i] == sep || ReplaceWhitespaceRuns(s, sep)[i] in s
  {
    if s != [] {
      assert s == [s[0]] + s[1..];
      ReplaceWhitespaceRunsChars(s[1..], sep);
    }
  }

  /** A string without whitespace is left as it is. */
  lemma {:induction false} ReplaceWhitespaceRunsNoop(s: string, sep: char)
    requires forall i :: 0 <= i < |s| ==> !IsJsWhitespace(s[i])
    ensures ReplaceWhitespaceRuns(s, sep) == s
  {
    if s != [] {
      ReplaceWhitespaceRunsNoop(s[1..], sep);
    }
  }

  /** A whitespace-free word, a whitespace run and a rest that does not start with whitespace:
      the run becomes exactly one `sep` and the word is kept. */
  lemma {:induction false} ReplaceWhitespaceRunsJoin(word: string, gap: string, rest: string, sep: char)
    requires forall i :: 0 <= i < |word| ==> !IsJsWhitespace(word[i])
    requires gap != [] && IsBlank(gap)
    requires rest == [] || !IsJsWhitespace(rest[0])
    ensures ReplaceWhitespaceRuns(word + gap + rest, sep) == word + [sep] + ReplaceWhitespaceRuns(rest, sep)
  {
    if word == [] {
      assert word + gap + rest == gap + rest;
      ReplaceWhitespaceRunsGap(gap, rest, sep);
    } else {
      ReplaceWhitespaceRunsJoin(word[1..], gap, rest, sep);
      assert word[1..] + gap + rest == word[1..] + (gap + rest);
      ReplaceWhitespaceRunsCons(word, gap + rest, ReplaceWhitespaceRuns(rest, sep), sep);
      assert word + gap + rest == word + (gap + rest);
    }
  }

  /** A leading character other than whitespace is kept as it is, in front of whatever the rest becomes. */
  lemma ReplaceWhitespaceRunsCons(word: string, tail: string, replaced: string, sep: char)
    requires word != [] && !IsJsWhitespace(word[0])
    requires ReplaceWhitespaceRuns(word[1..] + tail, sep) == word[1..] + [sep] + replaced
    ensures ReplaceWhitespaceRuns(word + tail, sep) == word + [sep] + replaced
  {
    var s := word + tail;
    calc {
      ReplaceWhitespaceRuns(s, sep);
    == { assert s[0] == word[0]; }
      [word[0]] + ReplaceWhitespaceRuns(s[1..], sep);
    == { assert s[1..] == word[1..] + tail; }
      [word[0]] + ReplaceWhitespaceRuns(word[1..] + tail, sep);
    ==
      [word[0]] + (word[1..] + [sep] + replaced);
    == { assert word == [word[0]] + word[1..]; }
      word + [sep] + replaced;
    }
  }

  /** A leading whitespace run becomes one `sep`. */
  lemma {:induction false} ReplaceWhitespaceRunsGap(gap: string, rest: string, sep: char)
    requires gap != [] && IsBlank(gap)
    requires rest == [] || !IsJsWhitespace(rest[0])
    ensures ReplaceWhitespaceRuns(gap + rest, sep) == [sep] + ReplaceWhitespaceRuns(rest, sep)
  {
    var s := gap + rest;
    assert s[0] == gap[0] && s[1..] == gap[1..] + rest;
    if |gap| > 1 {
      assert s[1] == gap[1];
      ReplaceWhitespaceRunsGap(gap[1..], rest, sep);
    } else {
      assert s[1..] == rest;
    }
  }

  /** A value of `Math.random()`: a real in [0, 1). */
  type UnitDraw = r: real | 0.0 <= r < 1.0

  /** `Math.floor(draw * n)`: an index below `n`. */
  function PickIndex(draw: UnitDraw, n: nat): (i: nat)
    requires n > 0
    ensures i < n
  {
    var x := draw * n as real;
    assert 0.0 <= x < n as real;
    x.Floor
  }
}
