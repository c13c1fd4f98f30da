/**
 * The string primitives of ECMAScript that the editor code relies on:
 * the `\s` character class and `trim()`, `startsWith`, `includes`,
 * `lastIndexOf`, decimal formatting of integers, `Math.max`/`Math.min`
 * and the truncating `%`.
 */
module Text {

  /** ECMAScript WhiteSpace and LineTerminator code points: what `/\s/` matches and `trim()` strips. */
  predicate IsWhitespace(c: char) {
    || c == ' ' || c == '\t' || c == '\n' || c == '\U{B}' || c == '\U{C}' || c == '\r'
    || c == '\U{A0}' || c == '\U{1680}' || ('\U{2000}' <= c <= '\U{200A}')
    || c == '\U{2028}' || c == '\U{2029}' || c == '\U{202F}' || c == '\U{205F}'
    || c == '\U{3000}' || c == '\U{FEFF}'
  }

  /** `/\s/.test(s)` */
  predicate HasWhitespace(s: string) {
    exists k :: 0 <= k < |s| && IsWhitespace(s[k])
  }

  /** `s.replace(/\s+/g, '')` */
  function StripWhitespace(s: string): (r: string)
    ensures |r| <= |s|
    ensures !HasWhitespace(r)
  {
    if s == [] then []
    else if IsWhitespace(s[0]) then StripWhitespace(s[1..])
    else [s[0]] + StripWhitespace(s[1..])
  }

  /** Stripping keeps every other character, each as often as it occurs. */
  lemma {:induction false} StripWhitespaceKeeps(s: string, c: char)
    requires !IsWhitespace(c)
    ensures multiset(StripWhitespace(s))[c] == multiset(s)[c]
  {
    if s != [] {
      StripWhitespaceKeeps(s[1..], c);
      assert s == [s[0]] + s[1..];
      assert multiset(s) == multiset([s[0]]) + multiset(s[1..]);
    }
  }

  lemma {:induction false} StripWhitespaceAppend(s: string, t: string)
    ensures StripWhitespace(s + t) == StripWhitespace(s) + StripWhitespace(t)
  {
    if s == [] {
      assert s + t == t;
    } else {
      assert (s + t)[0] == s[0];
      assert (s + t)[1..] == s[1..] + t;
      StripWhitespaceAppend(s[1..], t);
      if !IsWhitespace(s[0]) {
        calc {
          StripWhitespace(s + t);
          [s[0]] + StripWhitespace(s[1..] + t);
          [s[0]] + (StripWhitespace(s[1..]) + StripWhitespace(t));
          ([s[0]] + StripWhitespace(s[1..])) + StripWhitespace(t);
        }
      }
    }
  }

  /** Stripping removes exactly the whitespace: nothing is lost from a string without any. */
  lemma {:induction false} StripWhitespaceIdentity(s: string)
    ensures StripWhitespace(s) == s <==> !HasWhitespace(s)
  {
    if s != [] {
      StripWhitespaceIdentity(s[1..]);
      if IsWhitespace(s[0]) {
        assert |StripWhitespace(s)| < |s|;
      } else if !HasWhitespace(s) {
        assert !HasWhitespace(s[1..]) by {
          forall k | 0 <= k < |s[1..]| ensures !IsWhitespace(s[1..][k]) {
            assert s[1..][k] == s[k + 1];
          }
        }
      } else {
        var k :| 0 <= k < |s| && IsWhitespace(s[k]);
        assert s[1..][k - 1] == s[k];
      }
    }
  }

  /** Where `s.trimStart()` begins: the number of leading whitespace characters. */
  function TrimFrom(s: string): (i: nat)
    ensures i <= |s|
    ensures forall k :: 0 <= k < i ==> IsWhitespace(s[k])
    ensures i < |s| ==> !IsWhitespace(s[i])
  {
    if s == [] || !IsWhitespace(s[0]) then 0 else 1 + TrimFrom(s[1..])
  }

  /** Where `s.trimEnd()` ends: the length without the trailing whitespace. */
  function TrimTo(s: string): (j: nat)
    ensures j <= |s|
    ensures forall k :: j <= k < |s| ==> IsWhitespace(s[k])
    ensures 0 < j ==> !IsWhitespace(s[j - 1])
  {
    if s == [] || !IsWhitespace(s[|s| - 1]) then |s| else TrimTo(s[..|s| - 1])
  }

  /** `s.trim()`: the infix left after dropping leading and trailing whitespace. */
  function Trim(s: string): (r: string)
    ensures r == [] <==> forall k :: 0 <= k < |s| ==> IsWhitespace(s[k])
    ensures r != [] ==> r == s[TrimFrom(s)..TrimTo(s)]
    ensures r != [] ==> !IsWhitespace(r[0]) && !IsWhitespace(r[|r| - 1])
  {
    var i, j := TrimFrom(s), TrimTo(s);
    if i < j then
      assert s[i..j][0] == s[i];
      s[i..j]
    else
      []
  }

  /** The trimmed string is the infix between the first and the last non-whitespace characters. */
  lemma TrimExact(s: string, i: int, j: int)
    requires 0 <= i < j <= |s|
    requires forall k :: 0 <= k < i ==> IsWhitespace(s[k])
    requires forall k :: j <= k < |s| ==> IsWhitespace(s[k])
    requires !IsWhitespace(s[i]) && !IsWhitespace(s[j - 1])
    ensures Trim(s) == s[i..j]
  {
    assert TrimFrom(s) == i;
    assert TrimTo(s) == j;
  }

  /** Whitespace around a string is trimmed away with the string's own. */
  lemma TrimPadded(left: string, s: string, right: string)
    requires forall k :: 0 <= k < |left| ==> IsWhitespace(left[k])
    requires forall k :: 0 <= k < |right| ==> IsWhitespace(right[k])
    ensures Trim(left + s + right) == Trim(s)
  {
    if Trim(s) == [] {
      PaddedBlank(left, s, right, |s|, 0);
    } else {
      PaddedCore(left, s, right, TrimFrom(s), TrimTo(s));
    }
  }

  /** The padded string trims to the same infix as the string itself. */
  lemma PaddedCore(left: string, s: string, right: string, i: int, j: int)
    requires 0 <= i < j <= |s|
    requires forall k :: 0 <= k < |left| ==> IsWhitespace(left[k])
    requires forall k :: 0 <= k < |right| ==> IsWhitespace(right[k])
    requires forall k :: 0 <= k < i ==> IsWhitespace(s[k])
    requires forall k :: j <= k < |s| ==> IsWhitespace(s[k])
    requires !IsWhitespace(s[i]) && !IsWhitespace(s[j - 1])
    ensures Trim(left + s + right) == s[i..j]
  {
    var p, a := left + s + right, |left|;
    PaddedBlank(left, s, right, i, j);
    PaddedAt(left, s, right, a + i);
    PaddedAt(left, s, right, a + j - 1);
    TrimExact(p, a + i, a + j);
    forall k | 0 <= k < j - i
      ensures p[a + i..a + j][k] == s[i..j][k]
    {
      PaddedAt(left, s, right, a + i + k);
    }
  }

  /** Blank padding around a string with `i` leading and `|s| - j` trailing blanks leaves `|left| + i` and `|s| - j + |right|` of them. */
  lemma PaddedBlank(left: string, s: string, right: string, i: int, j: int)
    requires 0 <= i <= |s| && 0 <= j <= |s|
    requires forall k :: 0 <= k < |left| ==> IsWhitespace(left[k])
    requires forall k :: 0 <= k < |right| ==> IsWhitespace(right[k])
    requires forall k :: 0 <= k < i ==> IsWhitespace(s[k])
    requires forall k :: j <= k < |s| ==> IsWhitespace(s[k])
    ensures var p := left + s + right;
      && (forall k :: 0 <= k < |left| + i ==> IsWhitespace(p[k]))
      && (forall k :: |left| + j <= k < |p| ==> IsWhitespace(p[k]))
  {
    var p := left + s + right;
    forall k | 0 <= k < |left| + i
      ensures IsWhitespace(p[k])
    {
      PaddedAt(left, s, right, k);
    }
    forall k | |left| + j <= k < |p|
      ensures IsWhitespace(p[k])
    {
      PaddedAt(left, s, right, k);
    }
  }

  /** A character of a padded string comes from the left padding, the string, or the right padding. */
  lemma PaddedAt(left: string, s: string, right: string, k: int)
    requires 0 <= k < |left| + |s| + |right|
    ensures var p := left + s + right;
      p[k] == if k < |left| then left[k] else if k < |left| + |s| then s[k - |left|] else right[k - |left| - |s|]
  {
  }

  /** Trimming an already trimmed string changes nothing. */
  lemma TrimIdempotent(s: string)
    ensures Trim(Trim(s)) == Trim(s)
  {
    var r := Trim(s);
    if r != [] {
      assert TrimFrom(r) == 0;
      assert TrimTo(r) == |r|;
    }
  }

  /** `s.startsWith(p)` */
  predicate StartsWith(s: string, p: string) {
    |p| <= |s| && s[..|p|] == p
  }

  /** A string does not start with a prefix whose first character differs from its own. */
  lemma DiffersAtStart(s: string, p: string)
    requires s != [] && p != [] && s[0] != p[0]
    ensures !StartsWith(s, p)
  {
    if |p| <= |s| {
      assert s[..|p|][0] == s[0];
    }
  }

  /** `s.includes(t)` */
  predicate Includes(s: string, t: string)
    decreases |s|
  {
    StartsWith(s, t) || (|s| > 0 && Includes(s[1..], t))
  }

  /** `s.lastIndexOf(c)` for a one-character needle: -1 when absent. */
  function LastIndexOf(s: string, c: char): (r: int)
    ensures -1 <= r < |s|
    ensures r >= 0 ==> s[r] == c
    ensures forall k :: r < k < |s| ==> s[k] != c
  {
    if s == [] then -1
    else if s[|s| - 1] == c then |s| - 1
    else LastIndexOf(s[..|s| - 1], c)
  }

  function DigitChar(d: nat): (c: char)
    requires d < 10
    ensures '0' <= c <= '9' && c as int - '0' as int == d
  {
    '0' as int as char + d as char
  }

  predicate IsDigits(s: string) {
    forall k :: 0 <= k < |s| ==> '0' <= s[k] <= '9'
  }

  /** `String(n)` for a non-negative integer. */
  function NatToString(n: nat): (s: string)
    ensures |s| >= 1 && IsDigits(s)
    ensures s[0] == '0' ==> n == 0
  {
    if n < 10 then [DigitChar(n)] else NatToString(n / 10) + [DigitChar(n % 10)]
  }

  /** The value of a decimal numeral. */
  function ParseDigits(s: string): nat
    requires IsDigits(s)
  {
    if s == [] then 0 else ParseDigits(s[..|s| - 1]) * 10 + (s[|s| - 1] as int - '0' as int)
  }

  /** Decimal formatting loses nothing: the numeral reads back as the number. */
  lemma {:induction false} NatToStringRoundTrip(n: nat)
    ensures ParseDigits(NatToString(n)) == n
  {
    if n >= 10 {
      var s := NatToString(n);
      assert s[..|s| - 1] == NatToString(n / 10);
      NatToStringRoundTrip(n / 10);
    }
  }

  /** Different numbers are written differently. */
  lemma NatToStringInjective(m: nat, n: nat)
    requires NatToString(m) == NatToString(n)
    ensures m == n
  {
    NatToStringRoundTrip(m);
    NatToStringRoundTrip(n);
  }

  /** `String(i)` for an integer. */
  function IntToString(i: int): (s: string)
    ensures i < 0 <==> (|s| > 0 && s[0] == '-')
  {
    if i < 0 then "-" + NatToString(-i) else NatToString(i)
  }

  /** Different integers are written differently. */
  lemma IntToStringInjective(a: int, b: int)
    requires IntToString(a) == IntToString(b)
    ensures a == b
  {
    if a < 0 && b < 0 {
      assert NatToString(-a) == IntToString(a)[1..];
      NatToStringInjective(-a, -b);
    } else if a >= 0 && b >= 0 {
      NatToStringInjective(a, b);
    }
  }

  /** In a numeral followed by a space, the first space sits right after the numeral. */
  lemma FirstSpace(a: string, x: string)
    requires IsDigits(a) && |x| > 0 && x[0] == ' '
    ensures (a + x)[|a|] == ' '
    ensures forall k :: 0 <= k < |a| ==> (a + x)[k] != ' '
  {
  }

  /** A numeral followed by a space splits in one way only: digits never include the space. */
  lemma NumeralPrefix(a: string, x: string, b: string, y: string)
    requires IsDigits(a) && IsDigits(b)
    requires |x| > 0 && x[0] == ' ' && |y| > 0 && y[0] == ' '
    requires a + x == b + y
    ensures a == b && x == y
  {
    FirstSpace(a, x);
    FirstSpace(b, y);
    if |a| == |b| {
      assert a == (a + x)[..|a|] && b == (b + y)[..|b|];
      assert x == (a + x)[|a|..] && y == (b + y)[|b|..];
    }
  }

  /** `Math.max` and `Math.min`, on integers and on reals. */
  function Max(a: int, b: int): int { if a < b then b else a }
  function Min(a: int, b: int): int { if a < b then a else b }
  function MaxR(a: real, b: real): real { if a < b then b else a }
  function MinR(a: real, b: real): real { if a < b then a else b }

  /** JavaScript's `a % b`: truncating division, the result takes the sign of `a`. */
  function JsRem(a: int, b: int): (r: int)
    requires b != 0
    ensures a >= 0 ==> 0 <= r < if b > 0 then b else -b
    ensures a < 0 ==> -(if b > 0 then b else -b) < r <= 0
  {
    var m := if b > 0 then b else -b;
    if a >= 0 then a % m else -((-a) % m)
  }

  /** JavaScript's `Math.trunc(a / b)`: the quotient rounded toward zero. */
  function JsQuot(a: int, b: int): int
    requires b != 0
  {
    var m := if b > 0 then b else -b;
    var q := if a >= 0 then a / m else -((-a) / m);
    if b > 0 then q else -q
  }

  /** The remainder is what the truncated quotient leaves: `a == trunc(a / b) * b + a % b`. */
  lemma JsRemValue(a: int, b: int)
    requires b != 0
    ensures a == JsQuot(a, b) * b + JsRem(a, b)
  {
    var m := if b > 0 then b else -b;
    if a >= 0 {
      assert a == (a / m) * m + a % m;
    } else {
      assert -a == ((-a) / m) * m + (-a) % m;
    }
  }

  /** The remainder of a value up to twice the divisor. */
  lemma ModSmall(a: int, n: int)
    requires n > 0 && 0 <= a <= 2 * n
    ensures a % n == if a < n then a else if a < 2 * n then a - n else 0
  {
    var q, r := a / n, a % n;
    assert a == n * q + r && 0 <= r < n;
  }
}
