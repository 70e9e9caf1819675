/** String operations that the Java and JavaScript sources take from their standard libraries:
    prefix tests, Java's `String.replace` of a literal with the empty string, ASCII lower-casing,
    the JavaScript replacement `/\.[^.]+$/ -> ""`, and decimal rendering of integers. */
module Text {
  import opened Wrappers

  /** `t` occurs in `s` at some position. */
  predicate Contains(s: string, t: string)
    decreases |s|
  {
    t <= s || (s != [] && Contains(s[1..], t))
  }

  /** Java's `s.replace(target, "")`: every occurrence of `target`, found left to right without
      overlapping, is removed. */
  function RemoveAll(s: string, target: string): (r: string)
    requires target != []
    ensures |r| <= |s|
    decreases |s|
  {
    if s == [] then []
    else if target <= s then RemoveAll(s[|target|..], target)
    else [s[0]] + RemoveAll(s[1..], target)
  }

  /** Removal changes the string exactly when the target occurs in it. */
  lemma {:induction false} RemoveAllIdentity(s: string, t: string)
    requires t != []
    ensures RemoveAll(s, t) == s <==> !Contains(s, t)
    decreases |s|
  {
    if s == [] {
    } else if t <= s {
      assert |RemoveAll(s[|t|..], t)| <= |s| - |t| < |s|;
    } else {
      RemoveAllIdentity(s[1..], t);
      assert RemoveAll(s, t) == [s[0]] + RemoveAll(s[1..], t);
      assert s == [s[0]] + s[1..];
    }
  }

  /** A prefix `t` in front of a string free of `t` is removed and nothing else is. */
  lemma {:induction false} RemoveAllLeadingTarget(t: string, x: string)
    requires t != []
    requires !Contains(x, t)
    ensures RemoveAll(t + x, t) == x
  {
    assert t <= t + x;
    assert (t + x)[|t|..] == x;
    RemoveAllIdentity(x, t);
  }

  predicate IsUpper(c: char) {
    'A' <= c <= 'Z'
  }

  /** ASCII lower case of one character; other characters are kept. */
  function LowerChar(c: char): char {
    if IsUpper(c) then (c as int - 'A' as int + 'a' as int) as char else c
  }

  /** JavaScript's `toLowerCase`, restricted to the ASCII letters. */
  function ToLower(s: string): (r: string)
    ensures |r| == |s|
    ensures forall i :: 0 <= i < |s| ==> !IsUpper(r[i])
  {
    seq(|s|, i requires 0 <= i < |s| => LowerChar(s[i]))
  }

  lemma ToLowerHasNoUpper(s: string)
    ensures |ToLower(s)| == |s|
    ensures forall i :: 0 <= i < |s| ==> !IsUpper(ToLower(s)[i])
  {
  }

  /** Position of the last `c` in `s`. */
  function LastIndexOf(s: string, c: char): (r: Option<nat>)
    ensures r.Some? ==> r.value < |s| && s[r.value] == c && c !in s[r.value + 1..]
    ensures r.None? <==> c !in s
    decreases |s|
  {
    if s == [] then None
    else if s[|s| - 1] == c then Some(|s| - 1)
    else
      var r := LastIndexOf(s[..|s| - 1], c);
      assert r.Some? ==> s[r.value + 1..] == s[..|s| - 1][r.value + 1..] + [s[|s| - 1]];
      assert s == s[..|s| - 1] + [s[|s| - 1]];
      r
  }

  /** JavaScript's `s.replace(/\.[^.]+$/, "")`: the last `.` and the characters after it are
      removed as long as at least one character follows that `.`. */
  function StripExtension(s: string): (r: string)
    ensures r <= s
  {
    match LastIndexOf(s, '.')
    case Some(i) => if i + 1 < |s| then s[..i] else s
    case None => s
  }

  /** What is removed is a final extension: a `.` followed by one or more characters none of
      which is a `.`; nothing is removed exactly when there is no dot or the last character is one. */
  lemma StripExtensionRemovesLastExtension(s: string)
    ensures StripExtension(s) <= s
    ensures StripExtension(s) == s <==> '.' !in s || s[|s| - 1] == '.'
    ensures var r := StripExtension(s);
      r != s ==> |r| + 1 < |s| && s[|r|] == '.' && '.' !in s[|r| + 1..]
  {
    match LastIndexOf(s, '.')
    case None =>
    case Some(i) =>
  }

  lemma {:induction false} LastIndexOfLower(s: string)
    ensures LastIndexOf(ToLower(s), '.') == LastIndexOf(s, '.')
    decreases |s|
  {
    if s != [] {
      assert ToLower(s)[..|s| - 1] == ToLower(s[..|s| - 1]);
      LastIndexOfLower(s[..|s| - 1]);
    }
  }

  /** Lower-casing and stripping the extension commute, because lower-casing keeps every dot. */
  lemma StripExtensionLowerCommute(s: string)
    ensures ToLower(StripExtension(s)) == StripExtension(ToLower(s))
  {
    LastIndexOfLower(s);
    match LastIndexOf(s, '.')
    case None =>
    case Some(i) =>
      if i + 1 < |s| {
        assert ToLower(s)[..i] == ToLower(s[..i]);
      }
  }

  predicate IsDigit(c: char) {
    '0' <= c <= '9'
  }

  predicate AllDigits(s: string) {
    forall i :: 0 <= i < |s| ==> IsDigit(s[i])
  }

  function DigitChar(d: nat): (c: char)
    requires d < 10
    ensures IsDigit(c)
  {
    ('0' as int + d) as char
  }

  /** Decimal digits of `n`, most significant first, without leading zeros. */
  function NatToString(n: nat): (r: string)
    ensures |r| >= 1 && AllDigits(r)
    decreases n
  {
    if n < 10 then [DigitChar(n)] else NatToString(n / 10) + [DigitChar(n % 10)]
  }

  /** The decimal text JavaScript produces for an integral number of magnitude below 10^21
      (larger ones it writes in exponent form, which no caller here can reach). */
  function IntToString(i: int): (r: string)
    ensures |r| >= 1 && (r[0] == '-' <==> i < 0)
    ensures forall k :: 1 <= k < |r| ==> IsDigit(r[k])
  {
    if i < 0 then "-" + NatToString(-i) else NatToString(i)
  }

  /** The value of a string of decimal digits. */
  function DigitsValue(s: string): nat
    requires AllDigits(s)
  {
    if s == [] then 0 else DigitsValue(s[..|s| - 1]) * 10 + (s[|s| - 1] as int - '0' as int)
  }

  /** Reads back an optionally signed decimal integer. */
  function ParseInt(s: string): Option<int> {
    if |s| > 1 && s[0] == '-' && AllDigits(s[1..]) then Some(0 - DigitsValue(s[1..]) as int)
    else if s != [] && AllDigits(s) then Some(DigitsValue(s))
    else None
  }

  lemma {:induction false} NatToStringRoundTrip(n: nat)
    ensures DigitsValue(NatToString(n)) == n
    decreases n
  {
    if n >= 10 {
      NatToStringRoundTrip(n / 10);
      var s := NatToString(n / 10) + [DigitChar(n % 10)];
      assert s[..|s| - 1] == NatToString(n / 10);
    }
  }

  /** Rendering an integer in decimal loses nothing. */
  lemma IntToStringRoundTrip(i: int)
    ensures ParseInt(IntToString(i)) == Some(i)
  {
    if i < 0 {
      NatToStringRoundTrip(-i);
      assert IntToString(i)[1..] == NatToString(-i);
    } else {
      NatToStringRoundTrip(i);
    }
  }
}
