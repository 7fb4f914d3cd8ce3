/**
 * The JavaScript string operations the components rely on, restricted to ASCII:
 * `toLowerCase`, `trim`, `includes`, `startsWith`, the last piece of `split(" ")`,
 * `parseInt`, and the rendering of numbers and booleans inside template strings.
 */
module Strings {
  import opened Wrappers

  predicate IsUpper(c: char) { 'A' <= c <= 'Z' }

  predicate IsDigit(c: char) { '0' <= c <= '9' }

  /** The characters `trim` and `parseInt` skip (the ASCII part of JavaScript's white space and line terminators). */
  predicate IsWhitespace(c: char) {
    c == ' ' || c == '\t' || c == '\n' || c == '\r' || c as int == 0x0B || c as int == 0x0C
  }

  /** `toLowerCase` of one character. */
  function LowerChar(c: char): (r: char)
    ensures !IsUpper(r)
    ensures IsUpper(c) ==> r as int == c as int + 32
    ensures !IsUpper(c) ==> r == c
  {
    if IsUpper(c) then (c as int + 32) as char else c
  }

  /** `toLowerCase`: the same length, every character lowered, no upper-case letter left. */
  function ToLower(s: string): (r: string)
    ensures |r| == |s|
    ensures forall i :: 0 <= i < |r| ==> r[i] == LowerChar(s[i]) && !IsUpper(r[i])
  {
    seq(|s|, i requires 0 <= i < |s| => LowerChar(s[i]))
  }

  /** The longest suffix of `s` that does not start with white space. */
  function TrimStart(s: string): (r: string)
    ensures |r| <= |s| && r == s[|s| - |r|..]
    ensures forall i :: 0 <= i < |s| - |r| ==> IsWhitespace(s[i])
    ensures r == [] || !IsWhitespace(r[0])
  {
    if s != [] && IsWhitespace(s[0]) then
      var r := TrimStart(s[1..]);
      assert s[1..][|s| - 1 - |r|..] == s[|s| - |r|..];
      assert forall i :: 1 <= i < |s| - |r| ==> s[i] == s[1..][i - 1];
      r
    else s
  }

  /** The longest prefix of `s` that does not end with white space. */
  function TrimEnd(s: string): (r: string)
    ensures |r| <= |s| && r == s[..|r|]
    ensures forall i :: |r| <= i < |s| ==> IsWhitespace(s[i])
    ensures r == [] || !IsWhitespace(r[|r| - 1])
  {
    if s != [] && IsWhitespace(s[|s| - 1]) then TrimEnd(s[..|s| - 1]) else s
  }

  /** `r` is the slice of `s` at `k`, and everything of `s` around it is white space. */
  predicate TrimmedAt(s: string, r: string, k: int) {
    && 0 <= k <= |s| - |r|
    && r == s[k..k + |r|]
    && (forall i :: 0 <= i < k ==> IsWhitespace(s[i]))
    && (forall i :: k + |r| <= i < |s| ==> IsWhitespace(s[i]))
  }

  /** `trim`: white space removed at both ends and nowhere else. */
  function Trim(s: string): (r: string)
    ensures exists k :: TrimmedAt(s, r, k)
    ensures r == [] || (!IsWhitespace(r[0]) && !IsWhitespace(r[|r| - 1]))
    ensures (s == [] || (!IsWhitespace(s[0]) && !IsWhitespace(s[|s| - 1]))) ==> r == s
  {
    var t := TrimStart(s);
    var r := TrimEnd(t);
    assert TrimmedAt(s, r, |s| - |t|);
    r
  }

  /** `s.startsWith(p)`. */
  predicate StartsWith(s: string, p: string) {
    |p| <= |s| && s[..|p|] == p
  }

  /** `s.endsWith(p)`. */
  predicate EndsWith(s: string, p: string) {
    |p| <= |s| && s[|s| - |p|..] == p
  }

  /** `s.includes(sub)`. */
  predicate Contains(s: string, sub: string) {
    exists i :: 0 <= i <= |s| - |sub| && StartsWith(s[i..], sub)
  }

  /** The last element of `s.split(" ")`: the longest suffix of `s` without a space. */
  function LastToken(s: string): (r: string)
    ensures |r| <= |s| && r == s[|s| - |r|..]
    ensures ' ' !in r
    ensures |r| < |s| ==> s[|s| - |r| - 1] == ' '
  {
    if s == [] || s[|s| - 1] == ' ' then [] else LastToken(s[..|s| - 1]) + [s[|s| - 1]]
  }

  /** The longest prefix of `s` made of characters satisfying `isDigit`. */
  function DigitPrefix(s: string, isDigit: char -> bool): (r: string)
    ensures |r| <= |s| && r == s[..|r|]
    ensures forall i :: 0 <= i < |r| ==> isDigit(r[i])
    ensures |r| < |s| ==> !isDigit(s[|r|])
  {
    if s != [] && isDigit(s[0]) then [s[0]] + DigitPrefix(s[1..], isDigit) else []
  }

  predicate IsHexDigit(c: char) {
    IsDigit(c) || 'a' <= c <= 'f' || 'A' <= c <= 'F'
  }

  function HexDigitValue(c: char): (v: nat)
    requires IsHexDigit(c)
    ensures v < 16
  {
    if IsDigit(c) then c as int - '0' as int
    else if 'a' <= c <= 'f' then c as int - 'a' as int + 10
    else c as int - 'A' as int + 10
  }

  /** The value of a string of digits in the given base, most significant digit first. */
  function DigitsValue(d: string, base: nat): (n: nat)
    requires base == 10 || base == 16
    requires forall i :: 0 <= i < |d| ==> IsHexDigit(d[i]) && HexDigitValue(d[i]) < base
  {
    if d == [] then 0 else base * DigitsValue(d[..|d| - 1], base) + HexDigitValue(d[|d| - 1])
  }

  /** The white space skipped, then an optional sign: whether it was `-`, and what follows it. */
  function SplitSign(s: string): (bool, string) {
    var t := TrimStart(s);
    if t != [] && (t[0] == '-' || t[0] == '+') then (t[0] == '-', t[1..]) else (false, t)
  }

  function Signed(negative: bool, n: nat): int {
    if negative then 0 - n else n
  }

  /** `parseInt(s, 10)`; `None` is `NaN`. */
  function ParseInt(s: string): (r: Option<int>)
    ensures r.None? <==> DigitPrefix(SplitSign(s).1, IsDigit) == []
  {
    var (negative, rest) := SplitSign(s);
    var digits := DigitPrefix(rest, IsDigit);
    if digits == [] then None else Some(Signed(negative, DigitsValue(digits, 10)))
  }

  /**
   * `parseInt(s)` without a radix: as `ParseInt`, except that after the sign
   * a leading `0x` or `0X` selects base 16.
   */
  function ParseIntAnyRadix(s: string): (r: Option<int>)
    ensures !StartsWith(SplitSign(s).1, "0x") && !StartsWith(SplitSign(s).1, "0X") ==> r == ParseInt(s)
  {
    var (negative, rest) := SplitSign(s);
    if StartsWith(rest, "0x") || StartsWith(rest, "0X") then
      var digits := DigitPrefix(rest[2..], IsHexDigit);
      if digits == [] then None else Some(Signed(negative, DigitsValue(digits, 16)))
    else
      ParseInt(s)
  }

  function DigitChar(d: nat): (c: char)
    requires d < 10
    ensures IsDigit(c) && IsHexDigit(c) && HexDigitValue(c) == d
  {
    ('0' as int + d) as char
  }

  /** The decimal rendering of a natural number, as a template string shows it. */
  function NatToString(n: nat): (r: string)
    ensures r != []
    ensures forall i :: 0 <= i < |r| ==> IsDigit(r[i]) && IsHexDigit(r[i]) && HexDigitValue(r[i]) < 10
    decreases n
  {
    if n < 10 then [DigitChar(n)] else NatToString(n / 10) + [DigitChar(n % 10)]
  }

  /** The decimal rendering of an integer (`${i}` for an integral number). */
  function IntToString(i: int): string {
    if i < 0 then "-" + NatToString(-i) else NatToString(i)
  }

  /** `${b}` for a boolean. */
  function BoolToString(b: bool): (r: string)
    ensures r == "true" || r == "false"
    ensures (r == "true") == b
  {
    if b then "true" else "false"
  }

  lemma {:induction false} DigitsValueOfNatToString(n: nat)
    ensures DigitsValue(NatToString(n), 10) == n
    decreases n
  {
    if n >= 10 {
      var s := NatToString(n);
      assert s[..|s| - 1] == NatToString(n / 10);
      DigitsValueOfNatToString(n / 10);
    }
  }

  lemma {:induction false} DigitPrefixOfDigits(s: string)
    requires forall i :: 0 <= i < |s| ==> IsDigit(s[i])
    ensures DigitPrefix(s, IsDigit) == s
  {
    if s != [] {
      DigitPrefixOfDigits(s[1..]);
    }
  }

  lemma TrimStartKeeps(s: string)
    requires s != [] && !IsWhitespace(s[0])
    ensures TrimStart(s) == s
  {
  }

  lemma SplitSignOfIntToString(i: int)
    ensures SplitSign(IntToString(i)) == (i < 0, NatToString(if i < 0 then -i else i))
  {
    var m: nat := if i < 0 then -i else i;
    var digits := NatToString(m);
    if i < 0 {
      var s := "-" + digits;
      assert s == IntToString(i);
      TrimStartKeeps(s);
      assert s[1..] == digits;
    } else {
      assert IsDigit(digits[0]);
      TrimStartKeeps(digits);
    }
  }

  /** A rendered integer has no space, so it is the last token after one. */
  lemma NoSpaceInIntToString(i: int)
    ensures ' ' !in IntToString(i)
  {
    var m: nat := if i < 0 then -i else i;
    var digits := NatToString(m);
    assert forall k :: 0 <= k < |digits| ==> IsDigit(digits[k]);
    if i < 0 {
      assert IntToString(i) == "-" + digits;
    }
  }

  /** Reading back the rendering of an integer gives the integer: `parseInt(String(i), 10) == i`. */
  lemma ParseIntOfIntToString(i: int)
    ensures ParseInt(IntToString(i)) == Some(i)
  {
    var m: nat := if i < 0 then -i else i;
    SplitSignOfIntToString(i);
    DigitPrefixOfDigits(NatToString(m));
    DigitsValueOfNatToString(m);
  }

  /** A decimal rendering reads back through `parseInt` without a radix too: it never starts with `0x`. */
  lemma ParseIntAnyRadixOfIntToString(i: int)
    ensures ParseIntAnyRadix(IntToString(i)) == Some(i)
  {
    var m: nat := if i < 0 then -i else i;
    SplitSignOfIntToString(i);
    var rest := NatToString(m);
    assert SplitSign(IntToString(i)).1 == rest;
    assert !StartsWith(rest, "0x") && !StartsWith(rest, "0X") by {
      if |rest| >= 2 {
        assert IsDigit(rest[1]);
        assert rest[..2][1] == rest[1];
      }
    }
    ParseIntOfIntToString(i);
  }

  /** The last space-separated token of `s + " " + t` is `t` when `t` has no space. */
  lemma {:induction false} LastTokenAfterSpace(s: string, t: string)
    requires ' ' !in t
    ensures LastToken(s + " " + t) == t
  {
    if t == [] {
    } else {
      var u := s + " " + t;
      assert u[..|u| - 1] == s + " " + t[..|t| - 1];
      assert t[|t| - 1] in t;
      assert forall c :: c in t[..|t| - 1] ==> c in t;
      LastTokenAfterSpace(s, t[..|t| - 1]);
      assert t == t[..|t| - 1] + [t[|t| - 1]];
    }
  }

  /** The concatenation of `prefix + x` for every `x` in order: `xs.map(x => prefix + x).join("")`. */
  function Prefixed(prefix: string, xs: seq<string>): (r: string)
    ensures xs == [] ==> r == ""
  {
    if xs == [] then "" else prefix + xs[0] + Prefixed(prefix, xs[1..])
  }

  lemma {:induction false} PrefixedAppend(prefix: string, xs: seq<string>, ys: seq<string>)
    ensures Prefixed(prefix, xs + ys) == Prefixed(prefix, xs) + Prefixed(prefix, ys)
  {
    if xs != [] {
      assert (xs + ys)[1..] == xs[1..] + ys;
      PrefixedAppend(prefix, xs[1..], ys);
      calc {
        Prefixed(prefix, xs + ys);
        prefix + xs[0] + Prefixed(prefix, xs[1..] + ys);
        prefix + xs[0] + (Prefixed(prefix, xs[1..]) + Prefixed(prefix, ys));
        (prefix + xs[0] + Prefixed(prefix, xs[1..])) + Prefixed(prefix, ys);
        Prefixed(prefix, xs) + Prefixed(prefix, ys);
      }
    } else {
      assert xs + ys == ys;
    }
  }

  /** Each term appears in order, between the terms of the items before it and those after it. */
  lemma PrefixedAt(prefix: string, xs: seq<string>, i: nat)
    requires i < |xs|
    ensures Prefixed(prefix, xs) == Prefixed(prefix, xs[..i]) + prefix + xs[i] + Prefixed(prefix, xs[i + 1..])
  {
    assert xs == xs[..i] + xs[i..];
    PrefixedAppend(prefix, xs[..i], xs[i..]);
    assert xs[i..][1..] == xs[i + 1..];
  }
}
