/**
 * The Python string builtins that app.py relies on, restricted to what the
 * application's behaviour depends on: `str.lower`, `str.title`, `str.strip`,
 * the substring test `sub in s`, `sep.join(parts)` and `str(n)` for a
 * natural number. Letter case is modelled for ASCII letters only.
 */
module Text {

  predicate IsUpperAscii(c: char) { 'A' <= c <= 'Z' }

  predicate IsLowerAscii(c: char) { 'a' <= c <= 'z' }

  /** A character that has a case (an ASCII letter). */
  predicate IsCased(c: char) { IsUpperAscii(c) || IsLowerAscii(c) }

  function LowerChar(c: char): (d: char)
    ensures !IsUpperAscii(d)
    ensures IsCased(d) == IsCased(c)
    ensures IsUpperAscii(c) ==> d as int == c as int + 32
    ensures !IsUpperAscii(c) ==> d == c
  {
    if IsUpperAscii(c) then (c as int + 32) as char else c
  }

  function UpperChar(c: char): (d: char)
    ensures !IsLowerAscii(d)
    ensures IsCased(d) == IsCased(c)
    ensures IsLowerAscii(c) ==> d as int == c as int - 32
    ensures !IsLowerAscii(c) ==> d == c
  {
    if IsLowerAscii(c) then (c as int - 32) as char else c
  }

  /** `s.lower()`: every character mapped to lower case, nothing else changed. */
  function Lower(s: string): (r: string)
    ensures |r| == |s|
    ensures forall i :: 0 <= i < |s| ==> r[i] == LowerChar(s[i])
  {
    if s == [] then [] else [LowerChar(s[0])] + Lower(s[1..])
  }

  /**
   * `s.title()` written as CPython computes it: a character is upper-cased
   * when the character before it is not cased (or it is the first), and
   * lower-cased otherwise. `afterCased` says whether the previous input
   * character was cased.
   */
  function TitleFrom(s: string, afterCased: bool): (r: string)
    ensures |r| == |s|
  {
    if s == [] then []
    else [if afterCased then LowerChar(s[0]) else UpperChar(s[0])] + TitleFrom(s[1..], IsCased(s[0]))
  }

  function Title(s: string): string {
    TitleFrom(s, false)
  }

  /** Whether position `i` of `s` starts a word for `str.title`. */
  predicate StartsWord(s: string, i: nat)
    requires i < |s|
  {
    i == 0 || !IsCased(s[i - 1])
  }

  lemma {:induction false} TitleFromAt(s: string, afterCased: bool, i: nat)
    requires i < |s|
    ensures TitleFrom(s, afterCased)[i] ==
      (if (if i == 0 then afterCased else IsCased(s[i - 1])) then LowerChar(s[i]) else UpperChar(s[i]))
  {
    if i > 0 {
      TitleFromAt(s[1..], IsCased(s[0]), i - 1);
      assert TitleFrom(s, afterCased)[i] == TitleFrom(s[1..], IsCased(s[0]))[i - 1];
    }
  }

  /** The character-wise description of `str.title`: word starts upper, the rest lower. */
  lemma {:induction false} TitleAt(s: string, i: nat)
    requires i < |s|
    ensures Title(s)[i] == if StartsWord(s, i) then UpperChar(s[i]) else LowerChar(s[i])
  {
    TitleFromAt(s, false, i);
  }

  /** Title-casing does not depend on the case the input was given in. */
  lemma {:induction false} TitleIgnoresCase(s: string, afterCased: bool)
    ensures TitleFrom(Lower(s), afterCased) == TitleFrom(s, afterCased)
  {
    if s != [] {
      assert Lower(s)[0] == LowerChar(s[0]);
      assert Lower(s)[1..] == Lower(s[1..]);
      TitleIgnoresCase(s[1..], IsCased(s[0]));
    }
  }

  predicate AllLowerLetters(s: string) {
    forall i :: 0 <= i < |s| ==> IsLowerAscii(s[i])
  }

  lemma {:induction false} TitleFromLowerWord(s: string)
    requires AllLowerLetters(s)
    ensures TitleFrom(s, true) == s
  {
    if s != [] {
      TitleFromLowerWord(s[1..]);
    }
  }

  /** A lower-case word is title-cased by capitalising its first letter only. */
  lemma {:induction false} TitleOfLowerWord(s: string)
    requires s != [] && AllLowerLetters(s)
    ensures Title(s) == [UpperChar(s[0])] + s[1..]
  {
    TitleFromLowerWord(s[1..]);
  }

  /** The characters `str.isspace` accepts (Python's Unicode white space). */
  predicate IsSpace(c: char) {
    var n := c as int;
    (0x09 <= n <= 0x0D) || (0x1C <= n <= 0x20) || n == 0x85 || n == 0xA0 || n == 0x1680 ||
    (0x2000 <= n <= 0x200A) || n == 0x2028 || n == 0x2029 || n == 0x202F || n == 0x205F || n == 0x3000
  }

  function TrimStart(s: string): (r: string)
    ensures |r| <= |s| && r == s[|s| - |r|..]
    ensures forall i :: 0 <= i < |s| - |r| ==> IsSpace(s[i])
    ensures r != [] ==> !IsSpace(r[0])
  {
    if s != [] && IsSpace(s[0]) then TrimStart(s[1..]) else s
  }

  function TrimEnd(s: string): (r: string)
    ensures |r| <= |s| && r == s[..|r|]
    ensures forall i :: |r| <= i < |s| ==> IsSpace(s[i])
    ensures r != [] ==> !IsSpace(r[|r| - 1])
  {
    if s != [] && IsSpace(s[|s| - 1]) then TrimEnd(s[..|s| - 1]) else s
  }

  /** `s.strip()`: white space removed from both ends. */
  function Strip(s: string): (r: string)
    ensures r == [] <==> forall i :: 0 <= i < |s| ==> IsSpace(s[i])
    ensures r != [] ==> !IsSpace(r[0]) && !IsSpace(r[|r| - 1])
    ensures |r| <= |s|
    ensures exists a, b :: (0 <= a <= b <= |s| && r == s[a..b] &&
      (forall i :: 0 <= i < a ==> IsSpace(s[i])) && (forall i :: b <= i < |s| ==> IsSpace(s[i])))
  {
    var t := TrimStart(s);
    var r := TrimEnd(t);
    var a := |s| - |t|;
    var b := a + |r|;
    assert r == [] ==> t == [];
    PrefixOfSuffix(s, t, r);
    r
  }

  /** A prefix `r` of a suffix `t` of `s` is the slice of `s` that starts where `t` does. */
  lemma PrefixOfSuffix(s: string, t: string, r: string)
    requires |t| <= |s| && t == s[|s| - |t|..]
    requires |r| <= |t| && r == t[..|r|]
    ensures r == s[|s| - |t|..|s| - |t| + |r|]
    ensures forall i :: |s| - |t| + |r| <= i < |s| ==> s[i] == t[i - (|s| - |t|)]
  {
  }

  lemma StripIdempotent(s: string)
    ensures Strip(Strip(s)) == Strip(s)
  {
    var r := Strip(s);
    assert TrimStart(r) == r;
    assert TrimEnd(r) == r;
  }

  /** Substring `sub` sits at position `i` of `s`. */
  predicate OccursAt(s: string, sub: string, i: nat) {
    i + |sub| <= |s| && s[i..i + |sub|] == sub
  }

  /** Python's `sub in s`. */
  predicate Contains(s: string, sub: string)
    ensures Contains(s, sub) ==> |sub| <= |s|
    ensures sub <= s ==> Contains(s, sub)
    ensures s <= sub ==> (Contains(s, sub) <==> s == sub)
  {
    assert sub <= s ==> OccursAt(s, sub, 0);
    exists i: nat :: i <= |s| && OccursAt(s, sub, i)
  }

  /** `sep.join(parts)`. */
  function Join(sep: string, parts: seq<string>): string {
    if |parts| == 0 then ""
    else if |parts| == 1 then parts[0]
    else parts[0] + sep + Join(sep, parts[1..])
  }

  /** Where the `i`-th part begins in `Join(sep, parts)`. */
  function Offset(sep: string, parts: seq<string>, i: nat): nat
    requires i <= |parts|
  {
    if i == 0 then 0 else |parts[0]| + |sep| + Offset(sep, parts[1..], i - 1)
  }

  /** Consecutive parts begin one part and one separator apart. */
  lemma {:induction false} OffsetStep(sep: string, parts: seq<string>, i: nat)
    requires i < |parts|
    ensures Offset(sep, parts, i + 1) == Offset(sep, parts, i) + |parts[i]| + |sep|
  {
    if i > 0 {
      OffsetStep(sep, parts[1..], i - 1);
    }
  }

  /** An occurrence stays an occurrence when text is put in front. */
  lemma OccursAfterPrefix(a: string, b: string, sub: string, i: nat)
    requires OccursAt(b, sub, i)
    ensures OccursAt(a + b, sub, |a| + i)
  {
  }

  lemma OccursBetween(a: string, sub: string, b: string)
    ensures OccursAt(a + sub + b, sub, |a|)
  {
    assert (a + sub + b)[|a|..|a| + |sub|] == sub;
  }

  /**
   * Every part occurs in the joined text at its offset, in order, and is
   * followed by the separator unless it is the last one.
   */
  lemma {:induction false} JoinLayout(sep: string, parts: seq<string>, i: nat)
    requires i < |parts|
    ensures OccursAt(Join(sep, parts), parts[i], Offset(sep, parts, i))
    ensures i + 1 < |parts| ==> OccursAt(Join(sep, parts), sep, Offset(sep, parts, i) + |parts[i]|)
    ensures i + 1 == |parts| ==> |Join(sep, parts)| == Offset(sep, parts, i) + |parts[i]|
  {
    if |parts| == 1 {
      assert Join(sep, parts)[0..|parts[0]|] == parts[0];
    } else {
      var head := parts[0] + sep;
      var rest := Join(sep, parts[1..]);
      assert Join(sep, parts) == head + rest;
      if i == 0 {
        assert (head + rest)[..|parts[0]|] == parts[0];
        assert (head + rest)[|parts[0]|..|parts[0]| + |sep|] == sep;
      } else {
        JoinLayout(sep, parts[1..], i - 1);
        OccursAfterPrefix(head, rest, parts[i], Offset(sep, parts[1..], i - 1));
        if i + 1 < |parts| {
          OccursAfterPrefix(head, rest, sep, Offset(sep, parts[1..], i - 1) + |parts[i]|);
        }
      }
    }
  }

  /** `JoinLayout` for a joined text that follows a fixed prefix. */
  lemma PrefixedJoinLayout(prefix: string, sep: string, parts: seq<string>, i: nat)
    requires i < |parts|
    ensures (prefix + Join(sep, parts))[..|prefix|] == prefix
    ensures OccursAt(prefix + Join(sep, parts), parts[i], |prefix| + Offset(sep, parts, i))
    ensures i + 1 < |parts| ==>
      OccursAt(prefix + Join(sep, parts), sep, |prefix| + Offset(sep, parts, i) + |parts[i]|)
    ensures i + 1 == |parts| ==>
      |prefix + Join(sep, parts)| == |prefix| + Offset(sep, parts, i) + |parts[i]|
  {
    JoinLayout(sep, parts, i);
    OccursAfterPrefix(prefix, Join(sep, parts), parts[i], Offset(sep, parts, i));
    if i + 1 < |parts| {
      OccursAfterPrefix(prefix, Join(sep, parts), sep, Offset(sep, parts, i) + |parts[i]|);
    }
  }

  predicate IsDigit(c: char) { '0' <= c <= '9' }

  predicate AllDigits(s: string) {
    forall i :: 0 <= i < |s| ==> IsDigit(s[i])
  }

  function DigitChar(d: nat): (c: char)
    requires d < 10
    ensures IsDigit(c)
  {
    ('0' as int + d) as char
  }

  function DigitValue(c: char): (d: nat)
    requires IsDigit(c)
    ensures d < 10 && DigitChar(d) == c
  {
    c as int - '0' as int
  }

  /** `str(n)` for a natural number: its decimal digits, most significant first. */
  function Decimal(n: nat): (r: string)
    ensures r != [] && AllDigits(r)
  {
    if n < 10 then [DigitChar(n)] else Decimal(n / 10) + [DigitChar(n % 10)]
  }

  /** `str(n)` has no leading zero, except for `0` itself. */
  lemma {:induction false} DecimalCanonical(n: nat)
    ensures Decimal(n)[0] == '0' <==> n == 0
  {
    if n >= 10 {
      DecimalCanonical(n / 10);
    }
  }

  /** `int(s)` for a string of decimal digits. */
  function ParseDecimal(s: string): nat
    requires AllDigits(s)
  {
    if s == [] then 0 else 10 * ParseDecimal(s[..|s| - 1]) + DigitValue(s[|s| - 1])
  }

  lemma {:induction false} DecimalRoundTrip(n: nat)
    ensures ParseDecimal(Decimal(n)) == n
  {
    var r := Decimal(n);
    if n < 10 {
      assert r[..0] == [];
    } else {
      assert r[..|r| - 1] == Decimal(n / 10);
      DecimalRoundTrip(n / 10);
    }
  }

  /** Different numbers are written differently. */
  lemma DecimalInjective(m: nat, n: nat)
    requires Decimal(m) == Decimal(n)
    ensures m == n
  {
    DecimalRoundTrip(m);
    DecimalRoundTrip(n);
  }
}
