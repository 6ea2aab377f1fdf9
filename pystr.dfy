/**
 * The few Python string operations the bot relies on, with Python's meaning:
 * `str.isspace`, `str.strip(chars)` and `str.strip()`, `str.split(sep)`,
 * `str.lower()` (on ASCII letters), `str(n)` for a natural number and `int(s)`.
 */
module PyStr {
  import opened Wrappers

  /**
   * Python's `str.isspace()` on one character. It includes the ASCII blanks
   * and excludes the characters of a number, a path separator and `_`.
   */
  predicate IsSpace(c: char): (b: bool)
    ensures c == ' ' || c == '\t' || c == '\n' || c == '\r' ==> b
    ensures b ==> !('0' <= c <= '9') && c != '+' && c != '-' && c != '/' && c != '_'
  {
    var n := c as int;
    (9 <= n <= 13) || (28 <= n <= 32) || n == 0x85 || n == 0xA0 || n == 0x1680
    || (0x2000 <= n <= 0x200A) || n == 0x2028 || n == 0x2029 || n == 0x202F
    || n == 0x205F || n == 0x3000
  }

  /**
   * The white space `int(s)` skips around a number. It is `IsSpace` without
   * the four ASCII information separators U+001C..U+001F, which `isspace()`
   * accepts but the integer parser does not.
   */
  predicate IsIntSpace(c: char): (b: bool)
    ensures b ==> IsSpace(c)
    ensures 28 <= c as int <= 31 ==> !b
    ensures c == ' ' || c == '\t' || c == '\n' || c == '\r' ==> b
  {
    IsSpace(c) && !(28 <= c as int <= 31)
  }

  /** The character set of `strip("/")`. */
  predicate IsSlash(c: char) {
    c == '/'
  }

  // ---------------------------------------------------------------- strip

  /** Drops the leading characters that satisfy `drop` (Python `lstrip`). */
  function StripLeft(s: string, drop: char -> bool): (r: string)
    ensures |r| <= |s|
    ensures forall i | 0 <= i < |s| - |r| :: drop(s[i])
    ensures r == [] || !drop(r[0])
    decreases |s|
  {
    if s != [] && drop(s[0]) then StripLeft(s[1..], drop) else s
  }

  /** Drops the trailing characters that satisfy `drop` (Python `rstrip`). */
  function StripRight(s: string, drop: char -> bool): (r: string)
    ensures |r| <= |s|
    ensures forall i | |r| <= i < |s| :: drop(s[i])
    ensures r == [] || !drop(r[|r| - 1])
    decreases |s|
  {
    if s != [] && drop(s[|s| - 1]) then StripRight(s[..|s| - 1], drop) else s
  }

  /**
   * Python `strip`: removes the characters satisfying `drop` from both ends.
   * The result is empty exactly when every character is dropped, and
   * otherwise neither starts nor ends with a dropped character.
   */
  function Strip(s: string, drop: char -> bool): (r: string)
    ensures r == [] || (!drop(r[0]) && !drop(r[|r| - 1]))
    ensures r == [] <==> forall i | 0 <= i < |s| :: drop(s[i])
  {
    var l := StripLeft(s, drop);
    StripLeftIsSuffix(s, drop);
    var r := StripRight(l, drop);
    StripRightIsPrefix(l, drop);
    assert r == [] ==> l == [];
    r
  }

  /** What `lstrip` keeps is a suffix of its argument. */
  lemma {:induction false} StripLeftIsSuffix(s: string, drop: char -> bool)
    ensures StripLeft(s, drop) == s[|s| - |StripLeft(s, drop)|..]
    decreases |s|
  {
    if s != [] && drop(s[0]) {
      StripLeftIsSuffix(s[1..], drop);
    }
  }

  /** What `rstrip` keeps is a prefix of its argument. */
  lemma {:induction false} StripRightIsPrefix(s: string, drop: char -> bool)
    ensures StripRight(s, drop) == s[..|StripRight(s, drop)|]
    decreases |s|
  {
    if s != [] && drop(s[|s| - 1]) {
      StripRightIsPrefix(s[..|s| - 1], drop);
    }
  }

  lemma {:induction false} StripLeftPadded(pre: string, rest: string, drop: char -> bool)
    requires forall i | 0 <= i < |pre| :: drop(pre[i])
    requires rest == [] || !drop(rest[0])
    ensures StripLeft(pre + rest, drop) == rest
    decreases |pre|
  {
    if pre == [] {
      assert pre + rest == rest;
    } else {
      assert (pre + rest)[0] == pre[0];
      assert (pre + rest)[1..] == pre[1..] + rest;
      StripLeftPadded(pre[1..], rest, drop);
    }
  }

  lemma {:induction false} StripRightPadded(rest: string, suf: string, drop: char -> bool)
    requires forall i | 0 <= i < |suf| :: drop(suf[i])
    requires rest == [] || !drop(rest[|rest| - 1])
    ensures StripRight(rest + suf, drop) == rest
    decreases |suf|
  {
    if suf == [] {
      assert rest + suf == rest;
    } else {
      var s := rest + suf;
      assert s[|s| - 1] == suf[|suf| - 1];
      assert s[..|s| - 1] == rest + suf[..|suf| - 1];
      StripRightPadded(rest, suf[..|suf| - 1], drop);
    }
  }

  /**
   * `strip` removes exactly the padding: a core that neither starts nor ends
   * with a dropped character, surrounded by dropped characters, strips to the core.
   */
  lemma StripPadded(pre: string, core: string, suf: string, drop: char -> bool)
    requires forall i | 0 <= i < |pre| :: drop(pre[i])
    requires forall i | 0 <= i < |suf| :: drop(suf[i])
    requires core == [] || (!drop(core[0]) && !drop(core[|core| - 1]))
    ensures Strip(pre + core + suf, drop) == core
  {
    if core == [] {
      assert pre + core + suf == pre + suf;
      StripLeftPadded(pre + suf, [], drop);
      assert pre + suf + [] == pre + suf;
    } else {
      assert pre + core + suf == pre + (core + suf);
      StripLeftPadded(pre, core + suf, drop);
      StripRightPadded(core, suf, drop);
    }
  }

  /** A string that neither starts nor ends with a dropped character is its own strip. */
  lemma StripUnpadded(s: string, drop: char -> bool)
    requires s == [] || (!drop(s[0]) && !drop(s[|s| - 1]))
    ensures Strip(s, drop) == s
  {
    assert [] + s + [] == s;
    StripPadded([], s, [], drop);
  }

  /** Stripping twice is stripping once. */
  lemma StripIdempotent(s: string, drop: char -> bool)
    ensures Strip(Strip(s, drop), drop) == Strip(s, drop)
  {
    StripUnpadded(Strip(s, drop), drop);
  }

  // ---------------------------------------------------------------- split

  /**
   * Python `s.split(sep)` for a one-character separator: the pieces between
   * the separators, never fewer than one, none containing the separator.
   */
  function Split(s: string, sep: char): (parts: seq<string>)
    ensures |parts| >= 1
    ensures forall i | 0 <= i < |parts| :: sep !in parts[i]
    decreases |s|
  {
    if s == [] then [[]]
    else
      var rest := Split(s[1..], sep);
      if s[0] == sep then [[]] + rest
      else [[s[0]] + rest[0]] + rest[1..]
  }

  /** Python `sep.join(parts)`, the inverse of `Split`. */
  function Join(parts: seq<string>, sep: char): string
    requires |parts| >= 1
    decreases |parts|
  {
    if |parts| == 1 then parts[0] else parts[0] + [sep] + Join(parts[1..], sep)
  }

  lemma {:induction false} JoinSplit(s: string, sep: char)
    ensures Join(Split(s, sep), sep) == s
    decreases |s|
  {
    if s != [] {
      var rest := Split(s[1..], sep);
      JoinSplit(s[1..], sep);
      if s[0] == sep {
        assert Split(s, sep)[1..] == rest;
      } else if |rest| > 1 {
        var parts := Split(s, sep);
        assert parts[1..] == rest[1..];
        assert Join(rest, sep) == rest[0] + [sep] + Join(rest[1..], sep);
        assert s == [s[0]] + s[1..];
      } else {
        assert s == [s[0]] + s[1..];
      }
    }
  }

  /** Splitting at the first separator: the piece before it comes first. */
  lemma {:induction false} SplitAfterPiece(a: string, sep: char, b: string)
    requires sep !in a
    ensures Split(a + [sep] + b, sep) == [a] + Split(b, sep)
    decreases |a|
  {
    var s := a + [sep] + b;
    if a == [] {
      assert s[0] == sep;
      assert s[1..] == b;
    } else {
      assert s[0] == a[0];
      assert s[1..] == a[1..] + [sep] + b;
      SplitAfterPiece(a[1..], sep, b);
      assert [a[0]] + a[1..] == a;
    }
  }

  lemma {:induction false} SplitWithoutSeparator(s: string, sep: char)
    requires sep !in s
    ensures Split(s, sep) == [s]
    decreases |s|
  {
    if s != [] {
      SplitWithoutSeparator(s[1..], sep);
      assert [s[0]] + s[1..] == s;
    }
  }

  lemma {:induction false} SplitWithSeparator(s: string, sep: char)
    requires sep in s
    ensures |Split(s, sep)| >= 2
    decreases |s|
  {
    if s[0] != sep {
      SplitWithSeparator(s[1..], sep);
    }
  }

  // ---------------------------------------------------------------- lower

  /** Python `lower()` on one character, for the ASCII letters. */
  function LowerChar(c: char): char {
    if 'A' <= c <= 'Z' then (c as int + 32) as char else c
  }

  /** Python `str.lower()`, character by character. */
  function Lower(s: string): (r: string)
    ensures |r| == |s| && forall i | 0 <= i < |s| :: r[i] == LowerChar(s[i])
  {
    seq(|s|, i requires 0 <= i < |s| => LowerChar(s[i]))
  }

  lemma LowerIdempotent(s: string)
    ensures Lower(Lower(s)) == Lower(s)
  {
    var l := Lower(s);
    forall i | 0 <= i < |s| ensures Lower(l)[i] == l[i] {
      assert LowerChar(LowerChar(s[i])) == LowerChar(s[i]);
    }
  }

  // ---------------------------------------------------------------- numbers

  predicate IsDigit(c: char) {
    '0' <= c <= '9'
  }

  predicate AllDigits(s: string) {
    forall i | 0 <= i < |s| :: IsDigit(s[i])
  }

  function DigitChar(d: nat): (c: char)
    requires d < 10
    ensures IsDigit(c) && c as int - '0' as int == d
  {
    ('0' as int + d) as char
  }

  /** Python `str(n)`: the decimal digits of `n`, with no leading zero. */
  function NatToString(n: nat): (r: string)
    ensures |r| >= 1 && AllDigits(r)
    ensures r[0] == '0' ==> n == 0
    decreases n
  {
    if n < 10 then [DigitChar(n)] else NatToString(n / 10) + [DigitChar(n % 10)]
  }

  /** The number a string of decimal digits denotes. */
  function DigitsValue(s: string): nat
    requires AllDigits(s)
    decreases |s|
  {
    if s == [] then 0
    else DigitsValue(s[..|s| - 1]) * 10 + (s[|s| - 1] as int - '0' as int)
  }

  /**
   * Python `int(s)`: surrounding white space is ignored, then an optional sign
   * and at least one decimal digit; anything else raises (None here).
   */
  function ParseInt(s: string): (r: Option<int>)
    ensures r.Some? ==> var t := Strip(s, IsIntSpace); |t| >= 1 && IsDigit(t[|t| - 1])
    ensures r.Some? && r.value < 0 ==> Strip(s, IsIntSpace)[0] == '-'
  {
    var t := Strip(s, IsIntSpace);
    if |t| >= 2 && (t[0] == '-' || t[0] == '+') && AllDigits(t[1..]) then
      var v: int := DigitsValue(t[1..]);
      Some(if t[0] == '-' then -v else v)
    else if |t| >= 1 && AllDigits(t) then
      Some(DigitsValue(t))
    else
      None
  }

  lemma {:induction false} DigitsValueOfNatToString(n: nat)
    ensures DigitsValue(NatToString(n)) == n
    decreases n
  {
    if n >= 10 {
      var p := NatToString(n / 10);
      var s := p + [DigitChar(n % 10)];
      assert s[..|s| - 1] == p;
      DigitsValueOfNatToString(n / 10);
    }
  }

  /** `int(str(n)) == n`. */
  lemma ParseIntOfNatToString(n: nat)
    ensures ParseInt(NatToString(n)) == Some(n)
  {
    var s := NatToString(n);
    assert IsDigit(s[0]) && IsDigit(s[|s| - 1]);
    StripUnpadded(s, IsIntSpace);
    assert s[0] != '-' && s[0] != '+';
    DigitsValueOfNatToString(n);
  }

  /** An information separator before a number is not skipped: `int` raises. */
  lemma InfoSeparatorIsNotIntSpace()
    ensures ParseInt([28 as char, '1']) == None
    ensures IsSpace(28 as char)
  {
    var s := [28 as char, '1'];
    StripUnpadded(s, IsIntSpace);
    assert !IsDigit(s[0]);
  }

  /** Distinct numbers print differently. */
  lemma NatToStringInjective(a: nat, b: nat)
    ensures NatToString(a) == NatToString(b) ==> a == b
  {
    ParseIntOfNatToString(a);
    ParseIntOfNatToString(b);
  }
}
