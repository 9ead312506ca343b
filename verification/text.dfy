/**
 * The JavaScript string operations the ERP code applies to user text and
 * to generated document numbers: `trim`, `Number.parseInt`, `split` on one
 * character, `replace` of the first occurrence, `replace(/\D/g, "")`,
 * `includes`, `padStart(3, "0")`, `slice(-n)` and number-to-text.
 */
module Text {
  import opened Js

  /** The characters `String.prototype.trim` and `parseInt` skip: WhiteSpace and LineTerminator. */
  predicate IsSpace(c: char) {
    c == '\t' || c == '\n' || c == '\U{000B}' || c == '\U{000C}' || c == '\r' || c == ' '
    || c == '\U{00A0}' || c == '\U{1680}' || ('\U{2000}' <= c <= '\U{200A}')
    || c == '\U{2028}' || c == '\U{2029}' || c == '\U{202F}' || c == '\U{205F}'
    || c == '\U{3000}' || c == '\U{FEFF}'
  }

  /** `\d` in a JavaScript regular expression: the ASCII digits only. */
  predicate IsDigit(c: char) {
    '0' <= c <= '9'
  }

  predicate AllDigits(s: string) {
    forall i :: 0 <= i < |s| ==> IsDigit(s[i])
  }

  function DigitValue(c: char): nat
    requires IsDigit(c)
  {
    c as int - '0' as int
  }

  function DigitChar(d: nat): (c: char)
    requires d < 10
    ensures IsDigit(c) && DigitValue(c) == d
  {
    ('0' as int + d) as char
  }

  // ---------------------------------------------------------------- numbers

  /** `n.toString()` for a natural number. */
  function Dec(n: nat): (s: string)
    ensures 1 <= |s| && AllDigits(s)
    ensures s[0] == '0' ==> n == 0
    decreases n
  {
    if n < 10 then [DigitChar(n)] else Dec(n / 10) + [DigitChar(n % 10)]
  }

  /** `String(i)` for an integer. */
  function IntStr(i: int): string {
    if i < 0 then "-" + Dec(-i) else Dec(i)
  }

  /** The value of a string of decimal digits, most significant first; "" is 0. */
  function DigitsValue(s: string): nat
    requires AllDigits(s)
  {
    if s == [] then 0 else DigitsValue(s[..|s| - 1]) * 10 + DigitValue(s[|s| - 1])
  }

  /** Reading back the decimal text of `n` gives `n`. */
  lemma {:induction false} DecValue(n: nat)
    ensures DigitsValue(Dec(n)) == n
    decreases n
  {
    if n >= 10 {
      var s := Dec(n);
      assert s[..|s| - 1] == Dec(n / 10);
      DecValue(n / 10);
    }
  }

  /** Distinct numbers have distinct decimal texts. */
  lemma DecInjective(m: nat, n: nat)
    requires Dec(m) == Dec(n)
    ensures m == n
  {
    DecValue(m);
    DecValue(n);
  }

  /** Leading zeros do not change the value of a digit string. */
  lemma {:induction false} LeadingZeros(z: string, s: string)
    requires forall i :: 0 <= i < |z| ==> z[i] == '0'
    requires AllDigits(s)
    ensures AllDigits(z + s) && DigitsValue(z + s) == DigitsValue(s)
    decreases |s|
  {
    if s == [] {
      assert z + s == z;
      ZerosValue(z);
    } else {
      var t := z + s;
      assert t[..|t| - 1] == z + s[..|s| - 1];
      LeadingZeros(z, s[..|s| - 1]);
    }
  }

  lemma {:induction false} ZerosValue(z: string)
    requires forall i :: 0 <= i < |z| ==> z[i] == '0'
    ensures AllDigits(z) && DigitsValue(z) == 0
  {
    if z != [] {
      ZerosValue(z[..|z| - 1]);
    }
  }

  /** `s.padStart(3, "0")`: zeros are added on the left up to three characters; never truncates. */
  function PadStart3(s: string): (r: string)
    ensures |r| == if |s| >= 3 then |s| else 3
    ensures r[|r| - |s|..] == s
    ensures forall i :: 0 <= i < |r| - |s| ==> r[i] == '0'
  {
    if |s| >= 3 then s else seq(3 - |s|, _ => '0') + s
  }

  /** A padded counter reads back as the counter itself. */
  lemma PadStart3Value(n: nat)
    ensures AllDigits(PadStart3(Dec(n)))
    ensures DigitsValue(PadStart3(Dec(n))) == n
  {
    var s := Dec(n);
    var r := PadStart3(s);
    var z := r[..|r| - |s|];
    assert r == z + s;
    LeadingZeros(z, s);
    DecValue(n);
  }

  /** `s.slice(-n)`: the last `n` characters, or all of a shorter string. */
  function Last(s: string, n: nat): (r: string)
    ensures |r| == if |s| <= n then |s| else n
    ensures r <= s[|s| - |r|..]
  {
    if |s| <= n then s else s[|s| - n..]
  }

  // ---------------------------------------------------------------- trimming

  function TrimStart(s: string): (r: string)
    ensures |r| <= |s| && r == s[|s| - |r|..]
    ensures r != [] ==> !IsSpace(r[0])
    ensures forall i :: 0 <= i < |s| - |r| ==> IsSpace(s[i])
  {
    if s != [] && IsSpace(s[0]) then TrimStart(s[1..]) else s
  }

  function TrimEnd(s: string): (r: string)
    ensures r <= s
    ensures r != [] ==> !IsSpace(r[|r| - 1])
    ensures forall i :: |r| <= i < |s| ==> IsSpace(s[i])
  {
    if s != [] && IsSpace(s[|s| - 1]) then TrimEnd(s[..|s| - 1]) else s
  }

  /** `s.trim()`. */
  function Trim(s: string): string {
    TrimEnd(TrimStart(s))
  }

  predicate IsBlank(s: string) {
    forall i :: 0 <= i < |s| ==> IsSpace(s[i])
  }

  /** `!s.trim()` holds exactly when the text is empty or all white space. */
  lemma TrimEmptyIffBlank(s: string)
    ensures Trim(s) == "" <==> IsBlank(s)
  {
    var t := TrimStart(s);
    if Trim(s) == "" {
      assert t == [];
    } else {
      assert !IsSpace(t[0]);
      assert t[0] == s[|s| - |t|];
    }
  }

  /**
   * `!s.trim()`: the text is empty or white space only, checked character by
   * character (`TrimmedEmptyIsTrim` ties it to `Trim`).
   */
  function TrimmedEmpty(s: string): (b: bool)
    ensures b <==> IsBlank(s)
  {
    s == [] || (IsSpace(s[0]) && TrimmedEmpty(s[1..]))
  }

  lemma TrimmedEmptyIsTrim(s: string)
    ensures TrimmedEmpty(s) <==> Trim(s) == ""
  {
    TrimEmptyIffBlank(s);
  }

  /** Text without white space at either end is left as it is. */
  lemma TrimNoSpaceEnds(s: string)
    requires s != [] ==> !IsSpace(s[0]) && !IsSpace(s[|s| - 1])
    ensures Trim(s) == s
  {
  }

  // ---------------------------------------------------------------- searching

  /** `s.includes(t)`. */
  predicate Contains(s: string, t: string)
    decreases |s|
  {
    t <= s || (s != [] && Contains(s[1..], t))
  }

  /** `s.replace(pat, rep)` with a string pattern: only the first occurrence. */
  function ReplaceFirst(s: string, pat: string, rep: string): string
    decreases |s|
  {
    if pat <= s then rep + s[|pat|..]
    else if s == [] then []
    else [s[0]] + ReplaceFirst(s[1..], pat, rep)
  }

  /** A pattern that does not occur leaves the text as it is. */
  lemma {:induction false} ReplaceFirstAbsent(s: string, pat: string, rep: string)
    requires !Contains(s, pat)
    ensures ReplaceFirst(s, pat, rep) == s
    decreases |s|
  {
    if s != [] {
      ReplaceFirstAbsent(s[1..], pat, rep);
      assert [s[0]] + s[1..] == s;
    }
  }

  /** A pattern whose first character never occurs in `s` occurs only after `s`. */
  lemma {:induction false} ReplaceFirstAfter(s: string, pat: string, rep: string, tail: string)
    requires pat != [] && pat[0] !in s
    ensures ReplaceFirst(s + tail, pat, rep) == s + ReplaceFirst(tail, pat, rep)
    decreases |s|
  {
    if s != [] {
      assert (s + tail)[0] == s[0];
      assert !(pat <= s + tail);
      assert (s + tail)[1..] == s[1..] + tail;
      ReplaceFirstAfter(s[1..], pat, rep, tail);
      assert [s[0]] + s[1..] == s;
    } else {
      assert s + tail == tail;
    }
  }

  /** `s.replace(/\D/g, "")`: the ASCII digits of `s`, in order. */
  function KeepDigits(s: string): (r: string)
    ensures AllDigits(r) && |r| <= |s|
  {
    if s == [] then []
    else if IsDigit(s[0]) then [s[0]] + KeepDigits(s[1..])
    else KeepDigits(s[1..])
  }

  lemma {:induction false} KeepDigitsAppend(a: string, b: string)
    ensures KeepDigits(a + b) == KeepDigits(a) + KeepDigits(b)
    decreases |a|
  {
    if a != [] {
      assert (a + b)[1..] == a[1..] + b;
      KeepDigitsAppend(a[1..], b);
    } else {
      assert a + b == b;
    }
  }

  lemma {:induction false} KeepDigitsOfDigits(s: string)
    requires AllDigits(s)
    ensures KeepDigits(s) == s
  {
    if s != [] {
      KeepDigitsOfDigits(s[1..]);
    }
  }

  // ---------------------------------------------------------------- splitting

  /** `s.split(c)` for a one-character separator; always at least one piece. */
  function Split(s: string, c: char): (ps: seq<string>)
    ensures |ps| >= 1
    ensures forall k :: 0 <= k < |ps| ==> c !in ps[k]
  {
    if s == [] then [[]]
    else
      var rest := Split(s[1..], c);
      if s[0] == c then [[]] + rest
      else [[s[0]] + rest[0]] + rest[1..]
  }

  /** `ps.join(c)`. */
  function Join(ps: seq<string>, c: char): string
    requires |ps| >= 1
  {
    if |ps| == 1 then ps[0] else ps[0] + [c] + Join(ps[1..], c)
  }

  /** Splitting a piece without the separator, followed by the separator, peels that piece off. */
  lemma {:induction false} SplitPiece(p: string, c: char, rest: string)
    requires c !in p
    ensures Split(p + [c] + rest, c) == [p] + Split(rest, c)
    decreases |p|
  {
    if p == [] {
      assert p + [c] + rest == [c] + rest;
      assert ([c] + rest)[1..] == rest;
    } else {
      var s := p + [c] + rest;
      assert s[0] == p[0];
      assert s[1..] == p[1..] + [c] + rest;
      SplitPiece(p[1..], c, rest);
      assert [p[0]] + p[1..] == p;
    }
  }

  /** A text without the separator is one piece. */
  lemma {:induction false} SplitNone(p: string, c: char)
    requires c !in p
    ensures Split(p, c) == [p]
    decreases |p|
  {
    if p != [] {
      SplitNone(p[1..], c);
      assert [p[0]] + p[1..] == p;
    }
  }

  /** `split` undoes `join` when no piece holds the separator. */
  lemma {:induction false} SplitJoin(ps: seq<string>, c: char)
    requires |ps| >= 1
    requires forall k :: 0 <= k < |ps| ==> c !in ps[k]
    ensures Split(Join(ps, c), c) == ps
    decreases |ps|
  {
    if |ps| == 1 {
      SplitNone(ps[0], c);
    } else {
      SplitJoin(ps[1..], c);
      SplitPiece(ps[0], c, Join(ps[1..], c));
      assert [ps[0]] + ps[1..] == ps;
    }
  }

  // ---------------------------------------------------------------- parseInt

  predicate IsHexDigit(c: char) {
    IsDigit(c) || ('a' <= c <= 'f') || ('A' <= c <= 'F')
  }

  function HexValue(c: char): nat
    requires IsHexDigit(c)
  {
    if IsDigit(c) then DigitValue(c)
    else if 'a' <= c <= 'f' then c as int - 'a' as int + 10
    else c as int - 'A' as int + 10
  }

  /** The longest prefix of `s` made of decimal digits. */
  function DigitPrefix(s: string): (r: string)
    ensures r <= s && AllDigits(r)
    ensures |r| < |s| ==> !IsDigit(s[|r|])
  {
    if s != [] && IsDigit(s[0]) then [s[0]] + DigitPrefix(s[1..]) else []
  }

  /** The longest prefix of `s` made of hexadecimal digits. */
  function HexPrefix(s: string): (r: string)
    ensures r <= s && forall i :: 0 <= i < |r| ==> IsHexDigit(r[i])
  {
    if s != [] && IsHexDigit(s[0]) then [s[0]] + HexPrefix(s[1..]) else []
  }

  function HexDigitsValue(s: string): nat
    requires forall i :: 0 <= i < |s| ==> IsHexDigit(s[i])
  {
    if s == [] then 0 else HexDigitsValue(s[..|s| - 1]) * 16 + HexValue(s[|s| - 1])
  }

  /**
   * `Number.parseInt(s)` with no radix: leading white space is skipped, one
   * sign is read, a "0x"/"0X" prefix selects base 16, and the longest run
   * of digits is read. No digit at all gives `NaN`, modelled as `None`.
   */
  function ParseInt(s: string): Option<int> {
    var t := TrimStart(s);
    var negative := t != [] && t[0] == '-';
    var u := if t != [] && (t[0] == '-' || t[0] == '+') then t[1..] else t;
    match ParseMagnitude(u)
    case None => None
    case Some(m) => Some(if negative then 0 - m as int else m as int)
  }

  /** The unsigned part of `parseInt`: a `0x` hexadecimal or a decimal digit prefix. */
  function ParseMagnitude(u: string): Option<nat> {
    if |u| >= 2 && u[0] == '0' && (u[1] == 'x' || u[1] == 'X') then
      var h := HexPrefix(u[2..]);
      if h == [] then None else Some(HexDigitsValue(h))
    else
      var d := DigitPrefix(u);
      if d == [] then None else Some(DigitsValue(d))
  }

  /** `parseInt` reads the decimal text of `n` back, whatever non-digit text follows it. */
  lemma ParseIntDec(n: nat, rest: string)
    requires rest != [] ==> !IsDigit(rest[0]) && (n == 0 ==> rest[0] != 'x' && rest[0] != 'X')
    ensures ParseInt(Dec(n) + rest) == Some(n)
  {
    var s := Dec(n) + rest;
    assert s[0] == Dec(n)[0];
    assert TrimStart(s) == s;
    ParseMagnitudeDec(n, rest);
  }

  lemma ParseMagnitudeDec(n: nat, rest: string)
    requires rest != [] ==> !IsDigit(rest[0]) && (n == 0 ==> rest[0] != 'x' && rest[0] != 'X')
    ensures ParseMagnitude(Dec(n) + rest) == Some(n)
  {
    var s := Dec(n) + rest;
    DigitPrefixOf(Dec(n), rest);
    DecValue(n);
    if |Dec(n)| == 1 && |s| >= 2 {
      assert s[1] == rest[0];
    }
  }

  lemma {:induction false} DigitPrefixOf(d: string, rest: string)
    requires AllDigits(d)
    requires rest != [] ==> !IsDigit(rest[0])
    ensures DigitPrefix(d + rest) == d
    decreases |d|
  {
    if d == [] {
      assert d + rest == rest;
    } else {
      assert (d + rest)[1..] == d[1..] + rest;
      DigitPrefixOf(d[1..], rest);
      assert [d[0]] + d[1..] == d;
    }
  }

  // ---------------------------------------------------------------- parseFloat

  function Pow10(k: nat): (p: nat)
    ensures p >= 1
  {
    if k == 0 then 1 else 10 * Pow10(k - 1)
  }

  /** The fraction a string of digits after the decimal point stands for. */
  function Fraction(f: string): (r: real)
    requires AllDigits(f)
    ensures 0.0 <= r
  {
    DigitsValue(f) as real / Pow10(|f|) as real
  }

  /**
   * `Number.parseFloat(s)` on decimal text: leading white space is skipped,
   * one sign is read, then digits with at most one decimal point. No digit
   * at all gives `NaN`, modelled as `None`.
   */
  function ParseFloat(s: string): Option<real> {
    var t := TrimStart(s);
    var negative := t != [] && t[0] == '-';
    var u := if t != [] && (t[0] == '-' || t[0] == '+') then t[1..] else t;
    match ParseUnsignedDecimal(u)
    case None => None
    case Some(m) => Some(if negative then 0.0 - m else m)
  }

  /** The unsigned part of `parseFloat`: integer digits, then an optional point and fraction digits. */
  function ParseUnsignedDecimal(u: string): (r: Option<real>)
    ensures r.Some? ==> r.value >= 0.0
  {
    var whole := DigitPrefix(u);
    var after := u[|whole|..];
    var fraction := if after != [] && after[0] == '.' then DigitPrefix(after[1..]) else [];
    if whole == [] && fraction == [] then None
    else Some(DigitsValue(whole) as real + Fraction(fraction))
  }

  /** `parseFloat` reads the decimal text of `n` back as the number `n`. */
  lemma ParseFloatDec(n: nat)
    ensures ParseFloat(Dec(n)) == Some(n as real)
  {
    var s := Dec(n);
    assert IsDigit(s[0]);
    assert TrimStart(s) == s;
    UnsignedDecimalDec(n);
  }

  lemma UnsignedDecimalDec(n: nat)
    ensures ParseUnsignedDecimal(Dec(n)) == Some(n as real)
  {
    var s := Dec(n);
    DigitPrefixOf(s, []);
    assert s + [] == s;
    assert s[|s|..] == [];
    DecValue(n);
    assert Fraction([]) == 0.0;
  }
}
