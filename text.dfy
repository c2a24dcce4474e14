/** String and number-text operations that the program takes from its two
    runtimes: JavaScript's toLowerCase/toUpperCase, String.prototype.includes,
    integer-to-text conversion and parseInt on the frontend; Python's str.strip,
    str.split and float() on the backend.  Characters are Unicode scalar values;
    case conversion is the ASCII part of the Unicode mapping. */
module Text {
  import opened Options

  // ---------------------------------------------------------------------------
  // Case conversion (ASCII letters; every other character is left as it is)

  predicate IsUpperLetter(c: char) { 'A' <= c <= 'Z' }
  predicate IsLowerLetter(c: char) { 'a' <= c <= 'z' }

  function LowerChar(c: char): char
  {
    if IsUpperLetter(c) then (c as int + 32) as char else c
  }

  function UpperChar(c: char): char
  {
    if IsLowerLetter(c) then (c as int - 32) as char else c
  }

  /** String.prototype.toLowerCase */
  function ToLower(s: string): string
  {
    seq(|s|, i requires 0 <= i < |s| => LowerChar(s[i]))
  }

  /** String.prototype.toUpperCase */
  function ToUpper(s: string): string
  {
    seq(|s|, i requires 0 <= i < |s| => UpperChar(s[i]))
  }

  /** Upper-casing leaves no lower-case letter behind and keeps the length. */
  lemma UpperHasNoLower(s: string)
    ensures |ToUpper(s)| == |s|
    ensures forall i :: 0 <= i < |s| ==> !IsLowerLetter(ToUpper(s)[i])
  {
  }

  /** Upper-casing twice is upper-casing once. */
  lemma UpperIdempotent(s: string)
    ensures ToUpper(ToUpper(s)) == ToUpper(s)
  {
  }

  /** Lower-casing forgets an earlier upper-casing, so a case-insensitive
      comparison gives the same answer before and after upper-casing. */
  lemma LowerOfUpper(s: string)
    ensures ToLower(ToUpper(s)) == ToLower(s)
  {
  }

  // ---------------------------------------------------------------------------
  // Substring search (String.prototype.includes)

  predicate StartsWith(s: string, prefix: string)
  {
    |prefix| <= |s| && s[..|prefix|] == prefix
  }

  predicate EndsWith(s: string, suffix: string)
  {
    |suffix| <= |s| && s[|s| - |suffix|..] == suffix
  }

  /** A text followed by `suffix` ends with `suffix`. */
  lemma EndsWithAppended(t: string, suffix: string)
    ensures EndsWith(t + suffix, suffix)
  {
    assert (t + suffix)[|t|..] == suffix;
  }

  /** `s.includes(sub)`: `sub` starts at some position of `s`. */
  predicate Contains(s: string, sub: string)
    decreases |s|
  {
    StartsWith(s, sub) || (|s| > 0 && Contains(s[1..], sub))
  }

  /** `sub` occurs in `s` starting at position `i`. */
  predicate OccursAt(s: string, sub: string, i: int)
  {
    0 <= i <= |s| - |sub| && s[i..i + |sub|] == sub
  }

  /** Contains agrees with the positional definition of an occurrence. */
  lemma {:induction false} ContainsIffOccurs(s: string, sub: string)
    ensures Contains(s, sub) <==> exists i :: OccursAt(s, sub, i)
    decreases |s|
  {
    if StartsWith(s, sub) {
      assert OccursAt(s, sub, 0);
    } else if |s| == 0 {
      assert forall i :: !OccursAt(s, sub, i);
    } else {
      var t := s[1..];
      ContainsIffOccurs(t, sub);
      if Contains(t, sub) {
        var i :| OccursAt(t, sub, i);
        assert s[i + 1..i + 1 + |sub|] == t[i..i + |sub|];
        assert OccursAt(s, sub, i + 1);
      } else {
        forall i | 0 <= i <= |s| - |sub|
          ensures !OccursAt(s, sub, i)
        {
          if i == 0 {
            assert s[..|sub|] == s[0..0 + |sub|];
          } else {
            assert !OccursAt(t, sub, i - 1);
            assert t[i - 1..] == s[i..];
            assert t[i - 1..i - 1 + |sub|] == t[i - 1..][..|sub|];
            assert s[i..i + |sub|] == s[i..][..|sub|];
          }
        }
      }
    }
  }

  /** The empty string occurs in every string. */
  lemma ContainsEmpty(s: string)
    ensures Contains(s, "")
  {
    assert StartsWith(s, "");
  }

  // ---------------------------------------------------------------------------
  // Python str.strip() with no argument: the characters of str.isspace()

  predicate IsPySpace(c: char)
  {
    var n := c as int;
    || 0x09 <= n <= 0x0D || 0x1C <= n <= 0x20 || n == 0x85 || n == 0xA0
    || n == 0x1680 || 0x2000 <= n <= 0x200A || n == 0x2028 || n == 0x2029
    || n == 0x202F || n == 0x205F || n == 0x3000
  }

  predicate AllSpace(s: string)
  {
    forall k :: 0 <= k < |s| ==> IsPySpace(s[k])
  }

  /** Drops leading white space: what is left is a suffix of `s` that does not
      start with white space, and everything dropped was white space. */
  function TrimStart(s: string): (r: string)
    ensures |r| <= |s| && r == s[|s| - |r|..]
    ensures AllSpace(s[..|s| - |r|])
    ensures r == [] || !IsPySpace(r[0])
    decreases |s|
  {
    if s != [] && IsPySpace(s[0]) then
      var r := TrimStart(s[1..]);
      assert s[..|s| - |r|] == [s[0]] + s[1..][..|s| - 1 - |r|];
      r
    else s
  }

  /** Drops trailing white space: what is left is a prefix of `s` that does not
      end with white space, and everything dropped was white space. */
  function TrimEnd(s: string): (r: string)
    ensures |r| <= |s| && r == s[..|r|]
    ensures AllSpace(s[|r|..])
    ensures r == [] || !IsPySpace(r[|r| - 1])
    decreases |s|
  {
    if s != [] && IsPySpace(s[|s| - 1]) then
      var r := TrimEnd(s[..|s| - 1]);
      assert s[|r|..] == s[..|s| - 1][|r|..] + [s[|s| - 1]];
      r
    else s
  }

  /** `t` neither starts nor ends with white space. */
  predicate Stripped(t: string)
  {
    t == [] || (!IsPySpace(t[0]) && !IsPySpace(t[|t| - 1]))
  }

  /** str.strip(): `s` without its leading and trailing white space. */
  function Strip(s: string): (r: string)
    ensures Stripped(r)
  {
    TrimEnd(TrimStart(s))
  }

  /** `r` stands in `s` at position `i` with only white space around it. */
  predicate StripsTo(s: string, r: string, i: int)
  {
    0 <= i <= |s| - |r| && s[i..i + |r|] == r && AllSpace(s[..i]) && AllSpace(s[i + |r|..])
  }

  /** What strip() keeps is a contiguous part of `s`, and what it drops on
      either side is white space. */
  lemma StripKeepsInfix(s: string)
    ensures exists i :: StripsTo(s, Strip(s), i)
  {
    var t := TrimStart(s);
    var r := TrimEnd(t);
    var i := |s| - |t|;
    assert r == Strip(s);
    assert AllSpace(s[..i]);
    assert s[i..i + |r|] == r by {
      assert t == s[i..] && r == t[..|r|];
    }
    assert AllSpace(s[i + |r|..]) by {
      assert t == s[i..];
      assert s[i + |r|..] == t[|r|..];
    }
    assert StripsTo(s, r, i);
  }

  /** Stripping twice is stripping once. */
  lemma StripIdempotent(s: string)
    ensures Strip(Strip(s)) == Strip(s)
  {
  }

  // ---------------------------------------------------------------------------
  // Python str.split(sep) with a one-character separator

  /** The pieces of `s` between occurrences of `sep`; there is always at least
      one piece and no piece contains the separator. */
  function Split(s: string, sep: char): (parts: seq<string>)
    ensures |parts| >= 1
    ensures forall i :: 0 <= i < |parts| ==> sep !in parts[i]
    decreases |s|
  {
    if s == [] then [""]
    else
      var rest := Split(s[1..], sep);
      if s[0] == sep then [""] + rest
      else [[s[0]] + rest[0]] + rest[1..]
  }

  /** sep.join(parts) */
  function Join(parts: seq<string>, sep: char): string
    requires |parts| >= 1
  {
    if |parts| == 1 then parts[0] else parts[0] + [sep] + Join(parts[1..], sep)
  }

  /** Joining the pieces of a split gives back the string. */
  lemma {:induction false} JoinSplit(s: string, sep: char)
    ensures Join(Split(s, sep), sep) == s
    decreases |s|
  {
    if s != [] {
      var rest := Split(s[1..], sep);
      JoinSplit(s[1..], sep);
      if s[0] == sep {
        assert Split(s, sep)[1..] == rest;
      } else {
        var parts := Split(s, sep);
        assert parts[1..] == rest[1..];
        if |rest| == 1 {
          assert parts == [[s[0]] + rest[0]];
        } else {
          assert Join(rest, sep) == rest[0] + [sep] + Join(rest[1..], sep);
        }
      }
    }
  }

  /** Splitting a separator-free piece followed by more text. */
  lemma {:induction false} SplitPrefix(p: string, t: string, sep: char)
    requires sep !in p
    ensures Split(p + t, sep) == [p + Split(t, sep)[0]] + Split(t, sep)[1..]
    decreases |p|
  {
    if p != [] {
      assert (p + t)[1..] == p[1..] + t;
      assert p[0] in p;
      SplitPrefix(p[1..], t, sep);
      assert [p[0]] + (p[1..] + Split(t, sep)[0]) == p + Split(t, sep)[0];
    } else {
      assert p + t == t;
      var parts := Split(t, sep);
      assert p + parts[0] == parts[0];
      assert parts == [parts[0]] + parts[1..];
    }
  }

  /** Splitting a join of separator-free pieces gives back the pieces. */
  lemma {:induction false} SplitJoin(parts: seq<string>, sep: char)
    requires |parts| >= 1
    requires forall i :: 0 <= i < |parts| ==> sep !in parts[i]
    ensures Split(Join(parts, sep), sep) == parts
    decreases |parts|
  {
    if |parts| == 1 {
      SplitPrefix(parts[0], "", sep);
      assert parts[0] + "" == parts[0];
    } else {
      var tail := Join(parts[1..], sep);
      SplitJoin(parts[1..], sep);
      SplitPrefix(parts[0], [sep] + tail, sep);
      assert parts[0] + [sep] + tail == parts[0] + ([sep] + tail);
      assert ([sep] + tail)[1..] == tail;
      assert parts[0] + "" == parts[0];
    }
  }

  // ---------------------------------------------------------------------------
  // Decimal digits

  predicate IsDigit(c: char) { '0' <= c <= '9' }

  predicate AllDigits(s: string)
  {
    forall k :: 0 <= k < |s| ==> IsDigit(s[k])
  }

  function DigitChar(d: nat): (c: char)
    requires d < 10
    ensures IsDigit(c) && c as int - '0' as int == d
  {
    (d + '0' as int) as char
  }

  function DigitValue(c: char): nat
    requires IsDigit(c)
  {
    c as int - '0' as int
  }

  /** The number written by a string of decimal digits ("" writes 0). */
  function DigitsValue(s: string): nat
    requires AllDigits(s)
  {
    if s == [] then 0 else DigitsValue(s[..|s| - 1]) * 10 + DigitValue(s[|s| - 1])
  }

  /** The canonical decimal text of a natural number: digits only, no leading
      zero. */
  function NatToText(n: nat): (s: string)
    ensures |s| >= 1 && AllDigits(s)
    ensures |s| > 1 ==> s[0] != '0'
  {
    if n < 10 then [DigitChar(n)] else NatToText(n / 10) + [DigitChar(n % 10)]
  }

  /** JavaScript's text of an integral number (`${n}`), below 10^21. */
  function IntToText(i: int): string
  {
    if i < 0 then "-" + NatToText(-i) else NatToText(i)
  }

  /** Reading the decimal text of `n` gives `n` back. */
  lemma {:induction false} NatToTextValue(n: nat)
    ensures DigitsValue(NatToText(n)) == n
  {
    if n >= 10 {
      NatToTextValue(n / 10);
      var s := NatToText(n);
      assert s[..|s| - 1] == NatToText(n / 10);
    }
  }

  /** The longest prefix of `s` made of decimal digits. */
  function LeadingDigits(s: string): (d: string)
    ensures AllDigits(d) && StartsWith(s, d)
    ensures |d| == |s| || !IsDigit(s[|d|])
  {
    if s != [] && IsDigit(s[0]) then [s[0]] + LeadingDigits(s[1..]) else []
  }

  /** The white space JavaScript's parseInt skips: the ASCII ones, no-break
      space, the byte-order mark, the other Unicode space separators and the
      line and paragraph separators. */
  predicate IsJsSpace(c: char)
  {
    var n := c as int;
    n == 0x20 || 0x09 <= n <= 0x0D || n == 0xA0 || n == 0xFEFF || n == 0x2028 || n == 0x2029 ||
    n == 0x1680 || 0x2000 <= n <= 0x200A || n == 0x202F || n == 0x205F || n == 0x3000
  }

  function SkipJsSpace(s: string): string
  {
    if s != [] && IsJsSpace(s[0]) then SkipJsSpace(s[1..]) else s
  }

  /** JavaScript's parseInt(s) with radix 10: skip leading white space, read an
      optional sign and then the longest run of digits; no digits is NaN,
      written None. */
  function ParseInt(s: string): Option<int>
  {
    var t := SkipJsSpace(s);
    var negative := |t| > 0 && t[0] == '-';
    var u := if |t| > 0 && (t[0] == '-' || t[0] == '+') then t[1..] else t;
    var digits := LeadingDigits(u);
    if digits == [] then None
    else if negative then Some(-(DigitsValue(digits) as int))
    else Some(DigitsValue(digits))
  }

  lemma {:induction false} LeadingDigitsOfDigits(d: string, rest: string)
    requires AllDigits(d)
    requires rest == [] || !IsDigit(rest[0])
    ensures LeadingDigits(d + rest) == d
    decreases |d|
  {
    if d == [] {
      assert d + rest == rest;
    } else {
      assert (d + rest)[1..] == d[1..] + rest;
      LeadingDigitsOfDigits(d[1..], rest);
    }
  }

  /** parseInt reads a run of digits up to the first character that is not
      a digit. */
  lemma ParseIntOfDigits(d: string, rest: string)
    requires d != [] && AllDigits(d)
    requires rest == [] || !IsDigit(rest[0])
    ensures ParseInt(d + rest) == Some(DigitsValue(d))
  {
    var t := d + rest;
    assert SkipJsSpace(t) == t by {
      assert IsDigit(d[0]) && t[0] == d[0];
    }
    assert LeadingDigits(t) == d by {
      LeadingDigitsOfDigits(d, rest);
    }
  }

  /** After a minus sign parseInt reads the digits that follow, negated. */
  lemma ParseIntAfterMinus(t: string, d: string)
    requires |t| > 0 && t[0] == '-'
    requires d != [] && LeadingDigits(t[1..]) == d
    ensures ParseInt(t) == Some(-(DigitsValue(d) as int))
  {
    assert !IsJsSpace(t[0]);
  }

  /** ... and so it does after a minus sign. */
  lemma ParseIntOfNegatedDigits(d: string, rest: string)
    requires d != [] && AllDigits(d)
    requires rest == [] || !IsDigit(rest[0])
    ensures ParseInt("-" + d + rest) == Some(-(DigitsValue(d) as int))
  {
    var t := "-" + d + rest;
    assert t[0] == '-' && t[1..] == d + rest;
    LeadingDigitsOfDigits(d, rest);
    ParseIntAfterMinus(t, d);
  }

  /** parseInt reads back the text of an integer, whatever follows it, as long
      as the text is not followed by another digit. */
  lemma ParseIntOfText(i: int, rest: string)
    requires rest == [] || !IsDigit(rest[0])
    ensures ParseInt(IntToText(i) + rest) == Some(i)
  {
    var n: nat := if i < 0 then -i else i;
    NatToTextValue(n);
    if i < 0 {
      ParseIntOfNegatedDigits(NatToText(n), rest);
    } else {
      ParseIntOfDigits(NatToText(n), rest);
    }
  }

  // ---------------------------------------------------------------------------
  // Python float() on a decimal literal

  function Pow10(k: nat): (p: nat)
    ensures p >= 1
  {
    if k == 0 then 1 else 10 * Pow10(k - 1)
  }

  /** The value of the digits after a decimal point. */
  function FractionValue(d: string): real
    requires AllDigits(d)
  {
    DigitsValue(d) as real / Pow10(|d|) as real
  }

  /** A decimal literal without sign: digits, or digits '.' digits with at
      least one digit on some side. */
  function UnsignedDecimal(b: string): Option<real>
  {
    var parts := Split(b, '.');
    if |parts| == 1 && parts[0] != [] && AllDigits(parts[0]) then
      Some(DigitsValue(parts[0]) as real)
    else if |parts| == 2 && (parts[0] != [] || parts[1] != [])
            && AllDigits(parts[0]) && AllDigits(parts[1]) then
      Some(DigitsValue(parts[0]) as real + FractionValue(parts[1]))
    else None
  }

  /** float(s) for a decimal literal: surrounding white space is ignored, an
      optional sign is read, then an unsigned decimal; anything else raises
      ValueError, written None. */
  function ParseFloat(s: string): Option<real>
  {
    SignedDecimal(Strip(s))
  }

  /** An optional sign followed by an unsigned decimal. */
  function SignedDecimal(t: string): Option<real>
  {
    if |t| > 0 && (t[0] == '-' || t[0] == '+') then
      match UnsignedDecimal(t[1..])
      case None => None
      case Some(v) => Some(if t[0] == '-' then -v else v)
    else UnsignedDecimal(t)
  }

  /** A non-empty run of digits is read as the number it writes. */
  lemma UnsignedDecimalOfDigits(d: string)
    requires d != [] && AllDigits(d)
    ensures UnsignedDecimal(d) == Some(DigitsValue(d) as real)
  {
    assert '.' !in d;
    SplitPrefix(d, "", '.');
    assert d + "" == d;
  }

  /** float() of a text without white space reads it as a signed decimal. */
  lemma ParseFloatOfUnspaced(t: string)
    requires forall k :: 0 <= k < |t| ==> !IsPySpace(t[k])
    ensures ParseFloat(t) == SignedDecimal(t)
  {
    assert Strip(t) == t;
  }

  /** float() reads a run of digits as the number it writes. */
  lemma ParseFloatOfDigits(d: string)
    requires d != [] && AllDigits(d)
    ensures ParseFloat(d) == Some(DigitsValue(d) as real)
  {
    assert forall k :: 0 <= k < |d| ==> !IsPySpace(d[k]) by {
      forall k | 0 <= k < |d| ensures !IsPySpace(d[k]) {
        assert IsDigit(d[k]);
      }
    }
    ParseFloatOfUnspaced(d);
    assert d[0] != '-' && d[0] != '+' by {
      assert IsDigit(d[0]);
    }
    UnsignedDecimalOfDigits(d);
  }

  /** A minus sign negates the unsigned decimal after it. */
  lemma SignedDecimalAfterMinus(t: string, v: real)
    requires |t| > 0 && t[0] == '-' && UnsignedDecimal(t[1..]) == Some(v)
    ensures SignedDecimal(t) == Some(-v)
  {
  }

  /** ... and after a minus sign, the negated number. */
  lemma ParseFloatOfMinusDigits(t: string)
    requires |t| >= 2 && t[0] == '-' && AllDigits(t[1..])
    ensures ParseFloat(t) == Some(-(DigitsValue(t[1..]) as real))
  {
    assert forall k :: 0 <= k < |t| ==> !IsPySpace(t[k]) by {
      forall k | 0 <= k < |t| ensures !IsPySpace(t[k]) {
        if k > 0 {
          assert t[k] == t[1..][k - 1];
        }
      }
    }
    ParseFloatOfUnspaced(t);
    UnsignedDecimalOfDigits(t[1..]);
    SignedDecimalAfterMinus(t, DigitsValue(t[1..]) as real);
  }

  /** float() reads back the decimal text of a natural number. */
  lemma ParseFloatOfNatText(n: nat)
    ensures ParseFloat(NatToText(n)) == Some(n as real)
  {
    NatToTextValue(n);
    ParseFloatOfDigits(NatToText(n));
  }

}
