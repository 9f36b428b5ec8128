/** The JavaScript string built-ins the core relies on, written out:
    `String.prototype.trim`, `split(',')`, `Array.prototype.join(',')`,
    `Number.prototype.toString` on whole numbers, `parseInt`, `parseFloat`,
    and the relational `<` on strings. */
module JsText {
  import opened Records

  /** ECMAScript WhiteSpace and LineTerminator code points: what `trim`
      removes and what `parseInt` / `parseFloat` skip at the front. */
  predicate IsSpace(c: char) {
    || c == '\t' || c == '\n' || c == '\U{000B}' || c == '\U{000C}' || c == '\r'
    || c == ' ' || c == '\U{00A0}' || c == '\U{1680}'
    || ('\U{2000}' <= c <= '\U{200A}')
    || c == '\U{2028}' || c == '\U{2029}' || c == '\U{202F}' || c == '\U{205F}'
    || c == '\U{3000}' || c == '\U{FEFF}'
  }

  /** Drops the leading white space: the rest is a suffix of `s` that is
      empty or starts with a non-space, and everything dropped is space. */
  function TrimStart(s: string): (r: string)
    ensures |r| <= |s| && r == s[|s| - |r|..]
    ensures forall k :: 0 <= k < |s| - |r| ==> IsSpace(s[k])
    ensures r == [] || !IsSpace(r[0])
  {
    if s != [] && IsSpace(s[0]) then TrimStart(s[1..]) else s
  }

  /** Drops the trailing white space. */
  function TrimEnd(s: string): (r: string)
    ensures |r| <= |s| && r == s[..|r|]
    ensures forall k :: |r| <= k < |s| ==> IsSpace(s[k])
    ensures r == [] || !IsSpace(r[|r| - 1])
  {
    if s != [] && IsSpace(s[|s| - 1]) then TrimEnd(s[..|s| - 1]) else s
  }

  /** `String.prototype.trim`: the infix of `s` left after dropping the
      white space at both ends. */
  function Trim(s: string): (r: string)
    ensures r == [] || (!IsSpace(r[0]) && !IsSpace(r[|r| - 1]))
    ensures |r| <= |TrimStart(s)| && r == TrimStart(s)[..|r|]
    ensures forall k :: |r| <= k < |TrimStart(s)| ==> IsSpace(TrimStart(s)[k])
  {
    TrimEnd(TrimStart(s))
  }

  /** `s.split(sep)` for a one-character separator: the pieces between
      separators, with an empty piece for each empty field. Never empty. */
  function Split(s: string, sep: char): (parts: seq<string>)
    ensures |parts| >= 1
    ensures forall i :: 0 <= i < |parts| ==> sep !in parts[i]
  {
    if s == [] then [""]
    else
      var rest := Split(s[1..], sep);
      if s[0] == sep then [""] + rest else [[s[0]] + rest[0]] + rest[1..]
  }

  /** `parts.join(sep)`. */
  function Join(parts: seq<string>, sep: char): string
  {
    if |parts| == 0 then ""
    else if |parts| == 1 then parts[0]
    else parts[0] + [sep] + Join(parts[1..], sep)
  }

  /** Joining the pieces of a split gives back the string. */
  lemma {:induction false} JoinSplit(s: string, sep: char)
    ensures Join(Split(s, sep), sep) == s
  {
    if s != [] {
      var rest := Split(s[1..], sep);
      JoinSplit(s[1..], sep);
      if s[0] == sep {
        assert Split(s, sep) == [""] + rest;
        assert ([""] + rest)[1..] == rest;
      } else {
        var parts := [[s[0]] + rest[0]] + rest[1..];
        assert Split(s, sep) == parts;
        if |rest| == 1 {
          assert parts == [[s[0]] + rest[0]];
        } else {
          assert parts[1..] == rest[1..];
          assert Join(rest, sep) == rest[0] + [sep] + Join(rest[1..], sep);
          assert Join(parts, sep) == [s[0]] + rest[0] + [sep] + Join(rest[1..], sep);
        }
      }
    }
  }

  /** Splitting a text that starts with a separator-free word glues the word
      onto the first piece. */
  lemma {:induction false} SplitPrefix(w: string, t: string, sep: char)
    requires sep !in w
    ensures Split(w + t, sep) == [w + Split(t, sep)[0]] + Split(t, sep)[1..]
  {
    if w != [] {
      assert (w + t)[1..] == w[1..] + t;
      SplitPrefix(w[1..], t, sep);
      assert [w[0]] + (w[1..] + Split(t, sep)[0]) == w + Split(t, sep)[0];
    } else {
      assert w + t == t;
      assert w + Split(t, sep)[0] == Split(t, sep)[0];
      assert Split(t, sep) == [Split(t, sep)[0]] + Split(t, sep)[1..];
    }
  }

  /** Splitting the join of non-empty list of separator-free pieces gives
      back the list: the round trip the client's `join(',')` and the
      server's `split(',')` rely on. */
  lemma {:induction false} SplitJoin(parts: seq<string>, sep: char)
    requires |parts| >= 1
    requires forall i :: 0 <= i < |parts| ==> sep !in parts[i]
    ensures Split(Join(parts, sep), sep) == parts
  {
    if |parts| == 1 {
      SplitPrefix(parts[0], "", sep);
      assert parts[0] + "" == parts[0];
    } else {
      var t := [sep] + Join(parts[1..], sep);
      SplitJoin(parts[1..], sep);
      assert t[1..] == Join(parts[1..], sep);
      assert Split(t, sep) == [""] + parts[1..];
      assert parts[0] + [sep] + Join(parts[1..], sep) == parts[0] + t;
      SplitPrefix(parts[0], t, sep);
      assert parts[0] + "" == parts[0];
      assert ([""] + parts[1..])[1..] == parts[1..];
    }
  }

  // ---------------------------------------------------------------------
  // Numbers as text

  predicate IsDecimalDigit(c: char) { '0' <= c <= '9' }

  /** The value of `c` as a digit in base `radix` (10 or 16), if it is one. */
  function DigitValue(c: char, radix: nat): (d: Option<nat>)
    requires radix == 10 || radix == 16
    ensures d.Some? ==> d.value < radix
    ensures radix == 10 ==> (d.Some? <==> IsDecimalDigit(c))
  {
    if '0' <= c <= '9' then Some(c as nat - '0' as nat)
    else if radix == 16 && 'a' <= c <= 'f' then Some(c as nat - 'a' as nat + 10)
    else if radix == 16 && 'A' <= c <= 'F' then Some(c as nat - 'A' as nat + 10)
    else None
  }

  /** The longest prefix of `s` made of base-`radix` digits. */
  function LeadingDigits(s: string, radix: nat): (z: string)
    requires radix == 10 || radix == 16
    ensures |z| <= |s| && z == s[..|z|]
    ensures forall k :: 0 <= k < |z| ==> DigitValue(z[k], radix).Some?
    ensures |z| == |s| || DigitValue(s[|z|], radix).None?
  {
    if s != [] && DigitValue(s[0], radix).Some? then [s[0]] + LeadingDigits(s[1..], radix) else []
  }

  /** A text made only of digits is its own leading digit run. */
  lemma {:induction false} LeadingDigitsAll(s: string, radix: nat)
    requires radix == 10 || radix == 16
    requires forall k :: 0 <= k < |s| ==> DigitValue(s[k], radix).Some?
    ensures LeadingDigits(s, radix) == s
  {
    if s != [] {
      LeadingDigitsAll(s[1..], radix);
      assert s == [s[0]] + s[1..];
    }
  }

  /** The number a string of base-`radix` digits denotes. */
  function DigitsValue(s: string, radix: nat): nat
    requires radix == 10 || radix == 16
    requires forall k :: 0 <= k < |s| ==> DigitValue(s[k], radix).Some?
  {
    if s == [] then 0
    else
      var high := DigitsValue(s[..|s| - 1], radix);
      (if radix == 10 then high * 10 else high * 16) + DigitValue(s[|s| - 1], radix).value
  }

  function DigitChar(d: nat): (c: char)
    requires d < 10
    ensures IsDecimalDigit(c) && DigitValue(c, 10) == Some(d)
  {
    "0123456789"[d]
  }

  /** Decimal digits of a natural number, without leading zeros. */
  function NatToString(n: nat): (s: string)
    ensures |s| >= 1
    ensures forall k :: 0 <= k < |s| ==> IsDecimalDigit(s[k])
    ensures DigitsValue(s, 10) == n
  {
    if n < 10 then [DigitChar(n)]
    else
      var s := NatToString(n / 10) + [DigitChar(n % 10)];
      assert s[..|s| - 1] == NatToString(n / 10);
      s
  }

  /** The digits have no leading zero: zero prints as "0", and any other
      number starts with a non-zero digit. */
  lemma {:induction false} NatToStringCanonical(n: nat)
    ensures n == 0 ==> NatToString(n) == "0"
    ensures n > 0 ==> NatToString(n)[0] != '0'
  {
    if n >= 10 {
      NatToStringCanonical(n / 10);
      assert NatToString(n)[0] == NatToString(n / 10)[0];
    }
  }

  /** `n.toString()` for a whole number `n`. */
  function IntToString(n: int): (s: string)
    ensures |s| >= 1 && (n < 0 <==> s[0] == '-')
  {
    if n < 0 then "-" + NatToString(-n) else NatToString(n)
  }

  /** Whether a number text starts with a minus sign. */
  predicate Negative(s: string) { s != [] && s[0] == '-' }

  /** The text after an optional leading sign. */
  function Unsigned(s: string): (u: string)
    ensures u == s || (s != [] && u == s[1..])
  {
    if s != [] && (s[0] == '-' || s[0] == '+') then s[1..] else s
  }

  /** The digits `parseInt` reads after the sign: a "0x"/"0X" prefix switches
      to base 16, then the longest run of digits is the value; None when the
      run is empty. */
  function IntegerDigits(u: string): (v: Option<nat>)
  {
    var hex := |u| >= 2 && u[0] == '0' && (u[1] == 'x' || u[1] == 'X');
    var radix := if hex then 16 else 10;
    var z := LeadingDigits(if hex then u[2..] else u, radix);
    if z == [] then None else Some(DigitsValue(z, radix))
  }

  /** The global `parseInt(s)` with no radix argument: skip leading white
      space, take an optional sign, then read the digits; NaN when there are
      none. */
  function ParseInt(text: string): (r: Parsed<int>)
  {
    SignedInteger(TrimStart(text))
  }

  /** A sign and the integer digits, read from text with no leading space. */
  function SignedInteger(s: string): Parsed<int>
  {
    match IntegerDigits(Unsigned(s))
    case None => NaN
    case Some(v) => Num(if Negative(s) then -(v as int) else v as int)
  }

  /** A text of decimal digits is read in base 10, whole. */
  lemma IntegerDigitsOfDecimal(d: string)
    requires |d| >= 1 && forall k :: 0 <= k < |d| ==> IsDecimalDigit(d[k])
    ensures IntegerDigits(d) == Some(DigitsValue(d, 10))
  {
    var hex := |d| >= 2 && d[0] == '0' && (d[1] == 'x' || d[1] == 'X');
    assert !hex by {
      if |d| >= 2 {
        assert IsDecimalDigit(d[1]);
      }
    }
    forall k | 0 <= k < |d| ensures DigitValue(d[k], 10).Some? {
      assert IsDecimalDigit(d[k]);
    }
    LeadingDigitsAll(d, 10);
    assert LeadingDigits(d, 10) == d;
  }

  /** A text of decimal digits alone parses to the number it denotes. */
  lemma ParseIntOfDecimal(d: string)
    requires |d| >= 1 && forall k :: 0 <= k < |d| ==> IsDecimalDigit(d[k])
    ensures ParseInt(d) == Num(DigitsValue(d, 10) as int)
  {
    IntegerDigitsOfDecimal(d);
    UnsignedDecimal(d);
    assert SignedInteger(d) == Num(DigitsValue(d, 10) as int);
  }

  /** A text starting with a digit has no space, sign or minus to skip. */
  lemma UnsignedDecimal(d: string)
    requires |d| >= 1 && IsDecimalDigit(d[0])
    ensures TrimStart(d) == d && Unsigned(d) == d && !Negative(d)
  {
    assert !IsSpace(d[0]);
  }

  /** The digit string "1" parses to 1. */
  lemma ParseIntOne()
    ensures ParseInt("1") == Num(1)
  {
    assert DigitsValue("1", 10) == 1 by { assert "1"[..0] == []; }
    ParseIntOfDecimal("1");
  }

  /** The digit string "50" parses to 50. */
  lemma ParseIntFifty()
    ensures ParseInt("50") == Num(50)
  {
    assert DigitsValue("50", 10) == 50 by {
      assert "50"[..1] == "5" && "50"[..1][..0] == [];
    }
    ParseIntOfDecimal("50");
  }

  /** The text of a number, with its sign split off. */
  lemma IntToStringParts(n: int)
    ensures var d := NatToString(if n < 0 then -n else n);
            TrimStart(IntToString(n)) == IntToString(n)
            && Negative(IntToString(n)) == (n < 0)
            && Unsigned(IntToString(n)) == d
  {
    var d := NatToString(if n < 0 then -n else n);
    assert IsDecimalDigit(d[0]);
    assert !IsSpace(d[0]);
    if n < 0 {
      var t := "-" + d;
      assert t == IntToString(n);
      assert t[0] == '-' && !IsSpace(t[0]);
      assert t[1..] == d;
    } else {
      assert d == IntToString(n);
    }
  }

  /** Printing a whole number and parsing it back gives the number. */
  lemma IntToStringParseInt(n: int)
    ensures ParseInt(IntToString(n)) == Num(n)
  {
    IntToStringParts(n);
    IntegerDigitsOfDecimal(NatToString(if n < 0 then -n else n));
  }

  function Pow10(n: nat): (p: real)
    ensures p >= 1.0
  {
    if n == 0 then 1.0 else 10.0 * Pow10(n - 1)
  }

  /** The exponent of an `e`/`E` suffix, 0 when `s` does not start with a
      well-formed one (the longest valid prefix then ends before it). */
  function ExponentOf(s: string): int
  {
    if |s| >= 2 && (s[0] == 'e' || s[0] == 'E') then
      var t := s[1..];
      var z := LeadingDigits(Unsigned(t), 10);
      if z == [] then 0
      else if Negative(t) then -(DigitsValue(z, 10) as int) else DigitsValue(z, 10) as int
    else 0
  }

  function Scale(e: int): (f: real)
    ensures f > 0.0
  {
    if e >= 0 then Pow10(e) else 1.0 / Pow10(-e)
  }

  /** The unsigned decimal literal `parseFloat` reads: digits, an optional
      fraction, an optional exponent; None when no digit comes before or
      after the point. */
  function DecimalDigits(u: string): (v: Option<real>)
  {
    var intPart := LeadingDigits(u, 10);
    var rest := u[|intPart|..];
    var whole := DigitsValue(intPart, 10);
    if rest != [] && rest[0] == '.' then Fraction(intPart != [], whole, rest[1..])
    else if intPart == [] then None
    else Some(whole as real * Scale(ExponentOf(rest)))
  }

  /** The rest of a decimal literal after its point: fraction digits, then
      an optional exponent. */
  function Fraction(hasWhole: bool, whole: nat, r: string): (v: Option<real>)
  {
    var fracPart := LeadingDigits(r, 10);
    if !hasWhole && fracPart == [] then None
    else
      var fraction := DigitsValue(fracPart, 10) as real / Pow10(|fracPart|);
      Some((whole as real + fraction) * Scale(ExponentOf(r[|fracPart|..])))
  }

  /** The global `parseFloat(s)`: skip leading white space, take an optional
      sign, then the longest decimal literal; NaN when there is none. */
  function ParseFloat(text: string): (r: Parsed<real>)
  {
    SignedDecimal(TrimStart(text))
  }

  /** A sign and a decimal literal, read from text with no leading space. */
  function SignedDecimal(s: string): Parsed<real>
  {
    match DecimalDigits(Unsigned(s))
    case None => NaN
    case Some(v) => Num(if Negative(s) then -v else v)
  }

  /** A printed whole number parses back as the same number. */
  lemma IntToStringParseFloat(n: int)
    ensures ParseFloat(IntToString(n)) == Num(n as real)
  {
    var m: nat := if n < 0 then -n else n;
    IntToStringParts(n);
    DecimalDigitsOfDecimal(NatToString(m));
  }

  /** A text of decimal digits is read as a decimal literal, whole. */
  lemma DecimalDigitsOfDecimal(d: string)
    requires |d| >= 1 && forall k :: 0 <= k < |d| ==> IsDecimalDigit(d[k])
    ensures DecimalDigits(d) == Some(DigitsValue(d, 10) as real)
  {
    LeadingDigitsAll(d, 10);
    assert d[|d|..] == [];
    assert ExponentOf([]) == 0 && Scale(0) == 1.0;
  }

  /** Leading white space never changes what `parseInt` reads. */
  lemma ParseIntSkipsSpace(c: char, s: string)
    requires IsSpace(c)
    ensures ParseInt([c] + s) == ParseInt(s)
  {
    assert ([c] + s)[0] == c && ([c] + s)[1..] == s;
    assert TrimStart([c] + s) == TrimStart(s);
  }

  // ---------------------------------------------------------------------
  // String order

  /** JavaScript's `a < b` on strings: lexicographic on characters, a proper
      prefix coming first. */
  predicate StrLess(a: string, b: string)
  {
    if a == [] then b != []
    else if b == [] then false
    else if a[0] != b[0] then a[0] < b[0]
    else StrLess(a[1..], b[1..])
  }

  lemma {:induction false} StrLessIrreflexive(a: string)
    ensures !StrLess(a, a)
  {
    if a != [] {
      StrLessIrreflexive(a[1..]);
    }
  }

  lemma {:induction false} StrLessTransitive(a: string, b: string, c: string)
    requires StrLess(a, b) && StrLess(b, c)
    ensures StrLess(a, c)
  {
    if a != [] && b != [] && c != [] && a[0] == b[0] && b[0] == c[0] {
      StrLessTransitive(a[1..], b[1..], c[1..]);
    }
  }

  /** Two different strings are always ordered one way or the other. */
  lemma {:induction false} StrLessTotal(a: string, b: string)
    requires a != b
    ensures StrLess(a, b) || StrLess(b, a)
  {
    if a != [] && b != [] && a[0] == b[0] {
      assert a == [a[0]] + a[1..] && b == [b[0]] + b[1..];
      StrLessTotal(a[1..], b[1..]);
    }
  }

  /** The string order is a strict weak order: when `a < c`, any `b` is
      after `a` or before `c`. */
  lemma StrLessNegTransitive(a: string, b: string, c: string)
    requires StrLess(a, c)
    ensures StrLess(a, b) || StrLess(b, c)
  {
    if !StrLess(a, b) && !StrLess(b, c) {
      StrLessIrreflexive(a);
      if a != b { StrLessTotal(a, b); }
      if b != c { StrLessTotal(b, c); }
      if b != c && StrLess(c, b) && a != b && StrLess(b, a) {
        StrLessTransitive(c, b, a);
      }
      if StrLess(c, a) {
        StrLessTransitive(a, c, a);
      }
    }
  }
}
