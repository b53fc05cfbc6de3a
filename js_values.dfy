/** The parts of JavaScript's value semantics the add-on depends on: numbers
    that may be NaN, truthiness of optional strings, `parseInt`, the string
    form of a number, `String.prototype.split` on one character and
    lower-casing of an info hash. */
module JsValues {

  datatype Option<+T> = None | Some(value: T)

  /** A JavaScript number as this program can produce one: an integer or NaN. */
  datatype Number = Int(i: int) | NaN

  /** Truthiness of a string that may be undefined: only "" and undefined are falsy. */
  predicate Truthy(s: Option<string>)
  {
    s.Some? && s.value != ""
  }

  /** ECMAScript WhiteSpace and LineTerminator code points, which `parseInt` skips. */
  predicate IsSpace(c: char)
  {
    c == ' ' || c == '\t' || c == '\n' || c == '\r' || c == '\U{B}' || c == '\U{C}'
    || c == '\U{A0}' || c == '\U{1680}' || ('\U{2000}' <= c <= '\U{200A}')
    || c == '\U{2028}' || c == '\U{2029}' || c == '\U{202F}' || c == '\U{205F}'
    || c == '\U{3000}' || c == '\U{FEFF}'
  }

  /** `s` without its leading white space. */
  function TrimStart(s: string): (r: string)
    ensures |r| <= |s| && r == s[|s| - |r|..]
    ensures forall i :: 0 <= i < |s| - |r| ==> IsSpace(s[i])
    ensures r == [] || !IsSpace(r[0])
  {
    if |s| > 0 && IsSpace(s[0]) then TrimStart(s[1..]) else s
  }

  /** The value of `c` as a digit of a base up to 36; 36 when it is no digit at all. */
  function DigitValue(c: char): nat
  {
    if '0' <= c <= '9' then c as int - '0' as int
    else if 'a' <= c <= 'z' then c as int - 'a' as int + 10
    else if 'A' <= c <= 'Z' then c as int - 'A' as int + 10
    else 36
  }

  predicate IsDigit(c: char, radix: nat)
  {
    DigitValue(c) < radix
  }

  /** The longest prefix of `s` made of digits of the given radix. */
  function DigitPrefix(s: string, radix: nat): (r: string)
    ensures |r| <= |s| && r == s[..|r|]
    ensures forall i :: 0 <= i < |r| ==> IsDigit(r[i], radix)
    ensures |r| == |s| || !IsDigit(s[|r|], radix)
  {
    if |s| > 0 && IsDigit(s[0], radix) then [s[0]] + DigitPrefix(s[1..], radix) else []
  }

  /** The value of a digit string read most significant digit first. */
  function DigitsValue(ds: string, radix: nat): nat
  {
    if ds == [] then 0 else DigitsValue(ds[..|ds| - 1], radix) * radix + DigitValue(ds[|ds| - 1])
  }

  /** The number `parseInt` reads after the sign: a "0x"/"0X" prefix selects
      base 16, and the longest run of digits that follows is the value; no
      digit at all gives nothing. */
  function Magnitude(u: string): Option<nat>
  {
    var hex := |u| >= 2 && u[0] == '0' && (u[1] == 'x' || u[1] == 'X');
    var radix := if hex then 16 else 10;
    var digits := DigitPrefix(if hex then u[2..] else u, radix);
    if digits == [] then None else Some(DigitsValue(digits, radix))
  }

  /** `parseInt` after the white space: one sign is read, then the magnitude;
      no digit gives NaN. */
  function ParseSigned(t: string): Number
  {
    var negative := |t| > 0 && t[0] == '-';
    var u := if |t| > 0 && (t[0] == '-' || t[0] == '+') then t[1..] else t;
    match Magnitude(u)
    case None => NaN
    case Some(m) => Int(if negative then -(m as int) else m)
  }

  /** JavaScript's `parseInt(s)` without a radix argument: leading white space
      is skipped, then a signed magnitude is read. */
  function ParseInt(s: string): Number
  {
    ParseSigned(TrimStart(s))
  }

  function DigitChar(d: nat): (c: char)
    requires d < 10
    ensures IsDigit(c, 10) && DigitValue(c) == d
  {
    ('0' as int + d) as char
  }

  /** The decimal digits of `n`, without leading zeros. */
  function NaturalString(n: nat): (r: string)
    ensures |r| >= 1
    ensures forall i :: 0 <= i < |r| ==> IsDigit(r[i], 10)
    ensures n >= 1 ==> r[0] != '0'
    ensures n < 10 <==> |r| == 1
  {
    if n < 10 then [DigitChar(n)] else NaturalString(n / 10) + [DigitChar(n % 10)]
  }

  /** The string JavaScript makes of an integer-valued number, as in `'' + n`. */
  function DecimalString(n: int): string
  {
    if n < 0 then "-" + NaturalString(-n) else NaturalString(n)
  }

  /** The string JavaScript makes of a number. */
  function NumberString(n: Number): string
  {
    match n
    case Int(i) => DecimalString(i)
    case NaN => "NaN"
  }

  lemma {:induction false} NaturalStringValue(n: nat)
    ensures DigitsValue(NaturalString(n), 10) == n
  {
    var r := NaturalString(n);
    if n >= 10 {
      var front := NaturalString(n / 10);
      assert r == front + [DigitChar(n % 10)];
      assert r[..|r| - 1] == front;
      NaturalStringValue(n / 10);
    }
  }

  lemma {:induction false} DigitPrefixStops(ds: string, rest: string, radix: nat)
    requires forall i :: 0 <= i < |ds| ==> IsDigit(ds[i], radix)
    requires rest == [] || !IsDigit(rest[0], radix)
    ensures DigitPrefix(ds + rest, radix) == ds
  {
    if ds != [] {
      assert (ds + rest)[1..] == ds[1..] + rest;
      DigitPrefixStops(ds[1..], rest, radix);
    }
  }

  /** Without a "0x"/"0X" prefix the magnitude is read in base 10. */
  lemma MagnitudeWithoutHex(u: string)
    requires !(|u| >= 2 && u[0] == '0' && (u[1] == 'x' || u[1] == 'X'))
    ensures Magnitude(u) == if DigitPrefix(u, 10) == [] then None else Some(DigitsValue(DigitPrefix(u, 10), 10))
  {
  }

  /** A numeral other than a lone "0" followed by x or X starts no hex prefix. */
  lemma NumeralWithoutHex(digits: string, rest: string)
    requires |digits| > 0 && forall i :: 0 <= i < |digits| ==> IsDigit(digits[i], 10)
    requires digits == "0" ==> rest == [] || (rest[0] != 'x' && rest[0] != 'X')
    ensures var u := digits + rest; !(|u| >= 2 && u[0] == '0' && (u[1] == 'x' || u[1] == 'X'))
  {
    var u := digits + rest;
    if |u| >= 2 && u[0] == '0' {
      assert u[0] == digits[0];
      if |digits| >= 2 {
        assert u[1] == digits[1];
      } else {
        assert digits == "0" && u[1] == rest[0];
      }
    }
  }

  /** The magnitude of a decimal numeral followed by text that does not
      continue it is the numeral's value. */
  lemma MagnitudeDecimal(digits: string, rest: string)
    requires |digits| > 0 && forall i :: 0 <= i < |digits| ==> IsDigit(digits[i], 10)
    requires rest == [] || !IsDigit(rest[0], 10)
    requires digits == "0" ==> rest == [] || (rest[0] != 'x' && rest[0] != 'X')
    ensures Magnitude(digits + rest) == Some(DigitsValue(digits, 10))
  {
    NumeralWithoutHex(digits, rest);
    MagnitudeWithoutHex(digits + rest);
    DigitPrefixStops(digits, rest, 10);
  }

  lemma TrimStartNoSpace(s: string)
    requires |s| > 0 && !IsSpace(s[0])
    ensures TrimStart(s) == s
  {
  }

  /** After the white space, a numeral with or without a minus sign in front
      reads as its magnitude with that sign. */
  lemma ParseSignedNumeral(s: string, u: string, negative: bool, m: nat, n: int)
    requires s == if negative then "-" + u else u
    requires |u| > 0 && IsDigit(u[0], 10) && Magnitude(u) == Some(m)
    requires n == if negative then -(m as int) else m
    ensures ParseSigned(s) == Int(n)
  {
    if negative {
      assert s[0] == '-' && s[1..] == u;
    } else {
      assert s[0] == u[0];
    }
  }

  /** `parseInt` of a numeral, with or without a minus sign in front, is its
      magnitude with that sign. */
  lemma ParseIntOfNumeral(s: string, u: string, negative: bool, m: nat, n: int)
    requires s == if negative then "-" + u else u
    requires |u| > 0 && IsDigit(u[0], 10) && Magnitude(u) == Some(m)
    requires n == if negative then -(m as int) else m
    ensures ParseInt(s) == Int(n)
  {
    assert s[0] == if negative then '-' else u[0];
    TrimStartNoSpace(s);
    ParseSignedNumeral(s, u, negative, m, n);
  }

  lemma DecimalStringThen(n: int, rest: string)
    ensures var digits := NaturalString(if n < 0 then -n else n);
      DecimalString(n) + rest == if n < 0 then "-" + (digits + rest) else digits + rest
  {
    if n < 0 {
      var digits := NaturalString(-n);
      assert ("-" + digits) + rest == "-" + (digits + rest);
    }
  }

  /** `parseInt` reads back the decimal string of any integer, also when other
      text follows it, provided that text does not continue the number. */
  lemma ParseIntDecimalPrefix(n: int, rest: string)
    requires rest == [] || !IsDigit(rest[0], 10)
    requires n != 0 || rest == [] || (rest[0] != 'x' && rest[0] != 'X')
    ensures ParseInt(DecimalString(n) + rest) == Int(n)
  {
    var m: nat := if n < 0 then -n else n;
    MagnitudeOfNatural(m, rest);
    DecimalStringThen(n, rest);
    ParseIntOfNumeral(DecimalString(n) + rest, NaturalString(m) + rest, n < 0, m, n);
  }

  /** The magnitude `parseInt` reads from the decimal form of a natural
      number followed by text that does not continue it is that number. */
  lemma MagnitudeOfNatural(m: nat, rest: string)
    requires rest == [] || !IsDigit(rest[0], 10)
    requires m != 0 || rest == [] || (rest[0] != 'x' && rest[0] != 'X')
    ensures var u := NaturalString(m) + rest;
      |u| > 0 && IsDigit(u[0], 10) && Magnitude(u) == Some(m)
  {
    var digits := NaturalString(m);
    assert (digits + rest)[0] == digits[0];
    assert digits == "0" ==> m == 0;
    MagnitudeDecimal(digits, rest);
    NaturalStringValue(m);
  }

  lemma ParseIntDecimal(n: int)
    ensures ParseInt(DecimalString(n)) == Int(n)
  {
    assert DecimalString(n) + "" == DecimalString(n);
    ParseIntDecimalPrefix(n, "");
  }

  /** `s.split(sep)`: the pieces of `s` between occurrences of `sep`. */
  function Split(s: string, sep: char): (parts: seq<string>)
    ensures |parts| >= 1
    ensures forall i :: 0 <= i < |parts| ==> sep !in parts[i]
  {
    if s == [] then [[]]
    else
      var rest := Split(s[1..], sep);
      if s[0] == sep then [[]] + rest else [[s[0]] + rest[0]] + rest[1..]
  }

  /** `parts.join(sep)`. */
  function Join(parts: seq<string>, sep: char): string
    requires |parts| >= 1
  {
    if |parts| == 1 then parts[0] else parts[0] + [sep] + Join(parts[1..], sep)
  }

  /** Joining the pieces of a split gives back the string. */
  lemma {:induction false} JoinSplit(s: string, sep: char)
    ensures Join(Split(s, sep), sep) == s
  {
    if s != [] {
      var rest := Split(s[1..], sep);
      JoinSplit(s[1..], sep);
      if s[0] == sep {
        assert Split(s, sep)[1..] == rest;
      } else {
        var parts := Split(s, sep);
        if |rest| == 1 {
          assert parts == [[s[0]] + rest[0]];
        } else {
          assert parts[1..] == rest[1..];
          assert Join(rest, sep) == rest[0] + [sep] + Join(rest[1..], sep);
        }
      }
    }
  }

  lemma {:induction false} SplitWithoutSeparator(a: string, sep: char)
    requires sep !in a
    ensures Split(a, sep) == [a]
  {
    if a != [] {
      assert a[0] in a && a == [a[0]] + a[1..];
      SplitWithoutSeparator(a[1..], sep);
    }
  }

  /** A separator after a piece that holds none starts a new piece. */
  lemma {:induction false} SplitAfterPiece(a: string, sep: char, b: string)
    requires sep !in a
    ensures Split(a + [sep] + b, sep) == [a] + Split(b, sep)
  {
    if a == [] {
      assert ([sep] + b)[1..] == b;
    } else {
      assert a[0] in a && a == [a[0]] + a[1..];
      assert (a + [sep] + b)[0] == a[0];
      assert (a + [sep] + b)[1..] == a[1..] + [sep] + b;
      SplitAfterPiece(a[1..], sep, b);
    }
  }

  /** Splitting a join of pieces that hold no separator gives back the pieces. */
  lemma {:induction false} SplitJoin(parts: seq<string>, sep: char)
    requires |parts| >= 1
    requires forall i :: 0 <= i < |parts| ==> sep !in parts[i]
    ensures Split(Join(parts, sep), sep) == parts
  {
    if |parts| == 1 {
      SplitWithoutSeparator(parts[0], sep);
    } else {
      SplitJoin(parts[1..], sep);
      SplitAfterPiece(parts[0], sep, Join(parts[1..], sep));
    }
  }

  /** `toLowerCase` on one character, for the ASCII letters an info hash uses. */
  function LowerChar(c: char): char
  {
    if 'A' <= c <= 'Z' then (c as int - 'A' as int + 'a' as int) as char else c
  }

  predicate NoUpper(s: string)
  {
    forall i :: 0 <= i < |s| ==> !('A' <= s[i] <= 'Z')
  }

  function LowerAscii(s: string): (r: string)
    ensures |r| == |s| && NoUpper(r)
    ensures forall i :: 0 <= i < |s| && !('A' <= s[i] <= 'Z') ==> r[i] == s[i]
    ensures forall i :: 0 <= i < |s| && 'A' <= s[i] <= 'Z' ==> r[i] as int == s[i] as int + 32
  {
    seq(|s|, i requires 0 <= i < |s| => LowerChar(s[i]))
  }

  predicate StartsWith(s: string, prefix: string)
  {
    |prefix| <= |s| && s[..|prefix|] == prefix
  }
}
