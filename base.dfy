/** Shared vocabulary of the model: optional values, results, the outcome of
    JavaScript's numeric parsing, and the decimal rendering that both chain
    indexers use to turn a BigInt into an entity id. */
module Base {

  datatype Option<+T> = None | Some(value: T) {
    function GetOr(default: T): T {
      match this
      case Some(v) => v
      case None => default
    }
  }

  datatype Result<+T, +E> = Ok(value: T) | Err(error: E)

  /** What `parseInt`/`parseFloat` give back: a number, or NaN for text that
      does not start with one. Numbers are modelled as mathematical integers. */
  datatype Parsed = NaN | Num(n: int)

  /** JavaScript truthiness of a parsed number: NaN and 0 are falsy. */
  predicate Truthy(p: Parsed) {
    p.Num? && p.n != 0
  }

  predicate IsDigit(c: char) {
    '0' <= c <= '9'
  }

  predicate AllDigits(s: string) {
    forall i :: 0 <= i < |s| ==> IsDigit(s[i])
  }

  function DigitChar(d: nat): (c: char)
    requires d < 10
    ensures IsDigit(c) && c as int - '0' as int == d
  {
    ['0', '1', '2', '3', '4', '5', '6', '7', '8', '9'][d]
  }

  /** `BigInt.toString()` on a non-negative value: base-10 digits, no sign,
      no leading zeros. */
  function NatToString(n: nat): (s: string)
    ensures |s| > 0
  {
    if n < 10 then [DigitChar(n)] else NatToString(n / 10) + [DigitChar(n % 10)]
  }

  lemma {:induction false} NatToStringDigits(n: nat)
    ensures AllDigits(NatToString(n))
  {
    if n >= 10 {
      NatToStringDigits(n / 10);
    }
  }

  /** Distinct numbers get distinct ids. */
  lemma NatToStringInjective(a: nat, b: nat)
    requires NatToString(a) == NatToString(b)
    ensures a == b
  {
    NatToStringValue(a);
    NatToStringValue(b);
  }

  /** Position of the first character that is not a decimal digit (the
      length of the string when there is none). */
  function FirstNonDigit(s: string): (k: nat)
    ensures k <= |s|
  {
    if s == [] || !IsDigit(s[0]) then 0 else 1 + FirstNonDigit(s[1..])
  }

  lemma {:induction false} FirstNonDigitAfterDigits(x: string, sx: string)
    requires AllDigits(x) && |sx| > 0 && !IsDigit(sx[0])
    ensures FirstNonDigit(x + sx) == |x|
  {
    if x != [] {
      assert (x + sx)[1..] == x[1..] + sx;
      FirstNonDigitAfterDigits(x[1..], sx);
    }
  }

  /** Two digit strings followed by suffixes that start with a non-digit are
      equal only if both the digit parts and the suffixes are. */
  lemma DigitPrefixSplit(x: string, sx: string, y: string, sy: string)
    requires AllDigits(x) && AllDigits(y)
    requires |sx| > 0 && !IsDigit(sx[0]) && |sy| > 0 && !IsDigit(sy[0])
    requires x + sx == y + sy
    ensures x == y && sx == sy
  {
    FirstNonDigitAfterDigits(x, sx);
    FirstNonDigitAfterDigits(y, sy);
    assert x == (x + sx)[..|x|];
    assert y == (y + sy)[..|y|];
    assert sx == (x + sx)[|x|..];
    assert sy == (y + sy)[|y|..];
  }

  /** `Number.prototype.toString()` on an integer: a minus sign for
      negative values, then the decimal digits of the magnitude. */
  function IntToString(i: int): (s: string)
    ensures |s| > 0
  {
    if i < 0 then "-" + NatToString(-i) else NatToString(i)
  }

  /** The white space `parseInt` skips before the number: space, tab, the
      line terminators, vertical tab, form feed, no-break space and the
      byte-order mark. */
  predicate IsJsSpace(c: char) {
    c == ' ' || c == '\t' || c == '\n' || c == '\r' || c == '\U{000B}' || c == '\U{000C}'
    || c == '\U{00A0}' || c == '\U{FEFF}' || c == '\U{2028}' || c == '\U{2029}'
  }

  /** The text with its leading white space removed; it starts with
      something other than white space. */
  function TrimStart(s: string): (t: string)
    ensures t == [] || !IsJsSpace(t[0])
  {
    if s != [] && IsJsSpace(s[0]) then TrimStart(s[1..]) else s
  }

  /** Trimming only drops a prefix: what is left is a suffix of the text. */
  lemma {:induction false} TrimStartSuffix(s: string)
    ensures var t := TrimStart(s); |t| <= |s| && t == s[|s| - |t|..]
  {
    if s != [] && IsJsSpace(s[0]) {
      TrimStartSuffix(s[1..]);
    }
  }

  /** The value of a character as a digit, 16 or more when it is neither a
      decimal digit nor a hexadecimal letter. */
  function DigitValue(c: char): (v: nat)
    ensures IsDigit(c) <==> v < 10
  {
    if '0' <= c <= '9' then c as int - '0' as int
    else if 'a' <= c <= 'f' then c as int - 'a' as int + 10
    else if 'A' <= c <= 'F' then c as int - 'A' as int + 10
    else 16
  }

  /** Length of the longest prefix of `s` made of digits of `radix`. */
  function DigitRun(s: string, radix: nat): (k: nat)
    ensures k <= |s|
  {
    if s == [] || DigitValue(s[0]) >= radix then 0 else 1 + DigitRun(s[1..], radix)
  }

  /** The run is made of digits and stops at the first character that is
      not one. */
  lemma {:induction false} DigitRunStops(s: string, radix: nat)
    ensures var k := DigitRun(s, radix);
      && (forall i :: 0 <= i < k ==> DigitValue(s[i]) < radix)
      && (k < |s| ==> DigitValue(s[k]) >= radix)
  {
    if s != [] && DigitValue(s[0]) < radix {
      DigitRunStops(s[1..], radix);
      var k := DigitRun(s, radix);
      forall i | 0 <= i < k
        ensures DigitValue(s[i]) < radix
      {
        if i > 0 {
          assert s[i] == s[1..][i - 1];
        }
      }
    }
  }

  /** The value of a string of digits in base 10 or 16 (read in the source
      only over a run of such digits). */
  function DigitsValue(s: string, radix: nat): nat
    requires radix == 10 || radix == 16
  {
    if s == [] then 0
    else (if radix == 16 then 16 * DigitsValue(s[..|s| - 1], radix) else 10 * DigitsValue(s[..|s| - 1], radix))
         + DigitValue(s[|s| - 1])
  }

  /** The unsigned part of `parseInt`: a `0x`/`0X` prefix selects base 16,
      then the longest run of digits is read; NaN when that run is empty. */
  function ParseMagnitude(u: string): (r: Parsed)
    ensures r.Num? ==> r.n >= 0
  {
    var hex := |u| >= 2 && u[0] == '0' && (u[1] == 'x' || u[1] == 'X');
    var radix := if hex then 16 else 10;
    var body := if hex then u[2..] else u;
    var k := DigitRun(body, radix);
    if k == 0 then NaN else Num(DigitsValue(body[..k], radix))
  }

  /** `parseInt(s)` with no radix argument: leading white space is skipped
      and one sign is accepted before the magnitude. */
  function ParseInt(s: string): Parsed {
    ParseSigned(TrimStart(s))
  }

  /** The sign and magnitude, once the white space is gone. */
  function ParseSigned(t: string): Parsed {
    if t != [] && t[0] == '-' then
      match ParseMagnitude(t[1..])
      case NaN => NaN
      case Num(v) => Num(-v)
    else if t != [] && t[0] == '+' then ParseMagnitude(t[1..])
    else ParseMagnitude(t)
  }

  lemma TrimNoSpace(s: string)
    requires s != [] && !IsJsSpace(s[0])
    ensures TrimStart(s) == s
  {
  }

  lemma SignedPlain(t: string)
    requires t != [] && t[0] != '-' && t[0] != '+'
    ensures ParseSigned(t) == ParseMagnitude(t)
  {
  }

  lemma SignedMinus(t: string)
    requires t != [] && t[0] == '-' && ParseMagnitude(t[1..]).Num?
    ensures ParseSigned(t) == Num(-ParseMagnitude(t[1..]).n)
  {
  }

  lemma MagnitudeNaN(u: string)
    requires u != [] && !IsDigit(u[0])
    ensures ParseMagnitude(u) == NaN
  {
    assert DigitValue(u[0]) >= 10;
  }

  lemma {:induction false} DigitRunOfDigits(x: string, rest: string)
    requires AllDigits(x)
    requires rest == [] || !IsDigit(rest[0])
    ensures DigitRun(x + rest, 10) == |x|
  {
    if x != [] {
      assert (x + rest)[1..] == x[1..] + rest;
      DigitRunOfDigits(x[1..], rest);
    }
  }

  /** The rendered digits of a number read back to the number. */
  lemma {:induction false} NatToStringValue(n: nat)
    ensures AllDigits(NatToString(n))
    ensures DigitsValue(NatToString(n), 10) == n
  {
    NatToStringDigits(n);
    if n >= 10 {
      var s := NatToString(n);
      assert s[..|s| - 1] == NatToString(n / 10);
      NatToStringValue(n / 10);
    }
  }

  /** A rendered number followed by anything that does not continue it
      reads back as the number. */
  lemma MagnitudeRoundTrip(m: nat, rest: string)
    requires rest == [] || (!IsDigit(rest[0]) && rest[0] != 'x' && rest[0] != 'X')
    ensures ParseMagnitude(NatToString(m) + rest) == Num(m)
  {
    var digits := NatToString(m);
    var u := digits + rest;
    NatToStringValue(m);
    DigitRunOfDigits(digits, rest);
    NoHexPrefix(m, rest);
    assert u[..|digits|] == digits;
  }

  /** A rendered number never looks like a `0x` prefix. */
  lemma NoHexPrefix(m: nat, rest: string)
    requires rest == [] || (!IsDigit(rest[0]) && rest[0] != 'x' && rest[0] != 'X')
    ensures var u := NatToString(m) + rest;
      !(|u| >= 2 && u[0] == '0' && (u[1] == 'x' || u[1] == 'X'))
  {
    var digits := NatToString(m);
    var u := digits + rest;
    if |u| >= 2 && u[0] == '0' {
      if m > 0 {
        NatToStringLeading(m);
      }
      assert digits == "0";
      assert u[1] == rest[0];
    }
  }

  /** Text that starts with a digit is read as its magnitude. */
  lemma ParseIntUnsigned(u: string)
    requires u != [] && IsDigit(u[0])
    ensures ParseInt(u) == ParseMagnitude(u)
  {
    TrimNoSpace(u);
    SignedPlain(u);
  }

  /** A minus sign before a digit negates the magnitude. */
  lemma ParseIntNegated(u: string)
    requires u != [] && IsDigit(u[0]) && ParseMagnitude(u).Num?
    ensures ParseInt("-" + u) == Num(-ParseMagnitude(u).n)
  {
    var s := "-" + u;
    TrimNoSpace(s);
    assert s[1..] == u;
    SignedMinus(s);
  }

  /** Rendered digits followed by anything that does not continue them
      read back as the number... */
  lemma RenderedDigitsParse(m: nat, rest: string)
    requires rest == [] || (!IsDigit(rest[0]) && rest[0] != 'x' && rest[0] != 'X')
    ensures ParseInt(NatToString(m) + rest) == Num(m)
  {
    var u := NatToString(m) + rest;
    MagnitudeRoundTrip(m, rest);
    NatToStringDigits(m);
    assert IsDigit(u[0]);
    ParseIntUnsigned(u);
  }

  /** ... and, after a minus sign, as its negation. */
  lemma RenderedNegativeParse(m: nat, rest: string)
    requires rest == [] || (!IsDigit(rest[0]) && rest[0] != 'x' && rest[0] != 'X')
    ensures ParseInt("-" + (NatToString(m) + rest)) == Num(-(m as int))
  {
    var u := NatToString(m) + rest;
    RenderedStartsWithDigit(m, rest);
    ParseIntNegated(u);
  }

  lemma RenderedStartsWithDigit(m: nat, rest: string)
    requires rest == [] || (!IsDigit(rest[0]) && rest[0] != 'x' && rest[0] != 'X')
    ensures var u := NatToString(m) + rest;
      u != [] && IsDigit(u[0]) && ParseMagnitude(u) == Num(m)
  {
    MagnitudeRoundTrip(m, rest);
    NatToStringDigits(m);
    var u := NatToString(m) + rest;
    assert u[0] == NatToString(m)[0];
  }

  /** Reading back a rendered integer, followed by anything that does not
      continue the number, gives the integer back. */
  lemma ParseIntRoundTrip(i: int, rest: string)
    requires rest == [] || (!IsDigit(rest[0]) && rest[0] != 'x' && rest[0] != 'X')
    ensures ParseInt(IntToString(i) + rest) == Num(i)
  {
    if i < 0 {
      NegativeRoundTrip(i, rest);
    } else {
      RenderedDigitsParse(i, rest);
    }
  }

  lemma NegativeRoundTrip(i: int, rest: string)
    requires i < 0
    requires rest == [] || (!IsDigit(rest[0]) && rest[0] != 'x' && rest[0] != 'X')
    ensures ParseInt(IntToString(i) + rest) == Num(i)
  {
    var m: nat := -i;
    NegativeRendering(i, rest);
    RenderedNegativeParse(m, rest);
    assert ParseInt(IntToString(i) + rest) == ParseInt("-" + (NatToString(m) + rest));
  }

  lemma NegativeRendering(i: int, rest: string)
    requires i < 0
    ensures IntToString(i) + rest == "-" + (NatToString(-i) + rest)
  {
    ConcatAssoc("-", NatToString(-i), rest);
  }

  /** The plain rendering of an integer reads back as the integer. */
  lemma ParseIntRendered(i: int)
    ensures ParseInt(IntToString(i)) == Num(i)
  {
    ParseIntRoundTrip(i, "");
    assert IntToString(i) + "" == IntToString(i);
  }

  lemma ParseIntZero()
    ensures ParseInt("0") == Num(0)
  {
    ParseIntRendered(0);
    assert IntToString(0) == "0";
  }

  /** A rendered positive number does not start with a zero. */
  lemma {:induction false} NatToStringLeading(n: nat)
    requires n > 0
    ensures NatToString(n)[0] != '0'
  {
    if n >= 10 {
      NatToStringLeading(n / 10);
    }
  }

  /** Text that does not begin, after white space and a sign, with a digit
      is not a number. */
  lemma ParseIntNaN(s: string)
    requires s == [] || (!IsJsSpace(s[0]) && !IsDigit(s[0]) && s[0] != '-' && s[0] != '+')
    ensures ParseInt(s) == NaN
  {
    if s == [] {
      ParseIntEmpty();
    } else {
      ParseIntNoDigit(s);
    }
  }

  lemma ParseIntEmpty()
    ensures ParseInt([]) == NaN
  {
  }

  lemma ParseIntNoDigit(s: string)
    requires s != [] && !IsJsSpace(s[0]) && !IsDigit(s[0]) && s[0] != '-' && s[0] != '+'
    ensures ParseInt(s) == NaN
  {
    TrimNoSpace(s);
    SignedPlain(s);
    MagnitudeNaN(s);
  }

  /** One more copy adds one more term. */
  lemma MulSucc(n: int, x: int)
    ensures (n + 1) * x == n * x + x
  {
  }

  /** A product with a positive factor is positive only if the other
      factor is. */
  lemma PositiveFactor(x: int, n: int)
    requires n > 0 && x * n > 0
    ensures x > 0
  {
  }

  /** Euclidean division recovers the quotient and remainder it was built
      from. */
  lemma DivModOf(q: int, m: int, r: int)
    requires m > 0 && 0 <= r < m
    ensures (q * m + r) / m == q && (q * m + r) % m == r
  {
    var x := q * m + r;
    var a, b := x / m, x % m;
    assert a * m + b == q * m + r;
    assert (q - a + 1) * m == b - r + m;
    PositiveFactor(q - a + 1, m);
    assert (a - q + 1) * m == r - b + m;
    PositiveFactor(a - q + 1, m);
  }

  lemma ConcatAssoc<T>(a: seq<T>, b: seq<T>, c: seq<T>)
    ensures (a + b) + c == a + (b + c)
  {
  }

  /** Number of elements of `s` equal to `x`. */
  function Count<T(==)>(s: seq<T>, x: T): nat {
    multiset(s)[x]
  }

  /** No element appears twice. */
  predicate NoDuplicates<T(==)>(s: seq<T>) {
    forall i, j :: 0 <= i < j < |s| ==> s[i] != s[j]
  }
}
