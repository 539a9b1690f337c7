/** Integer conversions of `lib/stdio.c` and `atoi` of `lib/stdlib.c`. */
module Print {
  import opened Numbers

  /** A base, its digits, the letter of its prefix (or a null character) and how many digits make
      a group. */
  datatype Base = Base(base: nat, digits: string, x: char, group: nat)

  const BASE_D := Base(10, "0123456789", '\0', 3)
  const BASE_O := Base(8, "01234567", '\0', 3)
  const BASE_LOWER_X := Base(16, "0123456789abcdef", 'x', 4)
  const BASE_UPPER_X := Base(16, "0123456789ABCDEF", 'X', 4)

  predicate IsBase(b: Base) { b == BASE_D || b == BASE_O || b == BASE_LOWER_X || b == BASE_UPPER_X }

  /** `struct printf_conversion`, as far as integers go. */
  datatype Conversion = Conversion(minus: bool, plus: bool, space: bool, pound: bool, zero: bool, group: bool,
                                   width: nat, precision: int)

  const UINTMAX: nat := 0x1_0000_0000_0000_0000
  const BUFFER: nat := 64

  // ---- digits

  /** The digits of `v`, last one first, with commas in front of each group. */
  function Digits(v: nat, b: Base, grouped: bool, cnt: nat): string
    requires IsBase(b)
    decreases v
  {
    if v == 0 then ""
    else
      DivSmaller(v, b.base);
      Comma(b, grouped, cnt) + [b.digits[v % b.base]] + Digits(v / b.base, b, grouped, cnt + 1)
  }

  lemma DivSmaller(v: nat, d: nat)
    requires v > 0 && d >= 2
    ensures 0 <= v / d < v && 0 <= v % d < d
  {
    DivBounds(v, d);
    if v / d >= v { MulMono(2, d, v / d); }
  }

  function Comma(b: Base, grouped: bool, cnt: nat): string
    requires IsBase(b)
  {
    if grouped && cnt > 0 && cnt % b.group == 0 then "," else ""
  }

  function Repeat(ch: char, n: nat): (r: string)
    ensures |r| == n
  {
    seq(n, _ => ch)
  }

  /** The digits, and zeros as far as the precision asks for them and the buffer goes. */
  function Precise(v: nat, b: Base, c: Conversion): string
    requires IsBase(b)
  {
    var d := Digits(v, b, c.group, 0);
    var want := if c.precision < 0 then 1 else if c.precision > BUFFER - 1 then BUFFER - 1 else c.precision;
    d + Repeat('0', if want > |d| then want - |d| else 0)
  }

  /** The digits with the zeros that the precision and the `#` flag ask for, last one first. */
  function Body(v: nat, b: Base, c: Conversion): string
    requires IsBase(b)
  {
    var z := Precise(v, b, c);
    if c.pound && b.base == 8 && (z == "" || z[|z| - 1] != '0') then z + "0" else z
  }

  function Sign(c: Conversion, signed: bool, negative: bool): string {
    if !signed then ""
    else if c.plus then (if negative then "-" else "+")
    else if c.space then (if negative then "-" else " ")
    else if negative then "-" else ""
  }

  function Prefix(v: nat, b: Base, c: Conversion): string {
    if c.pound && v != 0 && b.x != '\0' then ['0', b.x] else ""
  }

  function Reversed(s: string): (r: string)
    ensures |r| == |s|
  {
    if s == "" then "" else Reversed(s[1..]) + [s[0]]
  }

  /** The characters of a field, sign and digits without the padding. */
  function Core(v: nat, signed: bool, negative: bool, b: Base, c: Conversion): nat
    requires IsBase(b)
  {
    |Sign(c, signed, negative)| + |Prefix(v, b, c)| + |Body(v, b, c)|
  }

  function Field(v: nat, signed: bool, negative: bool, b: Base, c: Conversion): string
    requires IsBase(b)
  {
    var core := Core(v, signed, negative, b, c);
    var pad := if c.width > core then c.width - core else 0;
    (if c.minus || c.zero then "" else Repeat(' ', pad))
    + Sign(c, signed, negative) + Prefix(v, b, c)
    + (if c.zero then Repeat('0', pad) else "")
    + Reversed(Body(v, b, c))
    + (if c.minus then Repeat(' ', pad) else "")
  }

  /** A field is as wide as asked, or as its contents need, except that it is padded twice when
      both the minus and the zero flag are set, as they are after a negative `*` width. */
  lemma FieldWidth(v: nat, signed: bool, negative: bool, b: Base, c: Conversion)
    requires IsBase(b)
    ensures var core := Core(v, signed, negative, b, c);
      |Field(v, signed, negative, b, c)| == (if c.width > core then c.width else core) <==> !(c.minus && c.zero && c.width > core)
  {
  }

  // ---- the buffer

  /** Three bits to a digit, and a comma at most for each. */
  lemma {:induction false} DigitsFit(v: nat, b: Base, grouped: bool, cnt: nat, k: nat)
    requires IsBase(b) && v < Pow2(3 * k)
    ensures |Digits(v, b, grouped, cnt)| <= 2 * k
    decreases k
  {
    if v > 0 && k > 0 {
      EighthPower(3 * k);
      Quotient8(v, b.base, Pow2(3 * (k - 1)));
      DigitsFit(v / b.base, b, grouped, cnt + 1, k - 1);
      DigitsUnfold(v, b, grouped, cnt, "");
    }
  }

  lemma EighthPower(n: nat)
    requires n >= 3
    ensures Pow2(n) == 8 * Pow2(n - 3)
  {
    assert Pow2(n - 1) == 2 * Pow2(n - 2) && Pow2(n - 2) == 2 * Pow2(n - 3);
  }

  lemma Quotient8(v: nat, d: nat, p: nat)
    requires v < 8 * p && d >= 8
    ensures 0 <= v / d < p
  {
    DivBounds(v, d);
    if v / d >= p { MulMono(p, v / d, d); MulMono(8, d, p); }
  }

  lemma DigitsInBuffer(v: nat, b: Base, grouped: bool)
    requires IsBase(b) && v < UINTMAX
    ensures |Digits(v, b, grouped, 0)| <= 44
  {
    Pow2Values();
    Pow2Add(32, 32);
    Pow2Monotone(64, 66);
    DigitsFit(v, b, grouped, 0, 22);
  }

  /** `format_integer`: its digits never leave the buffer of 64 characters. */
  method FormatInteger(value: nat, signed: bool, negative: bool, b: Base, c: Conversion) returns (out: string)
    requires IsBase(b) && value < UINTMAX
    ensures out == Field(value, signed, negative, b, c)
  {
    var buf := new char[BUFFER];
    var cp := FillDigits(buf, value, b, c);
    var sign := Sign(c, signed, negative);
    var x := Prefix(value, b, c);
    var pad := c.width - cp - |x| - |sign|;
    if pad < 0 {
      pad := 0;
    }
    var digits := Backwards(buf[..cp]);
    out := if c.minus || c.zero then "" else Repeat(' ', pad);
    out := out + sign + x;
    out := out + if c.zero then Repeat('0', pad) else "";
    out := out + digits;
    out := out + if c.minus then Repeat(' ', pad) else "";
  }

  method Backwards(s: string) returns (out: string)
    ensures out == Reversed(s)
  {
    out := "";
    var cp := |s|;
    assert s[..cp] == s;
    while cp > 0
      invariant 0 <= cp <= |s| && Reversed(s) == out + Reversed(s[..cp])
    {
      ReversedLast(s[..cp]);
      assert s[..cp][..cp - 1] == s[..cp - 1];
      cp := cp - 1;
      out := out + [s[cp]];
    }
    assert s[..0] == "" && out + "" == out;
  }

  lemma {:induction false} ReversedLast(s: string)
    requires s != ""
    ensures Reversed(s) == [s[|s| - 1]] + Reversed(s[..|s| - 1])
  {
    if |s| > 1 {
      ReversedLast(s[1..]);
      assert s[1..][..|s| - 2] == s[..|s| - 1][1..];
    }
  }

  method FillDigits(buf: array<char>, value: nat, b: Base, c: Conversion) returns (cp: nat)
    requires IsBase(b) && value < UINTMAX && buf.Length == BUFFER
    modifies buf
    ensures cp <= BUFFER && buf[..cp] == Body(value, b, c)
  {
    cp := FillZeros(buf, value, b, c);
    ghost var z := buf[..cp];
    if c.pound && b.base == 8 && (cp == 0 || buf[cp - 1] != '0') {
      cp := Put(buf, cp, '0');
      assert buf[..cp] == z + "0";
    }
  }

  method FillZeros(buf: array<char>, value: nat, b: Base, c: Conversion) returns (cp: nat)
    requires IsBase(b) && value < UINTMAX && buf.Length == BUFFER
    modifies buf
    ensures cp < BUFFER && buf[..cp] == Precise(value, b, c)
  {
    DigitsInBuffer(value, b, c.group);
    cp := StoreDigits(buf, value, b, c.group);
    cp := StoreZeros(buf, cp, if c.precision < 0 then 1 else c.precision);
  }

  method Put(buf: array<char>, cp: nat, ch: char) returns (cp': nat)
    requires cp < buf.Length
    modifies buf
    ensures cp' == cp + 1 && buf[..cp'] == old(buf[..cp]) + [ch]
  {
    buf[cp] := ch;
    cp' := cp + 1;
  }

  /** A digit, and the comma in front of it. */
  method PutDigit(buf: array<char>, cp: nat, b: Base, grouped: bool, cnt: nat, ch: char) returns (cp': nat)
    requires IsBase(b) && cp + |Comma(b, grouped, cnt)| < buf.Length
    modifies buf
    ensures cp' <= buf.Length && buf[..cp'] == old(buf[..cp]) + Comma(b, grouped, cnt) + [ch]
  {
    cp' := cp;
    if grouped && cnt > 0 && cnt % b.group == 0 {
      cp' := Put(buf, cp', ',');
    }
    cp' := Put(buf, cp', ch);
  }

  lemma DigitsUnfold(v: nat, b: Base, grouped: bool, cnt: nat, done: string)
    requires IsBase(b) && v > 0
    ensures 0 <= v / b.base < v && 0 <= v % b.base < b.base == |b.digits|
    ensures done + Digits(v, b, grouped, cnt)
         == (done + Comma(b, grouped, cnt) + [b.digits[v % b.base]]) + Digits(v / b.base, b, grouped, cnt + 1)
  {
    DivSmaller(v, b.base);
  }

  method StoreDigits(buf: array<char>, value: nat, b: Base, grouped: bool) returns (cp: nat)
    requires IsBase(b) && |Digits(value, b, grouped, 0)| < buf.Length
    modifies buf
    ensures cp < buf.Length && buf[..cp] == Digits(value, b, grouped, 0)
  {
    var v: nat, cnt: nat := value, 0;
    cp := 0;
    ghost var d := Digits(value, b, grouped, 0);
    while v > 0
      invariant cp <= |d| && d == buf[..cp] + Digits(v, b, grouped, cnt)
      decreases v
    {
      DigitsUnfold(v, b, grouped, cnt, buf[..cp]);
      cp := PutDigit(buf, cp, b, grouped, cnt, b.digits[v % b.base]);
      v := v / b.base;
      cnt := cnt + 1;
    }
  }

  method StoreZeros(buf: array<char>, cp0: nat, precision: nat) returns (cp: nat)
    requires cp0 < buf.Length == BUFFER
    modifies buf
    ensures var want := if precision > BUFFER - 1 then BUFFER - 1 else precision;
      cp == (if want > cp0 then want else cp0) && buf[..cp] == old(buf[..cp0]) + Repeat('0', cp - cp0)
  {
    cp := cp0;
    while cp < precision && cp < BUFFER - 1
      invariant cp0 <= cp <= BUFFER - 1 && (cp == cp0 || cp <= precision)
      invariant buf[..cp] == old(buf[..cp0]) + Repeat('0', cp - cp0)
    {
      buf[cp] := '0';
      cp := cp + 1;
    }
  }

  // ---- reading numbers

  predicate IsDigit(ch: char, base: nat) { '0' <= ch && ch as int - '0' as int < base }

  /** The number that the leading digits of `s` stand for, after `acc`. */
  function ReadDigits(s: string, base: nat, acc: nat): nat {
    if s == "" || !IsDigit(s[0], base) then acc
    else ReadDigits(s[1..], base, acc * base + (s[0] as int - '0' as int))
  }

  lemma DecimalDigit(i: nat)
    requires i < 10
    ensures BASE_D.digits[i] as int == '0' as int + i
    ensures i < 8 ==> BASE_O.digits[i] as int == '0' as int + i
  {
    if i < 5 {
      assert i == 0 || i == 1 || i == 2 || i == 3 || i == 4;
    } else {
      assert i == 5 || i == 6 || i == 7 || i == 8 || i == 9;
    }
  }

  /** Printed digits read back as the number, in front of anything. */
  lemma {:induction false} DigitsReadBack(v: nat, b: Base, cnt: nat, rest: string)
    requires b == BASE_D || b == BASE_O
    ensures ReadDigits(Reversed(Digits(v, b, false, cnt)) + rest, b.base, 0) == ReadDigits(rest, b.base, v)
    decreases v
  {
    if v == 0 {
      assert "" + rest == rest;
    } else {
      DivSmaller(v, b.base);
      var d := b.digits[v % b.base];
      var high := Reversed(Digits(v / b.base, b, false, cnt + 1));
      DigitsOf(v, b, cnt);
      assert (high + [d]) + rest == high + ([d] + rest);
      DigitsReadBack(v / b.base, b, cnt + 1, [d] + rest);
      ReadOne(v, b, rest);
    }
  }

  lemma ReadOne(v: nat, b: Base, rest: string)
    requires (b == BASE_D || b == BASE_O) && 0 <= v / b.base && 0 <= v % b.base < |b.digits|
    ensures ReadDigits([b.digits[v % b.base]] + rest, b.base, v / b.base) == ReadDigits(rest, b.base, v)
  {
    DecimalDigit(v % b.base);
    assert ([b.digits[v % b.base]] + rest)[1..] == rest;
  }

  lemma DigitsOf(v: nat, b: Base, cnt: nat)
    requires IsBase(b) && v > 0
    ensures 0 <= v / b.base < v && 0 <= v % b.base < b.base == |b.digits|
    ensures Reversed(Digits(v, b, false, cnt)) == Reversed(Digits(v / b.base, b, false, cnt + 1)) + [b.digits[v % b.base]]
  {
    DivSmaller(v, b.base);
    var rest := Digits(v / b.base, b, false, cnt + 1);
    assert Digits(v, b, false, cnt) == [b.digits[v % b.base]] + rest;
    assert ([b.digits[v % b.base]] + rest)[1..] == rest;
  }

  lemma {:induction false} ZerosReadBack(n: nat, base: nat, rest: string)
    requires base > 0
    ensures ReadDigits(Repeat('0', n) + rest, base, 0) == ReadDigits(rest, base, 0)
  {
    if n == 0 {
      assert Repeat('0', 0) + rest == rest;
    } else {
      ZerosReadBack(n - 1, base, rest);
      assert (Repeat('0', n) + rest)[1..] == Repeat('0', n - 1) + rest;
    }
  }

  // ---- atoi

  predicate IsSpace(ch: char) {
    ch == ' ' || ch == '\n' || ch == '\r' || ch == '\t' || ch == 11 as char || ch == 12 as char
  }

  function SkipSpace(s: string): string { if s != "" && IsSpace(s[0]) then SkipSpace(s[1..]) else s }

  /** The number at the front of a string, of any size. */
  function AtoiValue(s: string): int {
    var t := SkipSpace(s);
    if t != "" && t[0] == '+' then ReadDigits(t[1..], 10, 0)
    else if t != "" && t[0] == '-' then 0 - ReadDigits(t[1..], 10, 0)
    else ReadDigits(t, 10, 0)
  }

  const INT_MIN: int := -0x8000_0000
  const INT_MAX: int := 0x7FFF_FFFF

  lemma {:induction false} ReadGrows(s: string, acc: nat)
    ensures ReadDigits(s, 10, acc) >= acc
  {
    if s != "" && IsDigit(s[0], 10) { ReadGrows(s[1..], acc * 10 + (s[0] as int - '0' as int)); }
  }

  /** `atoi`, for numbers that an `int` can hold: no step on the way overflows. */
  method Atoi(s: string) returns (value: int)
    requires INT_MIN <= AtoiValue(s) <= INT_MAX
    ensures value == AtoiValue(s)
  {
    var t := s;
    while t != "" && IsSpace(t[0])
      invariant SkipSpace(t) == SkipSpace(s)
      decreases |t|
    {
      t := t[1..];
    }
    var negative := false;
    if t != "" && t[0] == '+' {
      t := t[1..];
    } else if t != "" && t[0] == '-' {
      negative := true;
      t := t[1..];
    }
    ghost var magnitude := ReadDigits(t, 10, 0);
    value := 0;
    while t != "" && IsDigit(t[0], 10)
      invariant value <= 0 && ReadDigits(t, 10, -value) == magnitude
      decreases |t|
    {
      ghost var next := -value * 10 + (t[0] as int - '0' as int);
      ReadGrows(t[1..], next);
      value := value * 10 - (t[0] as int - '0' as int);
      assert INT_MIN <= value <= 0;
      t := t[1..];
    }
    if !negative {
      value := -value;
    }
  }

  /** `%d`. */
  const PLAIN := Conversion(false, false, false, false, false, false, 0, -1)

  lemma PlainField(v: nat, negative: bool)
    ensures Field(v, true, negative, BASE_D, PLAIN) == (if negative then "-" else "") + Reversed(Body(v, BASE_D, PLAIN))
  {
    assert Repeat(' ', 0) == "";
    NoPadding(Sign(PLAIN, true, negative), Reversed(Body(v, BASE_D, PLAIN)));
  }

  lemma NoPadding(sign: string, body: string)
    ensures "" + sign + "" + "" + body + "" == sign + body
  {
  }

  lemma SignedNumeral(body: string, negative: bool)
    requires body != "" && IsDigit(body[0], 10)
    ensures AtoiValue((if negative then "-" else "") + body) == if negative then 0 - ReadDigits(body, 10, 0) else ReadDigits(body, 10, 0)
  {
    if negative {
      assert ("-" + body)[1..] == body;
    } else {
      assert "" + body == body;
    }
  }

  /** Printing an `int` with `%d` and reading it with `atoi` gives it back. */
  lemma PrintThenRead(n: int)
    requires INT_MIN <= n <= INT_MAX
    ensures AtoiValue(Field(if n < 0 then -n else n, true, n < 0, BASE_D, PLAIN)) == n
  {
    var v: nat := if n < 0 then -n else n;
    PlainField(v, n < 0);
    PlainBody(v);
    SignedNumeral(Reversed(Body(v, BASE_D, PLAIN)), n < 0);
  }

  lemma PlainBody(v: nat)
    ensures var body := Reversed(Body(v, BASE_D, PLAIN));
      body != "" && IsDigit(body[0], 10) && ReadDigits(body, 10, 0) == v
  {
    var body := Reversed(Body(v, BASE_D, PLAIN));
    if v == 0 {
      assert Body(v, BASE_D, PLAIN) == "0";
    } else {
      var d := Digits(v, BASE_D, false, 0);
      DigitsReadBack(v, BASE_D, 0, "");
      assert Reversed(d) + "" == Reversed(d);
      assert d + Repeat('0', 0) == d;
      FirstDigit(v, BASE_D, 0);
    }
  }

  lemma {:induction false} FirstDigit(v: nat, b: Base, cnt: nat)
    requires (b == BASE_D || b == BASE_O) && v > 0
    ensures Reversed(Digits(v, b, false, cnt)) != "" && IsDigit(Reversed(Digits(v, b, false, cnt))[0], b.base)
    decreases v
  {
    DigitsOf(v, b, cnt);
    DecimalDigit(v % b.base);
    if v / b.base > 0 { FirstDigit(v / b.base, b, cnt + 1); }
  }
}
