/** Numbers and conversions as text: what every integer conversion prints reads back as the number, and
    what a conversion is written as parses back. */
module Rendering {
  import opened Numbers
  import opened Print
  import opened Parse

  // ---- a reader for fields

  /** What a character stands for as a digit; 16 if it is none. */
  function DigitValue(ch: char): nat {
    if '0' <= ch <= '9' then ch as int - '0' as int
    else if 'a' <= ch <= 'f' then ch as int - 'a' as int + 10
    else if 'A' <= ch <= 'F' then ch as int - 'A' as int + 10
    else 16
  }

  /** The number that digits and commas stand for, after `acc`. */
  function ReadOn(s: string, base: nat, acc: nat): nat {
    if s == "" then acc
    else if s[0] == ',' then ReadOn(s[1..], base, acc)
    else if DigitValue(s[0]) < base then ReadOn(s[1..], base, acc * base + DigitValue(s[0]))
    else acc
  }

  function ReadNumber(s: string, base: nat): nat {
    if base == 16 && |s| >= 2 && s[0] == '0' && (s[1] == 'x' || s[1] == 'X') then ReadOn(s[2..], 16, 0) else ReadOn(s, base, 0)
  }

  /** Spaces, a sign, a prefix and the digits: whether there is a minus sign, and the number. */
  function ReadField(s: string, base: nat): (bool, nat) {
    if s == "" then (false, 0)
    else if s[0] == ' ' then ReadField(s[1..], base)
    else if s[0] == '-' then (true, ReadNumber(s[1..], base))
    else if s[0] == '+' then (false, ReadNumber(s[1..], base))
    else (false, ReadNumber(s, base))
  }

  lemma {:induction false} SpacesSkipped(n: nat, t: string, base: nat)
    ensures ReadField(Repeat(' ', n) + t, base) == ReadField(t, base)
  {
    if n == 0 {
      assert Repeat(' ', 0) + t == t;
    } else {
      SpacesSkipped(n - 1, t, base);
      assert (Repeat(' ', n) + t)[1..] == Repeat(' ', n - 1) + t;
    }
  }

  lemma {:induction false} ZerosRead(n: nat, t: string, base: nat)
    requires base > 0
    ensures ReadOn(Repeat('0', n) + t, base, 0) == ReadOn(t, base, 0)
  {
    if n == 0 {
      assert Repeat('0', 0) + t == t;
    } else {
      ZerosRead(n - 1, t, base);
      assert (Repeat('0', n) + t)[1..] == Repeat('0', n - 1) + t;
    }
  }

  lemma SpacesEnd(n: nat, base: nat, acc: nat)
    requires base <= 16
    ensures ReadOn(Repeat(' ', n), base, acc) == acc
  {
    if n > 0 { assert Repeat(' ', n)[0] == ' '; }
  }

  lemma {:induction false} ReversedConcat(a: string, b: string)
    ensures Reversed(a + b) == Reversed(b) + Reversed(a)
  {
    if a == "" {
      assert "" + b == b && Reversed(b) + "" == Reversed(b);
    } else {
      ReversedConcat(a[1..], b);
      assert (a + b)[1..] == a[1..] + b;
    }
  }

  lemma {:induction false} ReversedRepeat(ch: char, n: nat)
    ensures Reversed(Repeat(ch, n)) == Repeat(ch, n)
  {
    if n > 0 {
      assert Repeat(ch, n)[1..] == Repeat(ch, n - 1);
      ReversedRepeat(ch, n - 1);
      assert Repeat(ch, n - 1) + [ch] == Repeat(ch, n);
    }
  }

  lemma DigitAt(b: Base, i: nat)
    requires IsBase(b) && i < b.base
    ensures b.base <= 16 && |b.digits| == b.base && DigitValue(b.digits[i]) == i && b.digits[i] != ','
  {
    if i < 8 {
      assert i == 0 || i == 1 || i == 2 || i == 3 || i == 4 || i == 5 || i == 6 || i == 7;
    } else {
      assert i == 8 || i == 9 || i == 10 || i == 11 || i == 12 || i == 13 || i == 14 || i == 15;
    }
  }

  lemma ReadDigit(ch: char, comma: string, t: string, base: nat, acc: nat)
    requires ch != ',' && DigitValue(ch) < base && (comma == "" || comma == ",")
    ensures ReadOn([ch] + comma + t, base, acc) == ReadOn(t, base, acc * base + DigitValue(ch))
  {
    assert ([ch] + comma + t)[1..] == comma + t;
    if comma == "" { assert comma + t == t; } else { assert (comma + t)[1..] == t; }
  }

  lemma DigitsSplit(v: nat, b: Base, grouped: bool, cnt: nat)
    requires IsBase(b) && v > 0
    ensures 0 <= v / b.base < v && 0 <= v % b.base < b.base == |b.digits|
    ensures Reversed(Digits(v, b, grouped, cnt))
         == Reversed(Digits(v / b.base, b, grouped, cnt + 1)) + ([b.digits[v % b.base]] + Comma(b, grouped, cnt))
  {
    DivSmaller(v, b.base);
    var d, comma, rest := [b.digits[v % b.base]], Comma(b, grouped, cnt), Digits(v / b.base, b, grouped, cnt + 1);
    ReversedConcat(comma + d, rest);
    ReversedConcat(comma, d);
    assert Reversed(comma) == comma by { if comma != "" { assert comma == ","; } }
    assert Reversed(d) == d;
  }

  /** The digits, with or without commas, stand for the number. */
  lemma {:induction false} DigitsDenote(v: nat, b: Base, grouped: bool, cnt: nat, t: string)
    requires IsBase(b)
    ensures ReadOn(Reversed(Digits(v, b, grouped, cnt)) + t, b.base, 0) == ReadOn(t, b.base, v)
    decreases v
  {
    if v == 0 {
      assert "" + t == t;
    } else {
      hide Digits, DigitValue, ReadOn, Comma, Reversed;
      DigitsSplit(v, b, grouped, cnt);
      CommaIs(b, grouped, cnt);
      var high, ch, comma := Reversed(Digits(v / b.base, b, grouped, cnt + 1)), b.digits[v % b.base], Comma(b, grouped, cnt);
      assert high + ([ch] + comma) + t == high + ([ch] + comma + t);
      DigitsDenote(v / b.base, b, grouped, cnt + 1, [ch] + comma + t);
      DigitAt(b, v % b.base);
      ReadDigit(ch, comma, t, b.base, v / b.base);
      QuotientRemainder(v, b.base);
    }
  }

  lemma CommaIs(b: Base, grouped: bool, cnt: nat)
    requires IsBase(b)
    ensures Comma(b, grouped, cnt) == "" || Comma(b, grouped, cnt) == ","
  {
  }

  lemma QuotientRemainder(v: nat, d: nat)
    requires d > 0
    ensures v / d * d + v % d == v
  {
  }

  /** Whatever the precision and the `#` flag add are zeros in front. */
  lemma BodyZeros(v: nat, b: Base, c: Conversion) returns (k: nat)
    requires IsBase(b)
    ensures Reversed(Body(v, b, c)) == Repeat('0', k) + Reversed(Digits(v, b, c.group, 0))
  {
    hide Digits, Reversed;
    var d := Digits(v, b, c.group, 0);
    var want := if c.precision < 0 then 1 else if c.precision > BUFFER - 1 then BUFFER - 1 else c.precision;
    k := if want > |d| then want - |d| else 0;
    if Body(v, b, c) != Precise(v, b, c) {
      assert Precise(v, b, c) + "0" == d + Repeat('0', k + 1);
      k := k + 1;
    }
    ReversedConcat(d, Repeat('0', k));
    ReversedRepeat('0', k);
  }

  /** Neither a sign nor the letter of a prefix. */
  predicate Harmless(s: string) { forall i :: 0 <= i < |s| ==> s[i] == ' ' || s[i] == ',' || DigitValue(s[i]) < 16 }

  lemma {:induction false} DigitsHarmless(v: nat, b: Base, grouped: bool, cnt: nat)
    requires IsBase(b)
    ensures Harmless(Reversed(Digits(v, b, grouped, cnt)))
    decreases v
  {
    if v > 0 {
      DigitsSplit(v, b, grouped, cnt);
      DigitAt(b, v % b.base);
      DigitsHarmless(v / b.base, b, grouped, cnt + 1);
    }
  }

  /** Zeros, the digits, and spaces behind them. */
  ghost function Tail(v: nat, b: Base, c: Conversion, zeros: nat, spaces: nat): string
    requires IsBase(b)
  {
    Repeat('0', zeros) + (Reversed(Digits(v, b, c.group, 0)) + Repeat(' ', spaces))
  }

  lemma TailReads(v: nat, b: Base, c: Conversion, zeros: nat, spaces: nat)
    requires IsBase(b)
    ensures ReadOn(Tail(v, b, c, zeros, spaces), b.base, 0) == v && Harmless(Tail(v, b, c, zeros, spaces))
  {
    ZerosRead(zeros, Reversed(Digits(v, b, c.group, 0)) + Repeat(' ', spaces), b.base);
    DigitsDenote(v, b, c.group, 0, Repeat(' ', spaces));
    SpacesEnd(spaces, b.base, v);
    DigitsHarmless(v, b, c.group, 0);
  }

  lemma {:induction false} HarmlessReads(s: string, base: nat)
    requires Harmless(s) && base <= 16
    ensures ReadField(s, base) == (false, ReadOn(s, base, 0)) || (s != "" && s[0] == ' ')
    ensures ReadNumber(s, base) == ReadOn(s, base, 0)
  {
  }

  lemma AllSpaces(n: nat, base: nat)
    ensures ReadField(Repeat(' ', n), base) == (false, 0)
  {
    SpacesSkipped(n, "", base);
    assert Repeat(' ', n) + "" == Repeat(' ', n);
  }

  lemma TailField(v: nat, b: Base, c: Conversion, zeros: nat, spaces: nat)
    requires IsBase(b)
    ensures var t := Tail(v, b, c, zeros, spaces); ReadNumber(t, b.base) == v && ReadField(t, b.base) == (false, v)
  {
    var t, d := Tail(v, b, c, zeros, spaces), Reversed(Digits(v, b, c.group, 0));
    TailReads(v, b, c, zeros, spaces);
    HarmlessReads(t, b.base);
    if t != "" && t[0] == ' ' {
      if v > 0 { TailStarts(v, b, c.group); }
      assert zeros == 0 && d == "";
      assert t == Repeat(' ', spaces);
      AllSpaces(spaces, b.base);
    }
  }

  lemma {:induction false} DigitFirst(v: nat, b: Base, grouped: bool, cnt: nat)
    requires IsBase(b) && v > 0
    ensures var d := Reversed(Digits(v, b, grouped, cnt)); d != "" && 0 < DigitValue(d[0]) < 16
    decreases v
  {
    DigitsSplit(v, b, grouped, cnt);
    DigitAt(b, v % b.base);
    DivBounds(v, b.base);
    if v / b.base > 0 { DigitFirst(v / b.base, b, grouped, cnt + 1); }
  }

  lemma TailStarts(v: nat, b: Base, grouped: bool)
    requires IsBase(b) && v > 0
    ensures Reversed(Digits(v, b, grouped, 0)) != "" && Reversed(Digits(v, b, grouped, 0))[0] != ' '
  {
    DigitFirst(v, b, grouped, 0);
  }

  lemma PrefixReads(v: nat, b: Base, c: Conversion, zeros: nat, spaces: nat)
    requires IsBase(b)
    ensures var t := Prefix(v, b, c) + Tail(v, b, c, zeros, spaces); ReadNumber(t, b.base) == v && ReadField(t, b.base) == (false, v)
  {
    var p, t := Prefix(v, b, c), Tail(v, b, c, zeros, spaces);
    TailField(v, b, c, zeros, spaces);
    if p == "" {
      assert p + t == t;
    } else {
      assert (p + t)[2..] == t;
      TailReads(v, b, c, zeros, spaces);
    }
  }

  lemma SignReads(c: Conversion, signed: bool, negative: bool, t: string, base: nat, v: nat)
    requires ReadNumber(t, base) == v && ReadField(t, base) == (false, v)
    ensures ReadField(Sign(c, signed, negative) + t, base) == (signed && negative, v)
  {
    var sign := Sign(c, signed, negative);
    if sign == "" { assert sign + t == t; } else { assert (sign + t)[1..] == t; }
  }

  function Pad(v: nat, signed: bool, negative: bool, b: Base, c: Conversion): nat
    requires IsBase(b)
  {
    var core := Core(v, signed, negative, b, c);
    if c.width > core then c.width - core else 0
  }

  lemma FieldIs(v: nat, signed: bool, negative: bool, b: Base, c: Conversion)
    requires IsBase(b)
    ensures var pad := Pad(v, signed, negative, b, c);
      Field(v, signed, negative, b, c)
        == Repeat(' ', if c.minus || c.zero then 0 else pad) + Sign(c, signed, negative) + Prefix(v, b, c)
         + Repeat('0', if c.zero then pad else 0) + Reversed(Body(v, b, c)) + Repeat(' ', if c.minus then pad else 0)
  {
    hide Sign, Prefix, Body, Reversed, Core;
    assert Repeat(' ', 0) == "" && Repeat('0', 0) == "";
  }

  lemma Regrouped(lead: string, sign: string, prefix: string, z: string, k: string, digits: string, spaces: string)
    ensures lead + sign + prefix + z + (k + digits) + spaces == lead + (sign + (prefix + (z + k + (digits + spaces))))
  {
    assert z + (k + digits) + spaces == z + k + (digits + spaces);
    assert lead + sign + prefix + z + (k + digits) + spaces == lead + sign + prefix + (z + (k + digits) + spaces);
    assert lead + sign + prefix + (z + k + (digits + spaces)) == lead + (sign + (prefix + (z + k + (digits + spaces))));
  }

  /** A field is spaces, the sign, the prefix, zeros, the digits, and spaces. */
  lemma FieldParts(v: nat, signed: bool, negative: bool, b: Base, c: Conversion) returns (lead: nat, zeros: nat, spaces: nat)
    requires IsBase(b)
    ensures Field(v, signed, negative, b, c)
         == Repeat(' ', lead) + (Sign(c, signed, negative) + (Prefix(v, b, c) + Tail(v, b, c, zeros, spaces)))
  {
    hide Field, Sign, Prefix, Body, Digits, Reversed, Pad;
    var pad := Pad(v, signed, negative, b, c);
    var k := BodyZeros(v, b, c);
    lead, spaces := if c.minus || c.zero then 0 else pad, if c.minus then pad else 0;
    var padding := if c.zero then pad else 0;
    zeros := padding + k;
    FieldIs(v, signed, negative, b, c);
    RepeatSum('0', padding, k);
    Regrouped(Repeat(' ', lead), Sign(c, signed, negative), Prefix(v, b, c), Repeat('0', padding), Repeat('0', k),
              Reversed(Digits(v, b, c.group, 0)), Repeat(' ', spaces));
  }

  lemma RepeatSum(ch: char, n: nat, m: nat)
    ensures Repeat(ch, n + m) == Repeat(ch, n) + Repeat(ch, m)
  {
  }

  /** What every integer conversion prints, in whatever base and with whatever flags, width and
      precision, reads back as the sign and the number. */
  lemma FieldReads(v: nat, signed: bool, negative: bool, b: Base, c: Conversion)
    requires IsBase(b)
    ensures ReadField(Field(v, signed, negative, b, c), b.base) == (signed && negative, v)
  {
    hide Field, Sign, Prefix, Tail, ReadField, ReadNumber;
    var lead, zeros, spaces := FieldParts(v, signed, negative, b, c);
    var t := Prefix(v, b, c) + Tail(v, b, c, zeros, spaces);
    PrefixReads(v, b, c, zeros, spaces);
    SignReads(c, signed, negative, t, b.base, v);
    SpacesSkipped(lead, Sign(c, signed, negative) + t, b.base);
  }

  // ---- where the padding goes

  /** The field is the text that it has at width 0, with spaces in front of it; with the minus flag,
      behind it; with the zero flag, zeros between the sign or prefix and the digits. */
  lemma FieldSides(v: nat, signed: bool, negative: bool, b: Base, c: Conversion)
    requires IsBase(b) && !(c.minus && c.zero)
    ensures var text, field := Field(v, signed, negative, b, c.(width := 0)), Field(v, signed, negative, b, c);
      var pad, front := if c.width > |text| then c.width - |text| else 0, |Sign(c, signed, negative)| + |Prefix(v, b, c)|;
      front <= |text| && field ==
        if c.minus then text + Repeat(' ', pad)
        else if c.zero then text[..front] + Repeat('0', pad) + text[front..]
        else Repeat(' ', pad) + text
  {
    hide Field, Sign, Prefix, Body, Reversed;
    var front, body := Sign(c, signed, negative) + Prefix(v, b, c), Reversed(Body(v, b, c));
    Unpadded(v, signed, negative, b, c);
    FieldIs(v, signed, negative, b, c);
    assert Repeat(' ', 0) == "" && Repeat('0', 0) == "";
    assert (front + body)[..|front|] == front && (front + body)[|front|..] == body;
    Around(Repeat(' ', if c.minus || c.zero then 0 else Pad(v, signed, negative, b, c)), Sign(c, signed, negative), Prefix(v, b, c));
    var lead := Repeat(' ', Pad(v, signed, negative, b, c));
    assert lead + front + "" + body + "" == lead + (front + body);
  }

  lemma Around(lead: string, sign: string, prefix: string)
    ensures lead + sign + prefix == lead + (sign + prefix) && (lead == "" ==> lead + sign + prefix == sign + prefix)
  {
  }

  /** At width 0 there is no padding. */
  lemma Unpadded(v: nat, signed: bool, negative: bool, b: Base, c: Conversion)
    requires IsBase(b)
    ensures Field(v, signed, negative, b, c.(width := 0)) == Sign(c, signed, negative) + Prefix(v, b, c) + Reversed(Body(v, b, c))
    ensures Pad(v, signed, negative, b, c.(width := 0)) == 0
  {
    var c' := c.(width := 0);
    SameParts(v, signed, negative, b, c);
    hide Field, Sign, Prefix, Body, Reversed;
    FieldIs(v, signed, negative, b, c');
    assert Repeat(' ', 0) == "" && Repeat('0', 0) == "";
    NoSpaces(Sign(c, signed, negative), Prefix(v, b, c), Reversed(Body(v, b, c)));
  }

  lemma NoSpaces(sign: string, prefix: string, body: string)
    ensures "" + sign + prefix + "" + body + "" == sign + prefix + body
  {
  }

  lemma SameParts(v: nat, signed: bool, negative: bool, b: Base, c: Conversion)
    requires IsBase(b)
    ensures var c' := c.(width := 0);
      Sign(c', signed, negative) == Sign(c, signed, negative) && Prefix(v, b, c') == Prefix(v, b, c) && Body(v, b, c') == Body(v, b, c)
  {
    hide Body;
    SameBody(v, b, c);
  }

  lemma SameBody(v: nat, b: Base, c: Conversion)
    requires IsBase(b)
    ensures Body(v, b, c.(width := 0)) == Body(v, b, c)
  {
    hide Digits, Repeat;
    assert Precise(v, b, c.(width := 0)) == Precise(v, b, c);
  }

  /** The sign: a minus sign for a negative number, otherwise a plus sign or a space if asked for, the
      plus sign before the space, and none for an unsigned conversion. */
  lemma SignShown(v: nat, signed: bool, negative: bool, b: Base, c: Conversion)
    requires IsBase(b) && c.width == 0
    ensures var text := Field(v, signed, negative, b, c);
      && (signed && negative <==> text != "" && text[0] == '-')
      && (signed && !negative && c.plus <==> text != "" && text[0] == '+')
      && (signed && !negative && !c.plus && c.space <==> text != "" && text[0] == ' ')
  {
    hide Field, Body, Reversed, Prefix;
    var sign, rest := Sign(c, signed, negative), Prefix(v, b, c) + Reversed(Body(v, b, c));
    Unpadded(v, signed, negative, b, c);
    assert c.(width := 0) == c;
    assert sign + Prefix(v, b, c) + Reversed(Body(v, b, c)) == sign + rest;
    Unsigned(v, b, c);
  }

  lemma Unsigned(v: nat, b: Base, c: Conversion)
    requires IsBase(b)
    ensures var t := Prefix(v, b, c) + Reversed(Body(v, b, c)); t == "" || (t[0] != '-' && t[0] != '+' && t[0] != ' ')
  {
    hide Body, Digits, Reversed;
    var k := BodyZeros(v, b, c);
    if v > 0 { DigitFirst(v, b, c.group, 0); } else { NoDigits(b, c.group); }
  }

  lemma NoDigits(b: Base, grouped: bool)
    requires IsBase(b)
    ensures Reversed(Digits(0, b, grouped, 0)) == ""
  {
  }

  // ---- conversions as text

  function Shown(ch: char, shown: bool): string { if shown then [ch] else "" }

  function Three(a: char, p: bool, b: char, q: bool, c: char, r: bool): string { Shown(a, p) + Shown(b, q) + Shown(c, r) }

  lemma ThreeChars(a: char, p: bool, b: char, q: bool, c: char, r: bool, x: char)
    ensures x in Three(a, p, b, q, c, r) <==> (x == a && p) || (x == b && q) || (x == c && r)
  {
  }

  function FlagText(c: Conversion): string {
    Three('-', c.minus, '+', c.plus, ' ', c.space) + Three('#', c.pound, '0', c.zero, '\'', c.group)
  }

  function Decimal(v: nat): string { Reversed(Digits(v, BASE_D, false, 0)) }

  function PrecisionText(c: Conversion): string { if c.precision < 0 then "" else "." + Decimal(c.precision) }

  /** A conversion written out: flags, width and precision. */
  function Render(c: Conversion): string { FlagText(c) + Decimal(c.width) + PrecisionText(c) }

  /** The flags that have an effect, and a precision or none. */
  predicate Proper(c: Conversion) {
    c.precision >= -1 && !(c.plus && c.space) && !(c.minus && c.zero) && !(c.zero && c.precision >= 0)
  }

  /** Text that does not go on with the conversion. */
  predicate Ends(rest: string) { rest == "" || (!IsFlag(rest[0]) && !IsDigit(rest[0], 10) && rest[0] != '.' && rest[0] != '*') }

  lemma {:induction false} FlagsEnd(a: string, b: string)
    requires (forall i :: 0 <= i < |a| ==> IsFlag(a[i])) && (b == "" || !IsFlag(b[0]))
    ensures Flags(a + b) == |a|
  {
    if a == "" {
      assert a + b == b;
    } else {
      assert (a + b)[1..] == a[1..] + b;
      FlagsEnd(a[1..], b);
    }
  }

  predicate AllDigits(s: string) { forall i :: 0 <= i < |s| ==> IsDigit(s[i], 10) }

  lemma {:induction false} DecimalsEnd(a: string, b: string)
    requires AllDigits(a) && (b == "" || !IsDigit(b[0], 10))
    ensures Decimals(a + b) == |a|
  {
    if a == "" {
      assert a + b == b;
    } else {
      assert (a + b)[1..] == a[1..] + b;
      DecimalsEnd(a[1..], b);
    }
  }

  lemma {:induction false} DecimalChars(v: nat, cnt: nat)
    ensures AllDigits(Reversed(Digits(v, BASE_D, false, cnt)))
    decreases v
  {
    if v > 0 {
      DigitsOf(v, BASE_D, cnt);
      DecimalDigit(v % 10);
      DecimalChars(v / 10, cnt + 1);
    }
  }

  /** A number reads as itself, up to what is not a digit. */
  lemma AmountReads(v: nat, rest: string, arg: int)
    requires rest == "" || (!IsDigit(rest[0], 10) && rest[0] != '*')
    ensures Amount(Decimal(v) + rest, arg) == (v, rest, false)
  {
    hide Digits, Reversed;
    DecimalChars(v, 0);
    DecimalsEnd(Decimal(v), rest);
    DigitsReadBack(v, BASE_D, 0, rest);
    assert (Decimal(v) + rest)[|Decimal(v)|..] == rest;
    assert Decimal(v) == "" ==> Decimal(v) + rest == rest;
  }

  /** The number does not start with a flag. */
  lemma DecimalStarts(v: nat)
    ensures Decimal(v) == "" || (IsDigit(Decimal(v)[0], 10) && Decimal(v)[0] != '0')
  {
    if v > 0 {
      DecimalChars(v, 0);
      DigitFirst(v, BASE_D, false, 0);
    }
  }

  lemma FlagIn(c: Conversion, x: char)
    ensures x in FlagText(c) <==>
      || (x == '-' && c.minus) || (x == '+' && c.plus) || (x == ' ' && c.space)
      || (x == '#' && c.pound) || (x == '0' && c.zero) || (x == '\'' && c.group)
  {
    hide Three;
    ThreeChars('-', c.minus, '+', c.plus, ' ', c.space, x);
    ThreeChars('#', c.pound, '0', c.zero, '\'', c.group, x);
  }

  lemma FlagChars(c: Conversion)
    ensures var f := FlagText(c); forall i :: 0 <= i < |f| ==> IsFlag(f[i])
    ensures FlagsOnly(FlagText(c)) == Conversion(c.minus, c.plus, c.space && !c.plus, c.pound, c.zero && !c.minus, c.group, 0, -1)
  {
    hide FlagText;
    forall i | 0 <= i < |FlagText(c)|
      ensures IsFlag(FlagText(c)[i])
    {
      FlagIn(c, FlagText(c)[i]);
    }
    FlagIn(c, '-');
    FlagIn(c, '+');
    FlagIn(c, ' ');
    FlagIn(c, '#');
    FlagIn(c, '0');
    FlagIn(c, '\'');
  }

  /** Width and precision read as they are written. */
  lemma AmountsRead(c: Conversion, rest: string, args: nat -> int)
    requires c.precision >= -1 && Ends(rest)
    ensures WidthAndPrecision(Decimal(c.width) + (PrecisionText(c) + rest), args) == (c.width, c.precision, rest)
  {
    hide Decimal, Amount;
    AmountReads(c.width, PrecisionText(c) + rest, args(0));
    if c.precision >= 0 {
      assert (PrecisionText(c) + rest)[1..] == Decimal(c.precision) + rest;
      AmountReads(c.precision, rest, args(0));
    } else {
      assert PrecisionText(c) + rest == rest;
    }
  }

  /** Every conversion that is written out parses back, whatever follows it. */
  lemma RenderParses(c: Conversion, rest: string, args: nat -> int)
    requires Proper(c) && Ends(rest)
    ensures Parsed(Render(c) + rest, args) == c
  {
    hide Decimal, FlagText, WidthAndPrecision;
    var flags, amounts := FlagText(c), Decimal(c.width) + (PrecisionText(c) + rest);
    var f := Render(c) + rest;
    assert f == flags + amounts;
    FlagChars(c);
    DecimalStarts(c.width);
    assert amounts == "" || !IsFlag(amounts[0]) by {
      if Decimal(c.width) == "" { assert amounts == PrecisionText(c) + rest; }
    }
    FlagsEnd(flags, amounts);
    assert f[..|flags|] == flags && f[|flags|..] == amounts;
    AmountsRead(c, rest, args);
  }

  // ---- atoi

  predicate AllSpace(s: string) { forall i :: 0 <= i < |s| ==> IsSpace(s[i]) }

  lemma {:induction false} SpaceSkipped(s: string, t: string)
    requires AllSpace(s) && (t == "" || !IsSpace(t[0]))
    ensures SkipSpace(s + t) == t
  {
    if s == "" {
      assert s + t == t;
    } else {
      assert (s + t)[1..] == s[1..] + t;
      SpaceSkipped(s[1..], t);
    }
  }

  /** Text that ends a number. */
  predicate Stops(s: string) { s == "" || !IsDigit(s[0], 10) }

  /** Text that does not begin one. */
  predicate NoStart(s: string) { s == "" || (!IsSpace(s[0]) && s[0] != '+' && s[0] != '-') }

  /** `atoi` reads any number behind white space and a sign, with zeros in front of it, and up to what
      is not a digit. */
  lemma AtoiExact(space: string, sign: string, zeros: nat, v: nat, rest: string)
    requires AllSpace(space) && (sign == "" || sign == "+" || sign == "-")
    requires Stops(rest) && (sign + Repeat('0', zeros) + Decimal(v) == "" ==> NoStart(rest))
    ensures AtoiValue(space + (sign + (Repeat('0', zeros) + (Decimal(v) + rest)))) == if sign == "-" then 0 - v else v
  {
    hide Digits, Reversed, SkipSpace;
    var number := Repeat('0', zeros) + (Decimal(v) + rest);
    ZerosReadBack(zeros, 10, Decimal(v) + rest);
    DigitsReadBack(v, BASE_D, 0, rest);
    DecimalStarts(v);
    assert ReadDigits(number, 10, 0) == v;
    NumberStarts(zeros, v, rest, sign);
    SpaceSkipped(space, sign + number);
    if sign == "" { assert sign + number == number; } else { assert (sign + number)[1..] == number; }
  }

  lemma NumberStarts(zeros: nat, v: nat, rest: string, sign: string)
    requires (sign == "" || sign == "+" || sign == "-")
    requires Stops(rest) && (sign + Repeat('0', zeros) + Decimal(v) == "" ==> NoStart(rest))
    ensures var t := sign + (Repeat('0', zeros) + (Decimal(v) + rest));
      t == "" || (!IsSpace(t[0]) && (sign == "" ==> t[0] != '+' && t[0] != '-'))
  {
    hide Digits, Reversed;
    DecimalStarts(v);
  }
}
