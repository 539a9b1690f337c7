/** `parse_conversion` of `lib/stdio.c`: flags, width and precision of a conversion. */
module Parse {
  import opened Print

  predicate IsFlag(ch: char) { ch == '-' || ch == '+' || ch == ' ' || ch == '#' || ch == '0' || ch == '\'' }

  /** Where the flags at the front of `f` end. */
  function Flags(f: string): (n: nat)
    ensures n <= |f| && (forall i :: 0 <= i < n ==> IsFlag(f[i])) && (n < |f| ==> !IsFlag(f[n]))
  {
    if f != "" && IsFlag(f[0]) then Flags(f[1..]) + 1 else 0
  }

  /** Where the digits at the front of `f` end. */
  function Decimals(f: string): (n: nat)
    ensures n <= |f| && (forall i :: 0 <= i < n ==> IsDigit(f[i], 10)) && (n < |f| ==> !IsDigit(f[n], 10))
  {
    if f != "" && IsDigit(f[0], 10) then Decimals(f[1..]) + 1 else 0
  }

  /** A number in the format, or the next argument for a `*`; where the text goes on, and whether
      an argument has been taken. */
  function Amount(f: string, arg: int): (int, string, bool) {
    if f != "" && f[0] == '*' then (arg, f[1..], true) else (ReadDigits(f, 10, 0), f[Decimals(f)..], false)
  }

  /** The width, and the precision or -1, of the text behind the flags. */
  function WidthAndPrecision(f: string, args: nat -> int): (int, int, string) {
    var w := Amount(f, args(0));
    if w.1 != "" && w.1[0] == '.' then
      var p := Amount(w.1[1..], args(if w.2 then 1 else 0));
      (w.0, if p.0 < 0 then -1 else p.0, p.1)
    else (w.0, -1, w.1)
  }

  /** What the flags ask for by themselves. */
  function FlagsOnly(flags: string): Conversion {
    Conversion('-' in flags, '+' in flags, ' ' in flags && '+' !in flags, '#' in flags,
               '0' in flags && '-' !in flags, '\'' in flags, 0, -1)
  }

  /** What the text behind a percent sign asks for; `args` are the arguments. */
  function Parsed(f: string, args: nat -> int): Conversion {
    Finished(FlagsOnly(f[..Flags(f)]), WidthAndPrecision(f[Flags(f)..], args).0, WidthAndPrecision(f[Flags(f)..], args).1)
  }

  function Finished(c: Conversion, width: int, precision: int): Conversion {
    c.(minus := c.minus || width < 0, zero := c.zero && precision < 0, width := if width < 0 then -width else width,
       precision := precision)
  }

  /** Both kinds of padding are asked for exactly when there is a zero flag and no minus flag, a
      `*` gives a negative width, and there is no precision or a `*` gives a negative one. */
  lemma PadsTwice(f: string, args: nat -> int)
    ensures var flags, rest := f[..Flags(f)], f[Flags(f)..];
      Parsed(f, args).minus && Parsed(f, args).zero <==>
        && '0' in flags && '-' !in flags
        && rest != "" && rest[0] == '*' && args(0) < 0
        && (|rest| == 1 || rest[1] != '.' || (|rest| > 2 && rest[2] == '*' && args(1) < 0))
  {
    var rest := f[Flags(f)..];
    if rest != "" && rest[0] == '*' && |rest| > 1 && rest[1] == '.' {
      assert rest[1..][1..] == rest[2..];
      assert rest[2..] != "" ==> rest[2..][0] == rest[2];
    }
  }

  const DOUBLY_PADDED := Conversion(true, false, false, false, true, false, 5, -1)

  /** The conversion `0*d` with width -5 asks for both. */
  lemma BothFlags()
    ensures Parsed("0*d", k => -5) == DOUBLY_PADDED
  {
    var f: string, args := "0*d", (k: nat) => -5;
    assert f[1..] == "*d" && f[..1] == "0" && f[0] == '0' && "*d"[1..] == "d";
    assert Flags("*d") == 0;
    assert Flags(f) == 1;
    assert WidthAndPrecision("*d", args) == (-5, -1, "d");
  }

  /** It prints 7 in nine characters instead of five. */
  lemma PaddedTwice()
    ensures Field(7, true, false, BASE_D, DOUBLY_PADDED) == "00007    "
  {
    assert Digits(7, BASE_D, false, 0) == "7";
    assert Body(7, BASE_D, DOUBLY_PADDED) == "7";
    assert Reversed("7") == "7";
    assert Repeat('0', 4) == "0000" && Repeat(' ', 4) == "    ";
  }

  // ---- as it runs

  method ReadAmount(f: string, start: nat, arg: int) returns (v: int, pos: nat, taken: bool)
    requires start <= |f|
    ensures start <= pos <= |f| && (v, f[pos..], taken) == Amount(f[start..], arg)
  {
    if start < |f| && f[start] == '*' {
      assert f[start..][1..] == f[start + 1..];
      return arg, start + 1, true;
    }
    v, pos, taken := 0, start, false;
    while pos < |f| && IsDigit(f[pos], 10)
      invariant start <= pos <= |f| && v >= 0
      invariant ReadDigits(f[pos..], 10, v) == ReadDigits(f[start..], 10, 0)
      invariant f[pos..][Decimals(f[pos..])..] == f[start..][Decimals(f[start..])..]
    {
      assert f[pos..][1..] == f[pos + 1..];
      v := v * 10 + (f[pos] as int - '0' as int);
      pos := pos + 1;
    }
  }

  method ReadFlags(f: string) returns (c: Conversion, n: nat)
    ensures n == Flags(f) && c == FlagsOnly(f[..n])
  {
    n := 0;
    var minus, plus, space, pound, zero, group := false, false, false, false, false, false;
    while n < |f| && IsFlag(f[n])
      invariant n <= |f| && Flags(f) == n + Flags(f[n..])
      invariant minus == ('-' in f[..n]) && plus == ('+' in f[..n]) && space == (' ' in f[..n])
      invariant pound == ('#' in f[..n]) && zero == ('0' in f[..n]) && group == ('\'' in f[..n])
    {
      assert f[n..][1..] == f[n + 1..] && f[..n + 1] == f[..n] + [f[n]];
      minus, plus, space := minus || f[n] == '-', plus || f[n] == '+', space || f[n] == ' ';
      pound, zero, group := pound || f[n] == '#', zero || f[n] == '0', group || f[n] == '\'';
      n := n + 1;
    }
    c := Conversion(minus, plus, space && !plus, pound, zero && !minus, group, 0, -1);
  }

  method ReadAmounts(f: string, start: nat, args: nat -> int) returns (width: int, precision: int, pos: nat)
    requires start <= |f|
    ensures pos <= |f| && (width, precision, f[pos..]) == WidthAndPrecision(f[start..], args)
  {
    var taken;
    width, pos, taken := ReadAmount(f, start, args(0));
    precision := -1;
    if pos < |f| && f[pos] == '.' {
      assert f[pos..][1..] == f[pos + 1..];
      var again;
      precision, pos, again := ReadAmount(f, pos + 1, args(if taken then 1 else 0));
      if precision < 0 {
        precision := -1;
      }
    }
  }

  method ParseConversion(f: string, args: nat -> int) returns (c: Conversion, pos: nat)
    ensures c == Parsed(f, args)
    ensures pos <= |f| && f[pos..] == WidthAndPrecision(f[Flags(f)..], args).2
  {
    var n, width, precision;
    c, n := ReadFlags(f);
    width, precision, pos := ReadAmounts(f, n, args);
    if width < 0 {
      width := -width;
      c := c.(minus := true);
    }
    if precision >= 0 {
      c := c.(zero := false);
    }
    c := c.(width := width, precision := precision);
  }
}
