/** Archive headers of `lib/ustar.c`, in the "ustar" format of the pax utility in SUSv3. */
module Ustar {
  import opened Wrappers
  import opened Numbers
  import opened Print

  const HEADER_SIZE: nat := 512
  const ULONG_MAX: nat := 0xFFFF_FFFF
  const REGULAR: char := '0'
  const DIRECTORY: char := '5'

  predicate IsText(s: string) { forall c :: c in s ==> c != '\0' && c as int < 256 }

  // ---- file names

  predicate StartsWith(s: string, t: string) { |t| <= |s| && s[..|t|] == t }

  predicate Antisocial(s: string) { StartsWith(s, "/") || StartsWith(s, "./") || StartsWith(s, "../") }

  /** What follows the first slash. */
  function AfterSlash(s: string): (r: string)
    requires '/' in s
    ensures |r| < |s| && forall c :: c in r ==> c in s
  {
    if s[0] == '/' then s[1..] else AfterSlash(s[1..])
  }

  lemma AntisocialSlash(s: string)
    requires Antisocial(s)
    ensures '/' in s
  {
    if StartsWith(s, "/") {
      assert s[0] == "/"[0];
    } else if StartsWith(s, "./") {
      assert s[1] == s[..2][1] == "./"[1];
    } else {
      assert s[2] == s[..3][2] == "../"[2];
    }
  }

  function Unprefixed(s: string): (r: string)
    ensures !Antisocial(r) && |r| <= |s| && forall c :: c in r ==> c in s
    decreases |s|
  {
    if Antisocial(s) then
      AntisocialSlash(s);
      Unprefixed(AfterSlash(s))
    else s
  }

  function Stripped(s: string): string {
    var r := Unprefixed(s);
    if r == "" || r == ".." then "." else r
  }

  /** Stripping once is enough, and leaves a name with none of the prefixes in front. */
  lemma StripIdempotent(s: string)
    ensures Stripped(Stripped(s)) == Stripped(s)
    ensures !Antisocial(Stripped(s)) && Stripped(s) != "" && Stripped(s) != ".."
    ensures IsText(s) ==> IsText(Stripped(s))
  {
    assert "."[..1][0] == '.' && "/"[0] == '/';
    assert !Antisocial(".");
  }

  method StripAntisocialPrefixes(fileName: string) returns (r: string)
    ensures r == Stripped(fileName)
  {
    r := fileName;
    while Antisocial(r)
      invariant Unprefixed(r) == Unprefixed(fileName)
      decreases |r|
    {
      AntisocialSlash(r);
      r := AfterSlash(r);
    }
    if r == "" || r == ".." {
      r := ".";
    }
  }

  // ---- octal fields

  predicate IsOctal(c: char) { IsDigit(c, 8) }

  /** `parse_octal_field` from the character at hand on, with `seen` digits read so far. */
  function OctalFrom(s: string, acc: nat, seen: bool): Option<nat> {
    if s == "" then None
    else if IsOctal(s[0]) then
      (if acc > ULONG_MAX / 8 then None else OctalFrom(s[1..], s[0] as int - '0' as int + acc * 8, true))
    else if s[0] == ' ' || s[0] == '\0' then (if seen then Some(acc) else None)
    else None
  }

  /** How many digits there are at the front. */
  function Leading(s: string): (n: nat)
    ensures n <= |s|
  {
    if s == "" || !IsOctal(s[0]) then 0 else 1 + Leading(s[1..])
  }

  lemma {:induction false} ReadsMore(s: string, acc: nat)
    ensures ReadDigits(s, 8, acc) >= acc
  {
    if s != "" && IsOctal(s[0]) { ReadsMore(s[1..], acc * 8 + (s[0] as int - '0' as int)); }
  }

  /** A field is accepted exactly if it is digits and a terminator, and its value fits: the check
      for overflow is exact. */
  lemma {:induction false} OctalExact(s: string, acc: nat, seen: bool)
    requires acc <= ULONG_MAX
    ensures var n := Leading(s);
      OctalFrom(s, acc, seen) ==
        if n < |s| && (s[n] == ' ' || s[n] == '\0') && (seen || n > 0) && ReadDigits(s, 8, acc) <= ULONG_MAX
        then Some(ReadDigits(s, 8, acc)) else None
  {
    if s != "" && IsOctal(s[0]) {
      var next := s[0] as int - '0' as int + acc * 8;
      ReadsMore(s[1..], next);
      if acc <= ULONG_MAX / 8 {
        OctalExact(s[1..], next, true);
      }
    }
  }

  method ParseOctalField(s: string) returns (value: Option<nat>)
    ensures value == OctalFrom(s, 0, false)
  {
    var v, ofs := 0, 0;
    while ofs < |s|
      invariant 0 <= ofs <= |s| && 0 <= v && OctalFrom(s, 0, false) == OctalFrom(s[ofs..], v, ofs > 0)
    {
      var c := s[ofs];
      assert s[ofs..][0] == c && s[ofs..][1..] == s[ofs + 1..];
      if IsOctal(c) {
        if v > ULONG_MAX / 8 {
          return None;
        }
        v := c as int - '0' as int + v * 8;
      } else if c == ' ' || c == '\0' {
        return if ofs > 0 then Some(v) else None;
      } else {
        return None;
      }
      ofs := ofs + 1;
    }
    return None;
  }

  // ---- the checksum

  const CHKSUM: nat := 148
  const CHKSUM_END: nat := 156

  /** The sum of the first `n` octets, with spaces for the checksum itself. */
  function Sum(h: string, n: nat): nat
    requires n <= |h|
  {
    if n == 0 then 0 else Sum(h, n - 1) + if CHKSUM <= n - 1 < CHKSUM_END then ' ' as int else h[n - 1] as int
  }

  lemma {:induction false} SumIgnoresField(h: string, h': string, n: nat)
    requires n <= |h| == |h'| && forall i :: 0 <= i < |h| && !(CHKSUM <= i < CHKSUM_END) ==> h[i] == h'[i]
    ensures Sum(h, n) == Sum(h', n)
  {
    if n > 0 { SumIgnoresField(h, h', n - 1); }
  }

  lemma {:induction false} SumBound(h: string, n: nat)
    requires n <= |h| && forall c :: c in h ==> c as int < 256
    ensures Sum(h, n) <= 255 * n
  {
    if n > 0 {
      SumBound(h, n - 1);
      assert h[n - 1] in h;
    }
  }

  method CalculateChksum(h: string) returns (sum: nat)
    requires |h| == HEADER_SIZE
    ensures sum == Sum(h, HEADER_SIZE)
  {
    sum := 0;
    for i := 0 to HEADER_SIZE
      invariant sum == Sum(h, i)
    {
      sum := sum + if CHKSUM <= i < CHKSUM_END then ' ' as int else h[i] as int;
    }
  }

  // ---- the header

  function Nulls(n: nat): (r: string)
    ensures |r| == n
  {
    Repeat('\0', n)
  }

  /** A field of `len` characters that holds `s`. */
  function Pad(s: string, len: nat): (r: string)
    requires |s| <= len
    ensures |r| == len
  {
    s + Nulls(len - |s|)
  }

  /** `%0<width>o`. */
  function OctalFormat(width: nat): Conversion { Conversion(false, false, false, false, true, false, width, -1) }

  function Octal(v: nat, width: nat): string { Field(v, false, false, BASE_O, OctalFormat(width)) }

  lemma OctalIs(v: nat, width: nat)
    requires width > 0 && v < Pow2(3 * width)
    ensures |Octal(v, width)| == width && Octal(v, width) != ""
    ensures exists zeros: nat :: Octal(v, width) == Repeat('0', zeros) + Reversed(Digits(v, BASE_O, false, 0))
  {
    OctalLength(v, 0, width);
    OctalBody(v, width);
    var body := if v == 0 then "0" else Digits(v, BASE_O, false, 0);
    var pad := width - |body|;
    assert "" + "" + "" + Repeat('0', pad) + Reversed(body) + "" == Repeat('0', pad) + Reversed(body);
    if v == 0 {
      assert Reversed("0") == "0" by { assert "0"[1..] == ""; }
      assert Repeat('0', pad) + "0" == Repeat('0', width) + "";
    }
  }

  lemma OctalBody(v: nat, width: nat)
    ensures Body(v, BASE_O, OctalFormat(width)) == if v == 0 then "0" else Digits(v, BASE_O, false, 0)
  {
    var d := Digits(v, BASE_O, false, 0);
    assert d + Repeat('0', 0) == d && "" + Repeat('0', 1) == "0";
    if v > 0 { DigitsUnfold(v, BASE_O, false, 0, ""); }
  }

  lemma {:induction false} OctalLength(v: nat, cnt: nat, k: nat)
    requires v < Pow2(3 * k)
    ensures |Digits(v, BASE_O, false, cnt)| <= k
    decreases k
  {
    if v > 0 && k > 0 {
      EighthPower(3 * k);
      Quotient8(v, 8, Pow2(3 * (k - 1)));
      OctalLength(v / 8, cnt + 1, k - 1);
      DigitsUnfold(v, BASE_O, false, cnt, "");
    }
  }

  /** What `snprintf` writes into a field reads back as the number. */
  lemma OctalReadBack(v: nat, width: nat, rest: string)
    requires width > 0 && v < Pow2(3 * width) && v <= ULONG_MAX && rest != "" && rest[0] == '\0'
    ensures OctalFrom(Octal(v, width) + rest, 0, false) == Some(v)
  {
    OctalIs(v, width);
    var zeros: nat :| Octal(v, width) == Repeat('0', zeros) + Reversed(Digits(v, BASE_O, false, 0));
    ZeroPaddedReads(v, zeros, rest);
    AllDigits(v, zeros);
    LeadingDigits(Octal(v, width), rest);
    OctalExact(Octal(v, width) + rest, 0, false);
  }

  lemma ZeroPaddedReads(v: nat, zeros: nat, rest: string)
    requires rest != "" && rest[0] == '\0'
    ensures ReadDigits(Repeat('0', zeros) + Reversed(Digits(v, BASE_O, false, 0)) + rest, 8, 0) == v
  {
    var digits := Reversed(Digits(v, BASE_O, false, 0));
    assert Repeat('0', zeros) + digits + rest == Repeat('0', zeros) + (digits + rest);
    ZerosReadBack(zeros, 8, digits + rest);
    DigitsReadBack(v, BASE_O, 0, rest);
  }

  lemma AllDigits(v: nat, zeros: nat)
    ensures forall c :: c in Repeat('0', zeros) + Reversed(Digits(v, BASE_O, false, 0)) ==> IsOctal(c)
  {
    OctalChars(v, 0);
  }

  lemma {:induction false} OctalChars(v: nat, cnt: nat)
    ensures forall c :: c in Reversed(Digits(v, BASE_O, false, cnt)) ==> IsOctal(c)
    decreases v
  {
    if v > 0 {
      DigitsOf(v, BASE_O, cnt);
      OctalChars(v / 8, cnt + 1);
      DecimalDigit(v % 8);
    }
  }

  lemma {:induction false} LeadingDigits(s: string, rest: string)
    requires (forall c :: c in s ==> IsOctal(c)) && rest != "" && rest[0] == '\0'
    ensures Leading(s + rest) == |s| && (s + rest)[|s|] == '\0'
  {
    if s == "" {
      assert s + rest == rest;
    } else {
      assert (s + rest)[1..] == s[1..] + rest;
      LeadingDigits(s[1..], rest);
    }
  }

  // ---- composing a header

  const MTIME: nat := 1136102400

  function Mode(kind: char): nat { if kind == REGULAR then 420 else 493 }

  /** An `int` as `%o` sees it. */
  function Unsigned(size: int): nat
    requires INT_MIN <= size <= INT_MAX
  {
    if size >= 0 then size else size + ULONG_MAX + 1
  }

  lemma OctalFits()
    ensures Pow2(21) == 0x20_0000 && Pow2(33) == 0x2_0000_0000
  {
    Pow2Values();
    Pow2Add(16, 4);
    Pow2Add(20, 1);
    Pow2Add(32, 1);
  }

  lemma Widths(kind: char, size: int)
    requires INT_MIN <= size <= INT_MAX
    ensures |Octal(Mode(kind), 7)| == 7 && |Octal(Unsigned(size), 11)| == 11 && |Octal(MTIME, 11)| == 11
  {
    OctalFits();
    OctalIs(Mode(kind), 7);
    OctalIs(Unsigned(size), 11);
    OctalIs(MTIME, 11);
  }

  // ---- fields one after the other

  function Join(fields: seq<string>): string {
    if fields == [] then "" else Join(fields[..|fields| - 1]) + fields[|fields| - 1]
  }

  lemma JoinNext(f: seq<string>, i: nat)
    requires i < |f|
    ensures Join(f[..i + 1]) == Join(f[..i]) + f[i]
  {
    assert f[..i + 1][..i] == f[..i];
  }

  lemma {:induction false} JoinSlice(f: seq<string>, k: nat)
    requires k < |f|
    ensures var o := |Join(f[..k])|; o + |f[k]| <= |Join(f)| && Join(f)[o..o + |f[k]|] == f[k]
  {
    var n := |f| - 1;
    if k == n {
      assert f[..k] == f[..n];
    } else {
      JoinSlice(f[..n], k);
      assert f[..n][..k] == f[..k];
      PrefixSlice(Join(f[..n]), f[n], |Join(f[..k])|, |f[k]|);
    }
  }

  lemma PrefixSlice(s: string, t: string, o: nat, len: nat)
    requires o + len <= |s|
    ensures (s + t)[o..o + len] == s[o..o + len]
  {
  }

  /** Exchanging a field for one as long. */
  lemma {:induction false} JoinReplace(f: seq<string>, k: nat, x: string)
    requires k < |f| && |x| == |f[k]|
    ensures var o := |Join(f[..k])|; o + |x| <= |Join(f)| && Join(f[k := x]) == Join(f[..k]) + x + Join(f)[o + |x|..]
  {
    var n := |f| - 1;
    var o, f' := |Join(f[..k])|, f[k := x];
    if k == n {
      assert f'[..n] == f[..n];
      assert Join(f)[o + |x|..] == "";
    } else {
      JoinReplace(f[..n], k, x);
      assert f'[..n] == f[..n][k := x] && f[..n][..k] == f[..k];
      assert Join(f)[o + |x|..] == Join(f[..n])[o + |x|..] + f[n];
    }
  }

  predicate Small(s: string) { forall c :: c in s ==> c as int < 256 }

  lemma {:induction false} SmallJoin(f: seq<string>)
    requires forall i :: 0 <= i < |f| ==> Small(f[i])
    ensures Small(Join(f))
  {
    if f != [] { SmallJoin(f[..|f| - 1]); }
  }

  // ---- the fields of a header

  predicate Shape(f: seq<string>) {
    && |f| == 14 && |f[0]| == 100 && |f[1]| == 8 && |f[2]| == 8 && |f[3]| == 8 && |f[4]| == 12 && |f[5]| == 12
    && |f[6]| == 8 && |f[7]| == 1 && |f[8]| == 100 && |f[9]| == 6 && |f[10]| == 2 && |f[11]| == 32 && |f[12]| == 32
    && |f[13]| == 183
  }

  /** Where the fields start. */
  ghost predicate Offsets(f: seq<string>) {
    && |f| == 14 && |Join(f[..0])| == 0 && |Join(f[..1])| == 100 && |Join(f[..2])| == 108 && |Join(f[..3])| == 116
    && |Join(f[..4])| == 124 && |Join(f[..5])| == 136 && |Join(f[..6])| == CHKSUM && |Join(f[..7])| == CHKSUM_END
    && |Join(f[..8])| == 157 && |Join(f[..9])| == 257 && |Join(f[..10])| == 263 && |Join(f[..11])| == 265
    && |Join(f[..12])| == 297 && |Join(f[..13])| == 329 && |Join(f)| == HEADER_SIZE
  }

  lemma ShapeOffsets(f: seq<string>)
    requires Shape(f)
    ensures Offsets(f)
  {
    JoinNext(f, 0);
    JoinNext(f, 1);
    JoinNext(f, 2);
    JoinNext(f, 3);
    JoinNext(f, 4);
    JoinNext(f, 5);
    JoinNext(f, 6);
    JoinNext(f, 7);
    JoinNext(f, 8);
    JoinNext(f, 9);
    JoinNext(f, 10);
    JoinNext(f, 11);
    JoinNext(f, 12);
    JoinNext(f, 13);
    assert f[..14] == f;
  }

  /** The texts that go into a header. */
  datatype Header = Header(name: string, mode: string, size: string, mtime: string, chksum: string, kind: char)

  predicate Fits(x: Header) { |x.name| <= 99 && |x.mode| == 7 && |x.size| == 11 && |x.mtime| == 11 && |x.chksum| <= 7 }

  /** Name, mode, user, group, size, time, checksum, type, link, magic, version, user name, group
      name, and the rest. */
  function Fields(x: Header): (f: seq<string>)
    requires Fits(x)
    ensures Shape(f)
  {
    [Pad(x.name, 100), Pad(x.mode, 8), Pad("0000000", 8), Pad("0000000", 8), Pad(x.size, 12), Pad(x.mtime, 12),
     Pad(x.chksum, 8), [x.kind], Nulls(100), Pad("ustar", 6), "00", Pad("root", 32), Pad("root", 32), Nulls(183)]
  }

  function Text(x: Header): (h: string)
    requires Fits(x)
    ensures |h| == HEADER_SIZE
  {
    ShapeOffsets(Fields(x));
    Join(Fields(x))
  }

  /** The header around its checksum. */
  lemma ChksumInText(x: Header) returns (before: string, behind: string)
    requires Fits(x)
    ensures |before| == CHKSUM && |behind| == HEADER_SIZE - CHKSUM_END
    ensures Text(x.(chksum := "")) == before + Nulls(8) + behind
    ensures Text(x) == before + Pad(x.chksum, 8) + behind
  {
    var f := Fields(x);
    ShapeOffsets(f);
    before, behind := Join(f[..6]), Join(f)[CHKSUM_END..];
    assert f == f[6 := Pad(x.chksum, 8)];
    JoinReplace(f, 6, Pad(x.chksum, 8));
    assert Pad("", 8) == Nulls(8) && Fields(x.(chksum := "")) == f[6 := Nulls(8)];
    JoinReplace(f, 6, Nulls(8));
  }

  lemma SmallPad(s: string, len: nat)
    requires Small(s) && |s| <= len
    ensures Small(Pad(s, len))
  {
  }

  lemma SmallText(x: Header)
    requires Fits(x) && Small(x.name) && Small(x.mode) && Small(x.size) && Small(x.mtime) && Small(x.chksum) && x.kind as int < 256
    ensures Small(Text(x))
  {
    SmallPad(x.name, 100);
    SmallPad(x.mode, 8);
    SmallPad("0000000", 8);
    SmallPad(x.size, 12);
    SmallPad(x.mtime, 12);
    SmallPad(x.chksum, 8);
    SmallPad("ustar", 6);
    SmallPad("root", 32);
    SmallJoin(Fields(x));
  }

  predicate CanMake(name: string, kind: char, size: int) {
    |name| <= 99 && IsText(name) && INT_MIN <= size <= INT_MAX && (kind == REGULAR || kind == DIRECTORY)
  }

  /** The header of a file before its checksum is known. */
  function Blank(name: string, kind: char, size: int): (x: Header)
    requires CanMake(name, kind, size)
    ensures Fits(x) && x.chksum == ""
  {
    Widths(kind, size);
    Header(name, Octal(Mode(kind), 7), Octal(Unsigned(size), 11), Octal(MTIME, 11), "", kind)
  }

  lemma TotalFits(x: Header)
    requires Fits(x) && Small(Text(x))
    ensures Sum(Text(x), HEADER_SIZE) <= 255 * HEADER_SIZE && Sum(Text(x), HEADER_SIZE) < Pow2(21)
    ensures |Octal(Sum(Text(x), HEADER_SIZE), 7)| == 7
  {
    SumBound(Text(x), HEADER_SIZE);
    OctalFits();
    OctalIs(Sum(Text(x), HEADER_SIZE), 7);
  }

  lemma BlankSmall(name: string, kind: char, size: int)
    requires CanMake(name, kind, size)
    ensures Small(Text(Blank(name, kind, size)))
  {
    SmallOctals(kind, size);
    SmallText(Blank(name, kind, size));
  }

  lemma SmallOctals(kind: char, size: int)
    requires INT_MIN <= size <= INT_MAX
    ensures Small(Octal(Mode(kind), 7)) && Small(Octal(Unsigned(size), 11)) && Small(Octal(MTIME, 11))
  {
    OctalFits();
    SmallOctal(Mode(kind), 7);
    SmallOctal(Unsigned(size), 11);
    SmallOctal(MTIME, 11);
  }

  lemma SmallOctal(v: nat, width: nat)
    requires width > 0 && v < Pow2(3 * width)
    ensures Small(Octal(v, width))
  {
    OctalIs(v, width);
    var zeros: nat :| Octal(v, width) == Repeat('0', zeros) + Reversed(Digits(v, BASE_O, false, 0));
    AllDigits(v, zeros);
  }

  /** A header with its checksum. */
  function Summed(x: Header): (r: Header)
    requires Fits(x) && Small(Text(x))
    ensures Fits(r)
  {
    TotalFits(x);
    x.(chksum := Octal(Sum(Text(x), HEADER_SIZE), 7))
  }

  function HeaderOf(name: string, kind: char, size: int): (h: string)
    requires CanMake(name, kind, size)
    ensures |h| == HEADER_SIZE
  {
    BlankSmall(name, kind, size);
    Text(Summed(Blank(name, kind, size)))
  }

  // ---- filling in a header

  /** Writes `s` over null characters. */
  method Store(h: array<char>, at: nat, s: string, ghost before: string, ghost len: nat, ghost behind: string)
    requires h[..] == before + Nulls(len) + behind && |before| == at && |s| <= len
    modifies h
    ensures h[..] == before + Pad(s, len) + behind
  {
    for i := 0 to |s|
      invariant h[..] == before + s[..i] + Nulls(len - i) + behind
    {
      h[at + i] := s[i];
      StoreOne(before, s, i, len, behind);
    }
    assert s[..|s|] == s;
    assert before + s + Nulls(len - |s|) + behind == before + Pad(s, len) + behind;
  }

  lemma StoreOne(before: string, s: string, i: nat, len: nat, behind: string)
    requires i < |s| <= len
    ensures (before + s[..i] + Nulls(len - i) + behind)[|before| + i := s[i]]
         == before + s[..i + 1] + Nulls(len - (i + 1)) + behind
  {
    var l := (before + s[..i] + Nulls(len - i) + behind)[|before| + i := s[i]];
    var r := before + s[..i + 1] + Nulls(len - (i + 1)) + behind;
    assert |l| == |r|;
    forall k | 0 <= k < |l|
      ensures l[k] == r[k]
    {
    }
  }

  /** The fields before the `i`-th are filled in, and nothing else. */
  ghost predicate Filled(h: string, f: seq<string>, i: nat) {
    Offsets(f) && i <= 14 && |Join(f[..i])| <= HEADER_SIZE && h == Join(f[..i]) + Nulls(HEADER_SIZE - |Join(f[..i])|)
  }

  lemma NullsSplit(n: nat, m: nat)
    ensures Nulls(n + m) == Nulls(n) + Nulls(m)
  {
  }

  /** Fills in the next field. */
  method StoreField(h: array<char>, at: nat, s: string, ghost f: seq<string>, ghost i: nat)
    requires h.Length == HEADER_SIZE && i < 14 && Filled(h[..], f, i) && at == |Join(f[..i])|
    requires at + |f[i]| <= HEADER_SIZE && |s| <= |f[i]| && f[i] == Pad(s, |f[i]|)
    modifies h
    ensures Filled(h[..], f, i + 1)
  {
    ghost var len := |f[i]|;
    ghost var behind := Nulls(HEADER_SIZE - at - len);
    NullsSplit(len, HEADER_SIZE - at - len);
    assert Join(f[..i]) + (Nulls(len) + behind) == Join(f[..i]) + Nulls(len) + behind;
    Store(h, at, s, Join(f[..i]), len, behind);
    JoinNext(f, i);
  }

  /** A field of null characters is there already. */
  lemma SkipField(h: string, f: seq<string>, i: nat)
    requires i < 14 && Filled(h, f, i) && |Join(f[..i])| + |f[i]| <= HEADER_SIZE && f[i] == Nulls(|f[i]|)
    ensures Filled(h, f, i + 1)
  {
    var len, at := |f[i]|, |Join(f[..i])|;
    NullsSplit(len, HEADER_SIZE - at - len);
    assert Join(f[..i]) + (Nulls(len) + Nulls(HEADER_SIZE - at - len)) == Join(f[..i]) + Nulls(len) + Nulls(HEADER_SIZE - at - len);
    JoinNext(f, i);
  }

  method Clear(h: array<char>)
    modifies h
    ensures h[..] == Nulls(h.Length)
  {
    for i := 0 to h.Length
      invariant forall k :: 0 <= k < i ==> h[k] == '\0'
    {
      h[i] := '\0';
    }
  }

  /** `ustar_make_header`; only too long a name makes it fail. */
  method MakeHeader(fileName: string, kind: char, size: int, header: array<char>) returns (ok: bool)
    requires IsText(fileName) && INT_MIN <= size <= INT_MAX && (kind == REGULAR || kind == DIRECTORY)
    requires header.Length == HEADER_SIZE
    modifies header
    ensures ok <==> |Stripped(fileName)| <= 99
    ensures ok ==> CanMake(Stripped(fileName), kind, size) && header[..] == HeaderOf(Stripped(fileName), kind, size)
  {
    StripIdempotent(fileName);
    var name := StripAntisocialPrefixes(fileName);
    if |name| > 99 {
      return false;
    }
    Clear(header);
    Widths(kind, size);
    var mode := FormatInteger(Mode(kind), false, false, BASE_O, OctalFormat(7));
    var text := FormatInteger(Unsigned(size), false, false, BASE_O, OctalFormat(11));
    var mtime := FormatInteger(MTIME, false, false, BASE_O, OctalFormat(11));
    FillIn(header, Header(name, mode, text, mtime, "", kind));
    BlankSmall(name, kind, size);
    FillChksum(header, Blank(name, kind, size));
    ok := true;
  }

  method FillIn(h: array<char>, x: Header)
    requires Fits(x) && x.chksum == "" && h.Length == HEADER_SIZE && h[..] == Nulls(HEADER_SIZE)
    modifies h
    ensures h[..] == Text(x)
  {
    FillFront(h, x);
    FillBack(h, x);
  }

  method FillFront(h: array<char>, x: Header)
    requires Fits(x) && h.Length == HEADER_SIZE && h[..] == Nulls(HEADER_SIZE)
    modifies h
    ensures Filled(h[..], Fields(x), 6)
  {
    ghost var f := Fields(x);
    ShapeOffsets(f);
    assert Filled(h[..], f, 0);
    StoreField(h, 0, x.name, f, 0);
    StoreField(h, 100, x.mode, f, 1);
    StoreField(h, 108, "0000000", f, 2);
    StoreField(h, 116, "0000000", f, 3);
    StoreField(h, 124, x.size, f, 4);
    StoreField(h, 136, x.mtime, f, 5);
  }

  method FillBack(h: array<char>, x: Header)
    requires Fits(x) && x.chksum == "" && h.Length == HEADER_SIZE && Filled(h[..], Fields(x), 6)
    modifies h
    ensures h[..] == Text(x)
  {
    ghost var f := Fields(x);
    assert f[6] == Nulls(8) && f[8] == Nulls(100) && Pad([x.kind], 1) == [x.kind] && Pad("00", 2) == "00";
    SkipField(h[..], f, 6);
    StoreField(h, 156, [x.kind], f, 7);
    SkipField(h[..], f, 8);
    StoreField(h, 257, "ustar", f, 9);
    StoreField(h, 263, "00", f, 10);
    FillNames(h, f);
    SkipField(h[..], f, 13);
    assert f[..14] == f && Join(f) + Nulls(0) == Join(f);
  }

  /** The group name is written before the user name, which comes first. */
  method FillNames(h: array<char>, ghost f: seq<string>)
    requires h.Length == HEADER_SIZE && Shape(f) && Filled(h[..], f, 11) && f[11] == Pad("root", 32) && f[12] == Pad("root", 32)
    modifies h
    ensures Filled(h[..], f, 13)
  {
    ghost var g := Join(f[..11]);
    NullsSplit(32, 215);
    NullsSplit(32, 183);
    assert h[..] == (g + Nulls(32)) + Nulls(32) + Nulls(183);
    Store(h, 297, "root", g + Nulls(32), 32, Nulls(183));
    assert h[..] == g + Nulls(32) + (Pad("root", 32) + Nulls(183));
    Store(h, 265, "root", g, 32, Pad("root", 32) + Nulls(183));
    JoinNext(f, 11);
    JoinNext(f, 12);
    assert g + Pad("root", 32) + (Pad("root", 32) + Nulls(183)) == (g + Pad("root", 32) + Pad("root", 32)) + Nulls(183);
  }

  method FillChksum(h: array<char>, x: Header)
    requires Fits(x) && x.chksum == "" && Small(Text(x)) && h.Length == HEADER_SIZE && h[..] == Text(x)
    modifies h
    ensures h[..] == Text(Summed(x))
  {
    TotalFits(x);
    ghost var before, behind := ChksumInText(Summed(x));
    var sum := CalculateChksum(h[..]);
    var text := FormatInteger(sum, false, false, BASE_O, OctalFormat(7));
    assert Summed(x).(chksum := "") == x;
    Store(h, CHKSUM, text, before, 8, behind);
  }

  // ---- parsing a header

  datatype Parsed = EndOfArchive | File(name: string, kind: char, size: nat) | Error(message: string)

  predicate AllZeros(h: string) { forall c :: c in h ==> c == '\0' }

  /** The C string at the front of a field. */
  function CString(s: string): string { if s == "" || s[0] == '\0' then "" else [s[0]] + CString(s[1..]) }

  function Parse(h: string): Parsed
    requires |h| == HEADER_SIZE
  {
    var chksum := OctalFrom(h[CHKSUM..CHKSUM_END], 0, false);
    var size := OctalFrom(h[124..136], 0, false);
    if AllZeros(h) then EndOfArchive
    else if h[257..263] != "ustar" + "\0" then Error("not a ustar archive")
    else if h[263] != '0' || h[264] != '0' then Error("invalid ustar version")
    else if chksum.None? then Error("corrupt chksum field")
    else if chksum.value != Sum(h, HEADER_SIZE) then Error("checksum mismatch")
    else if h[99] != '\0' || h[345] != '\0' then Error("file name too long")
    else if h[156] != REGULAR && h[156] != DIRECTORY then Error("unimplemented file type")
    else if h[156] == REGULAR && size.None? then Error("corrupt file size field")
    else if h[156] == REGULAR && size.value > INT_MAX then Error("file too large")
    else File(Stripped(CString(h[..100])), h[156], if h[156] == REGULAR then size.value else 0)
  }

  lemma {:induction false} CStringPadded(s: string, n: nat)
    requires n > 0 && forall c :: c in s ==> c != '\0'
    ensures CString(s + Nulls(n)) == s
  {
    if s == "" {
      assert (s + Nulls(n))[0] == '\0';
    } else {
      assert (s + Nulls(n))[1..] == s[1..] + Nulls(n);
      assert s[0] in s && forall c :: c in s[1..] ==> c in s;
      CStringPadded(s[1..], n);
      assert s == [s[0]] + s[1..];
    }
  }

  /** Where the parts of a header are. */
  lemma PartsAt(f: seq<string>)
    requires Shape(f)
    ensures |Join(f)| == HEADER_SIZE
    ensures Join(f)[..100] == f[0] && Join(f)[124..136] == f[4] && Join(f)[CHKSUM..CHKSUM_END] == f[6]
    ensures Join(f)[156..157] == f[7] && Join(f)[257..263] == f[9] && Join(f)[263..265] == f[10] && Join(f)[329..512] == f[13]
  {
    ShapeOffsets(f);
    JoinSlice(f, 0);
    JoinSlice(f, 4);
    JoinSlice(f, 6);
    JoinSlice(f, 7);
    JoinSlice(f, 9);
    JoinSlice(f, 10);
    JoinSlice(f, 13);
  }

  /** The parts that the parser looks at, in a header for `name` with size field `v`. */
  ghost predicate Holds(h: string, name: string, kind: char, v: nat) {
    && |h| == HEADER_SIZE && |name| <= 99 && h[..100] == Pad(name, 100) && OctalFrom(h[124..136], 0, false) == Some(v)
    && OctalFrom(h[CHKSUM..CHKSUM_END], 0, false) == Some(Sum(h, HEADER_SIZE))
    && h[257..263] == "ustar" + "\0" && h[263] == '0' && h[264] == '0' && h[345] == '\0' && h[156] == kind
  }

  lemma TextHolds(x: Header, v: nat)
    requires Fits(x) && v < Pow2(33) && v <= ULONG_MAX && x.size == Octal(v, 11)
    requires Sum(Text(x), HEADER_SIZE) < Pow2(21) && x.chksum == Octal(Sum(Text(x), HEADER_SIZE), 7) && |x.chksum| == 7
    ensures Holds(Text(x), x.name, x.kind, v)
  {
    var h, f, chksum := Text(x), Fields(x), Sum(Text(x), HEADER_SIZE);
    PartsAt(f);
    OctalFits();
    assert Nulls(1) == "\0";
    OctalReadBack(v, 11, "\0");
    OctalReadBack(chksum, 7, "\0");
    assert h[156] == h[156..157][0] && h[263] == h[263..265][0] && h[264] == h[263..265][1] && h[345] == h[329..512][16];
  }

  lemma HeaderHolds(name: string, kind: char, size: int)
    requires CanMake(name, kind, size)
    ensures Holds(HeaderOf(name, kind, size), name, kind, Unsigned(size))
  {
    BlankSmall(name, kind, size);
    var x := Blank(name, kind, size);
    TotalFits(x);
    SameTotal(x);
    OctalFits();
    TextHolds(Summed(x), Unsigned(size));
  }

  lemma SameTotal(x: Header)
    requires Fits(x) && x.chksum == "" && Small(Text(x))
    ensures Sum(Text(Summed(x)), HEADER_SIZE) == Sum(Text(x), HEADER_SIZE)
  {
    var y := Summed(x);
    var before, behind := ChksumInText(y);
    assert y.(chksum := "") == x;
    AroundField(before, Nulls(8), Pad(y.chksum, 8), behind);
    SumIgnoresField(Text(y), Text(x), HEADER_SIZE);
  }

  lemma AroundField(before: string, x: string, y: string, behind: string)
    requires |before| == CHKSUM && |x| == |y| == 8
    ensures forall i :: 0 <= i < |before + x + behind| && !(CHKSUM <= i < CHKSUM_END) ==>
      (before + x + behind)[i] == (before + y + behind)[i]
  {
  }

  /** What the parser makes of such a header. */
  lemma HoldsParses(h: string, name: string, kind: char, v: nat)
    requires Holds(h, name, kind, v) && (kind == REGULAR || kind == DIRECTORY) && Stripped(name) == name && IsText(name)
    ensures Parse(h) == if kind == DIRECTORY then File(name, kind, 0) else if v <= INT_MAX then File(name, kind, v) else Error("file too large")
  {
    assert h[156] in h;
    CStringPadded(name, 100 - |name|);
    assert h[99] == h[..100][99];
  }

  /** Every header that is made is accepted, and gives back the stripped name, the type and the
      size (0 for a directory); only a regular file of negative size is taken for too large. */
  lemma RoundTrip(fileName: string, kind: char, size: int)
    requires IsText(fileName) && |Stripped(fileName)| <= 99 && INT_MIN <= size <= INT_MAX
    requires kind == REGULAR || kind == DIRECTORY
    ensures CanMake(Stripped(fileName), kind, size)
    ensures Parse(HeaderOf(Stripped(fileName), kind, size)) ==
      if kind == DIRECTORY then File(Stripped(fileName), kind, 0)
      else if size >= 0 then File(Stripped(fileName), kind, size)
      else Error("file too large")
  {
    StripIdempotent(fileName);
    var name := Stripped(fileName);
    HeaderHolds(name, kind, size);
    HoldsParses(HeaderOf(name, kind, size), name, kind, Unsigned(size));
  }

  /** Whatever is accepted has a name of at most 99 characters with nothing left to strip, one of
      the two types, a size that is an `int`, and the checksum that it claims. */
  lemma AcceptedIsSound(h: string)
    requires |h| == HEADER_SIZE && Parse(h).File?
    ensures var f := Parse(h);
      && Stripped(f.name) == f.name && 0 < |f.name| <= 99
      && (f.kind == REGULAR || f.kind == DIRECTORY) && f.size <= INT_MAX
      && (f.kind == DIRECTORY ==> f.size == 0)
      && OctalFrom(h[CHKSUM..CHKSUM_END], 0, false) == Some(Sum(h, HEADER_SIZE))
      && h[257..265] == "ustar" + "\0" + "00"
  {
    var name := CString(h[..100]);
    CStringEnds(h[..100], 99);
    StripIdempotent(name);
    assert h[257..265] == h[257..263] + [h[263]] + [h[264]];
  }

  // ---- what is accepted, and why not

  /** An octal field: digits, a terminator, and a value that fits. */
  predicate OctalField(s: string, v: nat) {
    var n := Leading(s);
    0 < n < |s| && (s[n] == ' ' || s[n] == '\0') && ReadDigits(s, 8, 0) == v <= ULONG_MAX
  }

  lemma OctalFieldExact(s: string, v: nat)
    ensures OctalFrom(s, 0, false) == Some(v) <==> OctalField(s, v)
  {
    OctalExact(s, 0, false);
  }

  lemma NoOctalField(s: string)
    ensures OctalFrom(s, 0, false) == None <==> forall v: nat :: !OctalField(s, v)
  {
    OctalExact(s, 0, false);
    if OctalFrom(s, 0, false).Some? { OctalFieldExact(s, OctalFrom(s, 0, false).value); }
    forall v: nat
      ensures OctalField(s, v) ==> OctalFrom(s, 0, false) == Some(v)
    {
      OctalFieldExact(s, v);
    }
  }

  /** What is wrong with a header, by the message that says so. */
  ghost predicate Wrong(h: string, message: string)
    requires |h| == HEADER_SIZE
  {
    if message == "not a ustar archive" then h[257..263] != "ustar" + "\0"
    else if message == "invalid ustar version" then h[263..265] != "00"
    else if message == "corrupt chksum field" then forall v: nat :: !OctalField(h[CHKSUM..CHKSUM_END], v)
    else if message == "checksum mismatch" then !OctalField(h[CHKSUM..CHKSUM_END], Sum(h, HEADER_SIZE))
    else if message == "file name too long" then h[99] != '\0' || h[345] != '\0'
    else if message == "unimplemented file type" then h[156] != REGULAR && h[156] != DIRECTORY
    else if message == "corrupt file size field" then h[156] == REGULAR && forall v: nat :: !OctalField(h[124..136], v)
    else if message == "file too large" then h[156] == REGULAR && exists v: nat :: v > INT_MAX && OctalField(h[124..136], v)
    else false
  }

  /** A header of a file of `size` bytes. */
  ghost predicate Acceptable(h: string, size: nat)
    requires |h| == HEADER_SIZE
  {
    && h[257..263] == "ustar" + "\0" && h[263..265] == "00" && OctalField(h[CHKSUM..CHKSUM_END], Sum(h, HEADER_SIZE))
    && h[99] == '\0' && h[345] == '\0'
    && ((h[156] == REGULAR && size <= INT_MAX && OctalField(h[124..136], size)) || (h[156] == DIRECTORY && size == 0))
  }

  lemma VersionAt(h: string)
    requires |h| == HEADER_SIZE
    ensures h[263..265] == "00" <==> h[263] == '0' && h[264] == '0'
  {
    assert h[263..265] == [h[263], h[264]] && "00" == ['0', '0'];
  }

  lemma NotAllZeros(h: string)
    requires |h| == HEADER_SIZE && h[257..263] == "ustar" + "\0"
    ensures !AllZeros(h)
  {
    assert h[257] == h[257..263][0] == ("ustar" + "\0")[0] == 'u';
    assert h[257] in h;
  }

  /** A block of zeros, and nothing else, ends the archive; a header is accepted exactly when it is
      acceptable, with its name stripped, its type and its size. */
  lemma ParseExact(h: string, size: nat)
    requires |h| == HEADER_SIZE
    ensures Parse(h).EndOfArchive? <==> AllZeros(h)
    ensures Acceptable(h, size) <==> Parse(h) == File(Stripped(CString(h[..100])), h[156], size)
  {
    hide OctalField, OctalFrom, Sum, Stripped, CString;
    VersionAt(h);
    OctalFieldExact(h[CHKSUM..CHKSUM_END], Sum(h, HEADER_SIZE));
    OctalFieldExact(h[124..136], size);
    if h[257..263] == "ustar" + "\0" { NotAllZeros(h); }
  }

  /** Whatever error is reported is there. */
  lemma ErrorIsWrong(h: string)
    requires |h| == HEADER_SIZE && Parse(h).Error?
    ensures Wrong(h, Parse(h).message)
  {
    hide OctalField, OctalFrom, Sum, Stripped, CString;
    VersionAt(h);
    NoOctalField(h[CHKSUM..CHKSUM_END]);
    NoOctalField(h[124..136]);
    OctalFieldExact(h[CHKSUM..CHKSUM_END], Sum(h, HEADER_SIZE));
    if OctalFrom(h[124..136], 0, false).Some? { OctalFieldExact(h[124..136], OctalFrom(h[124..136], 0, false).value); }
  }

  // ---- the checksum and the other fields

  function Total(s: string): nat { if s == "" then 0 else Total(s[..|s| - 1]) + s[|s| - 1] as int }

  /** The checksum is the sum of all bytes, with eight spaces for its own field. */
  lemma {:induction false} SumAsSpaces(h: string, n: nat)
    requires n <= |h| == HEADER_SIZE
    ensures var s := h[..CHKSUM] + Repeat(' ', 8) + h[CHKSUM_END..]; |s| == HEADER_SIZE && Sum(h, n) == Total(s[..n])
  {
    var s := h[..CHKSUM] + Repeat(' ', 8) + h[CHKSUM_END..];
    if n > 0 {
      SumAsSpaces(h, n - 1);
      assert s[..n][..n - 1] == s[..n - 1];
      assert s[n - 1] == if CHKSUM <= n - 1 < CHKSUM_END then ' ' else h[n - 1];
    }
  }

  /** What a header says besides name, type and size: the mode by type, no user or group, the fixed
      time, and root for the names of both. */
  lemma MadeFields(name: string, kind: char, size: int)
    requires CanMake(name, kind, size)
    ensures var h := HeaderOf(name, kind, size);
      && OctalFrom(h[100..108], 0, false) == Some(if kind == REGULAR then 420 else 493)
      && h[108..116] == h[116..124] == "0000000" + "\0"
      && OctalFrom(h[136..148], 0, false) == Some(1136102400)
      && h[265..297] == h[297..329] == Pad("root", 32)
      && h[157..257] == Nulls(100) && h[329..512] == Nulls(183)
  {
    hide Octal, OctalFrom;
    BlankSmall(name, kind, size);
    var x := Summed(Blank(name, kind, size));
    OctalFits();
    OctalReadBack(Mode(kind), 7, "\0");
    OctalReadBack(MTIME, 11, "\0");
    OtherParts(Fields(x));
    assert Nulls(1) == "\0";
    assert Pad("0000000", 8) == "0000000" + "\0";
  }

  lemma OtherParts(f: seq<string>)
    requires Shape(f)
    ensures |Join(f)| == HEADER_SIZE
    ensures Join(f)[100..108] == f[1] && Join(f)[108..116] == f[2] && Join(f)[116..124] == f[3] && Join(f)[136..148] == f[5]
    ensures Join(f)[157..257] == f[8] && Join(f)[265..297] == f[11] && Join(f)[297..329] == f[12] && Join(f)[329..512] == f[13]
  {
    ShapeOffsets(f);
    JoinSlice(f, 1);
    JoinSlice(f, 2);
    JoinSlice(f, 3);
    JoinSlice(f, 5);
    JoinSlice(f, 8);
    JoinSlice(f, 11);
    JoinSlice(f, 12);
    JoinSlice(f, 13);
  }

  lemma {:induction false} CStringEnds(s: string, k: nat)
    requires k < |s| && s[k] == '\0'
    ensures |CString(s)| <= k
  {
    if s[0] != '\0' { CStringEnds(s[1..], k - 1); }
  }

  method IsAllZeros(block: string) returns (zeros: bool)
    ensures zeros == AllZeros(block)
  {
    for i := 0 to |block|
      invariant forall k :: 0 <= k < i ==> block[k] == '\0'
    {
      if block[i] != '\0' {
        assert block[i] in block;
        return false;
      }
    }
    return true;
  }

  /** `ustar_parse_header`. */
  method ParseHeader(h: string) returns (r: Parsed)
    requires |h| == HEADER_SIZE
    ensures r == Parse(h)
  {
    var zeros := IsAllZeros(h);
    if zeros {
      return EndOfArchive;
    }
    if h[257..263] != "ustar" + "\0" {
      return Error("not a ustar archive");
    }
    if h[263] != '0' || h[264] != '0' {
      return Error("invalid ustar version");
    }
    var chksum := ParseOctalField(h[CHKSUM..CHKSUM_END]);
    if chksum.None? {
      return Error("corrupt chksum field");
    }
    var sum := CalculateChksum(h);
    if chksum.value != sum {
      return Error("checksum mismatch");
    }
    if h[99] != '\0' || h[345] != '\0' {
      return Error("file name too long");
    }
    if h[156] != REGULAR && h[156] != DIRECTORY {
      return Error("unimplemented file type");
    }
    var size := 0;
    if h[156] == REGULAR {
      var field := ParseOctalField(h[124..136]);
      if field.None? {
        return Error("corrupt file size field");
      }
      if field.value > INT_MAX {
        return Error("file too large");
      }
      size := field.value;
    }
    var name := StripAntisocialPrefixes(CString(h[..100]));
    r := File(name, h[156], size);
  }
}
