/** The packed bitmap of `lib/kernel/bitmap.c`: an array of 32-bit words that behaves as a
    sequence of bits. */
module Bitmap {
  import opened Wrappers
  import opened Numbers
  import opened Words

  const ELEM_BITS: nat := 32

  // ---- one word

  type Word = w: nat | w < 0x1_0000_0000

  /** The word with bit `k` set to `v`: `|=` or `&=` with the mask. */
  function WithBit(w: Word, k: nat, v: bool): (r: Word)
    requires k < ELEM_BITS
    ensures forall j: nat :: j < ELEM_BITS ==> Bit(r, j) == if j == k then v else Bit(w, j)
  {
    var mask := Pow2(k);
    WithBitFits(w, k);
    if v then Or(w, mask) else And(w, Not(mask, ELEM_BITS))
  }

  lemma WithBitFits(w: Word, k: nat)
    requires k < ELEM_BITS
    ensures Or(w, Pow2(k)) < 0x1_0000_0000 && And(w, Not(Pow2(k), ELEM_BITS)) < 0x1_0000_0000
    ensures forall j: nat :: j < ELEM_BITS ==> Bit(Or(w, Pow2(k)), j) == (j == k || Bit(w, j))
    ensures forall j: nat :: j < ELEM_BITS ==> Bit(And(w, Not(Pow2(k), ELEM_BITS)), j) == (j != k && Bit(w, j))
  {
    Pow2Values();
    Pow2Grows(k, ELEM_BITS);
    OrFits(w, Pow2(k), ELEM_BITS);
    AndFits(w, Not(Pow2(k), ELEM_BITS));
    forall j: nat | j < ELEM_BITS
      ensures Bit(Or(w, Pow2(k)), j) == (j == k || Bit(w, j))
      ensures Bit(And(w, Not(Pow2(k), ELEM_BITS)), j) == (j != k && Bit(w, j))
    {
      OrBit(w, Pow2(k), j);
      AndBit(w, Not(Pow2(k), ELEM_BITS), j);
      NotBit(Pow2(k), ELEM_BITS, j);
      Pow2Bit(k, j);
    }
  }

  /** `bitmap_test`: the word and the mask have a bit in common. */
  lemma TestBit(w: Word, k: nat)
    ensures And(w, Pow2(k)) != 0 <==> Bit(w, k)
  {
    AndBit(w, Pow2(k), k);
    Pow2Bit(k, k);
    ZeroBit(k);
    if And(w, Pow2(k)) > 0 {
      var j := SomeBit(And(w, Pow2(k)));
      AndBit(w, Pow2(k), j);
      Pow2Bit(k, j);
    }
  }

  // ---- the bits

  /** The `cnt` bits from `start` all have the value `v`. */
  predicate AllAre(bits: seq<bool>, start: nat, cnt: nat, v: bool)
    requires start + cnt <= |bits|
  {
    forall k :: start <= k < start + cnt ==> bits[k] == v
  }

  /** `bits` with the `cnt` bits from `start` set to `v`. */
  function SetRange<T>(bits: seq<T>, start: nat, cnt: nat, v: T): (r: seq<T>)
    requires start + cnt <= |bits|
    ensures |r| == |bits|
    ensures forall k :: 0 <= k < |bits| ==> r[k] == if start <= k < start + cnt then v else bits[k]
  {
    seq(|bits|, k requires 0 <= k < |bits| => if start <= k < start + cnt then v else bits[k])
  }

  /** `r` is the first group of `cnt` bits with value `v` at or after `start`. */
  ghost predicate IsScan(bits: seq<bool>, start: nat, cnt: nat, v: bool, r: Option<nat>) {
    match r
    case Some(i) => start <= i && i + cnt <= |bits| && AllAre(bits, i, cnt, v)
      && forall j: nat :: start <= j < i ==> !AllAre(bits, j, cnt, v)
    case None => forall j: nat :: start <= j && j + cnt <= |bits| ==> !AllAre(bits, j, cnt, v)
  }

  lemma ScanUnique(bits: seq<bool>, start: nat, cnt: nat, v: bool, r: Option<nat>, r': Option<nat>)
    requires IsScan(bits, start, cnt, v, r) && IsScan(bits, start, cnt, v, r')
    ensures r == r'
  {
    if r.Some? && r'.Some? {
      assert !(start <= r'.value < r.value) && !(start <= r.value < r'.value);
    }
  }

  /** The scan as a function. */
  ghost function FirstGroup(bits: seq<bool>, start: nat, cnt: nat, v: bool): (r: Option<nat>)
    ensures IsScan(bits, start, cnt, v, r)
    decreases |bits| - start
  {
    if start + cnt > |bits| then None
    else if AllAre(bits, start, cnt, v) then Some(start)
    else FirstGroup(bits, start + 1, cnt, v)
  }

  class Map {
    const bitCnt: nat
    const words: array<Word>

    ghost predicate Valid() { bitCnt <= words.Length * ELEM_BITS }

    ghost function Bits(): (r: seq<bool>)
      requires Valid()
      reads words
      ensures |r| == bitCnt
      ensures forall k :: 0 <= k < bitCnt ==> r[k] == Bit(words[k / ELEM_BITS], k % ELEM_BITS)
    {
      seq(bitCnt, k requires 0 <= k < bitCnt reads words requires Valid() => Bit(words[k / ELEM_BITS], k % ELEM_BITS))
    }

    constructor (bits: nat)
      ensures Valid() && fresh(words) && bitCnt == bits && Bits() == seq(bits, _ => false)
    {
      bitCnt := bits;
      words := new Word[(bits + ELEM_BITS - 1) / ELEM_BITS];
      new;
      SetMultiple(0, bits, false);
    }

    method Set(idx: nat, v: bool)
      requires Valid() && idx < bitCnt
      modifies words
      ensures Bits() == old(Bits())[idx := v]
    {
      var i, k := idx / ELEM_BITS, idx % ELEM_BITS;
      words[i] := WithBit(words[i], k, v);
    }

    method Test(idx: nat) returns (v: bool)
      requires Valid() && idx < bitCnt
      ensures v == Bits()[idx]
    {
      TestBit(words[idx / ELEM_BITS], idx % ELEM_BITS);
      v := And(words[idx / ELEM_BITS], Pow2(idx % ELEM_BITS)) != 0;
    }

    method SetMultiple(start: nat, cnt: nat, v: bool)
      requires Valid() && start + cnt <= bitCnt
      modifies words
      ensures Bits() == SetRange(old(Bits()), start, cnt, v)
    {
      for i := 0 to cnt
        invariant Bits() == SetRange(old(Bits()), start, i, v)
      {
        Set(start + i, v);
      }
    }

    method Contains(start: nat, cnt: nat, v: bool) returns (found: bool)
      requires Valid() && start + cnt <= bitCnt
      ensures found <==> !AllAre(Bits(), start, cnt, !v)
    {
      for i := 0 to cnt
        invariant AllAre(Bits(), start, i, !v)
      {
        var bit := Test(start + i);
        if bit == v {
          return true;
        }
      }
      return false;
    }

    method Scan(start: nat, cnt: nat, v: bool) returns (r: Option<nat>)
      requires Valid() && start <= bitCnt
      ensures r == FirstGroup(Bits(), start, cnt, v)
    {
      if cnt <= bitCnt {
        var last := bitCnt - cnt;
        var i := start;
        while i <= last
          invariant start <= i
          invariant forall j: nat :: start <= j < i && j + cnt <= bitCnt ==> !AllAre(Bits(), j, cnt, v)
          decreases last + 1 - i
        {
          var other := Contains(i, cnt, !v);
          if !other {
            ScanUnique(Bits(), start, cnt, v, Some(i), FirstGroup(Bits(), start, cnt, v));
            return Some(i);
          }
          i := i + 1;
        }
      }
      ScanUnique(Bits(), start, cnt, v, None, FirstGroup(Bits(), start, cnt, v));
      return None;
    }

    /** First fit: takes the first group of free bits, or changes nothing. */
    method ScanAndFlip(start: nat, cnt: nat, v: bool) returns (r: Option<nat>)
      requires Valid() && start <= bitCnt
      modifies words
      ensures r == FirstGroup(old(Bits()), start, cnt, v)
      ensures Bits() == if r.Some? then SetRange(old(Bits()), r.value, cnt, !v) else old(Bits())
    {
      r := Scan(start, cnt, v);
      if r.Some? {
        SetMultiple(r.value, cnt, !v);
      }
    }
  }
}
