/** Symmetric quantization with a min-max scale, and the packing of two signed
    4-bit numbers into a byte. Tensors are matrices of reals, one scale per row. */
module Quantization {
  import opened Reals

  type Vector = seq<real>

  type Byte = bv8

  function Abs(x: real): real {
    if x < 0.0 then -x else x
  }

  /** torch.round: to the nearest integer, halves to the even one. */
  function Round(x: real): int {
    var f := x.Floor;
    var d := x - f as real;
    if d < 0.5 then f
    else if d > 0.5 then f + 1
    else if f % 2 == 0 then f else f + 1
  }

  lemma RoundNearest(x: real)
    ensures -0.5 <= x - Round(x) as real <= 0.5
  {
  }

  /** A half goes to the even neighbour. */
  lemma RoundTies(n: int)
    ensures Round(n as real + 0.5) == if n % 2 == 0 then n else n + 1
    ensures Round(n as real) == n
  {
  }

  /** No integer is nearer. */
  lemma NoneNearer(x: real, n: int)
    ensures Abs(x - Round(x) as real) <= Abs(x - n as real)
  {
    var f := x.Floor;
    assert n <= f || n >= f + 1;
  }

  function Clamp(n: int, lo: int, hi: int): int
    requires lo <= hi
  {
    if n < lo then lo else if n > hi then hi else n
  }

  // ----- Scales -----

  const MIN_SCALE: real := 0.00000001

  function MaxAbs(v: Vector): (m: real)
    ensures m >= 0.0 && forall i :: 0 <= i < |v| ==> Abs(v[i]) <= m
    ensures v != [] ==> exists i :: 0 <= i < |v| && Abs(v[i]) == m
  {
    if v == [] then 0.0
    else
      var m, x := MaxAbs(v[..|v| - 1]), Abs(v[|v| - 1]);
      if x > m then x else m
  }

  /** The symmetric range of a number of bits is [-Top - 1, Top]. */
  function Top(bits: nat): (n: int)
    requires bits >= 2
    ensures n >= 1
  {
    if bits == 2 then 1 else 2 * Top(bits - 1) + 1
  }

  lemma TopValues()
    ensures Top(4) == 7 && Top(8) == 127
  {
    assert Top(3) == 3;
    assert Top(5) == 15;
    assert Top(6) == 31;
    assert Top(7) == 63;
  }

  function MinMaxScale(v: Vector, bits: nat): (s: real)
    requires bits >= 2
    ensures s > 0.0
  {
    var s := Over(MaxAbs(v), Top(bits) as real);
    if s < MIN_SCALE then MIN_SCALE else s
  }

  // ----- One number -----

  function Quantize(x: real, s: real, lo: int, hi: int): int
    requires s > 0.0 && lo <= hi
  {
    Clamp(Round(Over(x, s)), lo, hi)
  }

  function Dequantize(q: int, s: real): real {
    Times(q as real, s)
  }

  /** y is x to within half a step. */
  predicate Recovered(x: real, y: real, s: real) {
    Abs(x - y) <= s / 2.0
  }

  lemma OverTimes(x: real, s: real)
    requires s > 0.0
    ensures Times(Over(x, s), s) == x
  {
  }

  lemma TimesGap(y: real, q: real, s: real)
    ensures Times(y, s) - Times(q, s) == Times(y - q, s)
  {
  }

  /** Half a step of scaled difference is half of the scale. */
  lemma ScaledGap(d: real, s: real)
    requires s > 0.0
    ensures Abs(Times(d, s)) <= s / 2.0 <==> -0.5 <= d <= 0.5
  {
    if d > 0.5 {
      assert d * s > 0.5 * s;
    } else if d < -0.5 {
      assert d * s < -0.5 * s;
    } else {
      assert -0.5 * s <= d * s <= 0.5 * s;
    }
  }

  /** Rounding and clamping moves a number by at most one half exactly when it lies at
      most one half outside the range. */
  lemma ClampedGap(y: real, lo: int, hi: int)
    requires lo <= hi
    ensures -0.5 <= y - Clamp(Round(y), lo, hi) as real <= 0.5 <==> lo as real - 0.5 <= y <= hi as real + 0.5
  {
    RoundNearest(y);
    hide Round;
    var r := Round(y);
    if r > hi {
      assert r >= hi + 1 && Clamp(r, lo, hi) == hi;
    } else if r < lo {
      assert r <= lo - 1 && Clamp(r, lo, hi) == lo;
    }
  }

  /** A number comes back to within half a step exactly when it lies at most half a
      step outside the range. */
  lemma RecoveredIff(x: real, s: real, lo: int, hi: int)
    requires s > 0.0 && lo <= hi
    ensures Recovered(x, Dequantize(Quantize(x, s, lo, hi), s), s)
      <==> lo as real - 0.5 <= Over(x, s) <= hi as real + 0.5
  {
    hide Times, Over, Round, Clamp, Abs;
    var y, q := Over(x, s), Quantize(x, s, lo, hi);
    OverTimes(x, s);
    TimesGap(y, q as real, s);
    ScaledGap(y - q as real, s);
    ClampedGap(y, lo, hi);
  }

  lemma ScaleCovers(m: real, top: real, s: real)
    requires top > 0.0 && s >= Over(m, top)
    ensures Times(s, top) >= m
  {
    OverTimes(m, top);
    assert (s - Over(m, top)) * top >= 0.0;
  }

  lemma BoundedQuotient(y: real, s: real, top: real)
    requires s > 0.0 && top > 0.0 && Abs(Times(y, s)) <= Times(s, top)
    ensures -top <= y <= top
  {
    assert (y - top) * s <= 0.0 && (y + top) * s >= 0.0;
  }

  lemma RoundWithin(y: real, top: int)
    requires -(top as real) <= y <= top as real
    ensures -top <= Round(y) <= top
  {
    NoneNearer(y, top);
    NoneNearer(y, -top);
  }

  /** With its min-max scale no entry of a vector is clamped. */
  lemma NothingClamped(v: Vector, bits: nat, i: nat)
    requires bits >= 2 && i < |v|
    ensures var s, top := MinMaxScale(v, bits), Top(bits);
      && -(top as real) <= Over(v[i], s) <= top as real
      && Quantize(v[i], s, -top - 1, top) == Round(Over(v[i], s))
  {
    hide Times, Over, Round, Top, MaxAbs;
    var s, top := MinMaxScale(v, bits), Top(bits);
    ScaleCovers(MaxAbs(v), top as real, s);
    OverTimes(v[i], s);
    BoundedQuotient(Over(v[i], s), s, top as real);
    RoundWithin(Over(v[i], s), top);
  }

  /** Every entry comes back to within half a step of its min-max scale. */
  lemma MinMaxRecovers(v: Vector, bits: nat, i: nat)
    requires bits >= 2 && i < |v|
    ensures var s, top := MinMaxScale(v, bits), Top(bits);
      Recovered(v[i], Dequantize(Quantize(v[i], s, -top - 1, top), s), s)
  {
    hide Times, Over, Round, Top, MinMaxScale, Recovered, Quantize, Dequantize;
    NothingClamped(v, bits, i);
    RecoveredIff(v[i], MinMaxScale(v, bits), -Top(bits) - 1, Top(bits));
  }

  /** The scale is no larger than it must be: the largest entry reaches the end of the
      range, unless the scale is the least one there is, a hundred millionth. */
  lemma ScaleReaches(v: Vector, bits: nat)
    requires bits >= 2 && v != []
    ensures MinMaxScale(v, bits) >= 0.00000001
    ensures MinMaxScale(v, bits) > 0.00000001 ==>
      exists i :: 0 <= i < |v| && Abs(v[i]) == Times(MinMaxScale(v, bits), Top(bits) as real)
  {
    var m, top := MaxAbs(v), Top(bits) as real;
    OverTimes(m, top);
    hide Times, Over, Abs;
    var i :| 0 <= i < |v| && Abs(v[i]) == m;
    if MinMaxScale(v, bits) > 0.00000001 {
      assert MinMaxScale(v, bits) == Over(m, top);
      assert Abs(v[i]) == Times(MinMaxScale(v, bits), top);
    }
  }

  /** Both ends of the two ranges in use. */
  lemma Ranges(v: Vector)
    ensures Top(4) == 7 && Top(8) == 127
    ensures v == [] || (forall i :: 0 <= i < |v| ==> v[i] == 0.0) ==>
      MinMaxScale(v, 4) == 0.00000001 && MinMaxScale(v, 8) == 0.00000001
  {
    TopValues();
    if v == [] || (forall i :: 0 <= i < |v| ==> v[i] == 0.0) {
      assert MaxAbs(v) == 0.0;
    }
  }

  // ----- INT8 -----

  function QuantizeInt8(v: Vector, s: real): (q: seq<int>)
    requires s > 0.0
    ensures |q| == |v| && forall i :: 0 <= i < |v| ==> q[i] == Quantize(v[i], s, -128, 127)
  {
    if v == [] then [] else QuantizeInt8(v[..|v| - 1], s) + [Quantize(v[|v| - 1], s, -128, 127)]
  }

  function DequantizeInt8(q: seq<int>, s: real): (v: Vector)
    ensures |v| == |q| && forall i :: 0 <= i < |q| ==> v[i] == Dequantize(q[i], s)
  {
    if q == [] then [] else DequantizeInt8(q[..|q| - 1], s) + [Dequantize(q[|q| - 1], s)]
  }

  lemma Int8Recovers(v: Vector, i: nat)
    requires i < |v|
    ensures var s := MinMaxScale(v, 8); Recovered(v[i], Dequantize(Quantize(v[i], s, -128, 127), s), s)
  {
    hide Recovered, Quantize, Dequantize, MinMaxScale, Top;
    TopValues();
    MinMaxRecovers(v, 8, i);
  }

  lemma Int8Entry(v: Vector, s: real, i: nat)
    requires s > 0.0 && i < |v|
    ensures DequantizeInt8(QuantizeInt8(v, s), s)[i] == Dequantize(Quantize(v[i], s, -128, 127), s)
  {
    hide Quantize, Dequantize;
  }

  /** The INT8 round trip with the min-max scale is off by at most half a step. */
  lemma Int8RoundTrip(v: Vector, i: nat)
    requires i < |v|
    ensures var s := MinMaxScale(v, 8); Recovered(v[i], DequantizeInt8(QuantizeInt8(v, s), s)[i], s)
  {
    hide Recovered, Quantize, Dequantize, MinMaxScale, QuantizeInt8, DequantizeInt8;
    Int8Entry(v, MinMaxScale(v, 8), i);
    Int8Recovers(v, i);
  }

  // ----- INT4 -----

  function ToNibble(q: int): Byte
    requires -8 <= q <= 7
  {
    (q + 8) as bv8
  }

  function FromNibble(n: Byte): int {
    n as int - 8
  }

  function PackPair(low: Byte, high: Byte): Byte {
    (low & 0x0F) | ((high & 0x0F) << 4)
  }

  function LowNibble(b: Byte): Byte {
    b & 0x0F
  }

  function HighNibble(b: Byte): Byte {
    (b >> 4) & 0x0F
  }

  /** Two nibbles survive in one byte. */
  lemma NibblesRoundTrip(low: Byte, high: Byte)
    requires low <= 15 && high <= 15
    ensures LowNibble(PackPair(low, high)) == low && HighNibble(PackPair(low, high)) == high
    ensures PackPair(low, high) == low + 16 * high
  {
  }

  lemma NibbleRoundTrip(q: int)
    requires -8 <= q <= 7
    ensures ToNibble(q) <= 15 && FromNibble(ToNibble(q)) == q && ToNibble(q) as int == q + 8
  {
  }

  // ----- INT4 matrices -----

  ghost predicate Matrix(w: seq<Vector>, n: nat) {
    forall i :: 0 <= i < |w| ==> |w[i]| == n
  }

  function Nibble(x: real, s: real): (n: Byte)
    requires s > 0.0
  {
    ToNibble(Quantize(x, s, -8, 7))
  }

  /** A row of pairs: byte j holds columns 2j and 2j + 1. */
  function PackRow(v: Vector, s: real): (p: seq<Byte>)
    requires s > 0.0 && |v| % 2 == 0
    ensures |p| == |v| / 2
    ensures forall j :: 0 <= j < |p| ==> p[j] == PackPair(Nibble(v[2 * j], s), Nibble(v[2 * j + 1], s))
  {
    if v == [] then []
    else PackRow(v[..|v| - 2], s) + [PackPair(Nibble(v[|v| - 2], s), Nibble(v[|v| - 1], s))]
  }

  datatype Packed = Packed(bytes: seq<seq<Byte>>) | OddColumns

  ghost predicate Scales(s: seq<real>, n: nat) {
    |s| == n && forall i :: 0 <= i < n ==> s[i] > 0.0
  }

  method PackInt4Gemm(w: seq<Vector>, n: nat, s: seq<real>) returns (r: Packed)
    requires Matrix(w, n) && Scales(s, |w|)
    ensures r.OddColumns? <==> n % 2 != 0
    ensures r.Packed? ==> |r.bytes| == |w| && forall i :: 0 <= i < |w| ==> r.bytes[i] == PackRow(w[i], s[i])
  {
    if n % 2 != 0 {
      return OddColumns;
    }
    var bytes := [];
    var i := 0;
    while i < |w|
      invariant 0 <= i <= |w| && |bytes| == i
      invariant forall k :: 0 <= k < i ==> bytes[k] == PackRow(w[k], s[k])
    {
      bytes := bytes + [PackRow(w[i], s[i])];
      i := i + 1;
    }
    r := Packed(bytes);
  }

  /** Fills the even and the odd columns of a fresh matrix, then scales it. */
  method UnpackInt4Gemm(packed: seq<seq<Byte>>, half: nat, s: seq<real>) returns (w: array2<real>)
    requires |s| == |packed| && forall i :: 0 <= i < |packed| ==> |packed[i]| == half
    ensures fresh(w) && w.Length0 == |packed| && w.Length1 == 2 * half
    ensures forall i, j :: 0 <= i < |packed| && 0 <= j < half ==>
      && w[i, 2 * j] == Dequantize(FromNibble(LowNibble(packed[i][j])), s[i])
      && w[i, 2 * j + 1] == Dequantize(FromNibble(HighNibble(packed[i][j])), s[i])
  {
    hide Dequantize, FromNibble, LowNibble, HighNibble;
    w := new real[|packed|, 2 * half];
    forall i, k | 0 <= i < |packed| && 0 <= k < 2 * half {
      w[i, k] := Entry(packed[i], k, s[i]);
    }
    forall i, j | 0 <= i < |packed| && 0 <= j < half
      ensures w[i, 2 * j] == Entry(packed[i], 2 * j, s[i]) && w[i, 2 * j + 1] == Entry(packed[i], 2 * j + 1, s[i])
    {
    }
  }

  function Entry(row: seq<Byte>, k: nat, s: real): real
    requires k < 2 * |row|
  {
    if k % 2 == 0 then Dequantize(FromNibble(LowNibble(row[k / 2])), s)
    else Dequantize(FromNibble(HighNibble(row[k / 2])), s)
  }

  /** Unpacking a packed row gives back, entry by entry, the quantized numbers. */
  lemma PackedEntry(v: Vector, s: real, k: nat)
    requires s > 0.0 && |v| % 2 == 0 && k < |v|
    ensures Entry(PackRow(v, s), k, s) == Dequantize(Quantize(v[k], s, -8, 7), s)
  {
    hide Dequantize, Quantize, PackPair, LowNibble, HighNibble, ToNibble, FromNibble, Nibble;
    var j := k / 2;
    var a, b := QuantizedPair(v[2 * j], v[2 * j + 1], s);
  }

  lemma QuantizedPair(x: real, y: real, s: real) returns (a: int, b: int)
    requires s > 0.0
    ensures a == Quantize(x, s, -8, 7) && b == Quantize(y, s, -8, 7)
    ensures FromNibble(LowNibble(PackPair(Nibble(x, s), Nibble(y, s)))) == a
    ensures FromNibble(HighNibble(PackPair(Nibble(x, s), Nibble(y, s)))) == b
  {
    a, b := Quantize(x, s, -8, 7), Quantize(y, s, -8, 7);
    hide Round, Over, PackPair, LowNibble, HighNibble;
    NibbleRoundTrip(a);
    NibbleRoundTrip(b);
    NibblesRoundTrip(ToNibble(a), ToNibble(b));
  }

  /** INT4 packing and unpacking recovers every entry of every matrix with an even
      number of columns to within half a step of its row's min-max scale. */
  lemma Int4RoundTrip(v: Vector, k: nat)
    requires |v| % 2 == 0 && k < |v|
    ensures var s := MinMaxScale(v, 4); Recovered(v[k], Entry(PackRow(v, s), k, s), s)
  {
    hide Recovered, Quantize, Dequantize, MinMaxScale, Top, PackRow, Entry;
    TopValues();
    PackedEntry(v, MinMaxScale(v, 4), k);
    MinMaxRecovers(v, 4, k);
  }
}
