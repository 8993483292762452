/** The sensor's output registers hold each 16-bit reading as two bytes, low byte
    first, in two's complement. Both programs join such a pair with the expression
    `(int16_t)((hi << 8) | lo)`; this module models that expression once, together
    with its inverse. */
module Int16Bytes {

  /** Reference definition: the value a 16-bit two's-complement pattern `u` stands for. */
  function Signed(u: int): (r: int)
    requires 0 <= u < 0x1_0000
    ensures -0x8000 <= r < 0x8000
    ensures (r - u) % 0x1_0000 == 0
  {
    if u < 0x8000 then u else u - 0x1_0000
  }

  /** The bit pattern `(hi << 8) | lo`: the high byte in bits 8..15, the low byte in bits 0..7. */
  function Pattern(lo: bv8, hi: bv8): (u: bv16)
    ensures u as int == hi as int * 0x100 + lo as int
  {
    PatternValue(lo, hi);
    (hi as bv16 << 8) | lo as bv16
  }

  lemma PatternValue(lo: bv8, hi: bv8)
    ensures ((hi as bv16 << 8) | lo as bv16) as int == hi as int * 0x100 + lo as int
  {
    var h, l := hi as bv16, lo as bv16;
    assert h << 8 == h * 0x100;
    assert (h << 8) | l == (h << 8) + l;
  }

  /** `(int16_t)((hi << 8) | lo)`: the little-endian byte pair read as a signed 16-bit value. */
  function Combine(lo: bv8, hi: bv8): (r: int)
    ensures -0x8000 <= r < 0x8000
    ensures r == if hi < 0x80 then hi as int * 0x100 + lo as int
                 else hi as int * 0x100 + lo as int - 0x1_0000
  {
    Signed(Pattern(lo, hi) as int)
  }

  /** The bytes the sensor stores for the reading `v`, as numbers: low byte, then high byte. */
  function Split(v: int): (bytes: (int, int))
    requires -0x8000 <= v < 0x8000
    ensures 0 <= bytes.0 < 0x100 && 0 <= bytes.1 < 0x100
    ensures bytes.1 < 0x80 <==> v >= 0
  {
    var u := if v < 0 then v + 0x1_0000 else v;
    (u % 0x100, u / 0x100)
  }

  /** Joining the stored bytes gives back the reading. */
  lemma CombineSplit(v: int, lo: bv8, hi: bv8)
    requires -0x8000 <= v < 0x8000
    requires Split(v) == (lo as int, hi as int)
    ensures Combine(lo, hi) == v
  {
  }

  /** Every byte pair is the stored form of the value it combines to: no pair is lost or merged. */
  lemma SplitCombine(lo: bv8, hi: bv8)
    ensures Split(Combine(lo, hi)) == (lo as int, hi as int)
  {
    var v := Combine(lo, hi);
    assert (if v < 0 then v + 0x1_0000 else v) == hi as int * 0x100 + lo as int;
    DivModBytes(hi as int, lo as int);
  }

  lemma DivModBytes(h: int, l: int)
    requires 0 <= h < 0x100 && 0 <= l < 0x100
    ensures (h * 0x100 + l) % 0x100 == l && (h * 0x100 + l) / 0x100 == h
  {
  }
}
