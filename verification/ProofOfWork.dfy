/** The proof-of-work primitives: the difficulty metric, the canonical preimage,
    counters as fixed-width decimal text, and verification. The two hash functions
    are uninterpreted. */
module ProofOfWork {
  import opened Common
  import opened Division

  type Byte = b: int | 0 <= b < 256
  type Digest = d: seq<Byte> | |d| == 32 witness seq(32, _ => 0)

  // ---- Leading zero bits ----

  function Pow2(n: nat): (p: nat)
    ensures p > 0
  {
    if n == 0 then 1 else 2 * Pow2(n - 1)
  }

  predicate BitSet(b: Byte, shift: nat) { b / Pow2(shift) % 2 == 1 }

  /** The digest as one big-endian number. */
  function Value(d: seq<Byte>): nat {
    if d == [] then 0 else Value(d[..|d| - 1]) * 256 + d[|d| - 1]
  }

  lemma {:induction false} ValueBelow(d: seq<Byte>)
    ensures Value(d) < Pow2(8 * |d|)
  {
    if d != [] {
      ValueBelow(d[..|d| - 1]);
      Pow2Sum(8 * (|d| - 1), 8);
    }
  }

  lemma {:induction false} Pow2Sum(a: nat, b: nat)
    ensures Pow2(a + b) == Pow2(a) * Pow2(b)
  {
    if b > 0 {
      Pow2Sum(a, b - 1);
      assert Pow2(a + b) == 2 * Pow2(a + b - 1);
    }
  }

  lemma {:induction false} Pow2Grows(a: nat, b: nat)
    requires a <= b
    ensures Pow2(a) <= Pow2(b)
  {
    if a < b { Pow2Grows(a, b - 1); }
  }

  /** Splitting a number into a head and its remaining bytes. */
  lemma {:induction false} ValueSplit(d: seq<Byte>, i: nat)
    requires i <= |d|
    ensures Value(d) == Value(d[..i]) * Pow2(8 * (|d| - i)) + Value(d[i..])
  {
    if i == |d| {
      assert d[..i] == d;
    } else {
      var k := |d| - 1;
      ValueSplit(d[..k], i);
      assert d[..k][..i] == d[..i] && d[..k][i..] == d[i..][..k - i];
      Pow2Sum(8 * (k - i), 8);
      assert Pow2(8) == 256;
      Regroup(Value(d[..i]), Pow2(8 * (k - i)), Value(d[i..][..k - i]), d[k]);
    }
  }

  lemma Regroup(h: int, u: int, low: int, x: int)
    ensures (h * u + low) * 256 + x == h * (u * 256) + (low * 256 + x)
  {
  }

  /** The number has its top bits zero, and the next one set unless it is zero
      altogether: what "exactly `bits` leading zero bits" means. */
  predicate LeadingZeros(d: seq<Byte>, bits: nat) {
    && bits <= 8 * |d|
    && Value(d) < Pow2(8 * |d| - bits)
    && (bits < 8 * |d| ==> Value(d) >= Pow2(8 * |d| - bits - 1))
  }

  /** LeadingZeroBits, for digests of any length. */
  method LeadingZeroBits(digest: seq<Byte>) returns (bits: nat)
    ensures LeadingZeros(digest, bits)
  {
    bits := 0;
    var i := 0;
    while i < |digest|
      invariant 0 <= i <= |digest| && bits == 8 * i && Value(digest[..i]) == 0
    {
      var b := digest[i];
      assert digest[..i + 1][..i] == digest[..i];
      if b == 0 {
        bits := bits + 8;
        i := i + 1;
        continue;
      }
      var shift := 7;
      while shift >= 0
        invariant -1 <= shift <= 7 && bits == 8 * i + 7 - shift && b < Pow2(shift + 1)
        decreases shift
      {
        if BitSet(b, shift) {
          TopByte(digest, i, shift);
          return;
        }
        SmallerByte(b, shift);
        bits := bits + 1;
        shift := shift - 1;
      }
      i := i + 1;
    }
    assert digest[..i] == digest;
  }

  lemma SmallerByte(b: Byte, shift: nat)
    requires shift <= 7 && b < Pow2(shift + 1) && !BitSet(b, shift)
    ensures b < Pow2(shift)
  {
    var p := Pow2(shift);
    if p <= b { DivisionIsUnique(b, p, 1, b - p); }
  }

  lemma TopByte(d: seq<Byte>, i: nat, shift: nat)
    requires i < |d| && Value(d[..i]) == 0 && shift <= 7 && d[i] < Pow2(shift + 1) && BitSet(d[i], shift)
    ensures LeadingZeros(d, 8 * i + 7 - shift)
  {
    var rest := 8 * (|d| - i - 1);
    assert Value(d[..i + 1]) == d[i] by { assert d[..i + 1][..i] == d[..i]; }
    ValueSplit(d, i + 1);
    ValueBelow(d[i + 1..]);
    LargerByte(d[i], shift);
    MulRange(Pow2(shift), d[i], Pow2(shift + 1), Pow2(rest), Value(d[i + 1..]));
    Pow2Sum(shift, rest);
    Pow2Sum(shift + 1, rest);
  }

  lemma LargerByte(b: Byte, shift: nat)
    requires BitSet(b, shift)
    ensures Pow2(shift) <= b
  {
    SmallQuotient(b, Pow2(shift));
  }

  lemma SmallQuotient(b: nat, p: nat)
    requires p > 0
    ensures b < p ==> b / p == 0
  {
    if b < p { DivisionIsUnique(b, p, 0, b); }
  }

  lemma MulRange(lo: nat, b: nat, hi: nat, unit: nat, low: nat)
    requires lo <= b < hi && low < unit
    ensures lo * unit <= b * unit + low < hi * unit
  {
    var x, y := hi - b - 1, b - lo;
    assert x * unit >= 0 && y * unit >= 0;
    assert hi * unit == b * unit + x * unit + unit;
    assert b * unit == lo * unit + y * unit;
  }

  /** Numeric meaning of the difficulty: at least k leading zero bits if and only
      if the number is below 2^(bits - k). */
  lemma DifficultyIsNumeric(d: seq<Byte>, bits: nat, k: nat)
    requires LeadingZeros(d, bits) && k <= 8 * |d|
    ensures bits >= k <==> Value(d) < Pow2(8 * |d| - k)
  {
    if bits >= k {
      Pow2Grows(8 * |d| - bits, 8 * |d| - k);
    } else {
      Pow2Grows(8 * |d| - k, 8 * |d| - bits - 1);
    }
  }

  lemma LeadingZerosUnique(d: seq<Byte>, a: nat, b: nat)
    requires LeadingZeros(d, a) && LeadingZeros(d, b)
    ensures a == b
  {
    DifficultyIsNumeric(d, a, b);
    DifficultyIsNumeric(d, b, a);
  }

  /** Satisfies, stated without counting bits. */
  predicate Meets(d: Digest, difficulty: int) {
    difficulty <= 0 || (difficulty <= 256 && Value(d) < Pow2(256 - difficulty))
  }

  method Satisfies(digest: Digest, difficulty: int) returns (ok: bool)
    ensures ok == Meets(digest, difficulty)
  {
    var bits := LeadingZeroBits(digest);
    if 0 <= difficulty <= 256 { DifficultyIsNumeric(digest, bits, difficulty); }
    ValueBelow(digest);
    ok := bits >= difficulty;
  }
}
