/** Rounding of block and transfer sizes to powers of two, in 32-bit arithmetic. */
module Sizes {

  type U32 = x: int | 0 <= x < 0x1_0000_0000

  function Pow2(k: nat): (p: nat)
    ensures p > 0
  {
    if k == 0 then 1 else 2 * Pow2(k - 1)
  }

  ghost predicate IsPow2(n: int) { exists k: nat :: n == Pow2(k) }

  const MIN_BLOCKSIZE: U32 := 512
  const MIN_IOSIZE: U32 := 512
  const DEFAULT_BLOCKSIZE: U32 := 4096
  const CLIP := 0x8000_0000  // sizes are clipped at 2G

  lemma {:induction false} Pow2Monotone(i: nat, j: nat)
    requires i <= j
    ensures Pow2(i) <= Pow2(j) && Pow2(j) % Pow2(i) == 0
    decreases j - i
  {
    if i < j {
      Pow2Monotone(i, j - 1);
      var q := Pow2(j - 1) / Pow2(i);
      assert Pow2(j) == (2 * q) * Pow2(i);
      MultipleMod(2 * q, Pow2(i));
    } else {
      assert Pow2(i) == 1 * Pow2(i);
    }
  }

  lemma MultipleMod(q: int, d: int)
    requires d > 0
    ensures (q * d) % d == 0
  {
    var a := q * d;
    var p := a / d;
    assert a == p * d + a % d;
    SmallMultiple(q - p, d, a % d);
  }

  lemma SmallMultiple(x: int, d: int, r: int)
    requires x * d == r && 0 <= r < d
    ensures r == 0
  {
    if x >= 1 {
      Product(x - 1, d);
    } else if x <= -1 {
      Product(-x - 1, d);
    }
  }

  lemma Product(x: int, d: int)
    requires x >= 0 && d >= 0
    ensures x * d >= 0 && (x + 1) * d == x * d + d && (-x - 1) * d == -(x * d) - d
  {
  }

  // Of two powers of two the smaller divides the larger.
  lemma Pow2Divides(a: int, b: int)
    requires IsPow2(a) && IsPow2(b) && a <= b
    ensures a > 0 && b % a == 0
  {
    var i: nat :| a == Pow2(i);
    var j: nat :| b == Pow2(j);
    if i <= j {
      Pow2Monotone(i, j);
    } else {
      Pow2Monotone(j, i);
      assert a == b;
    }
  }

  // No power of two lies strictly between Pow2(k) and its double.
  lemma NoPow2Between(k: nat, p: int)
    requires IsPow2(p) && p > Pow2(k)
    ensures p >= 2 * Pow2(k)
  {
    var j: nat :| p == Pow2(j);
    if j <= k {
      Pow2Monotone(j, k);
    } else {
      Pow2Monotone(k + 1, j);
    }
  }

  lemma Known()
    ensures Pow2(9) == 512 && Pow2(12) == 4096 && Pow2(31) == CLIP && IsPow2(512) && IsPow2(4096)
  {
    assert Pow2(4) == 16 && Pow2(8) == 256;
    assert Pow2(9) == 512;
    assert Pow2(12) == 4096 && Pow2(16) == 65536 && Pow2(20) == 0x10_0000;
    assert Pow2(24) == 0x100_0000 && Pow2(28) == 0x1000_0000;
  }

  // The least power of two that is at least 512 and at least n.
  ghost predicate LeastPow2(r: int, n: int) {
    && IsPow2(r) && r >= 512 && r >= n
    && forall p | IsPow2(p) && p >= 512 && p >= n :: r <= p
  }

  // fuse_round_powerof2: no shift overflows 32 bits.
  method RoundPowerOf2(size: U32) returns (result: U32)
    ensures LeastPow2(result, size % CLIP) && result <= CLIP
  {
    var clipped := size % CLIP;
    result := 512;
    Known();
    ghost var k: nat := 9;
    while result < clipped
      invariant result == Pow2(k) && 512 <= result <= CLIP
      invariant forall p | IsPow2(p) && p >= 512 && p >= clipped :: result <= p
      decreases CLIP - result
    {
      forall p | IsPow2(p) && p >= 512 && p >= clipped
        ensures 2 * result <= p
      {
        NoPow2Between(k, p);
      }
      DoubleBelow(k);
      result := 2 * result;
      k := k + 1;
    }
  }

  lemma DoubleBelow(k: nat)
    requires Pow2(k) < CLIP
    ensures 2 * Pow2(k) <= CLIP
  {
    Known();
    assert IsPow2(CLIP);
    NoPow2Between(k, CLIP);
  }

  function Clamp(p: int, min: int, max: int): int { if p < min then min else if p > max then max else p }

  // r is the least power of two for the clipped size, clamped to the bounds. There is
  // exactly one such number.
  ghost predicate Rounded(r: int, size: U32, min: U32, max: U32) {
    exists p :: LeastPow2(p, size % CLIP) && r == Clamp(p, min, max)
  }

  lemma RoundedOnce(r: int, r': int, size: U32, min: U32, max: U32)
    requires Rounded(r, size, min, max) && Rounded(r', size, min, max)
    ensures r == r'
  {
    var p :| LeastPow2(p, size % CLIP) && r == Clamp(p, min, max);
    var p' :| LeastPow2(p', size % CLIP) && r' == Clamp(p', min, max);
    assert p <= p' && p' <= p;
  }

  // fuse_round_size, for bounds that are powers of two.
  method RoundSize(size: U32, min: U32, max: U32) returns (r: U32)
    requires IsPow2(min) && IsPow2(max) && min <= max
    ensures IsPow2(r) && min <= r <= max && Rounded(r, size, min, max)
  {
    r := RoundPowerOf2(size);
    ghost var p := r;
    assert LeastPow2(p, size % CLIP);
    if r < min {
      r := min;
    }
    if r > max {
      r := max;
    }
  }

  // io is the transfer size asked for, rounded, or the block size if that is more.
  ghost predicate RoundedAbove(io: int, size: U32, max: U32, block: U32) {
    exists x :: Rounded(x, size, MIN_IOSIZE, max) && io == if x < block then block else x
  }

  // The sizes a mount settles on: those asked for, rounded to powers of two in their
  // ranges, the transfer raised to a block; and a block is a whole part of it.
  method MountSizes(blocksize: U32, iosize: U32, maxBlock: U32, maxIo: U32) returns (b: U32, i: U32)
    requires IsPow2(maxBlock) && IsPow2(maxIo) && maxBlock >= 512 && maxIo >= 512
    ensures Rounded(b, blocksize, MIN_BLOCKSIZE, maxBlock) && RoundedAbove(i, iosize, maxIo, b)
    ensures IsPow2(b) && IsPow2(i) && 512 <= b <= maxBlock && b <= i && i % b == 0
    ensures i <= maxIo || i == b
  {
    Known();
    b := RoundSize(blocksize, MIN_BLOCKSIZE, maxBlock);
    i := RoundSize(iosize, MIN_IOSIZE, maxIo);
    if i < b {
      i := b;
    }
    Pow2Divides(b, i);
  }

  // The same for statfs, where zero stands for the default.
  method StatfsSizes(bsize: U32, frsize: U32, defaultIo: U32, maxBlock: U32, maxIo: U32) returns (io: U32, block: U32)
    requires IsPow2(maxBlock) && IsPow2(maxIo) && maxBlock >= 512 && maxIo >= 512
    ensures Rounded(block, if frsize == 0 then DEFAULT_BLOCKSIZE else frsize, MIN_BLOCKSIZE, maxBlock)
    ensures RoundedAbove(io, if bsize == 0 then defaultIo else bsize, maxIo, block)
    ensures IsPow2(io) && IsPow2(block) && 512 <= block <= maxBlock && block <= io && io % block == 0
    ensures io <= maxIo || io == block
  {
    Known();
    io := if bsize == 0 then defaultIo else bsize;
    block := if frsize == 0 then DEFAULT_BLOCKSIZE else frsize;
    io := RoundSize(io, MIN_IOSIZE, maxIo);
    block := RoundSize(block, MIN_BLOCKSIZE, maxBlock);
    if io < block {
      io := block;
    }
    Pow2Divides(block, io);
  }
}
