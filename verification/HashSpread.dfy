/**
 * The bucket hash of src/performance_optimizer.c spreads consecutive pids evenly: with a bucket
 * count that divides 2^32, as the 256 of the program does, two processes share a bucket exactly
 * when their pids differ by a multiple of the bucket count.
 */
module HashSpread {
  import opened Words
  import opened PerfOptimizer

  lemma MulBounds(b: int, d: int)
    requires b > 0
    ensures d >= 1 ==> b * d >= b
    ensures d <= -1 ==> b * d <= -b
  {
  }

  lemma Remainder(b: int, q: int, r: int)
    requires 0 <= r < b
    ensures (b * q + r) % b == r
  {
    var x := b * q + r;
    assert x == b * (x / b) + x % b;
    MulBounds(b, q - x / b);
    assert b * (q - x / b) == x % b - r;
  }

  lemma Shift(x: int, b: int, k: int)
    requires b > 0
    ensures (x + b * k) % b == x % b
  {
    assert x == b * (x / b) + x % b;
    assert x + b * k == b * (x / b + k) + x % b;
    Remainder(b, x / b + k, x % b);
  }

  const MULTIPLIER := 2654435761
  const INVERSE := 244002641

  /** Reducing to a word first does not change the remainder. */
  lemma WordFirst(x: int, b: int, c: int)
    requires b > 0 && b * c == U32
    ensures Wrap32(x) % b == x % b
  {
    var k := x / U32;
    assert x == U32 * k + Wrap32(x);
    assert U32 * k == b * (c * k);
    Shift(Wrap32(x), b, c * k);
  }

  lemma HashIs(pid: int, b: nat, c: int)
    requires b > 0 && b * c == U32
    ensures HashPid(pid, b) == (pid * MULTIPLIER) % b
  {
    var w := Wrap32(pid);
    WordFirst(w * MULTIPLIER, b, c);
    var k := pid / U32;
    assert pid == U32 * k + w;
    assert pid * MULTIPLIER == w * MULTIPLIER + U32 * (k * MULTIPLIER);
    assert U32 * (k * MULTIPLIER) == b * (c * (k * MULTIPLIER));
    Shift(w * MULTIPLIER, b, c * (k * MULTIPLIER));
  }

  lemma SameRemainder(x: int, y: int, b: int)
    requires b > 0
    ensures x % b == y % b <==> (x - y) % b == 0
  {
    assert x == b * (x / b) + x % b && y == b * (y / b) + y % b;
    assert x - y == b * (x / b - y / b) + (x % b - y % b);
    if x % b == y % b {
      Remainder(b, x / b - y / b, 0);
    }
    if (x - y) % b == 0 {
      assert x == y + b * ((x - y) / b);
      Shift(y, b, (x - y) / b);
    }
  }

  /** The multiplier is invertible modulo every divisor of 2^32. */
  lemma Cancel(d: int, b: int, c: int)
    requires b > 0 && b * c == U32
    ensures (d * MULTIPLIER) % b == 0 <==> d % b == 0
  {
    if d % b == 0 {
      assert d == b * (d / b);
      assert d * MULTIPLIER == b * (d / b * MULTIPLIER) + 0;
      Remainder(b, d / b * MULTIPLIER, 0);
    }
    if (d * MULTIPLIER) % b == 0 {
      var k := d * MULTIPLIER / b;
      assert d * MULTIPLIER == b * k;
      assert MULTIPLIER * INVERSE == 1 + U32 * 150801925;
      assert d * MULTIPLIER * INVERSE == d + U32 * (150801925 * d);
      assert d * MULTIPLIER * INVERSE == b * (k * INVERSE);
      assert U32 * (150801925 * d) == b * (c * (150801925 * d));
      assert d == b * (k * INVERSE - c * (150801925 * d)) + 0;
      Remainder(b, k * INVERSE - c * (150801925 * d), 0);
    }
  }

  /** Two processes share a bucket exactly when their pids differ by a multiple of the bucket count. */
  lemma CollideIff(p: int, q: int, buckets: nat, c: int)
    requires buckets > 0 && buckets * c == 0x1_0000_0000
    ensures HashPid(p, buckets) == HashPid(q, buckets) <==> (p - q) % buckets == 0
  {
    HashIs(p, buckets, c);
    HashIs(q, buckets, c);
    SameRemainder(p * MULTIPLIER, q * MULTIPLIER, buckets);
    assert p * MULTIPLIER - q * MULTIPLIER == (p - q) * MULTIPLIER;
    Cancel(p - q, buckets, c);
  }

  /** With the program's 256 buckets any 256 consecutive pids have a bucket each. */
  lemma NeighboursDoNotCollide(p: int, q: int)
    requires p < q < p + 256
    ensures HashPid(p, 256) != HashPid(q, 256)
  {
    CollideIff(p, q, 256, 16777216);
    Shift(p - q, 256, 1);
  }
}
