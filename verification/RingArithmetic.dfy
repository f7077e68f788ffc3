/**
 Powers of two, masks and wrapping indices.
 */
module RingArithmetic {
  import opened Bytes

  /** One past the largest 64-bit index. */
  const WORD: nat := 0x1_0000_0000_0000_0000

  function Pow2(k: nat): (r: nat)
    ensures r >= 1
  {
    if k == 0 then 1 else 2 * Pow2(k - 1)
  }

  /** The bitwise and of two unsigned numbers. */
  function BitAnd(x: nat, y: nat): nat
    decreases x
  {
    if x == 0 then 0
    else 2 * BitAnd(x / 2, y / 2) + (if x % 2 == 1 && y % 2 == 1 then 1 else 0)
  }

  lemma {:induction false} AndZero(x: nat)
    ensures BitAnd(x, 0) == 0
  {
    if x > 0 {
      AndZero(x / 2);
    }
  }

  lemma MulMonotone(m: nat, a: nat, b: nat)
    requires a <= b
    ensures m * a <= m * b
  {
  }

  /** Quotient and remainder are unique. */
  lemma ModUnique(x: nat, m: nat, q: nat, r: nat)
    requires m >= 1 && x == m * q + r && r < m
    ensures x % m == r && x / m == q
  {
    var p, s := x / m, x % m;
    assert x == m * p + s;
    if p > q {
      MulMonotone(m, q + 1, p);
    } else if p < q {
      MulMonotone(m, p + 1, q);
    }
  }

  lemma HalfMod(x: nat, m: nat)
    requires m >= 1
    ensures x % (2 * m) == 2 * ((x / 2) % m) + x % 2
  {
    var q, r := (x / 2) / m, (x / 2) % m;
    assert x / 2 == m * q + r;
    assert 2 * (m * q) == (2 * m) * q;
    ModUnique(x, 2 * m, q, 2 * r + x % 2);
  }

  /** Masking with a power of two minus one is reduction modulo that power. */
  lemma {:induction false} MaskIsMod(x: nat, k: nat)
    ensures BitAnd(x, Pow2(k) - 1) == x % Pow2(k)
    decreases k
  {
    if k == 0 {
      AndZero(x);
    } else {
      var m := Pow2(k - 1);
      HalfMod(x, m);
      assert (2 * m - 1) / 2 == m - 1 && (2 * m - 1) % 2 == 1;
      MaskIsMod(x / 2, k - 1);
    }
  }

  lemma {:induction false} PowSplit(a: nat, b: nat)
    ensures Pow2(a + b) == Pow2(a) * Pow2(b)
  {
    if a > 0 {
      PowSplit(a - 1, b);
      assert 2 * (Pow2(a - 1) * Pow2(b)) == (2 * Pow2(a - 1)) * Pow2(b);
    }
  }

  lemma WordIsPower()
    ensures WORD == Pow2(64)
  {
    assert Pow2(8) == 256;
    PowSplit(8, 8);
    PowSplit(16, 16);
    PowSplit(32, 32);
  }

  lemma MulReorder(m: nat, n: nat, q: nat, p: nat)
    ensures (m * n) * q + m * p == m * (n * q + p)
  {
  }

  lemma ModOfMultiple(x: nat, m: nat, n: nat)
    requires m >= 1 && n >= 1
    ensures (x % (m * n)) % m == x % m
  {
    var q, r := x / (m * n), x % (m * n);
    var p, s := r / m, r % m;
    assert x == (m * n) * q + (m * p + s);
    MulReorder(m, n, q, p);
    ModUnique(x, m, n * q + p, s);
  }

  /** A power-of-two capacity divides the index space, so a wrapped index still points to the same byte. */
  lemma WrapKeepsSlot(x: nat, k: nat)
    requires k <= 64
    ensures (x % WORD) % Pow2(k) == x % Pow2(k)
  {
    WordIsPower();
    PowSplit(k, 64 - k);
    ModOfMultiple(x, Pow2(k), Pow2(64 - k));
  }

  /** Where the j-th byte after index `from` sits in a ring of the given capacity. */
  function Place(from: nat, j: nat, capacity: nat): (p: nat)
    requires capacity > 0
    ensures p < capacity
  {
    (from + j) % capacity
  }

  lemma PlaceIs(from: nat, j: nat, capacity: nat)
    requires 0 < capacity && j <= capacity
    ensures var off := from % capacity;
      Place(from, j, capacity) == if off + j < capacity then off + j else off + j - capacity
  {
    var q, off := from / capacity, from % capacity;
    assert from + j == capacity * q + (off + j);
    if off + j < capacity {
      ModUnique(from + j, capacity, q, off + j);
    } else {
      assert from + j == capacity * (q + 1) + (off + j - capacity);
      ModUnique(from + j, capacity, q + 1, off + j - capacity);
    }
  }

  lemma PlacesDiffer(from: nat, i: nat, j: nat, capacity: nat)
    requires 0 < capacity && i < j < capacity
    ensures Place(from, i, capacity) != Place(from, j, capacity)
  {
    PlaceIs(from, i, capacity);
    PlaceIs(from, j, capacity);
  }

  lemma PlaceShift(from: nat, i: nat, j: nat, capacity: nat)
    requires capacity > 0
    ensures Place(from + i, j, capacity) == Place(from, i + j, capacity)
  {
  }

  lemma SameRest(x: nat, y: nat, c: nat, q: nat, p: nat, r: nat)
    requires c >= 1 && x == c * q + r && y == c * p + r
    ensures x % c == y % c
  {
    var d, e := r / c, r % c;
    MulReorder(c, 1, q, d);
    MulReorder(c, 1, p, d);
    ModUnique(x, c, q + d, e);
    ModUnique(y, c, p + d, e);
  }

  lemma ModShift(x: nat, y: nat, j: nat, c: nat)
    requires c >= 1 && x % c == y % c
    ensures (x + j) % c == (y + j) % c
  {
    SameRest(x + j, y + j, c, x / c, y / c, x % c + j);
  }

  lemma PlaceWraps(from: nat, j: nat, k: nat)
    requires k <= 64
    ensures Place(from % WORD, j, Pow2(k)) == Place(from, j, Pow2(k))
  {
    WrapKeepsSlot(from, k);
    ModShift(from % WORD, from, j, Pow2(k));
  }

  /** n bytes of a ring, in logical order from index `from`. */
  function Logical(buf: seq<Byte>, from: nat, n: nat): (s: seq<Byte>)
    requires |buf| > 0
    ensures |s| == n
  {
    seq(n, (j: nat) => buf[Place(from, j, |buf|)])
  }

  /** They lie in at most two pieces: up to the end of the block, then from its start. */
  lemma LogicalSplit(buf: seq<Byte>, from: nat, n: nat)
    requires |buf| > 0 && n <= |buf|
    ensures var off := from % |buf|;
      var first := Min(n, |buf| - off);
      Logical(buf, from, n) == buf[off..off + first] + buf[..n - first]
  {
    var off := from % |buf|;
    var first := Min(n, |buf| - off);
    forall j | 0 <= j < n ensures Logical(buf, from, n)[j] == (buf[off..off + first] + buf[..n - first])[j] {
      PlaceIs(from, j, |buf|);
    }
  }

  lemma LogicalAppend(buf: seq<Byte>, from: nat, m: nat, n: nat)
    requires |buf| > 0
    ensures Logical(buf, from, m + n) == Logical(buf, from, m) + Logical(buf, from + m, n)
  {
    var whole, tail := Logical(buf, from, m + n), Logical(buf, from + m, n);
    forall j | 0 <= j < n ensures tail[j] == whole[m + j] {
      PlaceShift(from, m, j, |buf|);
    }
  }

  lemma LogicalWraps(buf: seq<Byte>, from: nat, n: nat, k: nat)
    requires k <= 64 && |buf| == Pow2(k)
    ensures Logical(buf, from % WORD, n) == Logical(buf, from, n)
  {
    forall j | 0 <= j < n ensures Place(from % WORD, j, |buf|) == Place(from, j, |buf|) {
      PlaceWraps(from, j, k);
    }
  }

  /** `after` is `before` with data placed in logical order from index `from`, and nothing else changed. */
  ghost predicate Filled(before: seq<Byte>, after: seq<Byte>, from: nat, data: seq<Byte>) {
    && |after| == |before| > 0
    && (forall j :: 0 <= j < |data| ==> after[Place(from, j, |before|)] == data[j])
    && (forall p :: 0 <= p < |before| && (forall j :: 0 <= j < |data| ==> Place(from, j, |before|) != p) ==>
          after[p] == before[p])
  }

  /** Filling free bytes leaves the used ones alone. */
  lemma FillDisjoint(before: seq<Byte>, after: seq<Byte>, from: nat, used: nat, data: seq<Byte>)
    requires Filled(before, after, from + used, data) && used + |data| <= |before|
    ensures Logical(after, from, used) == Logical(before, from, used)
    ensures Logical(after, from + used, |data|) == data
  {
    var w := from + used;
    forall i | 0 <= i < used ensures Logical(after, from, used)[i] == Logical(before, from, used)[i] {
      var p := Place(from, i, |before|);
      forall j | 0 <= j < |data| ensures Place(w, j, |before|) != p {
        PlaceShift(from, used, j, |before|);
        PlacesDiffer(from, i, used + j, |before|);
      }
    }
  }

  /** Two copies, one up to the end of the block and one from its start, fill in logical order. */
  lemma TwoCopiesFill(before: seq<Byte>, after: seq<Byte>, from: nat, data: seq<Byte>, first: nat)
    requires |before| > 0 && |data| <= |before|
    requires var off := from % |before|;
      && first == Min(|data|, |before| - off)
      && after == data[first..] + before[|data| - first..off] + data[..first] + before[off + first..]
    ensures Filled(before, after, from, data)
  {
    var c, off := |before|, from % |before|;
    var second := |data| - first;
    forall j | 0 <= j < |data| ensures after[Place(from, j, c)] == data[j] {
      PlaceIs(from, j, c);
    }
    forall p | 0 <= p < c && (forall j :: 0 <= j < |data| ==> Place(from, j, c) != p) ensures after[p] == before[p] {
      if off <= p < off + first {
        PlaceIs(from, p - off, c);
      } else if p < second {
        PlaceIs(from, first + p, c);
      }
    }
  }
}
