/**
 * Iteration order of `java.util.HashSet<Long>` and `java.util.HashMap<Long, V>`
 * created with the default constructor.
 *
 * Both classes keep an array of buckets whose length (the capacity) starts at
 * 16 and doubles whenever the number of entries exceeds three quarters of it,
 * or when a key joins a bucket of eight in a table of fewer than 64 buckets.
 * A key goes to bucket `spread(hashCode(key)) & (capacity - 1)`; inside a bucket
 * entries keep their insertion order, and doubling the array preserves that
 * relative order. Iteration walks the buckets in index order, so it visits the
 * keys stably sorted by bucket index under the final capacity. (A bucket of
 * eight in a table of 64 or more buckets becomes a tree bin on its ninth key;
 * that case is not modelled.)
 */
module JavaHash {

  const TWO_32: nat := 0x1_0000_0000
  const TWO_64: nat := 0x1_0000_0000_0000_0000

  /** Bitwise exclusive or of the low `bits` bits of `a` and `b`. */
  function Xor(a: nat, b: nat, bits: nat): (r: nat)
    decreases bits
  {
    if bits == 0 then 0
    else (if a % 2 == b % 2 then 0 else 1) + 2 * Xor(a / 2, b / 2, bits - 1)
  }

  /** An exclusive or of `bits`-bit numbers is a `bits`-bit number. */
  lemma {:induction false} XorBound(a: nat, b: nat, bits: nat)
    ensures Xor(a, b, bits) < Pow2(bits)
    decreases bits
  {
    if bits > 0 {
      XorBound(a / 2, b / 2, bits - 1);
    }
  }

  function Pow2(n: nat): (r: nat)
    ensures r > 0
  {
    if n == 0 then 1 else 2 * Pow2(n - 1)
  }

  /** The two's-complement bit pattern of a Java `long`, read as an unsigned number. */
  function LongBits(x: int): (r: nat)
    ensures r < TWO_64
  {
    x % TWO_64
  }

  /** `Long.hashCode(x)`, i.e. `(int)(x ^ (x >>> 32))`, as an unsigned 32-bit pattern. */
  function LongHash(x: int): (r: nat)
  {
    var b := LongBits(x);
    Xor(b % TWO_32, b / TWO_32, 32)
  }

  /** `HashMap.hash`: the 32-bit hash code with its upper half folded into the lower half. */
  function Spread(h: nat): (r: nat)
  {
    Xor(h, h / 0x1_0000, 32)
  }

  /** A bucket that receives its ninth key is made a tree bin, or the table grows instead. */
  const TREEIFY_THRESHOLD: nat := 8
  /** The smallest capacity at which `treeifyBin` builds a tree rather than doubling the table. */
  const MIN_TREEIFY_CAPACITY: nat := 64

  /** How many of the keys `xs` fall into bucket `b` under capacity `cap`. */
  function BucketLoad(xs: seq<int>, b: nat, cap: nat): (n: nat)
    requires cap > 0
    ensures n <= |xs|
  {
    if |xs| == 0 then 0
    else BucketLoad(xs[..|xs| - 1], b, cap) + (if Bucket(xs[|xs| - 1], cap) == b then 1 else 0)
  }

  /**
   * Capacity of a default table after the distinct keys `xs` were added in
   * this order. The first key allocates 16 buckets. A key that joins a bucket
   * already holding eight keys makes `putVal` call `treeifyBin`, which
   * doubles a table of fewer than 64 buckets; then the table doubles when
   * the size exceeds three quarters of the capacity.
   */
  function Capacity(xs: seq<int>): (c: nat)
    ensures c >= 16 && 4 * |xs| <= 3 * c
  {
    if |xs| == 0 then 16
    else
      var init, x := xs[..|xs| - 1], xs[|xs| - 1];
      var c := Capacity(init);
      var c' := if c < MIN_TREEIFY_CAPACITY && BucketLoad(init, Bucket(x, c), c) >= TREEIFY_THRESHOLD then 2 * c else c;
      if 4 * |xs| > 3 * c' then 2 * c' else c'
  }

  /** The keys of a sequence of entries, in order. */
  function Keys<V>(es: seq<(int, V)>): (ks: seq<int>)
    ensures |ks| == |es| && forall i :: 0 <= i < |es| ==> ks[i] == es[i].0
  {
    seq(|es|, i requires 0 <= i < |es| => es[i].0)
  }

  /**
   * The bucket a `long` key falls into under capacity `cap`: for a power of
   * two, `hash & (cap - 1)` is the remainder of the unsigned hash.
   */
  function Bucket(x: int, cap: nat): (b: nat)
    requires cap > 0
    ensures b < cap
  {
    Spread(LongHash(x)) % cap
  }

  /** Places `x` after the last element of `s` whose key is at most `key(x)`. */
  function InsertByKey<T>(s: seq<T>, x: T, key: T -> int): (r: seq<T>)
    ensures |r| == |s| + 1
    decreases |s|
  {
    if |s| == 0 || key(s[|s| - 1]) <= key(x) then s + [x]
    else InsertByKey(s[..|s| - 1], x, key) + [s[|s| - 1]]
  }

  /** Inserting adds exactly `x`. */
  lemma {:induction false} InsertByKeyMultiset<T>(s: seq<T>, x: T, key: T -> int)
    ensures multiset(InsertByKey(s, x, key)) == multiset(s) + multiset{x}
    decreases |s|
  {
    if !(|s| == 0 || key(s[|s| - 1]) <= key(x)) {
      InsertByKeyMultiset(s[..|s| - 1], x, key);
      assert s == s[..|s| - 1] + [s[|s| - 1]];
    }
  }

  predicate SortedByKey<T>(s: seq<T>, key: T -> int)
  {
    forall i, j :: 0 <= i < j < |s| ==> key(s[i]) <= key(s[j])
  }

  /** Inserting into a sorted sequence keeps it sorted. */
  lemma {:induction false} InsertByKeySorted<T>(s: seq<T>, x: T, key: T -> int)
    requires SortedByKey(s, key)
    ensures SortedByKey(InsertByKey(s, x, key), key)
    decreases |s|
  {
    if |s| == 0 || key(s[|s| - 1]) <= key(x) {
    } else {
      var init, last := s[..|s| - 1], s[|s| - 1];
      InsertByKeySorted(init, x, key);
      InsertByKeyMultiset(init, x, key);
      var r := InsertByKey(init, x, key);
      forall i | 0 <= i < |r| ensures key(r[i]) <= key(last) {
        assert r[i] in multiset(r);
        if r[i] != x {
          assert r[i] in multiset(init);
          var k :| 0 <= k < |init| && init[k] == r[i];
          assert s[k] == r[i];
        }
      }
      assert InsertByKey(s, x, key) == r + [last];
    }
  }

  /** Stable insertion sort by `key`. */
  function SortByKey<T>(xs: seq<T>, key: T -> int): (r: seq<T>)
    ensures |r| == |xs|
    decreases |xs|
  {
    if |xs| == 0 then []
    else InsertByKey(SortByKey(xs[..|xs| - 1], key), xs[|xs| - 1], key)
  }

  /** The sort is a permutation of its input, sorted by key. */
  lemma {:induction false} SortByKeySpec<T>(xs: seq<T>, key: T -> int)
    ensures multiset(SortByKey(xs, key)) == multiset(xs)
    ensures SortedByKey(SortByKey(xs, key), key)
    decreases |xs|
  {
    if |xs| > 0 {
      var init := xs[..|xs| - 1];
      SortByKeySpec(init, key);
      InsertByKeySorted(SortByKey(init, key), xs[|xs| - 1], key);
      InsertByKeyMultiset(SortByKey(init, key), xs[|xs| - 1], key);
      assert xs == init + [xs[|xs| - 1]];
    }
  }

  /** The bucket of a key, as a sort key. */
  function KeyBucket(cap: nat): (int -> int)
    requires cap > 0
  {
    (x: int) => Bucket(x, cap)
  }

  /** The bucket of an entry's key, as a sort key. */
  function EntryBucket<V>(cap: nat): (((int, V)) -> int)
    requires cap > 0
  {
    (e: (int, V)) => Bucket(e.0, cap)
  }

  /**
   * Iteration order of a default `HashSet<Long>` whose elements were added in
   * the order of `xs` (no element twice).
   */
  function SetOrder(xs: seq<int>): (r: seq<int>)
    ensures |r| == |xs|
  {
    SortByKey(xs, KeyBucket(Capacity(xs)))
  }

  /**
   * Iteration order of the entries of a default `HashMap<Long, V>` whose keys
   * were put in the order of `es`.
   */
  function MapOrder<V>(es: seq<(int, V)>): (r: seq<(int, V)>)
    ensures |r| == |es|
  {
    SortByKey(es, EntryBucket<V>(Capacity(Keys(es))))
  }

  /** Iteration visits every element once: same members, and the first one is a member. */
  lemma SetOrderMembers(xs: seq<int>)
    ensures forall x :: x in SetOrder(xs) <==> x in xs
    ensures |xs| > 0 ==> SetOrder(xs)[0] in xs
  {
    var r := SetOrder(xs);
    SortByKeySpec(xs, KeyBucket(Capacity(xs)));
    assert forall x :: x in r <==> x in multiset(r);
    assert forall x :: x in xs <==> x in multiset(xs);
    if |xs| > 0 {
      assert r[0] in multiset(r);
    }
  }

  /** Iterating a map visits exactly the entries that were put. */
  lemma MapOrderMembers<V>(es: seq<(int, V)>)
    ensures forall e :: e in MapOrder(es) <==> e in es
  {
    var r := MapOrder(es);
    SortByKeySpec(es, EntryBucket<V>(Capacity(Keys(es))));
    assert forall e :: e in r <==> e in multiset(r);
    assert forall e :: e in es <==> e in multiset(es);
  }

  /** Sorting two elements swaps them exactly when the second has the smaller key. */
  lemma SortPair<T>(a: T, b: T, key: T -> int)
    ensures SortByKey([a, b], key) == if key(b) < key(a) then [b, a] else [a, b]
  {
    assert [a, b][..1] == [a];
    assert [a][..0] == [];
    assert SortByKey([a], key) == InsertByKey([], a, key) == [a];
    assert SortByKey([a, b], key) == InsertByKey([a], b, key);
  }

  /** Exclusive or with zero leaves a number of at most `bits` bits unchanged. */
  lemma {:induction false} XorZero(a: nat, bits: nat)
    requires a < Pow2(bits)
    ensures Xor(a, 0, bits) == a
    decreases bits
  {
    if bits > 0 {
      XorZero(a / 2, bits - 1);
    }
  }

  lemma {:induction false} Pow2Monotone(n: nat, m: nat)
    requires n <= m
    ensures Pow2(n) <= Pow2(m)
    decreases m
  {
    if n < m {
      Pow2Monotone(n, m - 1);
    }
  }

  lemma Pow2Sixteen()
    ensures Pow2(16) == 0x1_0000
  {
    assert Pow2(0) == 1;
    assert Pow2(1) == 2;
    assert Pow2(2) == 4;
    assert Pow2(3) == 8;
    assert Pow2(4) == 16;
    assert Pow2(5) == 32;
    assert Pow2(6) == 64;
    assert Pow2(7) == 128;
    assert Pow2(8) == 256;
    assert Pow2(9) == 512;
    assert Pow2(10) == 1024;
    assert Pow2(11) == 2048;
    assert Pow2(12) == 4096;
    assert Pow2(13) == 8192;
    assert Pow2(14) == 16384;
    assert Pow2(15) == 32768;
  }

  lemma SmallWithin32Bits(x: nat)
    requires x < 0x1_0000
    ensures x < Pow2(32)
  {
    Pow2Sixteen();
    Pow2Monotone(16, 32);
  }

  /** `Long.hashCode` of an id in `[0, 65536)` is the id. */
  lemma SmallLongHash(x: int)
    requires 0 <= x < 0x1_0000
    ensures LongHash(x) == x
  {
    var b := LongBits(x);
    assert b == x;
    assert b % TWO_32 == x && b / TWO_32 == 0;
    SmallWithin32Bits(x);
    XorZero(x, 32);
  }

  /** Spreading a hash below 65536 leaves it unchanged. */
  lemma SmallSpread(h: nat)
    requires h < 0x1_0000
    ensures Spread(h) == h
  {
    assert h / 0x1_0000 == 0;
    SmallWithin32Bits(h);
    XorZero(h, 32);
  }

  /** Ids in `[0, 65536)` fall in bucket `id % cap`. */
  lemma SmallIdBucket(x: int, cap: nat)
    requires 0 <= x < 0x1_0000 && cap > 0
    ensures Bucket(x, cap) == x % cap
  {
    SmallLongHash(x);
    SmallSpread(x);
  }

  /** Ids in `[0, cap)` fall in their own bucket. */
  lemma OwnBucket(x: int, cap: nat)
    requires 0 <= x < cap <= 0x1_0000
    ensures Bucket(x, cap) == x
  {
    SmallIdBucket(x, cap);
    ModBelow(x, cap);
  }

  /** Ids in `[cap, cap + cap)` below 65536 fall in bucket `id - cap`. */
  lemma WrappedBucket(x: int, cap: nat)
    requires 0 < cap <= x < cap + cap && x < 0x1_0000
    ensures Bucket(x, cap) == x - cap
  {
    SmallIdBucket(x, cap);
    ModOnce(x, cap);
  }

  /** A number below the modulus is its own remainder. */
  lemma ModBelow(x: int, m: nat)
    requires 0 <= x < m
    ensures x % m == x
  {
  }

  /** A number in `[m, 2m)` leaves the remainder `x - m`. */
  lemma ModOnce(x: int, m: nat)
    requires 0 < m <= x < m + m
    ensures x % m == x - m
  {
    ModBelow(x - m, m);
    assert (x - m) % m == x % m;
  }

  /**
   * Ids at or above the capacity wrap around: an id of 16 or more is visited
   * before a smaller one in a higher bucket, as 17 (bucket 1) is before 15.
   */
  lemma LargeIdsWrap(a: int, b: int)
    requires 0 <= a < 16 <= b < 32 && b - 16 < a
    ensures SetOrder([a, b]) == [b, a]
  {
    OwnBucket(a, 16);
    WrappedBucket(b, 16);
    SmallTable([a, b]);
    SortPair(a, b, KeyBucket(16));
  }

  /** Small non-negative ids are visited in ascending order, whatever the order they were added in. */
  lemma SmallIdsAscending(a: int, b: int)
    requires 0 <= b < a < 16
    ensures SetOrder([a, b]) == [b, a]
  {
    OwnBucket(a, 16);
    OwnBucket(b, 16);
    SmallTable([a, b]);
    SortPair(a, b, KeyBucket(16));
  }

  /** A table of at most eight keys has 16 buckets: no bucket can hold eight before the last key. */
  lemma {:induction false} SmallTable(xs: seq<int>)
    requires |xs| <= TREEIFY_THRESHOLD
    ensures Capacity(xs) == 16
    decreases |xs|
  {
    if |xs| > 0 {
      SmallTable(xs[..|xs| - 1]);
    }
  }

  /** When every key falls into bucket `b`, that bucket holds them all. */
  lemma {:induction false} FullBucket(xs: seq<int>, b: nat, cap: nat)
    requires cap > 0 && forall i :: 0 <= i < |xs| ==> Bucket(xs[i], cap) == b
    ensures BucketLoad(xs, b, cap) == |xs|
    decreases |xs|
  {
    if |xs| > 0 {
      FullBucket(xs[..|xs| - 1], b, cap);
    }
  }

  /**
   * Nine keys of one bucket of 16 double the table to 32 buckets, although
   * nine keys alone would leave 16: the ninth joins a bucket of eight while
   * the table is under 64 buckets.
   */
  lemma NinthKeyInBucketDoubles(xs: seq<int>)
    requires |xs| == TREEIFY_THRESHOLD + 1
    requires forall i :: 0 <= i < |xs| ==> Bucket(xs[i], 16) == Bucket(xs[0], 16)
    ensures Capacity(xs) == 32
    ensures SetOrder(xs) == SortByKey(xs, KeyBucket(32))
  {
    var init := xs[..TREEIFY_THRESHOLD];
    SmallTable(init);
    FullBucket(init, Bucket(xs[0], 16), 16);
  }
}
