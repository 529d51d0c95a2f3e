/** Pool sizing and round-robin dealing, shared by the three generations of
    dispatcher: file `i` of a batch goes to bucket `i % k`. */
module RoundRobin {

  /** `Math.max(1, os.cpus().length - 1)`: keep one cpu for the build
      itself, but always run at least one worker. */
  function ThreadCount(cpus: nat): (n: nat)
    ensures n >= 1
    ensures n + 1 >= cpus
    ensures cpus >= 2 ==> n + 1 == cpus
    ensures cpus <= 2 ==> n == 1
  {
    if cpus >= 2 then cpus - 1 else 1
  }

  /** The files that land in bucket `b` when `items` is dealt into `k`
      buckets by `index % k`, in the order they were dealt. Defined the way
      `chunkFiles` builds it: one `push` per file, in index order. */
  function Bucket<T>(items: seq<T>, k: nat, b: nat): (r: seq<T>)
    requires k >= 1
    ensures |r| <= |items|
  {
    if items == [] then []
    else
      var n := |items| - 1;
      Bucket(items[..n], k, b) + (if n % k == b then [items[n]] else [])
  }

  /** All `k` buckets, keyed `0` to `k - 1`. */
  function Buckets<T>(items: seq<T>, k: nat): (r: map<nat, seq<T>>)
    requires k >= 1
    ensures forall b: nat :: b in r <==> b < k
  {
    map b | 0 <= b < k :: Bucket(items, k, b)
  }

  /** Dealing file `i` into `k` buckets puts it at the end of bucket
      `i % k`; every other bucket keeps its files. */
  lemma BucketSnoc<T>(items: seq<T>, k: nat, i: nat)
    requires k >= 1 && i < |items|
    ensures forall b :: Bucket(items[..i + 1], k, b) == Bucket(items[..i], k, b) + (if i % k == b then [items[i]] else [])
  {
    assert items[..i + 1][..i] == items[..i];
  }

  /** The same step on the map of all buckets: dealing file `i` appends it
      to bucket `i % k` and leaves the other buckets alone. */
  lemma BucketsSnoc<T>(items: seq<T>, k: nat, i: nat)
    requires k >= 1 && i < |items|
    ensures Buckets(items[..i + 1], k) == Buckets(items[..i], k)[i % k := Buckets(items[..i], k)[i % k] + [items[i]]]
  {
    var before, after := Buckets(items[..i], k), Buckets(items[..i + 1], k);
    var expected := before[i % k := before[i % k] + [items[i]]];
    BucketSnoc(items, k, i);
    assert forall b :: 0 <= b < k ==> after[b] == expected[b];
    assert after.Keys == expected.Keys;
  }

  /** What test/lib/Uglifier.js and the dispatchers rely on: file
      `i` sits in bucket `i % k` at position `i / k`, bucket sizes differ by
      at most one (the lower-numbered bucket being the larger). */
  lemma BucketsShape<T>(items: seq<T>, k: nat)
    requires k >= 1
    ensures forall i :: 0 <= i < |items| ==>
      i / k < |Bucket(items, k, i % k)| && Bucket(items, k, i % k)[i / k] == items[i]
    ensures forall b1, b2 :: 0 <= b1 <= b2 < k ==>
      |Bucket(items, k, b2)| <= |Bucket(items, k, b1)| <= |Bucket(items, k, b2)| + 1
  {
    forall i | 0 <= i < |items|
      ensures i / k < |Bucket(items, k, i % k)| && Bucket(items, k, i % k)[i / k] == items[i]
    {
      BucketAt(items, k, i);
    }
    forall b1, b2 | 0 <= b1 <= b2 < k
      ensures |Bucket(items, k, b2)| <= |Bucket(items, k, b1)| <= |Bucket(items, k, b2)| + 1
    {
      BucketsBalanced(items, k, b1, b2);
    }
  }

  /** The converse of `BucketsShape`'s first clause: position `j` of bucket
      `b` holds file `b + j * k`, so no bucket holds anything but files of
      the batch, each in the one slot its index names. */
  lemma BucketsExact<T>(items: seq<T>, k: nat)
    requires k >= 1
    ensures forall b: nat, j: nat :: b < k && j < |Bucket(items, k, b)| ==>
      Slot(k, b, j) < |items| && Bucket(items, k, b)[j] == items[Slot(k, b, j)]
  {
    forall b: nat, j: nat | b < k && j < |Bucket(items, k, b)|
      ensures Slot(k, b, j) < |items| && Bucket(items, k, b)[j] == items[Slot(k, b, j)]
    {
      BucketElement(items, k, b, j);
    }
  }

  /** The number of files in buckets `0` to `m - 1`. */
  function Dealt<T>(items: seq<T>, k: nat, m: nat): nat
    requires k >= 1
  {
    if m == 0 then 0 else Dealt(items, k, m - 1) + |Bucket(items, k, m - 1)|
  }

  /** The bucket sizes add up to the size of the batch: no file is lost or
      dealt twice. */
  lemma {:induction false} BucketsTotal<T>(items: seq<T>, k: nat)
    requires k >= 1
    ensures Dealt(items, k, k) == |items|
  {
    if items == [] {
      DealtNothing(items, k, k);
    } else {
      var n := |items| - 1;
      BucketsTotal(items[..n], k);
      DealtSnoc(items, k, k);
    }
  }

  lemma {:induction false} DealtNothing<T>(items: seq<T>, k: nat, m: nat)
    requires k >= 1 && items == []
    ensures Dealt(items, k, m) == 0
  {
    if m > 0 {
      DealtNothing(items, k, m - 1);
    }
  }

  /** Dealing the last file adds one to the buckets below `m` exactly when
      its bucket is one of them. */
  lemma {:induction false} DealtSnoc<T>(items: seq<T>, k: nat, m: nat)
    requires k >= 1 && items != []
    ensures var n := |items| - 1;
      Dealt(items, k, m) == Dealt(items[..n], k, m) + (if n % k < m then 1 else 0)
  {
    if m > 0 {
      DealtSnoc(items, k, m - 1);
    }
  }

  /** The index of the file dealt to position `j` of bucket `b`: bucket `b`
      gets file `b` in the first round and one file `k` further on in each
      later round. */
  function Slot(k: nat, b: nat, j: nat): nat {
    b + j * k
  }

  /** Each file has one slot: the only bucket and position naming file `i`
      are `i % k` and `i / k`, so no file is dealt twice. */
  lemma SlotUnique(k: nat, b: nat, j: nat, i: nat)
    requires k >= 1 && b < k && Slot(k, b, j) == i
    ensures b == i % k && j == i / k
  {
    DivModUnique(i, k, j, b);
  }

  /** Dealing one more file moves the quotient/remainder pair one step. */
  lemma DivModStep(n: nat, k: nat)
    requires k >= 1
    ensures n % k + 1 < k ==> (n + 1) / k == n / k && (n + 1) % k == n % k + 1
    ensures n % k + 1 == k ==> (n + 1) / k == n / k + 1 && (n + 1) % k == 0
  {
    var q, r := n / k, n % k;
    assert n == q * k + r;
    if r + 1 < k {
      DivModUnique(n + 1, k, q, r + 1);
    } else {
      assert n + 1 == (q + 1) * k;
      DivModUnique(n + 1, k, q + 1, 0);
    }
  }

  /** Euclidean division is unique: the quotient and remainder of `n` by
      `k` are the only pair with `n == q * k + r` and `0 <= r < k`. */
  lemma DivModUnique(n: int, k: nat, q: int, r: int)
    requires k >= 1 && 0 <= r < k && n == q * k + r
    ensures n / k == q && n % k == r
  {
    var q', r' := n / k, n % k;
    assert n == q' * k + r';
    if q' > q {
      assert (q' - q) * k == q' * k - q * k;
      MulAtLeast(q' - q, k);
      assert false;
    } else if q' < q {
      assert (q - q') * k == q * k - q' * k;
      MulAtLeast(q - q', k);
      assert false;
    }
  }

  lemma MulAtLeast(a: int, k: nat)
    requires a >= 1
    ensures a * k >= k
  {
  }

  /** Bucket `b` holds one file per full round plus one from the last,
      partial round when `b` comes before the remainder. */
  lemma {:induction false} BucketSize<T>(items: seq<T>, k: nat, b: nat)
    requires k >= 1 && b < k
    ensures |Bucket(items, k, b)| == |items| / k + (if b < |items| % k then 1 else 0)
  {
    if items != [] {
      var n := |items| - 1;
      BucketSize(items[..n], k, b);
      DivModStep(n, k);
    }
  }

  /** File `i` is in bucket `i % k`, at position `i / k`: every file is
      dealt, to the bucket its index names. */
  lemma {:induction false} BucketAt<T>(items: seq<T>, k: nat, i: nat)
    requires k >= 1 && i < |items|
    ensures i / k < |Bucket(items, k, i % k)|
    ensures Bucket(items, k, i % k)[i / k] == items[i]
  {
    var n := |items| - 1;
    var prefix := items[..n];
    if i < n {
      BucketAt(prefix, k, i);
    } else {
      BucketSize(prefix, k, i % k);
    }
  }

  /** Position `j` of bucket `b` holds file `b + j * k`: a bucket lists its
      files in input order, one round apart. */
  lemma {:induction false} BucketElement<T>(items: seq<T>, k: nat, b: nat, j: nat)
    requires k >= 1 && b < k && j < |Bucket(items, k, b)|
    ensures Slot(k, b, j) < |items|
    ensures Bucket(items, k, b)[j] == items[Slot(k, b, j)]
  {
    var n := |items| - 1;
    var prefix := items[..n];
    if j < |Bucket(prefix, k, b)| {
      BucketElement(prefix, k, b, j);
    } else {
      BucketSize(prefix, k, b);
      SlotOfIndex(n, k);
    }
  }

  /** File `n` is dealt to position `n / k` of bucket `n % k`. */
  lemma SlotOfIndex(n: nat, k: nat)
    requires k >= 1
    ensures Slot(k, n % k, n / k) == n
  {
  }

  /** Any two buckets differ in size by at most one, and a lower-numbered
      bucket is never the smaller one. */
  lemma BucketsBalanced<T>(items: seq<T>, k: nat, b1: nat, b2: nat)
    requires k >= 1 && b1 < k && b2 < k
    ensures |Bucket(items, k, b1)| <= |Bucket(items, k, b2)| + 1
    ensures b1 <= b2 ==> |Bucket(items, k, b2)| <= |Bucket(items, k, b1)|
  {
    BucketSize(items, k, b1);
    BucketSize(items, k, b2);
  }

  /** Bucket `b` receives a file exactly when the batch has more than `b`
      files. */
  lemma BucketNonEmpty<T>(items: seq<T>, k: nat, b: nat)
    requires k >= 1 && b < k
    ensures Bucket(items, k, b) != [] <==> b < |items|
  {
  }

  /** The dealing pinned by test/lib/Uglifier.js:43-50: three files into
      two buckets. */
  lemma BucketsExample()
    ensures Buckets(["1", "2", "3"], 2) == map[0 := ["1", "3"], 1 := ["2"]]
  {
    var items := ["1", "2", "3"];
    assert items[..2] == ["1", "2"] && items[..2][..1] == ["1"];
    assert Bucket(items, 2, 0) == ["1", "3"];
    assert Bucket(items, 2, 1) == ["2"];
  }
}
