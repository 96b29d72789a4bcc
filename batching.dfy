/** The batcher: how many writes `write_batches!` makes and which records each
    one receives. Batches are popped off the END of the record list. */
module Batching {

  /** `batches`: 0 for a batch size of 0, else the ceiling of `n / b`, which the
      source computes in floating point and is written here in integers. A
      negative batch size is not rejected by the source and is modelled too. */
  function BatchCount(n: nat, b: int): (k: int)
    ensures b == 0 ==> k == 0
    ensures b > 0 ==> k >= 0
    ensures b < 0 ==> k <= 0
  {
    if b == 0 then 0
    else if b > 0 then (n + b - 1) / b
    else -(n / -b)
  }

  /** The count is the ceiling of `n / b`: the least `k` with `n <= k * b` for a
      positive `b`, the greatest `k` with `k * b <= n` for a negative one. */
  lemma BatchCountIsCeiling(n: nat, b: int)
    ensures var k := BatchCount(n, b);
      && (b > 0 ==> (k - 1) * b < n <= k * b)
      && (b < 0 ==> k * b <= n < (k - 1) * b)
  {
    if b > 0 {
      CeilingDivision(n, b);
    } else if b < 0 {
      FloorDivision(n, -b);
    }
  }

  lemma CeilingDivision(n: nat, b: int)
    requires b > 0
    ensures var k := (n + b - 1) / b; 0 <= k && (k - 1) * b < n <= k * b
  {
    var k, r := (n + b - 1) / b, (n + b - 1) % b;
    assert n + b - 1 == k * b + r && 0 <= r < b;
    assert (k - 1) * b == k * b - b;
  }

  lemma FloorDivision(n: nat, m: int)
    requires m > 0
    ensures var q := n / m; 0 <= q && q * m <= n < (q + 1) * m
  {
    var q, r := n / m, n % m;
    assert n == q * m + r && 0 <= r < m;
    assert (q + 1) * m == q * m + m;
  }

  lemma MultiplyMonotone(x: int, y: int, b: int)
    requires x <= y && b > 0
    ensures x * b <= y * b
  {
    assert y * b - x * b == (y - x) * b;
  }

  /** Removing one batch's worth from the front of the count. */
  lemma BatchCountStep(n: nat, b: int)
    requires 0 < b < n
    ensures BatchCount(n, b) == 1 + BatchCount(n - b, b)
  {
    var k, k' := BatchCount(n, b), BatchCount(n - b, b);
    BatchCountIsCeiling(n, b);
    BatchCountIsCeiling(n - b, b);
    assert (k' + 1) * b == k' * b + b;
    assert (k - 1) * b == k * b - b;
    if k <= k' {
      MultiplyMonotone(k, k', b);
    } else if k >= k' + 2 {
      MultiplyMonotone(k' + 1, k - 1, b);
    }
  }

  lemma BatchCountOne(n: nat, b: int)
    requires 0 < n <= b
    ensures BatchCount(n, b) == 1
  {
    var k := BatchCount(n, b);
    BatchCountIsCeiling(n, b);
    if k <= 0 {
      MultiplyMonotone(k, 0, b);
    } else if k >= 2 {
      MultiplyMonotone(1, k - 1, b);
    }
  }

  /** A negative batch size never pops: there is one write of everything when
      the ceiling rounds to zero, and no write at all otherwise. */
  lemma NegativeBatchCount(n: nat, b: int)
    requires b < 0
    ensures BatchCount(n, b) == 0 <==> n < -b
  {
    FloorDivision(n, -b);
    var q := n / -b;
    if q >= 1 {
      MultiplyMonotone(1, q, -b);
    }
  }

  /** How many elements `records.pop(b)` takes. */
  function PopSize<T>(rs: seq<T>, b: nat): nat
  {
    if b < |rs| then b else |rs|
  }

  /** `records.pop(b)`: the last `b` elements (all when fewer), in their order. */
  function Popped<T>(rs: seq<T>, b: nat): seq<T>
  {
    rs[|rs| - PopSize(rs, b)..]
  }

  /** What `records` holds after `records.pop(b)`. */
  function Kept<T>(rs: seq<T>, b: nat): seq<T>
  {
    rs[..|rs| - PopSize(rs, b)]
  }

  /** The subsets that `k` successive pops of `b` hand out, in pop order. */
  function Pops<T>(rs: seq<T>, b: nat, k: nat): (ps: seq<seq<T>>)
    ensures |ps| == k
    decreases k
  {
    if k == 0 then [] else [Popped(rs, b)] + Pops(Kept(rs, b), b, k - 1)
  }

  /** The record list after `k` pops of `b`. */
  function AfterPops<T>(rs: seq<T>, b: nat, k: nat): seq<T>
    decreases k
  {
    if k == 0 then rs else AfterPops(Kept(rs, b), b, k - 1)
  }

  /** Concatenation is associative. */
  lemma AppendAssociative<T>(a: seq<T>, b: seq<T>, c: seq<T>)
    ensures (a + b) + c == a + (b + c)
  {
  }

  /** A non-empty sequence is its front followed by its last element. */
  lemma FrontLast<T>(s: seq<T>)
    requires s != []
    ensures s == s[..|s| - 1] + [s[|s| - 1]]
  {
  }

  /** Growing a prefix by one element. */
  lemma PrefixStep<T>(s: seq<T>, j: nat)
    requires j < |s|
    ensures s[..j + 1] == s[..j] + [s[j]]
  {
  }

  lemma {:induction false} AfterPopsStep<T>(rs: seq<T>, b: nat, i: nat)
    ensures AfterPops(rs, b, i + 1) == Kept(AfterPops(rs, b, i), b)
    decreases i
  {
    if i > 0 {
      AfterPopsStep(Kept(rs, b), b, i - 1);
    }
  }

  /** The `i`-th pop takes the tail of what the first `i` pops left behind. */
  lemma {:induction false} PopsAt<T>(rs: seq<T>, b: nat, k: nat, i: nat)
    requires i < k
    ensures Pops(rs, b, k)[i] == Popped(AfterPops(rs, b, i), b)
    decreases i
  {
    if i > 0 {
      PopsAt(Kept(rs, b), b, k - 1, i - 1);
    }
  }

  /** Enough pops leave the list empty. */
  lemma {:induction false} AfterPopsEmpty<T>(rs: seq<T>, b: nat, k: nat)
    requires b > 0 && |rs| <= k * b
    ensures AfterPops(rs, b, k) == []
    decreases k
  {
    if k > 0 {
      assert (k - 1) * b == k * b - b;
      AfterPopsEmpty(Kept(rs, b), b, k - 1);
    }
  }

  /** Concatenation of a sequence of sequences, front first. */
  function Flatten<T>(xss: seq<seq<T>>): seq<T>
    decreases |xss|
  {
    if xss == [] then [] else xss[0] + Flatten(xss[1..])
  }

  /** The elements of `xs`, last first. */
  function Reversed<T>(xs: seq<T>): (r: seq<T>)
    ensures |r| == |xs|
    ensures forall i :: 0 <= i < |xs| ==> r[i] == xs[|xs| - 1 - i]
    decreases |xs|
  {
    if xs == [] then [] else Reversed(xs[1..]) + [xs[0]]
  }

  lemma {:induction false} FlattenSnoc<T>(xss: seq<seq<T>>, ys: seq<T>)
    ensures Flatten(xss + [ys]) == Flatten(xss) + ys
    decreases |xss|
  {
    if xss != [] {
      assert (xss + [ys])[1..] == xss[1..] + [ys];
      FlattenSnoc(xss[1..], ys);
    }
  }

  /** Concatenating the popped subsets in reverse pop order gives back the
      original list: nothing is dropped, nothing is written twice. */
  lemma {:induction false} PopsPartition<T>(rs: seq<T>, b: nat, k: nat)
    requires b > 0 && |rs| <= k * b
    ensures Flatten(Reversed(Pops(rs, b, k))) == rs
    decreases k
  {
    if k == 0 {
    } else {
      assert (k - 1) * b == k * b - b;
      var ps := Pops(rs, b, k);
      PopsPartition(Kept(rs, b), b, k - 1);
      assert ps[1..] == Pops(Kept(rs, b), b, k - 1);
      FlattenSnoc(Reversed(ps[1..]), Popped(rs, b));
      assert Kept(rs, b) + Popped(rs, b) == rs;
    }
  }

  /** Every subset but the last has exactly `b` records. */
  ghost predicate FullBatches<T>(ps: seq<seq<T>>, b: nat)
  {
    forall j :: 0 <= j < |ps| - 1 ==> |ps[j]| == b
  }

  /** The tail subsets of a pop sequence: all full but the last, which is the front. */
  ghost predicate SizedPops<T>(rs: seq<T>, b: nat, ps: seq<seq<T>>)
  {
    && |ps| >= 1
    && FullBatches(ps, b)
    && 1 <= |ps[|ps| - 1]| <= b
    && |ps[|ps| - 1]| <= |rs|
    && ps[|ps| - 1] == rs[..|ps[|ps| - 1]|]
  }

  /** One more full pop in front of a well-sized pop sequence keeps it well sized. */
  lemma PopsExtend<T>(rs: seq<T>, b: nat, k: nat)
    requires 0 < b < |rs| && k >= 2
    requires SizedPops(Kept(rs, b), b, Pops(Kept(rs, b), b, k - 1))
    ensures SizedPops(rs, b, Pops(rs, b, k))
  {
    var rest := Kept(rs, b);
    var ps, qs := Pops(rs, b, k), Pops(rest, b, k - 1);
    assert ps == [Popped(rs, b)] + qs;
    assert ps[k - 1] == qs[k - 2];
    assert rest == rs[..|rest|];
    assert rest[..|qs[k - 2]|] == rs[..|qs[k - 2]|];
    forall j | 0 <= j < |ps| - 1 ensures |ps[j]| == b {
      if j > 0 { assert ps[j] == qs[j - 1]; }
    }
  }

  /** With `k` the batch count, every subset but the last popped one has exactly
      `b` records, and the last holds the 1 to `b` records left at the front. */
  lemma {:induction false} PopsSizes<T>(rs: seq<T>, b: nat, k: int)
    requires b > 0 && |rs| > 0 && k == BatchCount(|rs|, b)
    ensures k >= 1 && SizedPops(rs, b, Pops(rs, b, k))
    decreases |rs|
  {
    if |rs| <= b {
      BatchCountOne(|rs|, b);
      assert Pops(rs, b, k) == [rs];
    } else {
      BatchCountStep(|rs|, b);
      PopsSizes(Kept(rs, b), b, k - 1);
      PopsExtend(rs, b, k);
    }
  }

  /** The subsets `write_batches!` hands to `write!`, in call order. */
  function Plan<T>(rs: seq<T>, b: int): seq<seq<T>>
  {
    var k := BatchCount(|rs|, b);
    if k == 0 then [rs]
    else if k < 0 then []
    else Pops(rs, b, k)
  }

  /** What the batch plan looks like for a non-empty list, by batch size. */
  lemma PlanShape<T>(rs: seq<T>, b: int)
    requires |rs| > 0
    ensures b == 0 ==> Plan(rs, b) == [rs]
    ensures b < 0 ==> Plan(rs, b) == if |rs| < -b then [rs] else []
    ensures b > 0 ==> var ps := Plan(rs, b);
      && |ps| == BatchCount(|rs|, b) == (|rs| + b - 1) / b
      && Flatten(Reversed(ps)) == rs
      && (forall j :: 0 <= j < |ps| ==> 0 < |ps[j]| <= b)
      && FullBatches(ps, b)
  {
    if b < 0 {
      NegativeBatchCount(|rs|, b);
    } else if b > 0 {
      var k := BatchCount(|rs|, b);
      PopsSizes(rs, b, k);
      forall j | 0 <= j < k ensures 0 < |Pops(rs, b, k)[j]| <= b {
        if j < k - 1 { assert |Pops(rs, b, k)[j]| == b; }
      }
      PopsPartition(rs, b, BatchCount(|rs|, b));
    }
  }
}
