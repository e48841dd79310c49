/**
 * The index under the topic map (uthash.h): elements carry a handle that links
 * them in application order and in the chain of their bucket; the bucket array
 * doubles when a chain gets long.  The hash function is a parameter.
 *
 * HASH_TO_BKT masks with num_buckets - 1; since num_buckets is a power of two
 * (kept as part of the invariant) that is the remainder, in which the bucket an
 * element belongs to is specified.
 */
module HashIndexes {

  /** An element with its UT_hash_handle. */
  class Elem {
    const key: string
    const hashv: nat
    var prev: Elem?
    var next: Elem?
    var hhPrev: Elem?
    var hhNext: Elem?

    constructor (key: string, hashv: nat)
      ensures this.key == key && this.hashv == hashv
    {
      this.key, this.hashv := key, hashv;
      prev, next, hhPrev, hhNext := null, null, null, null;
    }
  }

  const INITIAL_BUCKETS: nat := 32
  const INITIAL_LOG2: nat := 5
  const CAPACITY_THRESH: nat := 10

  function Pow2(k: nat): (r: nat)
    ensures r > 0
  {
    if k == 0 then 1 else 2 * Pow2(k - 1)
  }

  /** The bucket a hash value belongs to. */
  function BucketOf(hashv: nat, n: nat): (b: nat)
    requires n > 0
    ensures b < n
  {
    hashv % n
  }

  /** Bitwise and. */
  function BitAnd(a: nat, b: nat): nat
    decreases a
  {
    if a == 0 || b == 0 then 0 else 2 * BitAnd(a / 2, b / 2) + (if a % 2 == 1 && b % 2 == 1 then 1 else 0)
  }

  /** Shift to the right. */
  function ShiftRight(a: nat, k: nat): nat
    decreases k
  {
    if k == 0 then a else ShiftRight(a / 2, k - 1)
  }

  /** HASH_TO_BKT. */
  function MaskedBucket(hashv: nat, n: nat): nat
    requires n > 0
  {
    BitAnd(hashv, n - 1)
  }

  /** Masking with one less than a power of two takes the remainder, so HASH_TO_BKT finds the bucket. */
  lemma {:induction false} MaskIsRemainder(a: nat, k: nat)
    ensures BitAnd(a, Pow2(k) - 1) == BucketOf(a, Pow2(k)) == a % Pow2(k)
    decreases k
  {
    if k > 0 {
      var p := Pow2(k - 1);
      MaskIsRemainder(a / 2, k - 1);
      assert (2 * p - 1) / 2 == p - 1 && (2 * p - 1) % 2 == 1;
      HalfDivMod(a, p);
      if a > 0 && p == 1 {
        assert BitAnd(a / 2, 0) == 0;
      }
    }
  }

  /** Shifting by `k` divides by the power of two. */
  lemma {:induction false} ShiftIsQuotient(a: nat, k: nat)
    ensures ShiftRight(a, k) == a / Pow2(k)
    decreases k
  {
    if k > 0 {
      ShiftIsQuotient(a / 2, k - 1);
      HalfDivMod(a, Pow2(k - 1));
    }
  }

  lemma HalfDivMod(a: nat, p: nat)
    requires p > 0
    ensures a / (2 * p) == (a / 2) / p && a % (2 * p) == 2 * ((a / 2) % p) + a % 2
  {
    var q, r := (a / 2) / p, (a / 2) % p;
    assert a / 2 == p * q + r;
    Twice(p, q);
    DivModUnique(a, 2 * p, q, 2 * r + a % 2);
  }

  lemma Twice(p: nat, q: nat)
    ensures (2 * p) * q == 2 * (p * q)
  {
  }

  lemma DivModUnique(a: nat, n: nat, q: nat, r: nat)
    requires n > 0 && r < n && a == n * q + r
    ensures a / n == q && a % n == r
  {
    ModUnique(a, n, q, r);
    if a / n > q {
      MulAbove(n, a / n, q);
    } else if a / n < q {
      MulAbove(n, q, a / n);
    }
  }

  /** When the number of buckets doubles, an item stays or moves up by the old number. */
  lemma BucketSplits(hashv: nat, n: nat, m: nat)
    requires n > 0 && m == 2 * n
    ensures BucketOf(hashv, m) == BucketOf(hashv, n) || BucketOf(hashv, m) == BucketOf(hashv, n) + n
  {
    hide BucketOf;
    var q := DivMod(hashv, m);
    SplitMod(hashv, n, m, q, BucketOf(hashv, m));
  }

  lemma DivMod(a: nat, m: nat) returns (q: nat)
    requires m > 0
    ensures a == m * q + BucketOf(a, m)
  {
    q := a / m;
  }

  lemma SplitMod(a: nat, n: nat, m: nat, q: nat, r: nat)
    requires n > 0 && m == 2 * n && r < m && a == m * q + r
    ensures BucketOf(a, n) == if r < n then r else r - n
  {
    Regroup(n, m, q);
    if r < n {
      ModUnique(a, n, 2 * q, r);
    } else {
      ModUnique(a, n, 2 * q + 1, r - n);
    }
  }

  lemma Regroup(n: nat, m: nat, q: nat)
    requires m == 2 * n
    ensures m * q == n * (2 * q) && n * (2 * q + 1) == n * (2 * q) + n
  {
  }

  lemma MulAbove(n: nat, x: nat, y: nat)
    requires x > y
    ensures n * x >= n * y + n
  {
    assert n * x == n * (y + 1) + n * (x - y - 1);
  }

  lemma RemainderUnique(n: nat, q: nat, r: nat, q': nat, r': nat)
    requires r < n && r' < n && n * q + r == n * q' + r'
    ensures r == r'
  {
    if q' > q {
      MulAbove(n, q', q);
    } else if q' < q {
      MulAbove(n, q, q');
    }
  }

  lemma ModUnique(a: nat, n: nat, q: nat, r: nat)
    requires n > 0 && r < n && a == n * q + r
    ensures a % n == r
  {
    RemainderUnique(n, q, r, a / n, a % n);
  }

  // ----- chains and the bucket array -----

  /** `h` is the head of exactly the chain `c`. */
  ghost predicate ChainLinked(h: Elem?, c: seq<Elem>)
    reads c`hhPrev, c`hhNext
  {
    && (forall i, j :: 0 <= i < j < |c| ==> c[i] != c[j])
    && h == (if c == [] then null else c[0])
    && (c != [] ==> c[0].hhPrev == null && c[|c| - 1].hhNext == null)
    && (forall i :: 0 <= i < |c| - 1 ==> c[i].hhNext == c[i + 1])
    && (forall i :: 1 <= i < |c| ==> c[i].hhPrev == c[i - 1])
  }

  /** The chains hold exactly `members`, each in the bucket its hash demands. */
  ghost predicate Placed(chains: seq<seq<Elem>>, members: set<Elem>) {
    && |chains| > 0
    && (forall b, e :: 0 <= b < |chains| && e in chains[b] ==> e in members && BucketOf(e.hashv, |chains|) == b)
    && (forall e :: e in members ==> e in chains[BucketOf(e.hashv, |chains|)])
  }

  /**
   * The bucket array represents `chains`: the bucket half of HASH_FSCK.  The fields
   * hh_head, count and expand_mult of UT_hash_bucket are three parallel arrays.
   */
  ghost predicate Table(heads: array<Elem?>, counts: array<nat>, chains: seq<seq<Elem>>, members: set<Elem>)
    reads heads, counts, members`hhPrev, members`hhNext
  {
    && heads.Length == counts.Length == |chains| && Placed(chains, members)
    && (forall b :: 0 <= b < |chains| ==> counts[b] == |chains[b]|)
    && (forall b :: 0 <= b < |chains| ==> ChainLinked(heads[b], chains[b]))
  }

  method PrependChain(h: Elem?, e: Elem, ghost c: seq<Elem>)
    requires ChainLinked(h, c) && e !in c
    modifies e`hhNext, e`hhPrev, c`hhPrev
    ensures ChainLinked(e, [e] + c)
    ensures forall o: Elem :: o in c && o != h ==> o.hhPrev == old(o.hhPrev)
  {
    e.hhNext := h;
    e.hhPrev := null;
    if h != null {
      h.hhPrev := e;
    }
  }

  lemma PlacedPrepend(chains: seq<seq<Elem>>, members: set<Elem>, b: nat, e: Elem)
    requires Placed(chains, members) && b < |chains| && b == BucketOf(e.hashv, |chains|)
    ensures Placed(chains[b := [e] + chains[b]], members + {e})
  {
    hide BucketOf;
    var cs, n := chains[b := [e] + chains[b]], |chains|;
    forall o | o in members + {e} ensures o in cs[BucketOf(o.hashv, n)] {
      if BucketOf(o.hashv, n) == b {
        assert o == e || o in chains[b];
      }
    }
    forall j, o | 0 <= j < n && o in cs[j] ensures o in members + {e} && BucketOf(o.hashv, n) == j {
      assert j == b ==> o == e || o in chains[b];
    }
  }

  lemma PlacedChain(chains: seq<seq<Elem>>, members: set<Elem>, b: nat)
    requires Placed(chains, members) && b < |chains|
    ensures forall e :: e in chains[b] ==> e in members && BucketOf(e.hashv, |chains|) == b
  {
  }

  /** The linking half of HASH_ADD_TO_BKT and of the inner loop of HASH_EXPAND_BUCKETS. */
  method LinkFront(heads: array<Elem?>, counts: array<nat>, b: nat, e: Elem,
                   ghost chains: seq<seq<Elem>>, ghost members: set<Elem>)
    requires Table(heads, counts, chains, members) && e !in members
    requires b < |chains| && b == BucketOf(e.hashv, |chains|)
    modifies heads, counts, e`hhNext, e`hhPrev, members`hhPrev
    ensures Table(heads, counts, chains[b := [e] + chains[b]], members + {e})
  {
    hide ChainLinked, BucketOf, Placed;
    PlacedChain(chains, members, b);
    PlacedPrepend(chains, members, b, e);
    counts[b] := counts[b] + 1;
    PrependChain(heads[b], e, chains[b]);
    heads[b] := e;
    forall j | 0 <= j < |chains| && j != b ensures ChainLinked(heads[j], chains[j]) {
      assert old(ChainLinked(heads[j], chains[j]));
      PlacedChain(chains, members, j);
      assert heads[j] == old(heads[j]);
      assert forall o: Elem :: o in chains[j] ==> o.hhPrev == old(o.hhPrev) && o.hhNext == old(o.hhNext);
    }
  }

  method DetachFromChain(h: Elem?, e: Elem, ghost c: seq<Elem>, ghost k: nat) returns (h': Elem?)
    requires ChainLinked(h, c) && k < |c| && c[k] == e
    modifies c`hhPrev, c`hhNext
    ensures ChainLinked(h', c[..k] + c[k + 1..])
  {
    assert e.hhPrev == if k == 0 then null else c[k - 1];
    assert e.hhNext == if k + 1 == |c| then null else c[k + 1];
    h' := h;
    if h == e {
      h' := e.hhNext;
    }
    if e.hhPrev != null {
      e.hhPrev.hhNext := e.hhNext;
    }
    if e.hhNext != null {
      e.hhNext.hhPrev := e.hhPrev;
    }
  }

  ghost function Without<A>(s: seq<A>, k: nat): seq<A>
    requires k < |s|
  {
    s[..k] + s[k + 1..]
  }

  /** Taking out one place of a list without repetitions takes out exactly that element. */
  lemma WithoutOnce<A>(s: seq<A>, k: nat)
    requires k < |s| && forall i, j :: 0 <= i < j < |s| ==> s[i] != s[j]
    ensures forall o :: o in Without(s, k) <==> o in s && o != s[k]
  {
    var r := Without(s, k);
    forall o | o in s && o != s[k] ensures o in r {
      var i :| 0 <= i < |s| && s[i] == o;
      assert o == r[if i < k then i else i - 1];
    }
    forall o | o in r ensures o in s && o != s[k] {
      var i :| 0 <= i < |r| && r[i] == o;
      assert o == s[if i < k then i else i + 1];
    }
  }

  lemma ChainDistinct(h: Elem?, c: seq<Elem>)
    requires ChainLinked(h, c)
    ensures forall i, j :: 0 <= i < j < |c| ==> c[i] != c[j]
  {
  }

  lemma PlacedRemove(chains: seq<seq<Elem>>, members: set<Elem>, b: nat, c: seq<Elem>, e: Elem)
    requires Placed(chains, members) && b < |chains| && e in chains[b]
    requires forall o :: o in c <==> o in chains[b] && o != e
    ensures Placed(chains[b := c], members - {e})
  {
    hide BucketOf;
    var cs, n := chains[b := c], |chains|;
    forall o | o in members - {e} ensures o in cs[BucketOf(o.hashv, n)] {
      assert o in chains[BucketOf(o.hashv, n)];
    }
    forall j, o | 0 <= j < n && o in cs[j] ensures o in members - {e} && BucketOf(o.hashv, n) == j {
      assert o in chains[j];
      assert BucketOf(e.hashv, n) == b;
    }
  }

  /** HASH_DEL_IN_BKT. */
  method Unlink(heads: array<Elem?>, counts: array<nat>, b: nat, e: Elem,
                ghost chains: seq<seq<Elem>>, ghost members: set<Elem>, ghost k: nat)
    requires Table(heads, counts, chains, members)
    requires b < |chains| && k < |chains[b]| && e == chains[b][k]
    modifies heads, counts, members`hhPrev, members`hhNext
    ensures Table(heads, counts, chains[b := Without(chains[b], k)], members - {e})
  {
    hide ChainLinked, BucketOf, Placed;
    PlacedChain(chains, members, b);
    ChainDistinct(heads[b], chains[b]);
    WithoutOnce(chains[b], k);
    PlacedRemove(chains, members, b, Without(chains[b], k), e);
    counts[b] := counts[b] - 1;
    heads[b] := DetachFromChain(heads[b], e, chains[b], k);
    forall j | 0 <= j < |chains| && j != b ensures ChainLinked(heads[j], chains[j]) {
      assert old(ChainLinked(heads[j], chains[j]));
      PlacedChain(chains, members, j);
      assert heads[j] == old(heads[j]);
      assert forall o: Elem :: o in chains[j] ==> o.hhPrev == old(o.hhPrev) && o.hhNext == old(o.hhNext);
    }
  }

  // ----- counting -----

  function SumLen(chains: seq<seq<Elem>>): nat {
    if chains == [] then 0 else |chains[0]| + SumLen(chains[1..])
  }

  function Excess(n: nat, ideal: nat): nat { if n > ideal then n - ideal else 0 }

  /** Sum over the buckets of the items beyond the ideal chain length. */
  function SumExcess(chains: seq<seq<Elem>>, ideal: nat): nat {
    if chains == [] then 0 else Excess(|chains[0]|, ideal) + SumExcess(chains[1..], ideal)
  }

  lemma {:induction false} SumsUpdate(chains: seq<seq<Elem>>, b: nat, c: seq<Elem>, ideal: nat)
    requires b < |chains|
    ensures SumLen(chains[b := c]) == SumLen(chains) - |chains[b]| + |c|
    ensures SumExcess(chains[b := c], ideal)
         == SumExcess(chains, ideal) - Excess(|chains[b]|, ideal) + Excess(|c|, ideal)
  {
    var cs := chains[b := c];
    if b == 0 {
      assert cs[1..] == chains[1..];
    } else {
      assert cs[1..] == chains[1..][b - 1 := c];
      SumsUpdate(chains[1..], b - 1, c, ideal);
    }
  }

  lemma {:induction false} SumsZero(chains: seq<seq<Elem>>, ideal: nat)
    requires forall b :: 0 <= b < |chains| ==> chains[b] == []
    ensures SumLen(chains) == 0 && SumExcess(chains, ideal) == 0
  {
    if chains != [] {
      SumsZero(chains[1..], ideal);
    }
  }

  /** expand_mult of a bucket after `n` items were moved into it. */
  function MultAfter(n: nat, ideal: nat): nat {
    if n == 0 then 0 else
      var m := MultAfter(n - 1, ideal);
      if n > ideal && n > m * ideal then m + 1 else m
  }

  /** How many chains of the ideal length a chain of `n` items fills, a partial one included. */
  function ChainsOf(n: nat, ideal: nat): nat
    requires ideal > 0
  {
    if n == 0 then 0 else (n - 1) / ideal + 1
  }

  /** `c` chains of length `ideal` are the fewest that take `n` items. */
  lemma ChainsBracket(n: nat, ideal: nat)
    requires ideal > 0
    ensures ChainsOf(n, ideal) * ideal >= n
    ensures n > 0 ==> ChainsOf(n, ideal) > 0 && (ChainsOf(n, ideal) - 1) * ideal < n
  {
  }

  lemma Product(a: nat, b: nat, k: nat)
    ensures a <= b ==> a * k <= b * k
  {
    if a <= b {
      assert b * k == a * k + (b - a) * k;
    }
  }

  /** One more item: `c` and `d` are the ideal chains filled with and without it. */
  lemma MultStep(n: nat, ideal: nat, c: nat, d: nat, m: nat)
    requires n > ideal + 1 && ideal > 0 && c > 0 && d > 0
    requires c * ideal >= n > (c - 1) * ideal && d * ideal >= n - 1 > (d - 1) * ideal
    requires m == if n - 1 - ideal < d then n - 1 - ideal else d
    ensures (if n > m * ideal then m + 1 else m) == if n - ideal < c then n - ideal else c
  {
    Product(m, d - 1, ideal);
    Product(c, d, ideal);
    Product(d, c - 1, ideal);
    Product(d + 1, c - 1, ideal);
    assert (d + 1) * ideal == d * ideal + ideal;
    Product(c, d - 1, ideal);
  }

  /**
   * In terms of the chain length: no item beyond the ideal, expand_mult 0; beyond it, the
   * number of ideal chains the bucket fills, unless fewer items than that exceeded the ideal.
   */
  lemma {:induction false} MultAfterIs(n: nat, ideal: nat)
    ensures MultAfter(n, ideal) ==
      if n <= ideal then 0
      else if ideal == 0 || n - ideal < ChainsOf(n, ideal) then n - ideal
      else ChainsOf(n, ideal)
  {
    hide ChainsOf;
    if n > 0 {
      MultAfterIs(n - 1, ideal);
      if n > ideal > 0 {
        ChainsBracket(n, ideal);
        ChainsBracket(n - 1, ideal);
        if n == ideal + 1 {
          Product(ChainsOf(n, ideal), 1, ideal);
        } else {
          MultStep(n, ideal, ChainsOf(n, ideal), ChainsOf(n - 1, ideal), MultAfter(n - 1, ideal));
        }
      }
    }
  }

  // ----- HASH_EXPAND_BUCKETS -----

  /** The forward links alone, which is all the redistribution loop reads. */
  ghost predicate NextLinked(h: Elem?, c: seq<Elem>)
    reads c`hhNext
  {
    && (forall i, j :: 0 <= i < j < |c| ==> c[i] != c[j])
    && h == (if c == [] then null else c[0])
    && (c != [] ==> c[|c| - 1].hhNext == null)
    && (forall i :: 0 <= i < |c| - 1 ==> c[i].hhNext == c[i + 1])
  }

  ghost predicate Counters(mults: array<nat>, chains: seq<seq<Elem>>, members: set<Elem>, ideal: nat, nonideal: nat)
    reads mults
  {
    && SumLen(chains) == |members|
    && nonideal == SumExcess(chains, ideal)
    && mults.Length == |chains|
    && (forall b :: 0 <= b < |chains| ==> mults[b] == MultAfter(|chains[b]|, ideal))
  }

  /** One turn of the inner loop: an item moves to the front of its new chain. */
  method MoveItem(e: Elem, heads: array<Elem?>, counts: array<nat>, mults: array<nat>, ideal: nat, nonideal: nat,
                  ghost chains: seq<seq<Elem>>, ghost members: set<Elem>, ghost log2: nat)
    returns (nonideal': nat, ghost chains': seq<seq<Elem>>)
    requires Table(heads, counts, chains, members) && Counters(mults, chains, members, ideal, nonideal)
    requires e !in members && counts != mults && heads.Length == Pow2(log2)
    modifies heads, counts, mults, e`hhNext, e`hhPrev, members`hhPrev
    ensures Table(heads, counts, chains', members + {e}) && |chains'| == |chains|
    ensures Counters(mults, chains', members + {e}, ideal, nonideal')
  {
    hide ChainLinked, BucketOf, Placed, BitAnd, Pow2;
    PlacedSize(chains, members);
    MaskIsRemainder(e.hashv, log2);
    var b := MaskedBucket(e.hashv, heads.Length);
    nonideal' := nonideal;
    if counts[b] + 1 > ideal {
      nonideal' := nonideal' + 1;
      if counts[b] + 1 > mults[b] * ideal {
        mults[b] := mults[b] + 1;
      }
    }
    chains' := chains[b := [e] + chains[b]];
    SumsUpdate(chains, b, [e] + chains[b], ideal);
    LinkFront(heads, counts, b, e, chains, members);
  }

  lemma PlacedSize(chains: seq<seq<Elem>>, members: set<Elem>)
    requires Placed(chains, members)
    ensures |chains| > 0
  {
  }

  method MoveChain(h: Elem?, ghost c: seq<Elem>, heads: array<Elem?>, counts: array<nat>, mults: array<nat>,
                   ideal: nat, nonideal: nat, ghost chains: seq<seq<Elem>>, ghost members: set<Elem>, ghost log2: nat)
    returns (nonideal': nat, ghost chains': seq<seq<Elem>>, ghost members': set<Elem>)
    requires NextLinked(h, c) && forall e :: e in c ==> e !in members
    requires Table(heads, counts, chains, members) && Counters(mults, chains, members, ideal, nonideal)
    requires counts != mults && heads.Length == Pow2(log2)
    modifies heads, counts, mults, c`hhNext, c`hhPrev, members`hhPrev
    ensures Table(heads, counts, chains', members') && |chains'| == |chains|
    ensures Counters(mults, chains', members', ideal, nonideal')
    ensures members' == members + set e | e in c
  {
    hide Table, Counters, Pow2;
    nonideal', chains', members' := nonideal, chains, members;
    var thh := h;
    ghost var rest := c;
    while thh != null
      invariant NextLinked(thh, rest)
      invariant forall e :: e in rest ==> e in c && e !in members'
      invariant members' == members + (set e | e in c && e !in rest)
      invariant Table(heads, counts, chains', members') && |chains'| == |chains|
      invariant Counters(mults, chains', members', ideal, nonideal')
      decreases |rest|
    {
      var nxt := thh.hhNext;
      assert thh == rest[0] && nxt == if |rest| == 1 then null else rest[1];
      nonideal', chains' := MoveItem(thh, heads, counts, mults, ideal, nonideal', chains', members', log2);
      members' := members' + {thh};
      rest := rest[1..];
      thh := nxt;
    }
    assert rest == [];
  }

  lemma ChainNext(h: Elem?, c: seq<Elem>)
    requires ChainLinked(h, c)
    ensures NextLinked(h, c)
  {
  }

  /** The integer form of ceil(items / (2 * buckets)), by shift and mask. */
  function IdealChain(items: nat, log2: nat): nat {
    ShiftRight(items, log2 + 1) + (if BitAnd(items, Pow2(log2 + 1) - 1) != 0 then 1 else 0)
  }

  lemma IdealChainIsCeiling(items: nat, log2: nat)
    ensures var m := Pow2(log2 + 1); var k := IdealChain(items, log2);
      m * k >= items && (k > 0 ==> m * (k - 1) < items)
  {
    hide Pow2, BitAnd, ShiftRight;
    var m := Pow2(log2 + 1);
    MaskIsRemainder(items, log2 + 1);
    ShiftIsQuotient(items, log2 + 1);
    CeilingOf(items, m);
  }

  lemma CeilingOf(items: nat, m: nat)
    requires m > 0
    ensures var k := items / m + (if items % m != 0 then 1 else 0); m * k >= items && (k > 0 ==> m * (k - 1) < items)
  {
    assert items == m * (items / m) + items % m;
    assert m * (items / m + 1) == m * (items / m) + m;
  }

  /** A zeroed bucket array. */
  method NewBuckets(n: nat, ghost ideal: nat)
    returns (heads: array<Elem?>, counts: array<nat>, mults: array<nat>, ghost chains: seq<seq<Elem>>)
    requires n > 0
    ensures fresh(heads) && fresh(counts) && fresh(mults) && counts != mults
    ensures Table(heads, counts, chains, {}) && |chains| == n
    ensures Counters(mults, chains, {}, ideal, 0)
  {
    heads := new Elem?[n](_ => null);
    counts := new nat[n](_ => 0);
    mults := new nat[n](_ => 0);
    chains := seq(n, _ => []);
    SumsZero(chains, ideal);
  }

  /** The items of the buckets below `i`. */
  ghost function Below(members: set<Elem>, n: nat, i: nat): set<Elem>
    requires n > 0
  {
    set e | e in members && BucketOf(e.hashv, n) < i
  }

  lemma BelowNext(chains: seq<seq<Elem>>, members: set<Elem>, i: nat)
    requires Placed(chains, members) && i < |chains|
    ensures Below(members, |chains|, i + 1) == Below(members, |chains|, i) + set e | e in chains[i]
    ensures forall b, e :: i <= b < |chains| && e in chains[b] ==> e in members && e !in Below(members, |chains|, i)
    ensures forall b, e :: i < b < |chains| && e in chains[b] ==> e !in chains[i]
    ensures Below(members, |chains|, i) <= members
  {
    hide BucketOf;
    var n := |chains|;
    forall e | e in members && BucketOf(e.hashv, n) == i ensures e in chains[i] {
    }
    forall e | e in chains[i] ensures e in members && BucketOf(e.hashv, n) == i {
    }
  }

  lemma BelowEnds(members: set<Elem>, n: nat)
    requires n > 0
    ensures Below(members, n, 0) == {} && Below(members, n, n) == members
  {
    hide BucketOf;
  }

  /** The old buckets from `i` on are not redistributed yet. */
  ghost predicate Pending(heads: array<Elem?>, chains: seq<seq<Elem>>, members: set<Elem>, i: nat)
    reads heads, members`hhNext
  {
    && heads.Length == |chains| && Placed(chains, members)
    && (forall b :: i <= b < |chains| ==> NextLinked(heads[b], chains[b]))
  }

  lemma TablePending(heads: array<Elem?>, counts: array<nat>, chains: seq<seq<Elem>>, members: set<Elem>)
    requires Table(heads, counts, chains, members)
    ensures Pending(heads, chains, members, 0)
  {
    hide ChainLinked, NextLinked;
    forall b | 0 <= b < |chains| ensures NextLinked(heads[b], chains[b]) {
      ChainNext(heads[b], chains[b]);
    }
  }

  /** One turn of the outer loop: old bucket `i` is emptied into the new array. */
  method MoveBucket(heads: array<Elem?>, i: nat, ghost chains: seq<seq<Elem>>, ghost members: set<Elem>,
                    heads': array<Elem?>, counts': array<nat>, mults': array<nat>, ideal: nat, nonideal: nat,
                    ghost chains': seq<seq<Elem>>, ghost moved: set<Elem>, ghost log2: nat)
    returns (nonideal': nat, ghost chains'': seq<seq<Elem>>, ghost moved': set<Elem>)
    requires Pending(heads, chains, members, i) && i < |chains|
    requires moved == Below(members, |chains|, i)
    requires Table(heads', counts', chains', moved) && Counters(mults', chains', moved, ideal, nonideal)
    requires counts' != mults' && heads' != heads && heads'.Length == Pow2(log2)
    modifies heads', counts', mults', members`hhNext, members`hhPrev
    ensures Pending(heads, chains, members, i + 1) && |chains''| == |chains'|
    ensures moved' == Below(members, |chains|, i + 1)
    ensures Table(heads', counts', chains'', moved') && Counters(mults', chains'', moved', ideal, nonideal')
  {
    hide Table, Counters, NextLinked, Below, Placed, Pow2;
    BelowNext(chains, members, i);
    nonideal', chains'', moved' :=
      MoveChain(heads[i], chains[i], heads', counts', mults', ideal, nonideal, chains', moved, log2);
    forall b | i < b < |chains| ensures NextLinked(heads[b], chains[b]) {
      assert old(NextLinked(heads[b], chains[b]));
      assert forall o: Elem :: o in chains[b] ==> o.hhNext == old(o.hhNext);
    }
  }

  /** The two redistribution loops: every item ends in the chain its hash demands under the doubled count. */
  method Redistribute(heads: array<Elem?>, ideal: nat, ghost counts: array<nat>,
                      ghost chains: seq<seq<Elem>>, ghost members: set<Elem>, ghost log2: nat)
    returns (heads': array<Elem?>, counts': array<nat>, mults': array<nat>,
            nonideal: nat, ghost chains': seq<seq<Elem>>)
    requires Table(heads, counts, chains, members) && 2 * |chains| == Pow2(log2)
    modifies members`hhPrev, members`hhNext
    ensures fresh(heads') && fresh(counts') && fresh(mults') && counts' != mults'
    ensures Table(heads', counts', chains', members) && |chains'| == 2 * |chains|
    ensures Counters(mults', chains', members, ideal, nonideal)
  {
    hide Pow2;
    var n := heads.Length;
    TablePending(heads, counts, chains, members);
    BelowEnds(members, n);
    nonideal := 0;
    heads', counts', mults', chains' := NewBuckets(2 * n, ideal);
    ghost var moved: set<Elem> := {};
    hide *;
    for i := 0 to n
      invariant fresh(heads') && fresh(counts') && fresh(mults') && counts' != mults'
      invariant Pending(heads, chains, members, i) && |chains'| == 2 * n == heads'.Length
      invariant moved == Below(members, n, i)
      invariant Table(heads', counts', chains', moved) && Counters(mults', chains', moved, ideal, nonideal)
    {
      nonideal, chains', moved :=
        MoveBucket(heads, i, chains, members, heads', counts', mults', ideal, nonideal, chains', moved, log2);
    }
  }

  /** Doubling: every item of old bucket `b` is in new bucket `b` or `b` + old size. */
  lemma DoublingSplits(old': seq<seq<Elem>>, new': seq<seq<Elem>>, members: set<Elem>, b: nat, e: Elem)
    requires Placed(old', members) && Placed(new', members) && |new'| == 2 * |old'|
    requires b < |old'| && e in old'[b]
    ensures e in new'[b] || e in new'[b + |old'|]
  {
    BucketSplits(e.hashv, |old'|, |new'|);
    assert e in new'[BucketOf(e.hashv, |new'|)];
  }

  // ----- application order -----

  ghost predicate OrderLinked(head: Elem?, tail: Elem?, s: seq<Elem>)
    reads s`prev, s`next
  {
    && (forall i, j :: 0 <= i < j < |s| ==> s[i] != s[j])
    && head == (if s == [] then null else s[0])
    && (s != [] ==> tail == s[|s| - 1] && s[0].prev == null && s[|s| - 1].next == null)
    && (forall i :: 0 <= i < |s| - 1 ==> s[i].next == s[i + 1])
    && (forall i :: 1 <= i < |s| ==> s[i].prev == s[i - 1])
  }

  /** HASH_APPEND_LIST. */
  method AppendOrder(head: Elem, tail: Elem, e: Elem, ghost s: seq<Elem>)
    requires OrderLinked(head, tail, s) && s != [] && e !in s
    modifies s`next, e`prev, e`next
    ensures OrderLinked(head, e, s + [e])
  {
    e.next := null;
    e.prev := tail;
    tail.next := e;
  }

  /** The patch-up of HASH_DELETE_HH when the element is not the only one. */
  method DetachOrder(head: Elem, tail: Elem, e: Elem, ghost s: seq<Elem>, ghost k: nat)
    returns (head': Elem?, tail': Elem?)
    requires OrderLinked(head, tail, s) && k < |s| && e == s[k] && |s| > 1
    modifies s`prev, s`next
    ensures OrderLinked(head', tail', Without(s, k))
  {
    assert e.prev == if k == 0 then null else s[k - 1];
    assert e.next == if k + 1 == |s| then null else s[k + 1];
    head', tail' := head, tail;
    if e == tail {
      tail' := e.prev;
    }
    if e.prev != null {
      e.prev.next := e.next;
    } else {
      head' := e.next;
    }
    if e.next != null {
      e.next.prev := e.prev;
    }
  }

  lemma OrderHead(head: Elem?, tail: Elem?, s: seq<Elem>, k: nat)
    requires OrderLinked(head, tail, s) && k < |s|
    ensures head != null && tail != null
    ensures s[k].next == if k + 1 == |s| then null else s[k + 1]
    ensures s[k].prev == null && s[k].next == null <==> |s| == 1
  {
    assert s[k].prev == if k == 0 then null else s[k - 1];
  }

  ghost function Members(s: seq<Elem>): set<Elem> {
    set e | e in s
  }

  lemma {:induction false} MembersSize(s: seq<Elem>)
    requires forall i, j :: 0 <= i < j < |s| ==> s[i] != s[j]
    ensures |Members(s)| == |s|
  {
    if s != [] {
      MembersSize(s[1..]);
      assert Members(s) == {s[0]} + Members(s[1..]);
    }
  }

  /** Keys are distinct and hash values are the hash of the key. */
  ghost predicate Keyed(s: seq<Elem>, hash: string -> nat) {
    && (forall e :: e in s ==> e.hashv == hash(e.key))
    && (forall i, j :: 0 <= i < j < |s| ==> s[i].key != s[j].key)
  }

  // ----- the index -----

  /** The scalar fields of UT_hash_table. */
  datatype Stats = Stats(numBuckets: nat, log2Buckets: nat, numItems: nat,
                         idealMax: nat, nonideal: nat, ineffExpands: nat, noExpand: bool)

  const NO_STATS := Stats(0, 0, 0, 0, 0, 0, false)

  /** The first `i` elements of `s` were visited and thinned out; the others are untouched. */
  ghost predicate Partway(order: seq<Elem>, s: seq<Elem>, i: nat, p: string -> bool) {
    i <= |s| && order == Keep(s[..i], p) + s[i..]
  }

  lemma NothingVisited(s: seq<Elem>, p: string -> bool)
    ensures Partway(s, s, 0, p) && KeysOf(s[..0]) == []
  {
  }

  lemma AllVisited(order: seq<Elem>, s: seq<Elem>, p: string -> bool)
    requires Partway(order, s, |s|, p)
    ensures order == Keep(s, p) && s[..|s|] == s
  {
    hide Keep;
    assert s[..|s|] == s;
  }

  /** The elements whose key does not satisfy `p`, in order. */
  ghost function Keep(s: seq<Elem>, p: string -> bool): (r: seq<Elem>)
    ensures forall e :: e in r ==> e in s && !p(e.key)
    ensures forall e :: e in s ==> p(e.key) || e in r
  {
    if s == [] then [] else
      Keep(s[..|s| - 1], p) + if p(s[|s| - 1].key) then [] else [s[|s| - 1]]
  }

  ghost function KeysOf(s: seq<Elem>): (r: seq<string>)
    ensures |r| == |s| && forall i :: 0 <= i < |s| ==> r[i] == s[i].key
  {
    seq(|s|, i requires 0 <= i < |s| => s[i].key)
  }

  lemma KeepIn(s: seq<Elem>, i: nat, p: string -> bool)
    requires i <= |s|
    ensures forall e :: e in Keep(s[..i], p) + s[i..] ==> e in s
  {
  }

  lemma KeepSnoc(s: seq<Elem>, i: nat, p: string -> bool)
    requires i < |s|
    ensures Keep(s[..i + 1], p) == Keep(s[..i], p) + if p(s[i].key) then [] else [s[i]]
  {
    assert s[..i + 1][..i] == s[..i];
  }

  lemma KeysSnoc(s: seq<Elem>, i: nat)
    requires i < |s|
    ensures KeysOf(s[..i + 1]) == KeysOf(s[..i]) + [s[i].key]
  {
  }

  lemma OnlyOne(s: seq<Elem>, k: nat, m: set<Elem>)
    requires k < |s| == 1 && m == Members(s)
    ensures Without(s, k) == [] && m - {s[k]} == Members([])
  {
  }

  lemma OrderNone(tail: Elem?)
    ensures OrderLinked(null, tail, [])
  {
  }

  lemma MembersWithout(head: Elem?, tail: Elem?, s: seq<Elem>, k: nat)
    requires OrderLinked(head, tail, s) && k < |s|
    ensures Members(Without(s, k)) == Members(s) - {s[k]} && s[k] in Members(s)
    ensures forall o :: o in Members(s) ==> o in s
  {
    WithoutOnce(s, k);
  }

  lemma KeyedWithout(s: seq<Elem>, hash: string -> nat, k: nat)
    requires Keyed(s, hash) && k < |s|
    ensures Keyed(Without(s, k), hash)
  {
    var r := Without(s, k);
    assert forall i :: 0 <= i < |r| ==> r[i] == s[if i < k then i else i + 1];
  }

  lemma OrderEmpty(head: Elem?, tail: Elem?, s: seq<Elem>)
    requires OrderLinked(head, tail, s)
    ensures head == null <==> s == []
    ensures s != [] ==> tail != null
  {
  }

  lemma OrderSingle(e: Elem)
    requires e.next == null && e.prev == null
    ensures OrderLinked(e, e, [e])
  {
  }

  /** An element is in an ordered list at most once, so a list has as many members as places. */
  lemma OrderDistinct(head: Elem?, tail: Elem?, s: seq<Elem>)
    requires OrderLinked(head, tail, s)
    ensures |Members(s)| == |s| && forall o :: o in Members(s) <==> o in s
  {
    MembersSize(s);
  }

  lemma KeyedSnoc(s: seq<Elem>, hash: string -> nat, e: Elem)
    requires Keyed(s, hash) && e.hashv == hash(e.key) && forall o :: o in s ==> o.key != e.key
    ensures Keyed(s + [e], hash)
  {
  }

  lemma Pow2Step(k: nat)
    ensures Pow2(k + 1) == 2 * Pow2(k)
  {
  }

  lemma InitialPow()
    ensures Pow2(INITIAL_LOG2) == INITIAL_BUCKETS
  {
    assert Pow2(5) == 2 * Pow2(4) && Pow2(4) == 2 * Pow2(3) && Pow2(3) == 2 * Pow2(2) && Pow2(2) == 4;
  }

  lemma MembersEmpty()
    ensures Members([]) == {}
  {
  }

  lemma TablePlaced(heads: array<Elem?>, counts: array<nat>, chains: seq<seq<Elem>>, members: set<Elem>)
    requires Table(heads, counts, chains, members)
    ensures Placed(chains, members)
  {
  }

  lemma DoublingSplitsAll(old': seq<seq<Elem>>, new': seq<seq<Elem>>, members: set<Elem>)
    requires Placed(old', members) && Placed(new', members) && |new'| == 2 * |old'|
    ensures forall b, e :: 0 <= b < |old'| && e in old'[b] ==> e in new'[b] || e in new'[b + |old'|]
  {
    hide Placed;
    forall b, e | 0 <= b < |old'| && e in old'[b] ensures e in new'[b] || e in new'[b + |old'|] {
      DoublingSplits(old', new', members, b, e);
    }
  }

  lemma CountersSay(mults: array<nat>, chains: seq<seq<Elem>>, members: set<Elem>, ideal: nat, nonideal: nat)
    requires Counters(mults, chains, members, ideal, nonideal)
    ensures SumLen(chains) == |members| && nonideal == SumExcess(chains, ideal) && mults.Length == |chains|
    ensures forall b :: 0 <= b < |chains| ==> mults[b] == MultAfter(|chains[b]|, ideal)
  {
  }

  lemma MembersSnoc(s: seq<Elem>, e: Elem)
    ensures Members(s + [e]) == Members(s) + {e}
  {
  }

  class HashIndex {
    const hash: string -> nat
    /** The user's head pointer; the table exists only while it is not null. */
    var head: Elem?
    var tail: Elem?
    var heads: array<Elem?>
    var counts: array<nat>
    var mults: array<nat>
    var tbl: Stats

    ghost var order: seq<Elem>
    ghost var members: set<Elem>
    ghost var chains: seq<seq<Elem>>

    /** The table half: the bucket count is a power of two and all counts agree. */
    ghost predicate TableOk(m: set<Elem>)
      reads this`heads, this`counts, this`mults, this`tbl, this`chains, heads, counts, mults, m`hhPrev, m`hhNext
    {
      && Table(heads, counts, chains, m) && counts != mults
      && tbl.numBuckets == |chains| == mults.Length == Pow2(tbl.log2Buckets)
      && tbl.numItems == |m| == SumLen(chains)
    }

    /** There is no table: its memory was released, or never allocated. */
    ghost predicate NoTable()
      reads this`heads, this`counts, this`mults, this`tbl
    {
      heads.Length == 0 && counts.Length == 0 && mults.Length == 0 && tbl == NO_STATS
    }

    /** The index links exactly the elements `s`, in that order; `m` is their set. */
    ghost predicate Indexes(s: seq<Elem>, m: set<Elem>)
      reads this`head, this`tail, this`heads, this`counts, this`mults, this`tbl, this`chains,
            heads, counts, mults, s, m`hhPrev, m`hhNext
    {
      && m == Members(s)
      && OrderLinked(head, tail, s)
      && (if head != null then TableOk(m) && tbl.numItems == |s| else NoTable())
    }

    ghost predicate Valid()
      reads this, heads, counts, mults, order, members`hhPrev, members`hhNext
    {
      Keyed(order, hash) && Indexes(order, members)
    }

    constructor (hash: string -> nat)
      ensures Valid() && order == [] && this.hash == hash
    {
      this.hash := hash;
      head, tail := null, null;
      heads, counts, mults := new Elem?[0], new nat[0], new nat[0];
      tbl := NO_STATS;
      order, members, chains := [], {}, [];
    }

    /** HASH_FIND: the element with this key, or null exactly when there is none. */
    method Find(key: string) returns (out: Elem?)
      requires Valid()
      ensures out == null <==> forall e :: e in order ==> e.key != key
      ensures out != null ==> out in order && out.key == key
    {
      out := null;
      if head != null {
        var h := hash(key);
        MaskIsRemainder(h, tbl.log2Buckets);
        var b := MaskedBucket(h, tbl.numBuckets);
        out := FindInBucket(heads[b], key, h, chains[b]);
        PlacedChain(chains, members, b);
        assert forall e :: e in order && e.key == key ==> e in members && e in chains[BucketOf(e.hashv, |chains|)];
      }
    }

    /** HASH_FIND_IN_BKT. */
    static method FindInBucket(h: Elem?, key: string, hashv: nat, ghost c: seq<Elem>) returns (out: Elem?)
      requires ChainLinked(h, c)
      ensures out != null ==> out in c && out.key == key && out.hashv == hashv
      ensures out == null ==> forall e :: e in c ==> !(e.key == key && e.hashv == hashv)
    {
      out := h;
      ghost var k := 0;
      while out != null
        invariant k <= |c| && out == if k < |c| then c[k] else null
        invariant forall j :: 0 <= j < k ==> !(c[j].key == key && c[j].hashv == hashv)
        decreases |c| - k
      {
        if out.hashv == hashv && out.key == key {
          break;
        }
        out := out.hhNext;
        k := k + 1;
      }
    }

    /** HASH_MAKE_TABLE. */
    method MakeTable()
      modifies this`heads, this`counts, this`mults, this`tbl, this`chains
      ensures TableOk({}) && fresh(heads) && fresh(counts) && fresh(mults)
    {
      hide Table, Counters, Pow2;
      heads, counts, mults, chains := NewBuckets(INITIAL_BUCKETS, 0);
      InitialPow();
      CountersSay(mults, chains, {}, 0, 0);
      tbl := Stats(INITIAL_BUCKETS, INITIAL_LOG2, 0, 0, 0, 0, false);
    }

    /** HASH_EXPAND_BUCKETS. */
    method Expand(ghost m: set<Elem>)
      requires TableOk(m)
      modifies this`heads, this`counts, this`mults, this`tbl, this`chains, m`hhPrev, m`hhNext
      ensures TableOk(m) && fresh(heads) && fresh(counts) && fresh(mults)
      ensures |chains| == 2 * |old(chains)|
      ensures tbl.numItems == old(tbl.numItems)
      ensures tbl.idealMax == IdealChain(tbl.numItems, old(tbl.log2Buckets))
      ensures tbl.nonideal == SumExcess(chains, tbl.idealMax)
      ensures forall b :: 0 <= b < |chains| ==> mults[b] == MultAfter(|chains[b]|, tbl.idealMax)
      ensures tbl.ineffExpands == if tbl.nonideal > tbl.numItems / 2 then old(tbl.ineffExpands) + 1 else 0
      ensures tbl.noExpand == (old(tbl.noExpand) || tbl.ineffExpands > 1)
      ensures forall b, e :: 0 <= b < |old(chains)| && e in old(chains)[b] ==>
                e in chains[b] || e in chains[b + |old(chains)|]
    {
      hide Table, Counters, IdealChain, SumExcess, SumLen, Placed, Pow2, MultAfter;
      var ideal := IdealChain(tbl.numItems, tbl.log2Buckets);
      TablePlaced(heads, counts, chains, m);
      Pow2Step(tbl.log2Buckets);
      var ni;
      heads, counts, mults, ni, chains := Redistribute(heads, ideal, counts, chains, m, tbl.log2Buckets + 1);
      TablePlaced(heads, counts, chains, m);
      CountersSay(mults, chains, m, ideal, ni);
      DoublingSplitsAll(old(chains), chains, m);
      var ineff := if ni > tbl.numItems / 2 then tbl.ineffExpands + 1 else 0;
      tbl := Stats(tbl.numBuckets * 2, tbl.log2Buckets + 1, tbl.numItems, ideal, ni, ineff,
                   tbl.noExpand || ineff > 1);
    }

    /** HASH_ADD_TO_TABLE with HASH_ADD_TO_BKT: link the element, then expand when its chain is long. */
    method AddToTable(e: Elem, ghost m: set<Elem>)
      requires TableOk(m) && e !in m
      modifies this`heads, this`counts, this`mults, this`tbl, this`chains,
               heads, counts, m`hhPrev, m`hhNext, e`hhPrev, e`hhNext
      ensures TableOk(m + {e}) && tbl.numItems == old(tbl.numItems) + 1
      ensures var b := BucketOf(e.hashv, |old(chains)|);
        |chains| == if |old(chains)[b]| + 1 >= (old(mults)[b] + 1) * CAPACITY_THRESH && !old(tbl.noExpand)
                    then 2 * |old(chains)| else |old(chains)|
      ensures heads == old(heads) || fresh(heads)
      ensures counts == old(counts) || fresh(counts)
      ensures mults == old(mults) || fresh(mults)
    {
      hide ChainLinked, BucketOf, Placed, SumLen, SumExcess, Pow2, MultAfter, IdealChain;
      tbl := tbl.(numItems := tbl.numItems + 1);
      PlacedSize(chains, m);
      MaskIsRemainder(e.hashv, tbl.log2Buckets);
      var b := MaskedBucket(e.hashv, tbl.numBuckets);
      SumsUpdate(chains, b, [e] + chains[b], 0);
      LinkFront(heads, counts, b, e, chains, m);
      chains := chains[b := [e] + chains[b]];
      if counts[b] >= (mults[b] + 1) * CAPACITY_THRESH && !tbl.noExpand {
        Expand(m + {e});
      }
    }

    /** HASH_ADD_KEYPTR: the element joins the end of the order; its key must be new, as in create_topic. */
    method Add(e: Elem)
      requires Valid() && e !in order && e.hashv == hash(e.key)
      requires forall o :: o in order ==> o.key != e.key
      modifies this, heads, counts, order, e
      ensures Valid() && order == old(order) + [e]
      ensures heads == old(heads) || fresh(heads)
      ensures counts == old(counts) || fresh(counts)
      ensures mults == old(mults) || fresh(mults)
    {
      hide Keyed, Indexes;
      KeyedSnoc(order, hash, e);
      LinkElement(e);
      members, order := members + {e}, order + [e];
    }

    method LinkElement(e: Elem)
      requires Indexes(order, members) && e !in order
      modifies this`head, this`tail, this`heads, this`counts, this`mults, this`tbl, this`chains,
               heads, counts, order`next, e`next, e`prev, order`hhPrev, order`hhNext, e`hhPrev, e`hhNext
      ensures Indexes(order + [e], members + {e})
      ensures heads == old(heads) || fresh(heads)
      ensures counts == old(counts) || fresh(counts)
      ensures mults == old(mults) || fresh(mults)
    {
      hide Table, OrderLinked, Members, SumLen, Pow2, NoTable;
      OrderDistinct(head, tail, order);
      MembersSnoc(order, e);
      AppendElement(e);
      AddToTable(e, members);
    }

    /** The order half of HASH_ADD_KEYPTR, making the table for the first element. */
    method AppendElement(e: Elem)
      requires OrderLinked(head, tail, order) && e !in order && members == Members(order)
      requires head != null ==> TableOk(members) && tbl.numItems == |order|
      modifies this`head, this`tail, this`heads, this`counts, this`mults, this`tbl, this`chains,
               order`next, e`prev, e`next
      ensures OrderLinked(head, tail, order + [e]) && TableOk(members) && head != null
      ensures heads == old(heads) || fresh(heads)
      ensures counts == old(counts) || fresh(counts)
      ensures mults == old(mults) || fresh(mults)
      ensures tbl.numItems == |order|
    {
      hide Table, Members, OrderLinked, SumLen, Pow2;
      OrderEmpty(head, tail, order);
      MembersEmpty();
      if head == null {
        e.next := null;
        e.prev := null;
        MakeTable();
        head, tail := e, e;
        OrderSingle(e);
        assert order + [e] == [e];
      } else {
        AppendOrder(head, tail, e, order);
        tail := e;
      }
    }

    /** HASH_DELETE_HH: removes exactly this element, and drops the table with the last one. */
    method Delete(e: Elem, ghost k: nat)
      requires Valid() && k < |order| && e == order[k]
      modifies this`head, this`tail, this`heads, this`counts, this`mults,
               this`tbl, this`chains, this`order, this`members,
               heads, counts, order`prev, order`next, order`hhPrev, order`hhNext
      ensures Valid() && order == Without(old(order), k)
      ensures order == [] ==> NoTable()
      ensures heads == old(heads) || fresh(heads)
      ensures counts == old(counts) || fresh(counts)
    {
      hide Keyed, Indexes;
      KeyedWithout(order, hash, k);
      UnlinkElement(e, k);
      order, members := Without(order, k), members - {e};
      NothingLeft();
    }

    lemma NothingLeft()
      requires Indexes(order, members)
      ensures order == [] ==> NoTable()
    {
      hide Table, Members, SumLen, Pow2;
      OrderEmpty(head, tail, order);
    }

    /** The release of buckets and table when the last element goes. */
    method DropTable()
      modifies this`heads, this`counts, this`mults, this`tbl, this`chains
      ensures NoTable() && fresh(heads) && fresh(counts) && fresh(mults)
    {
      heads, counts, mults := new Elem?[0], new nat[0], new nat[0];
      tbl := NO_STATS;
      chains := [];
    }

    method UnlinkElement(e: Elem, ghost k: nat)
      requires Indexes(order, members) && k < |order| && e == order[k]
      modifies this`head, this`tail, this`heads, this`counts, this`mults, this`tbl, this`chains,
               heads, counts, order`prev, order`next, order`hhPrev, order`hhNext
      ensures Indexes(Without(order, k), members - {e})
      ensures heads == old(heads) || fresh(heads)
      ensures counts == old(counts) || fresh(counts)
    {
      hide Table, OrderLinked, Members, SumLen, Pow2, NoTable, Without;
      OrderHead(head, tail, order, k);
      if e.prev == null && e.next == null {
        OnlyOne(order, k, members);
        DropTable();
        head := null;
        OrderNone(tail);
      } else {
        UnlinkOneOf(e, k);
      }
    }

    /** The other branch: links are patched, and bucket and item count follow. */
    method UnlinkOneOf(e: Elem, ghost k: nat)
      requires Indexes(order, members) && k < |order| && e == order[k] && |order| > 1
      modifies this`head, this`tail, this`tbl, this`chains,
               heads, counts, order`prev, order`next, order`hhPrev, order`hhNext
      ensures Indexes(Without(order, k), members - {e})
    {
      hide OrderLinked, Members, TableOk, NoTable;
      OrderHead(head, tail, order, k);
      MembersWithout(head, tail, order, k);
      head, tail := DetachOrder(head, tail, e, order, k);
      OrderEmpty(head, tail, Without(order, k));
      RemoveFromTable(e, members);
    }

    /** HASH_DEL_IN_BKT and the item count. */
    method RemoveFromTable(e: Elem, ghost m: set<Elem>)
      requires TableOk(m) && e in m
      modifies this`tbl, this`chains, heads, counts, m`hhPrev, m`hhNext
      ensures TableOk(m - {e}) && tbl.numItems == old(tbl.numItems) - 1
    {
      hide Table, SumLen, SumExcess, Pow2, BucketOf;
      TablePlaced(heads, counts, chains, m);
      MaskIsRemainder(e.hashv, tbl.log2Buckets);
      var b := MaskedBucket(e.hashv, tbl.numBuckets);
      ghost var k :| 0 <= k < |chains[b]| && chains[b][k] == e;
      SumsUpdate(chains, b, Without(chains[b], k), 0);
      Unlink(heads, counts, b, e, chains, m, k);
      chains := chains[b := Without(chains[b], k)];
      tbl := tbl.(numItems := tbl.numItems - 1);
    }

    /**
     * HASH_ITER with a body that may delete the visited element, as in ps_clean_sticky:
     * the successor is read before the body runs.  Every element of the original order is
     * visited once, and exactly those whose key satisfies `p` are gone.
     */
    method DeleteMatching(p: string -> bool) returns (visited: seq<string>)
      requires Valid()
      modifies this`head, this`tail, this`heads, this`counts, this`mults,
               this`tbl, this`chains, this`order, this`members,
               heads, counts, order`prev, order`next, order`hhPrev, order`hhNext
      ensures Valid() && order == Keep(old(order), p)
      ensures visited == KeysOf(old(order))
    {
      hide Valid, Keep, KeysOf, Partway;
      ghost var s := order;
      visited := [];
      StartOrder();
      NothingVisited(s, p);
      var el := head;
      var tmp := if head != null then head.next else null;
      ghost var i := 0;
      while el != null
        invariant i <= |s| && Valid() && Partway(order, s, i, p)
        invariant heads == old(heads) || fresh(heads)
        invariant counts == old(counts) || fresh(counts)
        invariant el == (if i < |s| then s[i] else null)
        invariant tmp == (if i + 1 < |s| then s[i + 1] else null)
        invariant visited == KeysOf(s[..i])
        decreases |s| - i
      {
        visited := visited + [el.key];
        KeysSnoc(s, i);
        VisitOne(el, p, s, i);
        i := i + 1;
        el := tmp;
        if tmp != null {
          tmp := Successor(tmp, p, s, i);
        }
      }
      AllVisited(order, s, p);
    }

    lemma StartOrder()
      requires Valid()
      ensures head == (if order == [] then null else order[0])
      ensures order != [] ==> order[0].next == if |order| == 1 then null else order[1]
    {
    }

    lemma NextInOrder(k: nat)
      requires Valid() && k < |order|
      ensures order[k].next == if k + 1 == |order| then null else order[k + 1]
    {
    }

    /** The element after `el`, the `i`-th of the original order `s`, while those from `i` on are untouched. */
    method Successor(el: Elem, p: string -> bool, ghost s: seq<Elem>, ghost i: nat) returns (next: Elem?)
      requires Valid() && i < |s| && el == s[i] && Partway(order, s, i, p)
      ensures next == if i + 1 < |s| then s[i + 1] else null
    {
      hide Valid, Keep;
      ghost var k := |Keep(s[..i], p)|;
      assert order[k] == el && (i + 1 < |s| ==> order[k + 1] == s[i + 1]);
      NextInOrder(k);
      next := el.next;
    }

    /** The loop body at the element `el`, the `i`-th of the original order `s`. */
    method VisitOne(el: Elem, p: string -> bool, ghost s: seq<Elem>, ghost i: nat)
      requires Valid() && i < |s| && el == s[i] && Partway(order, s, i, p)
      modifies this`head, this`tail, this`heads, this`counts, this`mults,
               this`tbl, this`chains, this`order, this`members,
               heads, counts, s`prev, s`next, s`hhPrev, s`hhNext
      ensures Valid() && Partway(order, s, i + 1, p)
      ensures heads == old(heads) || fresh(heads)
      ensures counts == old(counts) || fresh(counts)
    {
      hide Valid, Keep;
      KeepSnoc(s, i, p);
      ghost var k := |Keep(s[..i], p)|;
      assert order[k] == el;
      KeepIn(s, i, p);
      assert forall j :: 0 <= j < |order| ==> order[j] in s;
      if p(el.key) {
        Delete(el, k);
      }
    }
  }
}
