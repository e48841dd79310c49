/**
 * What a subscriber queue means: one list of messages sorted by descending
 * priority and, within a priority, by arrival.  A push inserts behind every
 * entry of the same or a higher priority and keeps the first `cap` entries; a
 * pull takes the head.  The bucket queue of psqueue_b.c is proved to be this
 * list in module BucketQueues.
 */
module PriorityLists {

  /** Number of priority levels; 0 is the lowest and 9 the highest. */
  const PRIORITIES: nat := 10

  /** A queued message, by identity, with the priority it was pushed at. */
  datatype Entry = Entry(prio: nat, msg: nat)

  /** PS_QUEUE_OK, PS_QUEUE_EFULL and PS_QUEUE_EOVERFLOW. */
  datatype Code = Ok | Full | Overflow

  /** Result of a push: the new list, the return code and the entries lost. */
  datatype PushResult = PushResult(q: seq<Entry>, code: Code, lost: seq<Entry>)

  ghost predicate Sorted(q: seq<Entry>) {
    forall i, j :: 0 <= i < j < |q| ==> q[i].prio >= q[j].prio
  }

  /** Inserts behind everything of priority at least `e.prio`. */
  function Insert(q: seq<Entry>, e: Entry): (r: seq<Entry>)
    ensures |r| == |q| + 1
  {
    if q == [] || q[0].prio < e.prio then [e] + q else [q[0]] + Insert(q[1..], e)
  }

  function Push(q: seq<Entry>, cap: nat, e: Entry): PushResult {
    if |q| < cap then PushResult(Insert(q, e), Ok, [])
    else if q == [] || q[|q| - 1].prio >= e.prio then PushResult(q, Full, [e])
    else PushResult(Insert(q[..|q| - 1], e), Overflow, [q[|q| - 1]])
  }

  function Prefix(q: seq<Entry>, n: nat): seq<Entry> {
    if |q| <= n then q else q[..n]
  }

  /** Position at which Insert places a new entry of priority `p`. */
  function InsertPos(q: seq<Entry>, p: nat): (k: nat)
    ensures k <= |q|
    ensures forall i :: 0 <= i < k ==> q[i].prio >= p
    ensures k < |q| ==> q[k].prio < p
  {
    if q == [] || q[0].prio < p then 0 else 1 + InsertPos(q[1..], p)
  }

  /** `k` splits `q` into what stays before and what comes after a new entry of priority `p`. */
  ghost predicate SplitAt(q: seq<Entry>, p: nat, k: nat) {
    && k <= |q|
    && (forall i :: 0 <= i < k ==> q[i].prio >= p)
    && (forall i :: k <= i < |q| ==> q[i].prio < p)
  }

  lemma {:induction false} InsertAt(q: seq<Entry>, e: Entry, k: nat)
    requires SplitAt(q, e.prio, k)
    ensures Insert(q, e) == q[..k] + [e] + q[k..]
  {
    if q != [] && k > 0 {
      InsertAt(q[1..], e, k - 1);
      assert q[..k] == [q[0]] + q[1..][..k - 1];
    }
  }

  lemma InsertPosSplits(q: seq<Entry>, p: nat)
    requires Sorted(q)
    ensures SplitAt(q, p, InsertPos(q, p))
  {
  }

  lemma InsertSorted(q: seq<Entry>, e: Entry)
    requires Sorted(q)
    ensures Sorted(Insert(q, e))
    ensures multiset(Insert(q, e)) == multiset(q) + multiset{e}
  {
    hide Insert, InsertPos;
    InsertPosSplits(q, e.prio);
    var k := InsertPos(q, e.prio);
    InsertAt(q, e, k);
    var a, b := q[..k], q[k..];
    assert Sorted(a + [e] + b);
    assert q == a + b;
    assert multiset(a + [e] + b) == multiset(a + b) + multiset{e};
  }

  lemma EvictThenInsert(q: seq<Entry>, e: Entry)
    requires Sorted(q) && q != [] && q[|q| - 1].prio < e.prio
    ensures Insert(q, e) == Insert(q[..|q| - 1], e) + [q[|q| - 1]]
  {
    var n := |q| - 1;
    InsertPosSplits(q, e.prio);
    var k := InsertPos(q, e.prio);
    InsertAt(q, e, k);
    InsertAt(q[..n], e, k);
    InsertMiddle(q, e, k);
  }

  lemma InsertMiddle(q: seq<Entry>, e: Entry, k: nat)
    requires k < |q|
    ensures q[..k] + [e] + q[k..] == (q[..|q| - 1][..k] + [e] + q[..|q| - 1][k..]) + [q[|q| - 1]]
  {
  }

  /** A push keeps exactly the first `cap` entries of the sorted insertion and loses the rest. */
  lemma PushIsTruncatedInsert(q: seq<Entry>, cap: nat, e: Entry)
    requires Sorted(q) && |q| <= cap
    ensures var r := Push(q, cap, e);
      && r.q + r.lost == Insert(q, e)
      && r.q == Prefix(Insert(q, e), cap)
      && Sorted(r.q)
  {
    InsertSorted(q, e);
    if |q| >= cap && q != [] {
      var n := |q| - 1;
      if q[n].prio < e.prio {
        EvictThenInsert(q, e);
        InsertSorted(q[..n], e);
      } else {
        InsertAt(q, e, n + 1);
      }
    }
  }

  /**
   * The return code says what was lost: nothing, the new entry, or the newest
   * entry of the lowest priority, which is then lower than the new one.
   */
  lemma PushLosesAtMostOne(q: seq<Entry>, cap: nat, e: Entry)
    requires Sorted(q) && |q| <= cap
    ensures var r := Push(q, cap, e);
      && (r.code == Ok <==> |q| < cap)
      && (r.code == Ok ==> r.lost == [] && |r.q| == |q| + 1)
      && (r.code == Full ==> r.lost == [e] && r.q == q && forall i :: 0 <= i < |q| ==> q[i].prio >= e.prio)
      && (r.code == Overflow ==> q != [] && r.lost == [q[|q| - 1]] && |r.q| == |q| && r.lost[0].prio < e.prio)
      && multiset(r.q) + multiset(r.lost) == multiset(q) + multiset{e}
  {
    hide Insert;
    InsertSorted(q, e);
    if |q| >= cap && q != [] && q[|q| - 1].prio < e.prio {
      InsertSorted(q[..|q| - 1], e);
      assert q == q[..|q| - 1] + [q[|q| - 1]];
    }
  }

  // ----- the stable sort, and the top-K theorem -----

  /** Insertion sort by descending priority of a push log. */
  function StableSort(log: seq<Entry>): (r: seq<Entry>)
    ensures |r| == |log|
  {
    if log == [] then [] else Insert(StableSort(log[..|log| - 1]), log[|log| - 1])
  }

  function PushAll(cap: nat, log: seq<Entry>): seq<Entry> {
    if log == [] then [] else Push(PushAll(cap, log[..|log| - 1]), cap, log[|log| - 1]).q
  }

  /** The entries of one priority, in order. */
  function OfPriority(q: seq<Entry>, p: nat): (r: seq<Entry>)
    ensures |r| <= |q|
    ensures forall i :: 0 <= i < |r| ==> r[i].prio == p
  {
    if q == [] then []
    else (if q[0].prio == p then [q[0]] else []) + OfPriority(q[1..], p)
  }

  lemma OfPriorityCons(e: Entry, q: seq<Entry>, p: nat)
    ensures OfPriority([e] + q, p) == (if e.prio == p then [e] else []) + OfPriority(q, p)
  {
    assert ([e] + q)[1..] == q;
  }

  lemma {:induction false} OfPriorityConcat(a: seq<Entry>, b: seq<Entry>, p: nat)
    ensures OfPriority(a + b, p) == OfPriority(a, p) + OfPriority(b, p)
    decreases |a|
  {
    hide OfPriority;
    if a == [] {
      OfPriorityNone(a, p);
      assert a + b == b;
    } else {
      var e, rest := a[0], a[1..];
      OfPriorityConcat(rest, b, p);
      OfPriorityCons(e, rest, p);
      OfPriorityCons(e, rest + b, p);
      assert a == [e] + rest && a + b == [e] + (rest + b);
    }
  }

  lemma {:induction false} OfPriorityNone(a: seq<Entry>, p: nat)
    requires forall i :: 0 <= i < |a| ==> a[i].prio != p
    ensures OfPriority(a, p) == []
  {
    if a != [] {
      OfPriorityNone(a[1..], p);
    }
  }

  /** Within every priority an insertion is an append. */
  lemma InsertOfPriority(q: seq<Entry>, e: Entry, p: nat)
    requires Sorted(q)
    ensures OfPriority(Insert(q, e), p) == OfPriority(q, p) + (if e.prio == p then [e] else [])
  {
    InsertPosSplits(q, e.prio);
    var k := InsertPos(q, e.prio);
    InsertAt(q, e, k);
    OfPriorityConcat(q[..k], q[k..], p);
    assert q[..k] + q[k..] == q;
    OfPriorityConcat(q[..k], [e], p);
    OfPriorityConcat(q[..k] + [e], q[k..], p);
    if e.prio == p {
      OfPriorityNone(q[k..], p);
    }
  }

  /** StableSort sorts, permutes, and keeps the arrival order within each priority. */
  lemma {:induction false} StableSortIsStable(log: seq<Entry>)
    ensures Sorted(StableSort(log))
    ensures multiset(StableSort(log)) == multiset(log)
    ensures forall p :: OfPriority(StableSort(log), p) == OfPriority(log, p)
  {
    if log != [] {
      hide OfPriority, Insert;
      var n := |log| - 1;
      var init := log[..n];
      StableSortIsStable(init);
      InsertSorted(StableSort(init), log[n]);
      assert log == init + [log[n]];
      forall p: nat ensures OfPriority(StableSort(log), p) == OfPriority(log, p) {
        AppendOfPriority(init, log[n], p);
        InsertOfPriority(StableSort(init), log[n], p);
      }
    }
  }

  lemma AppendOfPriority(q: seq<Entry>, e: Entry, p: nat)
    ensures OfPriority(q + [e], p) == OfPriority(q, p) + (if e.prio == p then [e] else [])
  {
    OfPriorityConcat(q, [e], p);
    assert OfPriority([e], p) == if e.prio == p then [e] else [];
  }

  /** Sortedness and the order within each priority determine a list. */
  lemma {:induction false} StableOrderUnique(a: seq<Entry>, b: seq<Entry>)
    requires Sorted(a) && Sorted(b)
    requires forall p :: OfPriority(a, p) == OfPriority(b, p)
    ensures a == b
  {
    if a == [] || b == [] {
      var p := if a != [] then a[0].prio else if b != [] then b[0].prio else 0;
      assert OfPriority(a, p) == OfPriority(b, p);
    } else {
      HeadDominates(a, b);
      HeadDominates(b, a);
      assert a[0] == b[0] by {
        assert OfPriority(a, a[0].prio)[0] == a[0];
        assert OfPriority(b, b[0].prio)[0] == b[0];
      }
      forall p: nat ensures OfPriority(a[1..], p) == OfPriority(b[1..], p) {
        var h := if a[0].prio == p then [a[0]] else [];
        assert OfPriority(a, p) == h + OfPriority(a[1..], p);
        assert OfPriority(b, p) == h + OfPriority(b[1..], p);
        assert OfPriority(a[1..], p) == OfPriority(a, p)[|h|..];
      }
      StableOrderUnique(a[1..], b[1..]);
      assert a == [a[0]] + a[1..] && b == [b[0]] + b[1..];
    }
  }

  lemma HeadIsFirst(a: seq<Entry>)
    requires a != []
    ensures OfPriority(a, a[0].prio) != []
  {
  }

  lemma HeadDominates(a: seq<Entry>, b: seq<Entry>)
    requires a != [] && b != [] && Sorted(b)
    requires OfPriority(a, a[0].prio) == OfPriority(b, a[0].prio)
    ensures b[0].prio >= a[0].prio
  {
    hide OfPriority;
    HeadIsFirst(a);
    if b[0].prio < a[0].prio {
      OfPriorityNone(b, a[0].prio);
    }
  }

  /** Truncating before an insertion does not change the first `cap` entries. */
  lemma TruncateInsert(s: seq<Entry>, cap: nat, e: Entry)
    requires Sorted(s)
    ensures Prefix(Insert(Prefix(s, cap), e), cap) == Prefix(Insert(s, e), cap)
  {
    hide Insert, InsertPos;
    if |s| > cap {
      var t := s[..cap];
      InsertPosSplits(s, e.prio);
      var k := InsertPos(s, e.prio);
      InsertAt(s, e, k);
      InsertAt(t, e, if k <= cap then k else cap);
    }
  }

  /**
   * After any run of pushes the queue holds exactly the first `cap` entries of
   * the stable priority sort of everything pushed.
   */
  lemma {:induction false} KeepsStableTopK(cap: nat, log: seq<Entry>)
    ensures PushAll(cap, log) == Prefix(StableSort(log), cap)
  {
    if log != [] {
      var init := log[..|log| - 1];
      var e := log[|log| - 1];
      KeepsStableTopK(cap, init);
      StableSortIsStable(init);
      PushIsTruncatedInsert(PushAll(cap, init), cap, e);
      TruncateInsert(StableSort(init), cap, e);
    }
  }

  // ----- runs of pushes and pulls -----

  datatype Op = PushOp(e: Entry) | PullOp

  /** A queue together with what left it. */
  datatype History = History(q: seq<Entry>, pushed: seq<Entry>, pulled: seq<Entry>, lost: seq<Entry>)

  const EMPTY := History([], [], [], [])

  function Apply(h: History, cap: nat, op: Op): History {
    match op
    case PushOp(e) =>
      var r := Push(h.q, cap, e);
      History(r.q, h.pushed + [e], h.pulled, h.lost + r.lost)
    case PullOp =>
      if h.q == [] then h
      else h.(q := h.q[1..], pulled := h.pulled + [h.q[0]])
  }

  function Run(cap: nat, ops: seq<Op>): History {
    if ops == [] then EMPTY else Apply(Run(cap, ops[..|ops| - 1]), cap, ops[|ops| - 1])
  }

  /** `f` places every entry of `a` in `b`, in order. */
  ghost predicate Embeds(a: seq<Entry>, b: seq<Entry>, f: seq<int>) {
    && |f| == |a|
    && (forall i :: 0 <= i < |f| ==> 0 <= f[i] < |b| && b[f[i]] == a[i])
    && (forall i, j :: 0 <= i < j < |f| ==> f[i] < f[j])
  }

  /** `a` is obtained from `b` by dropping entries. */
  ghost predicate Subsequence(a: seq<Entry>, b: seq<Entry>) {
    exists f :: Embeds(a, b, f)
  }

  lemma SubsequenceDropLast(a: seq<Entry>, b: seq<Entry>)
    requires a != [] && Subsequence(a, b)
    ensures Subsequence(a[..|a| - 1], b)
  {
    var f :| Embeds(a, b, f);
    assert Embeds(a[..|a| - 1], b, f[..|a| - 1]);
  }

  lemma SubsequenceExtend(a: seq<Entry>, b: seq<Entry>, e: Entry)
    requires Subsequence(a, b)
    ensures Subsequence(a, b + [e]) && Subsequence(a + [e], b + [e])
  {
    var f :| Embeds(a, b, f);
    assert Embeds(a, b + [e], f);
    assert Embeds(a + [e], b + [e], f + [|b|]);
  }

  ghost predicate QueueOk(q: seq<Entry>, cap: nat) {
    Sorted(q) && |q| <= cap
  }

  /**
   * One priority level never overtakes itself: what was pulled, then what waits, is a
   * subsequence of what was pushed.
   */
  ghost predicate FifoAt(h: History, p: nat) {
    Subsequence(OfPriority(h.pulled, p) + OfPriority(h.q, p), OfPriority(h.pushed, p))
  }

  /** Seen at one priority, a push appends the new entry, drops the newest one, or does nothing. */
  lemma PushOfPriority(q: seq<Entry>, cap: nat, e: Entry, p: nat)
    requires QueueOk(q, cap)
    ensures var r := Push(q, cap, e); var was, now := OfPriority(q, p), OfPriority(r.q, p);
      if e.prio == p && r.code != Full then now == was + [e]
      else if r.code == Overflow && r.lost[0].prio == p then was != [] && now == was[..|was| - 1]
      else now == was
  {
    if |q| < cap {
      InsertOfPriority(q, e, p);
    } else if q != [] && q[|q| - 1].prio < e.prio {
      var n := |q| - 1;
      assert q == q[..n] + [q[n]];
      OfPriorityConcat(q[..n], [q[n]], p);
      InsertOfPriority(q[..n], e, p);
    }
  }

  lemma FifoStep(pulled: seq<Entry>, was: seq<Entry>, now: seq<Entry>, log: seq<Entry>, e: Entry)
    requires Subsequence(pulled + was, log)
    requires now == was + [e] || now == was || (was != [] && now == was[..|was| - 1])
    ensures Subsequence(pulled + now, log + [e])
    ensures now != was + [e] ==> Subsequence(pulled + now, log)
  {
    SubsequenceExtend(pulled + was, log, e);
    if now == was + [e] {
      assert pulled + now == (pulled + was) + [e];
    } else if now != was {
      assert pulled + now == (pulled + was)[..|pulled + was| - 1];
      SubsequenceDropLast(pulled + was, log);
      SubsequenceExtend(pulled + now, log, e);
    }
  }

  lemma ApplyKeepsFifo(h: History, cap: nat, op: Op, p: nat)
    requires QueueOk(h.q, cap) && FifoAt(h, p)
    ensures FifoAt(Apply(h, cap, op), p)
  {
    match op
    case PushOp(e) =>
      var r := Push(h.q, cap, e);
      PushOfPriority(h.q, cap, e, p);
      AppendOfPriority(h.pushed, e, p);
      assert OfPriority(h.pushed, p) + [] == OfPriority(h.pushed, p);
      FifoStep(OfPriority(h.pulled, p), OfPriority(h.q, p), OfPriority(r.q, p), OfPriority(h.pushed, p), e);
    case PullOp =>
      if h.q != [] {
        PullKeepsFifo(h, p);
      }
  }

  lemma PullKeepsFifo(h: History, p: nat)
    requires h.q != [] && FifoAt(h, p)
    ensures FifoAt(h.(q := h.q[1..], pulled := h.pulled + [h.q[0]]), p)
  {
    var pulled := h.pulled + [h.q[0]];
    assert h.q == [h.q[0]] + h.q[1..];
    OfPriorityConcat(h.pulled, [h.q[0]], p);
    OfPriorityConcat([h.q[0]], h.q[1..], p);
    assert OfPriority(pulled, p) + OfPriority(h.q[1..], p) == OfPriority(h.pulled, p) + OfPriority(h.q, p);
  }

  ghost predicate Conserved(h: History) {
    multiset(h.pushed) == multiset(h.pulled) + multiset(h.q) + multiset(h.lost)
  }

  lemma Exchange<A>(all: multiset<A>, u: multiset<A>, q: multiset<A>, l: multiset<A>,
                    q': multiset<A>, l': multiset<A>, e: multiset<A>)
    requires all == u + q + l && q' + l' == q + e
    ensures all + e == u + q' + (l + l')
  {
    assert all + e == u + l + (q + e);
  }

  lemma ApplyConserves(h: History, cap: nat, op: Op)
    requires QueueOk(h.q, cap) && Conserved(h)
    ensures QueueOk(Apply(h, cap, op).q, cap) && Conserved(Apply(h, cap, op))
  {
    match op
    case PushOp(e) =>
      PushIsTruncatedInsert(h.q, cap, e);
      PushLosesAtMostOne(h.q, cap, e);
      hide Insert, Push;
      var r := Push(h.q, cap, e);
      Exchange(multiset(h.pushed), multiset(h.pulled), multiset(h.q), multiset(h.lost),
               multiset(r.q), multiset(r.lost), multiset{e});
    case PullOp =>
      if h.q != [] {
        var x, t := [h.q[0]], h.q[1..];
        assert h.q == x + t;
        Exchange(multiset(h.pulled), multiset(h.pulled), multiset{}, multiset{}, multiset{}, multiset(x), multiset(x));
      }
  }

  /** The queue stays sorted and bounded, and every entry pushed was pulled, lost or still waits. */
  lemma {:induction false} RunConserves(cap: nat, ops: seq<Op>)
    ensures QueueOk(Run(cap, ops).q, cap) && Conserved(Run(cap, ops))
  {
    if ops != [] {
      RunConserves(cap, ops[..|ops| - 1]);
      ApplyConserves(Run(cap, ops[..|ops| - 1]), cap, ops[|ops| - 1]);
    }
  }

  /** In any run, with evictions interleaved anywhere, the pulls of one priority come out in push order. */
  lemma {:induction false} RunIsFifoPerPriority(cap: nat, ops: seq<Op>, p: nat)
    ensures FifoAt(Run(cap, ops), p)
  {
    if ops == [] {
      assert Embeds([], [], []);
      assert OfPriority([], p) + OfPriority([], p) == [];
    } else {
      var init := ops[..|ops| - 1];
      RunIsFifoPerPriority(cap, init, p);
      RunConserves(cap, init);
      ApplyKeepsFifo(Run(cap, init), cap, ops[|ops| - 1], p);
    }
  }
}
