/**
 * What the history of calls determines: the sticky message of every topic, and the
 * balance of every subscriber between attempts, deliveries and losses.
 */
module BrokerHistory {
  import opened Options
  import opened PriorityLists
  import opened Registry
  import opened Topics
  import opened BrokerModel

  // ----- accounting -----

  function Delta(e: Event, u: nat): int {
    match e
    case Attempt(su, _, _, _) => if su == u then 1 else 0
    case Taken(su, _) => if su == u then -1 else 0
    case Reported(su, n) => if su == u then 0 - (n as int) else 0
    case _ => 0
  }

  /** Push attempts minus messages taken minus losses reported. */
  function Owed(log: seq<Event>, u: nat): int {
    if log == [] then 0 else Owed(log[..|log| - 1], u) + Delta(log[|log| - 1], u)
  }

  lemma OwedSnoc(log: seq<Event>, e: Event, u: nat)
    ensures Owed(log + [e], u) == Owed(log, u) + Delta(e, u)
  {
    assert (log + [e])[..|log|] == log;
  }

  /** What is owed to a subscriber waits in its queue or is counted as lost. */
  ghost predicate Balanced(s: State) {
    forall u: nat :: Owed(s.log, u) == if u < |s.sus| then |s.sus[u].q| + s.sus[u].overflow else 0
  }

  // ----- losses -----

  function LossDelta(e: Event, u: nat): int {
    match e
    case Attempt(su, _, _, code) => if su == u && code != Ok then 1 else 0
    case Reported(su, n) => if su == u then 0 - (n as int) else 0
    case _ => 0
  }

  /** Losing push attempts minus losses reported. */
  function Uncollected(log: seq<Event>, u: nat): int {
    if log == [] then 0 else Uncollected(log[..|log| - 1], u) + LossDelta(log[|log| - 1], u)
  }

  lemma UncollectedSnoc(log: seq<Event>, e: Event, u: nat)
    ensures Uncollected(log + [e], u) == Uncollected(log, u) + LossDelta(e, u)
  {
    assert (log + [e])[..|log|] == log;
  }

  /** Every losing attempt is in the counter or was reported from it. */
  ghost predicate LossesCounted(s: State) {
    forall u: nat :: Uncollected(s.log, u) == if u < |s.sus| then s.sus[u].overflow else 0
  }

  /** The push attempts for a subscriber that returned `code`. */
  function Attempts(log: seq<Event>, u: nat, code: Code): nat {
    if log == [] then 0 else
      var e := log[|log| - 1];
      Attempts(log[..|log| - 1], u, code) + if e.Attempt? && e.su == u && e.code == code then 1 else 0
  }

  /** The sum of the values ps_overflow returned for a subscriber. */
  function ReportedSum(log: seq<Event>, u: nat): nat {
    if log == [] then 0 else
      var e := log[|log| - 1];
      ReportedSum(log[..|log| - 1], u) + if e.Reported? && e.su == u then e.n else 0
  }

  lemma {:induction false} UncollectedParts(log: seq<Event>, u: nat)
    ensures Uncollected(log, u) + ReportedSum(log, u) == Attempts(log, u, Full) + Attempts(log, u, Overflow)
  {
    if log != [] {
      UncollectedParts(log[..|log| - 1], u);
    }
  }

  // ----- the queues -----

  /** What one event makes of the queue of subscriber `u`. */
  function AfterQueueEvent(q: seq<Entry>, cap: nat, e: Event, u: nat): seq<Entry> {
    match e
    case Attempt(su, m, prio, _) => if su == u then Push(q, cap, Entry(prio, m)).q else q
    case Taken(su, _) => if su == u && q != [] then q[1..] else q
    case _ => q
  }

  /** The event is what the queue `q` makes of it: the code a push returns, the message a pull gets. */
  predicate Fits(q: seq<Entry>, cap: nat, e: Event, u: nat) {
    match e
    case Attempt(su, m, prio, code) => su == u ==> code == Push(q, cap, Entry(prio, m)).code
    case Taken(su, m) => su == u ==> q != [] && q[0].msg == m
    case _ => true
  }

  /** The queue of `u` replayed from the history. */
  function QueueFrom(log: seq<Event>, u: nat, cap: nat): seq<Entry> {
    if log == [] then [] else AfterQueueEvent(QueueFrom(log[..|log| - 1], u, cap), cap, log[|log| - 1], u)
  }

  predicate AllFit(log: seq<Event>, u: nat, cap: nat) {
    log == [] || (AllFit(log[..|log| - 1], u, cap) && Fits(QueueFrom(log[..|log| - 1], u, cap), cap, log[|log| - 1], u))
  }

  lemma QueueFromSnoc(log: seq<Event>, e: Event, u: nat, cap: nat)
    ensures QueueFrom(log + [e], u, cap) == AfterQueueEvent(QueueFrom(log, u, cap), cap, e, u)
    ensures AllFit(log + [e], u, cap) <==> AllFit(log, u, cap) && Fits(QueueFrom(log, u, cap), cap, e, u)
  {
    assert (log + [e])[..|log|] == log;
  }

  predicate Touches(e: Event, u: nat) {
    (e.Attempt? || e.Taken?) && e.su == u
  }

  predicate Silent(log: seq<Event>, u: nat) {
    forall i :: 0 <= i < |log| ==> !Touches(log[i], u)
  }

  lemma {:induction false} SilentQueue(log: seq<Event>, u: nat, cap: nat)
    requires Silent(log, u)
    ensures QueueFrom(log, u, cap) == [] && AllFit(log, u, cap)
  {
    if log != [] {
      SilentQueue(log[..|log| - 1], u, cap);
      assert !Touches(log[|log| - 1], u);
    }
  }

  lemma Untouched(q: seq<Entry>, cap: nat, e: Event, u: nat)
    requires !Touches(e, u)
    ensures AfterQueueEvent(q, cap, e, u) == q && Fits(q, cap, e, u)
  {
  }

  predicate Explains(log: seq<Event>, u: nat, x: Subscriber) {
    QueueFrom(log, u, x.cap) == x.q && AllFit(log, u, x.cap)
  }

  /** The history explains every queue and every code, and mentions existing subscribers only. */
  ghost predicate Replayed(s: State) {
    && (forall u :: 0 <= u < |s.sus| ==> Explains(s.log, u, s.sus[u]))
    && (forall u :: u >= |s.sus| ==> Silent(s.log, u))
  }

  lemma UntouchedReplay(s: State, s': State, e: Event)
    requires Replayed(s) && s'.log == s.log + [e] && s'.sus == s.sus
    requires !e.Attempt? && !e.Taken?
    ensures Replayed(s')
  {
    hide QueueFrom, AllFit;
    forall u: nat | u >= |s.sus| ensures Silent(s'.log, u) {
      assert Silent(s.log, u);
    }
    forall u | 0 <= u < |s.sus| ensures Explains(s'.log, u, s'.sus[u]) {
      assert Explains(s.log, u, s.sus[u]);
      QueueFromSnoc(s.log, e, u, s.sus[u].cap);
      Untouched(s.sus[u].q, s.sus[u].cap, e, u);
    }
  }

  /** A full queue that ends in a lower priority. */
  predicate MeetsLower(q: seq<Entry>, cap: nat, prio: nat) {
    |q| >= cap && q != [] && q[|q| - 1].prio < prio
  }

  /** No push for `u` met a full queue ending in a lower priority. */
  predicate NeverMeetsLower(log: seq<Event>, u: nat, cap: nat) {
    forall i :: 0 <= i < |log| && log[i].Attempt? && log[i].su == u ==>
      !MeetsLower(QueueFrom(log[..i], u, cap), cap, log[i].prio)
  }

  /** Pushes evict exactly when they meet a full queue ending in a lower priority. */
  lemma {:induction false} EvictionsMeetLower(log: seq<Event>, u: nat, cap: nat)
    requires AllFit(log, u, cap)
    ensures Attempts(log, u, Overflow) == 0 <==> NeverMeetsLower(log, u, cap)
  {
    hide QueueFrom;
    if log != [] {
      var n := |log| - 1;
      var init, e := log[..n], log[n];
      EvictionsMeetLower(init, u, cap);
      if NeverMeetsLower(init, u, cap) {
        forall i | 0 <= i < n && log[i].Attempt? && log[i].su == u
          ensures !MeetsLower(QueueFrom(log[..i], u, cap), cap, log[i].prio)
        {
          assert init[..i] == log[..i] && init[i] == log[i];
        }
      } else {
        var i :| 0 <= i < n && init[i].Attempt? && init[i].su == u &&
          MeetsLower(QueueFrom(init[..i], u, cap), cap, init[i].prio);
        assert init[..i] == log[..i] && init[i] == log[i];
      }
    }
  }

  /** All pushes for `u` have priority `p`. */
  predicate OnePriority(log: seq<Event>, u: nat, p: nat) {
    forall i :: 0 <= i < |log| && log[i].Attempt? && log[i].su == u ==> log[i].prio == p
  }

  predicate AllOf(q: seq<Entry>, p: nat) {
    forall i :: 0 <= i < |q| ==> q[i].prio == p
  }

  lemma PushOne(q: seq<Entry>, cap: nat, e: Entry)
    requires AllOf(q, e.prio)
    ensures AllOf(Push(q, cap, e).q, e.prio) && Push(q, cap, e).code != Overflow
  {
    if |q| < cap {
      InsertAt(q, e, |q|);
      assert Insert(q, e) == q + [e];
    }
  }

  lemma {:induction false} OnePriorityQueue(log: seq<Event>, u: nat, cap: nat, p: nat)
    requires OnePriority(log, u, p)
    ensures AllOf(QueueFrom(log, u, cap), p)
  {
    if log != [] {
      var e := log[|log| - 1];
      OnePriorityQueue(log[..|log| - 1], u, cap, p);
      if e.Attempt? && e.su == u {
        PushOne(QueueFrom(log[..|log| - 1], u, cap), cap, Entry(e.prio, e.msg));
      }
    }
  }

  /** Pushes of one common priority never evict. */
  lemma OnePriorityNeverEvicts(log: seq<Event>, u: nat, cap: nat, p: nat)
    requires OnePriority(log, u, p)
    ensures NeverMeetsLower(log, u, cap)
  {
    hide QueueFrom;
    forall i | 0 <= i < |log| && log[i].Attempt? && log[i].su == u
      ensures !MeetsLower(QueueFrom(log[..i], u, cap), cap, log[i].prio)
    {
      OnePriorityQueue(log[..i], u, cap, p);
    }
  }

  // ----- sticky messages -----

  /** What one event makes of the sticky message of topic `t`. */
  function AfterEvent(o: Option<nat>, e: Event, t: string): Option<nat> {
    match e
    case Published(topic, m, sticky) => if topic != t then o else if sticky then Some(m) else None
    case Cleaned(prefix) => if Covers(prefix, t) then None else o
    case _ => o
  }

  /** The last word of the history on topic `t`. */
  function StickyFold(log: seq<Event>, t: string): Option<nat> {
    if log == [] then None else AfterEvent(StickyFold(log[..|log| - 1], t), log[|log| - 1], t)
  }

  lemma StickyFoldSnoc(log: seq<Event>, e: Event, t: string)
    ensures StickyFold(log + [e], t) == AfterEvent(StickyFold(log, t), e, t)
  {
    assert (log + [e])[..|log|] == log;
  }

  ghost predicate StickyHistory(s: State) {
    forall t :: StickyAt(s.topics, t) == StickyFold(s.log, t)
  }

  ghost predicate HistoryOk(s: State) {
    Balanced(s) && LossesCounted(s) && Replayed(s) && StickyHistory(s)
  }

  // ----- every call keeps all of them -----

  /** Same sticky messages, same log, same queues and counters. */
  lemma QuietCall(s: State, s': State)
    requires HistoryOk(s) && s'.log == s.log && |s'.sus| == |s.sus|
    requires forall t :: StickyAt(s'.topics, t) == StickyAt(s.topics, t)
    requires forall u :: 0 <= u < |s.sus| ==> s'.sus[u].q == s.sus[u].q && s'.sus[u].overflow == s.sus[u].overflow
    requires forall u :: 0 <= u < |s.sus| ==> s'.sus[u].cap == s.sus[u].cap
    ensures HistoryOk(s')
  {
    hide StickyAt, StickyFold, Owed, Uncollected, QueueFrom, AllFit;
    forall u | 0 <= u < |s.sus| ensures Explains(s'.log, u, s'.sus[u]) {
      assert Explains(s.log, u, s.sus[u]);
    }
  }

  lemma LoggedReplay(s: State, s': State, su: nat, e: Event)
    requires Replayed(s) && s'.log == s.log + [e] && su < |s.sus| == |s'.sus|
    requires e.Attempt? || e.Taken? || e.Reported?
    requires e.su == su
    requires forall u :: 0 <= u < |s.sus| && u != su ==> s'.sus[u] == s.sus[u]
    requires s'.sus[su].cap == s.sus[su].cap && s'.sus[su].q == AfterQueueEvent(s.sus[su].q, s.sus[su].cap, e, su)
    requires Fits(s.sus[su].q, s.sus[su].cap, e, su)
    ensures Replayed(s')
  {
    hide QueueFrom, AllFit, AfterQueueEvent, Fits;
    forall u: nat | u >= |s.sus| ensures Silent(s'.log, u) {
      assert Silent(s.log, u);
    }
    forall u | 0 <= u < |s.sus| ensures Explains(s'.log, u, s'.sus[u]) {
      assert Explains(s.log, u, s.sus[u]);
      QueueFromSnoc(s.log, e, u, s.sus[u].cap);
      if u != su {
        Untouched(s.sus[u].q, s.sus[u].cap, e, u);
      }
    }
  }

  /** One logged event of subscriber `su` alone. */
  lemma LoggedCall(s: State, s': State, su: nat, e: Event)
    requires HistoryOk(s) && s'.log == s.log + [e] && su < |s.sus| == |s'.sus| && s'.topics == s.topics
    requires e.Attempt? || e.Taken? || e.Reported?
    requires e.su == su
    requires forall u :: 0 <= u < |s.sus| && u != su ==> s'.sus[u] == s.sus[u]
    requires |s'.sus[su].q| + s'.sus[su].overflow == |s.sus[su].q| + s.sus[su].overflow + Delta(e, su)
    requires s'.sus[su].overflow == s.sus[su].overflow + LossDelta(e, su)
    requires s'.sus[su].cap == s.sus[su].cap && s'.sus[su].q == AfterQueueEvent(s.sus[su].q, s.sus[su].cap, e, su)
    requires Fits(s.sus[su].q, s.sus[su].cap, e, su)
    ensures HistoryOk(s')
  {
    hide StickyAt, Owed, Uncollected, StickyFold, Delta, LossDelta, Replayed, AfterQueueEvent, Fits;
    LoggedReplay(s, s', su, e);
    forall u: nat ensures Uncollected(s'.log, u) == if u < |s'.sus| then s'.sus[u].overflow else 0 {
      UncollectedSnoc(s.log, e, u);
      OthersUntouched(e, u);
    }
    forall u: nat ensures Owed(s'.log, u) == if u < |s'.sus| then |s'.sus[u].q| + s'.sus[u].overflow else 0 {
      OwedSnoc(s.log, e, u);
      OthersUntouched(e, u);
    }
    forall t ensures StickyAt(s'.topics, t) == StickyFold(s'.log, t) {
      StickyFoldSnoc(s.log, e, t);
    }
  }

  lemma OthersUntouched(e: Event, u: nat)
    ensures (e.Attempt? || e.Taken? || e.Reported?) && e.su != u ==> Delta(e, u) == 0 && LossDelta(e, u) == 0
  {
  }

  lemma PushToHistory(s: State, su: nat, m: nat, prio: nat)
    requires HistoryOk(s) && su < |s.sus|
    ensures HistoryOk(PushTo(s, su, m, prio))
  {
    hide HistoryOk;
    LoggedCall(s, PushTo(s, su, m, prio), su, Attempt(su, m, prio, PushCode(s, su, m, prio)));
  }

  lemma {:induction false} DeliverHistory(s: State, m: nat, l: seq<Subscription>)
    requires HistoryOk(s) && InRange(l, |s.sus|)
    ensures HistoryOk(Deliver(s, m, l).0)
    decreases |l|
  {
    hide HistoryOk;
    if l != [] {
      if Skipped(s, l[0]) {
        DeliverHistory(s, m, l[1..]);
      } else {
        PushToHistory(s, l[0].su, m, l[0].prio);
        DeliverHistory(PushTo(s, l[0].su, m, l[0].prio), m, l[1..]);
      }
    }
  }

  lemma {:induction false} PushStickiesHistory(s: State, su: nat, ms: seq<nat>, prio: nat)
    requires HistoryOk(s) && su < |s.sus|
    ensures HistoryOk(PushStickies(s, su, ms, prio))
    decreases |ms|
  {
    hide HistoryOk;
    if ms != [] {
      PushToHistory(s, su, ms[0], prio);
      PushStickiesHistory(PushTo(s, su, ms[0], prio), su, ms[1..], prio);
    }
  }

  lemma UpdateStickyHistory(s: State, t: string, m: nat, sticky: bool)
    requires HistoryOk(s) && TopicsOk(s.topics)
    ensures HistoryOk(UpdateSticky(s, t, m, sticky))
  {
    hide StickyAt, Put, TopicsOk, Owed, Uncollected, Replayed;
    var s' := UpdateSticky(s, t, m, sticky);
    var e := Published(t, m, sticky);
    UntouchedReplay(s, s', e);
    forall u: nat ensures Owed(s'.log, u) == Owed(s.log, u) && Uncollected(s'.log, u) == Uncollected(s.log, u) {
      OwedSnoc(s.log, e, u);
      UncollectedSnoc(s.log, e, u);
    }
    var x := Topic(t, At(s, t), if sticky then Some(m) else None);
    forall n ensures StickyAt(s'.topics, n) == StickyFold(s'.log, n) {
      StickyFoldSnoc(s.log, e, n);
      PutLookup(s.topics, x, n);
    }
  }

  lemma PublishHistory(s: State, m: nat)
    requires HistoryOk(s) && TopicsOk(s.topics) && m in s.store.msgs && InRange(MetBy(s, m), |s.sus|)
    ensures HistoryOk(Publish(s, m).0)
  {
    hide Deliver, UpdateSticky, HistoryOk, Targets;
    var msg := s.store.msgs[m];
    var s0 := s.(handles := s.handles - multiset{m});
    QuietCall(s, s0);
    UpdateStickyHistory(s0, StripFlags(msg.topic), m, msg.sticky);
    var s1 := UpdateSticky(s0, StripFlags(msg.topic), m, msg.sticky);
    SameSus(s0, StripFlags(msg.topic), m, msg.sticky);
    DeliverHistory(s1, m, MetBy(s, m));
    QuietCall(Deliver(s1, m, MetBy(s, m)).0, Publish(s, m).0);
  }

  lemma SameSus(s: State, t: string, m: nat, sticky: bool)
    ensures UpdateSticky(s, t, m, sticky).sus == s.sus
  {
  }

  lemma SubscribeHistory(s: State, su: nat, orig: string, base: SubFlags)
    requires HistoryOk(s) && TopicsOk(s.topics) && su < |s.sus|
    ensures HistoryOk(Subscribe(s, su, orig, base).0)
  {
    hide HistoryOk, StripFlags, ParseFlags, Put, Offered, IndexOf, SubscribersAt, StickyAt, TopicsOk;
    var t, f := StripFlags(orig), ParseFlags(FlagPart(orig), base);
    if !Subscribed(At(s, t), su) {
      var s1 := Enrol(s, su, t, f);
      var p := Topic(t, At(s, t) + [Subscription(su, f.hidden, f.onEmpty, f.priority)], StickyAt(s.topics, t));
      forall n ensures StickyAt(s1.topics, n) == StickyAt(s.topics, n) {
        PutLookup(s.topics, p, n);
      }
      QuietCall(s, s1);
      PushStickiesHistory(s1, su, Offered(s1.topics, t, f), f.priority);
    }
  }

  lemma GetHistory(s: State, su: nat)
    requires HistoryOk(s) && su < |s.sus|
    ensures HistoryOk(Get(s, su).0)
  {
    hide HistoryOk;
    if s.sus[su].q != [] {
      LoggedCall(s, Get(s, su).0, su, Taken(su, s.sus[su].q[0].msg));
    }
  }

  lemma {:induction false} FlushHistory(s: State, su: nat)
    requires HistoryOk(s) && su < |s.sus|
    ensures HistoryOk(Flush(s, su).0)
    decreases |s.sus[su].q|
  {
    hide HistoryOk;
    if s.sus[su].q != [] {
      var g := Get(s, su);
      GetHistory(s, su);
      QuietCall(g.0, UnrefMsg(g.0, g.1.value));
      FlushHistory(UnrefMsg(g.0, g.1.value), su);
    }
  }

  lemma TakeOverflowHistory(s: State, su: nat)
    requires HistoryOk(s) && su < |s.sus|
    ensures HistoryOk(TakeOverflow(s, su).0)
  {
    hide HistoryOk;
    LoggedCall(s, TakeOverflow(s, su).0, su, Reported(su, s.sus[su].overflow));
  }

  lemma NewlyExplained(s: State, x: Subscriber)
    requires Replayed(s) && x.q == []
    ensures Explains(s.log, |s.sus|, x)
  {
    hide QueueFrom, AllFit;
    SilentQueue(s.log, |s.sus|, x.cap);
  }

  lemma NewSubscriberHistory(s: State, cap: nat)
    requires HistoryOk(s)
    ensures HistoryOk(NewSubscriber(s, cap).0)
  {
    hide StickyAt, StickyFold, Owed, Uncollected, QueueFrom, AllFit, Silent, Explains;
    NewlyExplained(s, Subscriber(true, cap, [], [], 0));
  }

  lemma CleanStickyHistory(s: State, prefix: string)
    requires HistoryOk(s) && TopicsOk(s.topics)
    ensures HistoryOk(CleanSticky(s, prefix))
  {
    hide StickyAt, Clean, TopicsOk, Owed, Uncollected, Replayed;
    var s' := CleanSticky(s, prefix);
    UntouchedReplay(s, s', Cleaned(prefix));
    forall u: nat ensures Owed(s'.log, u) == Owed(s.log, u) && Uncollected(s'.log, u) == Uncollected(s.log, u) {
      OwedSnoc(s.log, Cleaned(prefix), u);
      UncollectedSnoc(s.log, Cleaned(prefix), u);
    }
    forall n ensures StickyAt(s'.topics, n) == StickyFold(s'.log, n) {
      StickyFoldSnoc(s.log, Cleaned(prefix), n);
      CleanLookup(s.topics, prefix, n);
    }
  }

  /** ps_flush empties the queue and reports how many messages it took. */
  lemma {:induction false} FlushCounts(s: State, su: nat)
    requires su < |s.sus|
    ensures Flush(s, su).1 == |s.sus[su].q| && Flush(s, su).0.sus[su].q == []
    decreases |s.sus[su].q|
  {
    if s.sus[su].q != [] {
      FlushCounts(UnrefMsg(Get(s, su).0, Get(s, su).1.value), su);
    }
  }
}
