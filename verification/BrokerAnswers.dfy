/**
 * What callers are answered: the message ps_new_msg makes and what publishing it does, the
 * subscriber ps_new_subscriber makes, the message ps_get gives and in which order, and the
 * numbers ps_overflow and ps_unsubscribe_all return.
 */
module BrokerAnswers {
  import opened Options
  import opened PriorityLists
  import opened Registry
  import opened Topics
  import opened BrokerModel
  import opened BrokerRefs
  import opened BrokerRegistry
  import opened BrokerHistory
  import opened BrokerEffects
  import opened BrokerDelivery
  import opened BrokerRuns

  // ----- messages -----

  /**
   * ps_new_msg: the message did not exist, nothing referred to it, and it is now live with
   * the topic and the flags asked for and the caller's reference; everything else is as before.
   */
  lemma NewMessageSays(cs: seq<Call>, s: State, topic: string, sticky: bool, nonRecursive: bool)
    requires Reaches(cs, s)
    ensures var r := NewMsg(s, topic, sticky, nonRecursive); var s', m := r.0, r.1;
      && m !in s.store.msgs && AllRefs(s)[m] == 0
      && m in s'.store.msgs && s'.store.msgs[m].topic == topic
      && s'.store.msgs[m].sticky == sticky && s'.store.msgs[m].nonRecursive == nonRecursive
      && s'.store.msgs[m].ref == 1 && s'.handles[m] == 1
      && s'.store.msgs.Keys == s.store.msgs.Keys + {m}
      && (forall k :: k in s.store.msgs ==> s'.store.msgs[k] == s.store.msgs[k])
      && (forall k :: k != m ==> s'.handles[k] == s.handles[k])
      && s'.topics == s.topics && s'.sus == s.sus && s'.log == s.log
  {
    hide QueuesOk, RegistryOk, HistoryOk, LiveCount, Reaches;
    ReachableInv(cs, s);
    NewMsgRefs(s, topic, sticky, nonRecursive, NONE);
    assert s.store.next !in AllRefs(s) + NONE;
  }

  /** ps_ref_msg: one more reference, the caller's; giving it up again restores the state. */
  lemma RefSays(s: State, m: nat)
    requires m in s.handles && m in s.store.msgs && s.store.msgs[m].ref > 0
    ensures var s' := RefMsg(s, m);
      && m in s'.store.msgs && s'.store.msgs[m] == s.store.msgs[m].(ref := s.store.msgs[m].ref + 1)
      && s'.handles[m] == s.handles[m] + 1
      && UnrefMsg(s', m) == s
  {
    var s' := UnrefMsg(RefMsg(s, m), m);
    assert s'.store.msgs == s.store.msgs;
    assert s'.handles == s.handles;
  }

  /** A publish makes the message its topic's sticky, or unsticks the topic, as the message's flag says. */
  lemma PublishSetsSticky(s: State, m: nat, n: string)
    requires RegistryOk(s) && m in s.store.msgs && InRange(MetBy(s, m), |s.sus|)
    ensures var msg := s.store.msgs[m];
      StickyAt(Publish(s, m).0.topics, n) ==
      if n != StripFlags(msg.topic) then StickyAt(s.topics, n) else if msg.sticky then Some(m) else None
  {
    hide MetBy, Deliver, StripFlags, RegistryOk, TopicsOk, SubscribersAt, StickyAt, Put;
    var msg := s.store.msgs[m];
    var t := StripFlags(msg.topic);
    RegistryTopics(s);
    PutLookup(s.topics, Topic(t, At(s, t), if msg.sticky then Some(m) else None), n);
  }

  /**
   * ps_new_msg, then ps_publish: the message is the sticky of its topic exactly when asked to
   * be, and it meets the subscribers of its topic alone exactly when asked to be non-recursive.
   */
  lemma PublishOfNew(cs: seq<Call>, s: State, topic: string, sticky: bool, nonRecursive: bool)
    requires Reaches(cs, s)
    ensures var r := NewMsg(s, topic, sticky, nonRecursive); var s1, m, t := r.0, r.1, StripFlags(topic);
      && Defined(s1, PublishCall(m))
      && StickyAt(Publish(s1, m).0.topics, t) == (if sticky then Some(m) else None)
      && multiset(MetBy(s1, m)) == (if nonRecursive then multiset(At(s, t)) else AtAncestors(s.topics, t))
  {
    hide Inv, Reaches, RegistryOk, Next, MetBy, Publish, StripFlags, AtAncestors;
    var c := NewMsgCall(topic, sticky, nonRecursive);
    var s1, m := NewMsg(s, topic, sticky, nonRecursive).0, s.store.next;
    NewMessageSays(cs, s, topic, sticky, nonRecursive);
    ReachableInv(cs, s);
    NewKeepsInv(s, topic, sticky, nonRecursive);
    AllowedCallsAreDefined(s1, PublishCall(m));
    InvRegistry(s1);
    PublishSetsSticky(s1, m, StripFlags(topic));
    PublishMeetsExactlyAncestors(s1, m);
  }

  lemma NewKeepsInv(s: State, topic: string, sticky: bool, nonRecursive: bool)
    requires Inv(s)
    ensures Inv(NewMsg(s, topic, sticky, nonRecursive).0)
  {
    hide Inv;
    NextInv(s, NewMsgCall(topic, sticky, nonRecursive));
  }

  lemma InvRegistry(s: State)
    requires Inv(s)
    ensures RegistryOk(s)
  {
  }

  /** ps_clean_sticky leaves exactly the stickies the prefix does not cover, and every subscription. */
  lemma CleanStickySays(s: State, prefix: string, n: string)
    requires RegistryOk(s)
    ensures var s' := CleanSticky(s, prefix);
      && StickyAt(s'.topics, n) == (if Covers(prefix, n) then None else StickyAt(s.topics, n))
      && At(s', n) == At(s, n) && s'.sus == s.sus && s'.handles == s.handles
  {
    hide RegistryOk, TopicsOk, Clean, Covers, StickyAt, SubscribersAt;
    RegistryTopics(s);
    CleanLookup(s.topics, prefix, n);
  }

  // ----- subscribers -----

  /** ps_new_subscriber: a subscriber that was not there, live and empty; nothing else changes. */
  lemma NewSubscriberSays(s: State, cap: nat)
    ensures var r := NewSubscriber(s, cap); var s', su := r.0, r.1;
      && su == |s.sus| && |s'.sus| == |s.sus| + 1
      && s'.sus[su].alive && s'.sus[su].cap == cap && s'.sus[su].q == [] && s'.sus[su].subs == []
      && s'.sus[su].overflow == 0
      && (forall u :: 0 <= u < |s.sus| ==> s'.sus[u] == s.sus[u])
      && s'.topics == s.topics && s'.store == s.store && s'.handles == s.handles && s'.log == s.log
  {
  }

  /** A subscribe with what ps_new_subscriber returned succeeds and enrols that subscriber and no other. */
  lemma SubscribeOfNew(s: State, cap: nat, orig: string, base: SubFlags)
    requires RegistryOk(s)
    ensures var r := NewSubscriber(s, cap); var s', su, t := r.0, r.1, StripFlags(orig);
      && su < |s'.sus| && Subscribe(s', su, orig, base).1 == 0
      && (forall u: nat :: Subscribed(At(Subscribe(s', su, orig, base).0, t), u) <==>
            u == |s.sus| || Subscribed(At(s, t), u))
      && !Subscribed(At(s, t), |s.sus|)
      && |Subscribe(s', su, orig, base).0.sus| == |s.sus| + 1
      && (forall u :: 0 <= u < |s.sus| ==> Subscribe(s', su, orig, base).0.sus[u].subs == s.sus[u].subs)
  {
    hide RegistryOk, StripFlags, ParseFlags, FlagPart, Subscribe, SubscribersAt, Subscribed;
    var r := NewSubscriber(s, cap);
    var s', su, t := r.0, r.1, StripFlags(orig);
    NewSubscriberSays(s, cap);
    NewSubscriberRegistry(s, cap);
    SubscribeSays(s', su, orig, base, t);
    NotYetListed(s, t);
    var f := ParseFlags(FlagPart(orig), base);
    forall u: nat {
      ListedSnoc(At(s, t), Subscription(su, f.hidden, f.onEmpty, f.priority), u);
    }
  }

  lemma NotYetListed(s: State, t: string)
    requires RegistryOk(s)
    ensures !Subscribed(At(s, t), |s.sus|)
  {
    SubscribedIff(At(s, t), |s.sus|);
    assert InRange(At(s, t), |s.sus|);
  }

  lemma ListedSnoc(l: seq<Subscription>, x: Subscription, u: nat)
    ensures Subscribed(l + [x], u) <==> u == x.su || Subscribed(l, u)
  {
    SubscribedIff(l, u);
    SubscribedIff(l + [x], u);
    assert forall i :: 0 <= i < |l| ==> (l + [x])[i] == l[i];
    assert (l + [x])[|l|] == x;
  }

  /** The topics that list a subscriber. */
  function Listing(ts: seq<Topic>, su: nat): set<string> {
    set x | x in ts && Subscribed(SubscribersAt(ts, x.name), su) :: x.name
  }

  lemma ListingIff(ts: seq<Topic>, su: nat, n: string)
    ensures n in Listing(ts, su) <==> Subscribed(SubscribersAt(ts, n), su)
  {
    hide Subscribed;
    if Subscribed(SubscribersAt(ts, n), su) {
      NobodyNowhere(su);
      assert Find(ts, n) < |ts|;
      assert ts[Find(ts, n)] in ts;
    }
  }

  lemma NobodyNowhere(su: nat)
    ensures !Subscribed([], su)
  {
  }

  /** ps_unsubscribe_all returns how many topics listed the subscriber; none does afterwards. */
  lemma UnsubscribeAllAnswer(s: State, su: nat)
    requires RegistryOk(s) && su < |s.sus|
    ensures UnsubscribeAll(s, su).1 == |Listing(s.topics, su)|
    ensures Listing(UnsubscribeAll(s, su).0.topics, su) == {}
  {
    hide RegistryOk, Listing, UnsubscribeAll, SubscribersAt, Subscribed;
    var subs := s.sus[su].subs;
    forall n ensures n in Listing(s.topics, su) <==> n in subs {
      ListingIff(s.topics, su, n);
      SubscribedMeansListed(s, su, n);
    }
    assert Listing(s.topics, su) == set n | n in subs;
    ListDistinct(s, su);
    DistinctSize(subs);
    UnsubscribeAllCounts(s, su);
    UnsubscribeAllRegistry(s, su);
    var s' := UnsubscribeAll(s, su).0;
    forall n ensures n !in Listing(s'.topics, su) {
      ListingIff(s'.topics, su, n);
      SubscribedMeansListed(s', su, n);
    }
  }

  lemma UnsubscribeAllCounts(s: State, su: nat)
    requires su < |s.sus|
    ensures var r := UnsubscribeAll(s, su); r.1 == |s.sus[su].subs| && |r.0.sus| == |s.sus|
  {
  }

  lemma {:induction false} DistinctSize(l: seq<string>)
    requires Distinct(l)
    ensures |set n | n in l| == |l|
  {
    if l != [] {
      DistinctSize(l[1..]);
      assert (set n | n in l) == {l[0]} + set n | n in l[1..];
    }
  }

  // ----- losses -----

  lemma ReportedSnoc(log: seq<Event>, e: Event, u: nat)
    ensures ReportedSum(log + [e], u) == ReportedSum(log, u) + (if e.Reported? && e.su == u then e.n else 0)
    ensures !e.Attempt? ==> forall code :: Attempts(log + [e], u, code) == Attempts(log, u, code)
  {
    assert (log + [e])[..|log|] == log;
  }

  /**
   * ps_overflow, in every reachable state: what it returns, with all it returned before, is
   * every attempt that lost a message; what was returned grows by exactly that, a second
   * call returns 0, and nobody else notices.
   */
  lemma OverflowAnswer(cs: seq<Call>, s: State, su: nat, u: nat)
    requires Reaches(cs, s) && su < |s.sus|
    ensures var r := TakeOverflow(s, su); var s', n := r.0, r.1;
      && n + ReportedSum(s.log, su) == Attempts(s.log, su, Full) + Attempts(s.log, su, Overflow)
      && ReportedSum(s'.log, u) == ReportedSum(s.log, u) + (if u == su then n else 0)
      && (forall code :: Attempts(s'.log, u, code) == Attempts(s.log, u, code))
      && |s'.sus| == |s.sus| && TakeOverflow(s', su).1 == 0
      && s'.sus[su].q == s.sus[su].q && s'.sus[su].subs == s.sus[su].subs
      && (forall v :: 0 <= v < |s.sus| && v != su ==> s'.sus[v] == s.sus[v])
      && s'.topics == s.topics && s'.store == s.store && s'.handles == s.handles
  {
    hide Reaches, ReportedSum, Attempts;
    OverflowCountsLosses(cs, s, su);
    ReportedSnoc(s.log, Reported(su, s.sus[su].overflow), u);
  }

  // ----- gets -----

  /**
   * ps_get gives nothing exactly when nothing waits; else a message of the highest priority
   * waiting, with its queue's reference, and leaves the rest in order.
   */
  lemma GetSays(s: State, su: nat)
    requires QueuesOk(s) && su < |s.sus|
    ensures var r, q := Get(s, su), s.sus[su].q; var s' := r.0;
      && (r.1 == None <==> q == []) && (r.1 == None ==> s' == s)
      && |s'.sus| == |s.sus| && (forall u :: 0 <= u < |s.sus| && u != su ==> s'.sus[u] == s.sus[u])
      && s'.topics == s.topics && s'.store == s.store
      && (q != [] ==>
            r.1 == Some(q[0].msg) && s'.sus[su].q == q[1..] && forall x :: x in q ==> x.prio <= q[0].prio)
      && (r.1.Some? ==> s'.handles == s.handles + multiset{r.1.value} && s'.log == s.log + [Taken(su, r.1.value)])
  {
    var q := s.sus[su].q;
    assert QueueOk(q, s.sus[su].cap);
  }

  /** The pushes and pulls of one subscriber's queue, in order. */
  function OpsOf(log: seq<Event>, u: nat): seq<Op> {
    if log == [] then []
    else
      OpsOf(log[..|log| - 1], u) +
        match log[|log| - 1]
        case Attempt(su, m, prio, _) => if su == u then [PushOp(Entry(prio, m))] else []
        case Taken(su, _) => if su == u then [PullOp] else []
        case _ => []
  }

  /** The messages a subscriber took, in order. */
  function TakenBy(log: seq<Event>, u: nat): seq<nat> {
    if log == [] then []
    else
      var e := log[|log| - 1];
      TakenBy(log[..|log| - 1], u) + if e.Taken? && e.su == u then [e.msg] else []
  }

  /** What publishes and subscribes tried to push for it, in order. */
  function OfferedTo(log: seq<Event>, u: nat): seq<Entry> {
    if log == [] then []
    else
      var e := log[|log| - 1];
      OfferedTo(log[..|log| - 1], u) + if e.Attempt? && e.su == u then [Entry(e.prio, e.msg)] else []
  }

  function MsgsOf(q: seq<Entry>): (r: seq<nat>)
    ensures |r| == |q| && forall i :: 0 <= i < |q| ==> r[i] == q[i].msg
  {
    seq(|q|, i requires 0 <= i < |q| => q[i].msg)
  }

  lemma MsgsSnoc(q: seq<Entry>, e: Entry)
    ensures MsgsOf(q + [e]) == MsgsOf(q) + [e.msg]
  {
  }

  lemma RunSnoc(cap: nat, ops: seq<Op>, op: Op)
    ensures Run(cap, ops + [op]) == Apply(Run(cap, ops), cap, op)
  {
    assert (ops + [op])[..|ops|] == ops;
  }

  lemma {:induction false} HistoryIsRun(log: seq<Event>, u: nat, cap: nat)
    requires AllFit(log, u, cap)
    ensures var h := Run(cap, OpsOf(log, u));
      && h.q == QueueFrom(log, u, cap) && MsgsOf(h.pulled) == TakenBy(log, u) && h.pushed == OfferedTo(log, u)
  {
    hide Run, Push;
    if log == [] {
      EmptyRun(cap);
    } else {
      var init, e := log[..|log| - 1], log[|log| - 1];
      HistoryIsRun(init, u, cap);
      var ops := OpsOf(init, u);
      var h := Run(cap, ops);
      if Touches(e, u) {
        var op := if e.Attempt? then PushOp(Entry(e.prio, e.msg)) else PullOp;
        RunSnoc(cap, ops, op);
        if e.Taken? {
          MsgsSnoc(h.pulled, h.q[0]);
        }
      } else {
        assert ops + [] == ops;
      }
    }
  }

  lemma EmptyRun(cap: nat)
    ensures Run(cap, []) == EMPTY
  {
  }

  /**
   * Every subscriber's gets and flushes, in every reachable state: they gave exactly what a
   * queue with its history gives, and at each priority what it took followed by what waits
   * is a subsequence of what was pushed for it, so nothing overtakes.
   */
  lemma GetsAreFifo(cs: seq<Call>, s: State, u: nat, p: nat)
    requires Reaches(cs, s) && u < |s.sus|
    ensures var h := Run(s.sus[u].cap, OpsOf(s.log, u));
      && h.q == s.sus[u].q && MsgsOf(h.pulled) == TakenBy(s.log, u) && h.pushed == OfferedTo(s.log, u)
      && Subsequence(OfPriority(h.pulled, p) + OfPriority(s.sus[u].q, p), OfPriority(OfferedTo(s.log, u), p))
      && multiset(h.pushed) == multiset(h.pulled) + multiset(s.sus[u].q) + multiset(h.lost)
  {
    hide Reaches, RefsOk, QueuesOk, RegistryOk, LiveCount, Run, OpsOf, QueueFrom, AllFit, Subsequence, OfPriority;
    ReachableInv(cs, s);
    assert Explains(s.log, u, s.sus[u]);
    HistoryIsRun(s.log, u, s.sus[u].cap);
    RunIsFifoPerPriority(s.sus[u].cap, OpsOf(s.log, u), p);
    RunConserves(s.sus[u].cap, OpsOf(s.log, u));
  }
}
