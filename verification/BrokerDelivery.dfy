/**
 * Who receives a publish: exactly the subscriptions at ancestors, each through its own
 * subscriber's queue, and how many of them the returned count reports.  The publish runs
 * undisturbed; BrokerProgress says what on_empty and the count come to among gets.
 */
module BrokerDelivery {
  import opened Options
  import opened PriorityLists
  import opened Registry
  import opened Topics
  import opened BrokerModel
  import BrokerRegistry

  // ----- one push attempt per subscription met -----

  predicate IsAttempt(e: Event, x: Subscription, m: nat) {
    e.Attempt? && e.su == x.su && e.msg == m && e.prio == x.prio
  }

  /** Without on_empty subscriptions, delivery attempts every subscription once, in order. */
  lemma {:induction false} DeliverAttemptsAll(s: State, m: nat, l: seq<Subscription>)
    requires InRange(l, |s.sus|) && (forall i :: 0 <= i < |l| ==> !l[i].onEmpty)
    ensures var log := Deliver(s, m, l).0.log;
      && |log| == |s.log| + |l| && log[..|s.log|] == s.log
      && (forall i :: 0 <= i < |l| ==> IsAttempt(log[|s.log| + i], l[i], m))
    decreases |l|
  {
    if l != [] {
      var s1 := PushTo(s, l[0].su, m, l[0].prio);
      DeliverAttemptsAll(s1, m, l[1..]);
      var log := Deliver(s, m, l).0.log;
      assert log[|s.log|] == s1.log[|s.log|];
      assert log[..|s.log|] == log[..|s1.log|][..|s.log|];
      forall i | 0 <= i < |l| ensures IsAttempt(log[|s.log| + i], l[i], m) {
        if i > 0 {
          assert l[i] == l[1..][i - 1];
          assert IsAttempt(log[|s1.log| + (i - 1)], l[1..][i - 1], m);
        }
      }
    }
  }

  /**
   * A publish meets, exactly once each, the subscriptions of all ancestors of its topic
   * (of the topic alone when non-recursive), and every one without on_empty gets an attempt.
   */
  lemma PublishMeetsExactlyAncestors(s: State, m: nat)
    requires BrokerRegistry.RegistryOk(s) && m in s.store.msgs
    ensures var msg := s.store.msgs[m]; var t := StripFlags(msg.topic);
      multiset(MetBy(s, m)) == if msg.nonRecursive then multiset(At(s, t)) else AtAncestors(s.topics, t)
  {
    hide StripFlags, BrokerRegistry.RegistryOk, Targets, AtAncestors, UpdateSticky;
    var msg := s.store.msgs[m];
    var t := StripFlags(msg.topic);
    BrokerRegistry.UpdateStickySame(s, t, m, msg.sticky);
    var s1 := UpdateSticky(s, t, m, msg.sticky);
    SameTargets(s, s1, t, !msg.nonRecursive);
    TargetsOfOne(s.topics, t);
    RegistryTopics(s);
    if !msg.nonRecursive {
      WalkMeetsAncestors(s.topics, t);
    }
  }

  /** The attempts of one publish, when nothing met is on_empty: each subscription met, once, in walk order. */
  lemma PublishAttemptsEachOnce(s: State, m: nat)
    requires m in s.store.msgs && InRange(MetBy(s, m), |s.sus|)
    requires forall i :: 0 <= i < |MetBy(s, m)| ==> !MetBy(s, m)[i].onEmpty
    ensures var log, l, n := Publish(s, m).0.log, MetBy(s, m), |s.log| + 1;
      && |log| == n + |l| && log[..|s.log|] == s.log
      && (forall i :: 0 <= i < |l| ==> IsAttempt(log[n + i], l[i], m))
  {
    hide MetBy, Deliver, StripFlags, Put, StickyAt, IsAttempt;
    var msg := s.store.msgs[m];
    var s1 := UpdateSticky(s.(handles := s.handles - multiset{m}), StripFlags(msg.topic), m, msg.sticky);
    DeliverAttemptsAll(s1, m, MetBy(s, m));
    var log := Publish(s, m).0.log;
    assert s1.log[..|s.log|] == s.log;
    assert log[..|s.log|] == log[..|s1.log|][..|s.log|];
  }

  lemma RegistryTopics(s: State)
    requires BrokerRegistry.RegistryOk(s)
    ensures TopicsOk(s.topics)
  {
  }

  lemma TargetsOfOne(ts: seq<Topic>, t: string)
    ensures Targets(ts, t, false) == SubscribersAt(ts, t)
  {
    assert SubscribersAt(ts, t) + [] == SubscribersAt(ts, t);
  }

  lemma {:induction false} SameTargets(s: State, s': State, t: string, recursive: bool)
    requires BrokerRegistry.SameSubscriptions(s, s')
    ensures Targets(s'.topics, t, recursive) == Targets(s.topics, t, recursive)
    decreases |t|
  {
    assert At(s', t) == At(s, t);
    if recursive && t != "" {
      SameTargets(s, s', Parent(t), recursive);
    }
  }

  // ----- what each subscriber sees -----

  /** The subscriptions of one subscriber. */
  function Mine(l: seq<Subscription>, u: nat): seq<Subscription> {
    if l == [] then [] else (if l[0].su == u then [l[0]] else []) + Mine(l[1..], u)
  }

  /** One queue offered a message through a list of subscriptions: contents and losses. */
  function Offer(q: seq<Entry>, cap: nat, lost: nat, m: nat, l: seq<Subscription>): (seq<Entry>, nat)
    decreases |l|
  {
    if l == [] then (q, lost)
    else if l[0].onEmpty && q != [] then Offer(q, cap, lost, m, l[1..])
    else
      var r := Push(q, cap, Entry(l[0].prio, m));
      Offer(r.q, cap, if r.code == Ok then lost else lost + 1, m, l[1..])
  }

  /** Each subscriber's queue depends only on its own subscriptions, and nothing else of it changes. */
  lemma {:induction false} DeliverPerSubscriber(s: State, m: nat, l: seq<Subscription>, u: nat)
    requires InRange(l, |s.sus|) && u < |s.sus|
    ensures var x, x' := s.sus[u], Deliver(s, m, l).0.sus[u]; var r := Offer(x.q, x.cap, x.overflow, m, Mine(l, u));
      x' == x.(q := r.0, overflow := r.1)
    decreases |l|
  {
    if l != [] {
      var mine := Mine(l[1..], u);
      assert l[0].su == u ==> Mine(l, u)[0] == l[0] && Mine(l, u)[1..] == mine;
      assert l[0].su != u ==> Mine(l, u) == mine;
      if Skipped(s, l[0]) {
        DeliverPerSubscriber(s, m, l[1..], u);
      } else {
        DeliverPerSubscriber(PushTo(s, l[0].su, m, l[0].prio), m, l[1..], u);
      }
    }
  }

  lemma PublishPerSubscriber(s: State, m: nat, u: nat)
    requires m in s.store.msgs && InRange(MetBy(s, m), |s.sus|) && u < |s.sus|
    ensures var x, x' := s.sus[u], Publish(s, m).0.sus[u];
      var r := Offer(x.q, x.cap, x.overflow, m, Mine(MetBy(s, m), u));
      x' == x.(q := r.0, overflow := r.1)
  {
    hide Deliver, Targets, Offer, Mine, StripFlags;
    var msg := s.store.msgs[m];
    var s1 := UpdateSticky(s.(handles := s.handles - multiset{m}), StripFlags(msg.topic), m, msg.sticky);
    DeliverPerSubscriber(s1, m, MetBy(s, m), u);
  }

  /** A subscriber all of whose subscriptions are on_empty gets at most one copy, and only into an empty queue. */
  lemma {:induction false} OnEmptyAtMostOnce(q: seq<Entry>, cap: nat, lost: nat, m: nat, l: seq<Subscription>)
    requires forall i :: 0 <= i < |l| ==> l[i].onEmpty
    ensures var r := Offer(q, cap, lost, m, l);
      && (q != [] || cap > 0 ==> r.1 == lost)
      && (q != [] || l == [] || cap == 0 ==> r.0 == q)
      && (q == [] && l != [] && cap > 0 ==> r.0 == [Entry(l[0].prio, m)])
    decreases |l|
  {
    if l != [] {
      if q != [] {
        OnEmptyAtMostOnce(q, cap, lost, m, l[1..]);
      } else {
        var r := Push(q, cap, Entry(l[0].prio, m));
        OnEmptyAtMostOnce(r.q, cap, if r.code == Ok then lost else lost + 1, m, l[1..]);
      }
    }
  }

  lemma {:induction false} MineIn(l: seq<Subscription>, u: nat)
    ensures forall i :: 0 <= i < |Mine(l, u)| ==> Mine(l, u)[i] in l && Mine(l, u)[i].su == u
  {
    if l != [] {
      MineIn(l[1..], u);
    }
  }

  /** An undisturbed publish gives such a subscriber at most one copy, and none when its queue is not empty. */
  lemma OnEmptySubscriberGetsOne(s: State, m: nat, u: nat)
    requires m in s.store.msgs && InRange(MetBy(s, m), |s.sus|) && u < |s.sus|
    requires forall i :: 0 <= i < |MetBy(s, m)| && MetBy(s, m)[i].su == u ==> MetBy(s, m)[i].onEmpty
    ensures var q, q' := s.sus[u].q, Publish(s, m).0.sus[u].q;
      q' == q || (q == [] && |q'| == 1 && q'[0].msg == m)
  {
    hide Publish, MetBy, Offer, Mine;
    var l := MetBy(s, m);
    MineIn(l, u);
    PublishPerSubscriber(s, m, u);
    OnEmptyAtMostOnce(s.sus[u].q, s.sus[u].cap, s.sus[u].overflow, m, Mine(l, u));
  }

  // ----- reply topics -----

  /**
   * A subscriber whose only topic is one reply topic sees nothing of a publish to another:
   * no push, no loss.
   */
  lemma RepliesAreIsolated(s: State, m: nat, u: nat, mine: nat, other: nat)
    requires BrokerRegistry.RegistryOk(s) && m in s.store.msgs && InRange(MetBy(s, m), |s.sus|)
    requires u < |s.sus| && s.sus[u].subs == [ReplyTopic(mine)]
    requires s.store.msgs[m].topic == ReplyTopic(other) && mine != other
    ensures Publish(s, m).0.sus[u] == s.sus[u]
  {
    hide StripFlags, Targets, Deliver, UpdateSticky, Decimal, AtAncestors, Publish, MetBy;
    var l := MetBy(s, m);
    ReplyHasNoFlags(other);
    PublishMeetsExactlyAncestors(s, m);
    if Mine(l, u) != [] {
      MineIn(l, u);
      var x := Mine(l, u)[0];
      assert x in multiset(l);
      var t := ReplyTopic(other);
      if !s.store.msgs[m].nonRecursive {
        t := FromAncestor(s, ReplyTopic(other), x);
      }
      assert Covers(ReplyTopic(other), ReplyTopic(other));
      assert x in At(s, t);
      ListedMeansSubscribed(s, t, x);
      ReplyTopicsIsolated(mine, other);
    }
    PublishPerSubscriber(s, m, u);
  }

  lemma ListedMeansSubscribed(s: State, t: string, x: Subscription)
    requires BrokerRegistry.RegistryOk(s) && x in At(s, t) && x.su < |s.sus|
    ensures t in s.sus[x.su].subs
  {
    SubscribedIff(At(s, t), x.su);
  }

  lemma FromAncestor(s: State, t: string, x: Subscription) returns (a: string)
    requires BrokerRegistry.RegistryOk(s) && x in AtAncestors(s.topics, t)
    ensures Covers(a, t) && x in At(s, a)
  {
    RegistryTopics(s);
    a := AncestorHolding(s.topics, t, x);
  }

  lemma {:induction false} AncestorHolding(ts: seq<Topic>, t: string, x: Subscription) returns (a: string)
    requires TopicsOk(ts) && x in AtAncestors(ts, t)
    ensures Covers(a, t) && x in SubscribersAt(ts, a)
  {
    if Covers(ts[0].name, t) && x in ts[0].subscribers {
      a := ts[0].name;
    } else {
      a := AncestorHolding(ts[1..], t, x);
      assert ts == [ts[0]] + ts[1..];
      LookupCons(ts[0], ts[1..], a);
    }
  }

  lemma ReplyHasNoFlags(n: nat)
    ensures StripFlags(ReplyTopic(n)) == ReplyTopic(n)
  {
    var d := Decimal(n);
    assert forall i :: 0 <= i < |d| ==> d[i] != ' ';
    assert ' ' !in "$r." && ' ' !in d;
  }

  // ----- how often a subscriber is offered a publish -----

  /** How many of the topics `c` a subscriber lists. */
  function ListedAmong(c: seq<string>, subs: seq<string>): nat {
    if c == [] then 0 else (if c[0] in subs then 1 else 0) + ListedAmong(c[1..], subs)
  }

  lemma MineCons(x: Subscription, l: seq<Subscription>, u: nat)
    ensures Mine([x] + l, u) == (if x.su == u then [x] else []) + Mine(l, u)
  {
    assert ([x] + l)[1..] == l;
  }

  lemma {:induction false} MineConcat(a: seq<Subscription>, b: seq<Subscription>, u: nat)
    ensures Mine(a + b, u) == Mine(a, u) + Mine(b, u)
    decreases |a|
  {
    hide Mine;
    if a == [] {
      MineNothing(u);
      assert a + b == b;
    } else {
      var x, rest := a[0], a[1..];
      MineConcat(rest, b, u);
      MineCons(x, rest, u);
      MineCons(x, rest + b, u);
      assert a == [x] + rest && a + b == [x] + (rest + b);
    }
  }

  lemma MineNothing(u: nat)
    ensures Mine([], u) == []
  {
  }

  lemma {:induction false} MineOnce(l: seq<Subscription>, u: nat)
    requires Once(l)
    ensures |Mine(l, u)| == if Subscribed(l, u) then 1 else 0
  {
    if l != [] {
      MineOnce(l[1..], u);
      SubscribedIff(l, u);
      SubscribedIff(l[1..], u);
    }
  }

  lemma MineAt(s: State, t: string, u: nat)
    requires BrokerRegistry.RegistryOk(s) && u < |s.sus|
    ensures |Mine(At(s, t), u)| == if t in s.sus[u].subs then 1 else 0
  {
    hide IndexOf, Mine;
    MineOnce(At(s, t), u);
  }

  /** A walk from `t` offers a subscriber one copy for each topic on the way that it lists. */
  lemma {:induction false} CopiesOffered(s: State, t: string, u: nat)
    requires BrokerRegistry.RegistryOk(s) && u < |s.sus|
    ensures |Mine(Targets(s.topics, t, true), u)| == ListedAmong(Chain(t), s.sus[u].subs)
    decreases |t|
  {
    hide BrokerRegistry.RegistryOk, SubscribersAt;
    MineAt(s, t, u);
    var rest := if t == "" then [] else Targets(s.topics, Parent(t), true);
    MineConcat(SubscribersAt(s.topics, t), rest, u);
    if t != "" {
      CopiesOffered(s, Parent(t), u);
    }
  }

  /** The same for a whole publish: recursive along the chain, non-recursive at the topic alone. */
  lemma PublishOffersPerTopic(s: State, m: nat, u: nat)
    requires BrokerRegistry.RegistryOk(s) && m in s.store.msgs && u < |s.sus|
    ensures var msg := s.store.msgs[m]; var t, subs := StripFlags(msg.topic), s.sus[u].subs;
      |Mine(MetBy(s, m), u)| == if msg.nonRecursive then (if t in subs then 1 else 0) else ListedAmong(Chain(t), subs)
  {
    hide StripFlags, BrokerRegistry.RegistryOk, Targets, UpdateSticky, Mine, ListedAmong, Chain;
    var msg := s.store.msgs[m];
    var t := StripFlags(msg.topic);
    BrokerRegistry.UpdateStickySame(s, t, m, msg.sticky);
    SameTargets(s, UpdateSticky(s, t, m, msg.sticky), t, !msg.nonRecursive);
    TargetsOfOne(s.topics, t);
    MineAt(s, t, u);
    CopiesOffered(s, t, u);
  }

  lemma ReplyIsLong(n: nat)
    ensures |ReplyTopic(n)| > 2
  {
  }

  lemma ReplyListedOnce(n: nat)
    ensures ListedAmong(Chain(ReplyTopic(n)), [ReplyTopic(n)]) == 1
  {
    hide Chain, ReplyTopic;
    ReplyChain(n);
    var r := ReplyTopic(n);
    ReplyIsLong(n);
    assert [r, "$r", ""][1..] == ["$r", ""] && ["$r", ""][1..] == [""] && [""][1..] == [];
    assert ListedAmong([""], [r]) == 0;
    assert ListedAmong(["$r", ""], [r]) == 0;
  }

  /** A reply published to a call's own topic is what the call's subscriber then holds. */
  lemma ReplyReachesCaller(s: State, m: nat, u: nat, n: nat)
    requires BrokerRegistry.RegistryOk(s) && m in s.store.msgs && InRange(MetBy(s, m), |s.sus|)
    requires u < |s.sus| && s.sus[u].subs == [ReplyTopic(n)] && s.sus[u].q == [] && s.sus[u].cap > 0
    requires s.store.msgs[m].topic == ReplyTopic(n)
    ensures var x := Publish(s, m).0.sus[u]; |x.q| == 1 && x.q[0].msg == m && x.overflow == s.sus[u].overflow
  {
    hide StripFlags, BrokerRegistry.RegistryOk, Publish, MetBy, Mine, ReplyTopic, ListedAmong, Chain;
    ReplyHasNoFlags(n);
    ReplyListedOnce(n);
    PublishOffersPerTopic(s, m, u);
    PublishPerSubscriber(s, m, u);
    OfferOne(s.sus[u].cap, s.sus[u].overflow, m, Mine(MetBy(s, m), u));
  }

  lemma OfferOne(cap: nat, lost: nat, m: nat, l: seq<Subscription>)
    requires cap > 0 && |l| == 1
    ensures Offer([], cap, lost, m, l) == ([Entry(l[0].prio, m)], lost)
  {
    assert l[1..] == [];
    assert Insert([], Entry(l[0].prio, m)) == [Entry(l[0].prio, m)];
  }

  // ----- the count ps_publish returns -----

  lemma {:induction false} VisibleConcat(a: seq<Subscription>, b: seq<Subscription>)
    ensures Visible(a + b) == Visible(a) + Visible(b)
  {
    if a == [] {
      assert a + b == b;
    } else {
      assert (a + b)[1..] == a[1..] + b;
      VisibleConcat(a[1..], b);
    }
  }

  lemma {:induction false} VisibleTargets(ts: seq<Topic>, t: string, recursive: bool)
    ensures Visible(Targets(ts, t, recursive)) <= SubsCount(ts, t) + Visible(SubscribersAt(ts, ""))
    ensures recursive ==> Visible(Targets(ts, t, recursive)) == SubsCount(ts, t) + Visible(SubscribersAt(ts, ""))
    decreases |t|
  {
    var rest := if recursive && t != "" then Targets(ts, Parent(t), recursive) else [];
    VisibleConcat(SubscribersAt(ts, t), rest);
    if recursive && t != "" {
      VisibleTargets(ts, Parent(t), recursive);
    }
  }

  lemma {:induction false} SameCount(s: State, s': State, t: string)
    requires BrokerRegistry.SameSubscriptions(s, s')
    ensures SubsCount(s'.topics, t) == SubsCount(s.topics, t)
    decreases |t|
  {
    assert At(s', t) == At(s, t);
    if t != "" {
      SameCount(s, s', Parent(t));
    }
  }

  lemma {:induction false} DeliverCountBound(s: State, m: nat, l: seq<Subscription>)
    requires InRange(l, |s.sus|)
    ensures Deliver(s, m, l).1 <= Visible(l)
    decreases |l|
  {
    if l != [] {
      DeliverCountBound(if Skipped(s, l[0]) then s else PushTo(s, l[0].su, m, l[0].prio), m, l[1..]);
    }
  }

  /**
   * A single attempt is counted exactly when it is visible and lost nothing.  A store that
   * evicted another message is not counted, although the message is in the queue.
   */
  lemma AttemptCount(s: State, m: nat, x: Subscription)
    requires x.su < |s.sus| && x.prio < PRIORITIES && !Skipped(s, x) && QueueOk(s.sus[x.su].q, s.sus[x.su].cap)
    ensures var code := PushCode(s, x.su, m, x.prio); var r := Deliver(s, m, [x]);
      && (r.1 == if code == Ok && !x.hidden then 1 else 0)
      && (code != Full ==> Entry(x.prio, m) in r.0.sus[x.su].q)
      && (code == Full ==> r.0.sus[x.su].q == s.sus[x.su].q)
  {
    hide Insert;
    var q, cap, e := s.sus[x.su].q, s.sus[x.su].cap, Entry(x.prio, m);
    assert [x][1..] == [];
    assert Deliver(s, m, [x]).0 == PushTo(s, x.su, m, x.prio);
    PushLosesAtMostOne(q, cap, e);
    var p := Push(q, cap, e);
    if p.code == Overflow {
      assert (multiset(p.q) + multiset(p.lost))[e] == (multiset(q) + multiset{e})[e];
      assert q == q[..|q| - 1] + [q[|q| - 1]];
      assert p.lost[0] != e;
      assert e in multiset(p.q);
    } else if p.code == Ok {
      assert e in multiset(q) + multiset{e};
      assert e in multiset(p.q) + multiset(p.lost);
    }
  }

  /** Every subscriber has a free cell for each of its subscriptions in `l`. */
  ghost predicate Roomy(s: State, l: seq<Subscription>) {
    forall u :: 0 <= u < |s.sus| ==> |s.sus[u].q| + |Mine(l, u)| <= s.sus[u].cap
  }

  lemma {:induction false} DeliverCountExact(s: State, m: nat, l: seq<Subscription>)
    requires InRange(l, |s.sus|) && (forall i :: 0 <= i < |l| ==> !l[i].onEmpty) && Roomy(s, l)
    ensures Deliver(s, m, l).1 == Visible(l)
    decreases |l|
  {
    hide Insert;
    if l != [] {
      var x := l[0];
      var s' := PushTo(s, x.su, m, x.prio);
      assert |Mine(l, x.su)| == 1 + |Mine(l[1..], x.su)|;
      assert PushCode(s, x.su, m, x.prio) == Ok;
      forall u | 0 <= u < |s'.sus| ensures |s'.sus[u].q| + |Mine(l[1..], u)| <= s'.sus[u].cap {
        assert |s.sus[u].q| + |Mine(l, u)| <= s.sus[u].cap;
      }
      DeliverCountExact(s', m, l[1..]);
    }
  }

  /**
   * The count never exceeds ps_subs_count plus the visible subscriptions at the root, and
   * reaches it for a recursive publish with no on_empty subscription met and room everywhere.
   */
  lemma PublishCount(s: State, m: nat)
    requires BrokerRegistry.RegistryOk(s) && m in s.store.msgs && InRange(MetBy(s, m), |s.sus|)
    ensures var msg := s.store.msgs[m]; var t := StripFlags(msg.topic); var l := MetBy(s, m);
      var all := SubsCount(s.topics, t) + Visible(At(s, ""));
      && Publish(s, m).1 <= all
      && (!msg.nonRecursive && (forall i :: 0 <= i < |l| ==> !l[i].onEmpty) && Roomy(s, l) ==> Publish(s, m).1 == all)
  {
    hide StripFlags, Targets, Deliver, BrokerRegistry.RegistryOk, SubsCount, Visible, SubscribersAt;
    var msg := s.store.msgs[m];
    var t := StripFlags(msg.topic);
    var l := MetBy(s, m);
    BrokerRegistry.UpdateStickySame(s, t, m, msg.sticky);
    var s2 := UpdateSticky(s, t, m, msg.sticky);
    SameCount(s, s2, t);
    assert At(s2, "") == At(s, "");
    VisibleTargets(s2.topics, t, !msg.nonRecursive);
    var s1 := UpdateSticky(s.(handles := s.handles - multiset{m}), t, m, msg.sticky);
    DeliverCountBound(s1, m, l);
    if (forall i :: 0 <= i < |l| ==> !l[i].onEmpty) && Roomy(s, l) {
      DeliverCountExact(s1, m, l);
    }
  }

  // ----- stickies offered to a new subscription -----

  ghost predicate Increasing(f: seq<int>) {
    forall i, j :: 0 <= i < j < |f| ==> f[i] < f[j]
  }

  /** Position `f[i]` is a covered topic whose sticky is `ms[i]`. */
  ghost predicate Picks(ts: seq<Topic>, prefix: string, ms: seq<nat>, f: seq<int>, from: nat) {
    && |f| == |ms|
    && (forall i :: 0 <= i < |f| ==>
          from <= f[i] < |ts| && HasSticky(ts[f[i]], prefix) && ts[f[i]].sticky == Some(ms[i]))
  }

  ghost predicate MissesNone(ts: seq<Topic>, prefix: string, f: seq<int>, from: nat) {
    forall k :: from <= k < |ts| && HasSticky(ts[k], prefix) ==> k in f
  }

  /**
   * `f` are the positions, in order, of exactly the covered topics with a sticky from position
   * `from` on; `ms` are those stickies.
   */
  ghost predicate Selects(ts: seq<Topic>, prefix: string, ms: seq<nat>, f: seq<int>, from: nat) {
    Increasing(f) && Picks(ts, prefix, ms, f, from) && MissesNone(ts, prefix, f, from)
  }

  /** The covered sticky messages, each once, in the order their topics were created. */
  lemma {:induction false} StickiesInOrder(ts: seq<Topic>, prefix: string) returns (f: seq<int>)
    ensures Selects(ts, prefix, StickiesUnder(ts, prefix), f, 0)
  {
    hide Selects, HasSticky;
    if ts == [] {
      NothingSelected(prefix);
      f := [];
    } else {
      var ms := StickiesUnder(ts[1..], prefix);
      var g := StickiesInOrder(ts[1..], prefix);
      f := Shifted(g);
      SelectShift(ts, prefix, ms, g);
      if HasSticky(ts[0], prefix) {
        SelectFirst(ts, prefix, ms, f);
        f := [0] + f;
      } else {
        SelectSame(ts, prefix, ms, f);
        assert [] + ms == ms;
      }
    }
  }

  lemma NothingSelected(prefix: string)
    ensures Selects([], prefix, StickiesUnder([], prefix), [], 0)
  {
  }

  function Shifted(g: seq<int>): (h: seq<int>)
    ensures |h| == |g| && forall i :: 0 <= i < |g| ==> h[i] == g[i] + 1
  {
    seq(|g|, i requires 0 <= i < |g| => g[i] + 1)
  }

  /** Positions in the tail are one further in the whole list. */
  lemma SelectShift(ts: seq<Topic>, prefix: string, ms: seq<nat>, g: seq<int>)
    requires ts != [] && Selects(ts[1..], prefix, ms, g, 0)
    ensures Selects(ts, prefix, ms, Shifted(g), 1)
  {
    hide HasSticky, Shifted, MissesNone;
    var h := Shifted(g);
    forall i | 0 <= i < |h| ensures 1 <= h[i] < |ts| && HasSticky(ts[h[i]], prefix) && ts[h[i]].sticky == Some(ms[i]) {
      assert ts[h[i]] == ts[1..][g[i]];
    }
    ShiftMissesNone(ts, prefix, g);
  }

  lemma ShiftMissesNone(ts: seq<Topic>, prefix: string, g: seq<int>)
    requires ts != [] && MissesNone(ts[1..], prefix, g, 0)
    ensures MissesNone(ts, prefix, Shifted(g), 1)
  {
    hide HasSticky, Shifted;
    forall k | 1 <= k < |ts| && HasSticky(ts[k], prefix) ensures k in Shifted(g) {
      assert ts[1..][k - 1] == ts[k];
      var i :| 0 <= i < |g| && g[i] == k - 1;
      assert Shifted(g)[i] == k;
    }
  }

  lemma SelectFirst(ts: seq<Topic>, prefix: string, ms: seq<nat>, h: seq<int>)
    requires ts != [] && Selects(ts, prefix, ms, h, 1) && HasSticky(ts[0], prefix)
    ensures Selects(ts, prefix, [ts[0].sticky.value] + ms, [0] + h, 0)
  {
    hide HasSticky, Picks, MissesNone, Increasing;
    FirstPicks(ts, prefix, ms, h);
    FirstIncreasing(ts, prefix, ms, h);
    FirstMissesNone(ts, prefix, h);
  }

  lemma FirstPicks(ts: seq<Topic>, prefix: string, ms: seq<nat>, h: seq<int>)
    requires ts != [] && Picks(ts, prefix, ms, h, 1) && HasSticky(ts[0], prefix)
    ensures Picks(ts, prefix, [ts[0].sticky.value] + ms, [0] + h, 0)
  {
    hide Covers;
  }

  lemma FirstIncreasing(ts: seq<Topic>, prefix: string, ms: seq<nat>, h: seq<int>)
    requires Increasing(h) && Picks(ts, prefix, ms, h, 1)
    ensures Increasing([0] + h)
  {
    hide HasSticky;
  }

  lemma FirstMissesNone(ts: seq<Topic>, prefix: string, h: seq<int>)
    requires MissesNone(ts, prefix, h, 1)
    ensures MissesNone(ts, prefix, [0] + h, 0)
  {
    hide HasSticky;
    assert ([0] + h)[0] == 0 && forall k :: k in h ==> k in [0] + h;
  }

  lemma SelectSame(ts: seq<Topic>, prefix: string, ms: seq<nat>, h: seq<int>)
    requires ts != [] && Selects(ts, prefix, ms, h, 1) && !HasSticky(ts[0], prefix)
    ensures Selects(ts, prefix, ms, h, 0)
  {
    hide HasSticky;
  }

  predicate IsOffer(e: Event, su: nat, m: nat, prio: nat) {
    e.Attempt? && e.su == su && e.msg == m && e.prio == prio
  }

  lemma {:induction false} PushStickiesAttempts(s: State, su: nat, ms: seq<nat>, prio: nat)
    requires su < |s.sus|
    ensures var log := PushStickies(s, su, ms, prio).log;
      && |log| == |s.log| + |ms| && log[..|s.log|] == s.log
      && (forall i :: 0 <= i < |ms| ==> IsOffer(log[|s.log| + i], su, ms[i], prio))
    decreases |ms|
  {
    if ms != [] {
      var s1 := PushTo(s, su, ms[0], prio);
      PushStickiesAttempts(s1, su, ms[1..], prio);
      var log := PushStickies(s, su, ms, prio).log;
      assert log[|s.log|] == log[..|s1.log|][|s.log|] == s1.log[|s.log|];
      assert log[..|s.log|] == log[..|s1.log|][..|s.log|];
      forall i | 0 <= i < |ms| ensures IsOffer(log[|s.log| + i], su, ms[i], prio) {
        if i > 0 {
          assert ms[i] == ms[1..][i - 1];
          assert IsOffer(log[|s1.log| + (i - 1)], su, ms[1..][i - 1], prio);
        }
      }
    }
  }

  lemma StickiesCons(t: Topic, ts: seq<Topic>, prefix: string)
    ensures StickiesUnder([t] + ts, prefix) ==
      (if HasSticky(t, prefix) then [t.sticky.value] else []) + StickiesUnder(ts, prefix)
  {
    assert ([t] + ts)[1..] == ts;
  }

  lemma NoStickies(prefix: string)
    ensures StickiesUnder([], prefix) == []
  {
  }

  lemma {:induction false} StickiesConcat(a: seq<Topic>, b: seq<Topic>, prefix: string)
    ensures StickiesUnder(a + b, prefix) == StickiesUnder(a, prefix) + StickiesUnder(b, prefix)
    decreases |a|
  {
    hide StickiesUnder, HasSticky;
    if a == [] {
      NoStickies(prefix);
      assert a + b == b;
    } else {
      var t, rest := a[0], a[1..];
      StickiesConcat(rest, b, prefix);
      StickiesCons(t, rest, prefix);
      StickiesCons(t, rest + b, prefix);
      assert a == [t] + rest && a + b == [t] + (rest + b);
    }
  }

  lemma EnrolKeepsStickies(ts: seq<Topic>, t: string, l: seq<Subscription>, prefix: string)
    requires l != []
    ensures StickiesUnder(Put(ts, Topic(t, l, StickyAt(ts, t))), prefix) == StickiesUnder(ts, prefix)
  {
    hide Find, Covers;
    var x := Topic(t, l, StickyAt(ts, t));
    var i := Find(ts, t);
    if i < |ts| {
      var a, b := ts[..i], ts[i + 1..];
      assert ts == a + ([ts[i]] + b) && ts[i := x] == a + ([x] + b);
      StickiesConcat(a, [ts[i]] + b, prefix);
      StickiesConcat(a, [x] + b, prefix);
      assert ([ts[i]] + b)[1..] == ([x] + b)[1..];
    } else {
      StickiesConcat(ts, [x], prefix);
    }
  }

  /**
   * A new child_sticky subscription is offered every sticky at or below its topic once, in
   * creation order, at the subscription's own priority.
   */
  lemma ChildStickyOffers(s: State, su: nat, orig: string, base: SubFlags)
    requires su < |s.sus|
    requires ParseFlags(FlagPart(orig), base).childSticky && !ParseFlags(FlagPart(orig), base).noSticky
    requires !Subscribed(At(s, StripFlags(orig)), su)
    ensures var log, ms := Subscribe(s, su, orig, base).0.log, StickiesUnder(s.topics, StripFlags(orig));
      var prio := ParseFlags(FlagPart(orig), base).priority;
      && |log| == |s.log| + |ms| && log[..|s.log|] == s.log
      && (forall i :: 0 <= i < |ms| ==> IsOffer(log[|s.log| + i], su, ms[i], prio))
  {
    hide StripFlags, ParseFlags, FlagPart, StickiesUnder, IndexOf, SubscribersAt, Put, StickyAt;
    var t, f := StripFlags(orig), ParseFlags(FlagPart(orig), base);
    var s1 := Enrol(s, su, t, f);
    EnrolKeepsStickies(s.topics, t, At(s, t) + [Subscription(su, f.hidden, f.onEmpty, f.priority)], t);
    PushStickiesAttempts(s1, su, Offered(s1.topics, t, f), f.priority);
  }

  /** Enrolling changes neither sticky nor queue nor log. */
  lemma EnrolIsQuiet(s: State, su: nat, t: string, f: SubFlags)
    requires TopicsOk(s.topics) && su < |s.sus|
    ensures var s1 := Enrol(s, su, t, f);
      && (forall n :: StickyAt(s1.topics, n) == StickyAt(s.topics, n))
      && s1.sus[su].q == s.sus[su].q && s1.sus[su].cap == s.sus[su].cap && s1.log == s.log && s1.store == s.store
      && (forall u :: 0 <= u < |s.sus| && u != su ==> s1.sus[u] == s.sus[u])
  {
    hide Put, SubscribersAt, StickyAt, TopicsOk;
    var x := Topic(t, At(s, t) + [Subscription(su, f.hidden, f.onEmpty, f.priority)], StickyAt(s.topics, t));
    forall n ensures StickyAt(Put(s.topics, x), n) == StickyAt(s.topics, n) {
      PutLookup(s.topics, x, n);
    }
  }

  /** Under no_sticky a new subscription is offered nothing, whatever stickies there are. */
  lemma NoStickyOffersNothing(s: State, su: nat, orig: string, base: SubFlags)
    requires TopicsOk(s.topics) && su < |s.sus| && !Subscribed(At(s, StripFlags(orig)), su)
    requires ParseFlags(FlagPart(orig), base).noSticky
    ensures var s' := Subscribe(s, su, orig, base).0;
      && s'.log == s.log && s'.store == s.store
      && s'.sus[su].q == s.sus[su].q && s'.sus[su].overflow == s.sus[su].overflow
  {
    hide StripFlags, ParseFlags, FlagPart, StickiesUnder, IndexOf, SubscribersAt, Put, StickyAt;
    EnrolIsQuiet(s, su, StripFlags(orig), ParseFlags(FlagPart(orig), base));
  }

  lemma PushStickiesOne(s: State, su: nat, m: nat, prio: nat)
    requires su < |s.sus|
    ensures PushStickies(s, su, [m], prio) == PushTo(s, su, m, prio)
  {
    assert [m][1..] == [];
  }

  /**
   * A new subscription with neither flag is offered the sticky of its own topic, if there is
   * one, once and at its own priority, and nothing else.
   */
  lemma PlainStickyOffer(s: State, su: nat, orig: string, base: SubFlags)
    requires TopicsOk(s.topics) && su < |s.sus| && !Subscribed(At(s, StripFlags(orig)), su)
    requires var f := ParseFlags(FlagPart(orig), base); !f.noSticky && !f.childSticky
    ensures var s', x := Subscribe(s, su, orig, base).0, s.sus[su];
      var prio := ParseFlags(FlagPart(orig), base).priority;
      match StickyAt(s.topics, StripFlags(orig))
      case None => s'.log == s.log && s'.store == s.store && s'.sus[su].q == x.q && s'.sus[su].overflow == x.overflow
      case Some(m) =>
        var r := Push(x.q, x.cap, Entry(prio, m));
        && s'.log == s.log + [Attempt(su, m, prio, r.code)]
        && s'.sus[su].q == r.q && s'.sus[su].overflow == x.overflow + if r.code == Ok then 0 else 1
  {
    hide StripFlags, ParseFlags, FlagPart, StickiesUnder, IndexOf, SubscribersAt, Put, StickyAt, Push, M.Ref, M.Unref;
    var t, f := StripFlags(orig), ParseFlags(FlagPart(orig), base);
    EnrolIsQuiet(s, su, t, f);
    var s1 := Enrol(s, su, t, f);
    if StickyAt(s.topics, t).Some? {
      PushStickiesOne(s1, su, StickyAt(s.topics, t).value, f.priority);
    }
  }
}
