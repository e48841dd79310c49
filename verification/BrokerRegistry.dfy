/**
 * The two-way relation between topics and subscribers, kept by every call.
 */
module BrokerRegistry {
  import opened Options
  import opened PriorityLists
  import opened Registry
  import opened Topics
  import opened BrokerModel

  ghost predicate Distinct(l: seq<string>) {
    forall i, j :: 0 <= i < j < |l| ==> l[i] != l[j]
  }

  /**
   * Topics are well formed; a topic lists a subscriber at most once and only live ones;
   * a subscriber's own list has no repetition; and the two lists agree.
   */
  ghost predicate RegistryOk(s: State) {
    && TopicsOk(s.topics)
    && (forall t :: Once(At(s, t)))
    && (forall t :: InRange(At(s, t), |s.sus|))
    && (forall u :: 0 <= u < |s.sus| ==> Distinct(s.sus[u].subs) && (!s.sus[u].alive ==> s.sus[u].subs == []))
    && (forall u, t :: 0 <= u < |s.sus| ==> (t in s.sus[u].subs <==> Subscribed(At(s, t), u)))
  }

  lemma ListedAreAlive(s: State, t: string)
    requires RegistryOk(s)
    ensures forall i :: 0 <= i < |At(s, t)| ==> s.sus[At(s, t)[i].su].alive
  {
    hide IndexOf;
    var l := At(s, t);
    forall i | 0 <= i < |l| ensures s.sus[l[i].su].alive {
      assert l[i].su < |s.sus|;
      SubscribedIff(l, l[i].su);
      assert t in s.sus[l[i].su].subs;
    }
  }

  /** A subscribed topic exists, and its name contains no space. */
  lemma SubscribedTopicsExist(s: State, u: nat, t: string)
    requires RegistryOk(s) && u < |s.sus| && t in s.sus[u].subs
    ensures Find(s.topics, t) < |s.topics| && ' ' !in t
  {
    assert Subscribed(At(s, t), u);
  }

  /** Everything a publish meets is live. */
  lemma {:induction false} TargetsAlive(s: State, t: string, recursive: bool)
    requires RegistryOk(s)
    ensures InRange(Targets(s.topics, t, recursive), |s.sus|)
    ensures forall i :: 0 <= i < |Targets(s.topics, t, recursive)| ==>
      s.sus[Targets(s.topics, t, recursive)[i].su].alive
    decreases |t|
  {
    hide RegistryOk, SubscribersAt;
    ListedAreAlive(s, t);
    ListedInRange(s, t);
    if recursive && t != "" {
      TargetsAlive(s, Parent(t), recursive);
    }
  }

  lemma ListedInRange(s: State, t: string)
    requires RegistryOk(s)
    ensures InRange(At(s, t), |s.sus|)
  {
  }

  // ----- calls that touch neither list -----

  /** Same topics, same subscription lists. */
  ghost predicate SameLists(s: State, s': State) {
    && |s'.sus| == |s.sus| && s'.topics == s.topics
    && (forall u :: 0 <= u < |s.sus| ==> s'.sus[u].subs == s.sus[u].subs && s'.sus[u].alive == s.sus[u].alive)
  }

  lemma SameListsOk(s: State, s': State)
    requires RegistryOk(s) && SameLists(s, s')
    ensures RegistryOk(s')
  {
    hide SubscribersAt, Once, Distinct, Subscribed;
    forall t ensures Once(At(s', t)) && InRange(At(s', t), |s'.sus|) {
      assert At(s', t) == At(s, t);
    }
    forall u, t | 0 <= u < |s'.sus| ensures t in s'.sus[u].subs <==> Subscribed(At(s', t), u) {
      assert At(s', t) == At(s, t);
    }
  }

  lemma {:induction false} DeliverSameLists(s: State, m: nat, l: seq<Subscription>)
    requires InRange(l, |s.sus|)
    ensures SameLists(s, Deliver(s, m, l).0)
    decreases |l|
  {
    if l != [] {
      DeliverSameLists(if Skipped(s, l[0]) then s else PushTo(s, l[0].su, m, l[0].prio), m, l[1..]);
    }
  }

  lemma {:induction false} PushStickiesSameLists(s: State, su: nat, ms: seq<nat>, prio: nat)
    requires su < |s.sus|
    ensures SameLists(s, PushStickies(s, su, ms, prio))
    decreases |ms|
  {
    if ms != [] {
      PushStickiesSameLists(PushTo(s, su, ms[0], prio), su, ms[1..], prio);
    }
  }

  lemma {:induction false} FlushSameLists(s: State, su: nat)
    requires su < |s.sus|
    ensures SameLists(s, Flush(s, su).0)
    decreases |s.sus[su].q|
  {
    if s.sus[su].q != [] {
      var g := Get(s, su);
      FlushSameLists(UnrefMsg(g.0, g.1.value), su);
    }
  }

  // ----- calls that change one topic's contents -----

  /** Same subscribers at every topic, same subscription lists. */
  ghost predicate SameSubscriptions(s: State, s': State) {
    && |s'.sus| == |s.sus| && s'.sus == s.sus
    && (forall t :: At(s', t) == At(s, t))
  }

  lemma SameSubscriptionsOk(s: State, s': State)
    requires RegistryOk(s) && SameSubscriptions(s, s') && TopicsOk(s'.topics)
    ensures RegistryOk(s')
  {
    hide SubscribersAt, Once, Distinct, Subscribed, TopicsOk;
    forall t ensures Once(At(s', t)) && InRange(At(s', t), |s'.sus|) {
      assert At(s', t) == At(s, t);
    }
    forall u, t | 0 <= u < |s'.sus| ensures t in s'.sus[u].subs <==> Subscribed(At(s', t), u) {
      assert At(s', t) == At(s, t);
    }
  }

  lemma UpdateStickySame(s: State, t: string, m: nat, sticky: bool)
    requires RegistryOk(s) && ' ' !in t
    ensures SameSubscriptions(s, UpdateSticky(s, t, m, sticky))
    ensures TopicsOk(UpdateSticky(s, t, m, sticky).topics)
  {
    hide TopicsOk, SubscribersAt, StickyAt, Put;
    var s' := UpdateSticky(s, t, m, sticky);
    var x := Topic(t, At(s, t), if sticky then Some(m) else None);
    PutKeepsTopicsOk(s.topics, x);
    forall n ensures At(s', n) == At(s, n) {
      PutLookup(s.topics, x, n);
    }
  }

  /** ps_publish keeps the registry, and meets only live subscriptions of existing topics. */
  lemma PublishRegistry(s: State, m: nat)
    requires RegistryOk(s) && m in s.store.msgs
    ensures InRange(MetBy(s, m), |s.sus|)
    ensures forall i :: 0 <= i < |MetBy(s, m)| ==> s.sus[MetBy(s, m)[i].su].alive
    ensures RegistryOk(Publish(s, m).0)
  {
    hide RegistryOk, Deliver, Targets, UpdateSticky;
    var msg := s.store.msgs[m];
    var t := StripFlags(msg.topic);
    var s0 := s.(handles := s.handles - multiset{m});
    SameListsOk(s, s0);
    UpdateStickySame(s0, t, m, msg.sticky);
    SameTopics(s, s0, t, m, msg.sticky);
    var s1 := UpdateSticky(s0, t, m, msg.sticky);
    SameSubscriptionsOk(s0, s1);
    TargetsAlive(s1, t, !msg.nonRecursive);
    DeliverSameLists(s1, m, MetBy(s, m));
    SameListsOk(s1, Publish(s, m).0);
  }

  lemma SameTopics(s: State, s0: State, t: string, m: nat, sticky: bool)
    requires s0.topics == s.topics
    ensures UpdateSticky(s0, t, m, sticky).topics == UpdateSticky(s, t, m, sticky).topics
  {
  }

  // ----- subscribing -----

  lemma EnrolOk(s: State, su: nat, t: string, f: SubFlags)
    requires RegistryOk(s) && su < |s.sus| && s.sus[su].alive && ' ' !in t && f.priority < PRIORITIES
    requires !Subscribed(At(s, t), su)
    ensures RegistryOk(Enrol(s, su, t, f))
  {
    hide TopicsOk, SubscribersAt, StickyAt, Put, Once, Subscribed;
    var s' := Enrol(s, su, t, f);
    var x := Subscription(su, f.hidden, f.onEmpty, f.priority);
    var p := Topic(t, At(s, t) + [x], StickyAt(s.topics, t));
    PutKeepsTopicsOk(s.topics, p);
    SnocSays(At(s, t), x);
    forall n ensures At(s', n) == if n == t then At(s, t) + [x] else At(s, n) {
      PutLookup(s.topics, p, n);
    }
    forall u, n | 0 <= u < |s'.sus| ensures n in s'.sus[u].subs <==> Subscribed(At(s', n), u) {
      assert n in s.sus[u].subs <==> Subscribed(At(s, n), u);
    }
  }

  lemma SubscribeRegistry(s: State, su: nat, orig: string, base: SubFlags)
    requires RegistryOk(s) && su < |s.sus| && s.sus[su].alive && base.priority < PRIORITIES
    ensures RegistryOk(Subscribe(s, su, orig, base).0)
  {
    hide RegistryOk, StripFlags, ParseFlags, SubscribersAt, Subscribed, Offered, Enrol;
    var t, f := StripFlags(orig), ParseFlags(FlagPart(orig), base);
    ParsedPriorityInRange(FlagPart(orig), base);
    if !Subscribed(At(s, t), su) {
      EnrolOk(s, su, t, f);
      var s1 := Enrol(s, su, t, f);
      PushStickiesSameLists(s1, su, Offered(s1.topics, t, f), f.priority);
      SameListsOk(s1, Subscribe(s, su, orig, base).0);
    }
  }

  // ----- unsubscribing -----

  /** Leaving removes the subscriber from that topic and nothing else. */
  lemma LeaveSays(ts: seq<Topic>, su: nat, t: string, n: string)
    requires TopicsOk(ts) && ' ' !in t
    ensures TopicsOk(Leave(ts, su, t))
    ensures SubscribersAt(Leave(ts, su, t), n) ==
      if n == t then Without(SubscribersAt(ts, t), su) else SubscribersAt(ts, n)
    ensures StickyAt(Leave(ts, su, t), n) == StickyAt(ts, n)
  {
    hide TopicsOk, SubscribersAt, StickyAt, Put, IndexOf;
    var p := Topic(t, Without(SubscribersAt(ts, t), su), StickyAt(ts, t));
    PutKeepsTopicsOk(ts, p);
    PutLookup(ts, p, n);
  }

  lemma {:induction false} RemoveNameSays(l: seq<string>, t: string)
    requires Distinct(l)
    ensures Distinct(RemoveName(l, t))
    ensures forall n :: n in RemoveName(l, t) <==> n in l && n != t
  {
    if l != [] {
      var rest := l[1..];
      assert l == [l[0]] + rest;
      assert forall i :: 0 <= i < |rest| ==> rest[i] == l[i + 1] != l[0];
      RemoveNameSays(rest, t);
      if l[0] != t {
        assert l[0] !in RemoveName(rest, t);
      }
    }
  }

  lemma UnsubscribeRegistry(s: State, su: nat, orig: string)
    requires RegistryOk(s) && su < |s.sus|
    ensures RegistryOk(Unsubscribe(s, su, orig).0)
  {
    hide TopicsOk, SubscribersAt, Leave, Once, Subscribed, StripFlags, RemoveName, Distinct, Without;
    var t := StripFlags(orig);
    var s' := Unsubscribe(s, su, orig).0;
    if Subscribed(At(s, t), su) {
      WithoutSays(At(s, t), su);
      RemoveNameSays(s.sus[su].subs, t);
      forall n ensures At(s', n) == if n == t then Without(At(s, t), su) else At(s, n) {
        LeaveSays(s.topics, su, t, n);
      }
      LeaveSays(s.topics, su, t, t);
      forall n ensures Once(At(s', n)) && InRange(At(s', n), |s'.sus|) {
        assert Once(At(s, n)) && InRange(At(s, n), |s.sus|);
        WithoutInRange(At(s, t), su, |s.sus|);
      }
      forall u, n | 0 <= u < |s'.sus| ensures n in s'.sus[u].subs <==> Subscribed(At(s', n), u) {
        assert n in s.sus[u].subs <==> Subscribed(At(s, n), u);
      }
    }
  }

  lemma WithoutInRange(l: seq<Subscription>, su: nat, n: nat)
    requires InRange(l, n) && Once(l)
    ensures InRange(Without(l, su), n)
  {
    WithoutSays(l, su);
    var r := Without(l, su);
    assert forall i :: 0 <= i < |r| ==> r[i] in l;
  }

  /** The loop of ps_unsubscribe_all empties `su`'s place in every listed topic. */
  lemma {:induction false} LeaveAllSays(ts: seq<Topic>, su: nat, names: seq<string>, n: string)
    requires TopicsOk(ts) && Distinct(names) && (forall i :: 0 <= i < |names| ==> ' ' !in names[i])
    ensures TopicsOk(LeaveAll(ts, su, names))
    ensures SubscribersAt(LeaveAll(ts, su, names), n) ==
            if n in names then Without(SubscribersAt(ts, n), su) else SubscribersAt(ts, n)
    ensures StickyAt(LeaveAll(ts, su, names), n) == StickyAt(ts, n)
    decreases |names|
  {
    hide TopicsOk, SubscribersAt, StickyAt, Leave, Without;
    if names != [] {
      var t, rest := names[0], names[1..];
      assert names == [t] + rest;
      LeaveSays(ts, su, t, n);
      LeaveAllSays(Leave(ts, su, t), su, rest, n);
    }
  }

  /**
   * ps_unsubscribe_all leaves the registry in order, removes `su` from every topic, and
   * leaves every other subscriber's subscriptions and every sticky message as they were.
   */
  lemma UnsubscribeAllRegistry(s: State, su: nat)
    requires RegistryOk(s) && su < |s.sus|
    ensures var s' := UnsubscribeAll(s, su).0;
      && RegistryOk(s')
      && (forall n :: At(s', n) == Without(At(s, n), su))
      && (forall n :: StickyAt(s'.topics, n) == StickyAt(s.topics, n))
      && s'.sus[su].subs == []
      && (forall u :: 0 <= u < |s.sus| && u != su ==> s'.sus[u] == s.sus[u])
  {
    hide TopicsOk, SubscribersAt, StickyAt, LeaveAll, Once, Subscribed, Without, Find;
    var s' := UnsubscribeAll(s, su).0;
    var names := s.sus[su].subs;
    forall i | 0 <= i < |names| ensures ' ' !in names[i] {
      SubscribedTopicsExist(s, su, names[i]);
    }
    forall n ensures At(s', n) == Without(At(s, n), su) && StickyAt(s'.topics, n) == StickyAt(s.topics, n) {
      LeaveAllSays(s.topics, su, names, n);
      assert n in names <==> Subscribed(At(s, n), su);
      if !Subscribed(At(s, n), su) {
        NothingToRemove(At(s, n), su);
      }
    }
    LeaveAllSays(s.topics, su, names, "");
    forall n ensures Once(At(s', n)) && InRange(At(s', n), |s'.sus|) {
      assert Once(At(s, n)) && InRange(At(s, n), |s.sus|);
      WithoutInRange(At(s, n), su, |s.sus|);
      WithoutSays(At(s, n), su);
    }
    forall u, n | 0 <= u < |s'.sus| ensures n in s'.sus[u].subs <==> Subscribed(At(s', n), u) {
      assert n in s.sus[u].subs <==> Subscribed(At(s, n), u);
      assert Once(At(s, n));
      WithoutSays(At(s, n), su);
    }
  }

  lemma NothingToRemove(l: seq<Subscription>, su: nat)
    requires !Subscribed(l, su)
    ensures Without(l, su) == l
  {
  }

  lemma FreeSubscriberRegistry(s: State, su: nat)
    requires RegistryOk(s) && su < |s.sus|
    ensures RegistryOk(FreeSubscriber(s, su))
  {
    hide RegistryOk, LeaveAll, Flush;
    UnsubscribeAllRegistry(s, su);
    var s1 := UnsubscribeAll(s, su).0;
    FlushSameLists(s1, su);
    SameListsOk(s1, Flush(s1, su).0);
    BuryOk(Flush(s1, su).0, su);
  }

  lemma BuryOk(s: State, su: nat)
    requires RegistryOk(s) && su < |s.sus| && s.sus[su].subs == []
    ensures RegistryOk(s.(sus := s.sus[su := s.sus[su].(alive := false)], liveSus := s.liveSus - 1))
  {
    hide SubscribersAt, Once, Distinct, Subscribed, TopicsOk;
    var s' := s.(sus := s.sus[su := s.sus[su].(alive := false)], liveSus := s.liveSus - 1);
    forall t ensures At(s', t) == At(s, t) && Once(At(s', t)) && InRange(At(s', t), |s'.sus|) {
    }
  }

  lemma NewSubscriberRegistry(s: State, cap: nat)
    requires RegistryOk(s)
    ensures RegistryOk(NewSubscriber(s, cap).0)
  {
    hide SubscribersAt, Once, Subscribed, TopicsOk;
    var s' := NewSubscriber(s, cap).0;
    forall t ensures At(s', t) == At(s, t) && Once(At(s', t)) && InRange(At(s', t), |s'.sus|) {
      assert Once(At(s, t)) && InRange(At(s, t), |s.sus|);
    }
    forall u, t | 0 <= u < |s'.sus| ensures t in s'.sus[u].subs <==> Subscribed(At(s', t), u) {
      SubscribedIff(At(s, t), u);
      assert InRange(At(s, t), |s.sus|);
    }
  }

  lemma CleanStickyRegistry(s: State, prefix: string)
    requires RegistryOk(s)
    ensures RegistryOk(CleanSticky(s, prefix))
  {
    hide SubscribersAt, Once, Distinct, Subscribed, TopicsOk, Clean;
    var s' := CleanSticky(s, prefix);
    CleanKeepsTopicsOk(s.topics, prefix);
    forall t ensures At(s', t) == At(s, t) {
      CleanLookup(s.topics, prefix, t);
    }
    SameSubscriptionsOk(s, s');
  }
}
