/**
 * The calls of pubsub.c, step by step over the broker's mutable state.  Each is proved
 * to compute what BrokerModel says and to touch only live messages and subscribers.
 */
module Brokers {
  import opened Options
  import opened PriorityLists
  import opened Registry
  import opened Topics
  import opened BrokerModel
  import opened BrokerRefs
  import opened BrokerRegistry
  import opened BrokerHistory
  import opened BrokerRuns
  import opened BrokerSafety
  import BrokerDelivery
  import M = Messages

  lemma {:induction false} DeliverConcat(s: State, m: nat, a: seq<Subscription>, b: seq<Subscription>)
    requires InRange(a, |s.sus|) && InRange(b, |s.sus|) && InRange(a + b, |s.sus|)
    ensures var ra := Deliver(s, m, a); var rb := Deliver(ra.0, m, b);
      Deliver(s, m, a + b) == (rb.0, ra.1 + rb.1)
    decreases |a|
  {
    if a == [] {
      assert a + b == b;
    } else {
      assert (a + b)[1..] == a[1..] + b;
      DeliverConcat(if Skipped(s, a[0]) then s else PushTo(s, a[0].su, m, a[0].prio), m, a[1..], b);
    }
  }

  lemma DeliverStep(s: State, m: nat, l: seq<Subscription>)
    requires InRange(l, |s.sus|) && l != []
    ensures Deliver(s, m, l) ==
      if Skipped(s, l[0]) then Deliver(s, m, l[1..])
      else
        var r := Deliver(PushTo(s, l[0].su, m, l[0].prio), m, l[1..]);
        (r.0, r.1 + if PushCode(s, l[0].su, m, l[0].prio) == Ok && !l[0].hidden then 1 else 0)
  {
  }

  lemma DeliverNothing(s: State, m: nat)
    ensures Deliver(s, m, []) == (s, 0)
  {
  }

  lemma InvReady(s: State)
    requires Inv(s)
    ensures Ready(s, NONE) && RefsOk(s, NONE) && QueuesOk(s) && RegistryOk(s) && TopicsOk(s.topics)
    ensures forall m :: m in s.handles ==> m in s.store.msgs
  {
    forall m | m in s.handles ensures m in s.store.msgs {
      assert m in AllRefs(s) + NONE;
    }
  }

  lemma PlainStoreGrows(q: seq<Entry>, cap: nat, e: Entry)
    ensures Push(q, cap, e).code == Ok ==> |Push(q, cap, e).q| == |q| + 1
  {
  }

  lemma NobodyVisible()
    ensures Visible([]) == 0
  {
  }

  lemma EmptyTopic()
    ensures StripFlags("") == ""
  {
  }

  lemma NobodyThere(su: nat)
    ensures !Subscribed([], su)
  {
  }

  lemma LeaveAllStep(ts: seq<Topic>, su: nat, names: seq<string>)
    requires names != []
    ensures LeaveAll(ts, su, names) == LeaveAll(Leave(ts, su, names[0]), su, names[1..])
  {
  }

  lemma LeaveAllNothing(ts: seq<Topic>, su: nat, names: seq<string>)
    ensures LeaveAll(ts, su, names[|names|..]) == ts
  {
  }

  lemma LeaveNothing(ts: seq<Topic>, su: nat, t: string)
    requires !Subscribed(SubscribersAt(ts, t), su)
    ensures Leave(ts, su, t) == ts
  {
  }

  lemma FlushStep(s: State, su: nat)
    requires su < |s.sus|
    ensures Flush(s, su) ==
      if s.sus[su].q == [] then (s, 0)
      else
        var g := Get(s, su);
        var r := Flush(UnrefMsg(g.0, g.1.value), su);
        (r.0, r.1 + 1)
  {
  }

  lemma CleanStart(s: State, prefix: string)
    requires Inv(s)
    ensures M.Counted(s.store, AllRefs(CleanSticky(s, prefix)) + multiset(StickiesUnder(s.topics, prefix)))
    ensures [] + Clean(s.topics, prefix) == Clean(s.topics, prefix)
  {
    hide QueueRefs, StickyRefs, StickiesUnder, Clean;
    CleanRefs(s.topics, prefix);
    AddNone(AllRefs(s));
    assert AllRefs(s) == AllRefs(CleanSticky(s, prefix)) + multiset(StickiesUnder(s.topics, prefix));
  }

  lemma CleanStep(ts: seq<Topic>, prefix: string)
    requires ts != []
    ensures Clean(ts, prefix) == CleanOne(ts[0], prefix) + Clean(ts[1..], prefix)
  {
  }

  lemma CleanEnd(h: M.Store, prefix: string)
    ensures Clean([], prefix) == [] && UnrefAll(h, StickiesUnder([], prefix)) == h
  {
  }

  /** The list before the visited topic, the topic, and the list behind it. */
  lemma VisitedPart(done: seq<Topic>, rest: seq<Topic>, x: Topic)
    requires rest != []
    ensures (done + rest)[|done|] == rest[0]
    ensures (done + rest)[|done| := x] == (done + [x]) + rest[1..]
    ensures RemoveAt((done + rest)[|done| := x], |done|) == done + rest[1..]
    ensures done + rest == (done + [rest[0]]) + rest[1..]
  {
  }

  lemma CleanedPart(done: seq<Topic>, x: Topic, more: seq<Topic>)
    ensures done + ([x] + more) == (done + [x]) + more && done + ([] + more) == done + more
  {
  }

  lemma UnrefStep(h: M.Store, ms: seq<nat>, refs: multiset<nat>)
    requires ms != [] && M.Counted(h, refs + multiset(ms))
    ensures ms[0] in h.msgs
    ensures UnrefAll(h, ms) == UnrefAll(M.Unref(h, ms[0]), ms[1..])
    ensures M.Counted(M.Unref(h, ms[0]), refs + multiset(ms[1..]))
  {
    hide M.Counted, M.Unref;
    FirstApart(ms, refs);
    M.UnrefCounted(h, refs + multiset(ms[1..]), ms[0]);
  }

  lemma FirstApart(ms: seq<nat>, refs: multiset<nat>)
    requires ms != []
    ensures refs + multiset(ms) == (refs + multiset(ms[1..])) + multiset{ms[0]}
  {
    assert ms == [ms[0]] + ms[1..];
  }

  lemma UnderStep(ts: seq<Topic>, prefix: string)
    requires ts != []
    ensures var ms, rest := StickiesUnder(ts, prefix), StickiesUnder(ts[1..], prefix);
      if HasSticky(ts[0], prefix) then ms != [] && ms[0] == ts[0].sticky.value && ms[1..] == rest else ms == rest
  {
    assert [] + StickiesUnder(ts[1..], prefix) == StickiesUnder(ts[1..], prefix);
  }

  lemma UnderNothing(ts: seq<Topic>, prefix: string)
    ensures StickiesUnder(ts[|ts|..], prefix) == []
  {
  }

  lemma CoversSays(prefix: string, t: string)
    ensures Covers(prefix, t) <==> |prefix| == 0 || (prefix <= t && (|t| == |prefix| || t[|prefix|] == '.'))
  {
  }

  lemma {:induction false} StickyHeld(ts: seq<Topic>, i: nat)
    requires i < |ts| && ts[i].sticky.Some?
    ensures ts[i].sticky.value in StickyRefs(ts)
  {
    if i > 0 {
      StickyHeld(ts[1..], i - 1);
    }
  }

  lemma PushStickiesStep(s: State, su: nat, ms: seq<nat>, prio: nat)
    requires su < |s.sus| && ms != []
    ensures PushStickies(s, su, ms, prio) == PushStickies(PushTo(s, su, ms[0], prio), su, ms[1..], prio)
  {
  }

  lemma PushStickiesNothing(s: State, su: nat, prio: nat)
    requires su < |s.sus|
    ensures PushStickies(s, su, [], prio) == s
  {
  }

  lemma PushAlive(s: State, su: nat, m: nat, prio: nat)
    requires su < |s.sus|
    ensures PushTo(s, su, m, prio).sus[su].alive == s.sus[su].alive
  {
  }

  lemma NotCreated(ts: seq<Topic>, t: string, i: nat, su: nat)
    requires i == Find(ts, t) && (i < |ts| ==> Subscribed(ts[i].subscribers, su))
    ensures i < |ts| ==> Subscribed(SubscribersAt(ts, t), su)
  {
  }

  lemma CreatedIsAbsent(ts: seq<Topic>, t: string, su: nat)
    ensures Find(ts, t) == |ts| ==> !Subscribed(SubscribersAt(ts, t), su)
  {
  }

  lemma FindReplaced(ts: seq<Topic>, ts': seq<Topic>, t: string, i: nat)
    requires i == Find(ts, t) && i < |ts'| && ts'[i].name == t
    requires forall j :: 0 <= j < i ==> j < |ts| && ts'[j].name == ts[j].name
    ensures Find(ts', t) == i
  {
    hide Find;
  }

  lemma TargetsUnfold(ts: seq<Topic>, t: string, recursive: bool)
    ensures Targets(ts, t, recursive) == SubscribersAt(ts, t) +
      if recursive && t != "" then Targets(ts, Parent(t), recursive) else []
  {
  }

  lemma SplitRange(s: State, a: seq<Subscription>, b: seq<Subscription>, n: nat)
    requires n == |s.sus| && InRange(a + b, n) && AllAlive(s, a + b)
    ensures InRange(a, n) && InRange(b, n) && AllAlive(s, a) && AllAlive(s, b)
  {
    assert forall i :: 0 <= i < |a| ==> (a + b)[i] == a[i];
    assert forall i :: 0 <= i < |b| ==> (a + b)[|a| + i] == b[i];
  }

  lemma StillAlive(s: State, s': State, l: seq<Subscription>)
    requires InRange(l, |s.sus|) && AllAlive(s, l) && SameLists(s, s')
    ensures InRange(l, |s'.sus|) && AllAlive(s', l)
  {
  }

  lemma FindAppended(ts: seq<Topic>, t: string)
    requires Find(ts, t) == |ts|
    ensures Find(ts + [Topic(t, [], None)], t) == |ts|
  {
    hide Find;
    assert (ts + [Topic(t, [], None)])[|ts|].name == t;
  }

  lemma PushSameLists(s: State, su: nat, m: nat, prio: nat)
    requires su < |s.sus|
    ensures SameLists(s, PushTo(s, su, m, prio))
  {
  }

  class Broker {
    var topics: seq<Topic>
    var sus: seq<Subscriber>
    var liveSus: int
    var store: M.Store
    /** Message references held by callers; not part of the program's memory. */
    ghost var handles: multiset<nat>
    ghost var log: seq<Event>

    ghost function St(): State
      reads this
    {
      State(topics, sus, liveSus, store, handles, log)
    }

    constructor ()
      ensures St() == INIT && Inv(St())
    {
      topics, sus, liveSus, store, handles, log := [], [], 0, M.NO_MESSAGES, multiset{}, [];
      new;
      InitInv();
    }

    // ----- messages -----

    /** ps_ref_msg on the store. */
    method TakeRef(m: nat)
      requires m in store.msgs
      modifies this`store
      ensures store == M.Ref(old(store), m)
    {
      var msg := store.msgs[m];
      store := store.(msgs := store.msgs[m := msg.(ref := msg.ref + 1)]);
    }

    /** ps_unref_msg on the store: the last reference frees the message. */
    method DropRef(m: nat)
      requires m in store.msgs
      modifies this`store
      ensures store == M.Unref(old(store), m)
    {
      var msg := store.msgs[m];
      if msg.ref - 1 == 0 {
        store := store.(msgs := store.msgs - {m}, live := store.live - 1);
      } else {
        store := store.(msgs := store.msgs[m := msg.(ref := msg.ref - 1)]);
      }
    }

    method NewMessage(topic: string, sticky: bool, nonRecursive: bool) returns (m: nat)
      requires Inv(St())
      modifies this
      ensures (St(), m) == NewMsg(old(St()), topic, sticky, nonRecursive) && Inv(St())
      ensures m !in old(store.msgs) && m in store.msgs
      ensures store.msgs[m] == M.Message(1, topic, sticky, nonRecursive)
    {
      hide Inv, QueueRefs, StickyRefs;
      InvReady(St());
      NewMsgRefs(St(), topic, sticky, nonRecursive, NONE);
      NextInv(St(), NewMsgCall(topic, sticky, nonRecursive));
      m := store.next;
      store := M.Store(store.msgs[m := M.Message(1, topic, sticky, nonRecursive)], store.live + 1, m + 1);
      handles := handles + multiset{m};
    }

    /** ps_unref_msg by a caller. */
    method Release(m: nat)
      requires Inv(St()) && m in handles
      modifies this
      ensures St() == UnrefMsg(old(St()), m) && Inv(St())
    {
      hide Inv, QueueRefs, StickyRefs;
      InvReady(St());
      NextInv(St(), UnrefCall(m));
      DropRef(m);
      handles := handles - multiset{m};
    }

    // ----- delivery -----

    /**
     * push_subscriber_queue.  `alert` says whether this is the moment for non_empty_cb: the
     * push was a plain store into an empty queue.  new_msg_cb is due whenever `ret` is 0.
     */
    method PushSubscriberQueue(su: nat, m: nat, prio: nat, ghost extra: multiset<nat>) returns (ret: int, alert: bool)
      requires Ready(St(), extra) && su < |sus| && sus[su].alive && m in AllRefs(St()) + extra
      modifies this`sus, this`store, this`log
      ensures St() == PushTo(old(St()), su, m, prio) && Ready(St(), extra)
      ensures ret == if PushCode(old(St()), su, m, prio) == Ok then 0 else -1
      ensures alert <==> ret == 0 && old(sus[su].q) == []
    {
      hide Push, AllRefs, RefsOk, QueuesOk, M.Ref, M.Unref;
      LostIsLive(St(), su, m, prio, extra);
      PlainStoreGrows(sus[su].q, sus[su].cap, Entry(prio, m));
      PushToRefs(St(), su, m, prio, extra);
      var x := sus[su];
      var r := Push(x.q, x.cap, Entry(prio, m));
      TakeRef(m);
      x := x.(q := r.q);
      ret := 0;
      if r.lost != [] {
        DropRef(r.lost[0].msg);
      }
      if r.code != Ok {
        x := x.(overflow := x.overflow + 1);
        ret := -1;
      }
      sus := sus[su := x];
      log := log + [Attempt(su, m, prio, r.code)];
      alert := ret == 0 && |x.q| == 1;
    }

    /** The inner loop of ps_publish: one topic's subscribers. */
    method DeliverTopic(l: seq<Subscription>, m: nat) returns (n: nat)
      requires InRange(l, |sus|) && AllAlive(St(), l)
      requires Ready(St(), multiset{m})
      modifies this`sus, this`store, this`log
      ensures |sus| == |old(sus)| && (St(), n) == Deliver(old(St()), m, l)
      ensures Ready(St(), multiset{m}) && SameLists(old(St()), St())
    {
      hide Ready, PushTo, Deliver, RefsOk, QueuesOk, AllRefs;
      n := 0;
      DeliverNothing(St(), m);
      ghost var s0 := St();
      DeliverSameLists(s0, m, l);
      for i := 0 to |l|
        invariant |sus| == |s0.sus| && SameLists(s0, St()) && Ready(St(), multiset{m})
        invariant InRange(l[i..], |sus|)
        invariant var r := Deliver(St(), m, l[i..]); Deliver(s0, m, l) == (r.0, n + r.1)
      {
        var x := l[i];
        assert l[i..][0] == x && l[i..][1..] == l[i + 1..];
        DeliverStep(St(), m, l[i..]);
        assert s0.sus[x.su].alive;
        if !(x.onEmpty && |sus[x.su].q| != 0) {
          ghost var was := St();
          var ret, alert := PushSubscriberQueue(x.su, m, x.prio, multiset{m});
          PushSameLists(was, x.su, m, x.prio);
          if ret == 0 && !x.hidden {
            n := n + 1;
          }
        }
      }
      assert l[|l|..] == [];
      DeliverNothing(St(), m);
    }

    /** The sticky rule of ps_publish at the exact topic. */
    method ApplySticky(t: string, m: nat, sticky: bool)
      requires Ready(St(), multiset{m}) && TopicsOk(topics) && ' ' !in t
      modifies this`topics, this`store, this`log
      ensures St() == UpdateSticky(old(St()), t, m, sticky) && Ready(St(), multiset{m})
    {
      hide RefsOk, QueuesOk, TopicsOk, Find, Subscribed;
      UpdateStickyRefs(St(), t, m, sticky, multiset{m});
      SameSusQueues(St(), UpdateSticky(St(), t, m, sticky));
      SlotIsLive(St(), t, m);
      var i := Find(topics, t);
      if sticky {
        if i == |topics| {
          topics := topics + [Topic(t, [], None)];
          FindAppended(old(topics), t);
        }
        if topics[i].sticky.Some? {
          DropRef(topics[i].sticky.value);
        }
        TakeRef(m);
        topics := topics[i := topics[i].(sticky := Some(m))];
      } else if i < |topics| && topics[i].sticky.Some? {
        DropRef(topics[i].sticky.value);
        topics := topics[i := topics[i].(sticky := None)];
        if Unused(topics[i]) {
          topics := RemoveAt(topics, i);
        }
      }
      log := log + [Published(t, m, sticky)];
    }

    /** The outer loop of ps_publish on its copy of the topic: towards the root, unless non-recursive. */
    method WalkAndDeliver(start: string, m: nat, recursive: bool) returns (ret: nat)
      requires NUL !in start
      requires InRange(Targets(topics, start, recursive), |sus|) && AllAlive(St(), Targets(topics, start, recursive))
      requires Ready(St(), multiset{m})
      modifies this`sus, this`store, this`log
      ensures |sus| == |old(sus)| && (St(), ret) == Deliver(old(St()), m, Targets(topics, start, recursive))
      ensures Ready(St(), multiset{m})
    {
      hide Ready, Deliver, Targets, Parent, PushTo, SameLists, CStr, InRange, AllAlive;
      var buf := StrDup(start);
      var t := start;
      ghost var s1 := St();
      ghost var rest := Targets(topics, t, recursive);
      ret := 0;
      while true
        invariant fresh(buf) && NUL in buf[..] && CStr(buf[..]) == t
        invariant |sus| == |s1.sus| && Ready(St(), multiset{m})
        invariant InRange(rest, |sus|) && AllAlive(St(), rest)
        invariant rest == Targets(topics, t, recursive)
        invariant var r := Deliver(St(), m, rest); Deliver(s1, m, Targets(topics, start, recursive)) == (r.0, ret + r.1)
        decreases |t|
      {
        TargetsUnfold(topics, t, recursive);
        var i := Find(topics, t);
        var l := if i < |topics| then topics[i].subscribers else [];
        ghost var further := if recursive && t != "" then Targets(topics, Parent(t), recursive) else [];
        SplitRange(St(), l, further, |sus|);
        DeliverConcat(St(), m, l, further);
        ghost var before := St();
        var n := DeliverTopic(l, m);
        StillAlive(before, St(), further);
        ret := ret + n;
        DeliverNothing(St(), m);
        if !recursive {
          break;
        }
        if |t| == 0 {
          break;
        }
        rest := further;
        Truncate(buf);
        t := Contents(buf);
      }
    }

    /**
     * ps_publish: the sticky rule, then delivery along the walk, then the caller's
     * reference is dropped.  Returns the number of visible deliveries.
     */
    method PublishMessage(m: nat) returns (ret: nat)
      requires Inv(St()) && m in handles
      requires m in store.msgs ==> NUL !in store.msgs[m].topic
      modifies this
      ensures m in old(store.msgs) && InRange(MetBy(old(St()), m), |old(sus)|)
      ensures (St(), ret) == Publish(old(St()), m) && Inv(St())
    {
      hide Inv, RefsOk, QueuesOk, RegistryOk, Deliver, UpdateSticky, Targets, AllRefs, TopicsOk, Ready;
      ghost var s := St();
      InvReady(s);
      AllowedCallsAreDefined(s, PublishCall(m));
      NextInv(s, PublishCall(m));
      StartPublish(s, m);
      var msg := store.msgs[m];
      var n := FindSpace(msg.topic);
      var t := msg.topic[..n];
      assert t == StripFlags(msg.topic);
      handles := handles - multiset{m};
      SameTopics(s, St(), t, m, msg.sticky);
      SameSus(St(), t, m, msg.sticky);
      ApplySticky(t, m, msg.sticky);
      ret := WalkAndDeliver(t, m, !msg.nonRecursive);
      ReadyHolds(St(), m);
      DropRef(m);
    }

    // ----- subscriptions -----

    /** push_child_sticky: the scan over all topics. */
    method PushChildSticky(su: nat, prefix: string, prio: nat)
      requires Ready(St(), NONE) && su < |sus| && sus[su].alive
      modifies this`sus, this`store, this`log
      ensures |sus| == |old(sus)|
      ensures St() == PushStickies(old(St()), su, StickiesUnder(topics, prefix), prio) && Ready(St(), NONE)
    {
      hide Ready, PushTo, PushStickies, StickiesUnder, Covers, StickyRefs, SameLists;
      ghost var s0 := St();
      ghost var all := StickiesUnder(topics, prefix);
      assert topics[0..] == topics;
      for i := 0 to |topics|
        invariant |sus| == |s0.sus| && St().sus[su].alive
        invariant Ready(St(), NONE)
        invariant PushStickies(s0, su, all, prio) == PushStickies(St(), su, StickiesUnder(topics[i..], prefix), prio)
      {
        var tm := topics[i];
        assert topics[i..][0] == tm && topics[i..][1..] == topics[i + 1..];
        UnderStep(topics[i..], prefix);
        if |prefix| == 0 || (prefix <= tm.name && (|tm.name| == |prefix| || tm.name[|prefix|] == '.')) {
          CoversSays(prefix, tm.name);
          if tm.sticky.Some? {
            StickyHeld(topics, i);
            PushStickiesStep(St(), su, StickiesUnder(topics[i..], prefix), prio);
            ghost var was := St();
            var ret, alert := PushSubscriberQueue(su, tm.sticky.value, prio, NONE);
            PushAlive(was, su, tm.sticky.value, prio);
          }
        } else {
          CoversSays(prefix, tm.name);
        }
      }
      UnderNothing(topics, prefix);
      PushStickiesNothing(St(), su, prio);
    }

    /** The end of ps_subscribe_flags: the stickies the new subscription is offered, for topic number `i`. */
    method OfferStickies(su: nat, t: string, f: SubFlags, i: nat)
      requires Ready(St(), NONE) && su < |sus| && sus[su].alive && i == Find(topics, t) < |topics|
      modifies this`sus, this`store, this`log
      ensures |sus| == |old(sus)| && St() == PushStickies(old(St()), su, Offered(topics, t, f), f.priority)
    {
      hide Find, StickiesUnder, StickyRefs, Ready, PushStickies, PushTo;
      PushStickiesNothing(St(), su, f.priority);
      if !f.noSticky {
        if f.childSticky {
          PushChildSticky(su, t, f.priority);
        } else if topics[i].sticky.Some? {
          StickyHeld(topics, i);
          var m := topics[i].sticky.value;
          BrokerDelivery.PushStickiesOne(St(), su, m, f.priority);
          var r, alert := PushSubscriberQueue(su, m, f.priority, NONE);
        }
      }
    }

    /** ps_subscribe_flags. */
    method SubscribeTo(su: nat, orig: string, base: SubFlags) returns (ret: int)
      requires Inv(St()) && Live(St(), su) && base.priority < PRIORITIES
      modifies this
      ensures |sus| == |old(sus)| && (St(), ret) == Subscribe(old(St()), su, orig, base) && Inv(St())
    {
      hide Inv, StripFlags, ParseFlags, FlagPart, Find, IndexOf, StickiesUnder, StickyRefs, RefsOk, QueuesOk,
           RegistryOk, TopicsOk, Ready, PushStickies, PushTo;
      ghost var s := St();
      InvReady(s);
      NextInv(s, SubscribeCall(su, orig, base));
      var t, f := ParseSubscription(orig, base);
      var i := Find(topics, t);
      if i == |topics| {
        topics := topics + [Topic(t, [], None)];
        FindAppended(s.topics, t);
      }
      if IndexOf(topics[i].subscribers, su) < |topics[i].subscribers| {
        NotCreated(s.topics, t, i, su);
        return -1;
      }
      topics := topics[i := topics[i].(
        subscribers := topics[i].subscribers + [Subscription(su, f.hidden, f.onEmpty, f.priority)])];
      sus := sus[su := sus[su].(subs := sus[su].subs + [t])];
      CreatedIsAbsent(s.topics, t, su);
      assert St() == Enrol(s, su, t, f);
      EnrolReady(s, su, t, f);
      FindReplaced(s.topics, topics, t, i);
      OfferStickies(su, t, f, i);
      return 0;
    }

    /** The topic side of leaving topic number `i`: delete the subscription, free the topic if unused. */
    method LeaveTopic(i: nat, k: nat, ghost su: nat)
      requires i < |topics| && Find(topics, topics[i].name) == i
      requires k == IndexOf(topics[i].subscribers, su) < |topics[i].subscribers|
      modifies this`topics
      ensures topics == Leave(old(topics), su, old(topics[i].name))
    {
      hide Find, IndexOf;
      topics := topics[i := topics[i].(subscribers := RemoveAt(topics[i].subscribers, k))];
      if Unused(topics[i]) {
        topics := RemoveAt(topics, i);
      }
    }

    /** ps_unsubscribe. */
    method UnsubscribeFrom(su: nat, orig: string) returns (ret: int)
      requires Inv(St()) && Live(St(), su)
      modifies this
      ensures (St(), ret) == Unsubscribe(old(St()), su, orig) && Inv(St())
    {
      hide Inv, StripFlags, Find, IndexOf, Leave, RemoveName;
      NextInv(St(), UnsubscribeCall(su, orig));
      var n := FindSpace(orig);
      var t := orig[..n];
      var i := Find(topics, t);
      if i == |topics| {
        NobodyThere(su);
        return -1;
      }
      var k := IndexOf(topics[i].subscribers, su);
      if k == |topics[i].subscribers| {
        return -1;
      }
      LeaveTopic(i, k, su);
      sus := sus[su := sus[su].(subs := RemoveName(sus[su].subs, t))];
      return 0;
    }

    /** ps_unsubscribe_all: walks the subscriber's own list. */
    method UnsubscribeFromAll(su: nat) returns (count: nat)
      requires Inv(St()) && Live(St(), su)
      modifies this
      ensures (St(), count) == UnsubscribeAll(old(St()), su) && Inv(St())
    {
      hide Inv, Find, IndexOf, Leave, LeaveAll;
      NextInv(St(), UnsubscribeAllCall(su));
      ghost var ts := topics;
      var names := sus[su].subs;
      count := 0;
      assert names[0..] == names;
      while count < |names|
        invariant 0 <= count <= |names|
        invariant sus == old(sus) && liveSus == old(liveSus) && store == old(store) &&
                  handles == old(handles) && log == old(log)
        invariant LeaveAll(topics, su, names[count..]) == LeaveAll(ts, su, names)
      {
        var t := names[count];
        assert names[count..][0] == t && names[count..][1..] == names[count + 1..];
        LeaveAllStep(topics, su, names[count..]);
        var i := Find(topics, t);
        if i < |topics| {
          var k := IndexOf(topics[i].subscribers, su);
          if k < |topics[i].subscribers| {
            LeaveTopic(i, k, su);
          } else {
            LeaveNothing(topics, su, t);
          }
        } else {
          LeaveNothing(topics, su, t);
        }
        count := count + 1;
      }
      LeaveAllNothing(topics, su, names);
      sus := sus[su := sus[su].(subs := [])];
    }

    // ----- subscribers -----

    /** ps_new_subscriber without initial topics. */
    method AddSubscriber(cap: nat) returns (su: nat)
      requires Inv(St())
      modifies this
      ensures (St(), su) == NewSubscriber(old(St()), cap) && Inv(St())
      ensures su == |old(sus)| && |sus| == su + 1
    {
      hide Inv;
      NextInv(St(), NewSubscriberCall(cap));
      su := |sus|;
      sus := sus + [Subscriber(true, cap, [], [], 0)];
      liveSus := liveSus + 1;
    }

    /** ps_get with no concurrent caller: the caller receives the queue's reference. */
    method GetMessage(su: nat) returns (msg: Option<nat>)
      requires Inv(St()) && Live(St(), su)
      modifies this
      ensures |sus| == |old(sus)| && (St(), msg) == Get(old(St()), su) && Inv(St()) && Live(St(), su)
    {
      hide Inv;
      NextInv(St(), GetCall(su));
      if sus[su].q == [] {
        return None;
      }
      var m := sus[su].q[0].msg;
      msg := Some(m);
      sus := sus[su := sus[su].(q := sus[su].q[1..])];
      handles := handles + multiset{m};
      log := log + [Taken(su, m)];
    }

    /** ps_flush. */
    method FlushQueue(su: nat) returns (flushed: nat)
      requires Inv(St()) && Live(St(), su)
      modifies this
      ensures |sus| == |old(sus)| && (St(), flushed) == Flush(old(St()), su) && Inv(St()) && Live(St(), su)
    {
      hide Inv, Flush;
      ghost var s0 := St();
      flushed := 0;
      while true
        invariant |sus| == |s0.sus| && Inv(St()) && Live(St(), su)
        invariant var r := Flush(St(), su); Flush(s0, su) == (r.0, flushed + r.1)
        decreases |sus[su].q|
      {
        FlushStep(St(), su);
        var msg := GetMessage(su);
        if msg == None {
          return;
        }
        Release(msg.value);
        flushed := flushed + 1;
      }
    }

    /** ps_free_subscriber. */
    method RemoveSubscriber(su: nat)
      requires Inv(St()) && Live(St(), su)
      modifies this
      ensures St() == FreeSubscriber(old(St()), su) && Inv(St())
    {
      hide Inv, Flush, LeaveAll;
      NextInv(St(), FreeSubscriberCall(su));
      var n := UnsubscribeFromAll(su);
      n := FlushQueue(su);
      sus := sus[su := sus[su].(alive := false)];
      liveSus := liveSus - 1;
    }

    /** ps_overflow with one caller and no concurrent push. */
    method ReadOverflow(su: nat) returns (n: nat)
      requires Inv(St()) && Live(St(), su)
      modifies this
      ensures (St(), n) == TakeOverflow(old(St()), su) && Inv(St())
      ensures n == old(sus[su].overflow)
    {
      hide Inv;
      NextInv(St(), OverflowCall(su));
      n := sus[su].overflow;
      sus := sus[su := sus[su].(overflow := sus[su].overflow - n)];
      log := log + [Reported(su, n)];
    }

    // ----- sticky cleaning and counting -----

    /** ps_clean_sticky: deletes topics while it iterates over them. */
    method CleanStickies(prefix: string)
      requires Inv(St())
      modifies this
      ensures St() == CleanSticky(old(St()), prefix) && Inv(St())
    {
      hide Inv, Clean, StickiesUnder, UnrefAll, Covers, AllRefs, M.Counted, M.Unref, RemoveAt;
      NextInv(St(), CleanStickyCall(prefix));
      ghost var s := St();
      ghost var goal := CleanSticky(s, prefix);
      ghost var refs := AllRefs(goal);
      ghost var done: seq<Topic>, rest := [], topics;
      CleanStart(s, prefix);
      var i := 0;
      while i < |topics|
        invariant 0 <= i <= |topics| && i == |done| && topics == done + rest
        invariant sus == s.sus && liveSus == s.liveSus && handles == s.handles && log == s.log
        invariant done + Clean(rest, prefix) == goal.topics
        invariant UnrefAll(store, StickiesUnder(rest, prefix)) == goal.store
        invariant M.Counted(store, refs + multiset(StickiesUnder(rest, prefix)))
        decreases |rest|
      {
        var tm := topics[i];
        VisitedPart(done, rest, tm.(sticky := None));
        CleanedPart(done, tm, Clean(rest[1..], prefix));
        CleanedPart(done, tm.(sticky := None), Clean(rest[1..], prefix));
        CleanStep(rest, prefix);
        UnderStep(rest, prefix);
        CoversSays(prefix, tm.name);
        if
          && (|prefix| == 0 || (prefix <= tm.name && (|tm.name| == |prefix| || tm.name[|prefix|] == '.')))
          && tm.sticky.Some?
        {
          UnrefStep(store, StickiesUnder(rest, prefix), refs);
          DropRef(tm.sticky.value);
          topics := topics[i := tm.(sticky := None)];
          if Unused(topics[i]) {
            topics := RemoveAt(topics, i);
          } else {
            done := done + [tm.(sticky := None)];
            i := i + 1;
          }
        } else {
          done := done + [tm];
          i := i + 1;
        }
        rest := rest[1..];
      }
      CleanEnd(store, prefix);
      assert rest == [];
      log := log + [Cleaned(prefix)];
    }

    /** ps_subs_count. */
    method CountSubscriptions(topic: string) returns (count: nat)
      requires NUL !in topic
      ensures count == SubsCount(topics, StripFlags(topic))
    {
      hide Parent, Find, Visible, StripFlags, CStr;
      if |topic| == 0 {
        EmptyTopic();
        return 0;
      }
      var n := FindSpace(topic);
      var t := topic[..n];
      assert t == StripFlags(topic);
      var buf := StrDup(t);
      count := 0;
      while |t| > 0
        invariant fresh(buf) && NUL in buf[..] && CStr(buf[..]) == t
        invariant count + SubsCount(topics, t) == SubsCount(topics, StripFlags(topic))
        decreases |t|
      {
        NobodyVisible();
        var i := Find(topics, t);
        if i < |topics| {
          var c := CountVisible(topics[i].subscribers);
          count := count + c;
        }
        Truncate(buf);
        t := Contents(buf);
      }
    }

    static method CountVisible(l: seq<Subscription>) returns (count: nat)
      ensures count == Visible(l)
    {
      count := 0;
      assert l[0..] == l;
      for j := 0 to |l|
        invariant count + Visible(l[j..]) == Visible(l)
      {
        assert l[j..][0] == l[j] && l[j..][1..] == l[j + 1..];
        if !l[j].hidden {
          count := count + 1;
        }
      }
    }
  }
}
