/**
 * Reference-count conservation: in every state each live message's count is the
 * number of caller handles, queue cells and sticky slots that refer to it.
 */
module BrokerRefs {
  import opened Options
  import opened PriorityLists
  import opened Registry
  import opened Topics
  import opened BrokerModel
  import M = Messages

  /** The references held by one queue. */
  function MsgsOf(q: seq<Entry>): multiset<nat> {
    if q == [] then multiset{} else multiset{q[0].msg} + MsgsOf(q[1..])
  }

  function QueueRefs(sus: seq<Subscriber>): multiset<nat> {
    if sus == [] then multiset{} else MsgsOf(sus[0].q) + QueueRefs(sus[1..])
  }

  function AllRefs(s: State): multiset<nat> {
    s.handles + QueueRefs(s.sus) + StickyRefs(s.topics)
  }

  /** All references, with `extra` ones held by a call in progress. */
  ghost predicate RefsOk(s: State, extra: multiset<nat>) {
    M.Counted(s.store, AllRefs(s) + extra)
  }

  ghost predicate QueuesOk(s: State) {
    forall u :: 0 <= u < |s.sus| ==> QueueOk(s.sus[u].q, s.sus[u].cap) && (!s.sus[u].alive ==> s.sus[u].q == [])
  }

  // ----- algebra of the reference multisets -----

  lemma {:induction false} MsgsConcat(a: seq<Entry>, b: seq<Entry>)
    ensures MsgsOf(a + b) == MsgsOf(a) + MsgsOf(b)
  {
    if a == [] {
      assert a + b == b;
    } else {
      assert (a + b)[1..] == a[1..] + b;
      MsgsConcat(a[1..], b);
    }
  }

  lemma MsgsOne(e: Entry)
    ensures MsgsOf([e]) == multiset{e.msg}
  {
    assert [e][1..] == [];
  }

  lemma {:induction false} MsgsInsert(q: seq<Entry>, e: Entry)
    ensures MsgsOf(Insert(q, e)) == MsgsOf(q) + multiset{e.msg}
  {
    if q == [] || q[0].prio < e.prio {
      MsgsOne(e);
      MsgsConcat([e], q);
    } else {
      MsgsInsert(q[1..], e);
      MsgsOne(q[0]);
      MsgsConcat([q[0]], Insert(q[1..], e));
    }
  }

  lemma MsgsPush(q: seq<Entry>, cap: nat, e: Entry)
    requires QueueOk(q, cap)
    ensures var r := Push(q, cap, e);
      && MsgsOf(r.q) + MsgsOf(r.lost) == MsgsOf(q) + multiset{e.msg}
      && (r.lost != [] ==> MsgsOf(r.lost) == multiset{r.lost[0].msg})
  {
    PushIsTruncatedInsert(q, cap, e);
    MsgsInsert(q, e);
    var r := Push(q, cap, e);
    MsgsConcat(r.q, r.lost);
    if r.lost != [] {
      MsgsOne(r.lost[0]);
    }
  }

  lemma Swap(a: multiset<nat>, b: multiset<nat>, c: multiset<nat>)
    ensures (a + b) + c == (c + b) + a
  {
  }

  lemma SwapLast(a: multiset<nat>, b: multiset<nat>, c: multiset<nat>)
    ensures (a + b) + c == (a + c) + b
  {
  }

  lemma Shift(a: multiset<nat>, b: multiset<nat>, c: multiset<nat>, d: multiset<nat>, e: multiset<nat>)
    requires b + c == d + e
    ensures (a + b) + c == (a + d) + e
  {
    forall x ensures ((a + b) + c)[x] == ((a + d) + e)[x] {
      assert (b + c)[x] == (d + e)[x];
    }
  }

  lemma {:induction false} QueueRefsUpdate(sus: seq<Subscriber>, su: nat, x: Subscriber)
    requires su < |sus|
    ensures QueueRefs(sus[su := x]) + MsgsOf(sus[su].q) == QueueRefs(sus) + MsgsOf(x.q)
  {
    var r := sus[su := x];
    if su == 0 {
      assert r[1..] == sus[1..];
      Swap(MsgsOf(x.q), QueueRefs(sus[1..]), MsgsOf(sus[0].q));
    } else {
      assert r[1..] == sus[1..][su - 1 := x];
      QueueRefsUpdate(sus[1..], su - 1, x);
      Shift(MsgsOf(sus[0].q), QueueRefs(r[1..]), MsgsOf(sus[su].q), QueueRefs(sus[1..]), MsgsOf(x.q));
    }
  }

  lemma {:induction false} QueueRefsSnoc(sus: seq<Subscriber>, x: Subscriber)
    ensures QueueRefs(sus + [x]) == QueueRefs(sus) + MsgsOf(x.q)
  {
    if sus == [] {
      assert sus + [x] == [x] && [x][1..] == [];
    } else {
      assert (sus + [x])[1..] == sus[1..] + [x];
      QueueRefsSnoc(sus[1..], x);
    }
  }

  // ----- pushes -----

  lemma PushToQueues(s: State, su: nat, m: nat, prio: nat)
    requires QueuesOk(s) && su < |s.sus| && s.sus[su].alive
    ensures QueuesOk(PushTo(s, su, m, prio))
  {
    hide Insert;
    PushIsTruncatedInsert(s.sus[su].q, s.sus[su].cap, Entry(prio, m));
    PushLosesAtMostOne(s.sus[su].q, s.sus[su].cap, Entry(prio, m));
  }

  /** A push moves the reference it took into the queue; the queue gives up that of the lost entry. */
  lemma PushToBalance(s: State, su: nat, m: nat, prio: nat, extra: multiset<nat>)
    requires QueuesOk(s) && su < |s.sus|
    ensures var lost := Push(s.sus[su].q, s.sus[su].cap, Entry(prio, m)).lost;
      && |lost| <= 1
      && (AllRefs(PushTo(s, su, m, prio)) + extra) + MsgsOf(lost) == (AllRefs(s) + extra) + multiset{m}
  {
    hide MsgsOf, QueueRefs, StickyRefs, Insert, M.Ref, M.Unref;
    var x, e := s.sus[su], Entry(prio, m);
    var r, s' := Push(x.q, x.cap, e), PushTo(s, su, m, prio);
    PushLosesAtMostOne(x.q, x.cap, e);
    MsgsPush(x.q, x.cap, e);
    QueueRefsUpdate(s.sus, su, s'.sus[su]);
    Rearrange(s.handles, QueueRefs(s.sus), StickyRefs(s.topics), extra, QueueRefs(s'.sus),
              MsgsOf(x.q), MsgsOf(r.q), MsgsOf(r.lost), multiset{m});
  }

  /** A push keeps every reference count exact and every queue in order. */
  lemma PushToRefs(s: State, su: nat, m: nat, prio: nat, extra: multiset<nat>)
    requires RefsOk(s, extra) && QueuesOk(s) && su < |s.sus| && s.sus[su].alive && m in AllRefs(s) + extra
    ensures RefsOk(PushTo(s, su, m, prio), extra) && QueuesOk(PushTo(s, su, m, prio))
  {
    hide MsgsOf, QueueRefs, StickyRefs, Push, M.Counted, M.Ref, M.Unref, AllRefs, QueuesOk;
    var refs, refs' := AllRefs(s) + extra, AllRefs(PushTo(s, su, m, prio)) + extra;
    var lost := Push(s.sus[su].q, s.sus[su].cap, Entry(prio, m)).lost;
    PushToQueues(s, su, m, prio);
    PushToBalance(s, su, m, prio, extra);
    LiveWhenCounted(s.store, refs, m);
    M.RefCounted(s.store, refs, m);
    if lost == [] {
      EmptyMsgs();
      AddNone(refs');
    } else {
      assert lost == [lost[0]];
      MsgsOne(lost[0]);
      M.UnrefCounted(M.Ref(s.store, m), refs', lost[0].msg);
    }
  }

  lemma EmptyMsgs()
    ensures MsgsOf([]) == multiset{}
  {
  }

  lemma Rearrange(h: multiset<nat>, q: multiset<nat>, t: multiset<nat>, x: multiset<nat>, q': multiset<nat>,
                  was: multiset<nat>, now: multiset<nat>, lost: multiset<nat>, m: multiset<nat>)
    requires q' + was == q + now && now + lost == was + m
    ensures (h + q' + t + x) + lost == (h + q + t + x) + m
  {
    forall a ensures ((h + q' + t + x) + lost)[a] == ((h + q + t + x) + m)[a] {
      assert (q' + was)[a] == (q + now)[a];
      assert (now + lost)[a] == (was + m)[a];
    }
  }

  lemma {:induction false} DeliverRefs(s: State, m: nat, l: seq<Subscription>, extra: multiset<nat>)
    requires InRange(l, |s.sus|) && (forall i :: 0 <= i < |l| ==> s.sus[l[i].su].alive)
    requires RefsOk(s, extra) && QueuesOk(s) && m in extra
    ensures RefsOk(Deliver(s, m, l).0, extra) && QueuesOk(Deliver(s, m, l).0)
    decreases |l|
  {
    hide RefsOk, QueuesOk;
    if l != [] {
      if Skipped(s, l[0]) {
        DeliverRefs(s, m, l[1..], extra);
      } else {
        PushToRefs(s, l[0].su, m, l[0].prio, extra);
        DeliverRefs(PushTo(s, l[0].su, m, l[0].prio), m, l[1..], extra);
      }
    }
  }

  lemma {:induction false} PushStickiesRefs(s: State, su: nat, ms: seq<nat>, prio: nat)
    requires su < |s.sus| && s.sus[su].alive && RefsOk(s, multiset{}) && QueuesOk(s)
    requires forall i :: 0 <= i < |ms| ==> ms[i] in StickyRefs(s.topics)
    ensures var r := PushStickies(s, su, ms, prio); RefsOk(r, multiset{}) && QueuesOk(r)
    decreases |ms|
  {
    hide RefsOk, QueuesOk, StickyRefs;
    if ms != [] {
      PushToRefs(s, su, ms[0], prio, multiset{});
      PushStickiesRefs(PushTo(s, su, ms[0], prio), su, ms[1..], prio);
    }
  }

  // ----- sticky slots -----

  lemma ExchangeHeld(hs: multiset<nat>, q: multiset<nat>, t: multiset<nat>, t': multiset<nat>, x: multiset<nat>,
                     was: multiset<nat>, now: multiset<nat>)
    requires t' + was == t + now
    ensures (hs + q + t' + x) + was == (hs + q + t + x) + now
  {
    forall a ensures ((hs + q + t' + x) + was)[a] == ((hs + q + t + x) + now)[a] {
      assert (t' + was)[a] == (t + now)[a];
    }
  }

  /** The sticky rule drops the old slot's reference and takes one for the new slot. */
  lemma UpdateStickyRefs(s: State, t: string, m: nat, sticky: bool, extra: multiset<nat>)
    requires RefsOk(s, extra) && m in extra
    ensures RefsOk(UpdateSticky(s, t, m, sticky), extra)
  {
    hide StickyRefs, QueueRefs, Put, StickyAt;
    var was := StickyAt(s.topics, t);
    var s' := UpdateSticky(s, t, m, sticky);
    var now := if sticky then Some(m) else None;
    var refs, refs' := AllRefs(s) + extra, AllRefs(s') + extra;
    StickyRefsPut(s.topics, Topic(t, At(s, t), now));
    ExchangeHeld(s.handles, QueueRefs(s.sus), StickyRefs(s.topics),
                 StickyRefs(Put(s.topics, Topic(t, At(s, t), now))), extra, Held(was), Held(now));
    if !sticky && was == None {
      assert refs' == refs;
    } else {
      assert refs' + Held(was) == refs + Held(now);
      HeldBySlot(s.topics, t);
      StoreExchange(s.store, refs, refs', was, now, m, extra);
    }
  }

  lemma StoreExchange(h: M.Store, refs: multiset<nat>, refs': multiset<nat>, was: Option<nat>, now: Option<nat>,
                      m: nat, extra: multiset<nat>)
    requires M.Counted(h, refs) && refs' + Held(was) == refs + Held(now)
    requires now == None || now == Some(m)
    requires m in extra && extra + Held(was) <= refs
    ensures var h1 := if was.Some? then M.Unref(h, was.value) else h;
      M.Counted(if now.Some? then M.Ref(h1, m) else h1, refs')
  {
    hide M.Unref, M.Ref, M.Counted;
    if was.Some? {
      var rest := refs - Held(was);
      assert refs == rest + Held(was) && m in rest;
      M.UnrefCounted(h, rest, was.value);
      SwapLast(rest, Held(was), Held(now));
      Cancel(refs', rest + Held(now), Held(was));
      TakeHeld(M.Unref(h, was.value), rest, refs', now, m);
    } else {
      assert refs' == refs + Held(now);
      TakeHeld(h, refs, refs', now, m);
    }
  }

  lemma TakeHeld(h: M.Store, refs: multiset<nat>, refs': multiset<nat>, now: Option<nat>, m: nat)
    requires M.Counted(h, refs) && refs' == refs + Held(now) && m in refs
    requires now == None || now == Some(m)
    ensures M.Counted(if now.Some? then M.Ref(h, m) else h, refs')
  {
    if now.Some? {
      LiveWhenCounted(h, refs, m);
      M.RefCounted(h, refs, m);
    } else {
      assert refs' == refs;
    }
  }

  lemma LiveWhenCounted(h: M.Store, refs: multiset<nat>, m: nat)
    requires M.Counted(h, refs) && m in refs
    ensures m in h.msgs
  {
  }

  lemma Cancel(a: multiset<nat>, b: multiset<nat>, c: multiset<nat>)
    requires a + c == b + c
    ensures a == b
  {
    forall x ensures a[x] == b[x] {
      assert (a + c)[x] == (b + c)[x];
    }
  }

  // ----- every call conserves references -----

  const NONE: multiset<nat> := multiset{}

  lemma AddNone(a: multiset<nat>)
    ensures a + NONE == a
  {
  }

  /** Moving a reference between a caller handle and a call in progress changes no count. */
  lemma HandleMoves(s: State, m: nat, h: multiset<nat>, extra: multiset<nat>)
    requires s.handles == h + multiset{m}
    ensures AllRefs(s) + extra == (AllRefs(s.(handles := h)) + extra) + multiset{m}
  {
    hide QueueRefs, StickyRefs;
    var q, t, x := QueueRefs(s.sus), StickyRefs(s.topics), multiset{m};
    SwapLast(h, x, q);
    SwapLast(h + q, x, t);
    SwapLast(h + q + t, x, extra);
  }

  predicate AllAlive(s: State, l: seq<Subscription>)
    requires InRange(l, |s.sus|)
  {
    forall i :: 0 <= i < |l| ==> s.sus[l[i].su].alive
  }

  /** ps_publish consumes the caller's reference and keeps all other counts right. */
  lemma PublishRefs(s: State, m: nat)
    requires RefsOk(s, NONE) && QueuesOk(s) && m in s.handles && m in s.store.msgs
    requires InRange(MetBy(s, m), |s.sus|) && AllAlive(s, MetBy(s, m))
    ensures RefsOk(Publish(s, m).0, NONE) && QueuesOk(Publish(s, m).0)
  {
    hide QueueRefs, StickyRefs, Deliver, MetBy, StripFlags, M.Counted, M.Unref, M.Ref, StickyAt, Put;
    var msg := s.store.msgs[m];
    var s0 := s.(handles := s.handles - multiset{m});
    assert s.handles == s0.handles + multiset{m};
    HandleMoves(s, m, s0.handles, NONE);
    AddNone(AllRefs(s0));
    var s1 := UpdateSticky(s0, StripFlags(msg.topic), m, msg.sticky);
    UpdateStickyRefs(s0, StripFlags(msg.topic), m, msg.sticky, multiset{m});
    DeliverRefs(s1, m, MetBy(s, m), multiset{m});
    var s2 := Deliver(s1, m, MetBy(s, m)).0;
    M.UnrefCounted(s2.store, AllRefs(s2), m);
    AddNone(AllRefs(s2));
  }

  lemma PutSameSticky(ts: seq<Topic>, name: string, l: seq<Subscription>)
    ensures StickyRefs(Put(ts, Topic(name, l, StickyAt(ts, name)))) == StickyRefs(ts)
  {
    var t := Topic(name, l, StickyAt(ts, name));
    StickyRefsPut(ts, t);
    Cancel(StickyRefs(Put(ts, t)), StickyRefs(ts), Held(t.sticky));
  }

  lemma {:induction false} StickiesAreHeld(ts: seq<Topic>, prefix: string)
    ensures multiset(StickiesUnder(ts, prefix)) <= StickyRefs(ts)
  {
    if ts != [] {
      StickiesAreHeld(ts[1..], prefix);
    }
  }

  lemma OfferedAreHeld(ts: seq<Topic>, t: string, f: SubFlags)
    ensures forall i :: 0 <= i < |Offered(ts, t, f)| ==> Offered(ts, t, f)[i] in StickyRefs(ts)
  {
    hide StickiesUnder, StickyRefs, StickyAt;
    StickiesAreHeld(ts, t);
    HeldBySlot(ts, t);
    var o := Offered(ts, t, f);
    if !f.noSticky && !f.childSticky && StickyAt(ts, t).Some? {
      assert o[0] in Held(StickyAt(ts, t));
    } else {
      assert forall i :: 0 <= i < |o| ==> o[i] in multiset(o);
    }
  }

  lemma SubscribeRefs(s: State, su: nat, orig: string, base: SubFlags)
    requires RefsOk(s, NONE) && QueuesOk(s) && su < |s.sus| && s.sus[su].alive
    ensures RefsOk(Subscribe(s, su, orig, base).0, NONE) && QueuesOk(Subscribe(s, su, orig, base).0)
  {
    hide QueueRefs, StickyRefs, StripFlags, ParseFlags, Put, Offered, IndexOf;
    var t, f := StripFlags(orig), ParseFlags(FlagPart(orig), base);
    if !Subscribed(At(s, t), su) {
      var s1 := Enrol(s, su, t, f);
      PutSameSticky(s.topics, t, At(s, t) + [Subscription(su, f.hidden, f.onEmpty, f.priority)]);
      SameQueues(s.sus, su, s1.sus[su]);
      OfferedAreHeld(s1.topics, t, f);
      PushStickiesRefs(s1, su, Offered(s1.topics, t, f), f.priority);
    }
  }

  lemma SameQueues(sus: seq<Subscriber>, su: nat, x: Subscriber)
    requires su < |sus| && x.q == sus[su].q
    ensures QueueRefs(sus[su := x]) == QueueRefs(sus)
  {
    QueueRefsUpdate(sus, su, x);
    Cancel(QueueRefs(sus[su := x]), QueueRefs(sus), MsgsOf(x.q));
  }

  lemma LeaveRefs(ts: seq<Topic>, su: nat, t: string)
    ensures StickyRefs(Leave(ts, su, t)) == StickyRefs(ts)
  {
    PutSameSticky(ts, t, Without(SubscribersAt(ts, t), su));
  }

  lemma {:induction false} LeaveAllRefs(ts: seq<Topic>, su: nat, names: seq<string>)
    ensures StickyRefs(LeaveAll(ts, su, names)) == StickyRefs(ts)
    decreases |names|
  {
    if names != [] {
      LeaveRefs(ts, su, names[0]);
      LeaveAllRefs(Leave(ts, su, names[0]), su, names[1..]);
    }
  }

  lemma UnsubscribeRefs(s: State, su: nat, orig: string)
    requires RefsOk(s, NONE) && QueuesOk(s) && su < |s.sus|
    ensures RefsOk(Unsubscribe(s, su, orig).0, NONE) && QueuesOk(Unsubscribe(s, su, orig).0)
  {
    hide QueueRefs, StickyRefs, StripFlags, Leave;
    var s' := Unsubscribe(s, su, orig).0;
    LeaveRefs(s.topics, su, StripFlags(orig));
    SameQueues(s.sus, su, s'.sus[su]);
  }

  lemma UnsubscribeAllRefs(s: State, su: nat)
    requires RefsOk(s, NONE) && QueuesOk(s) && su < |s.sus|
    ensures RefsOk(UnsubscribeAll(s, su).0, NONE) && QueuesOk(UnsubscribeAll(s, su).0)
  {
    hide QueueRefs, StickyRefs, LeaveAll;
    LeaveAllRefs(s.topics, su, s.sus[su].subs);
    SameQueues(s.sus, su, s.sus[su].(subs := []));
  }

  /** ps_get hands the queue's reference to the caller. */
  lemma GetRefs(s: State, su: nat, extra: multiset<nat>)
    requires RefsOk(s, extra) && QueuesOk(s) && su < |s.sus|
    ensures RefsOk(Get(s, su).0, extra) && QueuesOk(Get(s, su).0)
    ensures Get(s, su).1.Some? ==> Get(s, su).1.value in Get(s, su).0.handles
  {
    hide QueueRefs, StickyRefs, MsgsOf;
    var x := s.sus[su];
    if x.q != [] {
      var e, rest := x.q[0], x.q[1..];
      var s' := Get(s, su).0;
      assert x.q == [e] + rest;
      MsgsOne(e);
      MsgsConcat([e], rest);
      QueueRefsUpdate(s.sus, su, s'.sus[su]);
      PullMoves(s.handles, QueueRefs(s.sus), StickyRefs(s.topics), QueueRefs(s'.sus), MsgsOf(rest), multiset{e.msg});
    }
  }

  lemma PullMoves(h: multiset<nat>, q: multiset<nat>, t: multiset<nat>,
                  q': multiset<nat>, rest: multiset<nat>, m: multiset<nat>)
    requires q' + (m + rest) == q + rest
    ensures (h + m) + q' + t == h + q + t
  {
    forall x ensures ((h + m) + q' + t)[x] == (h + q + t)[x] {
      assert (q' + (m + rest))[x] == (q + rest)[x];
    }
  }

  lemma UnrefMsgRefs(s: State, m: nat, extra: multiset<nat>)
    requires RefsOk(s, extra) && m in s.handles
    ensures RefsOk(UnrefMsg(s, m), extra)
  {
    hide QueueRefs, StickyRefs;
    var s' := s.(handles := s.handles - multiset{m});
    assert s.handles == s'.handles + multiset{m};
    HandleMoves(s, m, s'.handles, extra);
    M.UnrefCounted(s.store, AllRefs(s') + extra, m);
  }

  lemma RefMsgRefs(s: State, m: nat, extra: multiset<nat>)
    requires RefsOk(s, extra) && m in s.handles
    ensures RefsOk(RefMsg(s, m), extra)
  {
    hide QueueRefs, StickyRefs;
    LiveWhenCounted(s.store, AllRefs(s) + extra, m);
    M.RefCounted(s.store, AllRefs(s) + extra, m);
    HandleMoves(RefMsg(s, m), m, s.handles, extra);
  }

  lemma NewMsgRefs(s: State, topic: string, sticky: bool, nonRecursive: bool, extra: multiset<nat>)
    requires RefsOk(s, extra)
    ensures RefsOk(NewMsg(s, topic, sticky, nonRecursive).0, extra)
    ensures NewMsg(s, topic, sticky, nonRecursive).1 !in s.store.msgs
  {
    hide QueueRefs, StickyRefs;
    M.NewCounted(s.store, AllRefs(s) + extra, topic, sticky, nonRecursive);
    HandleMoves(NewMsg(s, topic, sticky, nonRecursive).0, s.store.next, s.handles, extra);
  }

  lemma {:induction false} FlushRefs(s: State, su: nat)
    requires RefsOk(s, NONE) && QueuesOk(s) && su < |s.sus|
    ensures RefsOk(Flush(s, su).0, NONE) && QueuesOk(Flush(s, su).0)
    ensures Flush(s, su).0.handles == s.handles && Flush(s, su).0.sus[su].q == []
    decreases |s.sus[su].q|
  {
    hide RefsOk, QueuesOk;
    if s.sus[su].q != [] {
      var g := Get(s, su);
      GetRefs(s, su, NONE);
      UnrefMsgRefs(g.0, g.1.value, NONE);
      UnrefKeepsQueues(g.0, g.1.value);
      FlushRefs(UnrefMsg(g.0, g.1.value), su);
      assert UnrefMsg(g.0, g.1.value).handles == s.handles;
    }
  }

  lemma UnrefKeepsQueues(s: State, m: nat)
    requires QueuesOk(s)
    ensures QueuesOk(UnrefMsg(s, m))
  {
  }

  lemma FreeSubscriberRefs(s: State, su: nat)
    requires RefsOk(s, NONE) && QueuesOk(s) && su < |s.sus|
    ensures RefsOk(FreeSubscriber(s, su), NONE) && QueuesOk(FreeSubscriber(s, su))
  {
    hide QueueRefs, StickyRefs, Flush, LeaveAll;
    UnsubscribeAllRefs(s, su);
    var s1 := UnsubscribeAll(s, su).0;
    FlushRefs(s1, su);
    var s2 := Flush(s1, su).0;
    SameQueues(s2.sus, su, s2.sus[su].(alive := false));
  }

  lemma NewSubscriberRefs(s: State, cap: nat, extra: multiset<nat>)
    requires RefsOk(s, extra) && QueuesOk(s)
    ensures RefsOk(NewSubscriber(s, cap).0, extra) && QueuesOk(NewSubscriber(s, cap).0)
  {
    hide QueueRefs, StickyRefs;
    QueueRefsSnoc(s.sus, Subscriber(true, cap, [], [], 0));
    AddNone(QueueRefs(s.sus));
  }

  lemma TakeOverflowRefs(s: State, su: nat, extra: multiset<nat>)
    requires RefsOk(s, extra) && QueuesOk(s) && su < |s.sus|
    ensures RefsOk(TakeOverflow(s, su).0, extra) && QueuesOk(TakeOverflow(s, su).0)
  {
    hide QueueRefs, StickyRefs;
    SameQueues(s.sus, su, s.sus[su].(overflow := 0));
  }

  lemma {:induction false} UnrefAllCounted(h: M.Store, ms: seq<nat>, refs: multiset<nat>)
    requires M.Counted(h, refs + multiset(ms))
    ensures M.Counted(UnrefAll(h, ms), refs)
    decreases |ms|
  {
    hide M.Counted, M.Unref;
    if ms == [] {
      assert refs + multiset(ms) == refs;
    } else {
      var m, rest := ms[0], ms[1..];
      assert ms == [m] + rest;
      assert refs + multiset(ms) == (refs + multiset(rest)) + multiset{m};
      M.UnrefCounted(h, refs + multiset(rest), m);
      UnrefAllCounted(M.Unref(h, m), rest, refs);
    }
  }

  lemma CleanStickyRefs(s: State, prefix: string)
    requires RefsOk(s, NONE)
    ensures RefsOk(CleanSticky(s, prefix), NONE)
  {
    hide QueueRefs, StickyRefs, UnrefAll, Clean, StickiesUnder;
    var s' := CleanSticky(s, prefix);
    CleanRefs(s.topics, prefix);
    AddNone(AllRefs(s));
    AddNone(AllRefs(s'));
    var a, b := StickyRefs(Clean(s.topics, prefix)), multiset(StickiesUnder(s.topics, prefix));
    assert AllRefs(s) == AllRefs(s') + b;
    UnrefAllCounted(s.store, StickiesUnder(s.topics, prefix), AllRefs(s'));
  }
}
