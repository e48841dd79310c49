/**
 * Memory safety call by call: the messages a call references or releases, the subscribers
 * it touches and the topics it reaches are live at the moment it does so.
 */
module BrokerSafety {
  import opened PriorityLists
  import opened Registry
  import opened Topics
  import opened BrokerModel
  import opened BrokerRefs
  import opened BrokerRegistry
  import M = Messages

  predicate Live(s: State, su: nat) {
    su < |s.sus| && s.sus[su].alive
  }

  // ----- what must be live, at each moment -----

  /** The subscriber, the message pushed, and the entry the queue then gives up. */
  predicate PushSafe(s: State, su: nat, m: nat, prio: nat) {
    && Live(s, su) && m in s.store.msgs
    && (var lost := Push(s.sus[su].q, s.sus[su].cap, Entry(prio, m)).lost;
        lost != [] ==> lost[0].msg in M.Ref(s.store, m).msgs)
  }

  predicate DeliverSafe(s: State, m: nat, l: seq<Subscription>)
    decreases |l|
  {
    l == [] ||
    (Live(s, l[0].su) &&
     if Skipped(s, l[0]) then DeliverSafe(s, m, l[1..])
     else PushSafe(s, l[0].su, m, l[0].prio) && DeliverSafe(PushTo(s, l[0].su, m, l[0].prio), m, l[1..]))
  }

  predicate PushStickiesSafe(s: State, su: nat, ms: seq<nat>, prio: nat)
    decreases |ms|
  {
    ms == [] || (PushSafe(s, su, ms[0], prio) && PushStickiesSafe(PushTo(s, su, ms[0], prio), su, ms[1..], prio))
  }

  /** The old sticky when it is released, and the new one when it is referenced. */
  predicate StickySafe(s: State, t: string, m: nat, sticky: bool) {
    var was := StickyAt(s.topics, t);
    var h := if was.Some? then M.Unref(s.store, was.value) else s.store;
    (was.Some? ==> was.value in s.store.msgs) && (sticky ==> m in h.msgs)
  }

  predicate PublishSafe(s: State, m: nat) {
    && m in s.store.msgs && InRange(MetBy(s, m), |s.sus|)
    && (var msg := s.store.msgs[m];
        var s0 := s.(handles := s.handles - multiset{m});
        var s1 := UpdateSticky(s0, StripFlags(msg.topic), m, msg.sticky);
        && StickySafe(s0, StripFlags(msg.topic), m, msg.sticky)
        && DeliverSafe(s1, m, MetBy(s, m))
        && m in Deliver(s1, m, MetBy(s, m)).0.store.msgs)
  }

  predicate SubscribeSafe(s: State, su: nat, orig: string, base: SubFlags)
    requires su < |s.sus|
  {
    var t, f := StripFlags(orig), ParseFlags(FlagPart(orig), base);
    !Subscribed(At(s, t), su) ==>
      var s1 := Enrol(s, su, t, f);
      PushStickiesSafe(s1, su, Offered(s1.topics, t, f), f.priority)
  }

  /** Each topic of the subscriber's own list, when the loop of ps_unsubscribe_all follows its pointer. */
  predicate LeaveAllSafe(ts: seq<Topic>, su: nat, names: seq<string>)
    decreases |names|
  {
    names == [] || (Find(ts, names[0]) < |ts| && LeaveAllSafe(Leave(ts, su, names[0]), su, names[1..]))
  }

  /** Each message of the queue, when ps_flush releases it. */
  predicate FlushSafe(s: State, su: nat)
    requires su < |s.sus|
    decreases |s.sus[su].q|
  {
    s.sus[su].q == [] ||
    (var g := Get(s, su); g.1.value in g.0.store.msgs && FlushSafe(UnrefMsg(g.0, g.1.value), su))
  }

  predicate ReleaseSafe(h: M.Store, ms: seq<nat>)
    decreases |ms|
  {
    ms == [] || (ms[0] in h.msgs && ReleaseSafe(M.Unref(h, ms[0]), ms[1..]))
  }

  // ----- and is -----

  /** What a push in progress relies on: counts right up to the references in hand, queues in order. */
  ghost predicate Ready(s: State, extra: multiset<nat>) {
    RefsOk(s, extra) && QueuesOk(s)
  }

  /** The entry a push loses is referred to by the queue or by the push itself. */
  lemma LostIsLive(s: State, su: nat, m: nat, prio: nat, extra: multiset<nat>)
    requires Ready(s, extra) && su < |s.sus| && m in AllRefs(s) + extra
    ensures m in s.store.msgs
    ensures var r := Push(s.sus[su].q, s.sus[su].cap, Entry(prio, m));
      r.lost != [] ==> r.lost[0].msg in M.Ref(s.store, m).msgs
  {
    hide Insert, StickyRefs;
    LiveWhenCounted(s.store, AllRefs(s) + extra, m);
    var q := s.sus[su].q;
    if q != [] {
      var e := q[|q| - 1];
      MsgsHasLast(q);
      QueueRefsHas(s.sus, su);
      assert e.msg in MsgsOf(q) && MsgsOf(q) <= QueueRefs(s.sus);
      assert e.msg in AllRefs(s) + extra;
      LiveWhenCounted(s.store, AllRefs(s) + extra, e.msg);
    }
  }

  lemma {:induction false} MsgsHasLast(q: seq<Entry>)
    requires q != []
    ensures q[|q| - 1].msg in MsgsOf(q)
  {
    if |q| > 1 {
      MsgsHasLast(q[1..]);
    }
  }

  lemma {:induction false} QueueRefsHas(sus: seq<Subscriber>, su: nat)
    requires su < |sus|
    ensures MsgsOf(sus[su].q) <= QueueRefs(sus)
  {
    if su > 0 {
      QueueRefsHas(sus[1..], su - 1);
    }
  }

  /** The message in a sticky slot is live, and so is the published one after the slot let go. */
  lemma SlotIsLive(s: State, t: string, m: nat)
    requires RefsOk(s, multiset{m})
    ensures m in s.store.msgs
    ensures var was := StickyAt(s.topics, t);
      was.Some? ==> was.value in s.store.msgs && m in M.Unref(s.store, was.value).msgs
  {
    hide QueueRefs, StickyRefs, StickyAt;
    var refs := AllRefs(s) + multiset{m};
    LiveWhenCounted(s.store, refs, m);
    var was := StickyAt(s.topics, t);
    if was.Some? {
      HeldBySlot(s.topics, t);
      assert was.value in Held(was);
      LiveWhenCounted(s.store, refs, was.value);
      assert refs[was.value] >= 1 + if was.value == m then 1 else 0;
    }
  }

  lemma EnrolReady(s: State, su: nat, t: string, f: SubFlags)
    requires Ready(s, NONE) && su < |s.sus|
    ensures Ready(Enrol(s, su, t, f), NONE)
  {
    hide QueueRefs, StickyRefs, Put;
    var s1 := Enrol(s, su, t, f);
    PutSameSticky(s.topics, t, At(s, t) + [Subscription(su, f.hidden, f.onEmpty, f.priority)]);
    SameQueues(s.sus, su, s1.sus[su]);
  }

  /** Taking the message out of the caller's hands keeps all counts right. */
  lemma StartPublish(s: State, m: nat)
    requires Ready(s, NONE) && m in s.handles
    ensures Ready(s.(handles := s.handles - multiset{m}), multiset{m})
  {
    hide QueueRefs, StickyRefs;
    assert s.handles == (s.handles - multiset{m}) + multiset{m};
    HandleMoves(s, m, s.handles - multiset{m}, NONE);
    AddNone(AllRefs(s.(handles := s.handles - multiset{m})));
  }

  lemma ReadyHolds(s: State, m: nat)
    requires Ready(s, multiset{m})
    ensures m in s.store.msgs
  {
    LiveWhenCounted(s.store, AllRefs(s) + multiset{m}, m);
  }

  lemma HandleIsLive(s: State, m: nat, extra: multiset<nat>)
    requires RefsOk(s, extra) && m in s.handles
    ensures m in s.store.msgs
  {
    hide QueueRefs, StickyRefs;
    assert m in AllRefs(s) + extra;
    LiveWhenCounted(s.store, AllRefs(s) + extra, m);
  }

  lemma HeadInMsgs(q: seq<Entry>)
    requires q != []
    ensures q[0].msg in MsgsOf(q)
  {
  }

  lemma QueueIsLive(s: State, su: nat, extra: multiset<nat>)
    requires RefsOk(s, extra) && su < |s.sus|
    ensures s.sus[su].q != [] ==> s.sus[su].q[0].msg in s.store.msgs
  {
    hide StickyRefs, QueueRefs, MsgsOf;
    var q := s.sus[su].q;
    if q != [] {
      HeadInMsgs(q);
      QueueRefsHas(s.sus, su);
      assert q[0].msg in MsgsOf(q) && MsgsOf(q) <= QueueRefs(s.sus);
      assert q[0].msg in AllRefs(s) + extra;
      LiveWhenCounted(s.store, AllRefs(s) + extra, q[0].msg);
    }
  }

  lemma PushIsSafe(s: State, su: nat, m: nat, prio: nat, extra: multiset<nat>)
    requires Ready(s, extra) && Live(s, su) && m in AllRefs(s) + extra
    ensures PushSafe(s, su, m, prio) && Ready(PushTo(s, su, m, prio), extra)
  {
    hide RefsOk, QueuesOk, AllRefs, PushTo, Push;
    LostIsLive(s, su, m, prio, extra);
    PushToRefs(s, su, m, prio, extra);
  }

  lemma {:induction false} DeliverIsSafe(s: State, m: nat, l: seq<Subscription>)
    requires InRange(l, |s.sus|) && AllAlive(s, l) && Ready(s, multiset{m})
    ensures DeliverSafe(s, m, l)
    ensures m in Deliver(s, m, l).0.store.msgs
    decreases |l|
  {
    hide Ready, PushSafe, PushTo;
    if l == [] {
      ReadyHolds(s, m);
    } else if Skipped(s, l[0]) {
      DeliverIsSafe(s, m, l[1..]);
    } else {
      PushIsSafe(s, l[0].su, m, l[0].prio, multiset{m});
      PushLife(s, l[0].su, m, l[0].prio);
      DeliverIsSafe(PushTo(s, l[0].su, m, l[0].prio), m, l[1..]);
    }
  }

  lemma PushLife(s: State, su: nat, m: nat, prio: nat)
    requires su < |s.sus|
    ensures var s' := PushTo(s, su, m, prio);
      && |s'.sus| == |s.sus| && s'.topics == s.topics
      && (forall u :: 0 <= u < |s.sus| ==> s'.sus[u].alive == s.sus[u].alive)
  {
  }

  lemma {:induction false} PushStickiesIsSafe(s: State, su: nat, ms: seq<nat>, prio: nat)
    requires Ready(s, NONE) && Live(s, su) && forall i :: 0 <= i < |ms| ==> ms[i] in StickyRefs(s.topics)
    ensures PushStickiesSafe(s, su, ms, prio)
    decreases |ms|
  {
    hide Ready, PushSafe, PushTo, StickyRefs, QueueRefs;
    if ms != [] {
      assert ms[0] in AllRefs(s) + NONE;
      PushIsSafe(s, su, ms[0], prio, NONE);
      PushLife(s, su, ms[0], prio);
      PushStickiesIsSafe(PushTo(s, su, ms[0], prio), su, ms[1..], prio);
    }
  }

  lemma StickyIsSafe(s: State, t: string, m: nat, sticky: bool)
    requires RefsOk(s, multiset{m})
    ensures StickySafe(s, t, m, sticky)
  {
    hide RefsOk, StickyAt;
    SlotIsLive(s, t, m);
  }

  lemma PublishIsSafe(s: State, m: nat)
    requires RefsOk(s, NONE) && QueuesOk(s) && RegistryOk(s) && m in s.handles
    ensures PublishSafe(s, m)
  {
    hide RefsOk, QueuesOk, RegistryOk, MetBy, StickySafe, DeliverSafe, Deliver, StripFlags, Put, StickyAt, AllRefs;
    HandleIsLive(s, m, NONE);
    PublishRegistry(s, m);
    var msg := s.store.msgs[m];
    var s0 := s.(handles := s.handles - multiset{m});
    StartPublish(s, m);
    StickyIsSafe(s0, StripFlags(msg.topic), m, msg.sticky);
    UpdateStickyRefs(s0, StripFlags(msg.topic), m, msg.sticky, multiset{m});
    var s1 := UpdateSticky(s0, StripFlags(msg.topic), m, msg.sticky);
    SameSusReady(s0, s1, multiset{m});
    DeliverIsSafe(s1, m, MetBy(s, m));
  }

  lemma SameSusReady(s: State, s1: State, extra: multiset<nat>)
    requires QueuesOk(s) && s1.sus == s.sus && RefsOk(s1, extra)
    ensures Ready(s1, extra)
  {
    hide RefsOk;
  }

  lemma SubscribeIsSafe(s: State, su: nat, orig: string, base: SubFlags)
    requires RefsOk(s, NONE) && QueuesOk(s) && Live(s, su)
    ensures SubscribeSafe(s, su, orig, base)
  {
    hide RefsOk, QueuesOk, PushStickiesSafe, StripFlags, ParseFlags, FlagPart, Offered, Subscribed, SubscribersAt, Put,
         StickyAt, StickyRefs;
    var t, f := StripFlags(orig), ParseFlags(FlagPart(orig), base);
    if !Subscribed(At(s, t), su) {
      var s1 := Enrol(s, su, t, f);
      EnrolReady(s, su, t, f);
      OfferedAreHeld(s1.topics, t, f);
      PushStickiesIsSafe(s1, su, Offered(s1.topics, t, f), f.priority);
    }
  }

  lemma {:induction false} LeaveAllIsSafe(ts: seq<Topic>, su: nat, names: seq<string>)
    requires TopicsOk(ts) && Distinct(names)
    requires forall i :: 0 <= i < |names| ==> ' ' !in names[i] && Subscribed(SubscribersAt(ts, names[i]), su)
    ensures LeaveAllSafe(ts, su, names)
    decreases |names|
  {
    hide TopicsOk, Leave, Subscribed, SubscribersAt, Find;
    if names != [] {
      var t, rest := names[0], names[1..];
      SubscribedHere(ts, t, su);
      var ts' := Leave(ts, su, t);
      LeaveSays(ts, su, t, t);
      forall i | 0 <= i < |rest| ensures Subscribed(SubscribersAt(ts', rest[i]), su) {
        assert rest[i] == names[i + 1];
        LeaveSays(ts, su, t, rest[i]);
      }
      LeaveAllIsSafe(ts', su, rest);
    }
  }

  lemma SubscribedHere(ts: seq<Topic>, t: string, su: nat)
    requires Subscribed(SubscribersAt(ts, t), su)
    ensures Find(ts, t) < |ts|
  {
  }

  lemma UnsubscribeAllIsSafe(s: State, su: nat)
    requires RegistryOk(s) && su < |s.sus|
    ensures LeaveAllSafe(s.topics, su, s.sus[su].subs)
  {
    hide LeaveAllSafe, Subscribed, IndexOf;
    forall i | 0 <= i < |s.sus[su].subs|
      ensures ' ' !in s.sus[su].subs[i] && Subscribed(At(s, s.sus[su].subs[i]), su)
    {
      SubscribedTopicsExist(s, su, s.sus[su].subs[i]);
    }
    LeaveAllIsSafe(s.topics, su, s.sus[su].subs);
  }

  lemma {:induction false} FlushIsSafe(s: State, su: nat)
    requires RefsOk(s, NONE) && QueuesOk(s) && su < |s.sus|
    ensures FlushSafe(s, su)
    decreases |s.sus[su].q|
  {
    hide RefsOk, QueuesOk;
    if s.sus[su].q != [] {
      var g := Get(s, su);
      QueueIsLive(s, su, NONE);
      GetRefs(s, su, NONE);
      UnrefMsgRefs(g.0, g.1.value, NONE);
      UnrefKeepsQueues(g.0, g.1.value);
      FlushIsSafe(UnrefMsg(g.0, g.1.value), su);
    }
  }

  lemma FreeSubscriberIsSafe(s: State, su: nat)
    requires RefsOk(s, NONE) && QueuesOk(s) && RegistryOk(s) && su < |s.sus|
    ensures LeaveAllSafe(s.topics, su, s.sus[su].subs) && FlushSafe(UnsubscribeAll(s, su).0, su)
  {
    hide RefsOk, QueuesOk, RegistryOk, LeaveAllSafe, FlushSafe, LeaveAll;
    UnsubscribeAllIsSafe(s, su);
    UnsubscribeAllRefs(s, su);
    FlushIsSafe(UnsubscribeAll(s, su).0, su);
  }

  lemma {:induction false} ReleaseIsSafe(h: M.Store, ms: seq<nat>, refs: multiset<nat>)
    requires M.Counted(h, refs + multiset(ms))
    ensures ReleaseSafe(h, ms)
    decreases |ms|
  {
    hide M.Counted, M.Unref;
    if ms != [] {
      var m, rest := ms[0], ms[1..];
      assert ms == [m] + rest;
      assert refs + multiset(ms) == (refs + multiset(rest)) + multiset{m};
      M.UnrefCounted(h, refs + multiset(rest), m);
      ReleaseIsSafe(M.Unref(h, m), rest, refs);
    }
  }

  lemma CleanStickyIsSafe(s: State, prefix: string)
    requires RefsOk(s, NONE)
    ensures ReleaseSafe(s.store, StickiesUnder(s.topics, prefix))
  {
    hide QueueRefs, StickyRefs, Clean, StickiesUnder, M.Counted, ReleaseSafe;
    CleanRefs(s.topics, prefix);
    AddNone(AllRefs(s));
    var refs := s.handles + QueueRefs(s.sus) + StickyRefs(Clean(s.topics, prefix));
    assert AllRefs(s) == refs + multiset(StickiesUnder(s.topics, prefix));
    ReleaseIsSafe(s.store, StickiesUnder(s.topics, prefix), refs);
  }
}
