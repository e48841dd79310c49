/**
 * Runs of the broker: any finite sequence of calls that respect the interface, and
 * what holds in every state they reach.
 */
module BrokerRuns {
  import opened Options
  import opened PriorityLists
  import opened Registry
  import opened Topics
  import opened BrokerModel
  import opened BrokerRefs
  import opened BrokerRegistry
  import opened BrokerHistory
  import opened BrokerSafety
  import M = Messages

  datatype Call =
    | NewMsgCall(topic: string, sticky: bool, nonRecursive: bool)
    | RefCall(m: nat)
    | UnrefCall(m: nat)
    | PublishCall(m: nat)
    | NewSubscriberCall(cap: nat)
    | FreeSubscriberCall(su: nat)
    | SubscribeCall(su: nat, topic: string, flags: SubFlags)
    | UnsubscribeCall(su: nat, topic: string)
    | UnsubscribeAllCall(su: nat)
    | GetCall(su: nat)
    | FlushCall(su: nat)
    | OverflowCall(su: nat)
    | CleanStickyCall(prefix: string)

  /** What the interface asks of a caller: own the message, use live subscribers, and a priority below 10. */
  predicate Allowed(s: State, c: Call) {
    match c
    case RefCall(m) => m in s.handles
    case UnrefCall(m) => m in s.handles
    case PublishCall(m) => m in s.handles
    case FreeSubscriberCall(su) => Live(s, su)
    case SubscribeCall(su, _, f) => Live(s, su) && f.priority < PRIORITIES
    case UnsubscribeCall(su, _) => Live(s, su)
    case UnsubscribeAllCall(su) => Live(s, su)
    case GetCall(su) => Live(s, su)
    case FlushCall(su) => Live(s, su)
    case OverflowCall(su) => Live(s, su)
    case _ => true
  }

  /** What a call's result is defined for. */
  predicate Defined(s: State, c: Call) {
    c.PublishCall? ==> c.m in s.store.msgs && InRange(MetBy(s, c.m), |s.sus|)
  }

  /**
   * Every message the call references or releases is live at the moment it does so, every
   * subscriber it touches is live, and every topic it reaches through a subscriber exists.
   */
  predicate Safe(s: State, c: Call) {
    match c
    case NewMsgCall(_, _, _) => true
    case RefCall(m) => m in s.store.msgs
    case UnrefCall(m) => m in s.store.msgs
    case PublishCall(m) => PublishSafe(s, m)
    case NewSubscriberCall(_) => true
    case FreeSubscriberCall(su) =>
      Live(s, su) && LeaveAllSafe(s.topics, su, s.sus[su].subs) && FlushSafe(UnsubscribeAll(s, su).0, su)
    case SubscribeCall(su, t, f) => Live(s, su) && SubscribeSafe(s, su, t, f)
    case UnsubscribeCall(su, _) => Live(s, su)
    case UnsubscribeAllCall(su) => Live(s, su) && LeaveAllSafe(s.topics, su, s.sus[su].subs)
    case GetCall(su) => Live(s, su) && (s.sus[su].q != [] ==> s.sus[su].q[0].msg in s.store.msgs)
    case FlushCall(su) => Live(s, su) && FlushSafe(s, su)
    case OverflowCall(su) => Live(s, su)
    case CleanStickyCall(p) => ReleaseSafe(s.store, StickiesUnder(s.topics, p))
  }

  function Next(s: State, c: Call): State
    requires Allowed(s, c) && Defined(s, c)
  {
    match c
    case NewMsgCall(t, sticky, nr) => NewMsg(s, t, sticky, nr).0
    case RefCall(m) => RefMsg(s, m)
    case UnrefCall(m) => UnrefMsg(s, m)
    case PublishCall(m) => Publish(s, m).0
    case NewSubscriberCall(cap) => NewSubscriber(s, cap).0
    case FreeSubscriberCall(su) => FreeSubscriber(s, su)
    case SubscribeCall(su, t, f) => Subscribe(s, su, t, f).0
    case UnsubscribeCall(su, t) => Unsubscribe(s, su, t).0
    case UnsubscribeAllCall(su) => UnsubscribeAll(s, su).0
    case GetCall(su) => Get(s, su).0
    case FlushCall(su) => Flush(s, su).0
    case OverflowCall(su) => TakeOverflow(s, su).0
    case CleanStickyCall(p) => CleanSticky(s, p)
  }

  ghost predicate Step(p: State, c: Call, s: State) {
    Allowed(p, c) && Defined(p, c) && s == Next(p, c)
  }

  /** The calls `cs` lead from `p` to `s`. */
  ghost predicate Leads(p: State, cs: seq<Call>, s: State) {
    if cs == [] then s == p
    else
      var init, last := cs[..|cs| - 1], cs[|cs| - 1];
      exists q :: Leads(p, init, q) && Step(q, last, s)
  }

  /** `s` is reached from the empty broker by the calls `cs`. */
  ghost predicate Reaches(cs: seq<Call>, s: State) {
    Leads(INIT, cs, s)
  }

  function LiveCount(sus: seq<Subscriber>): nat {
    if sus == [] then 0 else (if sus[0].alive then 1 else 0) + LiveCount(sus[1..])
  }

  ghost predicate Inv(s: State) {
    && RefsOk(s, NONE) && QueuesOk(s)
    && RegistryOk(s)
    && HistoryOk(s)
    && s.liveSus == LiveCount(s.sus)
  }

  lemma AllowedCallsAreDefined(s: State, c: Call)
    requires Inv(s) && Allowed(s, c)
    ensures Defined(s, c)
    ensures c.PublishCall? ==> AllAlive(s, MetBy(s, c.m))
  {
    hide HistoryOk, RegistryOk, MetBy;
    if c.PublishCall? {
      assert c.m in AllRefs(s) + NONE;
      LiveWhenCounted(s.store, AllRefs(s) + NONE, c.m);
      PublishRegistry(s, c.m);
    }
  }

  /** A call allowed by the interface never touches a freed message, subscriber or topic. */
  lemma AllowedCallsAreSafe(s: State, c: Call)
    requires Inv(s) && Allowed(s, c)
    ensures Safe(s, c)
  {
    hide RefsOk, QueuesOk, HistoryOk, RegistryOk, MetBy, PublishSafe, SubscribeSafe, FlushSafe, LeaveAllSafe,
         ReleaseSafe;
    match c {
      case RefCall(m) => HandleIsLive(s, m, NONE);
      case UnrefCall(m) => HandleIsLive(s, m, NONE);
      case PublishCall(m) => PublishIsSafe(s, m);
      case FreeSubscriberCall(su) => FreeSubscriberIsSafe(s, su);
      case SubscribeCall(su, t, f) => SubscribeIsSafe(s, su, t, f);
      case UnsubscribeAllCall(su) => UnsubscribeAllIsSafe(s, su);
      case GetCall(su) => QueueIsLive(s, su, NONE);
      case FlushCall(su) => FlushIsSafe(s, su);
      case CleanStickyCall(p) => CleanStickyIsSafe(s, p);
      case _ =>
    }
  }

  // ----- every call keeps the invariant -----

  lemma NextRefs(s: State, c: Call)
    requires RefsOk(s, NONE) && QueuesOk(s) && Allowed(s, c) && Defined(s, c)
    requires c.PublishCall? ==> AllAlive(s, MetBy(s, c.m))
    ensures RefsOk(Next(s, c), NONE) && QueuesOk(Next(s, c))
  {
    hide RefsOk, QueuesOk, MetBy, Publish, Subscribe, Unsubscribe, UnsubscribeAll, Flush, FreeSubscriber, Get,
         TakeOverflow, CleanSticky, NewSubscriber;
    match c {
      case NewMsgCall(t, sticky, nr) => NewMsgRefs(s, t, sticky, nr, NONE); SameSusQueues(s, Next(s, c));
      case RefCall(m) => RefMsgRefs(s, m, NONE); SameSusQueues(s, Next(s, c));
      case UnrefCall(m) => UnrefMsgRefs(s, m, NONE); SameSusQueues(s, Next(s, c));
      case PublishCall(m) => PublishRefs(s, m);
      case NewSubscriberCall(cap) => NewSubscriberRefs(s, cap, NONE);
      case FreeSubscriberCall(su) => FreeSubscriberRefs(s, su);
      case SubscribeCall(su, t, f) => SubscribeRefs(s, su, t, f);
      case UnsubscribeCall(su, t) => UnsubscribeRefs(s, su, t);
      case UnsubscribeAllCall(su) => UnsubscribeAllRefs(s, su);
      case GetCall(su) => GetRefs(s, su, NONE);
      case FlushCall(su) => FlushRefs(s, su);
      case OverflowCall(su) => TakeOverflowRefs(s, su, NONE);
      case CleanStickyCall(p) => CleanStickyRefs(s, p); CleanSameSus(s, p); SameSusQueues(s, Next(s, c));
    }
  }

  lemma SameSusQueues(s: State, s': State)
    requires QueuesOk(s) && s'.sus == s.sus
    ensures QueuesOk(s')
  {
  }

  lemma CleanSameSus(s: State, p: string)
    ensures CleanSticky(s, p).sus == s.sus
  {
  }

  lemma NextRegistry(s: State, c: Call)
    requires RegistryOk(s) && Allowed(s, c) && Defined(s, c)
    ensures RegistryOk(Next(s, c))
  {
    hide RegistryOk, MetBy, Publish, Subscribe, Unsubscribe, UnsubscribeAll, Flush, FreeSubscriber, CleanSticky,
         NewSubscriber;
    match c {
      case PublishCall(m) => PublishRegistry(s, m);
      case NewSubscriberCall(cap) => NewSubscriberRegistry(s, cap);
      case FreeSubscriberCall(su) => FreeSubscriberRegistry(s, su);
      case SubscribeCall(su, t, f) => SubscribeRegistry(s, su, t, f);
      case UnsubscribeCall(su, t) => UnsubscribeRegistry(s, su, t);
      case UnsubscribeAllCall(su) => UnsubscribeAllRegistry(s, su);
      case FlushCall(su) => FlushSameLists(s, su); SameListsOk(s, Next(s, c));
      case CleanStickyCall(p) => CleanStickyRegistry(s, p);
      case _ => SameListsOk(s, Next(s, c));
    }
  }

  lemma NextHistory(s: State, c: Call)
    requires HistoryOk(s) && RegistryOk(s) && Allowed(s, c) && Defined(s, c)
    ensures HistoryOk(Next(s, c))
  {
    hide HistoryOk, MetBy, Publish, Subscribe, Flush, FreeSubscriber, CleanSticky, NewSubscriber, TopicsOk;
    match c {
      case PublishCall(m) => PublishHistory(s, m);
      case NewSubscriberCall(cap) => NewSubscriberHistory(s, cap);
      case FreeSubscriberCall(su) => FreeSubscriberHistory(s, su);
      case SubscribeCall(su, t, f) => SubscribeHistory(s, su, t, f);
      case UnsubscribeCall(su, t) => UnsubscribeHistory(s, su, t);
      case UnsubscribeAllCall(su) => UnsubscribeAllHistory(s, su);
      case GetCall(su) => GetHistory(s, su);
      case FlushCall(su) => FlushHistory(s, su);
      case OverflowCall(su) => TakeOverflowHistory(s, su);
      case CleanStickyCall(p) => CleanStickyHistory(s, p);
      case _ => QuietCall(s, Next(s, c));
    }
  }

  lemma UnsubscribeHistory(s: State, su: nat, orig: string)
    requires HistoryOk(s) && RegistryOk(s) && su < |s.sus|
    ensures HistoryOk(Unsubscribe(s, su, orig).0)
  {
    hide HistoryOk, StripFlags, Leave, StickyAt, SubscribersAt, TopicsOk;
    var s' := Unsubscribe(s, su, orig).0;
    forall n ensures StickyAt(s'.topics, n) == StickyAt(s.topics, n) {
      LeaveSays(s.topics, su, StripFlags(orig), n);
    }
    QuietCall(s, s');
  }

  lemma UnsubscribeAllHistory(s: State, su: nat)
    requires HistoryOk(s) && RegistryOk(s) && su < |s.sus|
    ensures HistoryOk(UnsubscribeAll(s, su).0)
  {
    hide HistoryOk, RegistryOk, LeaveAll, StickyAt;
    UnsubscribeAllRegistry(s, su);
    QuietCall(s, UnsubscribeAll(s, su).0);
  }

  lemma FreeSubscriberHistory(s: State, su: nat)
    requires HistoryOk(s) && RegistryOk(s) && su < |s.sus|
    ensures HistoryOk(FreeSubscriber(s, su))
  {
    hide HistoryOk, RegistryOk, LeaveAll, Flush;
    UnsubscribeAllHistory(s, su);
    FlushHistory(UnsubscribeAll(s, su).0, su);
    QuietCall(Flush(UnsubscribeAll(s, su).0, su).0, FreeSubscriber(s, su));
  }

  lemma {:induction false} LiveCountUpdate(sus: seq<Subscriber>, su: nat, x: Subscriber)
    requires su < |sus|
    ensures LiveCount(sus[su := x]) == LiveCount(sus) - (if sus[su].alive then 1 else 0) + (if x.alive then 1 else 0)
  {
    var r := sus[su := x];
    if su == 0 {
      assert r[1..] == sus[1..];
    } else {
      assert r[1..] == sus[1..][su - 1 := x];
      LiveCountUpdate(sus[1..], su - 1, x);
    }
  }

  lemma {:induction false} LiveCountSame(a: seq<Subscriber>, b: seq<Subscriber>)
    requires |a| == |b| && forall u :: 0 <= u < |a| ==> a[u].alive == b[u].alive
    ensures LiveCount(a) == LiveCount(b)
  {
    if a != [] {
      LiveCountSame(a[1..], b[1..]);
    }
  }

  lemma {:induction false} LiveCountSnoc(sus: seq<Subscriber>, x: Subscriber)
    ensures LiveCount(sus + [x]) == LiveCount(sus) + (if x.alive then 1 else 0)
  {
    if sus == [] {
      assert sus + [x] == [x] && [x][1..] == [];
    } else {
      assert (sus + [x])[1..] == sus[1..] + [x];
      LiveCountSnoc(sus[1..], x);
    }
  }

  ghost predicate SameLife(s: State, s': State) {
    && s'.liveSus == s.liveSus && |s'.sus| == |s.sus|
    && (forall u :: 0 <= u < |s.sus| ==> s'.sus[u].alive == s.sus[u].alive)
  }

  lemma NextKeepsLife(s: State, c: Call)
    requires Allowed(s, c) && Defined(s, c) && !c.NewSubscriberCall? && !c.FreeSubscriberCall?
    ensures SameLife(s, Next(s, c))
  {
    hide MetBy, Publish, Subscribe, Unsubscribe, UnsubscribeAll, CleanSticky, Get, TakeOverflow, Flush, M.Unref,
         M.Ref, M.New;
    match c {
      case PublishCall(m) => PublishKeepsLife(s, m);
      case SubscribeCall(su, t, f) => SubscribeKeepsLife(s, su, t, f);
      case FlushCall(su) => FlushKeepsLife(s, su);
      case UnsubscribeCall(su, t) => LocalKeepsLife(s, su, t);
      case UnsubscribeAllCall(su) => LocalKeepsLife(s, su, "");
      case GetCall(su) => LocalKeepsLife(s, su, "");
      case OverflowCall(su) => LocalKeepsLife(s, su, "");
      case CleanStickyCall(p) => CleanKeepsLife(s, p);
      case _ =>
    }
  }

  /** The calls that touch one subscriber's own fields. */
  lemma LocalKeepsLife(s: State, su: nat, t: string)
    requires su < |s.sus|
    ensures SameLife(s, Unsubscribe(s, su, t).0) && SameLife(s, UnsubscribeAll(s, su).0)
    ensures SameLife(s, Get(s, su).0) && SameLife(s, TakeOverflow(s, su).0)
  {
    hide Leave, LeaveAll, StripFlags, RemoveName, IndexOf;
  }

  lemma CleanKeepsLife(s: State, prefix: string)
    ensures SameLife(s, CleanSticky(s, prefix))
  {
  }

  lemma FreeLive(s: State, su: nat)
    requires s.liveSus == LiveCount(s.sus) && Live(s, su)
    ensures FreeSubscriber(s, su).liveSus == LiveCount(FreeSubscriber(s, su).sus)
  {
    hide LiveCount, Flush, LeaveAll;
    var s1 := UnsubscribeAll(s, su).0;
    var s2 := Flush(s1, su).0;
    FlushKeepsLife(s1, su);
    LiveCountSame(s.sus, s2.sus);
    LiveCountUpdate(s2.sus, su, s2.sus[su].(alive := false));
  }

  lemma NextLive(s: State, c: Call)
    requires s.liveSus == LiveCount(s.sus) && Allowed(s, c) && Defined(s, c)
    ensures Next(s, c).liveSus == LiveCount(Next(s, c).sus)
  {
    hide LiveCount, Publish, Subscribe, Unsubscribe, UnsubscribeAll, Flush, Get, TakeOverflow, CleanSticky,
         FreeSubscriber;
    match c {
      case NewSubscriberCall(cap) => LiveCountSnoc(s.sus, Subscriber(true, cap, [], [], 0));
      case FreeSubscriberCall(su) => FreeLive(s, su);
      case _ =>
        NextKeepsLife(s, c);
        LiveCountSame(s.sus, Next(s, c).sus);
    }
  }

  lemma FlushKeepsLife(s: State, su: nat)
    requires su < |s.sus|
    ensures SameLife(s, Flush(s, su).0)
    decreases |s.sus[su].q|
  {
    FlushSameLists(s, su);
    if s.sus[su].q != [] {
      FlushKeepsLife(UnrefMsg(Get(s, su).0, Get(s, su).1.value), su);
    }
  }

  lemma {:induction false} DeliverKeepsLive(s: State, m: nat, l: seq<Subscription>)
    requires InRange(l, |s.sus|)
    ensures Deliver(s, m, l).0.liveSus == s.liveSus
    decreases |l|
  {
    if l != [] {
      DeliverKeepsLive(if Skipped(s, l[0]) then s else PushTo(s, l[0].su, m, l[0].prio), m, l[1..]);
    }
  }

  lemma PublishKeepsLife(s: State, m: nat)
    requires m in s.store.msgs && InRange(MetBy(s, m), |s.sus|)
    ensures SameLife(s, Publish(s, m).0)
  {
    hide MetBy, Deliver, StripFlags, Put;
    var msg := s.store.msgs[m];
    var s1 := UpdateSticky(s.(handles := s.handles - multiset{m}), StripFlags(msg.topic), m, msg.sticky);
    DeliverSameLists(s1, m, MetBy(s, m));
    DeliverKeepsLive(s1, m, MetBy(s, m));
  }

  lemma {:induction false} PushStickiesKeepsLive(s: State, su: nat, ms: seq<nat>, prio: nat)
    requires su < |s.sus|
    ensures PushStickies(s, su, ms, prio).liveSus == s.liveSus
    decreases |ms|
  {
    if ms != [] {
      PushStickiesKeepsLive(PushTo(s, su, ms[0], prio), su, ms[1..], prio);
    }
  }

  lemma SubscribeKeepsLife(s: State, su: nat, orig: string, base: SubFlags)
    requires su < |s.sus|
    ensures SameLife(s, Subscribe(s, su, orig, base).0)
  {
    hide PushStickies, StripFlags, ParseFlags, Put, Offered, IndexOf, SubscribersAt;
    var t, f := StripFlags(orig), ParseFlags(FlagPart(orig), base);
    if !Subscribed(At(s, t), su) {
      var s1 := Enrol(s, su, t, f);
      PushStickiesSameLists(s1, su, Offered(s1.topics, t, f), f.priority);
      PushStickiesKeepsLive(s1, su, Offered(s1.topics, t, f), f.priority);
    }
  }

  lemma NextInv(s: State, c: Call)
    requires Inv(s) && Allowed(s, c)
    ensures Defined(s, c) && Inv(Next(s, c))
  {
    hide RefsOk, QueuesOk, RegistryOk, HistoryOk, Next, Defined, Allowed, MetBy;
    AllowedCallsAreDefined(s, c);
    NextRefs(s, c);
    NextRegistry(s, c);
    NextHistory(s, c);
    NextLive(s, c);
  }

  lemma InitInv()
    ensures Inv(INIT)
  {
    assert forall t :: At(INIT, t) == [];
  }

  lemma {:induction false} LeadsInv(p: State, cs: seq<Call>, s: State)
    requires Inv(p) && Leads(p, cs, s)
    ensures Inv(s)
    decreases |cs|
  {
    hide Inv, Allowed, Defined, Next;
    if cs != [] {
      var init, last := cs[..|cs| - 1], cs[|cs| - 1];
      var q :| Leads(p, init, q) && Step(q, last, s);
      LeadsInv(p, init, q);
      NextInv(q, last);
    }
  }

  // ----- what holds in every reachable state -----

  lemma ReachableInv(cs: seq<Call>, s: State)
    requires Reaches(cs, s)
    ensures Inv(s)
  {
    InitInv();
    LeadsInv(INIT, cs, s);
  }

  /**
   * In every reachable state every allowed call can run, and all it references, releases or
   * reaches on the way is live at that moment.
   */
  lemma RunsNeverTouchFreedMemory(cs: seq<Call>, s: State, c: Call)
    requires Reaches(cs, s) && Allowed(s, c)
    ensures Safe(s, c) && Defined(s, c) && Reaches(cs + [c], Next(s, c))
  {
    hide Inv, Next, MetBy, Allowed, Safe, Defined;
    ReachableInv(cs, s);
    AllowedCallsAreSafe(s, c);
    AllowedCallsAreDefined(s, c);
    assert (cs + [c])[..|cs|] == cs;
    assert Step(s, c, Next(s, c));
  }

  /** Every live message's count is handles + queue cells + sticky slots, and none is counted as live in vain. */
  lemma ReferencesConserved(cs: seq<Call>, s: State)
    requires Reaches(cs, s)
    ensures forall m :: m in s.store.msgs ==>
      s.store.msgs[m].ref == s.handles[m] + QueueRefs(s.sus)[m] + StickyRefs(s.topics)[m] > 0
    ensures forall m :: m in s.handles || m in QueueRefs(s.sus) || m in StickyRefs(s.topics) ==> m in s.store.msgs
    ensures s.store.live == |s.store.msgs|
  {
    hide QueueRefs, StickyRefs;
    ReachableInv(cs, s);
    assert forall m :: (AllRefs(s) + NONE)[m] == s.handles[m] + QueueRefs(s.sus)[m] + StickyRefs(s.topics)[m];
  }

  /** A topic lists a subscriber exactly when the subscriber lists the topic, once on each side. */
  lemma ListsAgree(cs: seq<Call>, s: State, u: nat, t: string)
    requires Reaches(cs, s) && u < |s.sus|
    ensures t in s.sus[u].subs <==> exists i :: 0 <= i < |At(s, t)| && At(s, t)[i].su == u
    ensures Once(At(s, t)) && Distinct(s.sus[u].subs)
    ensures forall i :: 0 <= i < |s.topics| ==> ' ' !in s.topics[i].name && !Unused(s.topics[i])
    ensures !s.sus[u].alive ==> s.sus[u].subs == [] && s.sus[u].q == []
  {
    ReachableInv(cs, s);
    SubscribedIff(At(s, t), u);
  }

  /** A topic's sticky message is what the history of publishes and cleans says it is. */
  lemma StickyIsLastWord(cs: seq<Call>, s: State, t: string)
    requires Reaches(cs, s)
    ensures StickyAt(s.topics, t) == StickyFold(s.log, t)
  {
    ReachableInv(cs, s);
  }

  /** Push attempts = taken + waiting + counted as lost + already reported as lost. */
  lemma AttemptsAreAccounted(cs: seq<Call>, s: State, u: nat)
    requires Reaches(cs, s) && u < |s.sus|
    ensures Owed(s.log, u) == |s.sus[u].q| + s.sus[u].overflow
  {
    ReachableInv(cs, s);
  }

  /**
   * What ps_overflow has returned and has yet to return is every attempt that lost a message,
   * by refusal or by eviction.  It is the documented number, the messages that could not be
   * stored, if and only if no attempt evicted.
   */
  lemma OverflowCountsLosses(cs: seq<Call>, s: State, u: nat)
    requires Reaches(cs, s) && u < |s.sus|
    ensures var counted := s.sus[u].overflow + ReportedSum(s.log, u);
      && counted == Attempts(s.log, u, Full) + Attempts(s.log, u, Overflow)
      && (counted == Attempts(s.log, u, Full) <==> Attempts(s.log, u, Overflow) == 0)
  {
    hide RefsOk, QueuesOk, RegistryOk, Uncollected, ReportedSum, Attempts;
    ReachableInv(cs, s);
    UncollectedParts(s.log, u);
  }

  /**
   * The same on the pushes themselves: the documented number results if and only if no push
   * met a full queue ending in a lower priority, the queue being the one the history replays;
   * so it does when all pushes for the subscriber have one priority.
   */
  lemma OverflowIsDocumentedIff(cs: seq<Call>, s: State, u: nat)
    requires Reaches(cs, s) && u < |s.sus|
    ensures QueueFrom(s.log, u, s.sus[u].cap) == s.sus[u].q
    ensures s.sus[u].overflow + ReportedSum(s.log, u) == Attempts(s.log, u, Full) <==>
      NeverMeetsLower(s.log, u, s.sus[u].cap)
    ensures forall p :: OnePriority(s.log, u, p) ==>
      s.sus[u].overflow + ReportedSum(s.log, u) == Attempts(s.log, u, Full)
  {
    hide RefsOk, QueuesOk, RegistryOk, Uncollected, ReportedSum, Attempts, QueueFrom, AllFit, NeverMeetsLower,
         OnePriority;
    ReachableInv(cs, s);
    OverflowCountsLosses(cs, s, u);
    EvictionsMeetLower(s.log, u, s.sus[u].cap);
    forall p | OnePriority(s.log, u, p) ensures NeverMeetsLower(s.log, u, s.sus[u].cap) {
      OnePriorityNeverEvicts(s.log, u, s.sus[u].cap, p);
    }
  }

  // ----- leak freedom -----

  lemma {:induction false} NoQueueRefs(sus: seq<Subscriber>)
    requires forall u :: 0 <= u < |sus| ==> sus[u].q == [] && !sus[u].alive
    ensures QueueRefs(sus) == multiset{} && LiveCount(sus) == 0
  {
    if sus != [] {
      NoQueueRefs(sus[1..]);
    }
  }

  lemma {:induction false} NoStickyRefs(ts: seq<Topic>)
    requires forall i :: 0 <= i < |ts| ==> ts[i].sticky == None
    ensures StickyRefs(ts) == multiset{}
  {
    if ts != [] {
      NoStickyRefs(ts[1..]);
    }
  }

  /**
   * Once every subscriber is freed and every handle released, ps_clean_sticky("") leaves
   * no live message, no live subscriber and an empty topic map.
   */
  lemma NothingLeaks(cs: seq<Call>, s: State)
    requires Reaches(cs, s)
    requires s.handles == multiset{} && forall u :: 0 <= u < |s.sus| ==> !s.sus[u].alive
    ensures var s' := CleanSticky(s, "");
      s'.store.msgs == map[] && s'.store.live == 0 && s'.liveSus == 0 && s'.topics == []
  {
    hide HistoryOk, QueueRefs, StickyRefs, LiveCount, UnrefAll, StickiesUnder;
    ReachableInv(cs, s);
    var c := CleanStickyCall("");
    NextInv(s, c);
    var s' := CleanSticky(s, "");
    CleanSameSus(s, "");
    NoQueueRefs(s'.sus);
    if s'.topics != [] {
      var u := LeftTopicHasSubscriber(s, 0);
    }
    NoStickyRefs(s'.topics);
    assert AllRefs(s') + NONE == multiset{};
    assert s'.store.msgs.Keys == {};
  }

  /** A topic that survives a full clean has a live subscriber. */
  lemma LeftTopicHasSubscriber(s: State, i: nat) returns (u: nat)
    requires RegistryOk(s) && RegistryOk(CleanSticky(s, "")) && i < |CleanSticky(s, "").topics|
    ensures u < |s.sus| && s.sus[u].alive
  {
    hide Clean, IndexOf, Find, Distinct, Once;
    var s' := CleanSticky(s, "");
    var t := s'.topics[i];
    FindUnique(s'.topics, t.name, i);
    CleanLookup(s.topics, "", t.name);
    CleanSameSus(s, "");
    assert t.sticky == None && t.subscribers != [];
    u := t.subscribers[0].su;
    assert At(s', t.name) == t.subscribers && InRange(At(s', t.name), |s'.sus|);
    SubscribedIff(At(s', t.name), u);
    assert t.name in s'.sus[u].subs;
  }

  // ----- a message is freed at most once -----

  /** No message identity below `h.next` comes to life in `h'`. */
  predicate NoRevival(h: M.Store, h': M.Store) {
    h.next <= h'.next && forall m :: m in h'.msgs && m < h.next ==> m in h.msgs
  }

  lemma PushToNoRevival(s: State, su: nat, m: nat, prio: nat)
    requires su < |s.sus|
    ensures NoRevival(s.store, PushTo(s, su, m, prio).store)
  {
  }

  lemma {:induction false} DeliverNoRevival(s: State, m: nat, l: seq<Subscription>)
    requires InRange(l, |s.sus|)
    ensures NoRevival(s.store, Deliver(s, m, l).0.store)
    decreases |l|
  {
    hide PushTo;
    if l != [] {
      if Skipped(s, l[0]) {
        DeliverNoRevival(s, m, l[1..]);
      } else {
        PushToNoRevival(s, l[0].su, m, l[0].prio);
        DeliverNoRevival(PushTo(s, l[0].su, m, l[0].prio), m, l[1..]);
      }
    }
  }

  lemma {:induction false} PushStickiesNoRevival(s: State, su: nat, ms: seq<nat>, prio: nat)
    requires su < |s.sus|
    ensures NoRevival(s.store, PushStickies(s, su, ms, prio).store)
    decreases |ms|
  {
    hide PushTo;
    if ms != [] {
      PushToNoRevival(s, su, ms[0], prio);
      PushStickiesNoRevival(PushTo(s, su, ms[0], prio), su, ms[1..], prio);
    }
  }

  lemma {:induction false} UnrefAllNoRevival(h: M.Store, ms: seq<nat>)
    ensures NoRevival(h, UnrefAll(h, ms))
    decreases |ms|
  {
    if ms != [] {
      UnrefAllNoRevival(M.Unref(h, ms[0]), ms[1..]);
    }
  }

  lemma {:induction false} FlushNoRevival(s: State, su: nat)
    requires su < |s.sus|
    ensures NoRevival(s.store, Flush(s, su).0.store)
    decreases |s.sus[su].q|
  {
    if s.sus[su].q != [] {
      FlushNoRevival(UnrefMsg(Get(s, su).0, Get(s, su).1.value), su);
    }
  }

  lemma PublishNoRevival(s: State, m: nat)
    requires m in s.store.msgs && InRange(MetBy(s, m), |s.sus|)
    ensures NoRevival(s.store, Publish(s, m).0.store)
  {
    hide MetBy, Deliver, StripFlags, Put, StickyAt;
    var msg := s.store.msgs[m];
    var s1 := UpdateSticky(s.(handles := s.handles - multiset{m}), StripFlags(msg.topic), m, msg.sticky);
    DeliverNoRevival(s1, m, MetBy(s, m));
  }

  lemma NextNoRevival(s: State, c: Call)
    requires Allowed(s, c) && Defined(s, c)
    ensures NoRevival(s.store, Next(s, c).store)
  {
    hide MetBy, Publish, Flush, LeaveAll, PushStickies, UnrefAll, StripFlags, ParseFlags, Offered, Enrol;
    match c {
      case PublishCall(m) => PublishNoRevival(s, m);
      case FreeSubscriberCall(su) => FlushNoRevival(UnsubscribeAll(s, su).0, su);
      case SubscribeCall(su, orig, base) =>
        var t, f := StripFlags(orig), ParseFlags(FlagPart(orig), base);
        EnrolSameStore(s, su, t, f);
        var s1 := Enrol(s, su, t, f);
        PushStickiesNoRevival(s1, su, Offered(s1.topics, t, f), f.priority);
      case FlushCall(su) => FlushNoRevival(s, su);
      case CleanStickyCall(p) => UnrefAllNoRevival(s.store, StickiesUnder(s.topics, p));
      case _ =>
    }
  }

  lemma EnrolSameStore(s: State, su: nat, t: string, f: SubFlags)
    requires su < |s.sus|
    ensures Enrol(s, su, t, f).store == s.store
  {
  }

  /** A message once freed is never live again, so it is freed at most once. */
  lemma {:induction false} FreedForever(p: State, cs: seq<Call>, s: State, m: nat)
    requires Leads(p, cs, s) && m < p.store.next && m !in p.store.msgs
    ensures m !in s.store.msgs && m < s.store.next
    decreases |cs|
  {
    hide Next, Allowed, Defined;
    if cs != [] {
      var init, last := cs[..|cs| - 1], cs[|cs| - 1];
      var q :| Leads(p, init, q) && Step(q, last, s);
      FreedForever(p, init, q, m);
      NextNoRevival(q, last);
    }
  }
}
