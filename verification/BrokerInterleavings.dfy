/**
 * The broker with its calls interleaved.  A publish or a subscribe holds the global lock
 * and proceeds push by push; between any two of its steps other threads may create,
 * reference and release messages, get messages from queues, read overflow counters and
 * create or retire subscribers, none of which takes the lock.  A get first passes the
 * semaphore and later dequeues; ps_flush is a series of gets and releases.
 */
module BrokerInterleavings {
  import opened PriorityLists
  import opened Registry
  import opened Topics
  import opened BrokerModel
  import opened BrokerRefs
  import opened BrokerRegistry
  import opened BrokerHistory
  import opened BrokerSafety
  import opened BrokerCounts
  import opened BrokerRuns
  import M = Messages

  /** The queue a push found, and how many getters had passed its semaphore without having dequeued. */
  datatype Scene = Scene(q: seq<Entry>, getters: nat)

  /**
   * A publish under way: its message and topic, and `ret` so far.  The rest is history: the
   * state and the getters when its loop began, the gets begun since, the subscriptions it
   * meets, and its push attempts so far with their outcomes and what each found.
   */
  datatype Progress = Progress(
    m: nat, t: string, recursive: bool, count: nat,
    start: State, w0: multiset<nat>, waits: multiset<nat>,
    met: seq<Subscription>, os: seq<Outcome>, scenes: seq<Scene>)

  /**
   * What the holder of the global lock has still to do: deliver through `l`, whose head
   * may have passed the on_empty test already, or offer the stickies `ms` to a new subscription.
   */
  datatype Work =
    | Free
    | Delivering(p: Progress, l: seq<Subscription>, tested: bool)
    | Offering(su: nat, ms: seq<nat>, prio: nat)

  /**
   * `window` are the getters between semaphore_wait and their dequeue, by subscriber; a
   * semaphore is what its queue holds less these.  `ret` is what the last publish or
   * subscribe returned.
   */
  datatype Fine = Fine(s: State, window: multiset<nat>, work: Work, ret: int)

  datatype Step =
    | BeginPublish(m: nat)
    | BeginSubscribe(su: nat, topic: string, flags: SubFlags)
    | Locked(c: Call)     // a call that pushes nothing, in one critical section
    | Test                // the on_empty test of the next subscription
    | PushNext            // the next push_subscriber_queue
    | Finish              // the end of the critical section
    | Unlocked(c: Call)   // a call that takes no lock
    | Wait(su: nat)       // ps_queue_pull passes the semaphore
    | Dequeue(su: nat)    // and takes the head
    | Retire(su: nat)     // the end of ps_free_subscriber

  predicate IsLocked(c: Call) {
    c.UnsubscribeCall? || c.UnsubscribeAllCall? || c.CleanStickyCall?
  }

  predicate IsUnlocked(c: Call) {
    c.NewMsgCall? || c.RefCall? || c.UnrefCall? || c.OverflowCall? || c.NewSubscriberCall?
  }

  predicate CanStep(f: Fine, e: Step) {
    match e
    case BeginPublish(m) => f.work == Free && m in f.s.handles
    case BeginSubscribe(su, t, flags) => f.work == Free && Allowed(f.s, SubscribeCall(su, t, flags))
    case Locked(c) => f.work == Free && IsLocked(c) && Allowed(f.s, c)
    case Test => f.work.Delivering? && f.work.l != [] && !f.work.tested
    case PushNext =>
      match f.work {
        case Delivering(_, l, tested) => l != [] && tested
        case Offering(_, ms, _) => ms != []
        case Free => false
      }
    case Finish =>
      match f.work {
        case Delivering(_, l, _) => l == []
        case Offering(_, ms, _) => ms == []
        case Free => false
      }
    case Unlocked(c) => IsUnlocked(c) && Allowed(f.s, c)
    case Wait(su) => Live(f.s, su) && f.window[su] < |f.s.sus[su].q|
    case Dequeue(su) => su in f.window
    case Retire(su) => Live(f.s, su) && f.s.sus[su].subs == [] && f.s.sus[su].q == []
  }

  /** The messages and subscribers the step needs exist; shown of every step that can be taken. */
  predicate StepDefined(f: Fine, e: Step) {
    match e
    case BeginPublish(m) => Defined(f.s, PublishCall(m))
    case Test => f.work.Delivering? && f.work.l != [] && f.work.l[0].su < |f.s.sus|
    case PushNext =>
      match f.work {
        case Delivering(_, l, _) => l != [] && l[0].su < |f.s.sus|
        case Offering(su, ms, _) => ms != [] && su < |f.s.sus|
        case Free => false
      }
    case Dequeue(su) => Live(f.s, su)
    case _ => true
  }

  function Bury(s: State, su: nat): State
    requires su < |s.sus|
  {
    s.(sus := s.sus[su := s.sus[su].(alive := false)], liveSus := s.liveSus - 1)
  }

  function Begun(f: Fine, m: nat): Progress
    requires m in f.s.store.msgs
  {
    var msg := f.s.store.msgs[m];
    Progress(m, StripFlags(msg.topic), !msg.nonRecursive, 0, Started(f.s, m), f.window,
             multiset{}, MetBy(f.s, m), [], [])
  }

  /** The publish after a push to `x`. */
  function Advance(f: Fine, p: Progress, x: Subscription): Progress
    requires x.su < |f.s.sus|
  {
    var code := PushCode(f.s, x.su, p.m, x.prio);
    p.(count := p.count + (if code == Ok && !x.hidden then 1 else 0), os := p.os + [Outcome(x, code)],
       scenes := p.scenes + [Scene(f.s.sus[x.su].q, f.window[x.su])])
  }

  /** The test reads the semaphore. */
  predicate Passes(f: Fine, x: Subscription)
    requires x.su < |f.s.sus|
  {
    !x.onEmpty || |f.s.sus[x.su].q| == f.window[x.su]
  }

  function Do(f: Fine, e: Step): Fine
    requires CanStep(f, e)
  {
    var s := f.s;
    if !StepDefined(f, e) then f else
      match e
      case BeginPublish(m) => f.(s := Started(s, m), work := Delivering(Begun(f, m), MetBy(s, m), false))
      case BeginSubscribe(su, orig, base) =>
        var t, flags := StripFlags(orig), ParseFlags(FlagPart(orig), base);
        if Subscribed(At(s, t), su) then f.(ret := -1)
        else
          f.(s := Enrol(s, su, t, flags),
             work := Offering(su, Offered(Enrol(s, su, t, flags).topics, t, flags), flags.priority))
      case Locked(c) => f.(s := Next(s, c))
      case Test =>
        if Passes(f, f.work.l[0]) then f.(work := f.work.(tested := true)) else f.(work := f.work.(l := f.work.l[1..]))
      case PushNext =>
        match f.work {
          case Delivering(p, l, _) =>
            f.(s := PushTo(s, l[0].su, p.m, l[0].prio), work := Delivering(Advance(f, p, l[0]), l[1..], false))
          case Offering(su, ms, prio) => f.(s := PushTo(s, su, ms[0], prio), work := Offering(su, ms[1..], prio))
        }
      case Finish =>
        match f.work {
          case Delivering(p, _, _) => f.(s := s.(store := M.Unref(s.store, p.m)), work := Free, ret := p.count)
          case Offering(_, _, _) => f.(work := Free, ret := 0)
        }
      case Unlocked(c) => f.(s := Next(s, c))
      case Wait(su) =>
        f.(window := f.window + multiset{su},
           work := if f.work.Delivering? then f.work.(p := f.work.p.(waits := f.work.p.waits + multiset{su}))
                   else f.work)
      case Dequeue(su) => f.(s := Get(s, su).0, window := f.window - multiset{su})
      case Retire(su) => f.(s := Bury(s, su))
  }

  // ----- the invariant -----

  /** The reference a publish in progress holds. */
  function InHand(work: Work): multiset<nat> {
    if work.Delivering? then multiset{work.p.m} else multiset{}
  }

  ghost predicate Base(s: State, extra: multiset<nat>) {
    RefsOk(s, extra) && QueuesOk(s) && RegistryOk(s) && HistoryOk(s) && s.liveSus == LiveCount(s.sus)
  }

  predicate Listed(s: State, u: nat) {
    u < |s.sus| && s.sus[u].alive && s.sus[u].subs != []
  }

  /** Whoever is still to be pushed to is subscribed to something, and what is offered is held by a sticky slot. */
  ghost predicate WorkOk(s: State, work: Work) {
    match work
    case Free => true
    case Delivering(m, l, tested) =>
      InRange(l, |s.sus|) && (forall i :: 0 <= i < |l| ==> Listed(s, l[i].su)) && (tested ==> l != [])
    case Offering(su, ms, prio) =>
      Listed(s, su) && forall i :: 0 <= i < |ms| ==> ms[i] in StickyRefs(s.topics)
  }

  /** A getter past the semaphore has a live subscriber and a message waiting for it. */
  ghost predicate WindowOk(s: State, window: multiset<nat>) {
    forall u: nat :: u in window ==> Live(s, u) && window[u] <= |s.sus[u].q|
  }

  ghost predicate FineInv(f: Fine) {
    Base(f.s, InHand(f.work)) && WorkOk(f.s, f.work) && WindowOk(f.s, f.window)
  }

  /** What a step needs exists, and everything it references or releases is live at that moment. */
  predicate StepSafe(f: Fine, e: Step) {
    StepDefined(f, e) &&
    match e
    case BeginPublish(m) =>
      m in f.s.store.msgs &&
      StickySafe(f.s.(handles := f.s.handles - multiset{m}), StripFlags(f.s.store.msgs[m].topic), m,
                 f.s.store.msgs[m].sticky)
    case BeginSubscribe(su, _, _) => Live(f.s, su)
    case Locked(c) => Safe(f.s, c)
    case Test => f.work.Delivering? && f.work.l != [] && Live(f.s, f.work.l[0].su)
    case PushNext =>
      match f.work {
        case Delivering(p, l, _) => l != [] && PushSafe(f.s, l[0].su, p.m, l[0].prio)
        case Offering(su, ms, prio) => ms != [] && PushSafe(f.s, su, ms[0], prio)
        case Free => false
      }
    case Finish => f.work.Delivering? ==> f.work.p.m in f.s.store.msgs
    case Unlocked(c) => Safe(f.s, c)
    case Wait(su) => Live(f.s, su)
    case Dequeue(su) => Safe(f.s, GetCall(su)) && f.s.sus[su].q != []
    case Retire(su) => Live(f.s, su)
  }

  // ----- steps of other threads -----

  /** Same topics; every existing subscriber keeps its list, life and capacity. */
  ghost predicate Grows(s: State, s': State) {
    && s'.topics == s.topics && |s.sus| <= |s'.sus|
    && (forall u :: 0 <= u < |s.sus| ==>
          s'.sus[u].subs == s.sus[u].subs && s'.sus[u].alive == s.sus[u].alive && s'.sus[u].cap == s.sus[u].cap)
  }

  lemma GrowsKeepsWork(s: State, s': State, work: Work)
    requires WorkOk(s, work) && Grows(s, s')
    ensures WorkOk(s', work)
  {
    hide StickyRefs;
  }

  lemma KeepsWindow(s: State, s': State, window: multiset<nat>)
    requires WindowOk(s, window) && |s.sus| <= |s'.sus|
    requires forall u :: 0 <= u < |s.sus| ==> s'.sus[u].alive == s.sus[u].alive && |s'.sus[u].q| >= |s.sus[u].q|
    ensures WindowOk(s', window)
  {
    forall u: nat | u in window ensures Live(s', u) && window[u] <= |s'.sus[u].q| {
      assert Live(s, u);
    }
  }

  lemma UnlockedGrows(s: State, c: Call)
    requires IsUnlocked(c) && Allowed(s, c) && Defined(s, c)
    ensures Grows(s, Next(s, c)) && forall u :: 0 <= u < |s.sus| ==> Next(s, c).sus[u].q == s.sus[u].q
  {
    hide M.Ref, M.Unref, M.New, Publish, Subscribe, Unsubscribe, UnsubscribeAll, Flush, Get, CleanSticky,
         FreeSubscriber;
  }

  lemma UnlockedRefs(s: State, c: Call, extra: multiset<nat>)
    requires IsUnlocked(c) && Allowed(s, c) && Defined(s, c) && RefsOk(s, extra) && QueuesOk(s)
    ensures RefsOk(Next(s, c), extra) && QueuesOk(Next(s, c)) && Safe(s, c)
  {
    hide RefsOk, QueuesOk, TakeOverflow, NewSubscriber;
    match c {
      case NewMsgCall(t, sticky, nr) => NewMsgRefs(s, t, sticky, nr, extra); SameSusQueues(s, Next(s, c));
      case RefCall(m) => RefMsgRefs(s, m, extra); HandleIsLive(s, m, extra); SameSusQueues(s, Next(s, c));
      case UnrefCall(m) => UnrefMsgRefs(s, m, extra); HandleIsLive(s, m, extra); SameSusQueues(s, Next(s, c));
      case OverflowCall(su) => TakeOverflowRefs(s, su, extra);
      case NewSubscriberCall(cap) => NewSubscriberRefs(s, cap, extra);
    }
  }

  lemma UnlockedStep(f: Fine, c: Call)
    requires FineInv(f) && CanStep(f, Unlocked(c))
    ensures FineInv(Do(f, Unlocked(c))) && Safe(f.s, c) && Grows(f.s, Do(f, Unlocked(c)).s)
  {
    hide RefsOk, QueuesOk, RegistryOk, HistoryOk, Next, WorkOk, LiveCount, Allowed, Safe, WindowOk;
    UnlockedRefs(f.s, c, InHand(f.work));
    NextRegistry(f.s, c);
    NextHistory(f.s, c);
    NextLive(f.s, c);
    UnlockedGrows(f.s, c);
    GrowsKeepsWork(f.s, Next(f.s, c), f.work);
    KeepsWindow(f.s, Next(f.s, c), f.window);
  }

  lemma WaitStep(f: Fine, su: nat)
    requires FineInv(f) && CanStep(f, Wait(su))
    ensures FineInv(Do(f, Wait(su)))
  {
    hide Base, StickyRefs;
    var f' := Do(f, Wait(su));
    forall u: nat | u in f'.window ensures Live(f.s, u) && f'.window[u] <= |f.s.sus[u].q| {
      assert u != su ==> u in f.window;
    }
  }

  lemma GetGrows(s: State, su: nat)
    requires su < |s.sus| && s.sus[su].q != []
    ensures var s' := Get(s, su).0;
      && Grows(s, s') && |s'.sus| == |s.sus| && s'.sus[su].q == s.sus[su].q[1..]
      && (forall u :: 0 <= u < |s.sus| && u != su ==> s'.sus[u] == s.sus[u])
      && s'.liveSus == s.liveSus
  {
  }

  lemma GetSameLists(s: State, su: nat)
    requires su < |s.sus|
    ensures SameLists(s, Get(s, su).0)
  {
  }

  lemma GetWindow(s: State, su: nat, window: multiset<nat>)
    requires WindowOk(s, window) && su in window
    ensures Live(s, su) && s.sus[su].q != [] && WindowOk(Get(s, su).0, window - multiset{su})
  {
    hide Get;
    assert Live(s, su);
    GetGrows(s, su);
    var w, s' := window - multiset{su}, Get(s, su).0;
    forall u: nat | u in w ensures Live(s', u) && w[u] <= |s'.sus[u].q| {
      assert u in window;
    }
  }

  /** A getter past the semaphore always finds a message, whatever happened since. */
  lemma DequeueStep(f: Fine, su: nat)
    requires FineInv(f) && CanStep(f, Dequeue(su))
    ensures FineInv(Do(f, Dequeue(su))) && StepSafe(f, Dequeue(su)) && Grows(f.s, Do(f, Dequeue(su)).s)
  {
    hide RefsOk, QueuesOk, RegistryOk, HistoryOk, WorkOk, LiveCount, Get, MetBy, WindowOk, SameLists;
    var s := f.s;
    GetWindow(s, su, f.window);
    GetGrows(s, su);
    var s' := Get(s, su).0;
    GetSameLists(s, su);
    GetRefs(s, su, InHand(f.work));
    QueueIsLive(s, su, InHand(f.work));
    SameListsOk(s, s');
    GetHistory(s, su);
    LiveCountSame(s.sus, s'.sus);
    GrowsKeepsWork(s, s', f.work);
  }

  lemma BuryRefs(s: State, su: nat, extra: multiset<nat>)
    requires RefsOk(s, extra) && QueuesOk(s) && su < |s.sus| && s.sus[su].q == []
    ensures RefsOk(Bury(s, su), extra) && QueuesOk(Bury(s, su))
  {
    hide QueueRefs, StickyRefs;
    SameQueues(s.sus, su, s.sus[su].(alive := false));
  }

  lemma BuryHistory(s: State, su: nat)
    requires HistoryOk(s) && su < |s.sus|
    ensures HistoryOk(Bury(s, su))
  {
    hide HistoryOk;
    QuietCall(s, Bury(s, su));
  }

  lemma BuryWork(s: State, su: nat, work: Work)
    requires WorkOk(s, work) && su < |s.sus| && s.sus[su].subs == []
    ensures WorkOk(Bury(s, su), work)
  {
    hide StickyRefs;
  }

  lemma BuryWindow(s: State, su: nat, window: multiset<nat>)
    requires WindowOk(s, window) && su < |s.sus| && s.sus[su].q == []
    ensures WindowOk(Bury(s, su), window)
  {
  }

  lemma RetireStep(f: Fine, su: nat)
    requires FineInv(f) && CanStep(f, Retire(su))
    ensures FineInv(Do(f, Retire(su)))
  {
    hide RefsOk, QueuesOk, RegistryOk, HistoryOk, WorkOk, LiveCount, WindowOk;
    BuryRefs(f.s, su, InHand(f.work));
    BuryOk(f.s, su);
    BuryHistory(f.s, su);
    LiveCountUpdate(f.s.sus, su, f.s.sus[su].(alive := false));
    BuryWork(f.s, su, f.work);
    BuryWindow(f.s, su, f.window);
  }

  // ----- steps of the lock holder -----

  lemma PushGrows(s: State, su: nat, m: nat, prio: nat)
    requires su < |s.sus|
    ensures var s' := PushTo(s, su, m, prio);
      && Grows(s, s') && |s'.sus[su].q| >= |s.sus[su].q|
      && |s'.sus[su].q| == |s.sus[su].q| + (if PushCode(s, su, m, prio) == Ok then 1 else 0)
      && (forall u :: 0 <= u < |s.sus| && u != su ==> s'.sus[u] == s.sus[u])
  {
    hide M.Ref, M.Unref;
  }

  lemma PushBase(s: State, su: nat, m: nat, prio: nat, extra: multiset<nat>)
    requires Base(s, extra) && Live(s, su) && m in AllRefs(s) + extra
    ensures Base(PushTo(s, su, m, prio), extra) && PushSafe(s, su, m, prio)
  {
    hide RefsOk, QueuesOk, RegistryOk, HistoryOk, AllRefs, LiveCount, Push, M.Ref, M.Unref, PushSafe;
    var s' := PushTo(s, su, m, prio);
    PushIsSafe(s, su, m, prio, extra);
    SameListsOk(s, s');
    PushToHistory(s, su, m, prio);
    LiveCountSame(s.sus, s'.sus);
  }

  lemma PushStep(f: Fine)
    requires FineInv(f) && CanStep(f, PushNext)
    ensures FineInv(Do(f, PushNext)) && StepSafe(f, PushNext)
  {
    hide Base, PushTo, PushSafe, StickyRefs, QueueRefs, WindowOk, PushCode;
    match f.work {
      case Delivering(p, l, _) =>
        var s' := PushTo(f.s, l[0].su, p.m, l[0].prio);
        PushBase(f.s, l[0].su, p.m, l[0].prio, multiset{p.m});
        PushGrows(f.s, l[0].su, p.m, l[0].prio);
        GrowsKeepsWork(f.s, s', Delivering(p, l[1..], false));
        KeepsWindow(f.s, s', f.window);
      case Offering(su, ms, prio) =>
        var s' := PushTo(f.s, su, ms[0], prio);
        assert ms[0] in AllRefs(f.s) + multiset{};
        PushBase(f.s, su, ms[0], prio, multiset{});
        PushGrows(f.s, su, ms[0], prio);
        GrowsKeepsWork(f.s, s', Offering(su, ms[1..], prio));
        KeepsWindow(f.s, s', f.window);
    }
  }

  lemma EndBase(s: State, m: nat)
    requires Base(s, multiset{m})
    ensures m in s.store.msgs && Base(s.(store := M.Unref(s.store, m)), NONE)
  {
    hide QueuesOk, RegistryOk, HistoryOk, LiveCount, AllRefs, M.Unref, M.Counted;
    var s' := s.(store := M.Unref(s.store, m));
    M.UnrefCounted(s.store, AllRefs(s), m);
    SameRefs(s, s');
    AddNone(AllRefs(s'));
    SameSusQueues(s, s');
    SameListsOk(s, s');
    QuietCall(s, s');
  }

  lemma SameRefs(s: State, s': State)
    requires s'.handles == s.handles && s'.sus == s.sus && s'.topics == s.topics
    ensures AllRefs(s') == AllRefs(s)
  {
  }

  lemma FinishStep(f: Fine)
    requires FineInv(f) && CanStep(f, Finish)
    ensures FineInv(Do(f, Finish)) && StepSafe(f, Finish)
  {
    hide Base, M.Unref;
    if f.work.Delivering? {
      EndBase(f.s, f.work.p.m);
      KeepsWindow(f.s, Do(f, Finish).s, f.window);
    }
  }

  lemma TestStep(f: Fine)
    requires FineInv(f) && CanStep(f, Test)
    ensures FineInv(Do(f, Test)) && StepSafe(f, Test)
  {
    hide Base, WindowOk, Passes, StickyRefs, Listed;
    var l := f.work.l;
    ListedIsLive(f.s, l[0].su);
    forall i | 0 <= i < |l[1..]| ensures Listed(f.s, l[1..][i].su) {
      assert l[1..][i] == l[i + 1];
    }
  }

  lemma ListedIsLive(s: State, u: nat)
    requires Listed(s, u)
    ensures u < |s.sus| && Live(s, u)
  {
  }

  lemma ListedWhoIsMet(s: State, t: string)
    requires RegistryOk(s)
    ensures forall i :: 0 <= i < |At(s, t)| ==> Listed(s, At(s, t)[i].su)
  {
    hide IndexOf;
    var l := At(s, t);
    ListedAreAlive(s, t);
    forall i | 0 <= i < |l| ensures Listed(s, l[i].su) {
      SubscribedIff(l, l[i].su);
      assert t in s.sus[l[i].su].subs;
    }
  }

  lemma {:induction false} TargetsListed(s: State, t: string, recursive: bool)
    requires RegistryOk(s)
    ensures forall i :: 0 <= i < |Targets(s.topics, t, recursive)| ==> Listed(s, Targets(s.topics, t, recursive)[i].su)
    decreases |t|
  {
    hide RegistryOk, SubscribersAt, Listed;
    ListedWhoIsMet(s, t);
    var a := At(s, t);
    var rest: seq<Subscription> := if recursive && t != "" then Targets(s.topics, Parent(t), recursive) else [];
    if recursive && t != "" {
      TargetsListed(s, Parent(t), recursive);
    }
    forall i | 0 <= i < |a + rest| ensures Listed(s, (a + rest)[i].su) {
      assert (a + rest)[i] == if i < |a| then a[i] else rest[i - |a|];
    }
  }

  lemma StartBase(s: State, m: nat)
    requires Base(s, NONE) && m in s.handles && m in s.store.msgs
    ensures Base(Started(s, m), multiset{m})
    ensures RegistryOk(Started(s, m)) && Started(s, m).sus == s.sus
    ensures var msg := s.store.msgs[m];
      Started(s, m).topics == UpdateSticky(s, StripFlags(msg.topic), m, msg.sticky).topics
  {
    hide RefsOk, QueuesOk, RegistryOk, HistoryOk, LiveCount, AllRefs, UpdateSticky, StripFlags, TopicsOk;
    var msg := s.store.msgs[m];
    var t := StripFlags(msg.topic);
    var s0 := s.(handles := s.handles - multiset{m});
    StartPublish(s, m);
    SameListsOk(s, s0);
    QuietCall(s, s0);
    RegistryHasTopics(s0);
    UpdateStickyRefs(s0, t, m, msg.sticky, multiset{m});
    UpdateStickySame(s0, t, m, msg.sticky);
    SameSubscriptionsOk(s0, UpdateSticky(s0, t, m, msg.sticky));
    UpdateStickyHistory(s0, t, m, msg.sticky);
    SameSus(s0, t, m, msg.sticky);
    SameTopics(s, s0, t, m, msg.sticky);
    SameSusQueues(s0, UpdateSticky(s0, t, m, msg.sticky));
    StickyLife(s0, t, m, msg.sticky);
  }

  lemma StickyLife(s: State, t: string, m: nat, sticky: bool)
    ensures UpdateSticky(s, t, m, sticky).liveSus == s.liveSus
  {
  }

  lemma RegistryHasTopics(s: State)
    requires RegistryOk(s)
    ensures TopicsOk(s.topics)
  {
  }

  /** A publish of a message the caller holds is defined. */
  lemma PublishIsDefined(s: State, m: nat)
    requires Base(s, NONE) && m in s.handles
    ensures Defined(s, PublishCall(m))
  {
    hide RefsOk, QueuesOk, RegistryOk, HistoryOk, LiveCount, MetBy;
    HandleIsLive(s, m, NONE);
    PublishRegistry(s, m);
  }

  lemma BeginPublishStep(f: Fine, m: nat)
    requires FineInv(f) && CanStep(f, BeginPublish(m))
    ensures FineInv(Do(f, BeginPublish(m))) && StepSafe(f, BeginPublish(m))
  {
    hide RefsOk, QueuesOk, RegistryOk, HistoryOk, LiveCount, AllRefs, UpdateSticky, StripFlags, Targets, StickySafe,
         Started, InRange, WindowOk;
    PublishIsDefined(f.s, m);
    var s, msg := f.s, f.s.store.msgs[m];
    StartBase(s, m);
    StartPublish(s, m);
    StickyIsSafe(s.(handles := s.handles - multiset{m}), StripFlags(msg.topic), m, msg.sticky);
    TargetsListed(Started(s, m), StripFlags(msg.topic), !msg.nonRecursive);
    KeepsWindow(s, Started(s, m), f.window);
  }

  lemma SubscribeBase(s: State, su: nat, t: string, flags: SubFlags)
    requires Base(s, NONE) && Live(s, su) && ' ' !in t && flags.priority < PRIORITIES && !Subscribed(At(s, t), su)
    ensures Base(Enrol(s, su, t, flags), NONE)
  {
    hide RefsOk, QueuesOk, RegistryOk, HistoryOk, LiveCount, Put, SubscribersAt, StickyAt, Subscribed, TopicsOk;
    var s1 := Enrol(s, su, t, flags);
    EnrolReady(s, su, t, flags);
    EnrolOk(s, su, t, flags);
    RegistryHasTopics(s);
    forall n ensures StickyAt(s1.topics, n) == StickyAt(s.topics, n) {
      PutLookup(s.topics, Topic(t, At(s, t) + [Subscription(su, flags.hidden, flags.onEmpty, flags.priority)],
                                StickyAt(s.topics, t)), n);
    }
    QuietCall(s, s1);
    LiveCountSame(s.sus, s1.sus);
  }

  lemma BeginSubscribeStep(f: Fine, su: nat, orig: string, base: SubFlags)
    requires FineInv(f) && CanStep(f, BeginSubscribe(su, orig, base))
    ensures FineInv(Do(f, BeginSubscribe(su, orig, base)))
  {
    hide Base, StripFlags, ParseFlags, FlagPart, Offered, Subscribed, SubscribersAt, Put, StickyAt, StickyRefs,
         WindowOk;
    var t, flags := StripFlags(orig), ParseFlags(FlagPart(orig), base);
    ParsedPriorityInRange(FlagPart(orig), base);
    if !Subscribed(At(f.s, t), su) {
      SubscribeBase(f.s, su, t, flags);
      OfferedAreHeld(Enrol(f.s, su, t, flags).topics, t, flags);
      KeepsWindow(f.s, Enrol(f.s, su, t, flags), f.window);
    }
  }

  lemma LockedKeepsQueues(s: State, c: Call)
    requires IsLocked(c) && Allowed(s, c) && Defined(s, c)
    ensures var s' := Next(s, c);
      |s'.sus| == |s.sus| &&
      forall u :: 0 <= u < |s.sus| ==> s'.sus[u].alive == s.sus[u].alive && s'.sus[u].q == s.sus[u].q
  {
    hide Leave, LeaveAll, StripFlags, RemoveName, IndexOf, UnrefAll, Clean;
  }

  lemma LockedStep(f: Fine, c: Call)
    requires FineInv(f) && CanStep(f, Locked(c))
    ensures FineInv(Do(f, Locked(c))) && Safe(f.s, c)
  {
    hide RefsOk, QueuesOk, RegistryOk, HistoryOk, Next, Allowed, LiveCount, Safe, WindowOk;
    NextInv(f.s, c);
    AllowedCallsAreSafe(f.s, c);
    LockedKeepsQueues(f.s, c);
    KeepsWindow(f.s, Next(f.s, c), f.window);
  }

  lemma DoInv(f: Fine, e: Step)
    requires FineInv(f) && CanStep(f, e)
    ensures FineInv(Do(f, e)) && StepSafe(f, e)
  {
    hide FineInv, Do, Safe;
    match e {
      case BeginPublish(m) => BeginPublishStep(f, m);
      case BeginSubscribe(su, t, flags) => BeginSubscribeStep(f, su, t, flags);
      case Locked(c) => LockedStep(f, c);
      case Test => TestStep(f);
      case PushNext => PushStep(f);
      case Finish => FinishStep(f);
      case Unlocked(c) => UnlockedStep(f, c);
      case Wait(su) => WaitStep(f, su);
      case Dequeue(su) => DequeueStep(f, su);
      case Retire(su) => RetireStep(f, su);
    }
  }

  // ----- every interleaving -----

  const FINE_INIT := Fine(INIT, multiset{}, Free, 0)

  predicate IsFineRun(es: seq<Step>)
    decreases |es|, 0
  {
    es == [] || (IsFineRun(es[..|es| - 1]) && CanStep(FineAfter(es[..|es| - 1]), es[|es| - 1]))
  }

  function FineAfter(es: seq<Step>): Fine
    requires IsFineRun(es)
    decreases |es|, 1
  {
    if es == [] then FINE_INIT else Do(FineAfter(es[..|es| - 1]), es[|es| - 1])
  }

  lemma {:induction false} FineRunInv(es: seq<Step>)
    requires IsFineRun(es)
    ensures FineInv(FineAfter(es))
    decreases |es|
  {
    hide FineInv, Do;
    if es == [] {
      FineInit();
    } else {
      FineRunInv(es[..|es| - 1]);
      DoInv(FineAfter(es[..|es| - 1]), es[|es| - 1]);
    }
  }

  lemma FineInit()
    ensures FineInv(FINE_INIT)
  {
    hide RefsOk, QueuesOk, RegistryOk, HistoryOk, LiveCount;
    InitInv();
  }

  /** Every step that can be taken is defined, and touches no freed message or subscriber. */
  lemma InterleavedStepsAreSafe(es: seq<Step>, e: Step)
    requires IsFineRun(es) && CanStep(FineAfter(es), e)
    ensures StepSafe(FineAfter(es), e)
  {
    hide FineInv, StepSafe;
    FineRunInv(es);
    DoInv(FineAfter(es), e);
  }

  /** How many steps the lock holder has still to take at most. */
  function Remaining(work: Work): nat {
    match work
    case Free => 0
    case Delivering(_, l, tested) => 1 + 2 * |l| - if tested && l != [] then 1 else 0
    case Offering(_, ms, _) => 1 + |ms|
  }

  /**
   * Nobody is ever stuck.  The lock holder can always go on; calls without the lock can be
   * made whatever it is doing; a get can pass whenever its semaphore is positive, and can
   * then dequeue; and when the lock is free any publish or subscribe can begin.
   */
  lemma NobodyIsStuck(es: seq<Step>, c: Call, u: nat, m: nat)
    requires IsFineRun(es)
    ensures var f := FineAfter(es);
      && (f.work != Free ==> CanStep(f, Test) || CanStep(f, PushNext) || CanStep(f, Finish))
      && (IsUnlocked(c) && Allowed(f.s, c) ==> CanStep(f, Unlocked(c)))
      && (Live(f.s, u) && f.window[u] < |f.s.sus[u].q| ==> CanStep(f, Wait(u)))
      && (u in f.window ==> Live(f.s, u) && f.s.sus[u].q != [] && CanStep(f, Dequeue(u)))
      && (f.work == Free && m in f.s.handles ==> CanStep(f, BeginPublish(m)))
      && (f.work == Free && c.SubscribeCall? && Allowed(f.s, c) ==> CanStep(f, BeginSubscribe(c.su, c.topic, c.flags)))
  {
    hide FineInv, CanStep, Allowed;
    FineRunInv(es);
    HolderGoesOn(FineAfter(es));
    CallsGoOn(FineAfter(es), c, u, m);
  }

  lemma HolderGoesOn(f: Fine)
    ensures f.work != Free ==> CanStep(f, Test) || CanStep(f, PushNext) || CanStep(f, Finish)
  {
  }

  lemma CallsGoOn(f: Fine, c: Call, u: nat, m: nat)
    requires FineInv(f)
    ensures IsUnlocked(c) && Allowed(f.s, c) ==> CanStep(f, Unlocked(c))
    ensures Live(f.s, u) && f.window[u] < |f.s.sus[u].q| ==> CanStep(f, Wait(u))
    ensures u in f.window ==> Live(f.s, u) && f.s.sus[u].q != [] && CanStep(f, Dequeue(u))
    ensures f.work == Free && m in f.s.handles ==> CanStep(f, BeginPublish(m))
    ensures f.work == Free && c.SubscribeCall? && Allowed(f.s, c) ==> CanStep(f, BeginSubscribe(c.su, c.topic, c.flags))
  {
    hide Base, WorkOk, Allowed, IsUnlocked;
    if u in f.window {
      assert Live(f.s, u) && f.window[u] <= |f.s.sus[u].q|;
    }
  }

  /** Each step of the lock holder brings its end nearer, and no other thread's step puts it off. */
  lemma LockHolderEnds(es: seq<Step>, e: Step)
    requires IsFineRun(es) && CanStep(FineAfter(es), e) && FineAfter(es).work != Free
    ensures var f := FineAfter(es); var g := Do(f, e);
      if e == Test || e == PushNext || e == Finish then Remaining(g.work) < Remaining(f.work)
      else Remaining(g.work) == Remaining(f.work)
  {
    hide StepSafe, FineInv;
    InterleavedStepsAreSafe(es, e);
    SafeIsDefined(FineAfter(es), e);
    hide PushTo, Next, Get, PushCode, Passes, Allowed;
  }

  lemma SafeIsDefined(f: Fine, e: Step)
    requires StepSafe(f, e)
    ensures StepDefined(f, e)
  {
  }

  /**
   * Between any two steps, in the middle of a publish too: a live message's count is caller
   * handles + queue cells + sticky slots + the reference of the publish in progress.
   */
  lemma InterleavedReferencesConserved(es: seq<Step>)
    requires IsFineRun(es)
    ensures var f := FineAfter(es); var s := f.s;
      && (forall m :: m in s.store.msgs ==>
            s.store.msgs[m].ref == s.handles[m] + QueueRefs(s.sus)[m] + StickyRefs(s.topics)[m] + InHand(f.work)[m] > 0)
      && (forall m :: m in s.handles || m in QueueRefs(s.sus) || m in StickyRefs(s.topics) || m in InHand(f.work) ==>
            m in s.store.msgs)
      && s.store.live == |s.store.msgs|
  {
    hide QueuesOk, RegistryOk, HistoryOk, LiveCount, QueueRefs, StickyRefs, WorkOk;
    FineRunInv(es);
    var f := FineAfter(es);
    assert forall m ::
        (AllRefs(f.s) + InHand(f.work))[m] ==
        f.s.handles[m] + QueueRefs(f.s.sus)[m] + StickyRefs(f.s.topics)[m] + InHand(f.work)[m];
  }

  /** Between any two steps the attempts are accounted for, and every sticky is the last word of the history. */
  lemma InterleavedHistory(es: seq<Step>, u: nat, t: string)
    requires IsFineRun(es)
    ensures var s := FineAfter(es).s;
      && (u < |s.sus| ==> Owed(s.log, u) == |s.sus[u].q| + s.sus[u].overflow)
      && StickyAt(s.topics, t) == StickyFold(s.log, t)
  {
    hide RefsOk, QueuesOk, RegistryOk, LiveCount, WorkOk, Owed, StickyFold, StickyAt;
    FineRunInv(es);
  }

  // ----- without interference -----

  /** The rest of a publish with nobody in between. */
  function Alone(f: Fine): Fine
    requires f.work.Delivering? && InRange(f.work.l, |f.s.sus|) && !f.work.tested
    decreases |f.work.l|
  {
    if f.work.l == [] then Do(f, Finish)
    else
      var g := Do(f, Test);
      if g.work.tested then Alone(Do(g, PushNext)) else Alone(g)
  }

  lemma {:induction false} AloneDelivers(f: Fine)
    requires f.window == multiset{} && f.work.Delivering? && InRange(f.work.l, |f.s.sus|) && !f.work.tested
    ensures var p, g := f.work.p, Alone(f); var r := Deliver(f.s, p.m, f.work.l);
      && g.s == r.0.(store := M.Unref(r.0.store, p.m)) && g.work == Free && g.window == multiset{}
      && g.ret == p.count + r.1
    decreases |f.work.l|
  {
    hide Push, M.Ref, M.Unref;
    if f.work.l != [] {
      var g := Do(f, Test);
      AloneDelivers(if g.work.tested then Do(g, PushNext) else g);
    }
  }

  /**
   * A publish whose steps nobody interrupts, with no getter under way, is the call as a
   * whole: same state, same result.
   */
  lemma UninterruptedPublish(f: Fine, m: nat)
    requires f.work == Free && f.window == multiset{} && m in f.s.handles && Defined(f.s, PublishCall(m))
    ensures var g := Do(f, BeginPublish(m));
      && InRange(g.work.l, |g.s.sus|)
      && Alone(g) == Fine(Publish(f.s, m).0, multiset{}, Free, Publish(f.s, m).1)
  {
    hide MetBy, Alone, Deliver, UpdateSticky, StripFlags;
    var msg := f.s.store.msgs[m];
    SameSus(f.s.(handles := f.s.handles - multiset{m}), StripFlags(msg.topic), m, msg.sticky);
    AloneDelivers(Do(f, BeginPublish(m)));
  }

  /** The rest of a subscribe with nobody in between. */
  function AloneOffers(f: Fine): Fine
    requires f.work.Offering? && f.work.su < |f.s.sus|
    decreases |f.work.ms|
  {
    if f.work.ms == [] then Do(f, Finish) else AloneOffers(Do(f, PushNext))
  }

  lemma {:induction false} AloneOffersAll(f: Fine)
    requires f.work.Offering? && f.work.su < |f.s.sus|
    ensures AloneOffers(f) == f.(s := PushStickies(f.s, f.work.su, f.work.ms, f.work.prio), work := Free, ret := 0)
    decreases |f.work.ms|
  {
    hide PushTo;
    if f.work.ms != [] {
      AloneOffersAll(Do(f, PushNext));
    }
  }

  /** A subscribe whose steps nobody interrupts is the call as a whole. */
  lemma UninterruptedSubscribe(f: Fine, su: nat, orig: string, base: SubFlags)
    requires CanStep(f, BeginSubscribe(su, orig, base))
    ensures var g, r := Do(f, BeginSubscribe(su, orig, base)), Subscribe(f.s, su, orig, base);
      if g.work.Offering? then g.work.su < |g.s.sus| && AloneOffers(g) == f.(s := r.0, ret := r.1)
      else g == f.(s := r.0, ret := r.1)
  {
    hide AloneOffers, PushStickies, Offered, Put, StripFlags, ParseFlags, FlagPart, Subscribed;
    var g := Do(f, BeginSubscribe(su, orig, base));
    if g.work.Offering? {
      AloneOffersAll(g);
    }
  }
}
