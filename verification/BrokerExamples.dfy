/**
 * Runs from the empty broker on which the documented meaning of a result fails, and what
 * holds instead in every reachable state.
 */
module BrokerExamples {
  import opened Options
  import opened PriorityLists
  import opened Registry
  import opened Topics
  import opened BrokerModel
  import opened BrokerRefs
  import opened BrokerRegistry
  import opened BrokerHistory
  import opened BrokerDelivery
  import opened BrokerCounts
  import opened BrokerSubsCounts
  import opened BrokerRuns
  import M = Messages

  const PLAIN := SubFlags(false, false, false, false, 0)

  /**
   * A subscriber with one cell, at priority 0 on "a" and 1 on "b"; a message published to
   * "a", another made for "b".
   */
  const EVICTING: seq<Call> := [
    NewSubscriberCall(1), SubscribeCall(0, "a", PLAIN), SubscribeCall(0, "b p1", PLAIN),
    NewMsgCall("a", false, false), PublishCall(0), NewMsgCall("b", false, false)]

  /** A subscriber on "a" and on the root, both on_empty or both not; a message made for "a". */
  function Copying(cap: nat, e: bool): seq<Call> {
    [NewSubscriberCall(cap), SubscribeCall(0, if e then "a e" else "a", PLAIN),
     SubscribeCall(0, if e then " e" else "", PLAIN),
     NewMsgCall("a", false, false)]
  }

  /** A subscriber on "a.b" and on its parent "a". */
  const NESTED: seq<Call> := [NewSubscriberCall(1), SubscribeCall(0, "a.b", PLAIN), SubscribeCall(0, "a", PLAIN)]

  // ----- small steps -----

  lemma Took(cs: seq<Call>, s: State, c: Call, cs': seq<Call>)
    requires Reaches(cs, s) && Allowed(s, c) && cs' == cs + [c]
    ensures Defined(s, c) && Reaches(cs', Next(s, c))
  {
    hide Reaches, Allowed, Next, Defined, Safe;
    RunsNeverTouchFreedMemory(cs, s, c);
  }

  lemma Names()
    ensures StripFlags("a") == "a" && StripFlags("b") == "b" && StripFlags("") == "" && StripFlags("b p1") == "b"
    ensures FlagPart("a") == "" && FlagPart("") == "" && FlagPart("b p1") == "p1"
    ensures ParseFlags("", PLAIN) == PLAIN && ParseFlags("p1", PLAIN) == PLAIN.(priority := 1)
    ensures Parent("a") == "" && Parent("b") == ""
    ensures Reads("a", "a", PLAIN) && Reads("", "", PLAIN) && Reads("b p1", "b", PLAIN.(priority := 1))
  {
    assert "a"[1..] == "" && "b"[1..] == "" && "a"[..0] == "" && "b"[..0] == "";
    assert "b p1"[1..] == " p1" && "b p1"[2..] == "p1";
    assert StripFlags(" p1") == "";
    assert "p1"[1..] == "1" && "1"[1..] == "";
    assert ParseFlags("1", PLAIN.(priority := 1)) == ParseFlags("", PLAIN.(priority := 1));
  }

  lemma MoreNames()
    ensures Reads("a e", "a", PLAIN.(onEmpty := true)) && Reads(" e", "", PLAIN.(onEmpty := true))
    ensures Reads("a.b", "a.b", PLAIN) && Reads("a", "a", PLAIN) && Parent("a.b") == "a" && Parent("a") == ""
  {
    assert "a e"[1..] == " e" && "a e"[2..] == "e" && " e"[1..] == "e" && "e"[1..] == "";
    assert StripFlags(" e") == "";
    assert ParseFlags("e", PLAIN) == ParseFlags("", PLAIN.(onEmpty := true));
    assert "a.b"[1..] == ".b" && ".b"[1..] == "b" && "b"[1..] == "" && "a"[1..] == "";
    assert StripFlags("b") == "b" && StripFlags(".b") == ".b";
    assert "a.b"[..2] == "a." && "a."[..1] == "a" && "a"[..0] == "";
  }

  /** Subscribing the only subscriber to a topic nobody subscribes to. */
  lemma SubscribeFresh(s: State, orig: string)
    requires |s.sus| == 1 && Find(s.topics, StripFlags(orig)) == |s.topics|
    ensures var t, f := StripFlags(orig), ParseFlags(FlagPart(orig), PLAIN);
      !f.childSticky && !f.noSticky ==>
        Subscribe(s, 0, orig, PLAIN).0 == s.(
          topics := s.topics + [Topic(t, [Subscription(0, f.hidden, f.onEmpty, f.priority)], None)],
          sus := [s.sus[0].(subs := s.sus[0].subs + [t])])
  {
    hide StripFlags, ParseFlags, FlagPart, Find;
    var t, f := StripFlags(orig), ParseFlags(FlagPart(orig), PLAIN);
    var x := Subscription(0, f.hidden, f.onEmpty, f.priority);
    assert At(s, t) == [] && [] + [x] == [x];
    var s1 := Enrol(s, 0, t, f);
    assert s1.topics == s.topics + [Topic(t, [x], None)];
    assert s1.topics[|s.topics|].name == t;
    assert StickyAt(s1.topics, t) == None;
    assert s1.sus == [s.sus[0].(subs := s.sus[0].subs + [t])];
  }

  lemma FindTwo(x: Topic, y: Topic, n: string)
    ensures Find([], n) == 0
    ensures Find([x], n) == if x.name == n then 0 else 1
    ensures Find([x, y], n) == if x.name == n then 0 else if y.name == n then 1 else 2
  {
    assert [x][1..] == [] && [x, y][1..] == [y] && [y][1..] == [];
  }

  /** Two topics without stickies and one subscriber on both. */
  function Both(cap: nat, q: seq<Entry>, x: Topic, y: Topic, lost: nat,
                h: M.Store, handles: multiset<nat>, log: seq<Event>): State {
    State([x, y], [Subscriber(true, cap, q, [x.name, y.name], lost)], 1, h, handles, log)
  }

  lemma DeliverOne(s: State, m: nat, x: Subscription)
    requires x.su < |s.sus| && x.prio < PRIORITIES && !Skipped(s, x)
    ensures Deliver(s, m, [x]) ==
      (PushTo(s, x.su, m, x.prio), if PushCode(s, x.su, m, x.prio) == Ok && !x.hidden then 1 else 0)
    ensures Outcomes(s, m, [x]) == [Outcome(x, PushCode(s, x.su, m, x.prio))]
  {
    assert [x][1..] == [];
  }

  // ----- a delivery by eviction -----

  /** The state after EVICTING, whose last but one call queued message 0. */
  function EvictingState(): State {
    var h := M.Store(map[0 := M.Message(1, "a", false, false), 1 := M.Message(1, "b", false, false)], 2, 2);
    Both(1, [Entry(0, 0)], Topic("a", [Subscription(0, false, false, 0)], None),
         Topic("b", [Subscription(0, false, false, 1)], None), 0, h, multiset{1},
         [Published("a", 0, false), Attempt(0, 0, 0, Ok)])
  }

  /** How a subscription string of these runs is read. */
  predicate Reads(n: string, t: string, f: SubFlags) {
    StripFlags(n) == t && ParseFlags(FlagPart(n), PLAIN) == f && !f.childSticky && !f.noSticky
  }

  lemma SubscribedTwice(cap: nat, n0: string, t0: string, f0: SubFlags,
                        n1: string, t1: string, f1: SubFlags, cs: seq<Call>)
    returns (s: State)
    requires Reads(n0, t0, f0) && Reads(n1, t1, f1) && t0 != t1
    requires cs == [NewSubscriberCall(cap), SubscribeCall(0, n0, PLAIN), SubscribeCall(0, n1, PLAIN)]
    ensures Reaches(cs, s)
    ensures s == Both(cap, [], Topic(t0, [Subscription(0, f0.hidden, f0.onEmpty, f0.priority)], None),
      Topic(t1, [Subscription(0, f1.hidden, f1.onEmpty, f1.priority)], None), 0,
      M.NO_MESSAGES, multiset{}, [])
  {
    hide StripFlags, ParseFlags, FlagPart, Subscribe, Find, Reaches;
    var s0 := NewSubscriber(INIT, cap).0;
    StartsEmpty();
    Took([], INIT, cs[0], [cs[0]]);
    assert s0.sus == [Subscriber(true, cap, [], [], 0)];
    FindTwo(Topic(t0, [], None), Topic(t0, [], None), t0);
    SubscribeFresh(s0, n0);
    var s1 := Subscribe(s0, 0, n0, PLAIN).0;
    Took([cs[0]], s0, cs[1], [cs[0], cs[1]]);
    var y := Topic(t0, [Subscription(0, f0.hidden, f0.onEmpty, f0.priority)], None);
    assert s1.topics == [y];
    FindTwo(y, y, t1);
    SubscribeFresh(s1, n1);
    s := Subscribe(s1, 0, n1, PLAIN).0;
    Took([cs[0], cs[1]], s1, cs[2], cs);
    var x := Topic(t1, [Subscription(0, f1.hidden, f1.onEmpty, f1.priority)], None);
    assert s.topics == [y, x];
    var none: seq<string> := [];
    assert none + [t0] == [t0];
    assert s1.sus == [Subscriber(true, cap, [], [t0], 0)];
    assert [t0] + [t1] == [t0, t1];
    assert s.sus == [Subscriber(true, cap, [], [t0, t1], 0)];
  }

  lemma StartsEmpty()
    ensures Reaches([], INIT)
  {
  }

  lemma Walked(s: State, t: string)
    requires t == "a" || t == "b"
    ensures Targets(s.topics, t, true) == At(s, t) + At(s, "")
  {
    hide Find, Parent;
    Names();
    assert At(s, "") + [] == At(s, "");
    assert Targets(s.topics, "", true) == At(s, "");
  }

  lemma EvictingReached()
    ensures Reaches(EVICTING, EvictingState())
  {
    hide Reaches, StripFlags, Find, Targets, Parent;
    Names();
    var cs := EVICTING;
    var s2 := SubscribedTwice(1, "a", "a", PLAIN, "b p1", "b", PLAIN.(priority := 1), cs[..3]);
    var s3 := NewMsg(s2, "a", false, false).0;
    Took(cs[..3], s2, cs[3], cs[..4]);
    FindTwo(s2.topics[0], s2.topics[1], "a");
    FindTwo(s2.topics[0], s2.topics[1], "");
    var x := Subscription(0, false, false, 0);
    Walked(s3, "a");
    assert MetBy(s3, 0) == [x];
    Took(cs[..4], s3, cs[4], cs[..5]);
    var s4 := Publish(s3, 0).0;
    DeliverOne(Started(s3, 0), 0, x);
    assert Insert([], Entry(0, 0)) == [Entry(0, 0)];
    assert s4.store.msgs == map[0 := M.Message(1, "a", false, false)];
    assert s4.log == [Published("a", 0, false), Attempt(0, 0, 0, Ok)];
    Took(cs[..5], s4, cs[5], cs);
    assert Next(s4, cs[5]) == EvictingState();
  }

  lemma EvictingMeets()
    ensures MetBy(EvictingState(), 1) == [Subscription(0, false, false, 1)]
  {
    hide StripFlags, Find, Targets, Parent;
    var s := EvictingState();
    Names();
    FindTwo(s.topics[0], s.topics[1], "b");
    FindTwo(s.topics[0], s.topics[1], "");
    Walked(s, "b");
  }

  lemma EvictingStarts()
    ensures var s := EvictingState();
      Started(s, 1) == s.(handles := s.handles - multiset{1}, log := s.log + [Published("b", 1, false)])
  {
    hide StripFlags, Find;
    var s := EvictingState();
    Names();
    FindTwo(s.topics[0], s.topics[1], "b");
  }

  /** What the second publish does. */
  lemma EvictingPublishes()
    ensures var s := EvictingState();
      && 1 in s.store.msgs && InRange(MetBy(s, 1), |s.sus|)
      && PublishOutcomes(s, 1) == [Outcome(Subscription(0, false, false, 1), Overflow)]
      && Publish(s, 1).1 == 0
      && Publish(s, 1).0.sus[0].q == [Entry(1, 1)] && Publish(s, 1).0.sus[0].overflow == 1
      && Publish(s, 1).0.log == s.log + [Published("b", 1, false), Attempt(0, 1, 1, Overflow)]
  {
    hide StripFlags, Find, MetBy, UpdateSticky, Deliver, Outcomes;
    var s, x := EvictingState(), Subscription(0, false, false, 1);
    EvictingMeets();
    EvictingStarts();
    assert [Entry(0, 0)][..0] == [];
    assert Push([Entry(0, 0)], 1, Entry(1, 1)) == PushResult([Entry(1, 1)], Overflow, [Entry(0, 0)]);
    DeliverOne(Started(s, 1), 1, x);
  }

  /**
   * A reachable publish that delivers its message to a visible subscriber by eviction, and
   * returns 0; the counter of ps_overflow then shows a loss although every push was stored.
   */
  lemma EvictingPublishIsNotCounted()
    ensures Reaches(EVICTING, EvictingState()) && Allowed(EvictingState(), PublishCall(1))
    ensures Defined(EvictingState(), PublishCall(1))
    ensures var s := EvictingState(); var r := Publish(s, 1);
      && r.1 == 0 && DeliveredTo(PublishOutcomes(s, 1), |s.sus|) == 1 && r.0.sus[0].q == [Entry(1, 1)]
      && Reaches(EVICTING + [PublishCall(1)], r.0)
      && r.0.sus[0].overflow + ReportedSum(r.0.log, 0) == 1 && Attempts(r.0.log, 0, Full) == 0
  {
    hide Reaches, MetBy, Publish, PublishOutcomes, DeliveredTo, ReportedSum, Attempts;
    EvictingReached();
    EvictingPublishes();
    var s := EvictingState();
    Took(EVICTING, s, PublishCall(1), EVICTING + [PublishCall(1)]);
    OneOutcome(Subscription(0, false, false, 1), Overflow);
    var log := [Published("a", 0, false), Attempt(0, 0, 0, Ok), Published("b", 1, false), Attempt(0, 1, 1, Overflow)];
    assert Publish(s, 1).0.log == log;
    FourEvents(log[0], log[1], log[2], log[3]);
  }

  lemma OneOutcome(x: Subscription, code: Code)
    requires x.su == 0 && !x.hidden && code != Full
    ensures DeliveredTo([Outcome(x, code)], 1) == 1
  {
    var os := [Outcome(x, code)];
    assert os[1..] == [];
    assert Of(os, 0) == os;
    assert Accepted(os);
    assert DeliveredTo(os, 0) == 0;
  }

  lemma FourEvents(a: Event, b: Event, c: Event, d: Event)
    requires !a.Attempt? && !a.Reported? && b.Attempt? && b.code == Ok && !c.Attempt? && !c.Reported?
    requires d.Attempt? && d.code == Overflow
    ensures Attempts([a, b, c, d], 0, Full) == 0 && ReportedSum([a, b, c, d], 0) == 0
  {
    var log := [a, b, c, d];
    assert log[..3] == [a, b, c] && log[..3][..2] == [a, b] &&
           log[..3][..2][..1] == [a] && log[..3][..2][..1][..0] == [];
    assert Attempts([a], 0, Full) == 0 && ReportedSum([a], 0) == 0;
    assert Attempts([a, b], 0, Full) == 0 && ReportedSum([a, b], 0) == 0 by { assert [a, b][..1] == [a]; }
    assert Attempts([a, b, c], 0, Full) == 0 && ReportedSum([a, b, c], 0) == 0 by { assert [a, b, c][..2] == [a, b]; }
  }

  // ----- two copies for one subscriber -----

  function CopyingState(cap: nat, e: bool): State {
    var h := M.Store(map[0 := M.Message(1, "a", false, false)], 1, 1);
    Both(cap, [], Topic("a", [Subscription(0, false, e, 0)], None), Topic("", [Subscription(0, false, e, 0)], None),
         0, h, multiset{0}, [])
  }

  lemma CopyingReached(cap: nat, e: bool)
    ensures Reaches(Copying(cap, e), CopyingState(cap, e))
  {
    hide Reaches, StripFlags, ParseFlags, FlagPart, Parent;
    Names();
    MoreNames();
    var cs := Copying(cap, e);
    var f := PLAIN.(onEmpty := e);
    var s2 := SubscribedTwice(cap, if e then "a e" else "a", "a", f, if e then " e" else "", "", f, cs[..3]);
    Took(cs[..3], s2, cs[3], cs);
    assert Next(s2, cs[3]) == CopyingState(cap, e);
  }

  lemma CopyingMeets(cap: nat, e: bool)
    ensures var s := CopyingState(cap, e);
      && MetBy(s, 0) == [Subscription(0, false, e, 0), Subscription(0, false, e, 0)]
      && Started(s, 0) == s.(handles := multiset{}, log := [Published("a", 0, false)])
  {
    hide StripFlags, Find, Targets, Parent;
    Names();
    var s := CopyingState(cap, e);
    FindTwo(s.topics[0], s.topics[1], "a");
    FindTwo(s.topics[0], s.topics[1], "");
    Walked(s, "a");
    assert s.handles - multiset{0} == multiset{};
  }

  lemma PushTwice()
    ensures var e := Entry(0, 0);
      && Push([], 2, e) == PushResult([e], Ok, []) && Push([e], 2, e) == PushResult([e, e], Ok, [])
      && Push([], 1, e) == PushResult([e], Ok, []) && Push([e], 1, e) == PushResult([e], Full, [e])
  {
    var e := Entry(0, 0);
    assert [e][1..] == [];
    assert Insert([e], e) == [e, e];
  }

  /** Two outcomes of one visible subscriber, the first of which stored. */
  lemma TwoOutcomes(x: Subscription, code: Code)
    requires x.su == 0 && !x.hidden
    ensures DeliveredTo([Outcome(x, Ok), Outcome(x, code)], 1) == 1
    ensures var os := [Outcome(x, Ok), Outcome(x, code)];
      Of(os, 0) == os && Counted(os) == if code == Ok then 2 else 1
  {
    var os := [Outcome(x, Ok), Outcome(x, code)];
    assert os[1..] == [Outcome(x, code)] && os[1..][1..] == [];
    assert Of(os[1..], 0) == [Outcome(x, code)] && Counted(os[1..]) == if code == Ok then 1 else 0;
    assert Of(os, 0) == os;
    assert !os[0].x.hidden && os[0].code != Full;
    assert DeliveredTo(os, 0) == 0;
  }

  /** A reachable publish that delivers to one subscriber and returns 2. */
  lemma CopiesAreCounted()
    ensures Reaches(Copying(2, false), CopyingState(2, false)) && Allowed(CopyingState(2, false), PublishCall(0))
    ensures Defined(CopyingState(2, false), PublishCall(0))
    ensures var s := CopyingState(2, false);
      Publish(s, 0).1 == 2 && DeliveredTo(PublishOutcomes(s, 0), |s.sus|) == 1
  {
    hide Reaches, StripFlags, Find, Targets, Parent, MetBy, UpdateSticky, DeliveredTo;
    CopyingReached(2, false);
    CopyingMeets(2, false);
    PushTwice();
    var s, x := CopyingState(2, false), Subscription(0, false, false, 0);
    assert [x, x][1..] == [x];
    DeliverOne(PushTo(Started(s, 0), 0, 0, 0), 0, x);
    assert PublishOutcomes(s, 0) == [Outcome(x, Ok), Outcome(x, Ok)];
    TwoOutcomes(x, Ok);
  }

  // ----- ps_subs_count -----

  /** A subscriber visible at the root is not counted there. */
  lemma RootIsNotCounted()
    ensures Reaches(Copying(1, false), CopyingState(1, false))
    ensures var s := CopyingState(1, false); SubsCount(s.topics, "") == 0 && Visible(At(s, "")) == 1
  {
    hide Reaches;
    CopyingReached(1, false);
    var s := CopyingState(1, false);
    FindTwo(s.topics[0], s.topics[1], "");
    VisibleFew(s.topics[1].subscribers[0]);
  }

  /** ps_subs_count says 2 where one subscriber subscribes to "a.b", and one would be met by a publish to it. */
  predicate CountsTwice(s: State) {
    && SubsCount(s.topics, "a.b") == 2 && Visible(At(s, "a.b")) == 1
    && Reached(Targets(s.topics, "a.b", true), 1) == 1
  }

  /** One subscriber of "a.b" that also listens to "a" is counted twice. */
  lemma AncestorsAreCounted()
    ensures exists s :: Reaches(NESTED, s) && |s.sus| == 1 && CountsTwice(s)
  {
    hide Reaches, StripFlags, ParseFlags, FlagPart, Parent, Find, SubsCount, Visible;
    MoreNames();
    var s := SubscribedTwice(1, "a.b", "a.b", PLAIN, "a", "a", PLAIN, NESTED);
    NestedCounts(s, Subscription(0, false, false, 0));
  }

  lemma NestedCounts(s: State, x: Subscription)
    requires s.topics == [Topic("a.b", [x], None), Topic("a", [x], None)] && x == Subscription(0, false, false, 0)
    ensures CountsTwice(s)
  {
    hide Parent, Find, Visible, SubsCount, Targets, Mine;
    MoreNames();
    FindTwo(s.topics[0], s.topics[1], "a.b");
    FindTwo(s.topics[0], s.topics[1], "a");
    FindTwo(s.topics[0], s.topics[1], "");
    VisibleFew(x);
    CountUnfold(s.topics, "a.b");
    CountUnfold(s.topics, "a");
    CountUnfold(s.topics, "");
    var l := Targets(s.topics, "a.b", true);
    WalkUnfold(s.topics, "a.b");
    WalkUnfold(s.topics, "a");
    WalkUnfold(s.topics, "");
    assert l == [x] + ([x] + []);
    assert l == [x, x];
    AllMine(x);
    VisibleConcat([x], [x]);
    assert [x] + [x] == [x, x];
    assert Reached(l, 0) == 0;
  }

  lemma WalkUnfold(ts: seq<Topic>, t: string)
    ensures Targets(ts, t, true) == SubscribersAt(ts, t) + if t == "" then [] else Targets(ts, Parent(t), true)
  {
  }

  lemma AllMine(x: Subscription)
    requires x.su == 0
    ensures Mine([x, x], 0) == [x, x]
  {
    assert [x, x][1..] == [x] && [x][1..] == [];
    assert Mine([x], 0) == [x];
  }

  // ----- in every reachable state -----

  /**
   * For every owned message of every reachable state, published undisturbed: each subscriber's
   * share of the count, when it is the documented one, the whole count, when it is the
   * documented one, and when ps_call gives up; all in terms of the state before the publish.
   */
  lemma ReachablePublishCounts(cs: seq<Call>, s: State, m: nat, u: nat)
    requires Reaches(cs, s) && m in s.handles && u < |s.sus|
    ensures Defined(s, PublishCall(m))
    ensures var mine, plain, late := Of(PublishOutcomes(s, m), u), PlainStores(s, m, u), StoresLate(s, m, u);
      && Counted(mine) == plain
      && (Accepted(mine) <==> plain > 0 || late)
      && (Counted(mine) == (if Accepted(mine) then 1 else 0) <==> plain == 1 || (plain == 0 && !late))
    ensures var r := Publish(s, m).1;
      && r == Shares(PublishOutcomes(s, m), |s.sus|)
      && (r == DeliveredTo(PublishOutcomes(s, m), |s.sus|) <==> Surplus(s, m, |s.sus|) == 0)
      && (r == 0 <==> forall v :: 0 <= v < |s.sus| ==> PlainStores(s, m, v) == 0)
  {
    hide Reaches, Inv, MetBy, PublishOutcomes, Publish, Counted, Accepted, PlainStores, StoresLate, Of, Shares,
         DeliveredTo, Surplus, AllQueuesOk;
    ReachableInv(cs, s);
    AllowedCallsAreDefined(s, PublishCall(m));
    QueuesInOrder(s);
    PublishSharePerSubscriber(s, m, u);
    PublishCountIsSum(s, m);
    PublishCountIsDocumentedIff(s, m);
    CallGivesUpIff(s, m);
  }

  lemma QueuesInOrder(s: State)
    requires Inv(s)
    ensures AllQueuesOk(s)
  {
    hide RefsOk, RegistryOk, HistoryOk, LiveCount;
  }
}
