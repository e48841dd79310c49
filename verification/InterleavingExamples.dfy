/**
 * Interleavings in which a get between two pushes of a publish changes what its result, and
 * on_empty, come to.
 */
module InterleavingExamples {
  import opened PriorityLists
  import opened Registry
  import opened BrokerModel
  import opened BrokerDelivery
  import opened BrokerCounts
  import opened BrokerRuns
  import opened BrokerInterleavings
  import opened BrokerWholeCalls
  import opened BrokerExamples
  import M = Messages

  /** The two subscriptions of the runs below, at "a" and at the root. */
  function Twin(e: bool): Subscription {
    Subscription(0, false, e, 0)
  }

  lemma Rest(x: Subscription)
    ensures [x, x][1..] == [x] && [x][1..] == []
  {
  }

  /** The publish after its first push: one plain store into the only cell. */
  lemma FirstPush(e: bool, r: int) returns (f: Fine)
    requires FineReaches(Quiet(CopyingState(1, e), r))
    ensures FineReaches(f) && f.window == multiset{} && f.work.Delivering?
    ensures |f.s.sus| == 1 && f.s.sus[0].alive && f.s.sus[0].cap == 1
    ensures f.s.sus[0].q == [Entry(0, 0)] && f.s.sus[0].overflow == 0
    ensures var p := f.work.p;
      && p.m == 0 && p.os == [Outcome(Twin(e), Ok)] && p.count == 1 && p.waits == multiset{} && p.w0 == multiset{}
      && f.work.l == [Twin(e)] && !f.work.tested
  {
    hide FineReaches, Started, MetBy, InRange;
    var s, x := CopyingState(1, e), Twin(e);
    CopyingMeets(1, e);
    CopyingDefined(e);
    PushTwice();
    Rest(x);
    var f0 := Quiet(s, r);
    OneStep(f0, BeginPublish(0));
    var f1 := Do(f0, BeginPublish(0));
    OneStep(f1, Test);
    var f2 := Do(f1, Test);
    OneStep(f2, PushNext);
    f := Do(f2, PushNext);
  }

  lemma CopyingDefined(e: bool)
    ensures Defined(CopyingState(1, e), PublishCall(0))
  {
    hide MetBy;
    CopyingMeets(1, e);
  }

  /** The second push, on what is then in the queue. */
  lemma SecondPush(f: Fine, e: bool, code: Code) returns (g: Fine)
    requires FineReaches(f) && f.work.Delivering? && |f.s.sus| == 1 && f.s.sus[0].alive && f.s.sus[0].cap == 1
    requires f.work.p.m == 0 && f.work.l == [Twin(e)] && !f.work.tested && f.work.p.os == [Outcome(Twin(e), Ok)]
    requires f.work.p.count == 1
    requires e ==> |f.s.sus[0].q| == f.window[0]
    requires (f.s.sus[0].q == [] && code == Ok) || (f.s.sus[0].q == [Entry(0, 0)] && code == Full)
    ensures FineReaches(g) && g.work.Delivering? && g.work.l == [] && |g.s.sus| == 1
    ensures g.work.p.os == [Outcome(Twin(e), Ok), Outcome(Twin(e), code)]
    ensures g.work.p.count == if code == Ok then 2 else 1
    ensures g.work.p.waits == f.work.p.waits && g.work.p.w0 == f.work.p.w0
    ensures g.s.sus[0].q == [Entry(0, 0)]
    ensures g.s.sus[0].overflow == f.s.sus[0].overflow + if code == Ok then 0 else 1
  {
    hide FineReaches, M.Ref, M.Unref;
    PushTwice();
    Rest(Twin(e));
    OneStep(f, Test);
    var f1 := Do(f, Test);
    OneStep(f1, PushNext);
    g := Do(f1, PushNext);
  }

  /** A getter passes the semaphore, and takes the message. */
  lemma GetBetween(f: Fine) returns (g: Fine, h: Fine)
    requires FineReaches(f) && f.window == multiset{} && f.work.Delivering? && |f.s.sus| == 1 && f.s.sus[0].alive
    requires f.s.sus[0].q == [Entry(0, 0)] && f.work.p.waits == multiset{}
    ensures FineReaches(g) && g.s == f.s && g.window == multiset{0}
    ensures g.work == f.work.(p := f.work.p.(waits := multiset{0}))
    ensures FineReaches(h) && h.window == multiset{} && h.work == g.work
    ensures h.s.sus == [f.s.sus[0].(q := [])]
  {
    hide FineReaches;
    OneStep(f, Wait(0));
    g := Do(f, Wait(0));
    assert [Entry(0, 0)][1..] == [];
    OneStep(g, Dequeue(0));
    h := Do(g, Dequeue(0));
    assert multiset{0} - multiset{0} == multiset{};
  }

  ghost predicate EndsWith(f: Fine, e: bool, code: Code, ret: int) {
    && f.work.Delivering? && CanStep(f, Finish) && Do(f, Finish).ret == ret
    && |f.s.sus| == 1 && DeliveredTo(f.work.p.os, 1) == 1
    && f.work.p.os == [Outcome(Twin(e), Ok), Outcome(Twin(e), code)]
    && f.work.p.w0 == multiset{} && f.work.p.waits == multiset{0}
  }

  /**
   * Before this publish every share is the documented one, and undisturbed it returns 1; a
   * get between its two pushes makes it return 2 for its one subscriber.
   */
  lemma GetMakesACopyCount()
    ensures var s := CopyingState(1, false);
      && Reaches(Copying(1, false), s) && Defined(s, PublishCall(0))
      && Publish(s, 0).1 == 1 && DocumentedShare(s, 0, 0)
    ensures exists f :: FineReaches(f) && EndsWith(f, false, Ok, 2)
  {
    hide FineReaches, Reaches, MetBy, Publish, DocumentedShare;
    CopyingReached(1, false);
    CopyingDefined(false);
    UndisturbedReturnsOne();
    WholeRunsAreInterleavings(Copying(1, false), CopyingState(1, false));
    var r: int :| FineReaches(Quiet(CopyingState(1, false), r));
    var f := FirstPush(false, r);
    var g, h := GetBetween(f);
    var last := SecondPush(h, false, Ok);
    TwoOutcomes(Twin(false), Ok);
    assert EndsWith(last, false, Ok, 2);
  }

  lemma UndisturbedReturnsOne()
    ensures var s := CopyingState(1, false);
      Defined(s, PublishCall(0)) && Publish(s, 0).1 == 1 && DocumentedShare(s, 0, 0)
  {
    hide MetBy, UpdateSticky, AtLeast, OffersAtLeast;
    var s, x := CopyingState(1, false), Twin(false);
    CopyingDefined(false);
    CopyingMeets(1, false);
    PushTwice();
    Rest(x);
    DeliverOne(PushTo(Started(s, 0), 0, 0, 0), 0, x);
    OnlyOneCell(s, x);
  }

  lemma OnlyOneCell(s: State, x: Subscription)
    requires s == CopyingState(1, false) && x == Twin(false) && MetBy(s, 0) == [x, x]
    ensures DocumentedShare(s, 0, 0)
  {
    hide MetBy;
    Rest(x);
    assert Mine([x], 0) == [x];
    assert Mine([x, x], 0) == [x, x];
    assert Always([x]) == [x];
    assert AttemptsFor(s, 0, 0) == [x, x];
    assert [x, x][..1] == [x];
    assert Visible([x]) == 1;
  }

  /** Both subscriptions on_empty: a get between the two tests lets a second copy in. */
  lemma GetLetsASecondCopyIn()
    ensures exists f :: FineReaches(f) && EndsWith(f, true, Ok, 2) && f.s.sus[0].q == [Entry(0, 0)]
  {
    hide FineReaches, Reaches, MetBy;
    CopyingReached(1, true);
    WholeRunsAreInterleavings(Copying(1, true), CopyingState(1, true));
    var r: int :| FineReaches(Quiet(CopyingState(1, true), r));
    var f := FirstPush(true, r);
    var g, h := GetBetween(f);
    var last := SecondPush(h, true, Ok);
    TwoOutcomes(Twin(true), Ok);
    assert EndsWith(last, true, Ok, 2);
  }

  /** A getter past the semaphore that has not dequeued makes the test pass on a full queue: the push is a loss. */
  lemma GetterMakesOnEmptyLose()
    ensures exists f :: FineReaches(f) && EndsWith(f, true, Full, 1) && f.s.sus[0].overflow == 1
  {
    hide FineReaches, Reaches, MetBy;
    CopyingReached(1, true);
    WholeRunsAreInterleavings(Copying(1, true), CopyingState(1, true));
    var r: int :| FineReaches(Quiet(CopyingState(1, true), r));
    var f := FirstPush(true, r);
    var g, h := GetBetween(f);
    var last := SecondPush(g, true, Full);
    TwoOutcomes(Twin(true), Full);
    assert EndsWith(last, true, Full, 1);
  }
}
