/**
 * Every run of whole calls is one of the interleavings: each call is a series of steps of
 * one thread with nobody in between.
 */
module BrokerWholeCalls {
  import opened Registry
  import opened Topics
  import opened BrokerModel
  import opened BrokerSafety
  import opened BrokerEffects
  import opened BrokerRuns
  import opened BrokerInterleavings

  ghost predicate FineReaches(f: Fine) {
    exists es :: IsFineRun(es) && FineAfter(es) == f
  }

  lemma OneStep(f: Fine, e: Step)
    requires FineReaches(f) && CanStep(f, e)
    ensures FineReaches(Do(f, e))
  {
    hide CanStep, Do;
    var es :| IsFineRun(es) && FineAfter(es) == f;
    var es' := es + [e];
    assert es'[..|es|] == es && es'[|es|] == e;
    assert IsFineRun(es') && FineAfter(es') == Do(f, e);
  }

  /** Between calls, with no getter under way. */
  function Quiet(s: State, r: int): Fine {
    Fine(s, multiset{}, Free, r)
  }

  lemma {:induction false} AloneReached(f: Fine)
    requires FineReaches(f) && f.work.Delivering? && InRange(f.work.l, |f.s.sus|) && !f.work.tested
    ensures FineReaches(Alone(f))
    decreases |f.work.l|
  {
    hide FineReaches, PushTo, PushCode;
    if f.work.l == [] {
      OneStep(f, Finish);
    } else {
      OneStep(f, Test);
      var g := Do(f, Test);
      if g.work.tested {
        OneStep(g, PushNext);
        AloneReached(Do(g, PushNext));
      } else {
        AloneReached(g);
      }
    }
  }

  lemma {:induction false} AloneOffersReached(f: Fine)
    requires FineReaches(f) && f.work.Offering? && f.work.su < |f.s.sus|
    ensures FineReaches(AloneOffers(f))
    decreases |f.work.ms|
  {
    hide FineReaches, PushTo;
    if f.work.ms == [] {
      OneStep(f, Finish);
    } else {
      OneStep(f, PushNext);
      AloneOffersReached(Do(f, PushNext));
    }
  }

  lemma GetReached(s: State, su: nat, r: int)
    requires FineReaches(Quiet(s, r)) && Live(s, su)
    ensures FineReaches(Quiet(Get(s, su).0, r))
  {
    hide FineReaches;
    if s.sus[su].q != [] {
      var f := Quiet(s, r);
      OneStep(f, Wait(su));
      var g := Do(f, Wait(su));
      assert g.window == multiset{su} && g.work == Free;
      OneStep(g, Dequeue(su));
      assert Do(g, Dequeue(su)) == Quiet(Get(s, su).0, r);
    }
  }

  lemma {:induction false} FlushReached(s: State, su: nat, r: int)
    requires FineReaches(Quiet(s, r)) && Live(s, su)
    ensures FineReaches(Quiet(Flush(s, su).0, r))
    decreases |s.sus[su].q|
  {
    hide FineReaches;
    if s.sus[su].q != [] {
      var g := Get(s, su);
      GetReached(s, su, r);
      var m := g.1.value;
      OneStep(Quiet(g.0, r), Unlocked(UnrefCall(m)));
      FlushReached(UnrefMsg(g.0, m), su, r);
    }
  }

  lemma FreeReached(s: State, su: nat, r: int)
    requires FineReaches(Quiet(s, r)) && Live(s, su)
    ensures FineReaches(Quiet(FreeSubscriber(s, su), r))
  {
    hide FineReaches, Flush, LeaveAll;
    OneStep(Quiet(s, r), Locked(UnsubscribeAllCall(su)));
    var s1 := UnsubscribeAll(s, su).0;
    FlushReached(s1, su, r);
    FlushOthers(s1, su);
    OneStep(Quiet(Flush(s1, su).0, r), Retire(su));
  }

  lemma PublishReached(s: State, m: nat, r: int)
    requires FineReaches(Quiet(s, r)) && m in s.handles && Defined(s, PublishCall(m))
    ensures FineReaches(Quiet(Publish(s, m).0, Publish(s, m).1))
  {
    hide FineReaches, Publish, MetBy, Alone;
    var f := Quiet(s, r);
    OneStep(f, BeginPublish(m));
    UninterruptedPublish(f, m);
    AloneReached(Do(f, BeginPublish(m)));
  }

  lemma SubscribeReached(s: State, su: nat, orig: string, base: SubFlags, r: int)
    requires FineReaches(Quiet(s, r)) && Allowed(s, SubscribeCall(su, orig, base))
    ensures FineReaches(Quiet(Subscribe(s, su, orig, base).0, Subscribe(s, su, orig, base).1))
  {
    hide FineReaches, Subscribe, AloneOffers, StripFlags, ParseFlags, FlagPart, Subscribed, Offered, Put;
    var f := Quiet(s, r);
    OneStep(f, BeginSubscribe(su, orig, base));
    UninterruptedSubscribe(f, su, orig, base);
    if Do(f, BeginSubscribe(su, orig, base)).work.Offering? {
      AloneOffersReached(Do(f, BeginSubscribe(su, orig, base)));
    }
  }

  lemma CallReached(s: State, c: Call, r: int) returns (r': int)
    requires FineReaches(Quiet(s, r)) && Allowed(s, c) && Defined(s, c)
    ensures FineReaches(Quiet(Next(s, c), r'))
  {
    hide FineReaches, Publish, Subscribe, Unsubscribe, UnsubscribeAll, Flush, FreeSubscriber, Get, TakeOverflow,
         CleanSticky, NewSubscriber, MetBy;
    r' := r;
    match c {
      case PublishCall(m) =>
        PublishReached(s, m, r);
        r' := Publish(s, m).1;
      case SubscribeCall(su, t, f) =>
        SubscribeReached(s, su, t, f, r);
        r' := Subscribe(s, su, t, f).1;
      case FreeSubscriberCall(su) => FreeReached(s, su, r);
      case FlushCall(su) => FlushReached(s, su, r);
      case GetCall(su) => GetReached(s, su, r);
      case UnsubscribeCall(_, _) => OneStep(Quiet(s, r), Locked(c));
      case UnsubscribeAllCall(_) => OneStep(Quiet(s, r), Locked(c));
      case CleanStickyCall(_) => OneStep(Quiet(s, r), Locked(c));
      case _ => OneStep(Quiet(s, r), Unlocked(c));
    }
  }

  lemma {:induction false} LeadsReached(cs: seq<Call>, s: State) returns (r: int)
    requires Leads(INIT, cs, s)
    ensures FineReaches(Quiet(s, r))
    decreases |cs|
  {
    hide FineReaches, Allowed, Defined, Next;
    if cs == [] {
      r := 0;
      NothingYet();
    } else {
      var init, last := cs[..|cs| - 1], cs[|cs| - 1];
      var q :| Leads(INIT, init, q) && BrokerRuns.Step(q, last, s);
      var r0 := LeadsReached(init, q);
      r := CallReached(q, last, r0);
    }
  }

  lemma NothingYet()
    ensures FineReaches(Quiet(INIT, 0))
  {
    assert IsFineRun([]) && FineAfter([]) == Quiet(INIT, 0);
  }

  /** Every state that whole calls reach is reached by an interleaving, between calls. */
  lemma WholeRunsAreInterleavings(cs: seq<Call>, s: State)
    requires Reaches(cs, s)
    ensures exists r: int :: FineReaches(Quiet(s, r))
  {
    hide FineReaches;
    var r := LeadsReached(cs, s);
  }
}
