/**
 * The count ps_publish returns, subscriber by subscriber, read off the state before the
 * call, and when it is the documented one: the number of subscribers delivered to.  The
 * publish runs undisturbed: no get happens in between, so a semaphore is what its queue
 * holds.  BrokerProgress says what holds among other threads.
 */
module BrokerCounts {
  import opened PriorityLists
  import opened Registry
  import opened Topics
  import opened BrokerModel
  import opened BrokerDelivery

  // ----- the outcomes of a delivery -----

  /** A push attempt for a subscription, with the code the queue returned. */
  datatype Outcome = Outcome(x: Subscription, code: Code)

  /** The attempts of a delivery, in order. */
  function Outcomes(s: State, m: nat, l: seq<Subscription>): seq<Outcome>
    requires InRange(l, |s.sus|)
    decreases |l|
  {
    if l == [] then []
    else if Skipped(s, l[0]) then Outcomes(s, m, l[1..])
    else [Outcome(l[0], PushCode(s, l[0].su, m, l[0].prio))] + Outcomes(PushTo(s, l[0].su, m, l[0].prio), m, l[1..])
  }

  /** How many outcomes are visible and plain stores. */
  function Counted(os: seq<Outcome>): nat {
    if os == [] then 0 else (if !os[0].x.hidden && os[0].code == Ok then 1 else 0) + Counted(os[1..])
  }

  /** How many outcomes are visible and put the message in the queue. */
  function Stored(os: seq<Outcome>): nat {
    if os == [] then 0 else (if !os[0].x.hidden && os[0].code != Full then 1 else 0) + Stored(os[1..])
  }

  /** Some visible attempt put the message in the queue. */
  predicate Accepted(os: seq<Outcome>) {
    exists i :: 0 <= i < |os| && !os[i].x.hidden && os[i].code != Full
  }

  /** The outcomes of one subscriber. */
  function Of(os: seq<Outcome>, u: nat): seq<Outcome> {
    if os == [] then [] else (if os[0].x.su == u then [os[0]] else []) + Of(os[1..], u)
  }

  /** The log entries of the outcomes. */
  function Logged(os: seq<Outcome>, m: nat): seq<Event> {
    if os == [] then [] else [Attempt(os[0].x.su, m, os[0].x.prio, os[0].code)] + Logged(os[1..], m)
  }

  lemma CountedCons(o: Outcome, os: seq<Outcome>)
    ensures Counted([o] + os) == (if !o.x.hidden && o.code == Ok then 1 else 0) + Counted(os)
    ensures Stored([o] + os) == (if !o.x.hidden && o.code != Full then 1 else 0) + Stored(os)
    ensures forall m :: Logged([o] + os, m) == [Attempt(o.x.su, m, o.x.prio, o.code)] + Logged(os, m)
    ensures forall u :: Of([o] + os, u) == (if o.x.su == u then [o] else []) + Of(os, u)
  {
    assert ([o] + os)[1..] == os;
  }

  /** The count of a delivery is that of its outcomes, and the outcomes are what the log gains. */
  lemma {:induction false} OutcomesTell(s: State, m: nat, l: seq<Subscription>)
    requires InRange(l, |s.sus|)
    ensures var d, os := Deliver(s, m, l), Outcomes(s, m, l);
      d.1 == Counted(os) && d.0.log == s.log + Logged(os, m)
    decreases |l|
  {
    hide Counted, Stored, Logged, Of, Insert;
    if l == [] {
      NoOutcomes(m);
      assert s.log + [] == s.log;
    } else if Skipped(s, l[0]) {
      OutcomesTell(s, m, l[1..]);
    } else {
      var x := l[0];
      var s' := PushTo(s, x.su, m, x.prio);
      OutcomesTell(s', m, l[1..]);
      CountedCons(Outcome(x, PushCode(s, x.su, m, x.prio)), Outcomes(s', m, l[1..]));
      LogAssoc(s.log, Attempt(x.su, m, x.prio, PushCode(s, x.su, m, x.prio)), Logged(Outcomes(s', m, l[1..]), m));
    }
  }

  lemma LogAssoc(a: seq<Event>, e: Event, b: seq<Event>)
    ensures (a + [e]) + b == a + ([e] + b)
  {
  }

  lemma NoOutcomes(m: nat)
    ensures Counted([]) == 0 && Stored([]) == 0 && Logged([], m) == []
  {
  }

  // ----- one subscriber's attempts, replayed on its queue alone -----

  /** The attempts `e` on one queue. */
  function Replay(q: seq<Entry>, cap: nat, m: nat, e: seq<Subscription>): seq<Outcome>
    decreases |e|
  {
    if e == [] then [] else
      var r := Push(q, cap, Entry(e[0].prio, m));
      [Outcome(e[0], r.code)] + Replay(r.q, cap, m, e[1..])
  }

  /** The subscriptions without on_empty. */
  function Always(l: seq<Subscription>): seq<Subscription> {
    if l == [] then [] else (if l[0].onEmpty then [] else [l[0]]) + Always(l[1..])
  }

  /**
   * The subscriptions that are attempted: all of them on a queue without cells, which stays
   * empty; else those without on_empty, and the first one whatever it is if the queue is empty.
   */
  function Attempted(q: seq<Entry>, cap: nat, l: seq<Subscription>): seq<Subscription> {
    if cap == 0 || l == [] then l
    else if q != [] then Always(l)
    else [l[0]] + Always(l[1..])
  }

  lemma AttemptedStep(q: seq<Entry>, cap: nat, x: Subscription, rest: seq<Subscription>, e: Entry)
    requires QueueOk(q, cap)
    ensures var q' := Push(q, cap, e).q;
      Attempted(q, cap, [x] + rest) ==
        if x.onEmpty && q != [] then Attempted(q, cap, rest) else [x] + Attempted(q', cap, rest)
  {
    hide Insert;
    assert ([x] + rest)[1..] == rest;
    PushLosesAtMostOne(q, cap, e);
    assert [] + Always(rest) == Always(rest);
  }

  ghost predicate AllQueuesOk(s: State) {
    forall u :: 0 <= u < |s.sus| ==> QueueOk(s.sus[u].q, s.sus[u].cap)
  }

  lemma PushKeepsQueueOk(q: seq<Entry>, cap: nat, e: Entry)
    requires QueueOk(q, cap)
    ensures QueueOk(Push(q, cap, e).q, cap)
  {
    hide Insert;
    PushIsTruncatedInsert(q, cap, e);
    PushLosesAtMostOne(q, cap, e);
  }

  lemma PushToKeepsQueuesOk(s: State, su: nat, m: nat, prio: nat)
    requires AllQueuesOk(s) && su < |s.sus|
    ensures AllQueuesOk(PushTo(s, su, m, prio))
  {
    hide QueueOk, Push;
    PushKeepsQueueOk(s.sus[su].q, s.sus[su].cap, Entry(prio, m));
  }

  lemma MineCases(l: seq<Subscription>, u: nat)
    requires l != []
    ensures Mine(l, u) == if l[0].su == u then [l[0]] + Mine(l[1..], u) else Mine(l[1..], u)
  {
  }

  lemma ReplayCons(q: seq<Entry>, cap: nat, m: nat, x: Subscription, e: seq<Subscription>)
    ensures var r := Push(q, cap, Entry(x.prio, m));
      Replay(q, cap, m, [x] + e) == [Outcome(x, r.code)] + Replay(r.q, cap, m, e)
  {
    assert ([x] + e)[1..] == e;
  }

  /** In every delivery, a subscriber's outcomes are those of its attempted subscriptions on its own queue. */
  lemma {:induction false} OutcomesPerSubscriber(s: State, m: nat, l: seq<Subscription>, u: nat)
    requires InRange(l, |s.sus|) && AllQueuesOk(s) && u < |s.sus|
    ensures var q, cap := s.sus[u].q, s.sus[u].cap;
      Of(Outcomes(s, m, l), u) == Replay(q, cap, m, Attempted(q, cap, Mine(l, u)))
    decreases |l|
  {
    hide QueueOk, Push, Of, Mine, Replay, Attempted, Counted, Stored, Logged;
    var q, cap := s.sus[u].q, s.sus[u].cap;
    if l == [] {
      NothingAttempted(q, cap, m, u);
    } else {
      var x, rest := l[0], Mine(l[1..], u);
      var e := Entry(x.prio, m);
      MineCases(l, u);
      if x.su == u {
        AttemptedStep(q, cap, x, rest, e);
      }
      if Skipped(s, x) {
        OutcomesPerSubscriber(s, m, l[1..], u);
      } else {
        var s' := PushTo(s, x.su, m, x.prio);
        PushToKeepsQueuesOk(s, x.su, m, x.prio);
        OutcomesPerSubscriber(s', m, l[1..], u);
        CountedCons(Outcome(x, PushCode(s, x.su, m, x.prio)), Outcomes(s', m, l[1..]));
        if x.su == u {
          ReplayCons(q, cap, m, x, Attempted(Push(q, cap, e).q, cap, rest));
        } else {
          assert s'.sus[u] == s.sus[u];
          assert [] + Of(Outcomes(s', m, l[1..]), u) == Of(Outcomes(s', m, l[1..]), u);
        }
      }
    }
  }

  lemma NothingAttempted(q: seq<Entry>, cap: nat, m: nat, u: nat)
    ensures Of([], u) == [] && Replay(q, cap, m, Attempted(q, cap, Mine([], u))) == []
  {
  }

  // ----- what each attempt returns, in closed form -----

  /** Entries of priority at least `p`. */
  function AtLeast(q: seq<Entry>, p: nat): (n: nat)
    ensures n <= |q|
  {
    if q == [] then 0 else (if q[0].prio >= p then 1 else 0) + AtLeast(q[1..], p)
  }

  /** Offers of priority at least `p`. */
  function OffersAtLeast(e: seq<Subscription>, p: nat): nat {
    if e == [] then 0 else (if e[0].prio >= p then 1 else 0) + OffersAtLeast(e[1..], p)
  }

  lemma {:induction false} AtLeastInsert(q: seq<Entry>, e: Entry, p: nat)
    ensures AtLeast(Insert(q, e), p) == AtLeast(q, p) + (if e.prio >= p then 1 else 0)
  {
    if q == [] || q[0].prio < e.prio {
      assert ([e] + q)[1..] == q;
    } else {
      AtLeastInsert(q[1..], e, p);
      assert ([q[0]] + Insert(q[1..], e))[1..] == Insert(q[1..], e);
    }
  }

  lemma {:induction false} AtLeastLast(q: seq<Entry>, p: nat)
    requires q != []
    ensures AtLeast(q, p) == AtLeast(q[..|q| - 1], p) + (if q[|q| - 1].prio >= p then 1 else 0)
  {
    if |q| > 1 {
      AtLeastLast(q[1..], p);
      assert q[1..][..|q[1..]| - 1] == q[..|q| - 1][1..];
    } else {
      assert q[1..] == [];
    }
  }

  lemma {:induction false} AtLeastAll(q: seq<Entry>, p: nat)
    requires forall i :: 0 <= i < |q| ==> q[i].prio >= p
    ensures AtLeast(q, p) == |q|
  {
    if q != [] {
      AtLeastAll(q[1..], p);
    }
  }

  function Min(a: nat, b: nat): nat { if a < b then a else b }

  /** A push adds to the entries of every level and up, as far as there are cells. */
  lemma PushAtLeast(q: seq<Entry>, cap: nat, e: Entry, p: nat)
    requires QueueOk(q, cap)
    ensures var q' := Push(q, cap, e).q;
      && |q'| == Min(cap, |q| + 1)
      && AtLeast(q', p) == Min(cap, AtLeast(q, p) + (if e.prio >= p then 1 else 0))
  {
    hide Insert, AtLeast;
    AtLeastInsert(q, e, p);
    if |q| >= cap && q != [] {
      AtLeastLast(q, p);
      AtLeastInsert(q[..|q| - 1], e, p);
      if q[|q| - 1].prio >= p {
        AtLeastAll(q, p);
      }
    }
  }

  /** A full queue has room for priority `p` exactly when not all its entries are of priority `p` or more. */
  lemma CodeOfPush(q: seq<Entry>, cap: nat, e: Entry)
    requires QueueOk(q, cap)
    ensures Push(q, cap, e).code == if |q| < cap then Ok else if AtLeast(q, e.prio) < cap then Overflow else Full
  {
    hide Insert, AtLeast;
    if |q| >= cap && q != [] {
      AtLeastLast(q, e.prio);
      if q[|q| - 1].prio >= e.prio {
        AtLeastAll(q, e.prio);
      }
    }
  }

  /** The code of attempt number `i`, from the queue before the first attempt and the priorities offered. */
  function CodeAt(q: seq<Entry>, cap: nat, e: seq<Subscription>, i: nat): Code
    requires i < |e|
  {
    if |q| + i < cap then Ok
    else if AtLeast(q, e[i].prio) + OffersAtLeast(e[..i], e[i].prio) < cap then Overflow
    else Full
  }

  /**
   * Attempt `i` stores plainly while cells are left; then it evicts exactly when fewer than
   * `cap` of the entries and earlier offers have its priority or more; else it is refused.
   */
  lemma {:induction false} ReplayExplicit(q: seq<Entry>, cap: nat, m: nat, e: seq<Subscription>)
    requires QueueOk(q, cap)
    ensures |Replay(q, cap, m, e)| == |e|
    ensures forall i :: 0 <= i < |e| ==> Replay(q, cap, m, e)[i] == Outcome(e[i], CodeAt(q, cap, e, i))
    decreases |e|
  {
    hide QueueOk, Push, CodeAt;
    if e != [] {
      var o := Entry(e[0].prio, m);
      var q' := Push(q, cap, o).q;
      PushKeepsQueueOk(q, cap, o);
      ReplayExplicit(q', cap, m, e[1..]);
      forall i | 0 <= i < |e| ensures Replay(q, cap, m, e)[i] == Outcome(e[i], CodeAt(q, cap, e, i)) {
        CodeAtStep(q, cap, m, e, i);
        if i > 0 {
          assert Replay(q, cap, m, e)[i] == Replay(q', cap, m, e[1..])[i - 1];
        }
      }
    }
  }

  lemma CodeAtStep(q: seq<Entry>, cap: nat, m: nat, e: seq<Subscription>, i: nat)
    requires QueueOk(q, cap) && i < |e|
    ensures var r := Push(q, cap, Entry(e[0].prio, m));
      CodeAt(q, cap, e, i) == if i == 0 then r.code else CodeAt(r.q, cap, e[1..], i - 1)
  {
    hide Push, AtLeast;
    var o := Entry(e[0].prio, m);
    if i == 0 {
      assert e[..0] == [];
      CodeOfPush(q, cap, o);
    } else {
      PushAtLeast(q, cap, o, e[i].prio);
      assert e[..i][1..] == e[1..][..i - 1];
    }
  }

  // ----- one subscriber's share of the count -----

  /** How many of the attempts find a free cell. */
  function Room(q: seq<Entry>, cap: nat, e: seq<Subscription>): (k: nat)
    ensures k <= |e|
  {
    if |q| >= cap then 0 else Min(|e|, cap - |q|)
  }

  /** A visible attempt that finds the queue full but fewer than `cap` entries and earlier offers as high. */
  predicate LateStore(q: seq<Entry>, cap: nat, e: seq<Subscription>) {
    exists i :: Room(q, cap, e) <= i < |e| && EvictsVisibly(q, cap, e, i)
  }

  predicate EvictsVisibly(q: seq<Entry>, cap: nat, e: seq<Subscription>, i: nat)
    requires i < |e|
  {
    !e[i].hidden && AtLeast(q, e[i].prio) + OffersAtLeast(e[..i], e[i].prio) < cap
  }

  lemma {:induction false} CountedPrefix(os: seq<Outcome>, e: seq<Subscription>, k: nat)
    requires |os| == |e| && k <= |e|
    requires forall i :: 0 <= i < |e| ==> os[i].x == e[i] && (os[i].code == Ok <==> i < k)
    ensures Counted(os) == Visible(e[..k])
  {
    if os != [] {
      CountedPrefix(os[1..], e[1..], if k == 0 then 0 else k - 1);
      if k > 0 {
        assert e[..k][1..] == e[1..][..k - 1];
      }
    }
  }

  lemma {:induction false} VisibleSome(l: seq<Subscription>)
    ensures Visible(l) > 0 <==> exists i :: 0 <= i < |l| && !l[i].hidden
  {
    if l != [] {
      VisibleSome(l[1..]);
      if exists i :: 0 <= i < |l| && !l[i].hidden {
        var i :| 0 <= i < |l| && !l[i].hidden;
        assert i > 0 ==> !l[1..][i - 1].hidden;
      }
    }
  }

  /** A share is the number of visible attempts among those that find a free cell. */
  lemma ShareExplicit(q: seq<Entry>, cap: nat, m: nat, e: seq<Subscription>)
    requires QueueOk(q, cap)
    ensures Counted(Replay(q, cap, m, e)) == Visible(e[..Room(q, cap, e)])
  {
    hide Replay, Counted, Visible, AtLeast, OffersAtLeast;
    ReplayExplicit(q, cap, m, e);
    CountedPrefix(Replay(q, cap, m, e), e, Room(q, cap, e));
  }

  /** A subscriber is delivered to when a visible attempt finds a free cell, or evicts. */
  lemma AcceptedExplicit(q: seq<Entry>, cap: nat, m: nat, e: seq<Subscription>)
    requires QueueOk(q, cap)
    ensures Accepted(Replay(q, cap, m, e)) <==> Visible(e[..Room(q, cap, e)]) > 0 || LateStore(q, cap, e)
  {
    hide Replay, Visible, AtLeast, OffersAtLeast, QueueOk;
    var os, k := Replay(q, cap, m, e), Room(q, cap, e);
    ReplayExplicit(q, cap, m, e);
    VisibleSome(e[..k]);
    if Visible(e[..k]) > 0 {
      var i :| 0 <= i < |e[..k]| && !e[..k][i].hidden;
      assert os[i].code == Ok && !os[i].x.hidden;
    }
    if LateStore(q, cap, e) {
      var i :| k <= i < |e| && EvictsVisibly(q, cap, e, i);
      assert os[i].code == Overflow && !os[i].x.hidden;
    }
    if Accepted(os) {
      var i :| 0 <= i < |os| && !os[i].x.hidden && os[i].code != Full;
      if i < k {
        assert !e[..k][i].hidden;
      } else {
        assert EvictsVisibly(q, cap, e, i);
      }
    }
  }

  /**
   * A subscriber adds to the count what the documentation says, one if it was delivered to
   * and nothing otherwise, exactly when one visible attempt finds a free cell, or none does
   * and none evicts.
   */
  lemma ShareIsDocumentedIff(q: seq<Entry>, cap: nat, m: nat, e: seq<Subscription>)
    requires QueueOk(q, cap)
    ensures var os, plain := Replay(q, cap, m, e), Visible(e[..Room(q, cap, e)]);
      Counted(os) == (if Accepted(os) then 1 else 0) <==> plain == 1 || (plain == 0 && !LateStore(q, cap, e))
  {
    hide Replay, Counted, Accepted, Visible, LateStore, QueueOk;
    ShareExplicit(q, cap, m, e);
    AcceptedExplicit(q, cap, m, e);
  }

  // ----- the whole count -----

  /** The sum of the shares of the first `n` subscribers. */
  function Shares(os: seq<Outcome>, n: nat): nat {
    if n == 0 then 0 else Shares(os, n - 1) + Counted(Of(os, n - 1))
  }

  /** How many of the first `n` subscribers were delivered to. */
  function DeliveredTo(os: seq<Outcome>, n: nat): nat {
    if n == 0 then 0 else DeliveredTo(os, n - 1) + if Accepted(Of(os, n - 1)) then 1 else 0
  }

  lemma {:induction false} SharesCons(o: Outcome, os: seq<Outcome>, n: nat)
    ensures Shares([o] + os, n) == Shares(os, n) + (if o.x.su < n && !o.x.hidden && o.code == Ok then 1 else 0)
  {
    hide Counted, Of;
    if n > 0 {
      SharesCons(o, os, n - 1);
      CountedCons(o, os);
      if o.x.su == n - 1 {
        CountedCons(o, Of(os, n - 1));
      } else {
        assert [] + Of(os, n - 1) == Of(os, n - 1);
      }
    }
  }

  lemma {:induction false} NoShares(n: nat)
    ensures Shares([], n) == 0
  {
    if n > 0 {
      NoShares(n - 1);
    }
  }

  lemma {:induction false} CountedIsSum(os: seq<Outcome>, n: nat)
    requires forall i :: 0 <= i < |os| ==> os[i].x.su < n
    ensures Counted(os) == Shares(os, n)
    decreases |os|
  {
    if os == [] {
      NoShares(n);
    } else {
      CountedIsSum(os[1..], n);
      SharesCons(os[0], os[1..], n);
      assert os == [os[0]] + os[1..];
    }
  }

  lemma {:induction false} OutcomesInRange(s: State, m: nat, l: seq<Subscription>)
    requires InRange(l, |s.sus|)
    ensures forall i :: 0 <= i < |Outcomes(s, m, l)| ==> Outcomes(s, m, l)[i].x.su < |s.sus|
    decreases |l|
  {
    hide PushTo, PushCode;
    if l != [] {
      OutcomesInRange(if Skipped(s, l[0]) then s else PushTo(s, l[0].su, m, l[0].prio), m, l[1..]);
    }
  }

  /** The part of ps_publish before its loop: the caller's reference moves to the call, then the sticky rule. */
  function Started(s: State, m: nat): State
    requires m in s.store.msgs
  {
    var msg := s.store.msgs[m];
    UpdateSticky(s.(handles := s.handles - multiset{m}), StripFlags(msg.topic), m, msg.sticky)
  }

  function PublishOutcomes(s: State, m: nat): seq<Outcome>
    requires m in s.store.msgs && InRange(MetBy(s, m), |s.sus|)
  {
    Outcomes(Started(s, m), m, MetBy(s, m))
  }

  /** What a publish of `m` attempts for subscriber `u`, from the state before the call. */
  function AttemptsFor(s: State, m: nat, u: nat): seq<Subscription>
    requires m in s.store.msgs && u < |s.sus|
  {
    Attempted(s.sus[u].q, s.sus[u].cap, Mine(MetBy(s, m), u))
  }

  /** The visible attempts for `u` that find a free cell. */
  function PlainStores(s: State, m: nat, u: nat): nat
    requires m in s.store.msgs && u < |s.sus|
  {
    Visible(AttemptsFor(s, m, u)[..Room(s.sus[u].q, s.sus[u].cap, AttemptsFor(s, m, u))])
  }

  /** Whether a visible attempt for `u` evicts. */
  predicate StoresLate(s: State, m: nat, u: nat)
    requires m in s.store.msgs && u < |s.sus|
  {
    LateStore(s.sus[u].q, s.sus[u].cap, AttemptsFor(s, m, u))
  }

  lemma StartedSame(s: State, m: nat)
    requires m in s.store.msgs
    ensures Started(s, m).sus == s.sus
    ensures Started(s, m).log == s.log + [Published(StripFlags(s.store.msgs[m].topic), m, s.store.msgs[m].sticky)]
  {
    hide StripFlags, Put, StickyAt;
  }

  /** The outcomes of a publish are its log entries, and the count is theirs, summed over the subscribers. */
  lemma PublishCountIsSum(s: State, m: nat)
    requires m in s.store.msgs && InRange(MetBy(s, m), |s.sus|)
    ensures var os, t := PublishOutcomes(s, m), StripFlags(s.store.msgs[m].topic);
      && Publish(s, m).1 == Shares(os, |s.sus|)
      && Publish(s, m).0.log == s.log + [Published(t, m, s.store.msgs[m].sticky)] + Logged(os, m)
  {
    hide MetBy, Deliver, Outcomes, Counted, Shares, Logged, StripFlags, UpdateSticky;
    StartedSame(s, m);
    OutcomesTell(Started(s, m), m, MetBy(s, m));
    OutcomesInRange(Started(s, m), m, MetBy(s, m));
    CountedIsSum(PublishOutcomes(s, m), |s.sus|);
  }

  /**
   * Each subscriber's share of the result of an undisturbed ps_publish, whether it was delivered to, and
   * exactly when the share is the documented one; all read off the state before the call.
   */
  lemma PublishSharePerSubscriber(s: State, m: nat, u: nat)
    requires m in s.store.msgs && InRange(MetBy(s, m), |s.sus|) && AllQueuesOk(s) && u < |s.sus|
    ensures var mine, plain, late := Of(PublishOutcomes(s, m), u), PlainStores(s, m, u), StoresLate(s, m, u);
      && Counted(mine) == plain
      && (Accepted(mine) <==> plain > 0 || late)
      && (Counted(mine) == (if Accepted(mine) then 1 else 0) <==> plain == 1 || (plain == 0 && !late))
  {
    hide MetBy, Outcomes, Counted, Accepted, Visible, LateStore, Attempted, Mine, Replay, Of, Started;
    StartedSame(s, m);
    OutcomesPerSubscriber(Started(s, m), m, MetBy(s, m), u);
    ShareExplicit(s.sus[u].q, s.sus[u].cap, m, AttemptsFor(s, m, u));
    AcceptedExplicit(s.sus[u].q, s.sus[u].cap, m, AttemptsFor(s, m, u));
  }

  /** By how much the first `n` subscribers make the count exceed the subscribers delivered to. */
  function Surplus(s: State, m: nat, n: nat): int
    requires m in s.store.msgs && n <= |s.sus|
  {
    if n == 0 then 0 else
      Surplus(s, m, n - 1) + PlainStores(s, m, n - 1) -
        if PlainStores(s, m, n - 1) > 0 || StoresLate(s, m, n - 1) then 1 else 0
  }

  lemma {:induction false} SharesExceed(s: State, m: nat, n: nat)
    requires m in s.store.msgs && InRange(MetBy(s, m), |s.sus|) && AllQueuesOk(s) && n <= |s.sus|
    ensures var os := PublishOutcomes(s, m); Shares(os, n) == DeliveredTo(os, n) + Surplus(s, m, n)
  {
    hide MetBy, PublishOutcomes, Counted, Accepted, PlainStores, StoresLate, Of, AllQueuesOk;
    if n > 0 {
      SharesExceed(s, m, n - 1);
      PublishSharePerSubscriber(s, m, n - 1);
    }
  }

  /**
   * The result of an undisturbed ps_publish is the documented number of subscribers delivered
   * to if and only if the extra copies counted balance the deliveries by eviction not counted;
   * in particular when every subscriber's own share is the documented one.
   */
  lemma PublishCountIsDocumentedIff(s: State, m: nat)
    requires m in s.store.msgs && InRange(MetBy(s, m), |s.sus|) && AllQueuesOk(s)
    ensures Publish(s, m).1 == DeliveredTo(PublishOutcomes(s, m), |s.sus|) + Surplus(s, m, |s.sus|)
    ensures Publish(s, m).1 == DeliveredTo(PublishOutcomes(s, m), |s.sus|) <==> Surplus(s, m, |s.sus|) == 0
    ensures (forall u :: 0 <= u < |s.sus| ==> DocumentedShare(s, m, u)) ==>
      Publish(s, m).1 == DeliveredTo(PublishOutcomes(s, m), |s.sus|)
  {
    hide Publish, MetBy, PublishOutcomes, Shares, DeliveredTo, Surplus, DocumentedShare, AllQueuesOk;
    PublishCountIsSum(s, m);
    SharesExceed(s, m, |s.sus|);
    if forall u :: 0 <= u < |s.sus| ==> DocumentedShare(s, m, u) {
      NoSurplus(s, m, |s.sus|);
    }
  }

  predicate DocumentedShare(s: State, m: nat, u: nat)
    requires m in s.store.msgs && u < |s.sus|
  {
    PlainStores(s, m, u) == 1 || (PlainStores(s, m, u) == 0 && !StoresLate(s, m, u))
  }

  lemma {:induction false} NoSurplus(s: State, m: nat, n: nat)
    requires m in s.store.msgs && n <= |s.sus| && forall u :: 0 <= u < n ==> DocumentedShare(s, m, u)
    ensures Surplus(s, m, n) == 0
  {
    hide PlainStores, StoresLate;
    if n > 0 {
      NoSurplus(s, m, n - 1);
      assert DocumentedShare(s, m, n - 1);
    }
  }

  lemma {:induction false} SharesZero(s: State, m: nat, n: nat)
    requires m in s.store.msgs && InRange(MetBy(s, m), |s.sus|) && AllQueuesOk(s) && n <= |s.sus|
    ensures Shares(PublishOutcomes(s, m), n) == 0 <==> forall u :: 0 <= u < n ==> PlainStores(s, m, u) == 0
  {
    hide MetBy, PublishOutcomes, Counted, Accepted, PlainStores, StoresLate, Of, AllQueuesOk;
    if n > 0 {
      SharesZero(s, m, n - 1);
      PublishSharePerSubscriber(s, m, n - 1);
    }
  }

  /**
   * ps_call gives up without waiting when ps_publish returns 0: undisturbed, exactly when no
   * visible attempt for anybody finds a free cell.  Then the request was delivered all the same
   * exactly to the subscribers for whom a visible attempt evicts.
   */
  lemma CallGivesUpIff(s: State, m: nat)
    requires m in s.store.msgs && InRange(MetBy(s, m), |s.sus|) && AllQueuesOk(s)
    ensures Publish(s, m).1 == 0 <==> forall u :: 0 <= u < |s.sus| ==> PlainStores(s, m, u) == 0
    ensures Publish(s, m).1 == 0 ==>
      forall u :: 0 <= u < |s.sus| ==> (Accepted(Of(PublishOutcomes(s, m), u)) <==> StoresLate(s, m, u))
  {
    hide Publish, MetBy, PublishOutcomes, Counted, Accepted, PlainStores, StoresLate, Of, Shares, AllQueuesOk;
    PublishCountIsSum(s, m);
    SharesZero(s, m, |s.sus|);
    if Publish(s, m).1 == 0 {
      forall u | 0 <= u < |s.sus| ensures Accepted(Of(PublishOutcomes(s, m), u)) <==> StoresLate(s, m, u) {
        PublishSharePerSubscriber(s, m, u);
      }
    }
  }

  // ----- copies gained -----

  /** The attempt puts one more copy of the message in the subscriber's queue. */
  predicate Gains(s: State, m: nat, x: Subscription)
    requires x.su < |s.sus|
  {
    var e := Entry(x.prio, m);
    multiset(PushTo(s, x.su, m, x.prio).sus[x.su].q)[e] > multiset(s.sus[x.su].q)[e]
  }

  /** How many visible subscriptions gain a copy during a delivery. */
  function VisibleGains(s: State, m: nat, l: seq<Subscription>): nat
    requires InRange(l, |s.sus|)
    decreases |l|
  {
    if l == [] then 0
    else if Skipped(s, l[0]) then VisibleGains(s, m, l[1..])
    else
      (if !l[0].hidden && Gains(s, m, l[0]) then 1 else 0) + VisibleGains(PushTo(s, l[0].su, m, l[0].prio), m, l[1..])
  }

  /** A push adds a copy unless it is refused, and evicts exactly when the queue is full and ends lower. */
  lemma GainsUnlessRefused(s: State, m: nat, x: Subscription)
    requires x.su < |s.sus| && QueueOk(s.sus[x.su].q, s.sus[x.su].cap)
    ensures Gains(s, m, x) <==> PushCode(s, x.su, m, x.prio) != Full
    ensures var q := s.sus[x.su].q;
      PushCode(s, x.su, m, x.prio) == Overflow <==> |q| >= s.sus[x.su].cap && q != [] && q[|q| - 1].prio < x.prio
  {
    hide Insert;
    var q, cap, e := s.sus[x.su].q, s.sus[x.su].cap, Entry(x.prio, m);
    PushLosesAtMostOne(q, cap, e);
    var p := Push(q, cap, e);
    assert (multiset(p.q) + multiset(p.lost))[e] == (multiset(q) + multiset{e})[e];
    if p.code == Overflow {
      assert p.lost == [p.lost[0]] && p.lost[0] != e;
    }
  }

  /** The visible copies gained are the visible outcomes that were not refused. */
  lemma {:induction false} GainsAreStores(s: State, m: nat, l: seq<Subscription>)
    requires InRange(l, |s.sus|) && AllQueuesOk(s)
    ensures VisibleGains(s, m, l) == Stored(Outcomes(s, m, l))
    decreases |l|
  {
    hide QueueOk, Push, Gains, Counted, Stored, Logged, Of;
    if l == [] {
      NoOutcomes(m);
    } else if Skipped(s, l[0]) {
      GainsAreStores(s, m, l[1..]);
    } else {
      var s' := PushTo(s, l[0].su, m, l[0].prio);
      GainsUnlessRefused(s, m, l[0]);
      PushToKeepsQueuesOk(s, l[0].su, m, l[0].prio);
      GainsAreStores(s', m, l[1..]);
      CountedCons(Outcome(l[0], PushCode(s, l[0].su, m, l[0].prio)), Outcomes(s', m, l[1..]));
    }
  }

  /** An outcome that was delivered by eviction, visibly. */
  predicate Missed(o: Outcome) {
    !o.x.hidden && o.code == Overflow
  }

  predicate NoneMissed(os: seq<Outcome>) {
    forall i :: 0 <= i < |os| ==> !Missed(os[i])
  }

  lemma {:induction false} CountedIsStoredIff(os: seq<Outcome>)
    ensures Counted(os) <= Stored(os)
    ensures Counted(os) == Stored(os) <==> NoneMissed(os)
  {
    if os != [] {
      CountedIsStoredIff(os[1..]);
      assert forall i :: 0 <= i < |os| ==> os[i] == if i == 0 then os[0] else os[1..][i - 1];
      assert forall i :: 0 <= i < |os[1..]| ==> os[1..][i] == os[i + 1];
    }
  }

  predicate NoneMissedBy(os: seq<Outcome>, u: nat) {
    NoneMissed(Of(os, u))
  }

  lemma MissedBySomeone(os: seq<Outcome>, n: nat)
    requires forall i :: 0 <= i < |os| ==> os[i].x.su < n
    ensures NoneMissed(os) <==> forall u :: 0 <= u < n ==> NoneMissedBy(os, u)
  {
    hide Missed, Of;
    if NoneMissed(os) {
      forall u | 0 <= u < n ensures NoneMissedBy(os, u) {
        OfIn(os, u);
        forall i | 0 <= i < |Of(os, u)| ensures !Missed(Of(os, u)[i]) {
          assert Of(os, u)[i] in os;
        }
      }
    }
    if forall u :: 0 <= u < n ==> NoneMissedBy(os, u) {
      forall i | 0 <= i < |os| ensures !Missed(os[i]) {
        var u := os[i].x.su;
        OfHas(os, i);
        var j :| 0 <= j < |Of(os, u)| && Of(os, u)[j] == os[i];
        assert NoneMissedBy(os, u);
      }
    }
  }

  lemma {:induction false} OfHas(os: seq<Outcome>, i: nat)
    requires i < |os|
    ensures os[i] in Of(os, os[i].x.su)
  {
    if i > 0 {
      OfHas(os[1..], i - 1);
    }
  }

  lemma {:induction false} OfIn(os: seq<Outcome>, u: nat)
    ensures forall o :: o in Of(os, u) ==> o in os
  {
    if os != [] {
      OfIn(os[1..], u);
    }
  }

  lemma LateIsMissed(q: seq<Entry>, cap: nat, m: nat, e: seq<Subscription>)
    requires QueueOk(q, cap)
    ensures LateStore(q, cap, e) <==> !NoneMissed(Replay(q, cap, m, e))
  {
    hide Replay, AtLeast, OffersAtLeast, QueueOk;
    var os, k := Replay(q, cap, m, e), Room(q, cap, e);
    ReplayExplicit(q, cap, m, e);
    if LateStore(q, cap, e) {
      var i :| k <= i < |e| && EvictsVisibly(q, cap, e, i);
      assert Missed(os[i]);
    }
    if !NoneMissed(os) {
      var i :| 0 <= i < |os| && Missed(os[i]);
      assert EvictsVisibly(q, cap, e, i) && k <= i;
    }
  }

  /**
   * Against copies instead of subscribers: the result of ps_publish is at most the number of
   * visible copies gained, and equals it if and only if no visible attempt for anybody evicts.
   */
  lemma PublishCountsStores(s: State, m: nat)
    requires m in s.store.msgs && InRange(MetBy(s, m), |s.sus|) && AllQueuesOk(s)
    ensures var gained := VisibleGains(Started(s, m), m, MetBy(s, m));
      && Publish(s, m).1 <= gained
      && (Publish(s, m).1 == gained <==> forall u :: 0 <= u < |s.sus| ==> !StoresLate(s, m, u))
  {
    hide MetBy, Outcomes, Counted, Stored, StoresLate, Of, Started, VisibleGains, NoneMissed, NoneMissedBy, Publish,
         Shares, Logged, QueueOk;
    var s1, l := Started(s, m), MetBy(s, m);
    var os := PublishOutcomes(s, m);
    StartedSame(s, m);
    PublishCountIsSum(s, m);
    OutcomesInRange(s1, m, l);
    CountedIsSum(os, |s.sus|);
    GainsAreStores(s1, m, l);
    CountedIsStoredIff(os);
    MissedBySomeone(os, |s.sus|);
    forall u | 0 <= u < |s.sus| ensures StoresLate(s, m, u) <==> !NoneMissedBy(os, u) {
      LateIsMissedBy(s, m, u);
    }
  }

  lemma LateIsMissedBy(s: State, m: nat, u: nat)
    requires m in s.store.msgs && InRange(MetBy(s, m), |s.sus|) && AllQueuesOk(s) && u < |s.sus|
    ensures StoresLate(s, m, u) <==> !NoneMissedBy(PublishOutcomes(s, m), u)
  {
    hide MetBy, Outcomes, LateStore, Attempted, Mine, Replay, Of, Started, NoneMissed, QueueOk;
    StartedSame(s, m);
    OutcomesPerSubscriber(Started(s, m), m, MetBy(s, m), u);
    LateIsMissed(s.sus[u].q, s.sus[u].cap, m, AttemptsFor(s, m, u));
  }
}
