/**
 * A publish among other threads: what its result counts, who is delivered to, and what
 * on_empty and replies come to, whatever gets happen between its steps.
 */
module BrokerProgress {
  import opened PriorityLists
  import opened Registry
  import opened Topics
  import opened BrokerModel
  import opened BrokerRefs
  import opened BrokerRegistry
  import opened BrokerSafety
  import opened BrokerDelivery
  import opened BrokerCounts
  import opened BrokerRuns
  import opened BrokerInterleavings

  // ----- what the history says since a publish began -----

  /** The push attempts logged from position `k` on. */
  function AttemptsFrom(log: seq<Event>, k: nat): seq<Event> {
    if |log| <= k then []
    else AttemptsFrom(log[..|log| - 1], k) + if log[|log| - 1].Attempt? then [log[|log| - 1]] else []
  }

  /** The messages `u` took from position `k` on. */
  function TakesFrom(log: seq<Event>, k: nat, u: nat): nat {
    if |log| <= k then 0
    else TakesFrom(log[..|log| - 1], k, u) + if log[|log| - 1].Taken? && log[|log| - 1].su == u then 1 else 0
  }

  /** Those of them that are message `m`. */
  function CopiesFrom(log: seq<Event>, k: nat, u: nat, m: nat): nat {
    if |log| <= k then 0
    else
      CopiesFrom(log[..|log| - 1], k, u, m) +
        if log[|log| - 1].Taken? && log[|log| - 1].su == u && log[|log| - 1].msg == m then 1 else 0
  }

  lemma FromSnoc(log: seq<Event>, e: Event, k: nat, u: nat)
    requires k <= |log|
    ensures AttemptsFrom(log + [e], k) == AttemptsFrom(log, k) + (if e.Attempt? then [e] else [])
    ensures TakesFrom(log + [e], k, u) == TakesFrom(log, k, u) + (if e.Taken? && e.su == u then 1 else 0)
  {
    assert (log + [e])[..|log|] == log;
  }

  lemma {:induction false} CopiesAreTakes(log: seq<Event>, k: nat, u: nat, m: nat)
    ensures CopiesFrom(log, k, u, m) <= TakesFrom(log, k, u)
  {
    if |log| > k {
      CopiesAreTakes(log[..|log| - 1], k, u, m);
    }
  }

  /** How many outcomes are plain stores, visible or not. */
  function Oks(os: seq<Outcome>): nat {
    if os == [] then 0 else (if os[0].code == Ok then 1 else 0) + Oks(os[1..])
  }

  /** How many of subscriber `u`. */
  function OksOf(os: seq<Outcome>, u: nat): nat {
    Oks(Of(os, u))
  }

  predicate Attempted(os: seq<Outcome>, u: nat) {
    Of(os, u) != []
  }

  lemma {:induction false} OutcomesSnoc(os: seq<Outcome>, o: Outcome, m: nat, u: nat)
    ensures Counted(os + [o]) == Counted(os) + (if !o.x.hidden && o.code == Ok then 1 else 0)
    ensures Logged(os + [o], m) == Logged(os, m) + [Attempt(o.x.su, m, o.x.prio, o.code)]
    ensures Of(os + [o], u) == Of(os, u) + (if o.x.su == u then [o] else [])
    ensures Oks(os + [o]) == Oks(os) + (if o.code == Ok then 1 else 0)
    decreases |os|
  {
    if os == [] {
      assert os + [o] == [o] && [o][1..] == [];
    } else {
      assert (os + [o])[1..] == os[1..] + [o];
      OutcomesSnoc(os[1..], o, m, u);
      OutcomesAssoc(os[0], os[1..], o, m, u);
    }
  }

  lemma OutcomesAssoc(h: Outcome, rest: seq<Outcome>, o: Outcome, m: nat, u: nat)
    ensures [Attempt(h.x.su, m, h.x.prio, h.code)] + (Logged(rest, m) + [Attempt(o.x.su, m, o.x.prio, o.code)]) ==
            ([Attempt(h.x.su, m, h.x.prio, h.code)] + Logged(rest, m)) + [Attempt(o.x.su, m, o.x.prio, o.code)]
    ensures var a, b := if h.x.su == u then [h] else [], if o.x.su == u then [o] else [];
      a + (Of(rest, u) + b) == (a + Of(rest, u)) + b
  {
  }

  lemma OksOfSnoc(os: seq<Outcome>, o: Outcome, u: nat)
    ensures OksOf(os + [o], u) == OksOf(os, u) + (if o.x.su == u && o.code == Ok then 1 else 0)
    ensures Attempted(os + [o], u) <==> Attempted(os, u) || o.x.su == u
  {
    hide Of, Oks, Counted, Logged;
    OutcomesSnoc(os, o, 0, u);
    OutcomesSnoc(Of(os, u), o, 0, u);
    assert Of(os, u) + [] == Of(os, u);
  }

  // ----- the invariant of a publish under way -----

  /** Semaphore of `u`: what its queue holds, less the getters past it. */
  function Sem(s: State, window: multiset<nat>, u: nat): int
    requires u < |s.sus|
  {
    |s.sus[u].q| - window[u]
  }

  /** What an attempt found decided its code; the semaphore was zero if it was an on_empty one. */
  ghost predicate SceneOk(s: State, m: nat, o: Outcome, c: Scene) {
    && o.x.su < |s.sus| && c.getters <= |c.q| && QueueOk(c.q, s.sus[o.x.su].cap)
    && o.code == Push(c.q, s.sus[o.x.su].cap, Entry(o.x.prio, m)).code
    && (o.x.onEmpty ==> c.getters == |c.q|)
  }

  /** The attempts so far, as counted, logged and found. */
  ghost predicate AttemptsOk(s: State, p: Progress) {
    && p.count == Counted(p.os)
    && |p.start.log| <= |s.log| && AttemptsFrom(s.log, |p.start.log|) == Logged(p.os, p.m)
    && |p.scenes| == |p.os|
    && (forall i :: 0 <= i < |p.os| ==> p.os[i].x in p.met && SceneOk(s, p.m, p.os[i], p.scenes[i]))
  }

  /** The subscriptions met are those of the walk, of which the last |l| are still to come. */
  ghost predicate WalkOk(s: State, p: Progress, l: seq<Subscription>) {
    && p.met == Targets(s.topics, p.t, p.recursive) && InRange(p.met, |p.start.sus|)
    && |l| <= |p.met| && l == p.met[|p.met| - |l|..]
    && p.count + Visible(l) <= Visible(p.met)
  }

  /** Plain stores fill a semaphore, gets begun empty it; gets begun and not finished are in the window. */
  ghost predicate SemaphoresOk(s: State, window: multiset<nat>, p: Progress) {
    && |p.start.sus| <= |s.sus|
    && (forall u :: 0 <= u < |p.start.sus| ==>
          Sem(p.start, p.w0, u) >= 0 && Sem(s, window, u) == Sem(p.start, p.w0, u) + OksOf(p.os, u) - p.waits[u])
    && (forall u: nat :: window[u] + TakesFrom(s.log, |p.start.log|, u) == p.w0[u] + p.waits[u])
  }

  predicate OnlyOnEmpty(met: seq<Subscription>, u: nat) {
    forall i :: 0 <= i < |met| && met[i].su == u ==> met[i].onEmpty
  }

  /** A passed on_empty test means a zero semaphore, and after it the semaphore is at most one. */
  ghost predicate TestsOk(s: State, window: multiset<nat>, p: Progress, l: seq<Subscription>, tested: bool) {
    && (tested && l != [] && l[0].su < |s.sus| && l[0].onEmpty ==> Sem(s, window, l[0].su) == 0)
    && (forall u :: 0 <= u < |s.sus| && OnlyOnEmpty(p.met, u) && Attempted(p.os, u) ==> Sem(s, window, u) <= 1)
  }

  ghost predicate ProgressOk(f: Fine) {
    f.work.Delivering? ==>
      var p := f.work.p;
      && AttemptsOk(f.s, p) && WalkOk(f.s, p, f.work.l) && SemaphoresOk(f.s, f.window, p)
      && TestsOk(f.s, f.window, p, f.work.l, f.work.tested)
      && p.start.topics == f.s.topics
  }

  // ----- steps of other threads -----

  lemma SceneKept(s: State, s': State, m: nat, o: Outcome, c: Scene)
    requires SceneOk(s, m, o, c) && Grows(s, s')
    ensures SceneOk(s', m, o, c)
  {
    hide Push;
  }

  lemma AttemptsKept(s: State, s': State, p: Progress)
    requires AttemptsOk(s, p) && Grows(s, s') && |s.log| <= |s'.log|
    requires AttemptsFrom(s'.log, |p.start.log|) == AttemptsFrom(s.log, |p.start.log|)
    ensures AttemptsOk(s', p)
  {
    hide Counted, Logged, SceneOk, AttemptsFrom, Grows;
    forall i | 0 <= i < |p.os| ensures SceneOk(s', p.m, p.os[i], p.scenes[i]) {
      SceneKept(s, s', p.m, p.os[i], p.scenes[i]);
    }
  }

  /** What another thread's step may change, seen from a publish: the log by one event that is no attempt. */
  lemma UnlockedProgress(f: Fine, c: Call)
    requires FineInv(f) && ProgressOk(f) && CanStep(f, Unlocked(c))
    ensures ProgressOk(Do(f, Unlocked(c)))
  {
    hide FineInv, Next, AttemptsOk, AttemptsFrom, TakesFrom, OksOf, Attempted, OnlyOnEmpty, Targets, Visible, Grows,
         Allowed;
    if f.work.Delivering? {
      var s, s', p, k := f.s, Next(f.s, c), f.work.p, |f.work.p.start.log|;
      UnlockedStep(f, c);
      UnlockedGrows(s, c);
      GrowsSays(s, s');
      LogStarts(f);
      UnlockedLog(s, c, k);
      AttemptsKept(s, s', p);
      assert forall u :: 0 <= u < |s.sus| ==> Sem(s', f.window, u) == Sem(s, f.window, u);
      NewAreStrangers(f, s');
    }
  }

  lemma GrowsSays(s: State, s': State)
    requires Grows(s, s')
    ensures s'.topics == s.topics && |s.sus| <= |s'.sus|
  {
  }

  lemma LogStarts(f: Fine)
    requires ProgressOk(f) && f.work.Delivering?
    ensures |f.work.p.start.log| <= |f.s.log|
  {
  }

  lemma UnlockedLog(s: State, c: Call, k: nat)
    requires IsUnlocked(c) && Allowed(s, c) && Defined(s, c) && k <= |s.log|
    ensures |s.log| <= |Next(s, c).log|
    ensures AttemptsFrom(Next(s, c).log, k) == AttemptsFrom(s.log, k)
    ensures forall u :: TakesFrom(Next(s, c).log, k, u) == TakesFrom(s.log, k, u)
  {
    hide AttemptsFrom, TakesFrom;
    if c.OverflowCall? {
      var e := Reported(c.su, s.sus[c.su].overflow);
      forall u ensures TakesFrom(Next(s, c).log, k, u) == TakesFrom(s.log, k, u) {
        FromSnoc(s.log, e, k, u);
      }
      FromSnoc(s.log, e, k, 0);
      assert AttemptsFrom(s.log, k) + [] == AttemptsFrom(s.log, k);
    }
  }

  lemma AttemptedInRange(f: Fine, u: nat)
    requires ProgressOk(f) && f.work.Delivering? && Attempted(f.work.p.os, u)
    ensures u < |f.s.sus|
  {
    hide Targets, Visible, Counted, Logged, AttemptsFrom, TakesFrom, OksOf, SemaphoresOk, WalkOk, TestsOk, Push, Of;
    var os := f.work.p.os;
    OfIn(os, u);
    OfOnly(os, u);
    var o := Of(os, u)[0];
    assert o in os;
    var i :| 0 <= i < |os| && os[i] == o;
    assert SceneOk(f.s, f.work.p.m, os[i], f.work.p.scenes[i]);
  }

  /** A subscriber created meanwhile has no attempts. */
  lemma NewAreStrangers(f: Fine, s': State)
    requires ProgressOk(f) && f.work.Delivering? && |f.s.sus| <= |s'.sus|
    ensures forall u :: |f.s.sus| <= u < |s'.sus| ==> !Attempted(f.work.p.os, u)
    ensures f.work.tested && f.work.l != [] && FineInv(f) ==> f.work.l[0].su < |f.s.sus|
  {
    hide ProgressOk, Base, WindowOk, Attempted;
    forall u: nat | Attempted(f.work.p.os, u) ensures u < |f.s.sus| {
      AttemptedInRange(f, u);
    }
  }

  lemma {:induction false} OfOnly(os: seq<Outcome>, u: nat)
    ensures forall i :: 0 <= i < |Of(os, u)| ==> Of(os, u)[i].x.su == u
  {
    if os != [] {
      OfOnly(os[1..], u);
    }
  }

  lemma WaitProgress(f: Fine, su: nat)
    requires FineInv(f) && ProgressOk(f) && CanStep(f, Wait(su))
    ensures ProgressOk(Do(f, Wait(su)))
  {
    hide FineInv, Counted, Logged, SceneOk, AttemptsFrom, TakesFrom, OksOf, Attempted, OnlyOnEmpty, Targets, Visible;
  }

  lemma DequeueProgress(f: Fine, su: nat)
    requires FineInv(f) && ProgressOk(f) && CanStep(f, Dequeue(su))
    ensures ProgressOk(Do(f, Dequeue(su)))
  {
    hide FineInv, Get, AttemptsOk, AttemptsFrom, TakesFrom, OksOf, Attempted, OnlyOnEmpty, Targets, Visible, Grows,
         WindowOk;
    if f.work.Delivering? {
      var s, p, k := f.s, f.work.p, |f.work.p.start.log|;
      WindowSays(f, su);
      var s' := Get(s, su).0;
      GetGrows(s, su);
      GrowsSays(s, s');
      LogStarts(f);
      GetLog(s, su, k);
      AttemptsKept(s, s', p);
      var w' := f.window - multiset{su};
      assert forall u :: 0 <= u < |s.sus| ==> Sem(s', w', u) == Sem(s, f.window, u);
    }
  }

  lemma WindowSays(f: Fine, su: nat)
    requires FineInv(f) && su in f.window
    ensures Live(f.s, su) && f.s.sus[su].q != []
  {
    hide Base, WorkOk;
    assert Live(f.s, su);
  }

  lemma GetLog(s: State, su: nat, k: nat)
    requires su < |s.sus| && s.sus[su].q != [] && k <= |s.log|
    ensures var s' := Get(s, su).0;
      && |s.log| <= |s'.log| && AttemptsFrom(s'.log, k) == AttemptsFrom(s.log, k)
      && forall u :: TakesFrom(s'.log, k, u) == TakesFrom(s.log, k, u) + (if u == su then 1 else 0)
  {
    hide AttemptsFrom, TakesFrom;
    var s' := Get(s, su).0;
    var e := Taken(su, s.sus[su].q[0].msg);
    forall u ensures TakesFrom(s'.log, k, u) == TakesFrom(s.log, k, u) + (if u == su then 1 else 0) {
      FromSnoc(s.log, e, k, u);
    }
    FromSnoc(s.log, e, k, 0);
    assert AttemptsFrom(s.log, k) + [] == AttemptsFrom(s.log, k);
  }

  lemma RetireProgress(f: Fine, su: nat)
    requires FineInv(f) && ProgressOk(f) && CanStep(f, Retire(su))
    ensures ProgressOk(Do(f, Retire(su)))
  {
    hide FineInv, Counted, Logged, AttemptsFrom, TakesFrom, OksOf, Attempted, OnlyOnEmpty, Targets, Visible, Push;
    var s, s' := f.s, Bury(f.s, su);
    if f.work.Delivering? {
      var p := f.work.p;
      forall i | 0 <= i < |p.os| ensures SceneOk(s', p.m, p.os[i], p.scenes[i]) {
        assert SceneOk(s, p.m, p.os[i], p.scenes[i]);
      }
      assert forall u :: 0 <= u < |s.sus| ==> Sem(s', f.window, u) == Sem(s, f.window, u);
    }
  }

  // ----- steps of the publish itself -----

  lemma TestProgress(f: Fine)
    requires FineInv(f) && ProgressOk(f) && CanStep(f, Test)
    ensures ProgressOk(Do(f, Test))
  {
    hide Base, AttemptsOk, SemaphoresOk, Attempted, OnlyOnEmpty, Targets, WindowOk;
  }

  lemma SceneMade(f: Fine, p: Progress, x: Subscription)
    requires FineInv(f) && Live(f.s, x.su) && (x.onEmpty ==> Sem(f.s, f.window, x.su) == 0)
    ensures var u, s' := x.su, PushTo(f.s, x.su, p.m, x.prio);
      SceneOk(s', p.m, Outcome(x, PushCode(f.s, u, p.m, x.prio)), Scene(f.s.sus[u].q, f.window[u]))
  {
    hide RefsOk, RegistryOk, LiveCount, Push, WorkOk;
    PushGrows(f.s, x.su, p.m, x.prio);
    assert QueueOk(f.s.sus[x.su].q, f.s.sus[x.su].cap);
    if x.su in f.window {
      assert f.window[x.su] <= |f.s.sus[x.su].q|;
    }
  }

  lemma PushAttempts(f: Fine)
    requires FineInv(f) && ProgressOk(f) && CanStep(f, PushNext) && f.work.Delivering?
    ensures var f' := Do(f, PushNext); f'.work.Delivering? && AttemptsOk(f'.s, f'.work.p)
  {
    hide Base, Counted, Logged, SceneOk, AttemptsFrom, TakesFrom, Targets, Visible, SemaphoresOk, Attempted,
         OnlyOnEmpty, PushCode, WindowOk, PushTo, Grows;
    var s, p, x := f.s, f.work.p, f.work.l[0];
    var s' := PushTo(s, x.su, p.m, x.prio);
    var code := PushCode(s, x.su, p.m, x.prio);
    var os' := p.os + [Outcome(x, code)];
    var scenes' := p.scenes + [Scene(s.sus[x.su].q, f.window[x.su])];
    assert Live(s, x.su);
    PushGrows(s, x.su, p.m, x.prio);
    PushLogs(s, x.su, p.m, x.prio);
    OutcomesSnoc(p.os, Outcome(x, code), p.m, 0);
    FromSnoc(s.log, Attempt(x.su, p.m, x.prio, code), |p.start.log|, 0);
    SceneMade(f, p, x);
    assert x in p.met;
    forall i | 0 <= i < |os'| ensures os'[i].x in p.met && SceneOk(s', p.m, os'[i], scenes'[i]) {
      if i < |p.os| {
        SceneKept(s, s', p.m, p.os[i], p.scenes[i]);
      }
    }
  }

  lemma PushLogs(s: State, su: nat, m: nat, prio: nat)
    requires su < |s.sus|
    ensures PushTo(s, su, m, prio).log == s.log + [Attempt(su, m, prio, PushCode(s, su, m, prio))]
  {
  }

  lemma PushWalk(f: Fine)
    requires FineInv(f) && ProgressOk(f) && CanStep(f, PushNext) && f.work.Delivering?
    ensures var f' := Do(f, PushNext); f'.work.Delivering? && WalkOk(f'.s, f'.work.p, f'.work.l)
  {
    hide Base, AttemptsOk, SemaphoresOk, TestsOk, Targets, PushCode, WindowOk;
    var p, l := f.work.p, f.work.l;
    assert Live(f.s, l[0].su);
    assert l[1..] == p.met[|p.met| - |l[1..]|..];
  }

  /** How a push of the publish changes what its semaphores and tests are counted by. */
  ghost predicate PushTally(f: Fine, p: Progress, x: Subscription, o: Outcome, s': State) {
    && x.su < |f.s.sus| && |f.s.sus| <= |s'.sus| && |p.start.log| <= |f.s.log|
    && (forall u: nat ::
          OksOf(p.os + [o], u) == OksOf(p.os, u) + (if x.su == u && o.code == Ok then 1 else 0))
    && (forall u: nat :: Attempted(p.os + [o], u) <==> Attempted(p.os, u) || x.su == u)
    && (forall u: nat :: TakesFrom(s'.log, |p.start.log|, u) == TakesFrom(f.s.log, |p.start.log|, u))
    && (forall u :: 0 <= u < |f.s.sus| ==>
          Sem(s', f.window, u) == Sem(f.s, f.window, u) + (if u == x.su && o.code == Ok then 1 else 0))
  }

  lemma PushTallies(f: Fine)
    requires FineInv(f) && ProgressOk(f) && CanStep(f, PushNext) && f.work.Delivering?
    ensures var p, x := f.work.p, f.work.l[0];
      && x.su < |f.s.sus|
      && PushTally(f, p, x, Outcome(x, PushCode(f.s, x.su, p.m, x.prio)), PushTo(f.s, x.su, p.m, x.prio))
  {
    hide FineInv, ProgressOk, TakesFrom, OksOf, Attempted, PushCode, PushTo, Sem;
    var s, p, x := f.s, f.work.p, f.work.l[0];
    NextIsLive(f);
    LogStarts(f);
    var o := Outcome(x, PushCode(s, x.su, p.m, x.prio));
    var s' := PushTo(s, x.su, p.m, x.prio);
    PushLogs(s, x.su, p.m, x.prio);
    PushFillsSem(s, f.window, x.su, p.m, x.prio);
    forall u: nat ensures OksOf(p.os + [o], u) == OksOf(p.os, u) + (if x.su == u && o.code == Ok then 1 else 0)
                  ensures Attempted(p.os + [o], u) <==> Attempted(p.os, u) || x.su == u
                  ensures TakesFrom(s'.log, |p.start.log|, u) == TakesFrom(s.log, |p.start.log|, u)
    {
      OksOfSnoc(p.os, o, u);
      FromSnoc(s.log, Attempt(x.su, p.m, x.prio, o.code), |p.start.log|, u);
    }
  }

  lemma NextIsLive(f: Fine)
    requires FineInv(f) && CanStep(f, PushNext) && f.work.Delivering?
    ensures f.work.l != [] && f.work.l[0].su < |f.s.sus| && Live(f.s, f.work.l[0].su)
  {
    hide Base, WindowOk;
  }

  lemma PushFillsSem(s: State, window: multiset<nat>, su: nat, m: nat, prio: nat)
    requires su < |s.sus|
    ensures forall u :: 0 <= u < |s.sus| ==>
      Sem(PushTo(s, su, m, prio), window, u) ==
      Sem(s, window, u) + (if u == su && PushCode(s, su, m, prio) == Ok then 1 else 0)
  {
    hide PushTo, PushCode;
    PushGrows(s, su, m, prio);
  }

  lemma PushSemaphores(f: Fine)
    requires FineInv(f) && ProgressOk(f) && CanStep(f, PushNext) && f.work.Delivering?
    ensures var f' := Do(f, PushNext);
      && f'.work.Delivering? && SemaphoresOk(f'.s, f'.window, f'.work.p)
      && TestsOk(f'.s, f'.window, f'.work.p, f'.work.l, f'.work.tested)
  {
    hide Base, AttemptsOk, WalkOk, TakesFrom, OksOf, Attempted, PushCode, WindowOk, PushTo, OnlyOnEmpty, Sem;
    PushTallies(f);
    NextOnEmpty(f);
  }

  /** The subscription about to be pushed to is one of those met. */
  lemma NextOnEmpty(f: Fine)
    requires ProgressOk(f) && f.work.Delivering? && f.work.l != []
    ensures OnlyOnEmpty(f.work.p.met, f.work.l[0].su) ==> f.work.l[0].onEmpty
  {
    hide AttemptsOk, SemaphoresOk, TestsOk, Targets, Visible;
    var p, l := f.work.p, f.work.l;
    assert p.met[|p.met| - |l|] == l[0];
  }

  lemma PushProgress(f: Fine)
    requires FineInv(f) && ProgressOk(f) && CanStep(f, PushNext)
    ensures ProgressOk(Do(f, PushNext))
  {
    hide FineInv, AttemptsOk, WalkOk, SemaphoresOk, TestsOk, PushCode;
    if f.work.Delivering? {
      PushAttempts(f);
      PushWalk(f);
      PushSemaphores(f);
    }
  }

  lemma BeginProgress(f: Fine, m: nat)
    requires FineInv(f) && CanStep(f, BeginPublish(m))
    ensures ProgressOk(Do(f, BeginPublish(m)))
  {
    hide Base, Targets, Started, StripFlags, MetBy;
    var f' := Do(f, BeginPublish(m));
    if f'.work.Delivering? {
      BeganWalk(f.s, m);
      StartedSame(f.s, m);
      BeganSemaphores(f);
      var p := f'.work.p;
      assert p.met[0..] == p.met;
      assert forall u: nat :: !Attempted(p.os, u) && OksOf(p.os, u) == 0;
    }
  }

  lemma BeganSemaphores(f: Fine)
    requires FineInv(f)
    ensures forall u :: 0 <= u < |f.s.sus| ==> f.window[u] <= |f.s.sus[u].q|
  {
    hide Base, WorkOk;
    forall u | 0 <= u < |f.s.sus| ensures f.window[u] <= |f.s.sus[u].q| {
      if u in f.window {
        assert Live(f.s, u);
      }
    }
  }

  lemma BeganWalk(s: State, m: nat)
    requires m in s.store.msgs
    ensures var msg := s.store.msgs[m];
      MetBy(s, m) == Targets(Started(s, m).topics, StripFlags(msg.topic), !msg.nonRecursive)
  {
    hide StripFlags, Targets, Put;
  }

  lemma DoProgress(f: Fine, e: Step)
    requires FineInv(f) && ProgressOk(f) && CanStep(f, e)
    ensures ProgressOk(Do(f, e))
  {
    hide FineInv, AttemptsOk, WalkOk, SemaphoresOk, TestsOk, StepDefined;
    match e {
      case BeginPublish(m) => BeginProgress(f, m);
      case Test => TestProgress(f);
      case PushNext => PushProgress(f);
      case Unlocked(c) => UnlockedProgress(f, c);
      case Wait(su) => WaitProgress(f, su);
      case Dequeue(su) => DequeueProgress(f, su);
      case Retire(su) => RetireProgress(f, su);
      case _ =>
    }
  }

  lemma {:induction false} FineRunProgress(es: seq<Step>)
    requires IsFineRun(es)
    ensures FineInv(FineAfter(es)) && ProgressOk(FineAfter(es))
    decreases |es|
  {
    hide FineInv, ProgressOk, Do;
    FineRunInv(es);
    if es == [] {
      NothingBegun();
    } else {
      FineRunProgress(es[..|es| - 1]);
      DoProgress(FineAfter(es[..|es| - 1]), es[|es| - 1]);
    }
  }

  lemma NothingBegun()
    ensures ProgressOk(FINE_INIT)
  {
  }

  // ----- the result, whatever happens in between -----

  /**
   * At every moment of every publish the result so far is the visible plain stores logged
   * since it began; it is what the call returns.
   */
  lemma CountIsLogged(es: seq<Step>)
    requires IsFineRun(es) && FineAfter(es).work.Delivering?
    ensures var f := FineAfter(es); var p := f.work.p;
      && p.count == Counted(p.os)
      && |p.start.log| <= |f.s.log| && AttemptsFrom(f.s.log, |p.start.log|) == Logged(p.os, p.m)
      && (CanStep(f, Finish) ==> Do(f, Finish).ret == p.count)
  {
    hide FineInv, WalkOk, SemaphoresOk, TestsOk, Counted, Logged, AttemptsFrom;
    FineRunProgress(es);
  }

  /** Attempt number `i` of a publish, what it found, and the capacity of its queue. */
  predicate FoundCell(s: State, p: Progress, i: nat)
    requires i < |p.os| == |p.scenes| && p.os[i].x.su < |s.sus|
  {
    |p.scenes[i].q| < s.sus[p.os[i].x.su].cap
  }

  predicate FoundLower(s: State, p: Progress, i: nat)
    requires i < |p.os| == |p.scenes| && p.os[i].x.su < |s.sus|
  {
    !FoundCell(s, p, i) && AtLeast(p.scenes[i].q, p.os[i].x.prio) < s.sus[p.os[i].x.su].cap
  }

  ghost predicate ScenesOk(s: State, p: Progress) {
    |p.scenes| == |p.os| && forall i :: 0 <= i < |p.os| ==> SceneOk(s, p.m, p.os[i], p.scenes[i])
  }

  lemma RunScenes(es: seq<Step>)
    requires IsFineRun(es) && FineAfter(es).work.Delivering?
    ensures var f := FineAfter(es); ScenesOk(f.s, f.work.p) && f.work.p.count == Counted(f.work.p.os)
    ensures var f := FineAfter(es); WalkOk(f.s, f.work.p, f.work.l) && RegistryOk(f.s)
  {
    hide RefsOk, QueuesOk, RegistryOk, WorkOk, WindowOk, SemaphoresOk, TestsOk, Counted, Logged, AttemptsFrom,
         SceneOk, WalkOk;
    FineRunProgress(es);
  }

  /**
   * Each attempt's code is what its queue was at that push: a plain store if a cell was
   * free, else an eviction if fewer than `cap` entries had its priority or more, else a
   * refusal.  An on_empty attempt finds all entries claimed by getters, so it is a plain
   * store exactly when these do not fill the queue.
   */
  lemma CodesAmongThreads(es: seq<Step>, i: nat)
    requires IsFineRun(es) && FineAfter(es).work.Delivering? && i < |FineAfter(es).work.p.os|
    ensures var f := FineAfter(es); var p := f.work.p;
      && |p.scenes| == |p.os| && p.os[i].x.su < |f.s.sus|
      && p.os[i].code == (if FoundCell(f.s, p, i) then Ok else if FoundLower(f.s, p, i) then Overflow else Full)
      && (p.os[i].x.onEmpty ==>
            |p.scenes[i].q| == p.scenes[i].getters
            && (p.os[i].code == Ok <==> p.scenes[i].getters < f.s.sus[p.os[i].x.su].cap))
  {
    hide WalkOk, AtLeast, Push, Counted;
    RunScenes(es);
    SceneCode(FineAfter(es).s, FineAfter(es).work.p, i);
  }

  lemma SceneCode(s: State, p: Progress, i: nat)
    requires ScenesOk(s, p) && i < |p.os|
    ensures p.os[i].x.su < |s.sus|
    ensures p.os[i].code == if FoundCell(s, p, i) then Ok else if FoundLower(s, p, i) then Overflow else Full
    ensures p.os[i].x.onEmpty ==> |p.scenes[i].q| == p.scenes[i].getters
  {
    hide AtLeast, Push, QueueOk;
    assert SceneOk(s, p.m, p.os[i], p.scenes[i]);
    CodeOfPush(p.scenes[i].q, s.sus[p.os[i].x.su].cap, Entry(p.os[i].x.prio, p.m));
  }

  /** The visible attempts for `u` among the first `n` that found a free cell. */
  ghost function CellsFound(s: State, p: Progress, u: nat, n: nat): nat
    requires ScenesOk(s, p) && n <= |p.os|
  {
    if n == 0 then 0 else
      CellsFound(s, p, u, n - 1) +
        if p.os[n - 1].x.su == u && !p.os[n - 1].x.hidden && CellAt(s, p, n - 1) then 1 else 0
  }

  predicate CellAt(s: State, p: Progress, i: nat) {
    i < |p.os| == |p.scenes| && p.os[i].x.su < |s.sus| && FoundCell(s, p, i)
  }

  /** A visible attempt for `u` evicted. */
  ghost predicate EvictedFor(s: State, p: Progress, u: nat)
    requires ScenesOk(s, p)
  {
    exists i :: 0 <= i < |p.os| && EvictsFor(s, p, u, i)
  }

  predicate EvictsFor(s: State, p: Progress, u: nat, i: nat) {
    && i < |p.os| == |p.scenes| && p.os[i].x.su < |s.sus| && p.os[i].x.su == u
    && !p.os[i].x.hidden && FoundLower(s, p, i)
  }

  lemma {:induction false} SharesAreCells(s: State, p: Progress, u: nat, n: nat)
    requires ScenesOk(s, p) && n <= |p.os|
    ensures Counted(Of(p.os[..n], u)) == CellsFound(s, p, u, n)
  {
    hide Counted, Of, Oks, Logged, FoundCell, FoundLower, ScenesOk;
    if n == 0 {
      NothingOf(u);
      assert p.os[..0] == [];
    } else {
      SharesAreCells(s, p, u, n - 1);
      SceneCode(s, p, n - 1);
      SceneLengths(s, p);
      assert p.os[..n] == p.os[..n - 1] + [p.os[n - 1]];
      OutcomesSnoc(p.os[..n - 1], p.os[n - 1], 0, u);
      OutcomesSnoc(Of(p.os[..n - 1], u), p.os[n - 1], 0, u);
      assert Of(p.os[..n - 1], u) + [] == Of(p.os[..n - 1], u);
    }
  }

  lemma SceneLengths(s: State, p: Progress)
    requires ScenesOk(s, p)
    ensures |p.scenes| == |p.os|
  {
  }

  lemma NothingOf(u: nat)
    ensures Of([], u) == [] && Counted([]) == 0
  {
  }

  lemma AcceptedIs(s: State, p: Progress, u: nat)
    requires ScenesOk(s, p)
    ensures Accepted(Of(p.os, u)) <==> Counted(Of(p.os, u)) > 0 || EvictedFor(s, p, u)
  {
    hide Counted, Of, FoundCell, FoundLower, ScenesOk;
    var mine := Of(p.os, u);
    OfIn(p.os, u);
    OfOnly(p.os, u);
    CountedSome(mine);
    if Accepted(mine) {
      var j :| 0 <= j < |mine| && !mine[j].x.hidden && mine[j].code != Full;
      if mine[j].code != Ok {
        assert mine[j] in p.os;
        var i :| 0 <= i < |p.os| && p.os[i] == mine[j];
        SceneCode(s, p, i);
        SceneLengths(s, p);
        assert EvictsFor(s, p, u, i);
      }
    }
    if EvictedFor(s, p, u) {
      var i :| 0 <= i < |p.os| && EvictsFor(s, p, u, i);
      SceneCode(s, p, i);
      NoCellThere(s, p, i);
      OfHas(p.os, i);
      var j :| 0 <= j < |mine| && mine[j] == p.os[i];
    }
  }

  lemma NoCellThere(s: State, p: Progress, i: nat)
    requires i < |p.os| == |p.scenes| && p.os[i].x.su < |s.sus| && FoundLower(s, p, i)
    ensures !FoundCell(s, p, i)
  {
  }

  lemma {:induction false} CountedSome(os: seq<Outcome>)
    ensures Counted(os) > 0 <==> exists j :: 0 <= j < |os| && !os[j].x.hidden && os[j].code == Ok
  {
    if os != [] {
      CountedSome(os[1..]);
      if exists j :: 0 <= j < |os| && !os[j].x.hidden && os[j].code == Ok {
        var j :| 0 <= j < |os| && !os[j].x.hidden && os[j].code == Ok;
        assert j > 0 ==> os[1..][j - 1] == os[j];
      }
    }
  }

  /**
   * In every interleaving, at every moment of a publish: a subscriber's share of the result
   * is the number of its visible attempts that found a free cell; it is delivered to when
   * there is one or a visible attempt evicted; and the share is 1 when delivered to and 0
   * otherwise if and only if one found a free cell, or none did and none evicted.
   */
  lemma ShareAmongThreads(es: seq<Step>, u: nat)
    requires IsFineRun(es) && FineAfter(es).work.Delivering?
    ensures var f := FineAfter(es); var p, mine := f.work.p, Of(f.work.p.os, u);
      && ScenesOk(f.s, p)
      && (var cells, evicted := CellsFound(f.s, p, u, |p.os|), EvictedFor(f.s, p, u);
          && Counted(mine) == cells
          && (Accepted(mine) <==> cells > 0 || evicted)
          && (Counted(mine) == (if Accepted(mine) then 1 else 0) <==> cells == 1 || (cells == 0 && !evicted)))
  {
    hide ScenesOk, WalkOk, Counted, Of, Accepted, EvictedFor;
    RunScenes(es);
    var f := FineAfter(es);
    SharesAreCells(f.s, f.work.p, u, |f.work.p.os|);
    assert f.work.p.os[..|f.work.p.os|] == f.work.p.os;
    AcceptedIs(f.s, f.work.p, u);
  }

  /** By how much the first `n` subscribers make a count exceed those delivered to. */
  function SurplusOf(os: seq<Outcome>, n: nat): int {
    if n == 0 then 0 else SurplusOf(os, n - 1) + Counted(Of(os, n - 1)) - if Accepted(Of(os, n - 1)) then 1 else 0
  }

  lemma {:induction false} SharesSurplus(os: seq<Outcome>, n: nat)
    ensures Shares(os, n) == DeliveredTo(os, n) + SurplusOf(os, n)
  {
    hide Counted, Accepted, Of;
    if n > 0 {
      SharesSurplus(os, n - 1);
    }
  }

  /**
   * In every interleaving the result so far is the sum of the shares, and it is the number of
   * subscribers delivered to if and only if the surpluses add up to 0.
   */
  lemma CountAmongThreads(es: seq<Step>)
    requires IsFineRun(es) && FineAfter(es).work.Delivering?
    ensures var f := FineAfter(es); var os, n := f.work.p.os, |f.s.sus|;
      && f.work.p.count == Shares(os, n)
      && (f.work.p.count == DeliveredTo(os, n) <==> SurplusOf(os, n) == 0)
  {
    hide WalkOk, Counted, Push, Shares, DeliveredTo, SurplusOf;
    RunScenes(es);
    var f := FineAfter(es);
    forall i | 0 <= i < |f.work.p.os| ensures f.work.p.os[i].x.su < |f.s.sus| {
      assert SceneOk(f.s, f.work.p.m, f.work.p.os[i], f.work.p.scenes[i]);
    }
    CountedIsSum(f.work.p.os, |f.s.sus|);
    SharesSurplus(f.work.p.os, |f.s.sus|);
  }

  /**
   * In every interleaving ps_publish returns 0, and ps_call gives up, exactly when no
   * visible attempt found a free cell.
   */
  lemma GivesUpAmongThreads(es: seq<Step>)
    requires IsFineRun(es) && FineAfter(es).work.Delivering? && CanStep(FineAfter(es), Finish)
    ensures var f := FineAfter(es);
      Do(f, Finish).ret == 0 <==>
        forall i :: 0 <= i < |f.work.p.os| ==> f.work.p.os[i].x.hidden || !CellAt(f.s, f.work.p, i)
  {
    hide WalkOk, Counted, FoundCell, FoundLower, ScenesOk;
    RunScenes(es);
    var f := FineAfter(es);
    var os := f.work.p.os;
    CountIsLogged(es);
    CountedSome(os);
    SceneLengths(f.s, f.work.p);
    forall i | 0 <= i < |os| ensures os[i].code == Ok <==> CellAt(f.s, f.work.p, i) {
      SceneCode(f.s, f.work.p, i);
    }
  }

  /**
   * In every interleaving the result so far, with every visible subscription still to come,
   * is at most ps_subs_count plus the visible subscriptions at the root.
   */
  lemma CountBoundAmongThreads(es: seq<Step>)
    requires IsFineRun(es) && FineAfter(es).work.Delivering?
    ensures var f := FineAfter(es);
      f.work.p.count + Visible(f.work.l) <= SubsCount(f.s.topics, f.work.p.t) + Visible(At(f.s, ""))
  {
    hide ScenesOk, Counted, Visible, SubsCount, Targets, RegistryOk;
    RunScenes(es);
    var f := FineAfter(es);
    VisibleTargets(f.s.topics, f.work.p.t, f.work.p.recursive);
  }

  // ----- on_empty among gets -----

  lemma RunSemaphores(es: seq<Step>)
    requires IsFineRun(es) && FineAfter(es).work.Delivering?
    ensures var f := FineAfter(es);
      && SemaphoresOk(f.s, f.window, f.work.p)
      && TestsOk(f.s, f.window, f.work.p, f.work.l, f.work.tested)
      && InRange(f.work.p.met, |f.work.p.start.sus|)
      && (forall u: nat :: Attempted(f.work.p.os, u) ==> u < |f.work.p.start.sus|)
  {
    hide FineInv, AttemptsOk, SemaphoresOk, TestsOk, Attempted, Targets, Visible;
    FineRunProgress(es);
    var f := FineAfter(es);
    forall u: nat | Attempted(f.work.p.os, u) ensures u < |f.work.p.start.sus| {
      AttemptedIsMet(f, u);
    }
  }

  lemma AttemptedIsMet(f: Fine, u: nat)
    requires ProgressOk(f) && f.work.Delivering? && Attempted(f.work.p.os, u)
    ensures exists i :: 0 <= i < |f.work.p.met| && f.work.p.met[i].su == u
    ensures u < |f.work.p.start.sus|
  {
    hide Targets, Visible, Counted, Logged, AttemptsFrom, TakesFrom, OksOf, SemaphoresOk, TestsOk, SceneOk, Of;
    var os := f.work.p.os;
    OfIn(os, u);
    OfOnly(os, u);
    var o := Of(os, u)[0];
    assert o in os;
    var i :| 0 <= i < |os| && os[i] == o;
    assert os[i].x in f.work.p.met;
  }

  lemma NotAttempted(os: seq<Outcome>, u: nat)
    requires !Attempted(os, u)
    ensures OksOf(os, u) == 0
  {
  }

  /**
   * A subscriber whose subscriptions met are all on_empty gets at most one plain store, and
   * one more for every get it begins during the publish.
   */
  lemma OnEmptyStoresAmongThreads(es: seq<Step>, u: nat)
    requires IsFineRun(es) && FineAfter(es).work.Delivering? && OnlyOnEmpty(FineAfter(es).work.p.met, u)
    ensures var p := FineAfter(es).work.p; OksOf(p.os, u) <= 1 + p.waits[u]
  {
    hide OksOf, Attempted, TakesFrom, OnlyOnEmpty;
    RunSemaphores(es);
    var p := FineAfter(es).work.p;
    if !Attempted(p.os, u) {
      NotAttempted(p.os, u);
    }
  }

  /** Copies of a message in a queue. */
  function CopiesIn(q: seq<Entry>, m: nat): (n: nat)
    ensures n <= |q|
  {
    if q == [] then 0 else (if q[0].msg == m then 1 else 0) + CopiesIn(q[1..], m)
  }

  /**
   * Evictions can give it further copies without a get, but never more than the getters there
   * are: the copies it holds and those it took since the publish began are at most one, and
   * one more for every get that was under way then or began since.
   */
  lemma OnEmptyCopiesAmongThreads(es: seq<Step>, u: nat)
    requires IsFineRun(es) && FineAfter(es).work.Delivering? && OnlyOnEmpty(FineAfter(es).work.p.met, u)
    requires Attempted(FineAfter(es).work.p.os, u)
    ensures var f := FineAfter(es); var p := f.work.p;
      && u < |f.s.sus|
      && CopiesIn(f.s.sus[u].q, p.m) + CopiesFrom(f.s.log, |p.start.log|, u, p.m) <= 1 + p.w0[u] + p.waits[u]
  {
    hide OksOf, Attempted, TakesFrom, CopiesFrom, OnlyOnEmpty;
    RunSemaphores(es);
    var f := FineAfter(es);
    var p := f.work.p;
    CopiesAreTakes(f.s.log, |p.start.log|, u, p.m);
    assert f.window[u] + TakesFrom(f.s.log, |p.start.log|, u) == p.w0[u] + p.waits[u];
    assert Sem(f.s, f.window, u) <= 1;
  }

  // ----- replies among gets -----

  lemma {:induction false} NotAnAncestor(c: seq<string>, a: string)
    requires a !in c
    ensures ListedAmong(c, [a]) == 0
  {
    if c != [] {
      NotAnAncestor(c[1..], a);
    }
  }

  lemma {:induction false} MineEmpty(l: seq<Subscription>, u: nat)
    requires Mine(l, u) == []
    ensures forall i :: 0 <= i < |l| ==> l[i].su != u
  {
    if l != [] {
      MineEmpty(l[1..], u);
    }
  }

  /** In every interleaving a reply to one call is never even attempted for another call's subscriber. */
  lemma ReplyNeverAttempted(es: seq<Step>, u: nat, mine: nat, other: nat)
    requires IsFineRun(es) && FineAfter(es).work.Delivering?
    requires u < |FineAfter(es).s.sus| && FineAfter(es).s.sus[u].subs == [ReplyTopic(mine)]
    requires FineAfter(es).work.p.t == ReplyTopic(other) && mine != other
    ensures !Attempted(FineAfter(es).work.p.os, u)
    ensures forall i :: 0 <= i < |FineAfter(es).work.l| ==> FineAfter(es).work.l[i].su != u
  {
    hide FineInv, AttemptsOk, SemaphoresOk, TestsOk, Attempted, Targets, Visible, Mine, ReplyTopic, Chain, ListedAmong,
         RegistryOk, ScenesOk;
    FineRunProgress(es);
    RunScenes(es);
    var f := FineAfter(es);
    var p := f.work.p;
    ReplyTopicsIsolated(mine, other);
    NotAnAncestor(Chain(p.t), ReplyTopic(mine));
    if p.recursive {
      CopiesOffered(f.s, p.t, u);
    } else {
      TargetsOfOne(f.s.topics, p.t);
      MineAt(f.s, p.t, u);
      OwnTopicFirst(p.t);
    }
    MineEmpty(p.met, u);
    if Attempted(p.os, u) {
      AttemptedIsMet(f, u);
    }
  }

  lemma OwnTopicFirst(t: string)
    ensures t in Chain(t)
  {
  }
}
