/**
 * When non_empty_cb runs, over all interleavings: exactly after a push that stored plainly,
 * met an installed callback and left a semaphore of one, or after installing it while
 * messages wait.
 */
module QueueCallbacks {
  import opened Options
  import opened PriorityLists
  import opened QueueProtocol

  /** The return code of the last of the pushes among the operations of a queue. */
  function LastCode(cap: nat, ops: seq<Op>): Option<Code> {
    if ops == [] then None
    else
      var before, op := ops[..|ops| - 1], ops[|ops| - 1];
      if op.PushOp? then Some(Push(Run(cap, before).q, cap, op.e).code) else LastCode(cap, before)
  }

  /** How many of the pushes stored their message and lost none. */
  function PlainPushes(cap: nat, ops: seq<Op>): nat {
    if ops == [] then 0
    else
      var before, op := ops[..|ops| - 1], ops[|ops| - 1];
      PlainPushes(cap, before) + B2N(op.PushOp? && Push(Run(cap, before).q, cap, op.e).code == Ok)
  }

  /** Whether the last ps_set_non_empty_cb of a run installed a callback. */
  function Installed(run: seq<(Tid, Action)>): bool {
    if run == [] then false
    else
      var a := run[|run| - 1].1;
      if a.SetCallback? then a.on else Installed(run[..|run| - 1])
  }

  /** How often a callback ran, and how often one was installed. */
  function Fires(run: seq<(Tid, Action)>): nat {
    if run == [] then 0 else Fires(run[..|run| - 1]) + B2N(run[|run| - 1].1 == Fire)
  }

  function Installs(run: seq<(Tid, Action)>): nat {
    if run == [] then 0 else Installs(run[..|run| - 1]) + B2N(run[|run| - 1].1 == SetCallback(true))
  }

  lemma OpsSnoc(cap: nat, ops: seq<Op>, op: Op)
    ensures LastCode(cap, ops + [op]) ==
      if op.PushOp? then Some(Push(Run(cap, ops).q, cap, op.e).code) else LastCode(cap, ops)
    ensures PlainPushes(cap, ops + [op]) ==
      PlainPushes(cap, ops) + B2N(op.PushOp? && Push(Run(cap, ops).q, cap, op.e).code == Ok)
  {
    assert (ops + [op])[..|ops|] == ops;
  }

  // ----- the code a push returns -----

  /** A push whose critical section has decided what becomes of its message. */
  predicate Decided(c: Pc) {
    c.PushStored? || c.PushPosted? || c.PushReturned?
  }

  ghost predicate CodesOk(s: State) {
    var c := Holder(s, s.global);
    Decided(c) ==> LastCode(s.cap, s.ops) == Some(c.code)
  }

  lemma DecidedMoves(s: State, t: Tid, a: Action)
    requires Enabled(s, t, a) && !TouchesNodes(a)
    ensures var c, c' := PcOf(s, t), PcOf(Do(s, t, a), t);
      Decided(c') ==> Decided(c) && c'.code == c.code
  {
    hide Effect, NextMux, NextGlobal, NodeFor;
  }

  /** What the node found decides the return code of the replayed push. */
  lemma NodeDecides(s: State, t: Tid, a: Action) returns (e: Entry)
    requires Locks(s) && Nodes(s) && Enabled(s, t, a) && (a == TakeNode || a == InsertNode)
    ensures HoldsGlobal(PcOf(s, t)) && InFlight(PcOf(s, t)) == [e]
    ensures var s' := Do(s, t, a); var c' := PcOf(s', t);
      if Decided(c') then
        && s'.ops == s.ops + [PushOp(e)] && c'.code == Push(Run(s.cap, s.ops).q, s.cap, e).code
        && (a == TakeNode ==> c'.code == Full)
      else a == TakeNode && s'.ops == s.ops
  {
    e := PcOf(s, t).e;
    hide Run, Insert, NextMux, NextGlobal;
    assert s.mux == Some(t);
  }

  lemma DequeueOps(s: State, t: Tid)
    requires Enabled(s, t, Dequeue)
    ensures var s' := Do(s, t, Dequeue); s'.ops == s.ops || s'.ops == s.ops + [PullOp]
    ensures !HoldsGlobal(PcOf(s, t)) && !Decided(PcOf(Do(s, t, Dequeue), t))
  {
    hide Insert, NextMux, NextGlobal;
  }

  lemma CodesStep(s: State, t: Tid, a: Action)
    requires Locks(s) && Nodes(s) && CodesOk(s) && Enabled(s, t, a)
    ensures CodesOk(Do(s, t, a))
  {
    hide Do, Enabled, Run, Push, LastCode, PlainPushes, Nodes;
    LocksStep(s, t, a);
    StepMoves(s, t, a);
    match a {
      case TakeNode =>
        var e := NodeDecides(s, t, a);
        OpsSnoc(s.cap, s.ops, PushOp(e));
      case InsertNode =>
        var e := NodeDecides(s, t, a);
        OpsSnoc(s.cap, s.ops, PushOp(e));
      case Dequeue =>
        DequeueOps(s, t);
        OpsSnoc(s.cap, s.ops, PullOp);
      case _ =>
        QuietStep(s, t, a);
        DecidedMoves(s, t, a);
    }
  }

  // ----- each callback is due, and each due callback runs -----

  /** The last step of a run makes its thread run the callback. */
  ghost predicate Alarms(cap: nat, run: seq<(Tid, Action)>)
    requires IsRun(cap, run) && run != []
  {
    var init, a := run[..|run| - 1], run[|run| - 1].1;
    var s := After(cap, init);
    && Installed(init)
    && ((a == AfterPush && LastCode(cap, s.ops) == Some(Ok) && s.sem == 1) || (a == CheckCallback && s.sem > 0))
  }

  ghost predicate AlarmsAt(cap: nat, run: seq<(Tid, Action)>, k: nat) {
    k < |run| && IsRun(cap, run[..k + 1]) && Alarms(cap, run[..k + 1])
  }

  /** Step `k` is the last one of thread `t`. */
  predicate LastOf(run: seq<(Tid, Action)>, t: Tid, k: nat) {
    k < |run| && run[k].0 == t && forall j :: k < j < |run| ==> run[j].0 != t
  }

  lemma FireMoves(s: State, t: Tid, a: Action)
    requires Enabled(s, t, a)
    ensures PcOf(Do(s, t, a), t) == FirePending <==>
      && s.callback
      && ((a == AfterPush && PcOf(s, t) == PushReturned(Ok) && s.sem == 1) || (a == CheckCallback && s.sem > 0))
    ensures a == AfterPush ==> PcOf(s, t).PushReturned? && HoldsGlobal(PcOf(s, t))
    ensures PcOf(s, t) == FirePending ==> a == Fire
  {
    hide Effect, NextMux, NextGlobal, NodeFor;
  }

  /** What a run has done so far to the callback and the codes. */
  ghost predicate CallbacksOk(cap: nat, run: seq<(Tid, Action)>)
    requires IsRun(cap, run)
  {
    var s := After(cap, run);
    Inv(s) && s.cap == cap && CodesOk(s) && s.callback == Installed(run)
  }

  lemma {:induction false} RunCallbacks(cap: nat, run: seq<(Tid, Action)>)
    requires IsRun(cap, run)
    ensures CallbacksOk(cap, run)
  {
    hide Do, Enabled, CodesOk, Inv;
    RunInv(cap, run);
    if run == [] {
      NothingDecided(cap);
    } else {
      var init, last := run[..|run| - 1], run[|run| - 1];
      RunCallbacks(cap, init);
      InvParts(After(cap, init));
      CodesStep(After(cap, init), last.0, last.1);
      CallbackMoves(After(cap, init), last.0, last.1);
    }
  }

  lemma NothingDecided(cap: nat)
    ensures CodesOk(Init(cap)) && !Init(cap).callback
  {
  }

  lemma InvParts(s: State)
    requires Inv(s)
    ensures Locks(s) && Nodes(s)
  {
  }

  /** One step: its thread is about to run the callback exactly when the step alarms. */
  lemma AlarmsIff(cap: nat, run: seq<(Tid, Action)>)
    requires IsRun(cap, run) && run != []
    ensures PcOf(After(cap, run), run[|run| - 1].0) == FirePending <==> Alarms(cap, run)
  {
    var init, last := run[..|run| - 1], run[|run| - 1];
    RunCallbacks(cap, init);
    var s := After(cap, init);
    FireMoves(s, last.0, last.1);
    ReturnedCode(s, last.0);
    hide Do, Enabled, CodesOk, Inv, Holder, LastCode;
  }

  lemma ReturnedCode(s: State, t: Tid)
    requires Inv(s) && CodesOk(s)
    ensures PcOf(s, t).PushReturned? ==> LastCode(s.cap, s.ops) == Some(PcOf(s, t).code)
  {
    hide Nodes, Semaphore, WakeUps, Losses, NoNullPull, Traffic, LastCode;
    assert PcOf(s, t).PushReturned? ==> HoldsGlobal(PcOf(s, t));
  }

  /**
   * At every moment of every interleaving a thread is about to run the callback if and only
   * if its last step came from a push that returned Ok, with a callback installed and a
   * semaphore of one, or from installing a callback with a positive semaphore.
   */
  lemma {:induction false} CallbackDueIff(cap: nat, run: seq<(Tid, Action)>, t: Tid)
    requires IsRun(cap, run)
    ensures PcOf(After(cap, run), t) == FirePending <==> exists k: nat :: LastOf(run, t, k) && AlarmsAt(cap, run, k)
  {
    hide Do, Enabled, Alarms;
    if run != [] {
      var n := |run| - 1;
      var init := run[..n];
      StepMoves(After(cap, init), run[n].0, run[n].1);
      assert run[..n + 1] == run;
      if run[n].0 == t {
        AlarmsIff(cap, run);
        if AlarmsAt(cap, run, n) {
          assert LastOf(run, t, n);
        }
      } else {
        CallbackDueIff(cap, init, t);
        forall k: nat
          ensures LastOf(init, t, k) && AlarmsAt(cap, init, k) <==> LastOf(run, t, k) && AlarmsAt(cap, run, k)
        {
          if k < n {
            assert init[..k + 1] == run[..k + 1];
          }
        }
      }
    }
  }

  /**
   * Whoever runs the callback was alarmed by its step before, and whoever was alarmed runs
   * the callback as its next step.
   */
  lemma FiresAreAlarms(cap: nat, run: seq<(Tid, Action)>, t: Tid, k: nat)
    requires IsRun(cap, run) && run != [] && run[|run| - 1].0 == t && LastOf(run[..|run| - 1], t, k)
    ensures run[|run| - 1].1 == Fire <==> AlarmsAt(cap, run, k)
  {
    hide Do, Alarms;
    var init, last := run[..|run| - 1], run[|run| - 1];
    CallbackDueIff(cap, init, t);
    FireMoves(After(cap, init), t, last.1);
    assert init[..k + 1] == run[..k + 1];
    if run[|run| - 1].1 == Fire {
      var j: nat :| LastOf(init, t, j) && AlarmsAt(cap, init, j);
      assert j == k;
    }
  }

  // ----- how often it runs -----

  /** Callbacks the lock holder may still run for what it did. */
  function Credit(c: Pc, callback: bool): nat {
    B2N(c == FirePending) + B2N(Decided(c) && c.code == Ok) + B2N(c == CallbackSet && callback)
  }

  lemma CreditMoves(s: State, t: Tid, a: Action)
    requires Enabled(s, t, a)
    ensures var s' := Do(s, t, a); var c, c' := PcOf(s, t), PcOf(s', t);
      && Credit(c', s'.callback) + B2N(a == Fire) <=
         Credit(c, s.callback) + B2N(a == InsertNode && c' == PushStored(Ok)) + B2N(a == SetCallback(true))
      && (Credit(c, s.callback) + Credit(c', s'.callback) > 0 ==> HoldsGlobal(c))
      && (a == Fire || a == InsertNode || a.SetCallback? ==> HoldsGlobal(c))
  {
    hide Insert, NextMux, NextGlobal, NodeFor;
    CallbackMoves(s, t, a);
  }

  lemma PlainMoves(s: State, t: Tid, a: Action)
    requires Locks(s) && Nodes(s) && Enabled(s, t, a)
    ensures var s' := Do(s, t, a);
      PlainPushes(s.cap, s'.ops) == PlainPushes(s.cap, s.ops) + B2N(a == InsertNode && PcOf(s', t) == PushStored(Ok))
  {
    hide Do, Enabled, Run, Push, LastCode, PlainPushes, Nodes, Locks;
    match a {
      case TakeNode =>
        var e := NodeDecides(s, t, a);
        OpsSnoc(s.cap, s.ops, PushOp(e));
      case InsertNode =>
        var e := NodeDecides(s, t, a);
        WindowMoves(s, t, a);
        OpsSnoc(s.cap, s.ops, PushOp(e));
      case Dequeue =>
        DequeueOps(s, t);
        OpsSnoc(s.cap, s.ops, PullOp);
      case _ =>
        QuietStep(s, t, a);
    }
  }

  lemma {:induction false} CreditBounds(cap: nat, run: seq<(Tid, Action)>)
    requires IsRun(cap, run)
    ensures var s := After(cap, run);
      Fires(run) + Credit(Holder(s, s.global), s.callback) <= PlainPushes(cap, s.ops) + Installs(run)
  {
    hide Do, Enabled, PlainPushes, Credit, CodesOk;
    if run == [] {
      NoCredit();
    } else {
      var init, last := run[..|run| - 1], run[|run| - 1];
      CreditBounds(cap, init);
      RunInv(cap, init);
      var s := After(cap, init);
      CreditStep(s, last.0, last.1);
    }
  }

  lemma NoCredit()
    ensures Credit(Idle, false) == 0
  {
  }

  lemma CreditStep(s: State, t: Tid, a: Action)
    requires Inv(s) && Enabled(s, t, a)
    ensures var s' := Do(s, t, a);
      && s'.cap == s.cap
      && Credit(Holder(s', s'.global), s'.callback) + B2N(a == Fire) + PlainPushes(s.cap, s.ops) <=
         Credit(Holder(s, s.global), s.callback) + B2N(a == SetCallback(true)) + PlainPushes(s.cap, s'.ops)
  {
    LocksStep(s, t, a);
    StepMoves(s, t, a);
    CreditMoves(s, t, a);
    PlainMoves(s, t, a);
    CallbackMoves(s, t, a);
    IdleHasNone();
    hide Do, Enabled, PlainPushes, Credit, Nodes, Semaphore, WakeUps, Losses, NoNullPull, Traffic;
  }

  lemma IdleHasNone()
    ensures forall b :: Credit(Idle, b) == 0
  {
  }

  /**
   * In every interleaving the callback ran, or is about to run, at most once for each push
   * that stored plainly and once for each time it was installed.
   */
  lemma CallbacksBounded(cap: nat, run: seq<(Tid, Action)>)
    requires IsRun(cap, run)
    ensures var s := After(cap, run);
      Fires(run) + B2N(exists t: Tid :: PcOf(s, t) == FirePending) <= PlainPushes(cap, s.ops) + Installs(run)
  {
    hide Do, Enabled, PlainPushes, Nodes, Semaphore, WakeUps, Losses, NoNullPull, Traffic;
    RunInv(cap, run);
    CreditBounds(cap, run);
    var s := After(cap, run);
    if t: Tid :| PcOf(s, t) == FirePending {
      assert HoldsGlobal(PcOf(s, t));
    }
  }

  // ----- what the history fields stand for -----

  ghost predicate PositiveAt(cap: nat, run: seq<(Tid, Action)>, j: nat) {
    j <= |run| && IsRun(cap, run[..j]) && After(cap, run[..j]).sem > 0
  }

  /** Step `k` ran the callback, and the semaphore has been positive ever since. */
  ghost predicate RanAt(cap: nat, run: seq<(Tid, Action)>, k: nat) {
    k < |run| && run[k].1 == Fire && forall j :: k < j <= |run| ==> PositiveAt(cap, run, j)
  }

  lemma {:induction false} FiredIff(cap: nat, run: seq<(Tid, Action)>)
    requires IsRun(cap, run)
    ensures After(cap, run).fired <==> exists k: nat :: RanAt(cap, run, k)
    ensures After(cap, run).fired ==> After(cap, run).sem > 0
  {
    hide Do, Enabled, PositiveAt;
    if run != [] {
      var n := |run| - 1;
      var init, last := run[..n], run[n];
      var s := After(cap, init);
      FiredIff(cap, init);
      CallbackMoves(s, last.0, last.1);
      SemaphoreMoves(s, last.0, last.1);
      WaitNeeds(s, last.0, last.1);
      LastPositive(cap, run);
      forall j: nat | j <= n ensures PositiveAt(cap, init, j) <==> PositiveAt(cap, run, j) {
        SamePositive(cap, run, j);
      }
      if k: nat :| RanAt(cap, run, k) {
        assert PositiveAt(cap, run, n + 1);
        assert k < n ==> RanAt(cap, init, k);
      }
      if After(cap, run).fired {
        if last.1 == Fire {
          assert RanAt(cap, run, n);
        } else {
          var k: nat :| RanAt(cap, init, k);
          assert RanAt(cap, run, k);
        }
      }
    }
  }

  lemma WaitNeeds(s: State, t: Tid, a: Action)
    requires Enabled(s, t, a)
    ensures a == Wait ==> s.sem > 0
  {
  }

  lemma LastPositive(cap: nat, run: seq<(Tid, Action)>)
    requires IsRun(cap, run)
    ensures PositiveAt(cap, run, |run|) <==> After(cap, run).sem > 0
  {
    assert run[..|run|] == run;
  }

  lemma SamePositive(cap: nat, run: seq<(Tid, Action)>, j: nat)
    requires run != [] && j < |run|
    ensures PositiveAt(cap, run[..|run| - 1], j) <==> PositiveAt(cap, run, j)
  {
    assert run[..|run| - 1][..j] == run[..j];
  }

  /**
   * Installed, with a positive semaphore and no publisher between its post and its check:
   * some step ran the callback, and the semaphore has not been zero since.
   */
  lemma WakeUpIsNotLost(cap: nat, run: seq<(Tid, Action)>)
    requires IsRun(cap, run) && Installed(run)
    requires After(cap, run).sem > 0 && forall t: Tid :: !Alerting(PcOf(After(cap, run), t))
    ensures exists k: nat :: RanAt(cap, run, k)
  {
    hide Do, Enabled, RanAt, CodesOk, Inv;
    RunCallbacks(cap, run);
    NoLostWakeUp(cap, run);
    FiredIff(cap, run);
  }

  /** The entries publishers called ps_queue_push with, in order. */
  function Called(run: seq<(Tid, Action)>): seq<Entry> {
    if run == [] then []
    else
      var a := run[|run| - 1].1;
      Called(run[..|run| - 1]) + if a.CallPush? then [a.e] else []
  }

  lemma SentMoves(s: State, t: Tid, a: Action)
    requires Enabled(s, t, a)
    ensures Do(s, t, a).sent == s.sent + if a.CallPush? then [a.e] else []
  {
    hide Insert, NextPc, NextMux, NextGlobal;
  }

  /** What publishers sent, in the fields of the state, is what they called for. */
  lemma {:induction false} SentIsCalled(cap: nat, run: seq<(Tid, Action)>)
    requires IsRun(cap, run)
    ensures After(cap, run).sent == Called(run)
  {
    hide Do, Enabled;
    if run != [] {
      var init, last := run[..|run| - 1], run[|run| - 1];
      SentIsCalled(cap, init);
      SentMoves(After(cap, init), last.0, last.1);
    }
  }

  // ----- a callback on a queue that was not empty -----

  /** A push into a free cell, up to its return. */
  lemma PushReturns(cap: nat, run: seq<(Tid, Action)>, e: Entry) returns (r: seq<(Tid, Action)>)
    requires IsRun(cap, run) && e.prio < PRIORITIES
    requires var s := After(cap, run); PcOf(s, 0) == Publishing && s.mux == None && s.free > 0
    ensures IsRun(cap, r) && Installed(r) == Installed(run) && run + [(0, CallPush(e))] <= r
    ensures var s := After(cap, run);
      After(cap, r) == s.(q := Insert(s.q, e), free := s.free - 1, sem := s.sem + 1, ops := s.ops + [PushOp(e)],
                          sent := s.sent + [e], pc := s.pc[0 := PushReturned(Ok)])
  {
    hide IsRun, After, Insert;
    r := Take(cap, run, 0, CallPush(e));
    r := Take(cap, r, 0, LockForPush);
    r := Take(cap, r, 0, TakeNode);
    r := Take(cap, r, 0, InsertNode);
    r := Take(cap, r, 0, Post);
    r := Take(cap, r, 0, UnlockPush);
  }

  lemma Take(cap: nat, run: seq<(Tid, Action)>, t: Tid, a: Action) returns (r: seq<(Tid, Action)>)
    requires IsRun(cap, run) && Enabled(After(cap, run), t, a)
    ensures r == run + [(t, a)] && IsRun(cap, r) && After(cap, r) == Do(After(cap, run), t, a)
    ensures Installed(r) == if a.SetCallback? then a.on else Installed(run)
  {
    hide Enabled, Do;
    r := Extend(cap, run, t, a);
    assert r[..|run|] == run;
  }

  lemma NothingRun(cap: nat)
    ensures IsRun(cap, []) && After(cap, []) == Init(cap) && !Installed([])
  {
  }

  /** The callback installed on an empty queue. */
  lemma InstalledOnEmpty() returns (run: seq<(Tid, Action)>)
    ensures IsRun(2, run) && Installed(run)
    ensures After(2, run) == Init(2).(global := Some(0), callback := true, pc := map[0 := Publishing])
  {
    hide IsRun, After, Installed, Insert, NodeFor;
    run := [];
    NothingRun(2);
    run := Take(2, run, 0, LockGlobal);
    run := Take(2, run, 0, SetCallback(true));
    run := Take(2, run, 0, CheckCallback);
  }

  /** A message pushed to it and announced. */
  lemma FirstAnnounced() returns (run: seq<(Tid, Action)>)
    ensures IsRun(2, run) && Installed(run)
    ensures var s := After(2, run);
      && s.q == [Entry(0, 7)] && s.free == 1 && s.sem == 1 && s.mux == None && s.callback
      && s.pc == map[0 := Publishing]
  {
    hide IsRun, After, Insert;
    run := InstalledOnEmpty();
    run := PushReturns(2, run, Entry(0, 7));
    OnlyOne(Entry(0, 7));
    run := Take(2, run, 0, AfterPush);
    run := Take(2, run, 0, Fire);
  }

  lemma OnlyOne(e: Entry)
    ensures Insert([], e) == [e]
  {
  }

  /**
   * The callback is documented for a message that arrives on an empty queue.  It can run for
   * one that arrives behind another: a getter passing the semaphore between the post and the
   * look leaves it at one.
   */
  lemma CallbackOnNonEmptyQueue() returns (run: seq<(Tid, Action)>, k: nat)
    ensures IsRun(2, run) && k < |run| && IsRun(2, run[..k])
    ensures run[k] == (0, CallPush(Entry(0, 8))) && After(2, run[..k]).q == [Entry(0, 7)]
    ensures LastOf(run, 0, |run| - 1) && run[|run| - 1].1 == AfterPush && PcOf(After(2, run), 0) == FirePending
  {
    hide IsRun, After, Insert;
    var first := FirstAnnounced();
    k := |first|;
    run := PushReturns(2, first, Entry(0, 8));
    run := Take(2, run, 1, Wait);
    run := Take(2, run, 0, AfterPush);
    assert run[..k] == first;
  }
}
