/**
 * The concurrent protocol around one subscriber queue, as atomic steps of any
 * number of threads, each with a program counter: publishers serialised by the
 * global lock (push_subscriber_queue and ps_queue_push, ps_set_non_empty_cb),
 * pullers that pass the semaphore before they take the queue mutex
 * (ps_queue_pull), and callers of ps_overflow.
 */
module QueueProtocol {
  import opened Options
  import opened PriorityLists

  type Tid = nat

  datatype Pc =
    | Idle
    // with the global lock held
    | Publishing                             // between two pushes
    | PushCalled(e: Entry)                   // about to lock the queue
    | PushLocked(e: Entry)                   // holds the queue mutex
    | PushNode(e: Entry, code: Code)         // got a node for the message
    | PushStored(code: Code)                 // the message is in its bucket
    | PushPosted(code: Code)                 // the semaphore was posted if need be
    | PushReturned(code: Code)               // the mutex is released
    | FirePending                            // saw a reason to run the callback
    | CallbackSet                            // the callback is assigned, waiting not yet read
    // ps_queue_pull
    | Waited                                 // passed the semaphore
    | PullLocked                             // holds the queue mutex
    | PullGot(msg: Option<nat>)              // dequeued, mutex still held
    // ps_overflow
    | OverflowRead(n: int)                   // between its two atomic operations

  datatype Action =
    | LockGlobal | UnlockGlobal
    | CallPush(e: Entry) | LockForPush | TakeNode | InsertNode | Post | UnlockPush | AfterPush
    | SetCallback(on: bool) | CheckCallback | Fire
    | Wait | WaitFails | LockForPull | Dequeue | UnlockPull
    | ReadOverflow | SubtractOverflow

  /**
   * `q` is what the message-holding nodes hold.  The last fields are history: whether
   * the callback ran since the semaphore was last zero, the queue operations in the order
   * of their critical sections, the sum of the values ps_overflow has subtracted, the
   * entries publishers called ps_queue_push with, and the entries pullers dequeued, each
   * in the order in which it happened.  The counter `overflow` is an integer here; the
   * program's is that integer modulo 2^32.
   */
  datatype State = State(
    cap: nat, q: seq<Entry>, free: nat, sem: nat, mux: Option<Tid>, global: Option<Tid>,
    pc: map<Tid, Pc>, overflow: int, callback: bool,
    fired: bool, ops: seq<Op>, returned: int, sent: seq<Entry>, got: seq<Entry>)

  function Init(cap: nat): State {
    State(cap, [], cap, 0, None, None, map[], 0, false, false, [], 0, [], [])
  }

  function PcOf(s: State, t: Tid): Pc {
    if t in s.pc then s.pc[t] else Idle
  }

  predicate Enabled(s: State, t: Tid, a: Action) {
    var c := PcOf(s, t);
    match a
    case LockGlobal => c == Idle && s.global == None
    case UnlockGlobal => c == Publishing
    case CallPush(e) => c == Publishing && e.prio < PRIORITIES
    case LockForPush => c.PushCalled? && s.mux == None
    case TakeNode => c.PushLocked?
    case InsertNode => c.PushNode?
    case Post => c.PushStored?
    case UnlockPush => c.PushPosted?
    case AfterPush => c.PushReturned?
    case SetCallback(_) => c == Publishing
    case CheckCallback => c == CallbackSet
    case Fire => c == FirePending
    case Wait => c == Idle && s.sem > 0
    case WaitFails => c == Idle
    case LockForPull => c == Waited && s.mux == None
    case Dequeue => c == PullLocked
    case UnlockPull => c.PullGot?
    case ReadOverflow => c == Idle
    case SubtractOverflow => c.OverflowRead?
  }

  /** bqueue_get_available at priority `prio`: a free node, the node of a lower entry, or none. */
  function NodeFor(s: State, prio: nat): Code {
    if s.free > 0 then Ok
    else if s.q != [] && s.q[|s.q| - 1].prio < prio then Overflow
    else Full
  }

  /** Where thread `t` is after a step. */
  function NextPc(s: State, t: Tid, a: Action): Pc
    requires Enabled(s, t, a)
  {
    var c := PcOf(s, t);
    match a
    case LockGlobal => Publishing
    case UnlockGlobal => Idle
    case CallPush(e) => PushCalled(e)
    case LockForPush => PushLocked(c.e)
    case TakeNode =>
      var code := NodeFor(s, c.e.prio);
      if code == Full then PushPosted(Full) else PushNode(c.e, code)
    case InsertNode => PushStored(c.code)
    case Post => PushPosted(c.code)
    case UnlockPush => PushReturned(c.code)
    case AfterPush => if c.code == Ok && s.callback && s.sem == 1 then FirePending else Publishing
    case SetCallback(_) => CallbackSet
    case CheckCallback => if s.sem > 0 && s.callback then FirePending else Publishing
    case Fire => Publishing
    case Wait => Waited
    case WaitFails => Idle
    case LockForPull => PullLocked
    case Dequeue => PullGot(if s.q == [] then None else Some(s.q[0].msg))
    case UnlockPull => Idle
    case ReadOverflow => OverflowRead(s.overflow)
    case SubtractOverflow => Idle
  }

  function NextMux(s: State, t: Tid, a: Action): Option<Tid> {
    match a
    case LockForPush => Some(t)
    case LockForPull => Some(t)
    case UnlockPush => None
    case UnlockPull => None
    case _ => s.mux
  }

  function NextGlobal(s: State, t: Tid, a: Action): Option<Tid> {
    match a
    case LockGlobal => Some(t)
    case UnlockGlobal => None
    case _ => s.global
  }

  /** What a step does to everything else. */
  function Effect(s: State, t: Tid, a: Action): State
    requires Enabled(s, t, a)
  {
    var c := PcOf(s, t);
    match a
    case CallPush(e) => s.(sent := s.sent + [e])
    case TakeNode =>
      match NodeFor(s, c.e.prio) {
        case Ok => s.(free := s.free - 1)
        case Overflow => s.(q := s.q[..|s.q| - 1])
        case Full => s.(ops := s.ops + [PushOp(c.e)])
      }
    case InsertNode => s.(q := Insert(s.q, c.e), ops := s.ops + [PushOp(c.e)])
    case Post => s.(sem := s.sem + if c.code == Ok then 1 else 0)
    case AfterPush => s.(overflow := s.overflow + if c.code != Ok then 1 else 0)
    case SetCallback(on) => s.(callback := on)
    case Fire => s.(fired := s.sem > 0)
    case Wait => s.(sem := s.sem - 1, fired := s.fired && s.sem > 1)
    case Dequeue =>
      if s.q == [] then s
      else s.(q := s.q[1..], free := s.free + 1, ops := s.ops + [PullOp], got := s.got + [s.q[0]])
    case SubtractOverflow => s.(overflow := s.overflow - c.n, returned := s.returned + c.n)
    case _ => s
  }

  /** One atomic step of thread `t`. */
  function Do(s: State, t: Tid, a: Action): State
    requires Enabled(s, t, a)
  {
    Effect(s, t, a).(pc := s.pc[t := NextPc(s, t, a)], mux := NextMux(s, t, a), global := NextGlobal(s, t, a))
  }

  /** A run is any interleaving of enabled steps. */
  predicate IsRun(cap: nat, run: seq<(Tid, Action)>)
    decreases |run|, 0
  {
    run == [] ||
    (IsRun(cap, run[..|run| - 1]) && Enabled(After(cap, run[..|run| - 1]), run[|run| - 1].0, run[|run| - 1].1))
  }

  function After(cap: nat, run: seq<(Tid, Action)>): State
    requires IsRun(cap, run)
    decreases |run|, 1
  {
    if run == [] then Init(cap)
    else Do(After(cap, run[..|run| - 1]), run[|run| - 1].0, run[|run| - 1].1)
  }

  // ----- the invariant -----

  predicate HoldsQueue(c: Pc) {
    c.PushLocked? || c.PushNode? || c.PushStored? || c.PushPosted? || c.PullLocked? || c.PullGot?
  }

  predicate HoldsGlobal(c: Pc) {
    c.Publishing? || c.PushCalled? || c.PushLocked? || c.PushNode? || c.PushStored? || c.PushPosted? ||
    c.PushReturned? || c.FirePending? || c.CallbackSet?
  }

  /** Program counter of the holder of a lock; Idle when it is free. */
  function Holder(s: State, lock: Option<Tid>): Pc {
    match lock case None => Idle case Some(t) => PcOf(s, t)
  }

  /** Pullers that passed semaphore_wait and have not dequeued. */
  function Passed(s: State): set<Tid> {
    set t | t in s.pc && (s.pc[t] == Waited || s.pc[t] == PullLocked)
  }

  function B2N(b: bool): nat { if b then 1 else 0 }

  ghost predicate Locks(s: State) {
    && (forall t: Tid :: HoldsQueue(PcOf(s, t)) <==> s.mux == Some(t))
    && (forall t: Tid :: HoldsGlobal(PcOf(s, t)) <==> s.global == Some(t))
  }

  /** Free nodes, message nodes and the node in hand make up the capacity. */
  ghost predicate Nodes(s: State) {
    var h := Run(s.cap, s.ops);
    match Holder(s, s.mux)
    case PushNode(e, code) =>
      && s.free + |s.q| + 1 == s.cap
      && (if code == Ok then s.q == h.q
          else code == Overflow && h.q != [] && s.q == h.q[..|h.q| - 1] && s.free == 0 && h.q[|h.q| - 1].prio < e.prio)
    case _ => s.q == h.q && s.free + |s.q| == s.cap
  }

  /** Semaphore value, pullers in the window and a store not yet posted make up the messages. */
  ghost predicate Semaphore(s: State) {
    s.sem + |Passed(s)| + B2N(Holder(s, s.mux) == PushStored(Ok)) == |Run(s.cap, s.ops).q|
  }

  /** A publisher is between its post and the end of its callback check, or a callback was just installed. */
  predicate Alerting(c: Pc) {
    c == PushPosted(Ok) || c == PushReturned(Ok) || c == FirePending || c == CallbackSet
  }

  ghost predicate WakeUps(s: State) {
    var c := Holder(s, s.global);
    s.callback && s.sem > 0 ==>
      && (!Alerting(c) ==> s.fired)
      && ((c == PushPosted(Ok) || c == PushReturned(Ok)) && s.sem > 1 ==> s.fired)
  }

  predicate LossPending(c: Pc) {
    (c.PushStored? || c.PushPosted? || c.PushReturned?) && c.code != Ok
  }

  ghost predicate Losses(s: State) {
    |Run(s.cap, s.ops).lost| == s.overflow + s.returned + B2N(LossPending(Holder(s, s.global)))
  }

  ghost predicate NoNullPull(s: State) {
    forall t: Tid :: PcOf(s, t) != PullGot(None)
  }

  /** The entry of a push that has not reached its critical section's decision. */
  function InFlight(c: Pc): seq<Entry> {
    if c.PushCalled? || c.PushLocked? || c.PushNode? then [c.e] else []
  }

  /** Publishers' pushes and pullers' messages are those of the replayed queue, in its order. */
  ghost predicate Traffic(s: State) {
    var h := Run(s.cap, s.ops);
    s.got == h.pulled && s.sent == h.pushed + InFlight(Holder(s, s.global))
  }

  ghost predicate Inv(s: State) {
    Locks(s) && Nodes(s) && Semaphore(s) && WakeUps(s) && Losses(s) && NoNullPull(s) && Traffic(s)
  }

  // ----- every step keeps it -----

  predicate LockMoves(before: bool, after: bool, was: Option<Tid>, now: Option<Tid>, t: Tid) {
    if before == after then now == was
    else if after then was == None && now == Some(t)
    else now == None
  }

  lemma QueueLockMoves(s: State, t: Tid, a: Action)
    requires Enabled(s, t, a)
    ensures LockMoves(HoldsQueue(PcOf(s, t)), HoldsQueue(PcOf(Do(s, t, a), t)), s.mux, Do(s, t, a).mux, t)
  {
    hide Effect, NextGlobal, NodeFor;
  }

  lemma GlobalLockMoves(s: State, t: Tid, a: Action)
    requires Enabled(s, t, a)
    ensures LockMoves(HoldsGlobal(PcOf(s, t)), HoldsGlobal(PcOf(Do(s, t, a), t)), s.global, Do(s, t, a).global, t)
  {
    hide Effect, NextMux, NodeFor;
  }

  /** A step moves one program counter, and a lock changes hands exactly as that counter says. */
  lemma StepMoves(s: State, t: Tid, a: Action)
    requires Enabled(s, t, a)
    ensures var s' := Do(s, t, a); var c, c' := PcOf(s, t), PcOf(s', t);
      && s'.pc == s.pc[t := c'] && s'.cap == s.cap
      && LockMoves(HoldsQueue(c), HoldsQueue(c'), s.mux, s'.mux, t)
      && LockMoves(HoldsGlobal(c), HoldsGlobal(c'), s.global, s'.global, t)
  {
    hide HoldsQueue, HoldsGlobal, LockMoves, NextPc, NextMux, NextGlobal, NodeFor;
    QueueLockMoves(s, t, a);
    GlobalLockMoves(s, t, a);
  }

  lemma LocksStep(s: State, t: Tid, a: Action)
    requires Locks(s) && Enabled(s, t, a)
    ensures Locks(Do(s, t, a))
  {
    StepMoves(s, t, a);
    hide Enabled, Do;
  }

  lemma RunOps(cap: nat, ops: seq<Op>, op: Op)
    ensures Run(cap, ops + [op]) == Apply(Run(cap, ops), cap, op)
  {
    assert (ops + [op])[..|ops|] == ops;
  }

  /** The steps that change the message nodes. */
  predicate TouchesNodes(a: Action) {
    a.TakeNode? || a.InsertNode? || a.Dequeue?
  }

  lemma QuietStep(s: State, t: Tid, a: Action)
    requires Enabled(s, t, a) && !TouchesNodes(a)
    ensures var s' := Do(s, t, a);
      && s'.q == s.q && s'.free == s.free && s'.ops == s.ops
      && !PcOf(s, t).PushNode? && !PcOf(s', t).PushNode?
  {
    hide Insert, NextMux, NextGlobal, NodeFor;
  }

  lemma QuietNodesStep(s: State, t: Tid, a: Action)
    requires Locks(s) && Nodes(s) && Enabled(s, t, a) && !TouchesNodes(a)
    ensures Nodes(Do(s, t, a))
  {
    StepMoves(s, t, a);
    LocksStep(s, t, a);
    QuietStep(s, t, a);
    hide Enabled, Do, Run;
  }

  lemma TakeNodeStep(s: State, t: Tid)
    requires Locks(s) && Nodes(s) && Enabled(s, t, TakeNode)
    ensures Nodes(Do(s, t, TakeNode))
  {
    hide Run, Insert;
    var e, s' := PcOf(s, t).e, Do(s, t, TakeNode);
    assert s.q == Run(s.cap, s.ops).q && s.free + |s.q| == s.cap;
    if s.free == 0 && (s.q == [] || s.q[|s.q| - 1].prio >= e.prio) {
      RunOps(s.cap, s.ops, PushOp(e));
      assert PcOf(s', t) == PushPosted(Full);
    } else {
      assert PcOf(s', t).PushNode?;
    }
  }

  lemma InsertNodeDoes(s: State, t: Tid)
    requires Enabled(s, t, InsertNode)
    ensures var c, s' := PcOf(s, t), Do(s, t, InsertNode);
      && c.PushNode? &&
         s' == s.(q := Insert(s.q, c.e), ops := s.ops + [PushOp(c.e)], pc := s.pc[t := PushStored(c.code)])
      && PcOf(s', t) == PushStored(c.code)
  {
    hide Insert;
  }

  lemma InsertNodeStep(s: State, t: Tid)
    requires Locks(s) && Nodes(s) && Enabled(s, t, InsertNode)
    ensures Nodes(Do(s, t, InsertNode))
  {
    RunOps(s.cap, s.ops, PushOp(PcOf(s, t).e));
    RunConserves(s.cap, s.ops);
    InsertNodeDoes(s, t);
    hide Run, Insert, Do, Enabled;
  }

  lemma DequeueStep(s: State, t: Tid)
    requires Locks(s) && Nodes(s) && Enabled(s, t, Dequeue)
    ensures Nodes(Do(s, t, Dequeue))
  {
    RunOps(s.cap, s.ops, PullOp);
    hide Run, Insert;
  }

  lemma NodesPreserved(s: State, t: Tid, a: Action)
    requires Locks(s) && Nodes(s) && Enabled(s, t, a)
    ensures Nodes(Do(s, t, a))
  {
    hide Do, Run;
    match a {
      case TakeNode => TakeNodeStep(s, t);
      case InsertNode => InsertNodeStep(s, t);
      case Dequeue => DequeueStep(s, t);
      case _ => QuietNodesStep(s, t, a);
    }
  }

  /** How a step changes the number of queued messages and of lost messages. */
  lemma Tally(s: State, t: Tid, a: Action)
    requires Locks(s) && Nodes(s) && Enabled(s, t, a)
    ensures var s' := Do(s, t, a); var h, h' := Run(s.cap, s.ops), Run(s'.cap, s'.ops); var c' := PcOf(s', t);
      && |h'.q| == |h.q| + B2N(a == InsertNode && c' == PushStored(Ok)) - B2N(a == Dequeue && h.q != [])
      && |h'.lost| ==
         |h.lost| + B2N(a == InsertNode && c' != PushStored(Ok)) + B2N(a == TakeNode && c' == PushPosted(Full))
  {
    hide Insert;
    StepMoves(s, t, a);
    RunConserves(s.cap, s.ops);
    if TouchesNodes(a) {
      TallyTouched(s, t, a);
    } else {
      QuietStep(s, t, a);
    }
  }

  lemma TallyTouched(s: State, t: Tid, a: Action)
    requires Locks(s) && Nodes(s) && Enabled(s, t, a) && TouchesNodes(a)
    ensures var s' := Do(s, t, a); var h, h' := Run(s.cap, s.ops), Run(s'.cap, s'.ops); var c' := PcOf(s', t);
      && |h'.q| == |h.q| + B2N(a == InsertNode && c' == PushStored(Ok)) - B2N(a == Dequeue && h.q != [])
      && |h'.lost| ==
         |h.lost| + B2N(a == InsertNode && c' != PushStored(Ok)) + B2N(a == TakeNode && c' == PushPosted(Full))
  {
    hide Insert, Run;
    var c := PcOf(s, t);
    match a {
      case TakeNode => RunOps(s.cap, s.ops, PushOp(c.e));
      case InsertNode => RunOps(s.cap, s.ops, PushOp(c.e));
      case Dequeue => RunOps(s.cap, s.ops, PullOp);
    }
  }

  predicate InWindow(c: Pc) {
    c == Waited || c == PullLocked
  }

  lemma PassedMoves(s: State, t: Tid, c: Pc, s': State)
    requires s'.pc == s.pc[t := c]
    ensures |Passed(s')| == |Passed(s)| - B2N(InWindow(PcOf(s, t))) + B2N(InWindow(c))
  {
    var rest := Passed(s) - {t};
    assert Passed(s) == if InWindow(PcOf(s, t)) then rest + {t} else rest;
    assert Passed(s') == if InWindow(c) then rest + {t} else rest;
  }

  /** How a step changes the semaphore. */
  lemma SemaphoreMoves(s: State, t: Tid, a: Action)
    requires Enabled(s, t, a)
    ensures var s' := Do(s, t, a); var c, c' := PcOf(s, t), PcOf(s', t);
      && s'.sem == s.sem + B2N(c == PushStored(Ok)) - B2N(a == Wait)
      && (c.PushStored? <==> a == Post)
  {
    hide Insert, NextMux, NextGlobal;
  }

  lemma WindowMoves(s: State, t: Tid, a: Action)
    requires Enabled(s, t, a)
    ensures var s' := Do(s, t, a); var c, c' := PcOf(s, t), PcOf(s', t);
      && (InWindow(c) <==> a == LockForPull || a == Dequeue)
      && (InWindow(c') <==> a == Wait || a == LockForPull)
      && (c'.PushStored? <==> a == InsertNode)
  {
    hide Effect, NextMux, NextGlobal, NodeFor;
  }

  lemma SemaphoreStep(s: State, t: Tid, a: Action)
    requires Locks(s) && Nodes(s) && Semaphore(s) && Enabled(s, t, a)
    ensures Semaphore(Do(s, t, a))
    ensures a == Dequeue ==> s.q != []
  {
    var s' := Do(s, t, a);
    StepMoves(s, t, a);
    LocksStep(s, t, a);
    Tally(s, t, a);
    PassedMoves(s, t, PcOf(s', t), s');
    SemaphoreMoves(s, t, a);
    WindowMoves(s, t, a);
    if a == Dequeue {
      assert t in Passed(s);
    }
    StoredMoves(s, t, a);
  }

  lemma StoredMoves(s: State, t: Tid, a: Action)
    requires Locks(s) && Enabled(s, t, a)
    ensures var s' := Do(s, t, a);
      B2N(Holder(s', s'.mux) == PushStored(Ok)) ==
      B2N(Holder(s, s.mux) == PushStored(Ok)) + B2N(PcOf(s', t) == PushStored(Ok)) - B2N(PcOf(s, t) == PushStored(Ok))
  {
    StepMoves(s, t, a);
    LocksStep(s, t, a);
    hide Do, Enabled;
  }

  /** How a step changes what the callback depends on. */
  lemma CallbackMoves(s: State, t: Tid, a: Action)
    requires Enabled(s, t, a)
    ensures var s' := Do(s, t, a);
      && s'.fired == (if a == Fire then s.sem > 0 else if a == Wait then s.fired && s.sem > 1 else s.fired)
      && s'.callback == (if a.SetCallback? then a.on else s.callback)
  {
    hide Insert, NextPc, NextMux, NextGlobal;
  }

  lemma WakeUpsStep(s: State, t: Tid, a: Action)
    requires Locks(s) && WakeUps(s) && Enabled(s, t, a)
    ensures WakeUps(Do(s, t, a))
  {
    LocksStep(s, t, a);
    StepMoves(s, t, a);
    SemaphoreMoves(s, t, a);
    CallbackMoves(s, t, a);
    var s' := Do(s, t, a);
    if !HoldsGlobal(PcOf(s, t)) {
      if a != LockGlobal {
        assert Holder(s', s'.global) == Holder(s, s.global);
      }
    }
  }

  /** How a step changes the overflow counter and the pending loss. */
  lemma LossMoves(s: State, t: Tid, a: Action)
    requires Enabled(s, t, a)
    ensures var s' := Do(s, t, a); var c, c' := PcOf(s, t), PcOf(s', t);
      var counted := B2N(a == AfterPush && c.code != Ok);
      && s'.overflow + s'.returned == s.overflow + s.returned + counted
      && B2N(LossPending(c')) == B2N(LossPending(c)) - counted
           + B2N(a == InsertNode && c' != PushStored(Ok)) + B2N(a == TakeNode && c' == PushPosted(Full))
  {
    hide Insert, NextMux, NextGlobal;
  }

  lemma LossesStep(s: State, t: Tid, a: Action)
    requires Locks(s) && Nodes(s) && Losses(s) && Enabled(s, t, a)
    ensures Losses(Do(s, t, a))
  {
    hide Do, Enabled, Run, Nodes;
    StepMoves(s, t, a);
    LocksStep(s, t, a);
    Tally(s, t, a);
    LossMoves(s, t, a);
  }

  /** How a step changes what was sent and received. */
  lemma TrafficMoves(s: State, t: Tid, a: Action)
    requires Enabled(s, t, a) && !TouchesNodes(a)
    ensures var s' := Do(s, t, a); var c, c' := PcOf(s, t), PcOf(s', t);
      && s'.got == s.got
      && (if a.CallPush? then s'.sent == s.sent + [a.e] && InFlight(c) == [] && InFlight(c') == [a.e]
          else s'.sent == s.sent && InFlight(c') == InFlight(c))
      && ((a.CallPush? || InFlight(c) != []) ==> HoldsGlobal(c) && HoldsGlobal(c'))
  {
    hide Insert, NextMux, NextGlobal, NodeFor;
  }

  lemma NotHolding(c: Pc)
    ensures InFlight(c) != [] ==> HoldsGlobal(c)
  {
  }

  lemma QuietTrafficStep(s: State, t: Tid, a: Action)
    requires Locks(s) && Traffic(s) && Enabled(s, t, a) && !TouchesNodes(a)
    ensures Traffic(Do(s, t, a))
  {
    StepMoves(s, t, a);
    LocksStep(s, t, a);
    QuietStep(s, t, a);
    TrafficMoves(s, t, a);
    var s' := Do(s, t, a);
    NotHolding(PcOf(s, t));
    NotHolding(PcOf(s', t));
    hide Enabled, Do, Run, InFlight, HoldsGlobal;
    assert Idle.Idle? && InFlight(Idle) == [] by { NotInFlight(); }
  }

  lemma NotInFlight()
    ensures InFlight(Idle) == []
  {
  }

  lemma NodeTrafficStep(s: State, t: Tid, a: Action)
    requires Locks(s) && Nodes(s) && Traffic(s) && Enabled(s, t, a) && TouchesNodes(a)
    ensures Traffic(Do(s, t, a))
  {
    hide Run, Insert;
    var c := PcOf(s, t);
    StepMoves(s, t, a);
    match a {
      case TakeNode => RunOps(s.cap, s.ops, PushOp(c.e));
      case InsertNode => RunOps(s.cap, s.ops, PushOp(c.e));
      case Dequeue => RunOps(s.cap, s.ops, PullOp);
    }
  }

  lemma TrafficStep(s: State, t: Tid, a: Action)
    requires Locks(s) && Nodes(s) && Traffic(s) && Enabled(s, t, a)
    ensures Traffic(Do(s, t, a))
  {
    hide Do, Run, Traffic, Nodes, Locks, Enabled;
    if TouchesNodes(a) {
      NodeTrafficStep(s, t, a);
    } else {
      QuietTrafficStep(s, t, a);
    }
  }

  lemma NoNullStep(s: State, t: Tid, a: Action)
    requires NoNullPull(s) && Enabled(s, t, a)
    requires a == Dequeue ==> s.q != []
    ensures NoNullPull(Do(s, t, a))
  {
    var s' := Do(s, t, a);
    StepMoves(s, t, a);
    assert PcOf(s', t) != PullGot(None);
    forall u: Tid ensures PcOf(s', u) != PullGot(None) {
      assert u != t ==> PcOf(s', u) == PcOf(s, u);
    }
  }

  lemma InvStep(s: State, t: Tid, a: Action)
    requires Inv(s) && Enabled(s, t, a)
    ensures Inv(Do(s, t, a))
  {
    LocksStep(s, t, a);
    NodesPreserved(s, t, a);
    SemaphoreStep(s, t, a);
    WakeUpsStep(s, t, a);
    LossesStep(s, t, a);
    NoNullStep(s, t, a);
    TrafficStep(s, t, a);
  }

  // ----- what holds in every interleaving -----

  lemma {:induction false} RunInv(cap: nat, run: seq<(Tid, Action)>)
    requires IsRun(cap, run)
    ensures Inv(After(cap, run)) && After(cap, run).cap == cap
  {
    if run == [] {
      assert Passed(Init(cap)) == {};
    } else {
      var init, last := run[..|run| - 1], run[|run| - 1];
      RunInv(cap, init);
      InvStep(After(cap, init), last.0, last.1);
      StepMoves(After(cap, init), last.0, last.1);
    }
  }

  /** A puller that passed the semaphore always gets a message: the one the sequential queue would give. */
  lemma SuccessfulWaitGetsMessage(cap: nat, run: seq<(Tid, Action)>, t: Tid)
    requires IsRun(cap, run) && PcOf(After(cap, run), t) == PullLocked
    ensures var s := After(cap, run); var h := Run(cap, s.ops);
      h.q != [] && PcOf(Do(s, t, Dequeue), t) == PullGot(Some(h.q[0].msg))
  {
    RunInv(cap, run);
    SemaphoreStep(After(cap, run), t, Dequeue);
  }

  /** Whenever nobody is inside the queue, the semaphore, the window and the nodes add up. */
  lemma NodesAndSemaphoreBalance(cap: nat, run: seq<(Tid, Action)>)
    requires IsRun(cap, run) && After(cap, run).mux == None
    ensures var s := After(cap, run);
      && s.sem + |Passed(s)| == |s.q|
      && s.free + |s.q| == cap
      && s.q == Run(cap, s.ops).q
  {
    RunInv(cap, run);
  }

  /** Two threads are never inside the queue, or inside the broker, at once. */
  lemma MutualExclusion(cap: nat, run: seq<(Tid, Action)>, t: Tid, u: Tid)
    requires IsRun(cap, run)
    ensures var s := After(cap, run);
      && (HoldsQueue(PcOf(s, t)) && HoldsQueue(PcOf(s, u)) ==> t == u)
      && (HoldsGlobal(PcOf(s, t)) && HoldsGlobal(PcOf(s, u)) ==> t == u)
  {
    RunInv(cap, run);
  }

  ghost predicate CanMove(s: State, t: Tid) {
    exists a :: Enabled(s, t, a)
  }

  lemma Moves(s: State, t: Tid, a: Action)
    requires Enabled(s, t, a)
    ensures CanMove(s, t)
  {
    hide Enabled;
  }

  /** The step a thread in the middle of a call takes next, its locks permitting. */
  function NextAction(c: Pc): Action
    requires c != Idle
  {
    match c
    case Publishing => UnlockGlobal
    case PushCalled(_) => LockForPush
    case PushLocked(_) => TakeNode
    case PushNode(_, _) => InsertNode
    case PushStored(_) => Post
    case PushPosted(_) => UnlockPush
    case PushReturned(_) => AfterPush
    case FirePending => Fire
    case CallbackSet => CheckCallback
    case Waited => LockForPull
    case PullLocked => Dequeue
    case PullGot(_) => UnlockPull
    case OverflowRead(_) => SubtractOverflow
  }

  lemma MovesUnlessBlocked(s: State, t: Tid)
    requires PcOf(s, t) != Idle && ((PcOf(s, t).PushCalled? || PcOf(s, t) == Waited) ==> s.mux == None)
    ensures CanMove(s, t)
  {
    assert Enabled(s, t, NextAction(PcOf(s, t)));
    hide Enabled, NextAction;
  }

  lemma IdleCan(s: State, t: Tid)
    ensures PcOf(s, t) == Idle ==>
      (s.sem > 0 ==> Enabled(s, t, Wait)) && (s.global == None ==> Enabled(s, t, LockGlobal))
  {
  }

  /**
   * Nobody is ever stuck: a thread in the middle of a call can go on, unless it waits for
   * the queue mutex, and then its holder, another thread, can.  Between calls a thread can
   * take a message whenever the semaphore is positive, and enter the broker when nobody is in it.
   */
  lemma NoDeadlock(cap: nat, run: seq<(Tid, Action)>, t: Tid)
    requires IsRun(cap, run)
    ensures var s := After(cap, run); var c := PcOf(s, t);
      && (c != Idle && !CanMove(s, t) ==>
            (c.PushCalled? || c == Waited) && s.mux.Some? && s.mux.value != t && CanMove(s, s.mux.value))
      && (c == Idle && s.sem > 0 ==> Enabled(s, t, Wait))
      && (c == Idle && (forall u: Tid :: !HoldsGlobal(PcOf(s, u))) ==> Enabled(s, t, LockGlobal))
  {
    hide CanMove, Enabled, Do, Nodes, Semaphore, WakeUps, Losses, NoNullPull, Traffic, NextAction;
    RunInv(cap, run);
    var s := After(cap, run);
    IdleCan(s, t);
    if PcOf(s, t) != Idle && !CanMove(s, t) {
      if !(PcOf(s, t).PushCalled? || PcOf(s, t) == Waited) || s.mux == None {
        MovesUnlessBlocked(s, t);
      } else {
        assert HoldsQueue(PcOf(s, s.mux.value));
        MovesUnlessBlocked(s, s.mux.value);
      }
    }
    if s.global.Some? {
      assert HoldsGlobal(PcOf(s, s.global.value));
    }
  }

  /**
   * With a callback installed, whenever the semaphore is positive and no publisher is
   * between its post and its check, the callback has run since the semaphore was last zero.
   */
  lemma NoLostWakeUp(cap: nat, run: seq<(Tid, Action)>)
    requires IsRun(cap, run)
    ensures var s := After(cap, run);
      s.callback && s.sem > 0 && (forall t: Tid :: !Alerting(PcOf(s, t))) ==> s.fired
  {
    RunInv(cap, run);
  }

  /**
   * Messages a publisher has called a push for that are neither received, waiting, nor
   * counted as lost: those of the push in progress, by its program counter.
   */
  function Unsettled(c: Pc): nat {
    match c
    case PushCalled(_) => 1
    case PushLocked(_) => 1
    case PushNode(_, code) => if code == Overflow then 2 else 1
    case PushStored(code) => B2N(code != Ok)
    case PushPosted(code) => B2N(code != Ok)
    case PushReturned(code) => B2N(code != Ok)
    case _ => 0
  }

  /**
   * At every moment of every run, with any number of ps_overflow callers: everything sent
   * was received, still waits, was counted as lost and reported, is counted and not yet
   * reported, or belongs to the push in progress.
   */
  lemma LossesAreAccounted(cap: nat, run: seq<(Tid, Action)>)
    requires IsRun(cap, run)
    ensures var s := After(cap, run);
      |s.sent| == |s.got| + |s.q| + s.overflow + s.returned + Unsettled(Holder(s, s.global))
  {
    RunInv(cap, run);
    var s := After(cap, run);
    var h := Run(cap, s.ops);
    RunConserves(cap, s.ops);
    assert |h.pushed| == |multiset(h.pushed)| == |multiset(h.pulled) + multiset(h.q) + multiset(h.lost)|;
    SettledBy(s);
  }

  /** Node in hand or not, the queue and the push in progress make up what the replay holds. */
  lemma SettledBy(s: State)
    requires Locks(s) && Nodes(s)
    ensures var h, c := Run(s.cap, s.ops), Holder(s, s.global);
      |InFlight(c)| + B2N(LossPending(c)) + |h.q| == |s.q| + Unsettled(c)
  {
    hide Run;
    if s.global.Some? {
      var t := s.global.value;
      assert HoldsGlobal(PcOf(s, t));
      if PcOf(s, t).PushNode? {
        assert s.mux == Some(t);
      }
    }
    if s.mux.Some? && PcOf(s, s.mux.value).PushNode? {
      assert HoldsGlobal(PcOf(s, s.mux.value));
    }
  }

  // ----- first in, first out -----

  lemma {:induction false} OfPriorityTake(q: seq<Entry>, n: nat, p: nat)
    requires n <= |q|
    ensures OfPriority(q[..n], p) <= OfPriority(q, p)
  {
    OfPriorityConcat(q[..n], q[n..], p);
    assert q[..n] + q[n..] == q;
  }

  /** A subsequence of a list is one of every longer list. */
  lemma SubsequenceGrows(a: seq<Entry>, b: seq<Entry>, c: seq<Entry>)
    requires Subsequence(a, b)
    ensures Subsequence(a, b + c)
  {
    var f :| Embeds(a, b, f);
    assert Embeds(a, b + c, f);
  }

  lemma {:induction false} SubsequenceShrinks(a: seq<Entry>, b: seq<Entry>, n: nat)
    requires n <= |a| && Subsequence(a, b)
    ensures Subsequence(a[..n], b)
  {
    var f :| Embeds(a, b, f);
    assert Embeds(a[..n], b, f[..n]);
  }

  /** What waits is what the replay holds, or that without its last entry. */
  lemma WaitingIsPrefix(s: State)
    requires Nodes(s)
    ensures s.q <= Run(s.cap, s.ops).q
  {
    hide Run;
  }

  /**
   * At every moment of every interleaving: what pullers received at one priority, in the
   * order they dequeued it, followed by what waits at that priority, is a subsequence of
   * what publishers pushed at it, in the order of their calls.
   */
  lemma InterleavingsAreFifo(cap: nat, run: seq<(Tid, Action)>, p: nat)
    requires IsRun(cap, run)
    ensures var s := After(cap, run);
      Subsequence(OfPriority(s.got, p) + OfPriority(s.q, p), OfPriority(s.sent, p))
  {
    hide Subsequence, Nodes, Locks, Semaphore, WakeUps, Losses, NoNullPull, Run, OfPriority;
    RunInv(cap, run);
    var s := After(cap, run);
    var h := Run(cap, s.ops);
    RunIsFifoPerPriority(cap, s.ops, p);
    WaitingIsPrefix(s);
    assert h.q[..|s.q|] == s.q;
    OfPriorityTake(h.q, |s.q|, p);
    var all, n := OfPriority(h.pulled, p) + OfPriority(h.q, p), |OfPriority(h.pulled, p)| + |OfPriority(s.q, p)|;
    SubsequenceShrinks(all, OfPriority(h.pushed, p), n);
    assert all[..n] == OfPriority(s.got, p) + OfPriority(s.q, p);
    OfPriorityConcat(h.pushed, InFlight(Holder(s, s.global)), p);
    SubsequenceGrows(all[..n], OfPriority(h.pushed, p), OfPriority(InFlight(Holder(s, s.global)), p));
  }

  // ----- the overflow counter itself -----

  /** Every ps_overflow that has read and not yet subtracted has read zero. */
  ghost predicate ZeroPending(s: State) {
    forall t: Tid :: PcOf(s, t).OverflowRead? ==> PcOf(s, t).n == 0
  }

  /** No ps_overflow reads the counter while another one holds a nonzero reading. */
  ghost predicate CalmReads(cap: nat, run: seq<(Tid, Action)>)
    requires IsRun(cap, run)
  {
    run == [] ||
    (CalmReads(cap, run[..|run| - 1]) &&
     (run[|run| - 1].1 == ReadOverflow ==> ZeroPending(After(cap, run[..|run| - 1]))))
  }

  ghost predicate CounterOk(s: State) {
    && 0 <= s.overflow && 0 <= s.returned
    && (forall t: Tid :: PcOf(s, t).OverflowRead? ==> 0 <= PcOf(s, t).n <= s.overflow)
    && (forall t: Tid, u: Tid ::
          PcOf(s, t).OverflowRead? && PcOf(s, u).OverflowRead? && PcOf(s, t).n > 0 && PcOf(s, u).n > 0 ==> t == u)
  }

  lemma CounterStep(s: State, t: Tid, a: Action)
    requires CounterOk(s) && Enabled(s, t, a)
    requires a == ReadOverflow ==> ZeroPending(s)
    ensures CounterOk(Do(s, t, a))
  {
    CounterMoves(s, t, a);
    StepMoves(s, t, a);
    hide Do, Enabled;
    var s' := Do(s, t, a);
    assert forall u: Tid :: u != t ==> PcOf(s', u) == PcOf(s, u);
  }

  lemma CounterMoves(s: State, t: Tid, a: Action)
    requires Enabled(s, t, a)
    ensures var s' := Do(s, t, a); var c, c' := PcOf(s, t), PcOf(s', t);
      && (c.OverflowRead? <==> a == SubtractOverflow)
      && (c'.OverflowRead? <==> a == ReadOverflow) && (a == ReadOverflow ==> c'.n == s.overflow)
      && s'.overflow == s.overflow + B2N(a == AfterPush && c.code != Ok) - (if c.OverflowRead? then c.n else 0)
      && s'.returned == s.returned + (if c.OverflowRead? then c.n else 0)
  {
    hide Insert, NextMux, NextGlobal, NodeFor;
  }

  /** While reads are calm, the counter and every pending reading stay in range. */
  lemma {:induction false} CalmCounterInRange(cap: nat, run: seq<(Tid, Action)>)
    requires IsRun(cap, run) && CalmReads(cap, run)
    ensures CounterOk(After(cap, run))
  {
    if run != [] {
      var init, last := run[..|run| - 1], run[|run| - 1];
      CalmCounterInRange(cap, init);
      CounterStep(After(cap, init), last.0, last.1);
    }
  }

  predicate OnlySubtracts(fin: seq<(Tid, Action)>) {
    forall i :: 0 <= i < |fin| ==> fin[i].1 == SubtractOverflow
  }

  /** `fin` lets pending ps_overflow calls finish after the first `k` steps of `run`. */
  ghost predicate Finishes(cap: nat, run: seq<(Tid, Action)>, k: nat, fin: seq<(Tid, Action)>) {
    && k <= |run| && IsRun(cap, run[..k] + fin)
    && OnlySubtracts(fin)
  }

  /**
   * The counter never wraps, at any point of a run and however the pending calls then
   * finish, if and only if no call read it while another one held a nonzero reading.
   */
  lemma CounterNeverWrapsIff(cap: nat, run: seq<(Tid, Action)>)
    requires IsRun(cap, run)
    ensures CalmReads(cap, run) <==>
      forall k: nat, fin :: Finishes(cap, run, k, fin) ==> After(cap, run[..k] + fin).overflow >= 0
  {
    if CalmReads(cap, run) {
      forall k: nat, fin | Finishes(cap, run, k, fin) ensures After(cap, run[..k] + fin).overflow >= 0 {
        CalmPrefix(cap, run, k);
        CalmFinish(cap, run[..k], fin);
        CalmCounterInRange(cap, run[..k] + fin);
      }
    } else {
      var k, fin := HastyReadWraps(cap, run);
    }
  }

  lemma {:induction false} PrefixIsRun(cap: nat, run: seq<(Tid, Action)>, k: nat)
    requires IsRun(cap, run) && k <= |run|
    ensures IsRun(cap, run[..k])
    decreases |run|
  {
    if k < |run| {
      PrefixIsRun(cap, run[..|run| - 1], k);
      assert run[..|run| - 1][..k] == run[..k];
    } else {
      assert run[..k] == run;
    }
  }

  lemma {:induction false} CalmPrefix(cap: nat, run: seq<(Tid, Action)>, k: nat)
    requires IsRun(cap, run) && CalmReads(cap, run) && k <= |run|
    ensures IsRun(cap, run[..k]) && CalmReads(cap, run[..k])
    decreases |run|
  {
    if k < |run| {
      CalmPrefix(cap, run[..|run| - 1], k);
      assert run[..|run| - 1][..k] == run[..k];
    } else {
      assert run[..k] == run;
    }
  }

  lemma {:induction false} CalmFinish(cap: nat, run: seq<(Tid, Action)>, fin: seq<(Tid, Action)>)
    requires IsRun(cap, run) && CalmReads(cap, run) && IsRun(cap, run + fin)
    requires OnlySubtracts(fin)
    ensures CalmReads(cap, run + fin)
    decreases |fin|
  {
    hide Enabled, Do, ZeroPending;
    if fin == [] {
      assert run + fin == run;
    } else {
      ButLast(run, fin);
      CalmFinish(cap, run, fin[..|fin| - 1]);
    }
  }

  lemma ButLast<A>(a: seq<A>, b: seq<A>)
    requires b != []
    ensures (a + b)[..|a + b| - 1] == a + b[..|b| - 1] && (a + b)[|a + b| - 1] == b[|b| - 1]
  {
  }

  /** After the first read over a nonzero reading, letting both calls finish ends below zero. */
  lemma {:induction false} HastyReadWraps(cap: nat, run: seq<(Tid, Action)>) returns (k: nat, fin: seq<(Tid, Action)>)
    requires IsRun(cap, run) && !CalmReads(cap, run)
    ensures Finishes(cap, run, k, fin) && After(cap, run[..k] + fin).overflow < 0
    decreases |run|
  {
    hide Do, Enabled, CounterOk;
    var init, u := run[..|run| - 1], run[|run| - 1].0;
    if !CalmReads(cap, init) {
      k, fin := HastyReadWraps(cap, init);
      assert run[..k] == init[..k];
    } else {
      var s := After(cap, init);
      var t: Tid :| PcOf(s, t).OverflowRead? && PcOf(s, t).n != 0;
      CalmCounterInRange(cap, init);
      ReadKeepsPending(s, t, u);
      k := |run|;
      assert run[..k] == run;
      fin := FinishBoth(cap, run, t, u, PcOf(s, t).n);
    }
  }

  /** A read leaves another call's reading alone and holds the whole counter afterwards. */
  lemma ReadKeepsPending(s: State, t: Tid, u: Tid)
    requires CounterOk(s) && Enabled(s, u, ReadOverflow) && PcOf(s, t).OverflowRead? && PcOf(s, t).n != 0
    ensures var s' := Do(s, u, ReadOverflow);
      t != u && PcOf(s', t) == PcOf(s, t) && PcOf(s', u) == OverflowRead(s'.overflow)
    ensures PcOf(s, t).n > 0
  {
  }

  /** Two pending calls, the later of which read the whole counter: finishing both leaves minus the other reading. */
  lemma FinishBoth(cap: nat, run: seq<(Tid, Action)>, t: Tid, u: Tid, n: int) returns (fin: seq<(Tid, Action)>)
    requires IsRun(cap, run) && t != u
    requires var s := After(cap, run); PcOf(s, t) == OverflowRead(n) && PcOf(s, u) == OverflowRead(s.overflow)
    ensures fin == [(t, SubtractOverflow), (u, SubtractOverflow)]
    ensures IsRun(cap, run + fin) && After(cap, run + fin).overflow == -n
  {
    hide IsRun, After;
    var one := Extend(cap, run, t, SubtractOverflow);
    var two := Extend(cap, one, u, SubtractOverflow);
    fin := [(t, SubtractOverflow), (u, SubtractOverflow)];
    assert two == run + fin;
  }

  /** At most one thread is between the two atomic operations of ps_overflow at any time. */
  ghost predicate SoloOverflow(cap: nat, run: seq<(Tid, Action)>)
    requires IsRun(cap, run)
  {
    run == [] ||
    (SoloOverflow(cap, run[..|run| - 1]) &&
     (run[|run| - 1].1 == ReadOverflow ==>
        NobodyReading(After(cap, run[..|run| - 1]))))
  }

  ghost predicate NobodyReading(s: State) {
    forall t: Tid :: !PcOf(s, t).OverflowRead?
  }

  /** One caller at a time is calm, so it never sees the counter wrap. */
  lemma {:induction false} SoloCounterNeverNegative(cap: nat, run: seq<(Tid, Action)>)
    requires IsRun(cap, run) && SoloOverflow(cap, run)
    ensures CalmReads(cap, run) && CounterOk(After(cap, run))
  {
    if run != [] {
      SoloCounterNeverNegative(cap, run[..|run| - 1]);
    }
    CalmCounterInRange(cap, run);
  }

  /** Two overlapping callers can both take the same count, and the counter wraps. */
  lemma OverlappingCallersWrap()
    ensures exists run :: IsRun(0, run) && After(0, run).overflow == -1
  {
    hide IsRun, After;
    var run := OneLoss();
    run := Extend(0, run, 1, ReadOverflow);
    run := Extend(0, run, 2, ReadOverflow);
    run := Extend(0, run, 1, SubtractOverflow);
    run := Extend(0, run, 2, SubtractOverflow);
  }

  lemma OneLoss() returns (run: seq<(Tid, Action)>)
    ensures IsRun(0, run)
    ensures var s := After(0, run); s.overflow == 1 && s.pc == map[0 := Publishing]
  {
    hide IsRun, After;
    run := OneCall();
    run := Extend(0, run, 0, TakeNode);
    run := Extend(0, run, 0, UnlockPush);
    run := Extend(0, run, 0, AfterPush);
  }

  lemma OneCall() returns (run: seq<(Tid, Action)>)
    ensures IsRun(0, run)
    ensures var s := After(0, run);
      s.overflow == 0 && s.free == 0 && s.q == [] && s.pc == map[0 := PushLocked(Entry(0, 7))]
  {
    run := [];
    assert IsRun(0, run) && After(0, run) == Init(0);
    hide IsRun, After;
    run := Extend(0, run, 0, LockGlobal);
    run := Extend(0, run, 0, CallPush(Entry(0, 7)));
    run := Extend(0, run, 0, LockForPush);
  }

  lemma Extend(cap: nat, run: seq<(Tid, Action)>, t: Tid, a: Action) returns (r: seq<(Tid, Action)>)
    requires IsRun(cap, run) && Enabled(After(cap, run), t, a)
    ensures r == run + [(t, a)] && IsRun(cap, r) && After(cap, r) == Do(After(cap, run), t, a)
  {
    r := run + [(t, a)];
    assert r[..|run|] == run;
  }
}
