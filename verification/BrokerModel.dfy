/**
 * The broker of pubsub.c as a state and its operations: what every call computes.
 * Module Brokers implements the calls step by step and is proved to do the same.
 */
module BrokerModel {
  import opened Options
  import opened PriorityLists
  import opened Registry
  import opened Topics
  import M = Messages

  /** ps_subscriber_s; a freed one stays as a dead record, so identities are never reused. */
  datatype Subscriber = Subscriber(alive: bool, cap: nat, q: seq<Entry>, subs: seq<string>, overflow: nat)

  /** What happened, in order; a history variable. */
  datatype Event =
    | Attempt(su: nat, msg: nat, prio: nat, code: Code)   // push_subscriber_queue
    | Taken(su: nat, msg: nat)                            // pulled by the caller or flushed
    | Reported(su: nat, n: nat)                           // ps_overflow returned n
    | Published(topic: string, msg: nat, sticky: bool)
    | Cleaned(prefix: string)

  /** `handles` are the message references callers hold. */
  datatype State = State(
    topics: seq<Topic>, sus: seq<Subscriber>, liveSus: int, store: M.Store,
    handles: multiset<nat>, log: seq<Event>)

  const INIT := State([], [], 0, M.NO_MESSAGES, multiset{}, [])

  function At(s: State, name: string): seq<Subscription> { SubscribersAt(s.topics, name) }

  function Log(s: State, e: Event): State { s.(log := s.log + [e]) }

  // ----- messages -----

  function NewMsg(s: State, topic: string, sticky: bool, nonRecursive: bool): (State, nat) {
    (s.(store := M.New(s.store, topic, sticky, nonRecursive),
        handles := s.handles + multiset{s.store.next}), s.store.next)
  }

  function RefMsg(s: State, m: nat): State {
    s.(store := M.Ref(s.store, m), handles := s.handles + multiset{m})
  }

  function UnrefMsg(s: State, m: nat): State {
    s.(store := M.Unref(s.store, m), handles := s.handles - multiset{m})
  }

  function UnrefAll(h: M.Store, ms: seq<nat>): M.Store
    decreases |ms|
  {
    if ms == [] then h else UnrefAll(M.Unref(h, ms[0]), ms[1..])
  }

  // ----- delivery -----

  /** push_subscriber_queue: take a reference, push, drop the reference the queue lost. */
  function PushTo(s: State, su: nat, m: nat, prio: nat): (r: State)
    requires su < |s.sus|
    ensures |r.sus| == |s.sus| && r.topics == s.topics
  {
    var x := s.sus[su];
    var r := Push(x.q, x.cap, Entry(prio, m));
    var h := M.Ref(s.store, m);
    s.(sus := s.sus[su := x.(q := r.q, overflow := x.overflow + if r.code == Ok then 0 else 1)],
       store := if r.lost == [] then h else M.Unref(h, r.lost[0].msg),
       log := s.log + [Attempt(su, m, prio, r.code)])
  }

  function PushCode(s: State, su: nat, m: nat, prio: nat): Code
    requires su < |s.sus|
  {
    Push(s.sus[su].q, s.sus[su].cap, Entry(prio, m)).code
  }

  predicate InRange(l: seq<Subscription>, n: nat) {
    forall i :: 0 <= i < |l| ==> l[i].su < n && l[i].prio < PRIORITIES
  }

  predicate Skipped(s: State, x: Subscription)
    requires x.su < |s.sus|
  {
    x.onEmpty && s.sus[x.su].q != []
  }

  /** The delivery loop of ps_publish over a list of subscriptions, with the count it adds. */
  function Deliver(s: State, m: nat, l: seq<Subscription>): (r: (State, nat))
    requires InRange(l, |s.sus|)
    ensures |r.0.sus| == |s.sus| && r.0.topics == s.topics
    decreases |l|
  {
    if l == [] then (s, 0)
    else if Skipped(s, l[0]) then Deliver(s, m, l[1..])
    else
      var r := Deliver(PushTo(s, l[0].su, m, l[0].prio), m, l[1..]);
      (r.0, r.1 + if PushCode(s, l[0].su, m, l[0].prio) == Ok && !l[0].hidden then 1 else 0)
  }

  /** The sticky rule at the head of ps_publish, for the exact topic `t`. */
  function UpdateSticky(s: State, t: string, m: nat, sticky: bool): State {
    var was := StickyAt(s.topics, t);
    var h := if was.Some? then M.Unref(s.store, was.value) else s.store;
    Log(s, Published(t, m, sticky)).(
      topics := if sticky then Put(s.topics, Topic(t, At(s, t), Some(m)))
                else if was.Some? then Put(s.topics, Topic(t, At(s, t), None)) else s.topics,
      store := if sticky then M.Ref(h, m) else h)
  }

  /** All subscriptions a publish of `m` meets, once its sticky rule was applied. */
  function MetBy(s: State, m: nat): seq<Subscription>
    requires m in s.store.msgs
  {
    var msg := s.store.msgs[m];
    Targets(UpdateSticky(s, StripFlags(msg.topic), m, msg.sticky).topics, StripFlags(msg.topic), !msg.nonRecursive)
  }

  /** ps_publish: consumes the caller's reference. */
  function Publish(s: State, m: nat): (State, nat)
    requires m in s.store.msgs && InRange(MetBy(s, m), |s.sus|)
  {
    var msg := s.store.msgs[m];
    var s1 := UpdateSticky(s.(handles := s.handles - multiset{m}), StripFlags(msg.topic), m, msg.sticky);
    var r := Deliver(s1, m, MetBy(s, m));
    (r.0.(store := M.Unref(r.0.store, m)), r.1)
  }

  // ----- subscriptions -----

  /** push_child_sticky: one push per sticky, in topic creation order. */
  function PushStickies(s: State, su: nat, ms: seq<nat>, prio: nat): (r: State)
    requires su < |s.sus|
    ensures |r.sus| == |s.sus| && r.topics == s.topics
    decreases |ms|
  {
    if ms == [] then s else PushStickies(PushTo(s, su, ms[0], prio), su, ms[1..], prio)
  }

  /** The sticky messages a new subscription to `t` is offered. */
  function Offered(ts: seq<Topic>, t: string, f: SubFlags): seq<nat> {
    if f.noSticky then []
    else if f.childSticky then StickiesUnder(ts, t)
    else match StickyAt(ts, t) case Some(m) => [m] case None => []
  }

  /** Records the subscription in both lists. */
  function Enrol(s: State, su: nat, t: string, f: SubFlags): (r: State)
    requires su < |s.sus|
    ensures |r.sus| == |s.sus|
  {
    var x := Subscription(su, f.hidden, f.onEmpty, f.priority);
    s.(topics := Put(s.topics, Topic(t, At(s, t) + [x], StickyAt(s.topics, t))),
       sus := s.sus[su := s.sus[su].(subs := s.sus[su].subs + [t])])
  }

  /** ps_subscribe_flags: -1 when already subscribed. */
  function Subscribe(s: State, su: nat, orig: string, base: SubFlags): (State, int)
    requires su < |s.sus|
  {
    var t, f := StripFlags(orig), ParseFlags(FlagPart(orig), base);
    if Subscribed(At(s, t), su) then (s, -1)
    else
      var s1 := Enrol(s, su, t, f);
      (PushStickies(s1, su, Offered(s1.topics, t, f), f.priority), 0)
  }

  function RemoveName(l: seq<string>, t: string): seq<string> {
    if l == [] then [] else if l[0] == t then l[1..] else [l[0]] + RemoveName(l[1..], t)
  }

  /** The topic list after `su` left topic `t`. */
  function Leave(ts: seq<Topic>, su: nat, t: string): seq<Topic> {
    if Subscribed(SubscribersAt(ts, t), su) then
      Put(ts, Topic(t, Without(SubscribersAt(ts, t), su), StickyAt(ts, t)))
    else ts
  }

  /** ps_unsubscribe: -1 when not subscribed. */
  function Unsubscribe(s: State, su: nat, orig: string): (State, int)
    requires su < |s.sus|
  {
    var t := StripFlags(orig);
    if !Subscribed(At(s, t), su) then (s, -1)
    else
      (s.(topics := Leave(s.topics, su, t),
          sus := s.sus[su := s.sus[su].(subs := RemoveName(s.sus[su].subs, t))]), 0)
  }

  function LeaveAll(ts: seq<Topic>, su: nat, names: seq<string>): seq<Topic>
    decreases |names|
  {
    if names == [] then ts else LeaveAll(Leave(ts, su, names[0]), su, names[1..])
  }

  /** ps_unsubscribe_all. */
  function UnsubscribeAll(s: State, su: nat): (State, nat)
    requires su < |s.sus|
  {
    var x := s.sus[su];
    (s.(topics := LeaveAll(s.topics, su, x.subs), sus := s.sus[su := x.(subs := [])]), |x.subs|)
  }

  // ----- subscribers -----

  /** ps_new_subscriber without initial topics. */
  function NewSubscriber(s: State, cap: nat): (State, nat) {
    (s.(sus := s.sus + [Subscriber(true, cap, [], [], 0)], liveSus := s.liveSus + 1), |s.sus|)
  }

  /** ps_get with no concurrent caller: the caller receives the queue's reference. */
  function Get(s: State, su: nat): (State, Option<nat>)
    requires su < |s.sus|
  {
    var x := s.sus[su];
    if x.q == [] then (s, None)
    else
      (Log(s, Taken(su, x.q[0].msg)).(sus := s.sus[su := x.(q := x.q[1..])],
                                      handles := s.handles + multiset{x.q[0].msg}),
       Some(x.q[0].msg))
  }

  /** ps_flush. */
  function Flush(s: State, su: nat): (r: (State, nat))
    requires su < |s.sus|
    ensures |r.0.sus| == |s.sus|
    decreases |s.sus[su].q|
  {
    if s.sus[su].q == [] then (s, 0)
    else
      var g := Get(s, su);
      var r := Flush(UnrefMsg(g.0, g.1.value), su);
      (r.0, r.1 + 1)
  }

  /** ps_free_subscriber. */
  function FreeSubscriber(s: State, su: nat): State
    requires su < |s.sus|
  {
    var s1 := Flush(UnsubscribeAll(s, su).0, su).0;
    s1.(sus := s1.sus[su := s1.sus[su].(alive := false)], liveSus := s1.liveSus - 1)
  }

  /** ps_overflow with one caller: returns the counter and resets it. */
  function TakeOverflow(s: State, su: nat): (State, nat)
    requires su < |s.sus|
  {
    var n := s.sus[su].overflow;
    (Log(s, Reported(su, n)).(sus := s.sus[su := s.sus[su].(overflow := 0)]), n)
  }

  /** ps_clean_sticky. */
  function CleanSticky(s: State, prefix: string): State {
    Log(s, Cleaned(prefix)).(topics := Clean(s.topics, prefix),
                             store := UnrefAll(s.store, StickiesUnder(s.topics, prefix)))
  }

  function Visible(l: seq<Subscription>): nat {
    if l == [] then 0 else (if l[0].hidden then 0 else 1) + Visible(l[1..])
  }

  /** ps_subs_count: the root is not counted. */
  function SubsCount(ts: seq<Topic>, t: string): nat
    decreases |t|
  {
    if t == "" then 0 else Visible(SubscribersAt(ts, t)) + SubsCount(ts, Parent(t))
  }
}
