/**
 * The topic map of pubsub.c as the list of its topics in creation order, which is
 * the application order of the hash index (module HashIndexes); a topic's
 * identity is its name.
 */
module Registry {
  import opened Options
  import opened Topics

  /** subscriber_list_t. */
  datatype Subscription = Subscription(su: nat, hidden: bool, onEmpty: bool, prio: nat)

  /** topic_map_t. */
  datatype Topic = Topic(name: string, subscribers: seq<Subscription>, sticky: Option<nat>)

  predicate Unused(t: Topic) {
    t.subscribers == [] && t.sticky == None
  }

  /** fetch_topic: position of the topic, or the length when there is none. */
  function Find(ts: seq<Topic>, name: string): (i: nat)
    ensures i <= |ts|
    ensures i < |ts| ==> ts[i].name == name
    ensures forall j :: 0 <= j < i ==> ts[j].name != name
  {
    if ts == [] || ts[0].name == name then 0 else 1 + Find(ts[1..], name)
  }

  function SubscribersAt(ts: seq<Topic>, name: string): seq<Subscription> {
    var i := Find(ts, name);
    if i < |ts| then ts[i].subscribers else []
  }

  function StickyAt(ts: seq<Topic>, name: string): Option<nat> {
    var i := Find(ts, name);
    if i < |ts| then ts[i].sticky else None
  }

  function RemoveAt<A>(s: seq<A>, i: nat): seq<A>
    requires i < |s|
  {
    s[..i] + s[i + 1..]
  }

  /**
   * Gives a topic new contents: an absent topic is created at the end, an existing one is
   * updated in place, and a topic left with neither subscribers nor sticky is freed.
   */
  function Put(ts: seq<Topic>, t: Topic): seq<Topic> {
    var i := Find(ts, t.name);
    if i < |ts| then
      if Unused(t) then RemoveAt(ts, i) else ts[i := t]
    else if Unused(t) then ts else ts + [t]
  }

  /** Names are unique and space-free, and no topic is unused. */
  ghost predicate TopicsOk(ts: seq<Topic>) {
    && (forall i, j :: 0 <= i < j < |ts| ==> ts[i].name != ts[j].name)
    && (forall i :: 0 <= i < |ts| ==> ' ' !in ts[i].name && !Unused(ts[i]))
  }

  lemma FindUnique(ts: seq<Topic>, name: string, i: nat)
    requires i < |ts| && ts[i].name == name
    requires forall i, j :: 0 <= i < j < |ts| ==> ts[i].name != ts[j].name
    ensures Find(ts, name) == i
  {
    var k := Find(ts, name);
  }

  lemma PutKeepsTopicsOk(ts: seq<Topic>, t: Topic)
    requires TopicsOk(ts) && ' ' !in t.name
    ensures TopicsOk(Put(ts, t))
  {
    hide Find;
    var i := Find(ts, t.name);
    var r := Put(ts, t);
    if i < |ts| && Unused(t) {
      assert forall k :: 0 <= k < |r| ==> r[k] == ts[if k < i then k else k + 1];
    }
  }

  /** A put changes what is found at its own name and nowhere else. */
  lemma PutLookup(ts: seq<Topic>, t: Topic, name: string)
    requires TopicsOk(ts)
    ensures SubscribersAt(Put(ts, t), name) == if name == t.name then t.subscribers else SubscribersAt(ts, name)
    ensures StickyAt(Put(ts, t), name) == if name == t.name then t.sticky else StickyAt(ts, name)
  {
    hide Find;
    var i, r := Find(ts, t.name), Put(ts, t);
    var k, n := Find(r, name), Find(ts, name);
    if i < |ts| && Unused(t) {
      assert forall j :: 0 <= j < |r| ==> r[j] == ts[if j < i then j else j + 1];
      if name != t.name && n < |ts| {
        assert r[if n < i then n else n - 1] == ts[n];
      }
    } else if i < |ts| {
      assert name != t.name && n < |ts| ==> r[n] == ts[n];
      assert r[i] == t;
    } else if !Unused(t) {
      assert name != t.name && n < |ts| ==> r[n] == ts[n];
      assert r[|ts|] == t;
    }
  }

  // ----- subscribers of one topic -----

  /** DL_SEARCH_SCALAR by subscriber: the position, or the length when there is none. */
  function IndexOf(l: seq<Subscription>, su: nat): (i: nat)
    ensures i <= |l|
    ensures i < |l| ==> l[i].su == su
    ensures forall j :: 0 <= j < i ==> l[j].su != su
  {
    if l == [] || l[0].su == su then 0 else 1 + IndexOf(l[1..], su)
  }

  predicate Subscribed(l: seq<Subscription>, su: nat) {
    IndexOf(l, su) < |l|
  }

  lemma SubscribedIff(l: seq<Subscription>, su: nat)
    ensures Subscribed(l, su) <==> exists i :: 0 <= i < |l| && l[i].su == su
  {
  }

  /** Every subscriber is in the list at most once. */
  ghost predicate Once(l: seq<Subscription>) {
    forall i, j :: 0 <= i < j < |l| ==> l[i].su != l[j].su
  }

  /** The list without a subscriber. */
  function Without(l: seq<Subscription>, su: nat): seq<Subscription> {
    var i := IndexOf(l, su);
    if i < |l| then RemoveAt(l, i) else l
  }

  lemma WithoutAt(l: seq<Subscription>, su: nat)
    requires Subscribed(l, su)
    ensures var i, r := IndexOf(l, su), Without(l, su);
      && |r| == |l| - 1
      && (forall k :: 0 <= k < |r| ==> r[k] == l[if k < i then k else k + 1])
  {
    hide IndexOf, RemoveAt;
    RemovedAt(l, IndexOf(l, su));
  }

  lemma RemovedAt<A>(s: seq<A>, i: nat)
    requires i < |s|
    ensures |RemoveAt(s, i)| == |s| - 1
    ensures forall k :: 0 <= k < |s| - 1 ==> RemoveAt(s, i)[k] == s[if k < i then k else k + 1]
  {
  }

  lemma WithoutOnce(l: seq<Subscription>, su: nat)
    requires Once(l)
    ensures Once(Without(l, su))
  {
    hide IndexOf;
    if Subscribed(l, su) {
      WithoutAt(l, su);
    }
  }

  lemma WithoutMember(l: seq<Subscription>, su: nat, x: Subscription)
    requires Once(l)
    ensures x in Without(l, su) <==> x in l && x.su != su
  {
    hide IndexOf, Without;
    if Subscribed(l, su) {
      WithoutAt(l, su);
      var i, r := IndexOf(l, su), Without(l, su);
      if x in l && x.su != su {
        var k :| 0 <= k < |l| && l[k] == x;
        assert x == r[if k < i then k else k - 1];
      }
    } else {
      NotThere(l, su);
    }
  }

  lemma NotThere(l: seq<Subscription>, su: nat)
    requires !Subscribed(l, su)
    ensures Without(l, su) == l && forall x :: x in l ==> x.su != su
  {
    hide IndexOf;
  }

  lemma SubscribedMember(l: seq<Subscription>, u: nat)
    ensures Subscribed(l, u) <==> exists x :: x in l && x.su == u
  {
    hide IndexOf;
    if Subscribed(l, u) {
      assert l[IndexOf(l, u)] in l;
    }
  }

  lemma WithoutSays(l: seq<Subscription>, su: nat)
    requires Once(l)
    ensures Once(Without(l, su))
    ensures forall u :: Subscribed(Without(l, su), u) <==> u != su && Subscribed(l, u)
    ensures forall x :: x in Without(l, su) <==> x in l && x.su != su
  {
    hide IndexOf, Without, Once, Subscribed;
    WithoutOnce(l, su);
    forall x ensures x in Without(l, su) <==> x in l && x.su != su {
      WithoutMember(l, su, x);
    }
    forall u ensures Subscribed(Without(l, su), u) <==> u != su && Subscribed(l, u) {
      SubscribedMember(l, u);
      SubscribedMember(Without(l, su), u);
    }
  }

  lemma SnocSays(l: seq<Subscription>, x: Subscription)
    requires Once(l) && !Subscribed(l, x.su)
    ensures Once(l + [x])
    ensures forall u :: Subscribed(l + [x], u) <==> u == x.su || Subscribed(l, u)
  {
    hide IndexOf;
    var r := l + [x];
    assert r[|l|] == x;
    forall u ensures Subscribed(r, u) <==> u == x.su || Subscribed(l, u) {
      var k := IndexOf(l, u);
      assert k < |l| ==> r[k].su == u;
    }
  }

  // ----- references held by sticky slots -----

  function Held(o: Option<nat>): multiset<nat> {
    match o case None => multiset{} case Some(m) => multiset{m}
  }

  function StickyRefs(ts: seq<Topic>): multiset<nat> {
    if ts == [] then multiset{} else Held(ts[0].sticky) + StickyRefs(ts[1..])
  }

  lemma {:induction false} StickyRefsConcat(a: seq<Topic>, b: seq<Topic>)
    ensures StickyRefs(a + b) == StickyRefs(a) + StickyRefs(b)
  {
    if a == [] {
      assert a + b == b;
    } else {
      assert (a + b)[1..] == a[1..] + b;
      StickyRefsConcat(a[1..], b);
    }
  }

  lemma StickyRefsOne(t: Topic)
    ensures StickyRefs([t]) == Held(t.sticky)
  {
    assert [t][1..] == [];
  }

  /** A put exchanges the reference of the old sticky for that of the new one. */
  lemma StickyRefsPut(ts: seq<Topic>, t: Topic)
    ensures StickyRefs(Put(ts, t)) + Held(StickyAt(ts, t.name)) == StickyRefs(ts) + Held(t.sticky)
  {
    hide Find, StickyRefs;
    var i := Find(ts, t.name);
    StickyRefsOne(t);
    if i < |ts| {
      var a, b := ts[..i], ts[i + 1..];
      assert ts == a + [ts[i]] + b;
      StickyRefsOne(ts[i]);
      StickyRefsConcat(a + [ts[i]], b);
      StickyRefsConcat(a, [ts[i]]);
      if Unused(t) {
        StickyRefsConcat(a, b);
      } else {
        assert ts[i := t] == a + [t] + b;
        StickyRefsConcat(a + [t], b);
        StickyRefsConcat(a, [t]);
      }
    } else {
      StickyRefsConcat(ts, [t]);
    }
  }

  lemma {:induction false} HeldBySlot(ts: seq<Topic>, name: string)
    ensures Held(StickyAt(ts, name)) <= StickyRefs(ts)
  {
    if ts != [] && ts[0].name != name {
      HeldBySlot(ts[1..], name);
    }
  }

  // ----- ps_clean_sticky -----

  predicate HasSticky(t: Topic, prefix: string) {
    Covers(prefix, t.name) && t.sticky.Some?
  }

  /** One topic after ps_clean_sticky: untouched, unstuck, or freed. */
  function CleanOne(t: Topic, prefix: string): seq<Topic> {
    if !HasSticky(t, prefix) then [t]
    else if t.subscribers == [] then []
    else [t.(sticky := None)]
  }

  function Clean(ts: seq<Topic>, prefix: string): seq<Topic> {
    if ts == [] then [] else CleanOne(ts[0], prefix) + Clean(ts[1..], prefix)
  }

  /** The sticky messages of the topics a prefix covers, in topic order. */
  function StickiesUnder(ts: seq<Topic>, prefix: string): seq<nat> {
    if ts == [] then []
    else (if HasSticky(ts[0], prefix) then [ts[0].sticky.value] else []) + StickiesUnder(ts[1..], prefix)
  }

  lemma {:induction false} CleanRefs(ts: seq<Topic>, prefix: string)
    ensures StickyRefs(ts) == StickyRefs(Clean(ts, prefix)) + multiset(StickiesUnder(ts, prefix))
  {
    if ts != [] {
      CleanRefs(ts[1..], prefix);
      StickyRefsConcat(CleanOne(ts[0], prefix), Clean(ts[1..], prefix));
      StickyRefsOne(ts[0]);
      StickyRefsOne(ts[0].(sticky := None));
    }
  }

  lemma {:induction false} CleanNames(ts: seq<Topic>, prefix: string, name: string)
    requires forall i :: 0 <= i < |ts| ==> ts[i].name != name
    ensures forall i :: 0 <= i < |Clean(ts, prefix)| ==> Clean(ts, prefix)[i].name != name
  {
    if ts != [] {
      CleanNames(ts[1..], prefix, name);
    }
  }

  lemma {:induction false} CleanKeepsTopicsOk(ts: seq<Topic>, prefix: string)
    requires TopicsOk(ts)
    ensures TopicsOk(Clean(ts, prefix))
  {
    if ts != [] {
      CleanKeepsTopicsOk(ts[1..], prefix);
      CleanNames(ts[1..], prefix, ts[0].name);
    }
  }

  lemma FindAbsent(ts: seq<Topic>, name: string)
    requires forall i :: 0 <= i < |ts| ==> ts[i].name != name
    ensures SubscribersAt(ts, name) == [] && StickyAt(ts, name) == None
  {
  }

  lemma LookupCons(t: Topic, ts: seq<Topic>, name: string)
    ensures SubscribersAt([t] + ts, name) == if t.name == name then t.subscribers else SubscribersAt(ts, name)
    ensures StickyAt([t] + ts, name) == if t.name == name then t.sticky else StickyAt(ts, name)
  {
    assert ([t] + ts)[1..] == ts;
  }

  /** Cleaning unsticks exactly the topics the prefix covers and leaves every subscription. */
  lemma {:induction false} CleanLookup(ts: seq<Topic>, prefix: string, name: string)
    requires TopicsOk(ts)
    ensures SubscribersAt(Clean(ts, prefix), name) == SubscribersAt(ts, name)
    ensures StickyAt(Clean(ts, prefix), name) == if Covers(prefix, name) then None else StickyAt(ts, name)
  {
    hide SubscribersAt, StickyAt;
    if ts == [] {
      FindAbsent(ts, name);
    } else {
      var t, rest := ts[0], ts[1..];
      CleanLookup(rest, prefix, name);
      assert ts == [t] + rest;
      LookupCons(t, rest, name);
      CleanNames(rest, prefix, t.name);
      if t.name == name {
        FindAbsent(Clean(rest, prefix), name);
      }
      LookupCons(t, Clean(rest, prefix), name);
      LookupCons(t.(sticky := None), Clean(rest, prefix), name);
      assert [] + Clean(rest, prefix) == Clean(rest, prefix);
    }
  }

  // ----- who a publish is offered to -----

  /** The subscriptions met by the walk of ps_publish, in order. */
  function Targets(ts: seq<Topic>, t: string, recursive: bool): seq<Subscription>
    decreases |t|
  {
    SubscribersAt(ts, t) + if recursive && t != "" then Targets(ts, Parent(t), recursive) else []
  }

  /** The subscriptions found by scanning all topics with the prefix test. */
  function AtAncestors(ts: seq<Topic>, t: string): multiset<Subscription> {
    if ts == [] then multiset{}
    else (if Covers(ts[0].name, t) then multiset(ts[0].subscribers) else multiset{}) + AtAncestors(ts[1..], t)
  }

  lemma {:induction false} AncestorsStep(ts: seq<Topic>, t: string)
    requires TopicsOk(ts) && t != ""
    ensures AtAncestors(ts, t) == multiset(SubscribersAt(ts, t)) + AtAncestors(ts, Parent(t))
  {
    if ts == [] {
      FindAbsent(ts, t);
    } else {
      var h, rest := ts[0], ts[1..];
      AncestorsStep(rest, t);
      ParentCovers(h.name, t);
      assert ts == [h] + rest;
      LookupCons(h, rest, t);
      if h.name == t {
        FindAbsent(rest, t);
        assert Covers(t, t);
      }
    }
  }

  lemma {:induction false} AncestorsOfRoot(ts: seq<Topic>)
    requires TopicsOk(ts)
    ensures AtAncestors(ts, "") == multiset(SubscribersAt(ts, ""))
  {
    if ts == [] {
      FindAbsent(ts, "");
    } else {
      var h, rest := ts[0], ts[1..];
      AncestorsOfRoot(rest);
      assert ts == [h] + rest;
      LookupCons(h, rest, "");
      if h.name == "" {
        FindAbsent(rest, "");
      }
    }
  }

  /**
   * The walk offers a message exactly once to every subscription whose topic the prefix
   * test of the sticky scans accepts as an ancestor, and to no other.
   */
  lemma {:induction false} WalkMeetsAncestors(ts: seq<Topic>, t: string)
    requires TopicsOk(ts)
    ensures multiset(Targets(ts, t, true)) == AtAncestors(ts, t)
    decreases |t|
  {
    if t == "" {
      AncestorsOfRoot(ts);
      assert SubscribersAt(ts, t) + [] == SubscribersAt(ts, t);
    } else {
      AncestorsStep(ts, t);
      WalkMeetsAncestors(ts, Parent(t));
    }
  }
}
