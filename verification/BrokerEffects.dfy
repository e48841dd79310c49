/**
 * What subscribing, unsubscribing and freeing a subscriber change, seen through lookups,
 * and what they leave alone; an unsubscribe undoes a subscribe.
 */
module BrokerEffects {
  import opened Registry
  import opened Topics
  import opened BrokerModel
  import opened BrokerRegistry

  lemma SubscribedMeansListed(s: State, su: nat, t: string)
    requires RegistryOk(s) && su < |s.sus|
    ensures Subscribed(At(s, t), su) <==> t in s.sus[su].subs
    ensures TopicsOk(s.topics)
  {
  }

  /**
   * A subscribe fails exactly when the subscriber already lists the topic, and then changes
   * nothing; otherwise it appends one subscription, with the parsed flags, to that topic.
   */
  lemma SubscribeSays(s: State, su: nat, orig: string, base: SubFlags, n: string)
    requires RegistryOk(s) && su < |s.sus|
    ensures var r := Subscribe(s, su, orig, base); var t, f := StripFlags(orig), ParseFlags(FlagPart(orig), base);
      && (r.1 == if t in s.sus[su].subs then -1 else 0)
      && (r.1 == -1 ==> r.0 == s)
      && (r.1 == 0 ==>
        && At(r.0, n) == At(s, n) + (if n == t then [Subscription(su, f.hidden, f.onEmpty, f.priority)] else [])
        && StickyAt(r.0.topics, n) == StickyAt(s.topics, n)
        && |r.0.sus| == |s.sus| && r.0.sus[su].subs == s.sus[su].subs + [t]
        && (forall u :: 0 <= u < |s.sus| && u != su ==> r.0.sus[u].subs == s.sus[u].subs))
  {
    hide RegistryOk, StripFlags, ParseFlags, FlagPart, Offered, PushStickies, SubscribersAt, StickyAt, Subscribed,
         TopicsOk, Put;
    var t, f := StripFlags(orig), ParseFlags(FlagPart(orig), base);
    SubscribedMeansListed(s, su, t);
    if !Subscribed(At(s, t), su) {
      var s1 := Enrol(s, su, t, f);
      PushStickiesSameLists(s1, su, Offered(s1.topics, t, f), f.priority);
      PutLookup(s.topics,
                Topic(t, At(s, t) + [Subscription(su, f.hidden, f.onEmpty, f.priority)], StickyAt(s.topics, t)), n);
    }
  }

  /** An unsubscribe fails exactly when the topic is not listed; otherwise it removes one subscription. */
  lemma UnsubscribeSays(s: State, su: nat, orig: string, n: string)
    requires RegistryOk(s) && su < |s.sus|
    ensures var r := Unsubscribe(s, su, orig); var t := StripFlags(orig);
      && (r.1 == if t in s.sus[su].subs then 0 else -1)
      && (r.1 == -1 ==> r.0 == s)
      && (r.1 == 0 ==>
        && At(r.0, n) == (if n == t then Without(At(s, n), su) else At(s, n))
        && StickyAt(r.0.topics, n) == StickyAt(s.topics, n)
        && |r.0.sus| == |s.sus| && (forall k :: k in r.0.sus[su].subs <==> k in s.sus[su].subs && k != t)
        && (forall u :: 0 <= u < |s.sus| && u != su ==> r.0.sus[u] == s.sus[u]))
  {
    hide RegistryOk, StripFlags, SubscribersAt, StickyAt, Subscribed, TopicsOk, Leave, Without, RemoveName, Distinct;
    var t := StripFlags(orig);
    SubscribedMeansListed(s, su, t);
    if Subscribed(At(s, t), su) {
      LeaveSays(s.topics, su, t, n);
      ListDistinct(s, su);
      RemoveNameSays(s.sus[su].subs, t);
    }
  }

  lemma ListDistinct(s: State, su: nat)
    requires RegistryOk(s) && su < |s.sus|
    ensures Distinct(s.sus[su].subs)
  {
  }

  // ----- an unsubscribe undoes a subscribe -----

  lemma {:induction false} RemoveNameSnoc(l: seq<string>, t: string)
    requires t !in l
    ensures RemoveName(l + [t], t) == l
  {
    if l == [] {
      assert l + [t] == [t] && [t][1..] == [];
    } else {
      assert (l + [t])[1..] == l[1..] + [t];
      RemoveNameSnoc(l[1..], t);
    }
  }

  lemma WithoutSnoc(l: seq<Subscription>, x: Subscription)
    requires !Subscribed(l, x.su)
    ensures Subscribed(l + [x], x.su) && Without(l + [x], x.su) == l
  {
    hide IndexOf;
    var r := l + [x];
    assert r[|l|] == x && forall j :: 0 <= j < |l| ==> r[j] == l[j];
    SubscribedIff(l, x.su);
  }

  /** Putting a topic's old contents back restores the list, also when the topic was created for it. */
  lemma PutBack(ts: seq<Topic>, t: string, l: seq<Subscription>)
    requires TopicsOk(ts) && l != []
    ensures var x := Topic(t, SubscribersAt(ts, t), StickyAt(ts, t));
      Put(Put(ts, Topic(t, l, x.sticky)), x) == ts
  {
    hide Find;
    var p := Topic(t, l, StickyAt(ts, t));
    var i, r := Find(ts, t), Put(ts, p);
    if i < |ts| {
      assert r[i] == p;
      FindUnique(r, t, i);
      assert ts[i] == Topic(t, SubscribersAt(ts, t), StickyAt(ts, t));
    } else {
      assert r[|ts|] == p;
      FindUnique(r, t, |ts|);
    }
  }

  /**
   * After a successful subscribe, an unsubscribe from the same topic, whatever flags either
   * string carries, succeeds and restores the topic map and every subscriber's list exactly.
   */
  lemma UnsubscribeUndoesSubscribe(s: State, su: nat, orig: string, base: SubFlags, again: string)
    requires RegistryOk(s) && su < |s.sus|
    requires StripFlags(orig) !in s.sus[su].subs && StripFlags(again) == StripFlags(orig)
    ensures var r := Unsubscribe(Subscribe(s, su, orig, base).0, su, again);
      && r.1 == 0 && r.0.topics == s.topics && |r.0.sus| == |s.sus|
      && (forall u :: 0 <= u < |s.sus| ==> r.0.sus[u].subs == s.sus[u].subs)
  {
    hide RegistryOk, StripFlags, ParseFlags, FlagPart, Offered, PushStickies, SubscribersAt, StickyAt, Subscribed,
         TopicsOk, Put, Without, RemoveName;
    var t, f := StripFlags(orig), ParseFlags(FlagPart(orig), base);
    var x := Subscription(su, f.hidden, f.onEmpty, f.priority);
    var l, st := At(s, t), StickyAt(s.topics, t);
    SubscribedMeansListed(s, su, t);
    var s1 := Enrol(s, su, t, f);
    PushStickiesSameLists(s1, su, Offered(s1.topics, t, f), f.priority);
    PutLookup(s.topics, Topic(t, l + [x], st), t);
    WithoutSnoc(l, x);
    RemoveNameSnoc(s.sus[su].subs, t);
    PutBack(s.topics, t, l + [x]);
  }

  // ----- freeing a subscriber -----

  lemma {:induction false} FlushOthers(s: State, su: nat)
    requires su < |s.sus|
    ensures var s' := Flush(s, su).0;
      && s'.topics == s.topics && |s'.sus| == |s.sus|
      && (forall u :: 0 <= u < |s.sus| && u != su ==> s'.sus[u] == s.sus[u])
      && s'.sus[su] == s.sus[su].(q := [])
    decreases |s.sus[su].q|
  {
    if s.sus[su].q != [] {
      FlushOthers(UnrefMsg(Get(s, su).0, Get(s, su).1.value), su);
    }
  }

  /** Freeing a subscriber removes it from every topic and changes no other subscriber and no sticky. */
  lemma FreeSubscriberSays(s: State, su: nat)
    requires RegistryOk(s) && su < |s.sus|
    ensures var s' := FreeSubscriber(s, su);
      && |s'.sus| == |s.sus| && !s'.sus[su].alive && s'.sus[su].subs == [] && s'.sus[su].q == []
      && (forall u :: 0 <= u < |s.sus| && u != su ==> s'.sus[u] == s.sus[u])
      && (forall n :: At(s', n) == Without(At(s, n), su))
      && (forall n :: StickyAt(s'.topics, n) == StickyAt(s.topics, n))
  {
    hide RegistryOk, SubscribersAt, StickyAt, LeaveAll, Flush, Without;
    UnsubscribeAllRegistry(s, su);
    FlushOthers(UnsubscribeAll(s, su).0, su);
  }
}
