/**
 * The hash index as the broker uses it: the operations of module HashIndexes carry the
 * topic list of module Registry along, so that looking up, creating, freeing and cleaning
 * topics on the index is what Registry says.
 */
module TopicIndexes {
  import opened Registry
  import H = HashIndexes

  /** The application order of the index holds the topics, by name, in creation order. */
  ghost predicate Represents(order: seq<H.Elem>, ts: seq<Topic>) {
    |order| == |ts| && forall i :: 0 <= i < |ts| ==> order[i].key == ts[i].name
  }

  function Names(ts: seq<Topic>): (r: seq<string>)
    ensures |r| == |ts| && forall i :: 0 <= i < |ts| ==> r[i] == ts[i].name
  {
    seq(|ts|, i requires 0 <= i < |ts| => ts[i].name)
  }

  lemma DistinctNames(ix: H.HashIndex, ts: seq<Topic>)
    requires ix.Valid() && Represents(ix.order, ts)
    ensures forall i, j :: 0 <= i < j < |ts| ==> ts[i].name != ts[j].name
    ensures forall i, j :: 0 <= i < j < |ts| ==> ix.order[i] != ix.order[j]
  {
    hide H.Table, H.OrderLinked;
  }

  /** fetch_topic: the element of the topic found in the list, or null when there is none. */
  method FetchTopic(ix: H.HashIndex, name: string, ghost ts: seq<Topic>) returns (e: H.Elem?)
    requires ix.Valid() && Represents(ix.order, ts)
    ensures e == null <==> Find(ts, name) == |ts|
    ensures e != null ==> e.key == name && Find(ts, name) < |ts| && ix.order[Find(ts, name)] == e
  {
    hide Find;
    e := ix.Find(name);
    ghost var i := Find(ts, name);
    DistinctNames(ix, ts);
    if e != null {
      ghost var k :| 0 <= k < |ix.order| && ix.order[k] == e;
      FindUnique(ts, name, k);
    }
  }

  /** create_topic: the new topic joins the end of the list. */
  method CreateTopic(ix: H.HashIndex, name: string, ghost ts: seq<Topic>) returns (e: H.Elem)
    requires ix.Valid() && Represents(ix.order, ts) && Find(ts, name) == |ts|
    modifies ix, ix.heads, ix.counts, ix.order
    ensures ix.Valid() && ix.order == old(ix.order) + [e]
    ensures forall t: Topic :: t.name == name ==> Represents(ix.order, ts + [t])
    ensures ix.heads == old(ix.heads) || fresh(ix.heads)
    ensures ix.counts == old(ix.counts) || fresh(ix.counts)
  {
    hide Find, H.Table, H.OrderLinked;
    e := new H.Elem(name, ix.hash(name));
    forall o | o in ix.order ensures o.key != name {
      var i :| 0 <= i < |ix.order| && ix.order[i] == o;
      assert ts[i].name != name;
    }
    ix.Add(e);
  }

  /** free_topic_if_empty on an unused topic: it leaves the list. */
  method FreeTopic(ix: H.HashIndex, e: H.Elem, ghost ts: seq<Topic>)
    requires ix.Valid() && Represents(ix.order, ts) && e in ix.order
    modifies ix, ix.heads, ix.counts, ix.order
    ensures Find(ts, e.key) < |ts|
    ensures ix.Valid() && Represents(ix.order, RemoveAt(ts, Find(ts, e.key)))
    ensures ix.heads == old(ix.heads) || fresh(ix.heads)
    ensures ix.counts == old(ix.counts) || fresh(ix.counts)
  {
    hide H.Table, H.OrderLinked, Find;
    DistinctNames(ix, ts);
    ghost var i :| 0 <= i < |ix.order| && ix.order[i] == e;
    FindUnique(ts, e.key, i);
    ix.Delete(e, i);
  }

  /**
   * Fetching a topic, creating it when it is needed and absent, and freeing it when it is
   * left unused: the index follows Put.
   */
  method PutTopic(ix: H.HashIndex, name: string, unused: bool, ghost ts: seq<Topic>, ghost t: Topic)
    requires ix.Valid() && Represents(ix.order, ts) && t.name == name && (unused <==> Unused(t))
    modifies ix, ix.heads, ix.counts, ix.order
    ensures ix.Valid() && Represents(ix.order, Put(ts, t))
  {
    hide Find;
    var e := FetchTopic(ix, name, ts);
    if e == null {
      if !unused {
        var n := CreateTopic(ix, name, ts);
      }
    } else if unused {
      FreeTopic(ix, e, ts);
    }
  }

  // ----- ps_clean_sticky -----

  lemma {:induction false} CleanSnoc(ts: seq<Topic>, t: Topic, prefix: string)
    ensures Clean(ts + [t], prefix) == Clean(ts, prefix) + CleanOne(t, prefix)
    decreases |ts|
  {
    hide CleanOne;
    if ts == [] {
      assert ts + [t] == [t] && [t][1..] == [];
      assert CleanOne(t, prefix) + [] == CleanOne(t, prefix);
    } else {
      var h, rest := ts[0], ts[1..];
      CleanSnoc(rest, t, prefix);
      assert (ts + [t])[1..] == rest + [t];
      Reassociate(CleanOne(h, prefix), Clean(rest, prefix), CleanOne(t, prefix));
    }
  }

  lemma Reassociate<A>(a: seq<A>, b: seq<A>, c: seq<A>)
    ensures a + (b + c) == (a + b) + c
  {
  }

  /** The topics ps_clean_sticky frees: those left with nothing. */
  predicate Freed(t: Topic, prefix: string) {
    HasSticky(t, prefix) && t.subscribers == []
  }

  /** Deleting the elements of the freed topics leaves the cleaned list. */
  lemma {:induction false} KeepIsClean(order: seq<H.Elem>, ts: seq<Topic>, prefix: string, p: string -> bool)
    requires Represents(order, ts)
    requires forall i :: 0 <= i < |ts| ==> (p(ts[i].name) <==> Freed(ts[i], prefix))
    ensures Represents(H.Keep(order, p), Clean(ts, prefix))
    decreases |ts|
  {
    hide HasSticky, Represents, Clean, H.Keep, Freed, CleanOne;
    if ts == [] {
      NothingKept(order, prefix, p);
    } else {
      var n := |ts| - 1;
      ShorterRepresents(order, ts);
      KeepIsClean(order[..n], ts[..n], prefix, p);
      CleanSnoc(ts[..n], ts[n], prefix);
      H.KeepSnoc(order, n, p);
      assert ts == ts[..n] + [ts[n]] && order == order[..n + 1];
      OneRepresents(order[n], ts[n], prefix, p);
      JoinedRepresent(H.Keep(order[..n], p), Clean(ts[..n], prefix),
                      if p(order[n].key) then [] else [order[n]], CleanOne(ts[n], prefix));
    }
  }

  lemma NothingKept(order: seq<H.Elem>, prefix: string, p: string -> bool)
    requires Represents(order, [])
    ensures Represents(H.Keep(order, p), Clean([], prefix))
  {
  }

  lemma ShorterRepresents(order: seq<H.Elem>, ts: seq<Topic>)
    requires Represents(order, ts) && ts != []
    ensures |order| == |ts| && Represents(order[..|ts| - 1], ts[..|ts| - 1])
    ensures order[|ts| - 1].key == ts[|ts| - 1].name
  {
  }

  lemma OneRepresents(e: H.Elem, t: Topic, prefix: string, p: string -> bool)
    requires e.key == t.name && (p(t.name) <==> Freed(t, prefix))
    ensures Represents(if p(e.key) then [] else [e], CleanOne(t, prefix))
  {
    hide HasSticky;
  }

  lemma JoinedRepresent(a: seq<H.Elem>, x: seq<Topic>, b: seq<H.Elem>, y: seq<Topic>)
    requires Represents(a, x) && Represents(b, y)
    ensures Represents(a + b, x + y)
  {
  }

  /** The contents of the topics by name, as the topic struct behind each element holds them. */
  ghost predicate Holds(contents: map<string, Topic>, ts: seq<Topic>) {
    forall i :: 0 <= i < |ts| ==> ts[i].name in contents && contents[ts[i].name] == ts[i]
  }

  /** The test of the loop body, read off the visited topic's own contents. */
  predicate FreedByName(contents: map<string, Topic>, prefix: string, name: string) {
    name in contents && Freed(contents[name], prefix)
  }

  /**
   * ps_clean_sticky over the index: each visited topic's own contents decide whether it is
   * left with nothing and deleted while iterating; every topic is visited once, in creation
   * order, and the index follows Clean.
   */
  method CleanTopics(ix: H.HashIndex, prefix: string, contents: map<string, Topic>, ghost ts: seq<Topic>)
    returns (visited: seq<string>)
    requires ix.Valid() && Represents(ix.order, ts) && Holds(contents, ts)
    modifies ix, ix.heads, ix.counts, ix.order
    ensures ix.Valid() && Represents(ix.order, Clean(ts, prefix)) && visited == Names(ts)
  {
    hide H.Table, H.OrderLinked, Clean, Freed;
    var p := name => FreedByName(contents, prefix, name);
    KeepIsClean(ix.order, ts, prefix, p);
    visited := ix.DeleteMatching(p);
  }
}
