/**
 * The bucket queue of psqueue_b.c over the heap: ten intrusive doubly linked
 * lists of message nodes and one list of free nodes.  Every operation is
 * proved to be the corresponding operation of PriorityLists.
 */
module BucketQueues {
  import opened LinkedLists
  import opened Options
  import opened PriorityLists

  // ----- buckets as one sorted list -----

  function Entries(p: nat, b: seq<nat>): (r: seq<Entry>)
    ensures |r| == |b|
    ensures forall i :: 0 <= i < |r| ==> r[i] == Entry(p, b[i])
  {
    seq(|b|, i requires 0 <= i < |b| => Entry(p, b[i]))
  }

  /** The contents of the first `k` buckets, highest priority first. */
  function Flatten(bs: seq<seq<nat>>, k: nat): seq<Entry>
    requires k <= |bs|
  {
    if k == 0 then [] else Entries(k - 1, bs[k - 1]) + Flatten(bs, k - 1)
  }

  lemma {:induction false} FlattenSorted(bs: seq<seq<nat>>, k: nat)
    requires k <= |bs|
    ensures Sorted(Flatten(bs, k))
    ensures forall i :: 0 <= i < |Flatten(bs, k)| ==> Flatten(bs, k)[i].prio < k && bs[Flatten(bs, k)[i].prio] != []
  {
    if k > 0 {
      FlattenSorted(bs, k - 1);
    }
  }

  lemma {:induction false} FlattenSame(bs: seq<seq<nat>>, cs: seq<seq<nat>>, k: nat)
    requires k <= |bs| && k <= |cs|
    requires forall i :: 0 <= i < k ==> bs[i] == cs[i]
    ensures Flatten(bs, k) == Flatten(cs, k)
  {
    if k > 0 {
      FlattenSame(bs, cs, k - 1);
    }
  }

  lemma {:induction false} FlattenEmpty(bs: seq<seq<nat>>, k: nat)
    requires k <= |bs|
    requires forall i :: 0 <= i < k ==> bs[i] == []
    ensures Flatten(bs, k) == []
  {
    if k > 0 {
      FlattenEmpty(bs, k - 1);
    }
  }

  lemma {:induction false} InsertBehind(a: seq<Entry>, q: seq<Entry>, e: Entry)
    requires forall i :: 0 <= i < |a| ==> a[i].prio >= e.prio
    ensures Insert(a + q, e) == a + Insert(q, e)
  {
    if a == [] {
      assert a + q == q;
    } else {
      assert (a + q)[1..] == a[1..] + q;
      InsertBehind(a[1..], q, e);
    }
  }

  /** Appending to bucket `p` is the sorted insertion at priority `p`. */
  lemma {:induction false} FlattenAppend(bs: seq<seq<nat>>, p: nat, m: nat, k: nat)
    requires p < k <= |bs|
    ensures Flatten(bs[p := bs[p] + [m]], k) == Insert(Flatten(bs, k), Entry(p, m))
  {
    hide Insert;
    var cs, e := bs[p := bs[p] + [m]], Entry(p, m);
    if p == k - 1 {
      FlattenSame(bs, cs, p);
      FlattenSorted(bs, k);
      var a, b := Entries(p, bs[p]), Flatten(bs, p);
      FlattenSorted(bs, p);
      InsertAt(a + b, e, |a|);
      assert Entries(p, cs[p]) == a + [e];
    } else {
      FlattenAppend(bs, p, m, k - 1);
      InsertBehind(Entries(k - 1, bs[k - 1]), Flatten(bs, k - 1), e);
    }
  }

  /** Dropping the newest message of the lowest non-empty bucket drops the last entry. */
  lemma {:induction false} FlattenEvict(bs: seq<seq<nat>>, p: nat, k: nat)
    requires p < k <= |bs| && bs[p] != []
    requires forall i :: 0 <= i < p ==> bs[i] == []
    ensures var q, n := Flatten(bs, k), |bs[p]| - 1;
      && q != [] && q[|q| - 1] == Entry(p, bs[p][n])
      && Flatten(bs[p := bs[p][..n]], k) == q[..|q| - 1]
  {
    var n := |bs[p]| - 1;
    var cs := bs[p := bs[p][..n]];
    if p == k - 1 {
      FlattenEmpty(bs, p);
      FlattenEmpty(cs, p);
    } else {
      FlattenEvict(bs, p, k - 1);
      var a, b := Entries(k - 1, bs[k - 1]), Flatten(bs, k - 1);
      assert a + b[..|b| - 1] == (a + b)[..|a + b| - 1];
    }
  }

  /** Taking the oldest message of the highest non-empty bucket takes the head. */
  lemma {:induction false} FlattenGet(bs: seq<seq<nat>>, p: nat, k: nat)
    requires p < k <= |bs| && bs[p] != []
    requires forall i :: p < i < k ==> bs[i] == []
    ensures var q := Flatten(bs, k);
      && q != [] && q[0] == Entry(p, bs[p][0])
      && Flatten(bs[p := bs[p][1..]], k) == q[1..]
  {
    var cs := bs[p := bs[p][1..]];
    if p == k - 1 {
      FlattenSame(bs, cs, p);
      assert Entries(p, cs[p]) == Entries(p, bs[p])[1..];
    } else {
      FlattenGet(bs, p, k - 1);
      assert Entries(k - 1, bs[k - 1]) == [];
    }
  }

  // ----- the queue -----

  type Cell = Node<Option<nat>>

  class BucketQueue {
    const priorities: array<Node?<Option<nat>>>
    var available: Node?<Option<nat>>
    /** The value of the semaphore `not_empty` while no call is in progress. */
    var notEmpty: nat

    /** The node lists: buckets 0 to 9, and the free list at index FREE. */
    ghost var lists: seq<seq<Cell>>
    /** Every allocated node, and the one list it is in; a node in hand has home HAND. */
    ghost var home: map<Cell, int>
    ghost var cells: set<Cell>
    /** The messages in each bucket. */
    ghost var buckets: seq<seq<nat>>

    static const FREE: nat := PRIORITIES
    static const HAND: int := -1

    ghost function Head(i: nat): Node?<Option<nat>>
      requires i <= FREE && priorities.Length == PRIORITIES
      reads this, priorities
    {
      if i < PRIORITIES then priorities[i] else available
    }

    /** No node is in two lists. */
    ghost predicate Homes()
      reads this
    {
      && |lists| == FREE + 1 && home.Keys == cells
      && (forall i, n :: 0 <= i < |lists| && n in lists[i] ==> n in cells)
      && (forall i, n :: 0 <= i < |lists| && n in lists[i] ==> home[n] == i)
    }

    /** Every list is well linked from its head pointer. */
    ghost predicate Links()
      reads this, priorities, cells`prev, cells`next
    {
      && priorities.Length == PRIORITIES && Homes()
      && (forall i :: 0 <= i < |lists| ==> Linked(Head(i), lists[i]))
    }

    /** Queued nodes hold their bucket's messages; free nodes hold none. */
    ghost predicate Data()
      requires Homes()
      reads this, cells`data
    {
      && |buckets| == PRIORITIES
      && (forall i :: 0 <= i < PRIORITIES ==> |lists[i]| == |buckets[i]|)
      && (forall i, j :: 0 <= i < PRIORITIES && 0 <= j < |lists[i]| ==>
            lists[i][j] in cells && lists[i][j].data == Some(buckets[i][j]))
      && (forall j :: 0 <= j < |lists[FREE]| ==> lists[FREE][j] in cells && lists[FREE][j].data == None)
    }

    ghost predicate Shape()
      reads this, priorities, cells
    {
      Links() && Data()
    }

    ghost function Contents(): seq<Entry>
      requires |buckets| == PRIORITIES
      reads this
    {
      Flatten(buckets, PRIORITIES)
    }

    ghost function Capacity(): nat
      requires |buckets| == PRIORITIES && |lists| == FREE + 1
      reads this
    {
      |lists[FREE]| + |Contents()|
    }

    ghost predicate Valid()
      reads this, priorities, cells
    {
      Shape() && notEmpty == |Contents()|
    }

    /** Links and homes of the lists other than `i` survive a change that touched only `i` and nodes in hand. */
    twostate lemma OthersStayLinked(i: nat)
      requires old(Links()) && i < |old(lists)|
      requires cells == old(cells)
      requires forall j :: 0 <= j < |old(lists)| && j != i ==> Head(j) == old(Head(j))
      requires forall o: Cell :: o in cells && old(home)[o] != i && old(home)[o] != HAND ==>
                 o.prev == old(o.prev) && o.next == old(o.next)
      ensures forall j :: 0 <= j < |old(lists)| && j != i ==> Linked(Head(j), old(lists)[j])
    {
      hide Linked;
      forall j | 0 <= j < |old(lists)| && j != i ensures Linked(Head(j), old(lists)[j]) {
        assert old(Linked(Head(j), lists[j]));
        assert forall o: Cell :: o in old(lists)[j] ==> o in cells && old(home)[o] == j;
      }
    }

    method AppendToBucket(n: Cell, i: nat)
      requires Links() && i < PRIORITIES && n in cells && home[n] == HAND
      modifies this`lists, this`home, priorities, cells`prev, cells`next
      ensures Links() && lists == old(lists)[i := old(lists[i]) + [n]] && home == old(home)[n := i]
      ensures available == old(available)
    {
      hide Linked;
      priorities[i] := Append(priorities[i], n, lists[i]);
      OthersStayLinked(i);
      lists := lists[i := lists[i] + [n]];
      home := home[n := i];
    }

    method AppendToFree(n: Cell)
      requires Links() && n in cells && home[n] == HAND
      modifies this`available, this`lists, this`home, cells`prev, cells`next
      ensures Links() && lists == old(lists)[FREE := old(lists[FREE]) + [n]] && home == old(home)[n := FREE]
    {
      hide Linked;
      available := Append(available, n, lists[FREE]);
      OthersStayLinked(FREE);
      lists := lists[FREE := lists[FREE] + [n]];
      home := home[n := FREE];
    }

    method RemoveFromBucket(i: nat, n: Cell, ghost k: nat)
      requires Links() && i < PRIORITIES && k < |lists[i]| && n == lists[i][k]
      modifies this`lists, this`home, priorities, cells`prev, cells`next
      ensures Links() && home == old(home)[n := HAND]
      ensures lists == old(lists)[i := old(lists[i])[..k] + old(lists[i])[k + 1..]]
      ensures available == old(available)
    {
      hide Linked;
      OccursOnce(Head(i), lists[i], k);
      assert n in lists[i];
      priorities[i] := Delete(priorities[i], n, lists[i], k);
      OthersStayLinked(i);
      lists := lists[i := lists[i][..k] + lists[i][k + 1..]];
      home := home[n := HAND];
    }

    method RemoveFirstFree() returns (n: Cell)
      requires Links() && lists[FREE] != []
      modifies this`available, this`lists, this`home, cells`prev, cells`next
      ensures Links() && n == old(lists[FREE][0]) && home == old(home)[n := HAND]
      ensures lists == old(lists)[FREE := old(lists[FREE])[1..]]
    {
      hide Linked;
      LinkedHead(Head(FREE), lists[FREE]);
      OccursOnce(Head(FREE), lists[FREE], 0);
      assert lists[FREE][..0] + lists[FREE][1..] == lists[FREE][1..];
      n := available;
      available := DeleteFirst(available, lists[FREE]);
      OthersStayLinked(FREE);
      lists := lists[FREE := lists[FREE][1..]];
      home := home[n := HAND];
    }

    /** ps_new_queue: an empty queue whose `sz` nodes are all free. */
    constructor (sz: nat)
      ensures Valid() && fresh(cells) && fresh(priorities)
      ensures Contents() == [] && Capacity() == sz
    {
      priorities := new Node?<Option<nat>>[PRIORITIES](_ => null);
      available := null;
      notEmpty := 0;
      lists := seq(FREE + 1, _ => []);
      buckets := seq(PRIORITIES, _ => []);
      home, cells := map[], {};
      new;
      FlattenEmpty(buckets, PRIORITIES);
      assert Shape();
      hide Linked, Flatten;
      for i := 0 to sz
        invariant fresh(cells) && fresh(priorities)
        invariant Shape() && notEmpty == 0
        invariant Contents() == [] && |lists[FREE]| == i
      {
        var n := new Node<Option<nat>>(None);
        AdoptFree(n);
      }
    }

    method AdoptFree(n: Cell)
      requires Shape() && n !in cells && n.data == None
      modifies this`available, this`lists, this`home, this`cells, cells`prev, cells`next, n`prev, n`next
      ensures Shape() && cells == old(cells) + {n}
      ensures lists == old(lists)[FREE := old(lists[FREE]) + [n]]
    {
      hide Linked, Flatten;
      cells := cells + {n};
      home := home[n := HAND];
      AppendToFree(n);
    }

    /**
     * bqueue_get_available: a free node; or, when there is none, the node of the newest
     * message in the lowest non-empty bucket below `maxPrio`, whose message is lost.
     */
    method GetAvailable(maxPrio: nat) returns (n: Node?<Option<nat>>, code: Code, lost: seq<Entry>)
      requires Shape() && maxPrio < PRIORITIES
      modifies this`available, this`lists, this`home, this`buckets, priorities, cells
      ensures Shape()
      ensures n != null ==> n in cells && home[n] == HAND
      ensures code == Full <==> n == null
      ensures var q := old(Contents()); var free := |old(lists[FREE])|;
        if free > 0 then code == Ok && lost == [] && Contents() == q && |lists[FREE]| == free - 1
        else if q == [] || q[|q| - 1].prio >= maxPrio then
          code == Full && lost == [] && Contents() == q && |lists[FREE]| == 0
        else code == Overflow && lost == [q[|q| - 1]] && Contents() == q[..|q| - 1] && |lists[FREE]| == 0
    {
      hide Linked, Flatten;
      LinkedHead(Head(FREE), lists[FREE]);
      if available != null {
        n := RemoveFirstFree();
        return n, Ok, [];
      }
      for i := 0 to maxPrio
        invariant Shape() && lists == old(lists) && buckets == old(buckets)
        invariant forall j :: 0 <= j < i ==> buckets[j] == []
      {
        LinkedHead(Head(i), lists[i]);
        if priorities[i] != null {
          n := Last(priorities[i], lists[i]);
          lost := EvictNewest(i, n);
          return n, Overflow, lost;
        }
      }
      FlattenSorted(buckets, PRIORITIES);
      return null, Full, [];
    }

    method EvictNewest(i: nat, n: Cell) returns (lost: seq<Entry>)
      requires Shape() && i < PRIORITIES && lists[i] != [] && n == lists[i][|lists[i]| - 1]
      requires forall j :: 0 <= j < i ==> buckets[j] == []
      modifies this`lists, this`home, this`buckets, priorities, cells
      ensures Shape() && n in cells && home[n] == HAND && lists[FREE] == old(lists[FREE])
      ensures var q := old(Contents());
        && q != [] && q[|q| - 1].prio == i
        && lost == [q[|q| - 1]] && Contents() == q[..|q| - 1]
    {
      hide Linked, Flatten;
      ghost var k := |lists[i]| - 1;
      FlattenEvict(buckets, i, PRIORITIES);
      lost := [Entry(i, n.data.value)];
      assert buckets[i][..k] + buckets[i][k + 1..] == buckets[i][..k];
      Detach(i, n, k);
    }

    /** Clears a queued node and unlinks it, leaving it in hand. */
    method Detach(i: nat, n: Cell, ghost k: nat)
      requires Shape() && i < PRIORITIES && k < |lists[i]| && n == lists[i][k]
      modifies this`lists, this`home, this`buckets, priorities, cells
      ensures Shape() && n in cells && home[n] == HAND && n.data == None && lists[FREE] == old(lists[FREE])
      ensures available == old(available)
      ensures buckets == old(buckets)[i := old(buckets[i])[..k] + old(buckets[i])[k + 1..]]
    {
      hide Linked;
      assert n in lists[i];
      n.data := None;
      RemoveFromBucket(i, n, k);
      buckets := buckets[i := buckets[i][..k] + buckets[i][k + 1..]];
    }

    /** bqueue_get: the oldest message of the highest non-empty bucket, or NULL. */
    method Get() returns (msg: Option<nat>)
      requires Shape()
      modifies this`available, this`lists, this`home, this`buckets, priorities, cells
      ensures Shape() && Capacity() == old(Capacity())
      ensures var q := old(Contents());
        if q == [] then msg == None && Contents() == q
        else msg == Some(q[0].msg) && Contents() == q[1..]
    {
      hide Linked;
      var i := PRIORITIES - 1;
      while i >= 0
        invariant -1 <= i < PRIORITIES
        invariant Shape() && lists == old(lists) && buckets == old(buckets)
        invariant forall j :: i < j < PRIORITIES ==> buckets[j] == []
      {
        LinkedHead(Head(i), lists[i]);
        if priorities[i] != null {
          msg := TakeOldest(i, priorities[i]);
          return;
        }
        i := i - 1;
      }
      FlattenEmpty(buckets, PRIORITIES);
      return None;
    }

    method TakeOldest(i: nat, n: Cell) returns (msg: Option<nat>)
      requires Shape() && i < PRIORITIES && lists[i] != [] && n == lists[i][0]
      requires forall j :: i < j < PRIORITIES ==> buckets[j] == []
      modifies this`available, this`lists, this`home, this`buckets, priorities, cells
      ensures Shape() && Capacity() == old(Capacity())
      ensures var q := old(Contents()); q != [] && msg == Some(q[0].msg) && Contents() == q[1..]
    {
      hide Linked, Flatten;
      msg := DetachOldest(i, n);
      AppendToFree(n);
    }

    method DetachOldest(i: nat, n: Cell) returns (msg: Option<nat>)
      requires Shape() && i < PRIORITIES && lists[i] != [] && n == lists[i][0]
      requires forall j :: i < j < PRIORITIES ==> buckets[j] == []
      modifies this`lists, this`home, this`buckets, priorities, cells
      ensures Shape() && n in cells && home[n] == HAND && n.data == None && lists[FREE] == old(lists[FREE])
      ensures var q := old(Contents()); q != [] && msg == Some(q[0].msg) && Contents() == q[1..]
    {
      hide Linked, Flatten;
      FlattenGet(buckets, i, PRIORITIES);
      msg := n.data;
      assert buckets[i][..0] + buckets[i][1..] == buckets[i][1..];
      Detach(i, n, 0);
    }

    /** bqueue_insert, after the message was stored in the node. */
    method Insert(n: Cell, priority: nat)
      requires Shape() && priority < PRIORITIES
      requires n in cells && home[n] == HAND && n.data.Some?
      modifies this`lists, this`home, this`buckets, priorities, cells`prev, cells`next
      ensures Shape() && lists[FREE] == old(lists[FREE])
      ensures Contents() == PriorityLists.Insert(old(Contents()), Entry(priority, n.data.value))
    {
      hide Linked, Flatten;
      FlattenAppend(buckets, priority, n.data.value, PRIORITIES);
      AppendToBucket(n, priority);
      buckets := buckets[priority := buckets[priority] + [n.data.value]];
    }

    /** ps_queue_push. `lost` is the entry whose reference the queue dropped or refused. */
    method Push(msg: nat, priority: nat) returns (ret: Code, lost: seq<Entry>)
      requires Valid() && priority < PRIORITIES
      modifies this`notEmpty, this`available, this`lists, this`home, this`buckets, priorities, cells
      ensures Valid() && Capacity() == old(Capacity())
      ensures var r := PriorityLists.Push(old(Contents()), old(Capacity()), Entry(priority, msg));
        ret == r.code && Contents() == r.q && lost == r.lost
    {
      hide Linked, Flatten, PriorityLists.Insert;
      var n;
      n, ret, lost := GetAvailable(priority);
      if ret != Full {
        n.data := Some(msg);
        Insert(n, priority);
        if ret == Ok {
          notEmpty := notEmpty + 1;
        }
      } else {
        lost := [Entry(priority, msg)];
      }
    }

    /** ps_queue_pull with no concurrent caller: it fails exactly when the semaphore is zero. */
    method Pull() returns (msg: Option<nat>)
      requires Valid()
      modifies this`notEmpty, this`available, this`lists, this`home, this`buckets, priorities, cells
      ensures Valid() && Capacity() == old(Capacity())
      ensures var q := old(Contents());
        if q == [] then msg == None && Contents() == q
        else msg == Some(q[0].msg) && Contents() == q[1..]
    {
      hide Linked, Flatten;
      if notEmpty == 0 {
        return None;
      }
      notEmpty := notEmpty - 1;
      msg := Get();
    }

    /** ps_queue_waiting. */
    method Waiting() returns (n: nat)
      requires Valid()
      ensures n == |Contents()|
    {
      n := notEmpty;
    }
  }
}
