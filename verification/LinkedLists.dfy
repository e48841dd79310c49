/**
 * The doubly linked lists of utlist.h: a list is a pointer to its first node,
 * the first node's `prev` is the tail pointer, and the last node's `next` is
 * null.  Every operation is specified by the sequence of nodes it denotes.
 */
module LinkedLists {

  class Node<T> {
    var prev: Node?<T>
    var next: Node?<T>
    var data: T

    constructor (data: T)
      ensures this.data == data
    {
      this.data := data;
      prev, next := null, null;
    }
  }

  /** `head` denotes exactly the list of nodes `s`. */
  ghost predicate Linked<T>(head: Node?<T>, s: seq<Node<T>>)
    reads s`prev, s`next
  {
    && (forall i, j :: 0 <= i < j < |s| ==> s[i] != s[j])
    && (if s == [] then head == null else
          && head == s[0]
          && s[0].prev == s[|s| - 1]
          && s[|s| - 1].next == null
          && (forall i :: 0 <= i < |s| - 1 ==> s[i].next == s[i + 1])
          && (forall i :: 1 <= i < |s| ==> s[i].prev == s[i - 1]))
  }

  lemma LinkedHead<T>(head: Node?<T>, s: seq<Node<T>>)
    requires Linked(head, s)
    ensures head == (if s == [] then null else s[0])
  {
  }

  lemma OccursOnce<T>(head: Node?<T>, s: seq<Node<T>>, k: nat)
    requires Linked(head, s) && k < |s|
    ensures forall n :: n in s[..k] + s[k + 1..] ==> n in s && n != s[k]
  {
    var rest := s[..k] + s[k + 1..];
    forall n | n in rest ensures n in s && n != s[k] {
      var i :| 0 <= i < |rest| && rest[i] == n;
      assert n == s[if i < k then i else i + 1];
    }
  }

  /** The payloads of a list of nodes, in order. */
  ghost function Payload<T>(s: seq<Node<T>>): (r: seq<T>)
    reads s
    ensures |r| == |s| && forall i :: 0 <= i < |s| ==> r[i] == s[i].data
  {
    seq(|s|, i requires 0 <= i < |s| reads s => s[i].data)
  }

  /** DL_APPEND2: appending is concatenation. */
  method Append<T>(head: Node?<T>, add: Node<T>, ghost s: seq<Node<T>>) returns (r: Node<T>)
    requires Linked(head, s) && add !in s
    modifies s`prev, s`next, add`prev, add`next
    ensures Linked(r, s + [add])
  {
    if head != null {
      add.prev := head.prev;
      head.prev.next := add;
      head.prev := add;
      add.next := null;
      r := head;
    } else {
      r := add;
      r.prev := r;
      r.next := null;
    }
  }

  /** DL_DELETE2: deleting the only, first, middle or last node removes exactly that node. */
  method Delete<T>(head: Node?<T>, del: Node<T>, ghost s: seq<Node<T>>, ghost k: nat) returns (r: Node?<T>)
    requires Linked(head, s) && k < |s| && s[k] == del
    modifies s`prev, s`next
    ensures Linked(r, s[..k] + s[k + 1..])
    ensures k + 1 < |s| ==> del.next == s[k + 1]
    ensures k + 1 == |s| ==> del.next == null
  {
    ghost var t := s[..k] + s[k + 1..];
    assert forall i :: 0 <= i < |t| ==> t[i] == s[if i < k then i else i + 1];
    assert del.prev == s[if k == 0 then |s| - 1 else k - 1];
    assert del.next == if k + 1 < |s| then s[k + 1] else null;
    if del.prev == del {
      r := null;
    } else if del == head {
      del.next.prev := del.prev;
      r := del.next;
    } else {
      del.prev.next := del.next;
      if del.next != null {
        del.next.prev := del.prev;
      } else {
        head.prev := del.prev;
      }
      r := head;
    }
  }

  method DeleteFirst<T>(head: Node?<T>, ghost s: seq<Node<T>>) returns (r: Node?<T>)
    requires Linked(head, s) && s != []
    modifies s`prev, s`next
    ensures Linked(r, s[1..]) && r == old(s[0].next)
  {
    r := Delete(head, head, s, 0);
    hide Linked;
    assert s[..0] + s[1..] == s[1..];
  }

  /** The tail pointer kept in the first node's `prev`. */
  method Last<T>(head: Node<T>, ghost s: seq<Node<T>>) returns (r: Node<T>)
    requires Linked(head, s)
    ensures s != [] && r == s[|s| - 1]
  {
    assert s != [] && s[0].prev == s[|s| - 1];
    r := head.prev;
  }

  /** DL_COUNT2. */
  method Count<T>(head: Node?<T>, ghost s: seq<Node<T>>) returns (n: nat)
    requires Linked(head, s)
    ensures n == |s|
  {
    var el := head;
    n := 0;
    while el != null
      invariant 0 <= n <= |s|
      invariant el == if n < |s| then s[n] else null
      decreases |s| - n
    {
      n := n + 1;
      el := el.next;
    }
  }

  /** LL_SEARCH_SCALAR2: the first node holding `val`, or null when no node does. */
  method Search<T(==)>(head: Node?<T>, val: T, ghost s: seq<Node<T>>) returns (out: Node?<T>, ghost k: nat)
    requires Linked(head, s)
    ensures out == null ==> val !in Payload(s)
    ensures out != null ==> k < |s| && out == s[k] && out.data == val && val !in Payload(s)[..k]
  {
    out := head;
    k := 0;
    while out != null
      invariant k <= |s|
      invariant out == if k < |s| then s[k] else null
      invariant forall j :: 0 <= j < k ==> s[j].data != val
      decreases |s| - k
    {
      if out.data == val {
        break;
      }
      out := out.next;
      k := k + 1;
    }
  }

  /**
   * DL_FOREACH_SAFE2 with a body that deletes the visited node, as in ps_free_queue:
   * every node of the original list is visited exactly once, in order, and the
   * list ends empty.
   */
  method DrainSafe<T>(head: Node?<T>, ghost s: seq<Node<T>>) returns (r: Node?<T>, visited: seq<T>)
    requires Linked(head, s)
    modifies s`prev, s`next
    ensures r == null
    ensures visited == Payload(s)
  {
    hide Linked;
    r := head;
    visited := [];
    var el := head;
    LinkedHead(head, s);
    ghost var rest := s;
    ghost var datas := Payload(s);
    while el != null
      invariant |visited| + |rest| == |s| && rest == s[|visited|..]
      invariant el == r && Linked(r, rest)
      invariant visited == datas[..|visited|]
      decreases |rest|
    {
      LinkedHead(r, rest);
      var tmp := el.next;
      visited := visited + [el.data];
      r := DeleteFirst(el, rest);
      rest := rest[1..];
      el := tmp;
    }
    LinkedHead(r, rest);
  }
}
