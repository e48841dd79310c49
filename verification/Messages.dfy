/**
 * Reference-counted messages: the store of live messages with ps_ref_msg and
 * ps_unref_msg.  A freed message leaves the store and its identity is never used
 * again.
 */
module Messages {

  /** The header of a ps_msg_t; its value is opaque and left out. */
  datatype Message = Message(ref: int, topic: string, sticky: bool, nonRecursive: bool)

  /** The live messages, the counter stat_live_msg and the next fresh identity. */
  datatype Store = Store(msgs: map<nat, Message>, live: int, next: nat)

  const NO_MESSAGES := Store(map[], 0, 0)

  /** ps_new_msg. */
  function New(h: Store, topic: string, sticky: bool, nonRecursive: bool): Store {
    Store(h.msgs[h.next := Message(1, topic, sticky, nonRecursive)], h.live + 1, h.next + 1)
  }

  function Ref(h: Store, m: nat): Store {
    if m in h.msgs then h.(msgs := h.msgs[m := h.msgs[m].(ref := h.msgs[m].ref + 1)]) else h
  }

  function Unref(h: Store, m: nat): Store {
    if m !in h.msgs then h
    else if h.msgs[m].ref - 1 == 0 then h.(msgs := h.msgs - {m}, live := h.live - 1)
    else h.(msgs := h.msgs[m := h.msgs[m].(ref := h.msgs[m].ref - 1)])
  }

  /**
   * `refs` are all the references held anywhere: every live message is counted exactly,
   * every message referred to is live, and stat_live_msg is the number of live messages.
   */
  ghost predicate Counted(h: Store, refs: multiset<nat>) {
    && (forall m :: m in h.msgs ==> h.msgs[m].ref == refs[m] && refs[m] > 0 && m < h.next)
    && (forall m :: m in refs ==> m in h.msgs)
    && h.live == |h.msgs|
  }

  lemma NewCounted(h: Store, refs: multiset<nat>, topic: string, sticky: bool, nonRecursive: bool)
    requires Counted(h, refs)
    ensures Counted(New(h, topic, sticky, nonRecursive), refs + multiset{h.next})
    ensures h.next !in h.msgs
  {
    assert h.next !in refs;
  }

  lemma RefCounted(h: Store, refs: multiset<nat>, m: nat)
    requires Counted(h, refs) && m in h.msgs
    ensures Counted(Ref(h, m), refs + multiset{m})
  {
    assert Ref(h, m).msgs.Keys == h.msgs.Keys;
  }

  /** Dropping one of the counted references frees the message exactly when it was the last. */
  lemma UnrefCounted(h: Store, refs: multiset<nat>, m: nat)
    requires Counted(h, refs + multiset{m})
    ensures m in h.msgs && Counted(Unref(h, m), refs)
    ensures m in Unref(h, m).msgs <==> m in refs
  {
    assert m in refs + multiset{m};
    var h' := Unref(h, m);
    if h.msgs[m].ref == 1 {
      assert h'.msgs.Keys == h.msgs.Keys - {m};
    } else {
      assert h'.msgs.Keys == h.msgs.Keys;
    }
  }
}
