/**
 * The ring buffer of psqueue_ll.c, the second implementation of the queue
 * interface, and its agreement with the bucket queue at one constant priority.
 */
module RingQueues {
  import opened Options
  import opened PriorityLists
  import BucketQueues

  class RingQueue {
    const messages: array<nat>
    const size: nat
    var count: nat
    var head: nat
    var tail: nat
    /** The value of the semaphore `not_empty` while no call is in progress. */
    var notEmpty: nat

    static function Slot(tail: nat, i: nat, size: nat): nat {
      if tail + i < size then tail + i else tail + i - size
    }

    ghost predicate Valid()
      reads this
    {
      && messages.Length == size && count <= size && notEmpty == count
      && (if size == 0 then head == 0 && tail == 0
          else tail < size && head == (tail + count) % size)
    }

    ghost function Contents(): (s: seq<nat>)
      requires Valid()
      reads this, messages
    {
      seq(count, i requires 0 <= i < count && Valid() reads this, messages => messages[Slot(tail, i, size)])
    }

    constructor (sz: nat)
      ensures Valid() && Contents() == [] && size == sz && fresh(messages)
    {
      size := sz;
      messages := new nat[sz](_ => 0);
      count, head, tail, notEmpty := 0, 0, 0, 0;
    }

    /** ps_queue_push: the priority is ignored. */
    method Push(msg: nat, priority: nat) returns (ret: Code)
      requires Valid()
      modifies this, messages
      ensures Valid()
      ensures if |old(Contents())| < size then ret == Ok && Contents() == old(Contents()) + [msg]
              else ret == Full && Contents() == old(Contents())
    {
      if count >= size {
        return Full;
      }
      HeadSlot(tail, count, size);
      messages[head] := msg;
      head := head + 1;
      if head >= size {
        head := 0;
      }
      HeadSlot(tail, count + 1, size);
      count := count + 1;
      notEmpty := notEmpty + 1;
      return Ok;
    }

    /** ps_queue_pull with no concurrent caller. */
    method Pull() returns (msg: Option<nat>)
      requires Valid()
      modifies this, messages
      ensures Valid()
      ensures if old(Contents()) == [] then msg == None && Contents() == old(Contents())
              else msg == Some(old(Contents())[0]) && Contents() == old(Contents())[1..]
    {
      if notEmpty == 0 {
        return None;
      }
      notEmpty := notEmpty - 1;
      msg := Some(messages[tail]);
      HeadSlot(tail, count, size);
      tail := tail + 1;
      if tail >= size {
        tail := 0;
      }
      count := count - 1;
      HeadSlot(tail, count, size);
    }

    /** ps_queue_waiting. */
    method Waiting() returns (n: nat)
      requires Valid()
      ensures n == |Contents()|
    {
      n := count;
    }
  }

  /** The wrapped position is the remainder the increments maintain. */
  lemma HeadSlot(tail: nat, count: nat, size: nat)
    requires tail < size && count <= size
    ensures (tail + count) % size == (if tail + count < size then tail + count else tail + count - size)
  {
    if tail + count >= size {
      assert (tail + count) % size == (tail + count - size) % size;
    }
  }

  // ----- agreement of the two implementations -----

  datatype Call = PushCall(msg: nat) | PullCall | WaitingCall
  datatype Answer = Code(code: PriorityLists.Code) | Message(msg: Option<nat>) | Count(n: nat)

  /** The answers of the ring buffer holding `s`. */
  function RingAnswers(s: seq<nat>, cap: nat, calls: seq<Call>): seq<Answer>
    decreases |calls|
  {
    if calls == [] then [] else
      match calls[0]
      case PushCall(m) =>
        if |s| < cap then [Code(Ok)] + RingAnswers(s + [m], cap, calls[1..])
        else [Code(Full)] + RingAnswers(s, cap, calls[1..])
      case PullCall =>
        if s == [] then [Message(None)] + RingAnswers(s, cap, calls[1..])
        else [Message(Some(s[0]))] + RingAnswers(s[1..], cap, calls[1..])
      case WaitingCall => [Count(|s|)] + RingAnswers(s, cap, calls[1..])
  }

  /** The answers of the bucket queue holding `q` when every push has priority `p`. */
  function BucketAnswers(q: seq<Entry>, cap: nat, p: nat, calls: seq<Call>): seq<Answer>
    decreases |calls|
  {
    if calls == [] then [] else
      match calls[0]
      case PushCall(m) =>
        var r := Push(q, cap, Entry(p, m));
        [Code(r.code)] + BucketAnswers(r.q, cap, p, calls[1..])
      case PullCall =>
        if q == [] then [Message(None)] + BucketAnswers(q, cap, p, calls[1..])
        else [Message(Some(q[0].msg))] + BucketAnswers(q[1..], cap, p, calls[1..])
      case WaitingCall => [Count(|q|)] + BucketAnswers(q, cap, p, calls[1..])
  }

  /**
   * With one constant priority and equal capacity, 0 included, both queues give the
   * same codes, messages and counts to every sequence of calls.
   */
  lemma {:induction false} ImplementationsAgree(s: seq<nat>, cap: nat, p: nat, calls: seq<Call>)
    requires |s| <= cap
    ensures RingAnswers(s, cap, calls) == BucketAnswers(BucketQueues.Entries(p, s), cap, p, calls)
    decreases |calls|
  {
    if calls != [] {
      var q := BucketQueues.Entries(p, s);
      match calls[0]
      case PushCall(m) =>
        InsertAt(q, Entry(p, m), |q|);
        if |s| < cap {
          assert BucketQueues.Entries(p, s + [m]) == Insert(q, Entry(p, m));
          ImplementationsAgree(s + [m], cap, p, calls[1..]);
        } else {
          ImplementationsAgree(s, cap, p, calls[1..]);
        }
      case PullCall =>
        if s == [] {
          ImplementationsAgree(s, cap, p, calls[1..]);
        } else {
          assert BucketQueues.Entries(p, s[1..]) == q[1..];
          ImplementationsAgree(s[1..], cap, p, calls[1..]);
        }
      case WaitingCall =>
        ImplementationsAgree(s, cap, p, calls[1..]);
    }
  }

  // ----- the objects give these answers -----

  lemma RingStep(s: seq<nat>, cap: nat, calls: seq<Call>)
    requires calls != []
    ensures RingAnswers(s, cap, calls) ==
      match calls[0]
      case PushCall(m) =>
        if |s| < cap then [Code(Ok)] + RingAnswers(s + [m], cap, calls[1..])
        else [Code(Full)] + RingAnswers(s, cap, calls[1..])
      case PullCall =>
        if s == [] then [Message(None)] + RingAnswers(s, cap, calls[1..])
        else [Message(Some(s[0]))] + RingAnswers(s[1..], cap, calls[1..])
      case WaitingCall => [Count(|s|)] + RingAnswers(s, cap, calls[1..])
  {
  }

  lemma BucketStep(q: seq<Entry>, cap: nat, p: nat, calls: seq<Call>)
    requires calls != []
    ensures BucketAnswers(q, cap, p, calls) ==
      match calls[0]
      case PushCall(m) =>
        [Code(Push(q, cap, Entry(p, m)).code)] + BucketAnswers(Push(q, cap, Entry(p, m)).q, cap, p, calls[1..])
      case PullCall =>
        if q == [] then [Message(None)] + BucketAnswers(q, cap, p, calls[1..])
        else [Message(Some(q[0].msg))] + BucketAnswers(q[1..], cap, p, calls[1..])
      case WaitingCall => [Count(|q|)] + BucketAnswers(q, cap, p, calls[1..])
  {
  }

  lemma NothingAsked(s: seq<nat>, q: seq<Entry>, cap: nat, p: nat)
    ensures RingAnswers(s, cap, []) == [] && BucketAnswers(q, cap, p, []) == []
  {
  }

  lemma Appended(answers: seq<Answer>, a: Answer, rest: seq<Answer>)
    ensures answers + ([a] + rest) == (answers + [a]) + rest
  {
  }

  /** One call on a ring buffer, as an answer. */
  method AskRing(r: RingQueue, call: Call, p: nat) returns (a: Answer)
    requires r.Valid()
    modifies r, r.messages
    ensures r.Valid()
    ensures var s := old(r.Contents());
      match call
      case PushCall(m) =>
        if |s| < r.size then a == Code(Ok) && r.Contents() == s + [m] else a == Code(Full) && r.Contents() == s
      case PullCall =>
        if s == [] then a == Message(None) && r.Contents() == s else a == Message(Some(s[0])) && r.Contents() == s[1..]
      case WaitingCall => a == Count(|s|) && r.Contents() == s
  {
    match call {
      case PushCall(m) =>
        var code := r.Push(m, p);
        a := Code(code);
      case PullCall =>
        var msg := r.Pull();
        a := Message(msg);
      case WaitingCall =>
        var n := r.Waiting();
        a := Count(n);
    }
  }

  /** A run of calls on a ring buffer. */
  method RunRing(r: RingQueue, p: nat, calls: seq<Call>) returns (answers: seq<Answer>)
    requires r.Valid()
    modifies r, r.messages
    ensures r.Valid() && answers == RingAnswers(old(r.Contents()), r.size, calls)
  {
    hide RingAnswers;
    answers := [];
    assert calls[0..] == calls;
    for i := 0 to |calls|
      invariant r.Valid()
      invariant answers + RingAnswers(r.Contents(), r.size, calls[i..]) == RingAnswers(old(r.Contents()), r.size, calls)
    {
      assert calls[i..][0] == calls[i] && calls[i..][1..] == calls[i + 1..];
      RingStep(r.Contents(), r.size, calls[i..]);
      var a := AskRing(r, calls[i], p);
      Appended(answers, a, RingAnswers(r.Contents(), r.size, calls[i + 1..]));
      answers := answers + [a];
    }
    NothingAsked(r.Contents(), [], r.size, p);
  }

  /** One call on a bucket queue, as an answer. */
  method AskBuckets(b: BucketQueues.BucketQueue, call: Call, p: nat) returns (a: Answer)
    requires b.Valid() && p < PRIORITIES
    modifies b, b.priorities, b.cells
    ensures b.Valid() && b.Capacity() == old(b.Capacity()) && b.cells == old(b.cells)
    ensures var q := old(b.Contents());
      match call
      case PushCall(m) =>
        var r := Push(q, old(b.Capacity()), Entry(p, m));
        a == Code(r.code) && b.Contents() == r.q
      case PullCall =>
        if q == [] then a == Message(None) && b.Contents() == q
        else a == Message(Some(q[0].msg)) && b.Contents() == q[1..]
      case WaitingCall => a == Count(|q|) && b.Contents() == q
  {
    hide Push, Insert, BucketQueues.Flatten;
    match call {
      case PushCall(m) =>
        var code, lost := b.Push(m, p);
        a := Code(code);
      case PullCall =>
        var msg := b.Pull();
        a := Message(msg);
      case WaitingCall =>
        var n := b.Waiting();
        a := Count(n);
    }
  }

  /** A run of calls on a bucket queue, every push at priority `p`. */
  method RunBuckets(b: BucketQueues.BucketQueue, p: nat, calls: seq<Call>) returns (answers: seq<Answer>)
    requires b.Valid() && p < PRIORITIES
    modifies b, b.priorities, b.cells
    ensures b.Valid() && answers == BucketAnswers(old(b.Contents()), old(b.Capacity()), p, calls)
  {
    hide BucketAnswers, Push, Insert, BucketQueues.Flatten;
    answers := [];
    ghost var cap := b.Capacity();
    assert calls[0..] == calls;
    for i := 0 to |calls|
      invariant b.Valid() && b.Capacity() == cap && b.cells == old(b.cells)
      invariant answers + BucketAnswers(b.Contents(), cap, p, calls[i..]) ==
                BucketAnswers(old(b.Contents()), cap, p, calls)
    {
      assert calls[i..][0] == calls[i] && calls[i..][1..] == calls[i + 1..];
      BucketStep(b.Contents(), cap, p, calls[i..]);
      var a := AskBuckets(b, calls[i], p);
      Appended(answers, a, BucketAnswers(b.Contents(), cap, p, calls[i + 1..]));
      answers := answers + [a];
    }
    NothingAsked([], b.Contents(), cap, p);
  }

  /** Two new queues of one size give the same answers to every sequence of calls at one priority. */
  method Compare(sz: nat, p: nat, calls: seq<Call>) returns (ring: seq<Answer>, buckets: seq<Answer>)
    requires p < PRIORITIES
    ensures ring == buckets && ring == RingAnswers([], sz, calls)
  {
    hide RingAnswers, BucketAnswers, Push, Insert, BucketQueues.Flatten;
    var r := new RingQueue(sz);
    var b := new BucketQueues.BucketQueue(sz);
    ImplementationsAgree([], sz, p, calls);
    assert BucketQueues.Entries(p, []) == [];
    ring := RunRing(r, p, calls);
    buckets := RunBuckets(b, p, calls);
  }
}
