/**
 * The bounded producer/consumer buffer of ThreadCommunication.java (class
 * `Buffer`), modelled sequentially. A `while (cond) wait();` guard becomes a
 * "would wait" answer: the call returns without touching the queue, which is
 * what the waiting thread observes until another thread changes the buffer.
 */
module ThreadCommunication {
  import opened JavaLang

  /** The abstract state of a Buffer: its queue (head first) and its capacity. */
  datatype BufferState = BufferState(queue: seq<Int32>, capacity: Int32)

  /** `put(data)` on state s: None when the call would wait (size == capacity). */
  function PutStep(s: BufferState, data: Int32): Option<BufferState>
  {
    if |s.queue| == s.capacity then None
    else Some(BufferState(s.queue + [data], s.capacity))
  }

  /** `get()` on state s: None when the call would wait (the queue is empty). */
  function GetStep(s: BufferState): Option<(Int32, BufferState)>
  {
    if s.queue == [] then None
    else Some((s.queue[0], BufferState(s.queue[1..], s.capacity)))
  }

  /** The capacity invariant 0 <= size <= capacity. */
  predicate Bounded(s: BufferState)
  {
    |s.queue| <= s.capacity
  }

  /** put and get each keep the capacity invariant. */
  lemma StepsKeepBound(s: BufferState, data: Int32)
    requires Bounded(s)
    ensures PutStep(s, data).Some? ==> Bounded(PutStep(s, data).value)
    ensures GetStep(s).Some? ==> Bounded(GetStep(s).value.1)
  {
  }

  /** With a negative capacity the guard `size == capacity` never holds, so put never waits. */
  lemma NegativeCapacityNeverFull(s: BufferState, data: Int32)
    requires s.capacity < 0
    ensures PutStep(s, data).Some?
    ensures !Bounded(s)
  {
  }

  // ---------------------------------------------------------------------------
  // Traces of calls

  /** One call on the buffer, by a producer or by a consumer. */
  datatype Call = PutCall(data: Int32) | GetCall

  /**
   * The result of running a sequence of calls: the final state, the values
   * the completed gets returned (`taken`) and the values the completed puts
   * stored (`given`), each in completion order.
   */
  datatype Trace = Trace(final: BufferState, taken: seq<Int32>, given: seq<Int32>)

  /** Runs calls in order; a call that would wait completes nothing. */
  function Run(s: BufferState, calls: seq<Call>): Trace
    decreases |calls|
  {
    if calls == [] then Trace(s, [], [])
    else match calls[0]
      case PutCall(x) =>
        (match PutStep(s, x)
         case None => Run(s, calls[1..])
         case Some(s') => var t := Run(s', calls[1..]); Trace(t.final, t.taken, [x] + t.given))
      case GetCall() =>
        (match GetStep(s)
         case None => Run(s, calls[1..])
         case Some(p) => var t := Run(p.1, calls[1..]); Trace(t.final, [p.0] + t.taken, t.given))
  }

  /**
   * FIFO and no loss or duplication: what was taken, followed by what is
   * still queued, is exactly what was queued at the start followed by what
   * was given, in order.
   */
  lemma {:induction false} RunIsFifo(s: BufferState, calls: seq<Call>)
    ensures Run(s, calls).taken + Run(s, calls).final.queue == s.queue + Run(s, calls).given
    ensures Run(s, calls).final.capacity == s.capacity
    decreases |calls|
  {
    if calls != [] {
      match calls[0]
      case PutCall(x) =>
        match PutStep(s, x) {
          case None => RunIsFifo(s, calls[1..]);
          case Some(s') =>
            RunIsFifo(s', calls[1..]);
            var t := Run(s', calls[1..]);
            assert t.taken + t.final.queue == (s.queue + [x]) + t.given;
            assert s.queue + ([x] + t.given) == (s.queue + [x]) + t.given;
        }
      case GetCall() =>
        match GetStep(s) {
          case None => RunIsFifo(s, calls[1..]);
          case Some(p) =>
            RunIsFifo(p.1, calls[1..]);
            var t := Run(p.1, calls[1..]);
            assert t.taken + t.final.queue == s.queue[1..] + t.given;
            assert s.queue == [s.queue[0]] + s.queue[1..];
            assert ([p.0] + t.taken) + t.final.queue == [p.0] + (t.taken + t.final.queue);
        }
    }
  }

  /** Started empty, the values returned by get are a prefix of the values passed to put, in order. */
  lemma TakenIsPrefixOfGiven(capacity: Int32, calls: seq<Call>)
    ensures var t := Run(BufferState([], capacity), calls);
            |t.taken| <= |t.given| && t.taken == t.given[..|t.taken|]
  {
    RunIsFifo(BufferState([], capacity), calls);
    var t := Run(BufferState([], capacity), calls);
    assert t.taken + t.final.queue == t.given;
    assert (t.taken + t.final.queue)[..|t.taken|] == t.taken;
  }

  /**
   * Whatever the interleaving, once as many gets as puts have completed on a
   * new buffer, the consumer has received every value, in the order given,
   * and the buffer is empty again.
   */
  lemma CompletedRunReturnsAllGiven(capacity: Int32, calls: seq<Call>)
    requires |Run(BufferState([], capacity), calls).taken| == |Run(BufferState([], capacity), calls).given|
    ensures Run(BufferState([], capacity), calls).taken == Run(BufferState([], capacity), calls).given
    ensures Run(BufferState([], capacity), calls).final.queue == []
  {
    TakenIsPrefixOfGiven(capacity, calls);
    RunIsFifo(BufferState([], capacity), calls);
    var t := Run(BufferState([], capacity), calls);
    assert t.given[..|t.taken|] == t.given;
    assert |t.taken + t.final.queue| == |t.given|;
  }

  /** Every state reached from a bounded one by any trace is bounded. */
  lemma {:induction false} RunKeepsBound(s: BufferState, calls: seq<Call>)
    requires Bounded(s)
    ensures Bounded(Run(s, calls).final)
    decreases |calls|
  {
    if calls != [] {
      match calls[0]
      case PutCall(x) =>
        StepsKeepBound(s, x);
        match PutStep(s, x) {
          case None => RunKeepsBound(s, calls[1..]);
          case Some(s') => RunKeepsBound(s', calls[1..]);
        }
      case GetCall() =>
        StepsKeepBound(s, 0);
        match GetStep(s) {
          case None => RunKeepsBound(s, calls[1..]);
          case Some(p) => RunKeepsBound(p.1, calls[1..]);
        }
    }
  }

  /** A new buffer with a non-negative capacity stays within its capacity whatever its callers do. */
  lemma NewBufferStaysBounded(capacity: Int32, calls: seq<Call>)
    requires capacity >= 0
    ensures 0 <= |Run(BufferState([], capacity), calls).final.queue| <= capacity
  {
    RunKeepsBound(BufferState([], capacity), calls);
    RunIsFifo(BufferState([], capacity), calls);
  }

  /** put(x) on an empty buffer followed by get() returns x and leaves the buffer empty, unless the capacity is 0. */
  lemma PutThenGet(capacity: Int32, x: Int32)
    ensures capacity != 0 ==> Run(BufferState([], capacity), [PutCall(x), GetCall]) == Trace(BufferState([], capacity), [x], [x])
    ensures capacity == 0 ==> Run(BufferState([], capacity), [PutCall(x), GetCall]) == Trace(BufferState([], capacity), [], [])
  {
    var s0 := BufferState([], capacity);
    var calls := [PutCall(x), GetCall];
    assert calls[1..] == [GetCall];
    assert [GetCall][1..] == [];
    if capacity != 0 {
      var s1 := BufferState([x], capacity);
      assert [] + [x] == [x] && [x][1..] == [];
      assert PutStep(s0, x) == Some(s1);
      assert GetStep(s1) == Some((x, s0));
      assert Run(s0, []) == Trace(s0, [], []);
      assert Run(s1, [GetCall]) == Trace(s0, [x], []);
    } else {
      assert PutStep(s0, x) == None;
      assert GetStep(s0) == None;
      assert Run(s0, [GetCall]) == Trace(s0, [], []);
    }
  }

  // ---------------------------------------------------------------------------
  // The Buffer object

  /** `class Buffer`: a LinkedList queue bounded by `capacity`. */
  class Buffer {
    var queue: seq<Int32>
    var capacity: Int32

    function State(): BufferState
      reads this
    {
      BufferState(queue, capacity)
    }

    /** `new Buffer(capacity)`: empty, with the given capacity, whatever its sign. */
    constructor (capacity: Int32)
      ensures queue == [] && this.capacity == capacity
    {
      queue := [];
      this.capacity := capacity;
    }

    /**
     * `put(data)`. Returns false where the Java method would wait (the
     * queue size equals the capacity); otherwise appends data at the tail.
     */
    method Put(data: Int32) returns (stored: bool)
      modifies this
      ensures stored <==> |old(queue)| != old(capacity)
      ensures stored ==> queue == old(queue) + [data]
      ensures !stored ==> queue == old(queue)
      ensures capacity == old(capacity)
      ensures stored ==> Some(State()) == PutStep(old(State()), data)
      ensures old(Bounded(State())) ==> Bounded(State())
    {
      stored := |queue| != capacity;
      if stored {
        queue := queue + [data];
      }
    }

    /**
     * `get()`. Returns None where the Java method would wait (the queue is
     * empty); otherwise removes and returns the head.
     */
    method Get() returns (data: Option<Int32>)
      modifies this
      ensures data.None? <==> old(queue) == []
      ensures data.Some? ==> data.value == old(queue)[0] && queue == old(queue)[1..]
      ensures data.None? ==> queue == old(queue)
      ensures capacity == old(capacity)
      ensures data.Some? ==> GetStep(old(State())) == Some((data.value, State()))
      ensures old(Bounded(State())) ==> Bounded(State())
    {
      if queue == [] {
        data := None;
      } else {
        data := Some(queue[0]);
        queue := queue[1..];
      }
    }
  }

  /**
   * The producer/consumer run of `main` on `new Buffer(5)`, with each of the
   * ten puts of 1..10 followed by one get: the consumer receives 1..10 in order.
   */
  method ProducerConsumerDemo() returns (consumed: seq<Int32>)
    ensures consumed == [1, 2, 3, 4, 5, 6, 7, 8, 9, 10]
  {
    var buffer := new Buffer(5);
    consumed := [];
    var i := 1;
    while i <= 10
      invariant 1 <= i <= 11
      invariant buffer.queue == [] && buffer.capacity == 5
      invariant |consumed| == i - 1
      invariant forall k :: 0 <= k < |consumed| ==> consumed[k] == k + 1
    {
      var stored := buffer.Put(i);
      var data := buffer.Get();
      consumed := consumed + [data.value];
      i := i + 1;
    }
  }
}
