/**
 * The ring buffer shared by the player command queue and the player event
 * queue: SIZE slots, a `head` (next slot to read) and a `tail` (next slot to
 * write), one slot always left free so that "empty" is `head == tail` and
 * "full" is `(tail + 1) % SIZE == head`. An add on a full buffer is dropped
 * silently; a get on an empty buffer yields nothing.
 *
 * This module holds the abstraction (the pending items between head and tail),
 * the lemmas that one add or one get moves that abstraction like a bounded FIFO
 * queue, and a reference queue on sequences with the FIFO law over any run of
 * operations.
 */
module Ring {
  import opened Wrappers

  /** The number of slots (`SIZE` in both queue classes). */
  const SIZE: nat := 20

  /** One slot is always free, so at most this many items are held. */
  const CAPACITY: nat := SIZE - 1

  /** The index after `i`, wrapping round at SIZE. */
  function Next(i: nat): (j: nat)
    requires i < SIZE
    ensures j < SIZE
    ensures j == if i == SIZE - 1 then 0 else i + 1
  {
    (i + 1) % SIZE
  }

  /** How many items lie between `head` and `tail`: `(tail - head) mod SIZE`. */
  function Count(head: nat, tail: nat): (n: nat)
    requires head < SIZE && tail < SIZE
    ensures n < SIZE
    ensures n == if head <= tail then tail - head else SIZE - head + tail
  {
    (tail - head) % SIZE
  }

  /** The items waiting in `storage`, oldest first. */
  function Pending<T>(storage: seq<T>, head: nat, tail: nat): (q: seq<T>)
    requires |storage| == SIZE && head < SIZE && tail < SIZE
  {
    seq(Count(head, tail), i requires 0 <= i < Count(head, tail) => storage[(head + i) % SIZE])
  }

  /** Empty is exactly `head == tail`. */
  lemma EmptyIff<T>(storage: seq<T>, head: nat, tail: nat)
    requires |storage| == SIZE && head < SIZE && tail < SIZE
    ensures Pending(storage, head, tail) == [] <==> head == tail
  {
  }

  /** Full is exactly `(tail + 1) % SIZE == head`, and a full buffer holds CAPACITY items. */
  lemma FullIff<T>(storage: seq<T>, head: nat, tail: nat)
    requires |storage| == SIZE && head < SIZE && tail < SIZE
    ensures Next(tail) == head <==> |Pending(storage, head, tail)| == CAPACITY
    ensures |Pending(storage, head, tail)| <= CAPACITY
  {
  }

  /**
   * An accepted add writes slot `tail` and advances `tail`: the item joins the
   * back of the queue, and the count rises by one.
   */
  lemma AddStep<T>(storage: seq<T>, head: nat, tail: nat, x: T)
    requires |storage| == SIZE && head < SIZE && tail < SIZE
    requires Next(tail) != head
    ensures Count(head, Next(tail)) == Count(head, tail) + 1
    ensures Pending(storage[tail := x], head, Next(tail)) == Pending(storage, head, tail) + [x]
  {
    var before, after := Pending(storage, head, tail), Pending(storage[tail := x], head, Next(tail));
    assert |after| == |before| + 1;
    forall i | 0 <= i < |after|
      ensures after[i] == (before + [x])[i]
    {
      if i < |before| {
        assert (head + i) % SIZE != tail;
      } else {
        assert (head + i) % SIZE == tail;
      }
    }
  }

  /**
   * A get on a non-empty buffer returns slot `head`, which is the oldest item,
   * and advancing `head` removes exactly that item; the count falls by one.
   */
  lemma GetStep<T>(storage: seq<T>, head: nat, tail: nat)
    requires |storage| == SIZE && head < SIZE && tail < SIZE
    requires head != tail
    ensures Count(Next(head), tail) == Count(head, tail) - 1
    ensures Pending(storage, head, tail) != []
    ensures Pending(storage, head, tail)[0] == storage[head]
    ensures Pending(storage, Next(head), tail) == Pending(storage, head, tail)[1..]
  {
    var before, after := Pending(storage, head, tail), Pending(storage, Next(head), tail);
    assert |after| == |before| - 1;
    forall i | 0 <= i < |after|
      ensures after[i] == before[1..][i]
    {
      assert (Next(head) + i) % SIZE == (head + (i + 1)) % SIZE;
    }
  }

  // ---------------------------------------------------------------------
  // Reference queue on sequences

  /** What an add does to the queued items: append, unless CAPACITY are held. */
  function Accept<T>(q: seq<T>, x: T): seq<T>
  {
    if |q| < CAPACITY then q + [x] else q
  }

  /** What a get returns: the oldest item, or nothing when empty. */
  function Front<T>(q: seq<T>): Option<T>
  {
    if q == [] then None else Some(q[0])
  }

  /** What a get leaves: all but the oldest item. */
  function Drop<T>(q: seq<T>): seq<T>
  {
    if q == [] then [] else q[1..]
  }

  datatype Op<T> = Add(item: T) | Get

  /** Of a run: the items gets returned, the items adds accepted, and what is left queued. */
  datatype Trace<T> = Trace(returned: seq<T>, accepted: seq<T>, rest: seq<T>)

  function Run<T>(q: seq<T>, ops: seq<Op<T>>): Trace<T>
    decreases |ops|
  {
    if ops == [] then Trace([], [], q)
    else match ops[0]
      case Add(x) =>
        var t := Run(Accept(q, x), ops[1..]);
        if |q| < CAPACITY then Trace(t.returned, [x] + t.accepted, t.rest) else t
      case Get =>
        var t := Run(Drop(q), ops[1..]);
        if q == [] then t else Trace([q[0]] + t.returned, t.accepted, t.rest)
  }

  /**
   * FIFO: over any run, the items queued at the start followed by the items
   * accepted come out as the items returned followed by the items still queued.
   */
  lemma {:induction false} RunIsFifo<T>(q: seq<T>, ops: seq<Op<T>>)
    ensures q + Run(q, ops).accepted == Run(q, ops).returned + Run(q, ops).rest
    decreases |ops|
  {
    if ops != [] {
      match ops[0]
      case Add(x) =>
        RunIsFifo(Accept(q, x), ops[1..]);
        if |q| < CAPACITY {
          assert q + ([x] + Run(q + [x], ops[1..]).accepted) == (q + [x]) + Run(q + [x], ops[1..]).accepted;
        }
      case Get =>
        RunIsFifo(Drop(q), ops[1..]);
        if q != [] {
          assert q == [q[0]] + q[1..];
          assert q + Run(q[1..], ops[1..]).accepted == [q[0]] + (q[1..] + Run(q[1..], ops[1..]).accepted);
        }
    }
  }

  /** However many adds a run makes, at most CAPACITY items are ever held. */
  lemma {:induction false} RunBounded<T>(q: seq<T>, ops: seq<Op<T>>)
    requires |q| <= CAPACITY
    ensures |Run(q, ops).rest| <= CAPACITY
    decreases |ops|
  {
    if ops != [] {
      match ops[0]
      case Add(x) => RunBounded(Accept(q, x), ops[1..]);
      case Get => RunBounded(Drop(q), ops[1..]);
    }
  }
}
