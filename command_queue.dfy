/**
 * `PlayerCommandQueue`: a ring buffer of Ring.SIZE slots over an array, with
 * the class's static `instance` that `getInstance` creates on first use. The
 * element type is generic; `blank` is the empty record each slot is filled
 * with by `setup`.
 */
module CommandQueue {
  import opened Wrappers
  import Ring

  class PlayerCommandQueue<T(0)> {
    const queue: array<T>
    var head: nat
    var tail: nat

    ghost predicate Valid()
      reads this
    {
      queue.Length == Ring.SIZE && head < Ring.SIZE && tail < Ring.SIZE
    }

    /** The accepted items not yet read, oldest first. */
    ghost function Contents(): seq<T>
      reads this, queue
      requires Valid()
    {
      Ring.Pending(queue[..], head, tail)
    }

    /** The constructor runs `setup`: SIZE blank slots, `head == tail == 0`. */
    constructor (blank: T)
      ensures Valid() && fresh(queue)
      ensures queue[..] == seq(Ring.SIZE, _ => blank)
      ensures head == 0 && tail == 0
      ensures Contents() == []
    {
      var slots := new T[Ring.SIZE];
      var i := 0;
      while i < Ring.SIZE
        invariant 0 <= i <= Ring.SIZE
        invariant forall k :: 0 <= k < i ==> slots[k] == blank
      {
        slots[i] := blank;
        i := i + 1;
      }
      queue := slots;
      head, tail := 0, 0;
    }

    /** `add`: write slot `tail` and advance it, unless the buffer is full; then drop `ev`. */
    method Add(ev: T)
      requires Valid()
      modifies this, queue
      ensures Valid() && head == old(head)
      ensures Ring.Next(old(tail)) == head ==> tail == old(tail) && queue[..] == old(queue[..])
      ensures Ring.Next(old(tail)) != head ==>
        tail == Ring.Next(old(tail)) && queue[..] == old(queue[..])[old(tail) := ev]
      ensures Contents() == Ring.Accept(old(Contents()), ev)
    {
      Ring.FullIff(queue[..], head, tail);
      if (tail + 1) % Ring.SIZE != head {
        Ring.AddStep(queue[..], head, tail, ev);
        queue[tail] := ev;
        tail := (tail + 1) % Ring.SIZE;
      }
    }

    /** `get`: nothing when `head == tail`; otherwise slot `head`, and `head` advances. */
    method Get() returns (ev: Option<T>)
      requires Valid()
      modifies this
      ensures Valid() && tail == old(tail) && queue[..] == old(queue[..])
      ensures ev.None? <==> old(head) == old(tail)
      ensures ev.None? ==> head == old(head)
      ensures ev.Some? ==> ev.value == queue[old(head)] && head == Ring.Next(old(head))
      ensures ev == Ring.Front(old(Contents())) && Contents() == Ring.Drop(old(Contents()))
    {
      Ring.EmptyIff(queue[..], head, tail);
      if tail == head {
        return None;
      }
      Ring.GetStep(queue[..], head, tail);
      ev := Some(queue[head]);
      head := (head + 1) % Ring.SIZE;
    }
  }

  /** The static side of the class: `instance`, which starts out undefined (falsy). */
  class CommandQueueStatics<T(0)> {
    var instance: PlayerCommandQueue?<T>
    const blank: T

    ghost predicate Valid()
      reads this, instance
    {
      instance != null ==> instance.Valid()
    }

    constructor (blank: T)
      ensures Valid() && instance == null && this.blank == blank
    {
      instance := null;
      this.blank := blank;
    }

    /** `getInstance`: construct when `!instance`, then return `instance`. */
    method GetInstance() returns (q: PlayerCommandQueue<T>)
      requires Valid()
      modifies this
      ensures Valid() && instance == q && q.Valid()
      ensures old(instance) != null ==> q == old(instance)
      ensures old(instance) == null ==> fresh(q) && fresh(q.queue) && q.Contents() == []
    {
      if instance == null {
        instance := new PlayerCommandQueue(blank);
      }
      q := instance;
    }
  }

  /** Every call after the first returns the object the first call created. */
  method SameInstanceEveryCall<T(0)>(blank: T) returns (first: PlayerCommandQueue<T>, second: PlayerCommandQueue<T>)
    ensures first == second
    ensures first.Valid() && first.Contents() == []
  {
    var statics := new CommandQueueStatics(blank);
    first := statics.GetInstance();
    second := statics.GetInstance();
  }

  /** Two items in, the same two out in order, then nothing. */
  method TwoInTwoOut<T(0)>(blank: T, a: T, b: T) returns (r1: Option<T>, r2: Option<T>, r3: Option<T>)
    ensures r1 == Some(a) && r2 == Some(b) && r3 == None
  {
    var q := new PlayerCommandQueue(blank);
    q.Add(a);
    q.Add(b);
    r1 := q.Get();
    r2 := q.Get();
    r3 := q.Get();
  }

  /** Of Ring.SIZE adds to a fresh queue, the last is dropped: the first CAPACITY items are held, in order. */
  method OverflowDropsLast<T(0)>(blank: T, items: seq<T>) returns (q: PlayerCommandQueue<T>, held: nat)
    requires |items| == Ring.SIZE
    ensures q.Valid() && q.Contents() == items[..Ring.CAPACITY]
    ensures held == Ring.CAPACITY
  {
    q := new PlayerCommandQueue(blank);
    var i := 0;
    while i < |items|
      invariant 0 <= i <= |items|
      invariant q.Valid() && fresh(q.queue)
      invariant q.Contents() == items[..if i < Ring.CAPACITY then i else Ring.CAPACITY]
    {
      q.Add(items[i]);
      i := i + 1;
    }
    held := Ring.Count(q.head, q.tail);
  }
}
