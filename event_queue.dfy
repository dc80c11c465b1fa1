/**
 * `PlayerEventQueue`: the same ring buffer as the player command queue, with a
 * static `instance` whose guard in `getInstance` differs: it constructs only
 * when `instance === null`, while the field is declared without an
 * initialiser and so starts out `undefined`.
 */
module EventQueue {
  import opened Wrappers
  import Ring

  class PlayerEventQueue<T(0)> {
    const queue: array<T>
    var head: nat
    var tail: nat

    ghost predicate Valid()
      reads this
    {
      queue.Length == Ring.SIZE && head < Ring.SIZE && tail < Ring.SIZE
    }

    /** The accepted items not yet read, oldest first. */
    ghost function Contents(): seq<T>
      reads this, queue
      requires Valid()
    {
      Ring.Pending(queue[..], head, tail)
    }

    /** The constructor runs `setup`: SIZE blank slots, `head == tail == 0`. */
    constructor (blank: T)
      ensures Valid() && fresh(queue)
      ensures queue[..] == seq(Ring.SIZE, _ => blank)
      ensures head == 0 && tail == 0
      ensures Contents() == []
    {
      var slots := new T[Ring.SIZE];
      var i := 0;
      while i < Ring.SIZE
        invariant 0 <= i <= Ring.SIZE
        invariant forall k :: 0 <= k < i ==> slots[k] == blank
      {
        slots[i] := blank;
        i := i + 1;
      }
      queue := slots;
      head, tail := 0, 0;
    }

    /** `add`: write slot `tail` and advance it, unless the buffer is full; then drop `ev`. */
    method Add(ev: T)
      requires Valid()
      modifies this, queue
      ensures Valid() && head == old(head)
      ensures Ring.Next(old(tail)) == head ==> tail == old(tail) && queue[..] == old(queue[..])
      ensures Ring.Next(old(tail)) != head ==>
        tail == Ring.Next(old(tail)) && queue[..] == old(queue[..])[old(tail) := ev]
      ensures Contents() == Ring.Accept(old(Contents()), ev)
    {
      Ring.FullIff(queue[..], head, tail);
      if (tail + 1) % Ring.SIZE != head {
        Ring.AddStep(queue[..], head, tail, ev);
        queue[tail] := ev;
        tail := (tail + 1) % Ring.SIZE;
      }
    }

    /** `get`: nothing when `head == tail`; otherwise slot `head`, and `head` advances. */
    method Get() returns (ev: Option<T>)
      requires Valid()
      modifies this
      ensures Valid() && tail == old(tail) && queue[..] == old(queue[..])
      ensures ev.None? <==> old(head) == old(tail)
      ensures ev.None? ==> head == old(head)
      ensures ev.Some? ==> ev.value == queue[old(head)] && head == Ring.Next(old(head))
      ensures ev == Ring.Front(old(Contents())) && Contents() == Ring.Drop(old(Contents()))
    {
      Ring.EmptyIff(queue[..], head, tail);
      if tail == head {
        return None;
      }
      Ring.GetStep(queue[..], head, tail);
      ev := Some(queue[head]);
      head := (head + 1) % Ring.SIZE;
    }
  }

  /** A JavaScript static slot: never assigned (`undefined`), `null`, or an object. */
  datatype StaticRef<C> = Undefined | Null | Instance(obj: C)

  /** The static side of the class: `instance`, declared without an initialiser. */
  class EventQueueStatics<T(0)> {
    var instance: StaticRef<PlayerEventQueue<T>>
    const blank: T

    ghost predicate Valid()
      reads this, if instance.Instance? then {instance.obj} else {}
    {
      instance.Instance? ==> instance.obj.Valid()
    }

    constructor (blank: T)
      ensures Valid() && instance == Undefined && this.blank == blank
    {
      instance := Undefined;
      this.blank := blank;
    }

    /** `getInstance` as written: construct only when `instance === null`, then return `instance`. */
    method GetInstanceAsWritten() returns (r: StaticRef<PlayerEventQueue<T>>)
      requires Valid()
      modifies this
      ensures Valid() && r == instance
      ensures old(instance) == Null ==> r.Instance? && fresh(r.obj) && r.obj.Contents() == []
      ensures old(instance) != Null ==> instance == old(instance)
    {
      if instance == Null {
        var q := new PlayerEventQueue(blank);
        instance := Instance(q);
      }
      r := instance;
    }

    /** `getInstance` with the guard `!instance` of the command queue: construct unless an object is held. */
    method GetInstance() returns (q: PlayerEventQueue<T>)
      requires Valid()
      modifies this
      ensures Valid() && instance == Instance(q) && q.Valid()
      ensures old(instance).Instance? ==> q == old(instance).obj
      ensures !old(instance).Instance? ==> fresh(q) && fresh(q.queue) && q.Contents() == []
    {
      if !instance.Instance? {
        q := new PlayerEventQueue(blank);
        instance := Instance(q);
      }
      q := instance.obj;
    }
  }

  /**
   * As written, no call ever constructs the queue: the static starts
   * `undefined`, which is not `=== null`, so every call returns `undefined`.
   */
  method NeverConstructedAsWritten<T(0)>(blank: T) returns (first: StaticRef<PlayerEventQueue<T>>, second: StaticRef<PlayerEventQueue<T>>)
    ensures first == Undefined && second == Undefined
  {
    var statics := new EventQueueStatics(blank);
    first := statics.GetInstanceAsWritten();
    second := statics.GetInstanceAsWritten();
  }

  /** With the corrected guard the first call constructs an empty queue and later calls return it. */
  method ConstructedOnceCorrected<T(0)>(blank: T) returns (first: PlayerEventQueue<T>, second: PlayerEventQueue<T>)
    ensures first == second
    ensures first.Valid() && first.Contents() == []
  {
    var statics := new EventQueueStatics(blank);
    first := statics.GetInstance();
    second := statics.GetInstance();
  }
}
