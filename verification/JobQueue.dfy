/** The bounded job queue (src/server/gateway/queue.c): the ring buffer and what one pass through
    the critical section of push, pop and stop does to it. */
module JobQueue {
  import opened Common

  /** The queue as a sequence, oldest job first. */
  datatype Queue<T> = Queue(items: seq<T>, stop: bool)

  /** `PushWaits` and `PopWaits`: the loop condition sends the thread to `pthread_cond_wait`. */
  datatype PushOutcome = Pushed | PushWaits | Refused
  datatype PopOutcome<T> = Popped(job: T) | PopWaits | Drained

  function PushResult<T>(q: Queue<T>): PushOutcome {
    if q.stop then Refused else if |q.items| >= MAX_QUEUE_DEPTH then PushWaits else Pushed
  }

  function AfterPush<T>(q: Queue<T>, job: T): Queue<T> {
    if PushResult(q).Pushed? then q.(items := q.items + [job]) else q
  }

  function PopResult<T>(q: Queue<T>): PopOutcome<T> {
    if q.items != [] then Popped(q.items[0]) else if q.stop then Drained else PopWaits
  }

  function AfterPop<T>(q: Queue<T>): Queue<T> {
    if q.items != [] then q.(items := q.items[1..]) else q
  }

  class Ring<T(0)> {
    const items: array<T>
    var head: nat
    var tail: nat
    var count: nat
    var stop: bool

    ghost predicate Valid()
      reads this
    {
      && items.Length == MAX_QUEUE_DEPTH
      && head < MAX_QUEUE_DEPTH && count <= MAX_QUEUE_DEPTH
      && tail == (head + count) % MAX_QUEUE_DEPTH
    }

    ghost function Slot(i: nat): T
      reads this, items
      requires Valid()
    {
      items[(head + i) % MAX_QUEUE_DEPTH]
    }

    ghost function View(): (q: Queue<T>)
      reads this, items
      requires Valid()
      ensures |q.items| == count && forall i :: 0 <= i < count ==> q.items[i] == Slot(i)
    {
      Queue(seq(count, i requires 0 <= i < count reads this, items requires Valid() => Slot(i)), stop)
    }

    constructor ()
      ensures Valid() && fresh(items) && View() == Queue([], false)
    {
      items := new T[MAX_QUEUE_DEPTH];
      head, tail, count, stop := 0, 0, 0, false;
    }

    method Push(job: T) returns (r: PushOutcome)
      requires Valid()
      modifies this`tail, this`count, items
      ensures Valid() && r == PushResult(old(View())) && View() == AfterPush(old(View()), job)
    {
      if !stop && count >= MAX_QUEUE_DEPTH { return PushWaits; }
      if stop { return Refused; }
      ghost var was := View();
      items[tail] := job;
      tail := (tail + 1) % MAX_QUEUE_DEPTH;
      count := count + 1;
      RingStep(head, count - 1);
      forall i | 0 <= i < count ensures Slot(i) == (was.items + [job])[i] {
        if i < count - 1 { RingDistinct(head, i, count - 1); }
      }
      return Pushed;
    }

    method Pop() returns (r: PopOutcome<T>)
      requires Valid()
      modifies this`head, this`count
      ensures Valid() && r == PopResult(old(View())) && View() == AfterPop(old(View()))
    {
      if !stop && count == 0 { return PopWaits; }
      if stop && count == 0 { return Drained; }
      ghost var was, h := View(), head;
      RingStart(h);
      var job := items[head];
      assert was.items[0] == job;
      head := (head + 1) % MAX_QUEUE_DEPTH;
      count := count - 1;
      forall i | 0 <= i < count ensures Slot(i) == was.items[i + 1] {
        RingShift(h, i);
      }
      RingShift(h, count);
      return Popped(job);
    }

    method Stop()
      requires Valid()
      modifies this`stop
      ensures Valid() && View() == old(View()).(stop := true)
    {
      stop := true;
    }
  }

  lemma RingStep(h: nat, n: nat)
    ensures ((h + n) % MAX_QUEUE_DEPTH + 1) % MAX_QUEUE_DEPTH == (h + n + 1) % MAX_QUEUE_DEPTH
  {
  }

  lemma RingStart(h: nat)
    requires h < MAX_QUEUE_DEPTH
    ensures (h + 0) % MAX_QUEUE_DEPTH == h
  {
  }

  lemma RingShift(h: nat, i: nat)
    ensures ((h + 1) % MAX_QUEUE_DEPTH + i) % MAX_QUEUE_DEPTH == (h + (i + 1)) % MAX_QUEUE_DEPTH
  {
  }

  lemma RingDistinct(h: nat, i: nat, j: nat)
    requires i < j < i + MAX_QUEUE_DEPTH
    ensures (h + i) % MAX_QUEUE_DEPTH != (h + j) % MAX_QUEUE_DEPTH
  {
  }
}
