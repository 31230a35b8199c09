/**
 The bounded blocking queue: the ring buffer as the object that is updated under the mutex, and the
 protocol of the threads that block on it.
 */
module BoundedQueue {
  import opened Wrappers

  // ---------------------------------------------------------------------------------------------
  // The ring
  // ---------------------------------------------------------------------------------------------

  /** Position `x` counted around a ring of `cap` slots. */
  function Wrap(x: nat, cap: nat): nat { if x < cap then x else x - cap }

  lemma WrapMod(x: nat, cap: nat)
    requires 0 < cap && x <= cap
    ensures x % cap == Wrap(x, cap)
  {
  }

  /** The `n` slots from `front` on, around the ring. */
  ghost function Window<T>(slots: seq<T>, front: nat, n: nat): (w: seq<T>)
    requires n <= |slots| && (front < |slots| || n == 0)
    ensures |w| == n && forall i :: 0 <= i < n ==> w[i] == slots[Wrap(front + i, |slots|)]
  {
    seq(n, i requires 0 <= i < n => slots[Wrap(front + i, |slots|)])
  }

  lemma WindowPut<T>(slots: seq<T>, front: nat, n: nat, value: T)
    requires n < |slots| && front < |slots|
    ensures Window(slots[Wrap(front + n, |slots|) := value], front, n + 1) == Window(slots, front, n) + [value]
  {
    var after := slots[Wrap(front + n, |slots|) := value];
    assert Window(after, front, n + 1)[..n] == Window(slots, front, n);
  }

  lemma WindowTake<T>(slots: seq<T>, front: nat, n: nat)
    requires 0 < n <= |slots| && front < |slots|
    ensures Window(slots, front, n) == [slots[front]] + Window(slots, Wrap(front + 1, |slots|), n - 1)
  {
    assert Window(slots, front, n)[1..] == Window(slots, Wrap(front + 1, |slots|), n - 1);
  }

  class Ring<T> {
    const buffer: array<T>
    var size: nat
    var front: nat
    var back: nat
    var stopped: bool

    ghost predicate Valid()
      reads this
    {
      && size <= buffer.Length
      && (buffer.Length == 0 ==> front == 0 && back == 0)
      && (buffer.Length > 0 ==> front < buffer.Length && back == Wrap(front + size, buffer.Length))
    }

    ghost function Items(): (s: seq<T>)
      requires Valid()
      reads this, buffer
      ensures |s| == size
    {
      Window(buffer[..], front, size)
    }

    constructor (maxSize: nat, blank: T)
      ensures Valid() && fresh(buffer) && buffer.Length == maxSize && Items() == [] && !stopped
    {
      buffer := new T[maxSize](_ => blank);
      size, front, back, stopped := 0, 0, 0, false;
    }

    predicate IsEmpty()
      reads this
    {
      size == 0
    }

    predicate IsFull()
      reads this
    {
      size == buffer.Length
    }

    method EmplaceInternal(value: T)
      requires Valid() && !IsFull()
      modifies this`size, this`back, buffer
      ensures Valid() && Items() == old(Items()) + [value]
    {
      WrapMod(back + 1, buffer.Length);
      WindowPut(buffer[..], front, size, value);
      buffer[back] := value;
      back := (back + 1) % buffer.Length;
      size := size + 1;
      assert buffer[..] == old(buffer[..])[old(back) := value];
    }

    method PopInternal() returns (value: T)
      requires Valid() && !IsEmpty()
      modifies this`size, this`front
      ensures Valid() && [value] + Items() == old(Items())
    {
      WrapMod(front + 1, buffer.Length);
      WindowTake(buffer[..], front, size);
      value := buffer[front];
      front := (front + 1) % buffer.Length;
      size := size - 1;
    }

    method TryPush(value: T) returns (ok: bool)
      requires Valid()
      modifies this`size, this`back, buffer
      ensures Valid() && ok == (|old(Items())| < buffer.Length && !stopped)
      ensures Items() == if ok then old(Items()) + [value] else old(Items())
    {
      if IsFull() || stopped {
        return false;
      }
      EmplaceInternal(value);
      return true;
    }

    /** `pop` and `try_pop_for` once they have waited; without an item and without a stop, the time ran out. */
    method PopAfterWait() returns (value: Option<T>)
      requires Valid()
      modifies this`size, this`front
      ensures Valid()
      ensures value.None? <==> old(Items()) == [] || stopped
      ensures if value.None? then Items() == old(Items()) else [value.value] + Items() == old(Items())
    {
      if IsEmpty() || stopped {
        return None;
      }
      var v := PopInternal();
      return Some(v);
    }

    method Stop()
      requires Valid()
      modifies this`stopped
      ensures Valid() && stopped && Items() == old(Items())
    {
      stopped := true;
    }
  }

  /** What a thread may call. */
  datatype Call<T> = TryPushCall(value: T) | PopCall | StopCall

  /** A plain bounded first-in-first-out queue. */
  datatype Fifo<T> = Fifo(cap: nat, items: seq<T>, stopped: bool)

  function OnFifo<T>(f: Fifo<T>, c: Call<T>): Fifo<T> {
    if f.stopped then f
    else match c
      case TryPushCall(v) => if |f.items| < f.cap then f.(items := f.items + [v]) else f
      case PopCall => if f.items == [] then f else f.(items := f.items[1..])
      case StopCall => f.(stopped := true)
  }

  function Replay<T>(f: Fifo<T>, calls: seq<Call<T>>): Fifo<T> {
    if calls == [] then f else OnFifo(Replay(f, calls[..|calls| - 1]), calls[|calls| - 1])
  }

  /** What the calls hand out: the oldest item for each pop that finds one. */
  function Handed<T>(f: Fifo<T>, calls: seq<Call<T>>): seq<T> {
    if calls == [] then []
    else
      var before := Replay(f, calls[..|calls| - 1]);
      Handed(f, calls[..|calls| - 1])
      + if calls[|calls| - 1].PopCall? && !before.stopped && before.items != [] then [before.items[0]] else []
  }

  /** What the calls put in: the value of each push that finds room. */
  function Stored<T>(f: Fifo<T>, calls: seq<Call<T>>): seq<T> {
    if calls == [] then []
    else
      var before, c := Replay(f, calls[..|calls| - 1]), calls[|calls| - 1];
      Stored(f, calls[..|calls| - 1])
      + if c.TryPushCall? && !before.stopped && |before.items| < before.cap then [c.value] else []
  }

  /** Whatever is called in whatever order, the ring is the plain queue. */
  method Execute<T>(ring: Ring<T>, calls: seq<Call<T>>) returns (handed: seq<T>)
    requires ring.Valid()
    modifies ring, ring.buffer
    ensures ring.Valid()
    ensures var f := Fifo(ring.buffer.Length, old(ring.Items()), old(ring.stopped));
            Replay(f, calls) == Fifo(ring.buffer.Length, ring.Items(), ring.stopped) && handed == Handed(f, calls)
  {
    handed := [];
    ghost var f := Fifo(ring.buffer.Length, ring.Items(), ring.stopped);
    for i := 0 to |calls|
      invariant ring.Valid()
      invariant Replay(f, calls[..i]) == Fifo(ring.buffer.Length, ring.Items(), ring.stopped)
      invariant handed == Handed(f, calls[..i])
    {
      assert calls[..i + 1][..i] == calls[..i];
      match calls[i]
      case TryPushCall(v) =>
        var _ := ring.TryPush(v);
      case PopCall =>
        var v := ring.PopAfterWait();
        if v.Some? {
          handed := handed + [v.value];
        }
      case StopCall =>
        ring.Stop();
    }
    assert calls[..|calls|] == calls;
  }

  // ---------------------------------------------------------------------------------------------
  // The threads
  // ---------------------------------------------------------------------------------------------

  type Value = nat

  /**
   Threads waiting on one condition variable: still asleep, notified and on their way back to the mutex,
   or on their way back for another reason (spuriously or because their time ran out).
   */
  datatype Waiters = Waiters(asleep: nat, notified: nat, stirred: nat)

  const NONE := Waiters(0, 0, 0)

  /**
   All tests, updates and notifications happen under the mutex, and a wait releases it in the same step as
   it goes to sleep, so what a thread does between locking and unlocking is one action.
   */
  datatype Queue = Queue(
    cap: nat, items: seq<Value>, stopped: bool, consumers: Waiters, producers: Waiters,
    pushed: seq<Value>, popped: seq<Value>)

  function Empty(cap: nat): Queue { Queue(cap, [], false, NONE, NONE, [], []) }

  /** Where a thread comes from when it gets the mutex. */
  datatype From = Fresh | Notified | Stirred

  /** `patient` says whether the caller waits again when it cannot go on; only `try_pop_for` may not. */
  datatype Action =
    | Push(value: Value, from: From) | TryPush(value: Value) | Pop(from: From, patient: bool)
    | StirConsumer | StirProducer | Stop

  predicate Present(w: Waiters, from: From) {
    match from
    case Fresh => true
    case Notified => w.notified > 0
    case Stirred => w.stirred > 0
  }

  function Leave(w: Waiters, from: From): Waiters
    requires Present(w, from)
  {
    match from
    case Fresh => w
    case Notified => w.(notified := w.notified - 1)
    case Stirred => w.(stirred := w.stirred - 1)
  }

  /** `notify_one`: nothing happens when nobody sleeps. */
  function NotifyOne(w: Waiters): Waiters {
    if w.asleep > 0 then w.(asleep := w.asleep - 1, notified := w.notified + 1) else w
  }

  function NotifyAll(w: Waiters): Waiters { w.(asleep := 0, notified := w.notified + w.asleep) }

  function Stir(w: Waiters): Waiters {
    if w.asleep > 0 then w.(asleep := w.asleep - 1, stirred := w.stirred + 1) else w
  }

  function Put(q: Queue, v: Value): Queue {
    q.(items := q.items + [v], pushed := q.pushed + [v], consumers := NotifyOne(q.consumers))
  }

  function Take(q: Queue): Queue
    requires q.items != []
  {
    q.(items := q.items[1..], popped := q.popped + [q.items[0]], producers := NotifyOne(q.producers))
  }

  function Step(q: Queue, a: Action): Queue {
    match a
    case Push(v, from) =>
      if !Present(q.producers, from) then q
      else
        var r := q.(producers := Leave(q.producers, from));
        if q.stopped then r
        else if |q.items| != q.cap then Put(r, v)
        else r.(producers := r.producers.(asleep := r.producers.asleep + 1))
    case TryPush(v) => if |q.items| == q.cap || q.stopped then q else Put(q, v)
    case Pop(from, patient) =>
      if !Present(q.consumers, from) then q
      else
        var r := q.(consumers := Leave(q.consumers, from));
        if q.stopped then r
        else if q.items != [] then Take(r)
        else if patient then r.(consumers := r.consumers.(asleep := r.consumers.asleep + 1))
        else r
    case StirConsumer => q.(consumers := Stir(q.consumers))
    case StirProducer => q.(producers := Stir(q.producers))
    case Stop => q.(stopped := true, consumers := NotifyAll(q.consumers), producers := NotifyAll(q.producers))
  }

  function Run(cap: nat, actions: seq<Action>): Queue {
    if actions == [] then Empty(cap) else Step(Run(cap, actions[..|actions| - 1]), actions[|actions| - 1])
  }

  predicate Served(q: Queue) {
    if q.stopped then q.consumers.asleep == 0 && q.producers.asleep == 0
    else
      && (q.consumers.asleep > 0 ==> |q.items| <= q.consumers.notified)
      && (q.producers.asleep > 0 ==> q.cap - |q.items| <= q.producers.notified)
  }

  predicate Inv(q: Queue) { q.popped + q.items == q.pushed && |q.items| <= q.cap && Served(q) }

  lemma StepInv(q: Queue, a: Action)
    requires Inv(q)
    ensures Inv(Step(q, a)) && Step(q, a).cap == q.cap
  {
    if q.items != [] {
      assert q.popped + q.items == q.popped + [q.items[0]] + q.items[1..];
    }
    if a.Push? || a.TryPush? {
      assert q.popped + (q.items + [a.value]) == q.pushed + [a.value];
    }
  }

  lemma {:induction false} RunInv(cap: nat, actions: seq<Action>)
    ensures Inv(Run(cap, actions)) && Run(cap, actions).cap == cap
  {
    if actions != [] {
      RunInv(cap, actions[..|actions| - 1]);
      StepInv(Run(cap, actions[..|actions| - 1]), actions[|actions| - 1]);
    }
  }

  /** Values come out in the order they went in, each once, and never more than `cap` are inside. */
  lemma {:induction false} FirstInFirstOut(cap: nat, actions: seq<Action>)
    ensures var q := Run(cap, actions); q.popped + q.items == q.pushed && |q.items| <= cap
  {
    RunInv(cap, actions);
  }

  /**
   Before `stop`, a consumer is asleep only while there are no more items than consumers already notified;
   a producer only while there are no more free slots than producers already notified.
   */
  lemma {:induction false} NoLostNotification(cap: nat, actions: seq<Action>)
    ensures var q := Run(cap, actions);
            !q.stopped ==>
              && (q.consumers.asleep > 0 ==> |q.items| <= q.consumers.notified)
              && (q.producers.asleep > 0 ==> cap - |q.items| <= q.producers.notified)
  {
    RunInv(cap, actions);
  }

  /** So a queue with any room at all never has both sides asleep with nobody on the way. */
  lemma {:induction false} NoStandoff(cap: nat, actions: seq<Action>)
    requires cap > 0
    ensures var q := Run(cap, actions);
            q.consumers.asleep > 0 && q.producers.asleep > 0 ==> q.consumers.notified + q.producers.notified >= cap
  {
    RunInv(cap, actions);
  }

  /** After `stop` no thread is asleep, whatever happens next. */
  lemma {:induction false} StopWakesAll(cap: nat, actions: seq<Action>, more: seq<Action>)
    ensures var q := Run(cap, actions + [Stop] + more); q.stopped && q.consumers.asleep == 0 && q.producers.asleep == 0
  {
    RunInv(cap, actions + [Stop] + more);
    StaysStopped(cap, actions + [Stop], more);
  }

  lemma {:induction false} StaysStopped(cap: nat, actions: seq<Action>, more: seq<Action>)
    requires actions != [] && actions[|actions| - 1] == Stop
    ensures Run(cap, actions + more).stopped
  {
    if more == [] {
      assert actions + more == actions;
    } else {
      var fewer := more[..|more| - 1];
      StaysStopped(cap, actions, fewer);
      assert (actions + more)[..|actions + more| - 1] == actions + fewer;
    }
  }

  // ---------------------------------------------------------------------------------------------
  // The threads use it as a plain queue, and wait exactly when they must
  // ---------------------------------------------------------------------------------------------

  /** What a thread that got the mutex asks of a plain queue. */
  function CallOf(q: Queue, a: Action): seq<Call<Value>> {
    match a
    case Push(v, from) => if Present(q.producers, from) then [TryPushCall(v)] else []
    case TryPush(v) => [TryPushCall(v)]
    case Pop(from, _) => if Present(q.consumers, from) then [PopCall] else []
    case Stop => [StopCall]
    case _ => []
  }

  function Calls(cap: nat, actions: seq<Action>): seq<Call<Value>> {
    if actions == [] then []
    else Calls(cap, actions[..|actions| - 1]) + CallOf(Run(cap, actions[..|actions| - 1]), actions[|actions| - 1])
  }

  /** The queue holds, took in and handed out what a plain bounded queue would have. */
  predicate Agrees(q: Queue, calls: seq<Call<Value>>) {
    var f := Fifo(q.cap, [], false);
    && Replay(f, calls) == Fifo(q.cap, q.items, q.stopped)
    && q.pushed == Stored(f, calls) && q.popped == Handed(f, calls)
  }

  lemma OneCallMore(f: Fifo<Value>, calls: seq<Call<Value>>, c: Call<Value>)
    ensures var before := Replay(f, calls);
            && Replay(f, calls + [c]) == OnFifo(before, c)
            && Stored(f, calls + [c]) == Stored(f, calls)
                 + (if c.TryPushCall? && !before.stopped && |before.items| < before.cap then [c.value] else [])
            && Handed(f, calls + [c]) == Handed(f, calls)
                 + (if c.PopCall? && !before.stopped && before.items != [] then [before.items[0]] else [])
  {
    assert (calls + [c])[..|calls|] == calls;
  }

  lemma StepAgrees(q: Queue, a: Action, calls: seq<Call<Value>>)
    requires Agrees(q, calls) && |q.items| <= q.cap
    ensures Agrees(Step(q, a), calls + CallOf(q, a))
  {
    if CallOf(q, a) == [] {
      assert calls + [] == calls;
    } else {
      OneCallMore(Fifo(q.cap, [], false), calls, CallOf(q, a)[0]);
    }
  }

  /** In every interleaving the threads use the queue as a plain one. */
  lemma {:induction false} ThreadsUseAFifo(cap: nat, actions: seq<Action>)
    ensures Agrees(Run(cap, actions), Calls(cap, actions))
  {
    if actions != [] {
      var before := actions[..|actions| - 1];
      ThreadsUseAFifo(cap, before);
      RunInv(cap, before);
      StepAgrees(Run(cap, before), actions[|actions| - 1], Calls(cap, before));
    }
  }

  function Waiting(w: Waiters): nat { w.asleep + w.notified + w.stirred }

  /** A thread that was waiting and got the mutex. */
  function Returning(from: From): nat { if from == Fresh then 0 else 1 }

  /**
   A consumer waits exactly when it is patient and finds the queue empty and not stopped, a producer exactly when it
   finds it full and not stopped; each returns from a wait when it gets the mutex, and nobody else does.
   */
  lemma {:induction false} WaitsExactly(cap: nat, actions: seq<Action>, a: Action)
    ensures var q, r := Run(cap, actions), Run(cap, actions + [a]);
            && Waiting(r.consumers) ==
                 Waiting(q.consumers)
                 + (if a.Pop? && Present(q.consumers, a.from)
                    then (if a.patient && !q.stopped && q.items == [] then 1 else 0) - Returning(a.from) else 0)
            && Waiting(r.producers) ==
                 Waiting(q.producers)
                 + (if a.Push? && Present(q.producers, a.from)
                    then (if !q.stopped && |q.items| == cap then 1 else 0) - Returning(a.from) else 0)
  {
    RunInv(cap, actions);
    assert (actions + [a])[..|actions|] == actions;
  }
}
