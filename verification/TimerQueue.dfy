/**
 The timer queue as the object that the loop thread updates. The ghost field `state` is the state of the
 run so far, and `Valid` ties every field to it, so all that holds in every run of `Timers` holds of the
 object after every call.
 */
module TimerQueue {
  import opened Rounds
  import opened Timers

  ghost predicate Reached(q: Queue) { exists actions :: Run(actions) == q }

  lemma StepReached(q: Queue, a: Action)
    requires Reached(q)
    ensures Reached(Step(q, a))
  {
    var actions :| Run(actions) == q;
    RunSnoc(actions, a);
  }

  lemma ReachedInv(q: Queue)
    requires Reached(q)
    ensures Inv(q)
  {
    var actions :| Run(actions) == q;
    RunInv(actions);
  }

  lemma EntriesLive(q: Queue)
    requires Reached(q)
    ensures forall e :: e in q.timers ==> e.addr in q.heap
  {
    ReachedInv(q);
  }

  // ---------------------------------------------------------------------------------------------
  // What single steps do to the fields
  // ---------------------------------------------------------------------------------------------

  lemma TickDoes(q: Queue, to: int)
    requires Reached(q) && q.clock <= to
    ensures Reached(q.(clock := to))
  {
    ReachedInv(q);
    StepReached(q, Tick(to));
  }

  /** Nothing of the round itself has moved on. */
  ghost predicate SameRound(q: Queue, r: Queue) {
    && r.mode == q.mode && r.batch == q.batch && r.next == q.next && r.put == q.put && r.now == q.now
    && r.fired == q.fired && r.round == q.round && r.taken == q.taken
  }

  ghost predicate SameIndexes(q: Queue, r: Queue) {
    && r.heap == q.heap && r.created == q.created && r.timers == q.timers && r.active == q.active
    && r.clock == q.clock && r.waiting == q.waiting
  }

  /** What `new Timer` does to the fields. */
  ghost predicate NewFields(q: Queue, addr: Addr, t: Timer, r: Queue) {
    && SameRound(q, r) && t.seqno == q.created + 1
    && r.heap == q.heap[addr := t] && r.created == q.created + 1 && r.waiting == q.waiting + {addr}
    && r.timers == q.timers && r.active == q.active && r.canceling == q.canceling
    && r.alarm == q.alarm && r.clock == q.clock
  }

  lemma AllocateDoes(q: Queue, addr: Addr, when: int, interval: nat, repeat: bool) returns (r: Queue)
    requires Reached(q) && addr !in q.heap
    ensures Reached(r) && NewFields(q, addr, Timer(when, interval, repeat, q.created + 1), r)
  {
    r := New(q, addr, when, interval, repeat);
    NewReached(q, addr, when, interval, repeat);
    NewSets(q, addr, when, interval, repeat);
  }

  lemma NewReached(q: Queue, addr: Addr, when: int, interval: nat, repeat: bool)
    requires Reached(q) && addr !in q.heap
    ensures Reached(New(q, addr, when, interval, repeat))
  {
    ReachedOwned(q);
    StepReached(q, Allocate(addr, when, interval, repeat));
  }

  lemma NewSets(q: Queue, addr: Addr, when: int, interval: nat, repeat: bool)
    requires addr !in q.heap
    ensures NewFields(q, addr, Timer(when, interval, repeat, q.created + 1), New(q, addr, when, interval, repeat))
  {
  }

  lemma AddDoes(q: Queue, addr: Addr)
    requires Reached(q) && addr in q.waiting && q.mode != Resetting
    ensures addr in q.heap && Reached(Add(q, addr)) && SameRound(q, Add(q, addr))
  {
    ReachedInv(q);
    StepReached(q, AddInLoop(addr));
  }

  /** What `cancelInLoop` does to the fields. */
  ghost predicate CancelFields(q: Queue, id: Id, r: Queue) {
    && SameRound(q, r) && r.created == q.created && r.alarm == q.alarm && r.clock == q.clock && r.waiting == q.waiting
    && (id in q.active ==>
          && id.addr in q.heap && r.canceling == q.canceling
          && r.timers == q.timers - {Entry(q.heap[id.addr].expiration, id.addr)}
          && r.active == q.active - {id} && r.heap == q.heap - {id.addr})
    && (id !in q.active ==>
          && r.timers == q.timers && r.active == q.active && r.heap == q.heap
          && r.canceling == if q.mode == Calling then q.canceling + {id} else q.canceling)
  }

  lemma CancelDoes(q: Queue, id: Id) returns (r: Queue)
    requires Reached(q) && q.mode != Resetting
    ensures Reached(r) && CancelFields(q, id, r)
  {
    ReachedInv(q);
    StepReached(q, CancelInLoop(id));
    r := Step(q, CancelInLoop(id));
    CancelSets(q, id);
  }

  lemma CancelSets(q: Queue, id: Id)
    requires Owned(q)
    ensures CancelFields(q, id, Cancel(q, id))
  {
    if id in q.active {
      assert Indexed(q, id.addr);
    }
  }

  lemma BatchNotActive(q: Queue, i: nat)
    requires Inv(q) && q.mode == Calling && i < |q.taken|
    ensures IdOfHeld(q.taken[i]) !in q.active
  {
    assert InBatch(q, q.batch[i].addr);
  }

  /** A timer of the batch is in no index, so cancelling it marks it. */
  lemma CancelMarks(q: Queue, r: Queue, id: Id)
    requires Reached(q) && q.mode == Calling && CancelFields(q, id, r)
    ensures Marks(q, r, [CancelTimer(id)])
  {
    ReachedInv(q);
    CancelledSnoc([], CancelTimer(id));
    assert [] + [CancelTimer(id)] == [CancelTimer(id)];
    forall i | 0 <= i < |q.taken| ensures IdOfHeld(q.taken[i]) !in q.active {
      BatchNotActive(q, i);
    }
  }

  /** The operations have been carried out, and the round itself has not moved on. */
  ghost predicate Does(q: Queue, r: Queue, ops: seq<Op>, ids: seq<Id>) {
    SameRound(q, r) && Changed(q, r, ops, ids) && Marks(q, r, ops)
  }

  ghost predicate DoesOne(q: Queue, r: Queue, op: Op, id: Id) {
    && SameRound(q, r) && Marks(q, r, [op]) && r.waiting == q.waiting
    && (op.AddTimer? ==> id.seqno == q.created + 1) && r.created == q.created + (if op.AddTimer? then 1 else 0)
    && LiveOf(r) == ApplyOne(LiveOf(q), op, id)
  }

  lemma DoesNothing(q: Queue)
    ensures Does(q, q, [], [])
  {
  }

  lemma DoesSnoc(q: Queue, r: Queue, t: Queue, ops: seq<Op>, ids: seq<Id>, op: Op, id: Id)
    requires Does(q, r, ops, ids) && DoesOne(r, t, op, id)
    ensures Does(q, t, ops + [op], ids + [id])
  {
    ApplySnoc(LiveOf(q), ops, ids, op, id);
    NumberedSnoc(ops, ids, q.created, op, id);
    CancelledConcat(ops, [op]);
  }

  lemma ActiveLive(q: Queue)
    requires Reached(q)
    ensures q.waiting <= q.heap.Keys && forall id :: id in q.active ==> id.addr in q.heap
  {
    ReachedOwned(q);
  }

  lemma AddedOne(q: Queue, r: Queue, t: Queue, addr: Addr, op: Op)
    requires op.AddTimer? && addr !in q.heap && addr !in q.waiting && forall id :: id in q.active ==> id.addr in q.heap
    requires NewFields(q, addr, Timer(op.when, op.interval, op.repeat, r.created), r)
    requires t == Add(r.(clock := t.clock), addr)
    ensures DoesOne(q, t, op, Id(addr, r.created))
  {
    NewLive(q, r, addr, r.heap[addr]);
    AddLive(r, t, addr);
    assert t.waiting == q.waiting;
  }

  lemma CancelledOne(q: Queue, r: Queue, id: Id)
    requires Reached(q) && q.mode == Calling && CancelFields(q, id, r)
    ensures DoesOne(q, r, CancelTimer(id), id)
  {
    ReachedOwned(q);
    CancelLive(q, r, id);
    CancelMarks(q, r, id);
  }

  lemma BatchAsTaken(q: Queue)
    requires Reached(q) && q.mode == Calling
    ensures |q.taken| == |q.batch|
    ensures forall i :: 0 <= i < |q.batch| ==>
              q.batch[i].addr in q.heap && q.taken[i] == Held(q.batch[i].addr, q.heap[q.batch[i].addr])
  {
    ReachedInv(q);
  }

  lemma SettledNow(q: Queue)
    requires Reached(q) && q.mode == Quiet
    ensures |q.timers| == |q.active|
    ensures forall id :: id in q.active ==> id.addr in q.heap && Entry(q.heap[id.addr].expiration, id.addr) in q.timers
    ensures forall a :: a in q.heap ==> a in q.waiting || Id(a, q.heap[a].seqno) in q.active
  {
    var actions :| Run(actions) == q;
    Ownership(actions);
    RunInv(actions);
    assert forall id :: id in q.active ==> Indexed(q, id.addr);
  }

  /** `taken` are the timers of `q` that the entries `b` stand for. */
  ghost predicate TakenFrom(q: Queue, b: seq<Entry>, taken: seq<Held>) {
    |taken| == |b| && forall i :: 0 <= i < |b| ==> b[i].addr in q.heap && taken[i] == Held(b[i].addr, q.heap[b[i].addr])
  }

  /** What the start of a round does to the fields. */
  ghost predicate BeginFields(q: Queue, b: seq<Entry>, r: Queue) {
    && SameRound(q.(mode := Calling, batch := b, next := 0, put := 0, now := q.clock, round := q.round + 1,
                    taken := r.taken), r)
    && TakenFrom(q, b, r.taken)
    && r.heap == q.heap && r.created == q.created && r.clock == q.clock && r.canceling == {} && r.waiting == q.waiting
    && r.timers == q.timers - Expired(q) && r.active == q.active - Ids(q.heap, Expired(q))
    && r.alarm == if q.alarm.Set? && q.alarm.due <= q.clock then Off else q.alarm
  }

  lemma BeginDoes(q: Queue, b: seq<Entry>) returns (r: Queue)
    requires Reached(q) && q.mode == Quiet && Lists(b, Expired(q))
    ensures Reached(r) && BeginFields(q, b, r)
  {
    ReachedOwned(q);
    StepReached(q, Expire(b));
    BeginSets(q, b);
    r := Step(q, Expire(b));
  }

  lemma BeginSets(q: Queue, b: seq<Entry>)
    requires Owned(q) && Lists(b, Expired(q))
    ensures BeginFields(q, b, Begin(q, b))
  {
    assert forall i :: 0 <= i < |b| ==> b[i] in b && b[i] in Expired(q);
  }

  /** One callback more, and no field of the queue changed by that alone. */
  ghost predicate FireFields(q: Queue, r: Queue)
    requires q.next < |q.batch|
  {
    && r == q.(next := q.next + 1, fired := r.fired)
    && |r.fired| == |q.fired| + 1 && q.fired <= r.fired
    && |q.taken| == |q.batch|
    && var f := r.fired[|q.fired|];
       f.due == q.batch[q.next].when && f.now == q.now && f.round == q.round && f.seqno == q.taken[q.next].timer.seqno
  }

  lemma FireDoes(q: Queue) returns (r: Queue)
    requires Reached(q) && q.mode == Calling && q.put <= q.next < |q.batch|
    ensures Reached(r) && FireFields(q, r)
  {
    ReachedInv(q);
    StepReached(q, RunCallback);
    r := Step(q, RunCallback);
  }

  lemma StartDoes(q: Queue)
    requires Reached(q) && q.mode == Calling && q.next == |q.batch|
    ensures Reached(q.(mode := Resetting))
  {
    ReachedInv(q);
    StepReached(q, StartReset);
  }

  /** What one entry of the loop in `reset` does to the fields. */
  ghost predicate PutBackFields(q: Queue, r: Queue)
    requires q.put < |q.batch|
  {
    var a := q.batch[q.put].addr;
    && a in q.heap
    && SameRound(q.(put := q.put + 1), r)
    && r.created == q.created && r.canceling == q.canceling && r.alarm == q.alarm && r.clock == q.clock
    && r.waiting == q.waiting && PutsBack(q, r, a, q.now, q.canceling)
  }

  lemma PutBackSets(q: Queue)
    requires Owned(q) && q.put < |q.batch|
    ensures PutBackFields(q, PutBack(q))
  {
  }

  lemma PutBackDoes(q: Queue) returns (r: Queue)
    requires Reached(q) && q.mode == Resetting && q.put < |q.batch|
    ensures Reached(r) && PutBackFields(q, r)
  {
    r := PutBackReached(q);
    ReachedOwned(q);
    PutBackSets(q);
  }

  lemma PutBackReached(q: Queue) returns (r: Queue)
    requires Reached(q) && q.mode == Resetting && q.put < |q.batch|
    ensures Owned(q) && Reached(r) && r == PutBack(q)
  {
    ReachedOwned(q);
    StepReached(q, ResetOne);
    r := Step(q, ResetOne);
  }

  lemma ReachedOwned(q: Queue)
    requires Reached(q)
    ensures Owned(q)
  {
    ReachedInv(q);
  }

  /** What the end of `reset` does to the fields. */
  ghost predicate FinishFields(q: Queue, r: Queue) {
    && SameRound(q.(mode := Quiet), r) && SameIndexes(q, r) && r.canceling == q.canceling
    && r.alarm == if q.timers != {} && Earliest(q.timers) > 0
                  then Set(q.clock, Max(Earliest(q.timers), q.clock + MIN_DELAY)) else q.alarm
  }

  lemma FinishSets(q: Queue)
    ensures FinishFields(q, Finish(q))
  {
  }

  lemma FinishReached(q: Queue)
    requires Reached(q) && q.mode == Resetting && q.put == |q.batch|
    ensures Reached(Finish(q))
  {
    ReachedOwned(q);
    StepReached(q, EndReset);
  }

  lemma FinishDoes(q: Queue) returns (r: Queue)
    requires Reached(q) && q.mode == Resetting && q.put == |q.batch|
    ensures Reached(r) && FinishFields(q, r)
  {
    r := Finish(q);
    FinishReached(q);
    FinishSets(q);
  }

  /** The first `n` timers that `batch` stands for in `q` have run, in that order, and nothing else has since `q`. */
  ghost predicate Fired(q: Queue, r: Queue, batch: seq<Entry>, now: int, n: nat)
    requires n <= |batch|
  {
    && |r.fired| == |q.fired| + n && q.fired <= r.fired
    && forall i :: 0 <= i < n ==>
         && batch[i].addr in q.heap
         && r.fired[|q.fired| + i] == Firing(q.round + 1, q.heap[batch[i].addr].seqno, batch[i].when, now)
  }

  /** The round that took `batch` out of `q` has run its first `n` callbacks. */
  ghost predicate Calls(q: Queue, r: Queue, batch: seq<Entry>, now: int, n: nat)
    requires n <= |batch|
  {
    && r.mode == Calling && r.batch == batch && r.now == now && r.put == 0 && r.next == n && r.round == q.round + 1
    && Fired(q, r, batch, now, n) && TakenFrom(q, batch, r.taken)
  }

  /** The next callback is about to run. */
  lemma CallsMore(q: Queue, r: Queue, next: Queue, batch: seq<Entry>, now: int, n: nat)
    requires n < |batch| && Calls(q, r, batch, now, n) && FireFields(r, next)
    ensures Calls(q, next, batch, now, n + 1)
  {
    forall i | 0 <= i < n
      ensures next.fired[|q.fired| + i] == Firing(q.round + 1, q.heap[batch[i].addr].seqno, batch[i].when, now)
    {
      assert next.fired[|q.fired| + i] == r.fired[|q.fired| + i];
    }
  }

  // ---------------------------------------------------------------------------------------------
  // Walking the deadline index
  // ---------------------------------------------------------------------------------------------

  /** Walk the deadline index from its beginning up to the first entry after `now`. */
  method CopyDue(index: set<Entry>, now: int) returns (out: seq<Entry>)
    ensures Lists(out, set e | e in index && e.when <= now)
  {
    var due := set e | e in index && e.when <= now;
    var rest := due;
    out := [];
    while rest != {}
      invariant rest <= due && Lists(out, due - rest)
      invariant forall a, b :: a in out && b in rest ==> Before(a, b)
      decreases rest
    {
      ghost var first := First(rest);
      var m :| m in rest && forall e :: e in rest && e != m ==> Before(m, e);
      out := Appended(out, m, due - rest);
      rest := rest - {m};
      assert due - rest == (due - (rest + {m})) + {m};
    }
    assert due - rest == due;
  }

  function Appended(out: seq<Entry>, m: Entry, ghost done: set<Entry>): (r: seq<Entry>)
    requires Lists(out, done) && m !in done && forall a :: a in out ==> Before(a, m)
    ensures r == out + [m] && Lists(r, done + {m})
  {
    var r := out + [m];
    assert forall i :: 0 <= i < |out| ==> out[i] in out;
    r
  }

  lemma IdsMore(heap: map<Addr, Timer>, s: set<Entry>, e: Entry)
    requires e.addr in heap
    ensures Ids(heap, s + {e}) == Ids(heap, s) + {Id(e.addr, heap[e.addr].seqno)}
  {
  }

  lemma FreeAddress(used: set<Addr>)
    ensures exists a: Addr :: a !in used
  {
    var top := Top(used);
    assert top !in used;
  }

  lemma {:induction false} Top(used: set<Addr>) returns (top: Addr)
    ensures forall a :: a in used ==> a < top
    decreases used
  {
    if used == {} {
      top := 0;
    } else {
      var x :| x in used;
      var t := Top(used - {x});
      top := if t > x then t else x + 1;
      assert forall a :: a in used ==> a == x || a in used - {x};
    }
  }

  class TimerQueue {
    var heap: map<Addr, Timer>
    var created: nat
    var timers: set<Entry>
    var active: set<Id>
    var canceling: set<Id>
    var calling: bool
    var clock: int    // what the system clock last showed
    var alarm: Alarm
    ghost var state: Queue

    ghost predicate Tied(q: Queue)
      reads this
    {
      && heap == q.heap && created == q.created && timers == q.timers && active == q.active
      && canceling == q.canceling && calling == (q.mode == Calling) && alarm == q.alarm && clock == q.clock
    }

    ghost predicate Valid()
      reads this
    {
      Reached(state) && Tied(state)
    }

    constructor ()
      ensures Valid() && state == START
    {
      heap, created, timers, active, canceling := map[], 0, {}, {}, {};
      calling, clock, alarm, state := false, START.clock, Off, START;
      assert Run([]) == START;
    }

    /** Read the clock. */
    method Now() returns (now: int)
      requires Valid()
      modifies this`clock, this`state
      ensures Valid() && now == clock && old(clock) <= now && state == old(state).(clock := now)
    {
      assert clock <= clock;
      now :| clock <= now;
      clock := now;
      TickDoes(state, now);
      state := state.(clock := now);
    }

    method Allocate(addr: Addr, when: int, interval: nat, repeat: bool) returns (id: Id)
      requires Valid() && addr !in heap
      modifies this
      ensures Valid() && id == Id(addr, created)
      ensures NewFields(old(state), addr, Timer(when, interval, repeat, created), state)
    {
      ghost var after := AllocateDoes(state, addr, when, interval, repeat);
      created := created + 1;
      heap := heap[addr := Timer(when, interval, repeat, created)];
      id := Id(addr, created);
      state := after;
    }

    method SetAlarm(when: int, now: int)
      modifies this`alarm
      ensures alarm == Set(now, Max(when, now + MIN_DELAY))
    {
      alarm := Set(now, Max(when, now + MIN_DELAY));
    }

    /** `insert`; says whether the earliest deadline changed. */
    method Insert(addr: Addr) returns (earliestChanged: bool)
      requires addr in heap
      modifies this`timers, this`active
      ensures earliestChanged == forall e :: e in old(timers) ==> heap[addr].expiration < e.when
      ensures timers == old(timers) + {Entry(heap[addr].expiration, addr)}
      ensures active == old(active) + {Id(addr, heap[addr].seqno)}
    {
      var when := heap[addr].expiration;
      earliestChanged := forall e :: e in timers ==> when < e.when;
      timers := timers + {Entry(when, addr)};
      active := active + {Id(addr, heap[addr].seqno)};
    }

    method AddTimerInLoop(addr: Addr)
      requires Valid() && addr in state.waiting && state.mode != Resetting
      modifies this
      ensures Valid() && old(clock) <= clock && addr in old(state).heap
      ensures state == Add(old(state).(clock := clock), addr) && SameRound(old(state), state)
    {
      var now := Now();
      AddDoes(state, addr);
      var changed := Insert(addr);
      if changed {
        SetAlarm(heap[addr].expiration, now);
      }
      assert changed == EarliestChanges(state, state.heap[addr].expiration);
      state := Add(state, addr);
    }

    /** `cancelInLoop`. */
    method Cancel(id: Id)
      requires Valid() && state.mode != Resetting
      modifies this
      ensures Valid() && CancelFields(old(state), id, state)
    {
      ghost var after := CancelDoes(state, id);
      if id in active {
        timers := timers - {Entry(heap[id.addr].expiration, id.addr)};
        heap := heap - {id.addr};
        active := active - {id};
      } else if calling {
        canceling := canceling + {id};
      }
      state := after;
    }

    /** `getExpired`: move everything due out of both indexes, in deadline order. */
    method GetExpired(now: int) returns (expired: seq<Entry>)
      requires forall e :: e in timers ==> e.addr in heap
      modifies this`timers, this`active
      ensures Lists(expired, set e | e in old(timers) && e.when <= now)
      ensures timers == set e | e in old(timers) && e.when > now
      ensures active == old(active) - Ids(heap, set e | e in old(timers) && e.when <= now)
    {
      expired := CopyDue(timers, now);
      ghost var due := set e | e in timers && e.when <= now;
      timers := set e | e in timers && e.when > now;
      assert forall i :: 0 <= i < |expired| ==> expired[i] in expired && expired[i] in due;
      ghost var done := {};
      for i := 0 to |expired|
        modifies this`active
        invariant forall e :: e in done <==> e in expired[..i]
        invariant active == old(active) - Ids(heap, done)
      {
        active := active - {Id(expired[i].addr, heap[expired[i].addr].seqno)};
        IdsMore(heap, done, expired[i]);
        assert expired[..i + 1] == expired[..i] + [expired[i]];
        done := done + {expired[i]};
      }
      assert expired[..|expired|] == expired;
      assert done == due;
    }

    /** One entry of the loop in `reset`. */
    method PutBackOne(e: Entry, now: int)
      requires Valid() && state.mode == Resetting && state.now == now
      requires state.put < |state.batch| && state.batch[state.put] == e
      modifies this
      ensures Valid() && SameRound(old(state).(put := old(state).put + 1), state)
      ensures PutBackFields(old(state), state)
    {
      ghost var after := PutBackDoes(state);
      var t := heap[e.addr];
      if t.repeat && Id(e.addr, t.seqno) !in canceling {
        heap := heap[e.addr := t.(expiration := now + t.interval)];
        var _ := Insert(e.addr);
      } else {
        heap := heap - {e.addr};
      }
      state := after;
    }

    /** The end of `reset`: set the timerfd for the earliest deadline left. */
    method Rearm()
      requires Valid() && state.mode == Resetting && state.put == |state.batch|
      modifies this
      ensures Valid() && old(clock) <= clock && FinishFields(old(state).(clock := clock), state)
    {
      var now := Now();
      ghost var after := FinishDoes(state);
      if timers != {} {
        ghost var first := First(timers);
        assert forall e :: e in timers ==> first.when <= e.when;
        var m :| m in timers && forall e :: e in timers ==> m.when <= e.when;
        assert m.when == Earliest(timers);
        if m.when > 0 {
          SetAlarm(m.when, now);
        }
      }
      state := after;
    }

    /**
     `reset`: in both indexes and in the heap, each timer of the batch that repeats and is not marked for removal is
     back one interval after `now`, every other one of the batch is gone, and nothing else has changed.
     */
    method Reset(expired: seq<Entry>, now: int)
      requires Valid() && state.mode == Resetting && state.put == 0
      requires expired == state.batch && now == state.now
      modifies this
      ensures Valid() && SameRound(old(state).(mode := Quiet, put := |expired|), state)
      ensures timers == old(timers) + NewEntries(old(heap), expired, now, old(canceling))
      ensures active == old(active) + NewIds(old(heap), expired, old(canceling))
      ensures HeapAfter(old(heap), expired, now, old(canceling), heap)
      ensures created == old(created) && state.waiting == old(state).waiting
    {
      ghost var q := state;
      ReachedOwned(q);
      for i := 0 to |expired|
        invariant Valid() && SameRound(q.(put := i), state) && PutBackFirst(q, state, i)
        invariant state.canceling == q.canceling && state.created == q.created && state.waiting == q.waiting
      {
        ghost var r := state;
        PutBackOne(expired[i], now);
        PutBackMore(q, r, state, i);
      }
      assert expired[..|expired|] == expired;
      Rearm();
    }

    /** The timers in the queue. */
    ghost function Contents(): Live
      reads this
    {
      LiveTimers(heap, active)
    }

    /** A new timer, at whatever free address the allocator picks, inserted at once on the loop thread. */
    method AddNow(when: int, interval: nat, repeat: bool) returns (id: Id)
      requires Valid() && state.mode == Calling
      modifies this
      ensures Valid() && DoesOne(old(state), state, AddTimer(when, interval, repeat), id)
    {
      ghost var q := state;
      ActiveLive(q);
      FreeAddress(heap.Keys);
      var addr: Addr :| addr !in heap.Keys;
      id := Allocate(addr, when, interval, repeat);
      ghost var r := state;
      AddTimerInLoop(addr);
      AddedOne(q, r, state, addr, AddTimer(when, interval, repeat));
    }

    /** One thing a callback does. */
    method Perform(op: Op) returns (id: Id)
      requires Valid() && state.mode == Calling
      modifies this
      ensures Valid() && DoesOne(old(state), state, op, id)
    {
      match op
      case AddTimer(when, interval, repeat) => id := AddNow(when, interval, repeat);
      case CancelTimer(x) =>
        id := x;
        Cancel(x);
        CancelledOne(old(state), state, x);
    }

    /** What one callback does, and the identities its timers got. */
    method Callback(ops: seq<Op>) returns (ids: seq<Id>)
      requires Valid() && state.mode == Calling
      modifies this
      ensures Valid() && Does(old(state), state, ops, ids)
    {
      ids := [];
      DoesNothing(state);
      for i := 0 to |ops|
        invariant Valid() && Does(old(state), state, ops[..i], ids)
      {
        ghost var r := state;
        var id := Perform(ops[i]);
        DoesSnoc(old(state), r, state, ops[..i], ids, ops[i], id);
        assert ops[..i + 1] == ops[..i] + [ops[i]];
        ids := ids + [id];
      }
      assert ops[..|ops|] == ops;
    }

    /** The start of `handleRead`: up to where the callbacks begin. */
    method BeginRound() returns (expired: seq<Entry>, now: int)
      requires Valid() && state.mode == Quiet
      modifies this
      ensures Valid() && old(clock) <= now
      ensures Lists(expired, set e | e in old(timers) && e.when <= now)
      ensures SameRound(old(state).(mode := Calling, batch := expired, next := 0, put := 0, now := now,
                                    round := old(state).round + 1, taken := state.taken), state)
      ensures TakenFrom(old(state), expired, state.taken)
      ensures Contents() == old(Contents()) - Ids(old(heap), set e | e in old(timers) && e.when <= now)
      ensures created == old(created) && canceling == {} && state.waiting == old(state).waiting
    {
      now := Now();
      ghost var q := state;
      if alarm.Set? && alarm.due <= now {
        alarm := Off;
      }
      EntriesLive(state);
      expired := GetExpired(now);
      calling, canceling := true, {};
      assert Expired(state) == set e | e in old(timers) && e.when <= now;
      assert timers == state.timers - Expired(state);
      ghost var after := BeginDoes(state, expired);
      state := after;
      BeginLive(q, state);
    }

    /** The end of `handleRead`: the callbacks have run. */
    method EndRound(expired: seq<Entry>, now: int)
      requires Valid() && state.mode == Calling && state.put == 0 && state.next == |state.batch|
      requires expired == state.batch && now == state.now
      modifies this
      ensures Valid() && state.mode == Quiet && state.fired == old(state).fired
      ensures Contents() == old(Contents()) + Again(old(heap), expired, now, old(canceling))
      ensures created == old(created) && state.waiting == old(state).waiting
    {
      StartDoes(state);
      calling := false;
      state := state.(mode := Resetting);
      ghost var q := state;
      Reset(expired, now);
      ReachedOwned(q);
      assert expired[..|expired|] == expired;
      PutBackLive(q, state);
    }

    /** Both indexes hold the same timers, and a timer in neither is one not yet inserted. */
    ghost predicate Settled()
      reads this
    {
      && |timers| == |active|
      && (forall id :: id in active ==> id.addr in heap && Entry(heap[id.addr].expiration, id.addr) in timers)
      && (forall a :: a in heap ==> a in state.waiting || Id(a, heap[a].seqno) in active)
    }

    /** The callbacks of a round, one after the other. */
    method RunCallbacks(ghost q: Queue, expired: seq<Entry>, now: int, scripts: seq<seq<Op>>) returns (ids: seq<Id>)
      requires Valid() && Calls(q, state, expired, now, 0) && canceling == {}
      modifies this
      ensures Valid() && Calls(q, state, expired, now, |expired|)
      ensures Changed(old(state), state, Ran(scripts, |expired|), ids) && MarkedBy(state, Ran(scripts, |expired|))
    {
      ids := [];
      for i := 0 to |expired|
        invariant Valid() && Calls(q, state, expired, now, i)
        invariant Changed(old(state), state, Ran(scripts, i), ids) && MarkedBy(state, Ran(scripts, i))
      {
        ghost var before := state;
        ghost var after := FireDoes(state);
        CallsMore(q, before, after, expired, now, i);
        state := after;
        var script := if i < |scripts| then scripts[i] else [];
        var more := Callback(script);
        MarkedMore(after, state, Ran(scripts, i), script);
        ChangedMore(old(state), after, state, Ran(scripts, i), ids, script, more);
        ids := ids + more;
      }
    }

    /**
     `handleRead`: each timer due runs once, in deadline order, whatever callbacks do. Then the queue holds the timers
     that were not due, with what the callbacks added and cancelled, and those due that repeat and that no callback
     cancelled, one interval after `now`. What has left the indexes is freed.
     */
    method HandleRead(scripts: seq<seq<Op>>) returns (expired: seq<Entry>, now: int, ids: seq<Id>)
      requires Valid() && state.mode == Quiet
      modifies this
      ensures Valid() && state.mode == Quiet && old(clock) <= now
      ensures Lists(expired, set e | e in old(timers) && e.when <= now)
      ensures Fired(old(state), state, expired, now, |expired|)
      ensures var ops := Ran(scripts, |expired|);
              && Numbered(ops, ids, old(created)) && created == old(created) + Adds(ops)
              && var due := Ids(old(heap), set e | e in old(timers) && e.when <= now);
                 Contents() == Apply(old(Contents()) - due, ops, ids) + Again(old(heap), expired, now, Cancelled(ops))
      ensures Settled() && state.waiting == old(state).waiting
    {
      expired, now := BeginRound();
      ids := RunCallbacks(old(state), expired, now, scripts);
      BatchAsTaken(state);
      AgainSame(state, old(heap), expired, Ran(scripts, |expired|));
      EndRound(expired, now);
      SettledNow(state);
    }
  }
}
