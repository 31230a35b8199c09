/**
 What a round of the timer queue leaves behind, said of the timers in the queue as a map from identities to timers:
 those not due, with what the callbacks added and cancelled, and those due that repeat and were not cancelled, one
 interval after the round's time.
 */
module Rounds {
  import opened Timers

  /** What a callback may do to the queue: add a timer, at whatever free address the allocator picks, or cancel one. */
  datatype Op = AddTimer(when: int, interval: nat, repeat: bool) | CancelTimer(id: Id)

  type Live = map<Id, Timer>

  /** The timers in the queue. */
  function LiveTimers(heap: map<Addr, Timer>, active: set<Id>): Live {
    map id | id in active && id.addr in heap :: heap[id.addr]
  }

  /** The timers after the operations, of which the `i`-th, if it adds one, got `ids[i]`. */
  function Apply(m: Live, ops: seq<Op>, ids: seq<Id>): Live
    requires |ids| == |ops|
  {
    if ops == [] then m
    else
      var n := |ops| - 1;
      ApplyOne(Apply(m, ops[..n], ids[..n]), ops[n], ids[n])
  }

  function ApplyOne(m: Live, op: Op, id: Id): Live {
    if op.AddTimer? then m[id := Timer(op.when, op.interval, op.repeat, id.seqno)] else m - {op.id}
  }

  function Cancelled(ops: seq<Op>): set<Id> { set op | op in ops && op.CancelTimer? :: op.id }

  function Adds(ops: seq<Op>): nat {
    if ops == [] then 0 else Adds(ops[..|ops| - 1]) + if ops[|ops| - 1].AddTimer? then 1 else 0
  }

  /** Timers added get the sequence numbers that follow, in order. */
  predicate Numbered(ops: seq<Op>, ids: seq<Id>, created: nat) {
    |ids| == |ops| && forall i :: 0 <= i < |ops| && ops[i].AddTimer? ==> ids[i].seqno == created + Adds(ops[..i]) + 1
  }

  /** The timers of the entries that repeat and are not among those cancelled, one interval after `now`. */
  function Again(heap: map<Addr, Timer>, b: seq<Entry>, now: int, cancelled: set<Id>): Live {
    map e | e in b && Returns(heap, e.addr, cancelled) ::
      Id(e.addr, heap[e.addr].seqno) := heap[e.addr].(expiration := now + heap[e.addr].interval)
  }

  predicate Returns(heap: map<Addr, Timer>, a: Addr, cancelled: set<Id>) {
    a in heap && heap[a].repeat && Id(a, heap[a].seqno) !in cancelled
  }

  // ---------------------------------------------------------------------------------------------
  // Callbacks
  // ---------------------------------------------------------------------------------------------

  /** The operations of the first `n` callbacks, one script each. */
  function Ran(scripts: seq<seq<Op>>, n: nat): seq<Op> {
    if n == 0 then [] else Ran(scripts, n - 1) + if n <= |scripts| then scripts[n - 1] else []
  }

  function IdOfHeld(h: Held): Id { Id(h.addr, h.timer.seqno) }

  /** Of the timers of the batch, those the operations cancelled are now marked too. */
  ghost predicate Marks(q: Queue, r: Queue, ops: seq<Op>) {
    forall i :: 0 <= i < |q.taken| ==>
      var id := IdOfHeld(q.taken[i]); id in r.canceling <==> id in q.canceling || id in Cancelled(ops)
  }

  /** The timers of the batch marked for removal are those the operations cancelled. */
  ghost predicate MarkedBy(q: Queue, ops: seq<Op>) {
    forall i :: 0 <= i < |q.taken| ==> (IdOfHeld(q.taken[i]) in q.canceling <==> IdOfHeld(q.taken[i]) in Cancelled(ops))
  }

  lemma MarkedMore(q: Queue, r: Queue, ops: seq<Op>, more: seq<Op>)
    requires MarkedBy(q, ops) && Marks(q, r, more) && r.taken == q.taken
    ensures MarkedBy(r, ops + more)
  {
    CancelledConcat(ops, more);
  }

  lemma ApplySnoc(m: Live, ops: seq<Op>, ids: seq<Id>, op: Op, id: Id)
    requires |ids| == |ops|
    ensures Apply(m, ops + [op], ids + [id]) == ApplyOne(Apply(m, ops, ids), op, id)
  {
    assert (ops + [op])[..|ops|] == ops && (ids + [id])[..|ids|] == ids;
  }

  lemma CancelledSnoc(ops: seq<Op>, op: Op)
    ensures Cancelled(ops + [op]) == Cancelled(ops) + if op.CancelTimer? then {op.id} else {}
  {
    CancelledConcat(ops, [op]);
    assert Cancelled([op]) == if op.CancelTimer? then {op.id} else {};
  }

  lemma NumberedSnoc(ops: seq<Op>, ids: seq<Id>, created: nat, op: Op, id: Id)
    requires Numbered(ops, ids, created) && (op.AddTimer? ==> id.seqno == created + Adds(ops) + 1)
    ensures Numbered(ops + [op], ids + [id], created)
    ensures Adds(ops + [op]) == Adds(ops) + if op.AddTimer? then 1 else 0
  {
    assert (ops + [op])[..|ops|] == ops;
    assert forall i :: 0 <= i <= |ops| ==> (ops + [op])[..i] == ops[..i];
  }

  lemma {:induction false} ApplyConcat(m: Live, ops: seq<Op>, ids: seq<Id>, more: seq<Op>, moreIds: seq<Id>)
    requires |ids| == |ops| && |moreIds| == |more|
    ensures Apply(m, ops + more, ids + moreIds) == Apply(Apply(m, ops, ids), more, moreIds)
  {
    if more == [] {
      assert ops + more == ops && ids + moreIds == ids;
    } else {
      var n := |more| - 1;
      ApplyConcat(m, ops, ids, more[..n], moreIds[..n]);
      ApplySnoc(m, ops + more[..n], ids + moreIds[..n], more[n], moreIds[n]);
      assert ops + more[..n] + [more[n]] == ops + more && ids + moreIds[..n] + [moreIds[n]] == ids + moreIds;
    }
  }

  lemma {:induction false} NumberedConcat(ops: seq<Op>, ids: seq<Id>, more: seq<Op>, moreIds: seq<Id>, created: nat)
    requires Numbered(ops, ids, created) && Numbered(more, moreIds, created + Adds(ops))
    ensures Numbered(ops + more, ids + moreIds, created) && Adds(ops + more) == Adds(ops) + Adds(more)
  {
    if more == [] {
      assert ops + more == ops && ids + moreIds == ids;
    } else {
      var n := |more| - 1;
      assert forall i :: 0 <= i < n ==> more[..n][..i] == more[..i];
      NumberedConcat(ops, ids, more[..n], moreIds[..n], created);
      NumberedSnoc(ops + more[..n], ids + moreIds[..n], created, more[n], moreIds[n]);
      assert ops + more[..n] + [more[n]] == ops + more && ids + moreIds[..n] + [moreIds[n]] == ids + moreIds;
    }
  }

  lemma CancelledConcat(ops: seq<Op>, more: seq<Op>)
    ensures Cancelled(ops + more) == Cancelled(ops) + Cancelled(more)
  {
  }

  ghost function LiveOf(q: Queue): Live { LiveTimers(q.heap, q.active) }

  /** The operations have been carried out. */
  ghost predicate Changed(q: Queue, r: Queue, ops: seq<Op>, ids: seq<Id>) {
    && Numbered(ops, ids, q.created) && r.created == q.created + Adds(ops) && r.waiting == q.waiting
    && LiveOf(r) == Apply(LiveOf(q), ops, ids)
  }

  lemma ChangedMore(q: Queue, r: Queue, t: Queue, ops: seq<Op>, ids: seq<Id>, more: seq<Op>, moreIds: seq<Id>)
    requires Changed(q, r, ops, ids) && Changed(r, t, more, moreIds)
    ensures Changed(q, t, ops + more, ids + moreIds)
  {
    ApplyConcat(LiveOf(q), ops, ids, more, moreIds);
    NumberedConcat(ops, ids, more, moreIds, q.created);
  }

  lemma AddLive(q: Queue, r: Queue, a: Addr)
    requires a in q.heap && r.heap == q.heap && r.active == q.active + {Id(a, q.heap[a].seqno)}
    ensures LiveOf(r) == LiveOf(q)[Id(a, q.heap[a].seqno) := q.heap[a]]
  {
  }

  lemma NewLive(q: Queue, r: Queue, a: Addr, t: Timer)
    requires a !in q.heap && r.heap == q.heap[a := t] && r.active == q.active
    requires forall id :: id in q.active ==> id.addr in q.heap
    ensures LiveOf(r) == LiveOf(q)
  {
  }

  lemma CancelLive(q: Queue, r: Queue, id: Id)
    requires Owned(q)
    requires id in q.active ==> r.active == q.active - {id} && r.heap == q.heap - {id.addr}
    requires id !in q.active ==> r.active == q.active && r.heap == q.heap
    ensures LiveOf(r) == LiveOf(q) - {id}
  {
    if id in q.active {
      assert forall x :: x in q.active && x != id ==> x.addr != id.addr;
    }
  }

  // ---------------------------------------------------------------------------------------------
  // Taking out and putting back
  // ---------------------------------------------------------------------------------------------

  lemma BeginLive(q: Queue, r: Queue)
    requires r.heap == q.heap && r.active == q.active - Ids(q.heap, Expired(q))
    ensures LiveOf(r) == LiveOf(q) - Ids(q.heap, Expired(q))
  {
  }

  /** The deadlines of those timers. */
  function NewEntries(heap: map<Addr, Timer>, b: seq<Entry>, now: int, cancelled: set<Id>): set<Entry> {
    set e | e in b && Returns(heap, e.addr, cancelled) :: Entry(now + heap[e.addr].interval, e.addr)
  }

  /** And their identities. */
  function NewIds(heap: map<Addr, Timer>, b: seq<Entry>, cancelled: set<Id>): set<Id> {
    set e | e in b && Returns(heap, e.addr, cancelled) :: Id(e.addr, heap[e.addr].seqno)
  }

  /** The heap once the entries `b` are dealt with: those that return have a new deadline, the others are freed. */
  ghost predicate HeapAfter(heap: map<Addr, Timer>, b: seq<Entry>, now: int, cancelled: set<Id>,
                            after: map<Addr, Timer>)
  {
    && (forall a :: a in after <==> a in heap && (Within(b, a) ==> Returns(heap, a, cancelled)))
    && (forall a :: a in after ==>
          after[a] == if Within(b, a) then heap[a].(expiration := now + heap[a].interval) else heap[a])
  }

  /** The first `n` of the batch of `q` are back at `now` plus their interval, or gone. */
  ghost predicate PutBackFirst(q: Queue, r: Queue, n: nat)
    requires n <= |q.batch|
  {
    && r.timers == q.timers + NewEntries(q.heap, q.batch[..n], q.now, q.canceling)
    && r.active == q.active + NewIds(q.heap, q.batch[..n], q.canceling)
    && HeapAfter(q.heap, q.batch[..n], q.now, q.canceling, r.heap)
  }

  predicate Within(b: seq<Entry>, a: Addr) { exists e :: e in b && e.addr == a }

  /** One entry of the loop in `reset`, of a timer that is still as it was at the start. */
  ghost predicate PutsBack(q: Queue, r: Queue, a: Addr, now: int, canceling: set<Id>)
    requires a in q.heap
  {
    if Returns(q.heap, a, canceling)
    then && r.heap == q.heap[a := q.heap[a].(expiration := now + q.heap[a].interval)]
         && r.timers == q.timers + {Entry(now + q.heap[a].interval, a)}
         && r.active == q.active + {Id(a, q.heap[a].seqno)}
    else r.heap == q.heap - {a} && r.timers == q.timers && r.active == q.active
  }

  lemma NotYet(q: Queue, n: nat)
    requires Owned(q) && q.put == 0 && n < |q.batch|
    ensures q.batch[n].addr in q.heap && !Within(q.batch[..n], q.batch[n].addr)
  {
  }

  lemma WithinMore(b: seq<Entry>, n: nat, a: Addr)
    requires n < |b|
    ensures Within(b[..n + 1], a) <==> Within(b[..n], a) || b[n].addr == a
  {
    assert b[..n + 1] == b[..n] + [b[n]];
  }

  lemma HeapMore(heap: map<Addr, Timer>, b: seq<Entry>, n: nat, now: int, cancelled: set<Id>, h: map<Addr, Timer>)
    requires n < |b| && b[n].addr in heap && !Within(b[..n], b[n].addr) && HeapAfter(heap, b[..n], now, cancelled, h)
    ensures b[n].addr in h && h[b[n].addr] == heap[b[n].addr]
    ensures var a := b[n].addr;
            HeapAfter(heap, b[..n + 1], now, cancelled,
                      if Returns(heap, a, cancelled) then h[a := heap[a].(expiration := now + heap[a].interval)]
                      else h - {a})
  {
    forall a ensures Within(b[..n + 1], a) <==> Within(b[..n], a) || b[n].addr == a {
      WithinMore(b, n, a);
    }
  }

  lemma EntriesMore(heap: map<Addr, Timer>, b: seq<Entry>, n: nat, now: int, cancelled: set<Id>)
    requires n < |b|
    ensures NewEntries(heap, b[..n + 1], now, cancelled) == NewEntries(heap, b[..n], now, cancelled) +
              if Returns(heap, b[n].addr, cancelled) then {Entry(now + heap[b[n].addr].interval, b[n].addr)} else {}
  {
    assert b[..n + 1] == b[..n] + [b[n]];
  }

  lemma NewIdsMore(heap: map<Addr, Timer>, b: seq<Entry>, n: nat, cancelled: set<Id>)
    requires n < |b|
    ensures NewIds(heap, b[..n + 1], cancelled) == NewIds(heap, b[..n], cancelled) +
              if Returns(heap, b[n].addr, cancelled) then {Id(b[n].addr, heap[b[n].addr].seqno)} else {}
  {
    assert b[..n + 1] == b[..n] + [b[n]];
  }

  lemma TimersNext(q: Queue, r: Queue, next: Queue, n: nat)
    requires n < |q.batch| && q.batch[n].addr in q.heap && q.batch[n].addr in r.heap
    requires r.heap[q.batch[n].addr] == q.heap[q.batch[n].addr]
    requires r.timers == q.timers + NewEntries(q.heap, q.batch[..n], q.now, q.canceling)
    requires PutsBack(r, next, q.batch[n].addr, q.now, q.canceling)
    ensures next.timers == q.timers + NewEntries(q.heap, q.batch[..n + 1], q.now, q.canceling)
  {
    EntriesMore(q.heap, q.batch, n, q.now, q.canceling);
  }

  lemma ActiveNext(q: Queue, r: Queue, next: Queue, n: nat)
    requires n < |q.batch| && q.batch[n].addr in q.heap && q.batch[n].addr in r.heap
    requires r.heap[q.batch[n].addr] == q.heap[q.batch[n].addr]
    requires r.active == q.active + NewIds(q.heap, q.batch[..n], q.canceling)
    requires PutsBack(r, next, q.batch[n].addr, q.now, q.canceling)
    ensures next.active == q.active + NewIds(q.heap, q.batch[..n + 1], q.canceling)
  {
    NewIdsMore(q.heap, q.batch, n, q.canceling);
  }

  lemma HeapNext(q: Queue, r: Queue, next: Queue, n: nat)
    requires n < |q.batch| && q.batch[n].addr in q.heap && !Within(q.batch[..n], q.batch[n].addr)
    requires HeapAfter(q.heap, q.batch[..n], q.now, q.canceling, r.heap) && q.batch[n].addr in r.heap
    requires PutsBack(r, next, q.batch[n].addr, q.now, q.canceling)
    ensures r.heap[q.batch[n].addr] == q.heap[q.batch[n].addr]
    ensures HeapAfter(q.heap, q.batch[..n + 1], q.now, q.canceling, next.heap)
  {
    HeapMore(q.heap, q.batch, n, q.now, q.canceling, r.heap);
  }

  lemma PutBackMore(q: Queue, r: Queue, next: Queue, n: nat)
    requires Owned(q) && q.put == 0 && n < |q.batch| && PutBackFirst(q, r, n) && q.batch[n].addr in r.heap
    requires PutsBack(r, next, q.batch[n].addr, q.now, q.canceling)
    ensures PutBackFirst(q, next, n + 1)
  {
    NotYet(q, n);
    HeapNext(q, r, next, n);
    TimersNext(q, r, next, n);
    ActiveNext(q, r, next, n);
  }

  lemma NotInBatch(q: Queue, id: Id)
    requires Owned(q) && q.put == 0 && id in q.active
    ensures id.addr in q.heap && !Within(q.batch, id.addr)
  {
    assert Indexed(q, id.addr);
    WithinBatch(q, id.addr);
  }

  lemma WithinBatch(q: Queue, a: Addr)
    requires q.put == 0
    ensures Within(q.batch, a) ==> InBatch(q, a)
  {
  }

  lemma PutBackLive(q: Queue, r: Queue)
    requires Owned(q) && q.put == 0 && PutBackFirst(q, r, |q.batch|)
    ensures LiveOf(r) == LiveOf(q) + Again(q.heap, q.batch, q.now, q.canceling)
  {
    assert q.batch[..|q.batch|] == q.batch;
    forall id | id in q.active ensures id.addr in q.heap && !Within(q.batch, id.addr) {
      NotInBatch(q, id);
    }
    LiveAfter(q, r);
  }

  lemma LiveAfter(q: Queue, r: Queue)
    requires forall id :: id in q.active ==> id.addr in q.heap && !Within(q.batch, id.addr)
    requires q.batch[..|q.batch|] == q.batch && PutBackFirst(q, r, |q.batch|)
    ensures LiveOf(r) == LiveOf(q) + Again(q.heap, q.batch, q.now, q.canceling)
  {
    var more := Again(q.heap, q.batch, q.now, q.canceling);
    forall id | id in q.active ensures id.addr in r.heap && r.heap[id.addr] == q.heap[id.addr] && id !in more {
    }
    forall id | id in more ensures id.addr in r.heap && r.heap[id.addr] == more[id] {
      assert Within(q.batch, id.addr);
    }
  }

  /** What returns at the end of a round depends on the timers as they were when the round took them. */
  lemma AgainSame(q: Queue, heap: map<Addr, Timer>, b: seq<Entry>, ops: seq<Op>)
    requires |q.taken| == |b| && MarkedBy(q, ops)
    requires forall i :: 0 <= i < |b| ==>
               b[i].addr in heap && b[i].addr in q.heap && q.heap[b[i].addr] == heap[b[i].addr]
               && q.taken[i] == Held(b[i].addr, heap[b[i].addr])
    ensures Again(q.heap, b, q.now, q.canceling) == Again(heap, b, q.now, Cancelled(ops))
  {
    forall e | e in b
      ensures e.addr in heap && e.addr in q.heap && q.heap[e.addr] == heap[e.addr]
      ensures Returns(q.heap, e.addr, q.canceling) <==> Returns(heap, e.addr, Cancelled(ops))
    {
      var i :| 0 <= i < |b| && b[i] == e;
      assert IdOfHeld(q.taken[i]) == Id(e.addr, heap[e.addr].seqno);
    }
  }
}
