/**
 The timer queue. A timer is a heap object known by its address; the queue holds it in two indexes, by
 deadline and by (address, sequence number). Addresses may be reused once freed. A run is a sequence
 of actions: allocation (on any thread), insertion and cancellation on the loop thread (also from
 inside callbacks), and expiry rounds, whose callbacks run one by one.

 Times are whole microseconds on one clock that never goes back.
 */
module Timers {

  type Addr = nat

  datatype Timer = Timer(expiration: int, interval: nat, repeat: bool, seqno: nat)
  datatype Entry = Entry(when: int, addr: Addr)
  datatype Id = Id(addr: Addr, seqno: nat)

  /** The one-shot timerfd: when it was set and for when. */
  datatype Alarm = Off | Set(at: int, due: int)

  /** A timer as it was when a round took it out. */
  datatype Held = Held(addr: Addr, timer: Timer)

  /** Waiting for an event, running callbacks, or putting the batch back. */
  datatype Mode = Quiet | Calling | Resetting

  /** A callback run: in which round, which timer, its deadline and the round's time. */
  datatype Firing = Firing(round: nat, seqno: nat, due: int, now: int)

  /**
   `waiting` are timers allocated whose insertion has not reached the loop yet, `batch` the timers
   of the last round, of which `next` have been run and `put` put back. `home` (the address each timer
   got), `taken`, `freed`, `cancelled`, `fired` and `round` are history.
   */
  datatype Queue = Queue(
    heap: map<Addr, Timer>, created: nat, waiting: set<Addr>,
    timers: set<Entry>, active: set<Id>, canceling: set<Id>,
    mode: Mode, batch: seq<Entry>, next: nat, put: nat, now: int,
    clock: int, alarm: Alarm,
    home: map<nat, Addr>, taken: seq<Held>, freed: set<nat>, cancelled: map<nat, nat>, fired: seq<Firing>, round: nat)

  const START := Queue(map[], 0, {}, {}, {}, {}, Quiet, [], 0, 0, 0, 1, Off, map[], [], {}, map[], [], 0)

  const MIN_DELAY := 100

  function Max(a: int, b: int): int { if a > b then a else b }

  // ---------------------------------------------------------------------------------------------
  // Arming
  // ---------------------------------------------------------------------------------------------

  /** Seconds and nanoseconds, as `howMuchTimeFromNow` fills in a timespec. */
  function Delay(when: int, now: int): (int, int) {
    var us := Max(when - now, MIN_DELAY);
    (us / 1000000, us % 1000000 * 1000)
  }

  /** The timespec is a proper one and means the wait, clamped to at least 100 microseconds. */
  lemma {:induction false} DelayMeans(when: int, now: int)
    ensures var d := Delay(when, now);
            && 0 <= d.0 && 0 <= d.1 < 1000000000 && (d.0 > 0 || d.1 > 0)
            && now * 1000 + d.0 * 1000000000 + d.1 == Max(when, now + MIN_DELAY) * 1000
  {
  }

  function Arm(q: Queue, when: int): Queue {
    q.(alarm := Set(q.clock, Max(when, q.clock + MIN_DELAY)))
  }

  /** The alarm goes off no later than the earliest deadline, or 100 microseconds after it was set. */
  predicate Armed(q: Queue) {
    q.timers != {} ==> q.alarm.Set? && forall e :: e in q.timers ==> q.alarm.due <= Max(e.when, q.alarm.at + MIN_DELAY)
  }

  ghost function Earliest(s: set<Entry>): (r: int)
    requires s != {}
    ensures (exists e :: e in s && e.when == r) && forall e :: e in s ==> r <= e.when
  {
    var x :| x in s;
    if s == {x} then x.when
    else
      var rest := s - {x};
      assert rest != {} by { assert s != {x}; }
      var r := Earliest(rest);
      assert s == rest + {x};
      if x.when < r then x.when else r
  }

  // ---------------------------------------------------------------------------------------------
  // Ownership
  // ---------------------------------------------------------------------------------------------

  predicate Indexed(q: Queue, a: Addr) { a in q.heap && Entry(q.heap[a].expiration, a) in q.timers }

  predicate InBatch(q: Queue, a: Addr) { exists i :: q.put <= i < |q.batch| && q.batch[i].addr == a }

  predicate Before(a: Entry, b: Entry) { a.when < b.when || (a.when == b.when && a.addr < b.addr) }

  /** `b` lists `s` in the order of the deadline index. */
  ghost predicate Lists(b: seq<Entry>, s: set<Entry>) {
    && (forall e :: e in b <==> e in s)
    && (forall i, j :: 0 <= i < j < |b| ==> Before(b[i], b[j]))
  }

  /** Every index entry and batch entry points to a live timer, held in one place only. */
  ghost predicate PlacesOk(q: Queue) {
    && q.waiting <= q.heap.Keys
    && (forall e :: e in q.timers ==>
          e.addr in q.heap && e.when == q.heap[e.addr].expiration && e.addr !in q.waiting && !InBatch(q, e.addr))
    && q.put <= |q.batch|
    && (forall i :: q.put <= i < |q.batch| ==> q.batch[i].addr in q.heap && q.batch[i].addr !in q.waiting)
    && (forall i, j :: q.put <= i < j < |q.batch| ==> q.batch[i].addr != q.batch[j].addr)
    && (forall a :: a in q.heap ==> a in q.waiting || Indexed(q, a) || InBatch(q, a))
  }

  /** The second index holds exactly the timers of the first. */
  ghost predicate ActiveOk(q: Queue) {
    forall id :: id in q.active <==> Indexed(q, id.addr) && q.heap[id.addr].seqno == id.seqno
  }

  /** A sequence number belongs to one timer for ever, and a freed timer is never live again. */
  ghost predicate NumbersOk(q: Queue) {
    && (forall a :: a in q.heap ==>
          var n := q.heap[a].seqno; n in q.home && q.home[n] == a && n !in q.freed)
    && (forall n :: n in q.home ==> n <= q.created)
    && q.freed <= q.home.Keys
  }

  ghost predicate Owned(q: Queue) { PlacesOk(q) && ActiveOk(q) && NumbersOk(q) }

  // ---------------------------------------------------------------------------------------------
  // The operations
  // ---------------------------------------------------------------------------------------------

  /** `new Timer`, which takes the next sequence number. */
  function New(q: Queue, a: Addr, when: int, interval: nat, repeat: bool): Queue
    requires a !in q.heap
  {
    q.(created := q.created + 1, waiting := q.waiting + {a},
       heap := q.heap[a := Timer(when, interval, repeat, q.created + 1)], home := q.home[q.created + 1 := a])
  }

  /** `insert`: into both indexes. */
  function Insert(q: Queue, a: Addr): Queue
    requires a in q.heap
  {
    q.(waiting := q.waiting - {a}, timers := q.timers + {Entry(q.heap[a].expiration, a)},
       active := q.active + {Id(a, q.heap[a].seqno)})
  }

  predicate EarliestChanges(q: Queue, when: int) { forall e :: e in q.timers ==> when < e.when }

  /** `addTimerInLoop`. */
  function Add(q: Queue, a: Addr): Queue
    requires a in q.heap
  {
    var when := q.heap[a].expiration;
    if EarliestChanges(q, when) then Arm(Insert(q, a), when) else Insert(q, a)
  }

  function Free(q: Queue, a: Addr): Queue
    requires a in q.heap
  {
    q.(heap := q.heap - {a}, freed := q.freed + {q.heap[a].seqno})
  }

  /** Whether a cancellation reaches a timer: one in the queue, or one of the batch being run. */
  predicate Reaches(q: Queue, id: Id) {
    || id in q.active
    || (q.mode == Calling && InBatch(q, id.addr) && id.addr in q.heap && q.heap[id.addr].seqno == id.seqno)
  }

  /** `cancelInLoop`. */
  function Cancel(q: Queue, id: Id): Queue
    requires Owned(q)
  {
    var c := if Reaches(q, id) && id.seqno !in q.cancelled then q.cancelled[id.seqno := q.round] else q.cancelled;
    if id in q.active then
      Free(q.(timers := q.timers - {Entry(q.heap[id.addr].expiration, id.addr)}, active := q.active - {id}), id.addr)
        .(cancelled := c)
    else if q.mode == Calling then q.(canceling := q.canceling + {id}, cancelled := c)
    else q.(cancelled := c)
  }

  function Expired(q: Queue): set<Entry> { set e | e in q.timers && e.when <= q.clock }

  function HeldBy(q: Queue, b: seq<Entry>): (r: seq<Held>)
    requires forall i :: 0 <= i < |b| ==> b[i].addr in q.heap
    ensures |r| == |b| && forall i :: 0 <= i < |b| ==> r[i] == Held(b[i].addr, q.heap[b[i].addr])
  {
    seq(|b|, i requires 0 <= i < |b| => Held(b[i].addr, q.heap[b[i].addr]))
  }

  function Ids(heap: map<Addr, Timer>, s: set<Entry>): set<Id> {
    set e | e in s && e.addr in heap :: Id(e.addr, heap[e.addr].seqno)
  }

  /** The start of `handleRead`: read the timerfd and move the expired timers out of both indexes. */
  function Begin(q: Queue, b: seq<Entry>): Queue
    requires Owned(q) && Lists(b, Expired(q))
  {
    assert forall i :: 0 <= i < |b| ==> b[i] in b;
    q.(mode := Calling, batch := b, next := 0, put := 0, now := q.clock, canceling := {}, round := q.round + 1,
       taken := HeldBy(q, b), timers := q.timers - Expired(q), active := q.active - Ids(q.heap, Expired(q)),
       alarm := if q.alarm.Set? && q.alarm.due <= q.clock then Off else q.alarm)
  }

  /** Run the next callback of the batch. */
  function Fire(q: Queue): Queue
    requires Owned(q) && q.put <= q.next < |q.batch|
  {
    var e := q.batch[q.next];
    q.(next := q.next + 1, fired := q.fired + [Firing(q.round, q.heap[e.addr].seqno, e.when, q.now)])
  }

  /** The head of the batch, out of it and in no index. */
  function Unbatched(q: Queue): Queue
    requires q.put < |q.batch|
  {
    q.(put := q.put + 1, waiting := q.waiting + {q.batch[q.put].addr})
  }

  function Restart(q: Queue, a: Addr, when: int): Queue
    requires a in q.heap
  {
    q.(heap := q.heap[a := q.heap[a].(expiration := when)])
  }

  function Discard(q: Queue, a: Addr): Queue
    requires a in q.heap
  {
    Free(q.(waiting := q.waiting - {a}), a)
  }

  /** One iteration of the loop in `reset`: restart a repeating timer that was not cancelled, free the others. */
  function PutBack(q: Queue): Queue
    requires Owned(q) && q.put < |q.batch|
  {
    var a := q.batch[q.put].addr;
    var t := q.heap[a];
    if t.repeat && Id(a, t.seqno) !in q.canceling
    then Insert(Restart(Unbatched(q), a, q.now + t.interval), a)
    else Discard(Unbatched(q), a)
  }

  /** The end of `reset`: set the timerfd for the earliest deadline, unless that is not a valid time. */
  ghost function Finish(q: Queue): Queue {
    var r := q.(mode := Quiet);
    if q.timers != {} && Earliest(q.timers) > 0 then Arm(r, Earliest(q.timers)) else r
  }

  datatype Action =
    | Allocate(addr: Addr, when: int, interval: nat, repeat: bool)
    | AddInLoop(addr: Addr)
    | CancelInLoop(id: Id)
    | Expire(batch: seq<Entry>)
    | RunCallback
    | StartReset
    | ResetOne
    | EndReset
    | Tick(to: int)

  ghost predicate Enabled(q: Queue, a: Action) {
    match a
    case Allocate(addr, _, _, _) => addr !in q.heap
    case AddInLoop(addr) => addr in q.waiting && q.mode != Resetting
    case CancelInLoop(_) => q.mode != Resetting
    case Expire(b) => q.mode == Quiet && Lists(b, Expired(q))
    case RunCallback => q.mode == Calling && q.put <= q.next < |q.batch|
    case StartReset => q.mode == Calling && q.next == |q.batch|
    case ResetOne => q.mode == Resetting && q.put < |q.batch|
    case EndReset => q.mode == Resetting && q.put == |q.batch|
    case Tick(to) => q.clock <= to
  }

  /** An action that is not enabled changes nothing. */
  ghost function Step(q: Queue, a: Action): Queue {
    if !(Owned(q) && Enabled(q, a)) then q
    else match a
      case Allocate(addr, when, interval, repeat) => New(q, addr, when, interval, repeat)
      case AddInLoop(addr) => Add(q, addr)
      case CancelInLoop(id) => Cancel(q, id)
      case Expire(b) => Begin(q, b)
      case RunCallback => Fire(q)
      case StartReset => q.(mode := Resetting)
      case ResetOne => PutBack(q)
      case EndReset => Finish(q)
      case Tick(to) => q.(clock := to)
  }

  ghost function Run(actions: seq<Action>): Queue {
    if actions == [] then START else Step(Run(actions[..|actions| - 1]), actions[|actions| - 1])
  }

  // ---------------------------------------------------------------------------------------------
  // Ownership is kept
  // ---------------------------------------------------------------------------------------------

  lemma NewOwned(q: Queue, a: Addr, when: int, interval: nat, repeat: bool)
    requires Owned(q) && a !in q.heap
    ensures Owned(New(q, a, when, interval, repeat))
  {
    var r := New(q, a, when, interval, repeat);
    forall b | b in r.heap ensures b in r.waiting || Indexed(r, b) || InBatch(r, b) {
      if b != a {
        assert b in q.waiting || Indexed(q, b) || InBatch(q, b);
      }
    }
  }

  lemma InsertOwned(q: Queue, a: Addr)
    requires Owned(q) && a in q.waiting
    ensures Owned(Insert(q, a))
  {
    var r := Insert(q, a);
    forall b | b in r.heap ensures b in r.waiting || Indexed(r, b) || InBatch(r, b) {
      if b != a {
        assert b in q.waiting || Indexed(q, b) || InBatch(q, b);
      }
    }
  }

  lemma CancelOwned(q: Queue, id: Id)
    requires Owned(q)
    ensures Owned(Cancel(q, id))
  {
    var r := Cancel(q, id);
    if id in q.active {
      assert Indexed(q, id.addr);
      forall b | b in r.heap ensures b in r.waiting || Indexed(r, b) || InBatch(r, b) {
        assert b in q.waiting || Indexed(q, b) || InBatch(q, b);
      }
    }
  }

  lemma BeginOwned(q: Queue, b: seq<Entry>)
    requires Owned(q) && Lists(b, Expired(q)) && q.put == |q.batch|
    ensures Owned(Begin(q, b))
  {
    var r := Begin(q, b);
    assert forall i :: 0 <= i < |b| ==> b[i] in b && b[i] in Expired(q);
    assert forall a :: !InBatch(q, a);
    forall a | a in r.heap ensures a in r.waiting || Indexed(r, a) || InBatch(r, a) {
      var e := Entry(q.heap[a].expiration, a);
      assert a in q.waiting || e in q.timers;
      if e in Expired(q) {
        assert e in b;
      }
    }
  }

  /** Putting the head of the batch back touches no other timer. */
  lemma OthersStay(q: Queue, r: Queue, a: Addr)
    requires Owned(q) && q.put < |q.batch| && a == q.batch[q.put].addr && r.put == q.put + 1 && r.batch == q.batch
    ensures InBatch(q, a) && !InBatch(r, a) && !Indexed(q, a)
    ensures forall b :: b != a ==> (InBatch(r, b) <==> InBatch(q, b))
  {
    forall b | b != a && InBatch(q, b) ensures InBatch(r, b) {
      var i :| q.put <= i < |q.batch| && q.batch[i].addr == b;
      assert r.batch[i].addr == b;
    }
  }

  lemma PutBackOwned(q: Queue)
    requires Owned(q) && q.put < |q.batch|
    ensures Owned(PutBack(q))
  {
    var a := q.batch[q.put].addr;
    var r := PutBack(q);
    OthersStay(q, r, a);
    forall b | b in r.heap ensures b in r.waiting || Indexed(r, b) || InBatch(r, b) {
      assert b in q.waiting || Indexed(q, b) || InBatch(q, b);
    }
  }

  // ---------------------------------------------------------------------------------------------
  // Firing and cancelling
  // ---------------------------------------------------------------------------------------------

  /** A cancelled timer is in no index; those of the batch being run are exactly the ones marked for removal. */
  ghost predicate CancelsOk(q: Queue) {
    && (forall e :: e in q.timers && e.addr in q.heap ==> q.heap[e.addr].seqno !in q.cancelled)
    && (forall a :: a in q.waiting && a in q.heap ==> q.heap[a].seqno !in q.cancelled)
    && (forall i :: q.put <= i < |q.batch| && q.batch[i].addr in q.heap ==>
          var n := q.heap[q.batch[i].addr].seqno;
          && (n in q.cancelled <==> Id(q.batch[i].addr, n) in q.canceling)
          && (n in q.cancelled ==> q.cancelled[n] == q.round))
    && (forall n :: n in q.cancelled ==> n <= q.created && q.cancelled[n] <= q.round)
  }

  /** No firing is later than its timer's cancellation; each was due; each round fired in deadline order. */
  ghost predicate FiredOk(q: Queue) {
    && (forall f :: f in q.fired ==>
          && f.round <= q.round && f.due <= f.now
          && (f.seqno in q.cancelled ==> f.round <= q.cancelled[f.seqno]))
    && (forall i, j :: 0 <= i < j < |q.fired| && q.fired[i].round == q.fired[j].round ==>
          q.fired[i].due <= q.fired[j].due)
  }

  /** What is left of the batch is due, sorted, and comes after what this round fired. */
  ghost predicate BatchOk(q: Queue) {
    && (forall i, j :: 0 <= i < j < |q.batch| ==> q.batch[i].when <= q.batch[j].when)
    && (forall i :: 0 <= i < |q.batch| ==> q.batch[i].when <= q.now)
    && (q.mode == Calling ==>
          && q.put == 0
          && forall f, i :: f in q.fired && f.round == q.round && q.next <= i < |q.batch| ==> f.due <= q.batch[i].when)
    && (q.mode == Quiet ==> q.put == |q.batch|)
  }

  /** The fate of a timer taken by a round: back in both indexes, or freed. */
  ghost predicate Done(q: Queue, h: Held) {
    if h.timer.repeat && h.timer.seqno !in q.cancelled
    then
      && h.addr in q.heap && q.heap[h.addr] == h.timer.(expiration := q.now + h.timer.interval)
      && Indexed(q, h.addr) && Id(h.addr, h.timer.seqno) in q.active
    else h.timer.seqno in q.freed
  }

  ghost predicate TakenOk(q: Queue) {
    q.mode != Quiet ==>
      && |q.taken| == |q.batch|
      && (forall i :: q.put <= i < |q.batch| ==>
            q.batch[i].addr in q.heap && q.taken[i] == Held(q.batch[i].addr, q.heap[q.batch[i].addr]))
      && (forall i :: 0 <= i < q.put && i < |q.batch| ==> Done(q, q.taken[i]))
  }

  // ---------------------------------------------------------------------------------------------
  // Arming
  // ---------------------------------------------------------------------------------------------

  /**
   Armed while waiting for events. Inside a round the alarm may be stale, but then every deadline is a
   valid time and the end of the round will set it.
   */
  ghost predicate AlarmOk(q: Queue) {
    && q.clock > 0
    && (q.mode == Quiet ==> Armed(q))
    && (q.mode != Quiet ==> 0 < q.now && (Armed(q) || forall e :: e in q.timers ==> e.when > 0))
  }

  /** All but the alarm. */
  ghost predicate Core(q: Queue) {
    Owned(q) && CancelsOk(q) && FiredOk(q) && BatchOk(q) && TakenOk(q)
  }

  ghost predicate Inv(q: Queue) { Core(q) && AlarmOk(q) }

  // ---------------------------------------------------------------------------------------------
  // Every action keeps the invariant
  // ---------------------------------------------------------------------------------------------

  lemma NewInv(q: Queue, a: Addr, when: int, interval: nat, repeat: bool)
    requires Inv(q) && a !in q.heap
    ensures Inv(New(q, a, when, interval, repeat))
  {
    NewOwned(q, a, when, interval, repeat);
    NewCancels(q, a, when, interval, repeat);
    NewTaken(q, a, when, interval, repeat);
  }

  lemma NewCancels(q: Queue, a: Addr, when: int, interval: nat, repeat: bool)
    requires PlacesOk(q) && CancelsOk(q) && a !in q.heap
    ensures CancelsOk(New(q, a, when, interval, repeat))
  {
  }

  lemma NewTaken(q: Queue, a: Addr, when: int, interval: nat, repeat: bool)
    requires TakenOk(q) && a !in q.heap
    ensures TakenOk(New(q, a, when, interval, repeat))
  {
    var r := New(q, a, when, interval, repeat);
    assert forall h :: Done(q, h) ==> Done(r, h);
  }

  lemma CoreFrame(q: Queue, r: Queue)
    requires Core(q) && r == q.(clock := r.clock, alarm := r.alarm)
    ensures Core(r)
  {
    forall h ensures Done(q, h) ==> Done(r, h) {
    }
  }

  lemma InsertCore(q: Queue, a: Addr)
    requires Core(q) && a in q.waiting && q.mode != Resetting
    ensures Core(Insert(q, a))
  {
    InsertOwned(q, a);
  }

  lemma AddInv(q: Queue, a: Addr)
    requires Inv(q) && a in q.waiting && q.mode != Resetting
    ensures Inv(Add(q, a))
  {
    InsertCore(q, a);
    CoreFrame(Insert(q, a), Add(q, a));
    AddAlarm(q, a);
  }

  lemma AddAlarm(q: Queue, a: Addr)
    requires AlarmOk(q) && a in q.heap
    ensures AlarmOk(Add(q, a))
  {
    var e := Entry(q.heap[a].expiration, a);
    if !EarliestChanges(q, e.when) {
      var f :| f in q.timers && f.when <= e.when;
    }
  }

  lemma CancelInv(q: Queue, id: Id)
    requires Inv(q) && q.mode != Resetting
    ensures Inv(Cancel(q, id))
  {
    CancelOwned(q, id);
    CancelCancels(q, id);
    var r := Cancel(q, id);
    assert id in q.active ==> Indexed(q, id.addr) && !InBatch(q, id.addr);
    assert TakenOk(r);
  }

  lemma CancelCancels(q: Queue, id: Id)
    requires Owned(q) && CancelsOk(q)
    ensures CancelsOk(Cancel(q, id))
  {
    if id in q.active {
      assert Indexed(q, id.addr) && q.home[id.seqno] == id.addr;
    } else if Reaches(q, id) {
      assert q.home[id.seqno] == id.addr;
    }
  }

  lemma BeginInv(q: Queue, b: seq<Entry>)
    requires Inv(q) && q.mode == Quiet && Lists(b, Expired(q))
    ensures Inv(Begin(q, b))
  {
    BeginOwned(q, b);
    var r := Begin(q, b);
    assert forall i :: 0 <= i < |b| ==> b[i] in b && b[i] in Expired(q) && b[i] in q.timers;
    assert forall e :: e in r.timers ==> e.when > q.clock;
  }

  lemma FireInv(q: Queue)
    requires Inv(q) && q.mode == Calling && q.next < |q.batch|
    ensures Inv(Fire(q))
  {
    FireFired(q);
    forall h ensures Done(q, h) ==> Done(Fire(q), h) {
    }
  }

  lemma FireFired(q: Queue)
    requires Inv(q) && q.mode == Calling && q.next < |q.batch|
    ensures FiredOk(Fire(q)) && BatchOk(Fire(q))
  {
    assert q.batch[q.next].addr in q.heap;
  }

  lemma StartResetInv(q: Queue)
    requires Inv(q) && q.mode == Calling && q.next == |q.batch|
    ensures Inv(q.(mode := Resetting))
  {
    ModeCore(q, Resetting);
  }

  lemma ModeCore(q: Queue, m: Mode)
    requires Core(q) && (m == Quiet ==> q.put == |q.batch|)
    requires (q.mode == Calling && m == Resetting) || (q.mode == Resetting && m == Quiet)
    ensures Core(q.(mode := m))
  {
    forall h ensures Done(q, h) ==> Done(q.(mode := m), h) {
    }
  }

  lemma PutBackInv(q: Queue)
    requires Inv(q) && q.mode == Resetting && q.put < |q.batch|
    ensures Inv(PutBack(q))
  {
    PutBackOwned(q);
    PutBackTaken(q);
    PutBackCancels(q);
    PutBackBatch(q);
    PutBackAlarm(q);
  }

  lemma PutBackTaken(q: Queue)
    requires Owned(q) && CancelsOk(q) && TakenOk(q) && q.mode == Resetting && q.put < |q.batch|
    ensures TakenOk(PutBack(q))
  {
    forall i | 0 <= i < q.put ensures Done(PutBack(q), q.taken[i]) {
      DoneStays(q, q.taken[i]);
    }
    DoneNow(q);
    var a := q.batch[q.put].addr;
    assert forall i :: q.put < i < |q.batch| ==> q.batch[i].addr != a;
  }

  lemma DoneStays(q: Queue, h: Held)
    requires Owned(q) && q.put < |q.batch| && Done(q, h)
    ensures Done(PutBack(q), h)
  {
    assert InBatch(q, q.batch[q.put].addr);
  }

  lemma DoneNow(q: Queue)
    requires Owned(q) && CancelsOk(q) && q.put < |q.batch| && q.batch[q.put].addr in q.heap
    ensures Done(PutBack(q), Held(q.batch[q.put].addr, q.heap[q.batch[q.put].addr]))
  {
  }

  lemma PutBackCancels(q: Queue)
    requires Owned(q) && CancelsOk(q) && q.put < |q.batch|
    ensures CancelsOk(PutBack(q))
  {
    var a := q.batch[q.put].addr;
    assert a in q.heap && InBatch(q, a);
  }

  lemma PutBackBatch(q: Queue)
    requires Owned(q) && FiredOk(q) && BatchOk(q) && q.mode == Resetting && q.put < |q.batch|
    ensures FiredOk(PutBack(q)) && BatchOk(PutBack(q))
  {
  }

  lemma PutBackAlarm(q: Queue)
    requires Owned(q) && AlarmOk(q) && q.mode == Resetting && q.put < |q.batch|
    ensures AlarmOk(PutBack(q))
  {
  }

  lemma FinishInv(q: Queue)
    requires Inv(q) && q.mode == Resetting && q.put == |q.batch|
    ensures Inv(Finish(q))
  {
    ModeCore(q, Quiet);
    CoreFrame(q.(mode := Quiet), Finish(q));
  }

  lemma TickInv(q: Queue, to: int)
    requires Inv(q) && q.clock <= to
    ensures Inv(q.(clock := to))
  {
    CoreFrame(q, q.(clock := to));
  }

  lemma IndexStepInv(q: Queue, a: Action)
    requires Inv(q) && (a.Allocate? || a.AddInLoop? || a.CancelInLoop? || a.Tick?)
    ensures Inv(Step(q, a))
  {
    if Enabled(q, a) {
      match a {
        case Allocate(addr, when, interval, repeat) => NewInv(q, addr, when, interval, repeat);
        case AddInLoop(addr) => AddInv(q, addr);
        case CancelInLoop(id) => CancelInv(q, id);
        case Tick(to) => TickInv(q, to);
      }
    }
  }

  lemma RoundStepInv(q: Queue, a: Action)
    requires Inv(q) && (a.Expire? || a.RunCallback? || a.StartReset? || a.ResetOne? || a.EndReset?)
    ensures Inv(Step(q, a))
  {
    if Enabled(q, a) {
      match a {
        case Expire(b) => BeginInv(q, b);
        case RunCallback => FireInv(q);
        case StartReset => StartResetInv(q);
        case ResetOne => PutBackInv(q);
        case EndReset => FinishInv(q);
      }
    }
  }

  lemma {:induction false} RunInv(actions: seq<Action>)
    ensures Inv(Run(actions))
  {
    if actions != [] {
      var q, a := Run(actions[..|actions| - 1]), actions[|actions| - 1];
      RunInv(actions[..|actions| - 1]);
      if a.Allocate? || a.AddInLoop? || a.CancelInLoop? || a.Tick? {
        IndexStepInv(q, a);
      } else {
        RoundStepInv(q, a);
      }
    }
  }

  // ---------------------------------------------------------------------------------------------
  // What holds in every run
  // ---------------------------------------------------------------------------------------------

  ghost function IdOf(q: Queue, e: Entry): Id {
    Id(e.addr, if e.addr in q.heap then q.heap[e.addr].seqno else 0)
  }

  lemma {:induction false} ImageSize(q: Queue, s: set<Entry>)
    requires Owned(q) && s <= q.timers
    ensures |set e | e in s :: IdOf(q, e)| == |s|
    decreases s
  {
    var image := set e | e in s :: IdOf(q, e);
    if s != {} {
      var x :| x in s;
      var rest := s - {x};
      ImageSize(q, rest);
      var less := set e | e in rest :: IdOf(q, e);
      assert IdOf(q, x) !in less by {
        assert forall e :: e in rest ==> e.addr != x.addr;
      }
      assert image == less + {IdOf(q, x)};
    }
  }

  /**
   Each live timer is in exactly one place: not yet inserted, in both indexes, or in the batch being
   run. The indexes have the same size, and a live timer was never freed.
   */
  lemma {:induction false} Ownership(actions: seq<Action>)
    ensures var q := Run(actions);
            && |q.timers| == |q.active|
            && (forall a :: a in q.heap ==>
                  && (a in q.waiting || Indexed(q, a) || InBatch(q, a))
                  && !(a in q.waiting && Indexed(q, a)) && !(a in q.waiting && InBatch(q, a))
                  && !(Indexed(q, a) && InBatch(q, a))
                  && (Indexed(q, a) <==> Id(a, q.heap[a].seqno) in q.active)
                  && q.heap[a].seqno !in q.freed)
            && (forall e :: e in q.timers ==> e.addr in q.heap)
            && (forall i :: q.put <= i < |q.batch| ==> q.batch[i].addr in q.heap)
  {
    RunInv(actions);
    var q := Run(actions);
    ImageSize(q, q.timers);
    assert q.active == set e | e in q.timers :: IdOf(q, e) by {
      forall id | id in q.active ensures id in set e | e in q.timers :: IdOf(q, e) {
        var e := Entry(q.heap[id.addr].expiration, id.addr);
        assert e in q.timers && IdOf(q, e) == id;
      }
    }
  }

  /** A TimerId, however stale, removes and frees no timer but the one it was given for. */
  lemma {:induction false} StaleIdHarmless(actions: seq<Action>, id: Id)
    ensures var q := Run(actions);
            && Owned(q)
            && (forall e :: e in q.timers && e !in Cancel(q, id).timers ==>
                  e.addr == id.addr && q.heap[e.addr].seqno == id.seqno)
            && Cancel(q, id).freed <= q.freed + {id.seqno}
            && (forall a :: a in q.heap && q.heap[a].seqno != id.seqno ==>
                  a in Cancel(q, id).heap && Cancel(q, id).heap[a] == q.heap[a])
  {
    RunInv(actions);
    var q := Run(actions);
    if id in q.active {
      assert Indexed(q, id.addr);
    }
  }

  /**
   A timer reached by a cancellation fires in no later round, even if it repeats. Firings are due, and
   within a round they come in deadline order.
   */
  lemma {:induction false} CancelledStaysSilent(actions: seq<Action>)
    ensures var q := Run(actions);
            && (forall f :: f in q.fired && f.seqno in q.cancelled ==> f.round <= q.cancelled[f.seqno])
            && (forall f :: f in q.fired ==> f.due <= f.now)
            && (forall i, j :: 0 <= i < j < |q.fired| && q.fired[i].round == q.fired[j].round ==>
                  q.fired[i].due <= q.fired[j].due)
  {
    RunInv(actions);
  }

  /** The expired timers can always be listed, so a round can always start. */
  lemma {:induction false} ListingExists(s: set<Entry>) returns (b: seq<Entry>)
    ensures Lists(b, s)
    decreases s
  {
    if s == {} {
      b := [];
    } else {
      var m := First(s);
      var rest := ListingExists(s - {m});
      b := [m] + rest;
      forall i, j | 0 <= i < j < |b| ensures Before(b[i], b[j]) {
        if i == 0 {
          assert b[j] in rest;
        }
      }
    }
  }

  lemma {:induction false} First(s: set<Entry>) returns (m: Entry)
    requires s != {}
    ensures m in s && forall e :: e in s && e != m ==> Before(m, e)
    decreases s
  {
    m :| m in s;
    var rest := s - {m};
    assert forall e :: e in s && e != m ==> e in rest;
    if rest != {} {
      var r := First(rest);
      if !Before(m, r) {
        m := r;
      }
    }
  }

  /** A round takes exactly the timers that are due, in deadline order, and leaves the others alone. */
  lemma {:induction false} RoundTakesTheDue(actions: seq<Action>, b: seq<Entry>)
    requires Enabled(Run(actions), Expire(b))
    ensures var q, r := Run(actions), Step(Run(actions), Expire(b));
            && (forall e :: e in q.timers && e.when <= q.clock <==> e in r.batch)
            && (forall e :: e in r.timers <==> e in q.timers && e.when > q.clock)
            && (forall i, j :: 0 <= i < j < |r.batch| ==> r.batch[i].when <= r.batch[j].when)
  {
    RunInv(actions);
    forall e ensures e in Expired(Run(actions)) <==> e in b {
    }
    assert forall i, j :: 0 <= i < j < |b| ==> Before(b[i], b[j]);
  }

  /**
   When a round ends, each timer it took that repeats and was not cancelled meanwhile is back in both
   indexes, one interval after the round's time; every other one is freed.
   */
  lemma {:induction false} RoundPutsBack(actions: seq<Action>, i: nat)
    requires Enabled(Run(actions), EndReset) && i < |Run(actions).taken|
    ensures var q := Step(Run(actions), EndReset); Done(q, q.taken[i])
  {
    RunInv(actions);
    assert Done(Run(actions), Run(actions).taken[i]);
  }

  /** Whenever the loop waits with timers pending, the alarm is set early enough. */
  lemma {:induction false} AlwaysArmed(actions: seq<Action>)
    ensures Run(actions).mode == Quiet ==> Armed(Run(actions))
  {
    RunInv(actions);
  }

  /** The alarm a step sets is for the earliest deadline then in the queue, or 100 microseconds on if that is later. */
  ghost predicate SetForEarliest(q: Queue) {
    q.timers != {} && q.alarm == Set(q.clock, Max(Earliest(q.timers), q.clock + MIN_DELAY))
  }

  lemma EarliestIs(s: set<Entry>, e: Entry)
    requires e in s && forall f :: f in s ==> e.when <= f.when
    ensures Earliest(s) == e.when
  {
  }

  lemma AddSets(q: Queue, a: Addr)
    requires a in q.heap
    ensures Add(q, a).alarm == q.alarm || SetForEarliest(Add(q, a))
  {
    var e := Entry(q.heap[a].expiration, a);
    if EarliestChanges(q, e.when) {
      EarliestIs(Add(q, a).timers, e);
    }
  }

  /** A step that changes the alarm either sets it so, or is the round for which it went off. */
  lemma {:induction false} AlarmExactly(actions: seq<Action>, a: Action)
    ensures var q, r := Run(actions), Run(actions + [a]);
            r.alarm != q.alarm ==>
              SetForEarliest(r) || (a.Expire? && q.alarm.Set? && q.alarm.due <= q.clock && r.alarm == Off)
  {
    RunSnoc(actions, a);
    var q := Run(actions);
    if a.AddInLoop? && Owned(q) && Enabled(q, a) {
      AddSets(q, a.addr);
    }
  }

  lemma RunSnoc(actions: seq<Action>, a: Action)
    ensures Run(actions + [a]) == Step(Run(actions), a)
  {
    assert (actions + [a])[..|actions|] == actions;
  }

  /** A cancellation that reaches no timer changes neither the timers nor the indexes. */
  lemma {:induction false} UnreachedChangesNothing(q: Queue, id: Id)
    requires Owned(q) && !Reaches(q, id)
    ensures var r := Cancel(q, id);
            && r.heap == q.heap && r.timers == q.timers && r.active == q.active && r.waiting == q.waiting
            && r.cancelled == q.cancelled
  {
  }
}
