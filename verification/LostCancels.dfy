/**
 What a cancellation still lets happen. A timer whose insertion has not reached the loop yet is in no index and
 no batch; cancelling it then is forgotten, and it can still fire. One of the batch being run fires once more
 exactly when its turn is still to come.
 */
module LostCancels {
  import opened Timers

  /** A continuation of the run `start` ends in `q`. */
  ghost predicate Ext(start: seq<Action>, q: Queue) { exists more :: Run(start + more) == q }

  lemma StartExt(start: seq<Action>)
    ensures Ext(start, Run(start))
  {
    assert start + [] == start;
  }

  lemma StepExt(start: seq<Action>, q: Queue, a: Action)
    requires Ext(start, q)
    ensures Ext(start, Step(q, a))
  {
    var more :| Run(start + more) == q;
    RunSnoc(start + more, a);
    assert start + more + [a] == start + (more + [a]);
  }

  lemma ExtInv(start: seq<Action>, q: Queue)
    requires Ext(start, q)
    ensures Inv(q)
  {
    var more :| Run(start + more) == q;
    RunInv(start + more);
  }

  lemma ExtOwned(start: seq<Action>, q: Queue)
    requires Ext(start, q)
    ensures Owned(q)
  {
    ExtInv(start, q);
  }

  /** The timer at `a` is `t`, and its insertion is still to come. */
  predicate Waits(q: Queue, a: Addr, t: Timer) { a in q.waiting && a in q.heap && q.heap[a] == t }

  /** The timer at `a` is `t`, and in the deadline index. */
  predicate Queued(q: Queue, a: Addr, t: Timer) { a in q.heap && q.heap[a] == t && Entry(t.expiration, a) in q.timers }

  // ---------------------------------------------------------------------------------------------
  // What single steps do to a waiting timer
  // ---------------------------------------------------------------------------------------------

  lemma CancelWaits(q: Queue, a: Addr, t: Timer)
    requires Inv(q) && Waits(q, a, t) && q.mode != Resetting
    ensures !Reaches(q, Id(a, t.seqno))
    ensures var r := Step(q, CancelInLoop(Id(a, t.seqno)));
            Waits(r, a, t) && r.mode == q.mode && r.fired == q.fired && r.next == q.next && r.batch == q.batch
  {
    var id := Id(a, t.seqno);
    assert id !in q.active by {
      assert Indexed(q, a) ==> Entry(t.expiration, a) in q.timers;
    }
    assert !InBatch(q, a);
  }

  lemma CallWaits(q: Queue, a: Addr, t: Timer)
    requires Inv(q) && Waits(q, a, t) && q.mode == Calling && q.next < |q.batch|
    ensures var r := Step(q, RunCallback);
            && Waits(r, a, t) && r.mode == Calling && r.next == q.next + 1 && r.batch == q.batch
            && |r.fired| == |q.fired| + 1
  {
  }

  lemma ResetWaits(q: Queue, a: Addr, t: Timer)
    requires Inv(q) && Waits(q, a, t) && q.mode == Resetting && q.put < |q.batch|
    ensures var r := Step(q, ResetOne);
            Waits(r, a, t) && r.mode == Resetting && r.put == q.put + 1 && r.batch == q.batch && r.fired == q.fired
  {
    PutBackWaits(q, a, t);
  }

  lemma PutBackWaits(q: Queue, a: Addr, t: Timer)
    requires Owned(q) && Waits(q, a, t) && q.put < |q.batch|
    ensures var r := PutBack(q);
            Waits(r, a, t) && r.mode == q.mode && r.put == q.put + 1 && r.batch == q.batch && r.fired == q.fired
  {
    assert q.batch[q.put].addr != a;
  }

  // ---------------------------------------------------------------------------------------------
  // To the end of the round
  // ---------------------------------------------------------------------------------------------

  lemma {:induction false} FinishReset(start: seq<Action>, q: Queue, a: Addr, t: Timer) returns (r: Queue)
    requires Ext(start, q) && Waits(q, a, t) && q.mode == Resetting && q.put <= |q.batch|
    ensures Ext(start, r) && Waits(r, a, t) && r.mode == Quiet && |q.fired| <= |r.fired|
    decreases |q.batch| - q.put
  {
    ExtInv(start, q);
    if q.put == |q.batch| {
      StepExt(start, q, EndReset);
      r := Step(q, EndReset);
    } else {
      StepExt(start, q, ResetOne);
      ResetWaits(q, a, t);
      r := FinishReset(start, Step(q, ResetOne), a, t);
    }
  }

  lemma {:induction false} FinishCalls(start: seq<Action>, q: Queue, a: Addr, t: Timer) returns (r: Queue)
    requires Ext(start, q) && Waits(q, a, t) && q.mode == Calling && q.next <= |q.batch|
    ensures Ext(start, r) && Waits(r, a, t) && r.mode == Quiet && |q.fired| <= |r.fired|
    decreases |q.batch| - q.next
  {
    ExtInv(start, q);
    if q.next == |q.batch| {
      StepExt(start, q, StartReset);
      r := FinishReset(start, Step(q, StartReset), a, t);
    } else {
      StepExt(start, q, RunCallback);
      CallWaits(q, a, t);
      r := FinishCalls(start, Step(q, RunCallback), a, t);
    }
  }

  // ---------------------------------------------------------------------------------------------
  // Inserted, due, taken, run
  // ---------------------------------------------------------------------------------------------

  lemma InsertDoes(q: Queue, a: Addr, t: Timer)
    requires Owned(q) && Waits(q, a, t) && q.mode == Quiet
    ensures var i := Step(q, AddInLoop(a));
            && Queued(i, a, t) && i.mode == Quiet && i.fired == q.fired && i.clock == q.clock
  {
  }

  lemma TickDoes(q: Queue, a: Addr, t: Timer)
    requires Owned(q) && Queued(q, a, t) && q.mode == Quiet
    ensures var r := Step(q, Tick(Max(q.clock, t.expiration)));
            Queued(r, a, t) && r.mode == Quiet && r.fired == q.fired && t.expiration <= r.clock
  {
  }

  lemma InsertIt(start: seq<Action>, q: Queue, a: Addr, t: Timer) returns (r: Queue)
    requires Ext(start, q) && Waits(q, a, t) && q.mode == Quiet
    ensures Ext(start, r) && Queued(r, a, t) && r.mode == Quiet && r.fired == q.fired && t.expiration <= r.clock
  {
    ExtOwned(start, q);
    StepExt(start, q, AddInLoop(a));
    InsertDoes(q, a, t);
    r := TickIt(start, Step(q, AddInLoop(a)), a, t);
  }

  lemma TickIt(start: seq<Action>, q: Queue, a: Addr, t: Timer) returns (r: Queue)
    requires Ext(start, q) && Queued(q, a, t) && q.mode == Quiet
    ensures Ext(start, r) && Queued(r, a, t) && r.mode == Quiet && r.fired == q.fired && t.expiration <= r.clock
  {
    ExtOwned(start, q);
    StepExt(start, q, Tick(Max(q.clock, t.expiration)));
    TickDoes(q, a, t);
    r := Step(q, Tick(Max(q.clock, t.expiration)));
  }

  lemma TakeIt(start: seq<Action>, q: Queue, a: Addr, t: Timer) returns (r: Queue, i: nat)
    requires Ext(start, q) && Queued(q, a, t) && q.mode == Quiet && t.expiration <= q.clock
    ensures Ext(start, r) && r.mode == Calling && r.put == r.next == 0 && r.fired == q.fired
    ensures InRound(r, a, t, i)
  {
    ExtInv(start, q);
    var b := ListingExists(Expired(q));
    StepExt(start, q, Expire(b));
    r := Step(q, Expire(b));
    assert Entry(t.expiration, a) in Expired(q) && Entry(t.expiration, a) in b;
    i :| 0 <= i < |b| && b[i] == Entry(t.expiration, a);
  }

  /** The round is at its callbacks and timer `t` is the `i`-th of them. */
  predicate InRound(q: Queue, a: Addr, t: Timer, i: nat) {
    && q.mode == Calling && q.put == 0 && q.next <= |q.batch| && i < |q.batch|
    && q.batch[i].addr == a && a in q.heap && q.heap[a] == t
  }

  lemma CallDoes(q: Queue, a: Addr, t: Timer, i: nat)
    requires Owned(q) && InRound(q, a, t, i) && q.next < |q.batch|
    ensures var r := Step(q, RunCallback);
            && InRound(r, a, t, i) && r.next == q.next + 1 && |r.fired| == |q.fired| + 1
            && (q.next == i ==> r.fired[|q.fired|].seqno == t.seqno)
  {
  }

  lemma CallIt(start: seq<Action>, q: Queue, a: Addr, t: Timer, i: nat) returns (r: Queue)
    requires Ext(start, q) && InRound(q, a, t, i) && q.next < |q.batch|
    ensures Ext(start, r) && InRound(r, a, t, i) && r.next == q.next + 1 && |r.fired| == |q.fired| + 1
    ensures q.next == i ==> r.fired[|q.fired|].seqno == t.seqno
  {
    ExtOwned(start, q);
    StepExt(start, q, RunCallback);
    CallDoes(q, a, t, i);
    r := Step(q, RunCallback);
  }

  lemma {:induction false} RunIt(start: seq<Action>, q: Queue, a: Addr, t: Timer, i: nat) returns (r: Queue)
    requires Ext(start, q) && InRound(q, a, t, i) && q.next <= i
    ensures Ext(start, r) && FiredAfter(r, |q.fired|, t.seqno)
    decreases i - q.next
  {
    r := CallIt(start, q, a, t, i);
    if q.next < i {
      r := RunIt(start, r, a, t, i);
    }
  }

  /** The last firing is number `n`'s, and it is beyond the first `from`. */
  predicate FiredAfter(q: Queue, from: nat, n: nat) { from < |q.fired| && q.fired[|q.fired| - 1].seqno == n }

  /** Some continuation of the run fires timer number `n` once more. */
  ghost predicate StillFires(actions: seq<Action>, n: nat) {
    exists q :: Ext(actions, q) && FiredAfter(q, |Run(actions).fired|, n)
  }

  /** From quiet, insertion, the passing of time and one round run the timer. */
  lemma RoundRuns(start: seq<Action>, q: Queue, a: Addr, t: Timer)
    requires Ext(start, q) && Waits(q, a, t) && q.mode == Quiet && |q.fired| >= |Run(start).fired|
    ensures StillFires(start, t.seqno)
  {
    var d := InsertIt(start, q, a, t);
    var c, i := TakeIt(start, d, a, t);
    var r := RunIt(start, c, a, t, i);
  }

  lemma WaitingFires(start: seq<Action>, a: Addr, t: Timer)
    requires Waits(Run(start), a, t) && Run(start).mode != Resetting
    ensures StillFires(start, t.seqno)
  {
    StartExt(start);
    if Run(start).mode == Calling {
      NextInBatch(start);
      var q := FinishCalls(start, Run(start), a, t);
      RoundRuns(start, q, a, t);
    } else {
      RoundRuns(start, Run(start), a, t);
    }
  }

  lemma StepNext(q: Queue, a: Action)
    requires q.next <= |q.batch|
    ensures Step(q, a).next <= |Step(q, a).batch|
  {
  }

  lemma {:induction false} NextInBatch(actions: seq<Action>)
    ensures Run(actions).next <= |Run(actions).batch|
  {
    if actions != [] {
      NextInBatch(actions[..|actions| - 1]);
      StepNext(Run(actions[..|actions| - 1]), actions[|actions| - 1]);
    }
  }

  /**
   A live timer's cancellation reaches it exactly unless its insertion is still to come; and if it is, the
   cancellation is lost: some continuation fires the timer after all.
   */
  lemma {:induction false} CancelBeforeInsertionIsLost(actions: seq<Action>, a: Addr)
    requires a in Run(actions).heap && Run(actions).mode != Resetting
    ensures var q := Run(actions); var id := Id(a, q.heap[a].seqno);
            && (Reaches(q, id) <==> a !in q.waiting)
            && (a in q.waiting ==> StillFires(actions + [CancelInLoop(id)], id.seqno))
  {
    RunInv(actions);
    var q := Run(actions);
    var t := q.heap[a];
    var id := Id(a, t.seqno);
    if a in q.waiting {
      CancelWaits(q, a, t);
      RunSnoc(actions, CancelInLoop(id));
      WaitingFires(actions + [CancelInLoop(id)], a, t);
    } else {
      assert Indexed(q, a) || InBatch(q, a);
    }
  }

  /** There are such timers: one that has just been allocated. */
  lemma {:induction false} JustAllocated(actions: seq<Action>, a: Addr, when: int, interval: nat, repeat: bool)
    requires a !in Run(actions).heap
    ensures a in Run(actions + [Allocate(a, when, interval, repeat)]).waiting
  {
    RunInv(actions);
    RunSnoc(actions, Allocate(a, when, interval, repeat));
  }

  // ---------------------------------------------------------------------------------------------
  // Cancellations that reach their timer
  // ---------------------------------------------------------------------------------------------

  /** The timer at `a` is in the round being run, and its turn is still to come. */
  predicate TurnToCome(q: Queue, a: Addr) {
    q.mode == Calling && exists i :: q.next <= i < |q.batch| && q.batch[i].addr == a
  }

  /** Number `n` is freed, or cancelled and in a batch that has run it already. */
  ghost predicate Mute(q: Queue, n: nat) {
    && n in q.home
    && (n !in q.freed ==>
          && n in q.cancelled && q.home[n] in q.heap && q.heap[q.home[n]].seqno == n
          && InBatch(q, q.home[n]) && !TurnToCome(q, q.home[n]))
  }

  lemma IndexMute(q: Queue, a: Action, n: nat)
    requires Inv(q) && Mute(q, n) && (a.Allocate? || a.AddInLoop? || a.CancelInLoop? || a.Tick?)
    ensures Mute(Step(q, a), n) && Step(q, a).fired == q.fired
  {
  }

  lemma CallMute(q: Queue, n: nat)
    requires Inv(q) && Mute(q, n) && Enabled(q, RunCallback)
    ensures Mute(Step(q, RunCallback), n)
    ensures var f := Step(q, RunCallback).fired;
            |f| == |q.fired| + 1 && f[..|q.fired|] == q.fired && f[|q.fired|].seqno != n
  {
    var e := q.batch[q.next];
    assert e.addr in q.heap && q.home[q.heap[e.addr].seqno] == e.addr;
  }

  lemma PutBackMute(q: Queue, n: nat)
    requires Inv(q) && Mute(q, n) && Enabled(q, ResetOne)
    ensures Mute(Step(q, ResetOne), n) && Step(q, ResetOne).fired == q.fired
  {
    var a, r := q.batch[q.put].addr, PutBack(q);
    OthersStay(q, r, a);
    if n !in q.freed && q.home[n] == a {
      assert Id(a, n) in q.canceling;
    }
  }

  lemma RoundMute(q: Queue, a: Action, n: nat)
    requires Inv(q) && Mute(q, n) && (a.Expire? || a.StartReset? || a.EndReset?)
    ensures Mute(Step(q, a), n) && Step(q, a).fired == q.fired
  {
  }

  /** Nothing beyond the first `from` firings is number `n`'s. */
  predicate QuietSince(q: Queue, from: nat, n: nat) {
    from <= |q.fired| && forall k :: from <= k < |q.fired| ==> q.fired[k].seqno != n
  }

  lemma StepMute(q: Queue, a: Action, from: nat, n: nat)
    requires Inv(q) && Mute(q, n) && QuietSince(q, from, n)
    ensures Mute(Step(q, a), n) && QuietSince(Step(q, a), from, n)
  {
    if Enabled(q, a) {
      match a {
        case RunCallback => CallMute(q, n);
        case ResetOne => PutBackMute(q, n);
        case Expire(_) => RoundMute(q, a, n);
        case StartReset => RoundMute(q, a, n);
        case EndReset => RoundMute(q, a, n);
        case _ => IndexMute(q, a, n);
      }
    }
  }

  lemma {:induction false} StaysMute(start: seq<Action>, more: seq<Action>, n: nat)
    requires Mute(Run(start), n)
    ensures Mute(Run(start + more), n) && QuietSince(Run(start + more), |Run(start).fired|, n)
    decreases more
  {
    if more == [] {
      assert start + more == start;
    } else {
      var fewer, a := more[..|more| - 1], more[|more| - 1];
      StaysMute(start, fewer, n);
      assert start + more == start + fewer + [a];
      RunSnoc(start + fewer, a);
      RunInv(start + fewer);
      StepMute(Run(start + fewer), a, |Run(start).fired|, n);
    }
  }

  /** A reached cancellation frees the timer, or leaves it in the round being run. */
  lemma CancelDoes(q: Queue, id: Id)
    requires Inv(q) && Reaches(q, id) && q.mode != Resetting
    ensures var r := Step(q, CancelInLoop(id));
            && r.mode == q.mode && r.next == q.next && r.put == q.put && r.batch == q.batch && r.fired == q.fired
            && (TurnToCome(q, id.addr) ==> id.addr in r.heap && r.heap[id.addr].seqno == id.seqno)
            && (!TurnToCome(q, id.addr) ==> Mute(r, id.seqno))
  {
    if id in q.active {
      assert Indexed(q, id.addr) && !InBatch(q, id.addr);
      assert q.mode == Calling ==> q.put == 0;
    }
  }

  /**
   After a cancellation that reaches its timer, the timer fires again in some continuation exactly when it is in
   the round being run and its turn is still to come.
   */
  lemma {:induction false} CancelledFiresAgain(actions: seq<Action>, id: Id)
    requires Reaches(Run(actions), id) && Run(actions).mode != Resetting
    ensures StillFires(actions + [CancelInLoop(id)], id.seqno) <==> TurnToCome(Run(actions), id.addr)
  {
    RunInv(actions);
    var q, start := Run(actions), actions + [CancelInLoop(id)];
    RunSnoc(actions, CancelInLoop(id));
    CancelDoes(q, id);
    var r := Run(start);
    if TurnToCome(q, id.addr) {
      var i :| q.next <= i < |q.batch| && q.batch[i].addr == id.addr;
      StartExt(start);
      var u := RunIt(start, r, id.addr, r.heap[id.addr], i);
    } else {
      forall u | Ext(start, u) ensures !FiredAfter(u, |r.fired|, id.seqno) {
        var more :| Run(start + more) == u;
        StaysMute(start, more, id.seqno);
      }
    }
  }

  const INSERTED := [Allocate(0, 1, 0, false), Allocate(1, 1, 0, false), AddInLoop(0), AddInLoop(1)]

  const BATCH := [Entry(1, 0), Entry(1, 1)]

  const BOTH := map[0 := Timer(1, 0, false, 1), 1 := Timer(1, 0, false, 2)]

  lemma Allocated()
    ensures var q := Run(INSERTED[..2]);
            q.heap == BOTH && q.waiting == {0, 1} && q.mode == Quiet && q.clock == 1 && q.timers == {} && q.fired == []
  {
    var one, two := INSERTED[..1], INSERTED[..2];
    assert one == [] + [INSERTED[0]] && two == one + [INSERTED[1]];
    RunInv([]);
    RunSnoc([], INSERTED[0]);
    NewDoes(START, 0);
    RunInv(one);
    RunSnoc(one, INSERTED[1]);
    NewDoes(Run(one), 1);
  }

  lemma NewDoes(q: Queue, a: Addr)
    requires Owned(q) && a !in q.heap
    ensures var r := Step(q, Allocate(a, 1, 0, false));
            && r.heap == q.heap[a := Timer(1, 0, false, q.created + 1)] && r.created == q.created + 1
            && r.waiting == q.waiting + {a} && r.timers == q.timers && r.mode == q.mode
            && r.clock == q.clock && r.fired == q.fired
  {
  }

  lemma AddDoes(q: Queue, a: Addr)
    requires Owned(q) && q.heap == BOTH && a in q.waiting && q.mode == Quiet
    ensures var r := Step(q, AddInLoop(a));
            && r.heap == BOTH && r.waiting == q.waiting - {a} && r.timers == q.timers + {Entry(1, a)}
            && r.mode == Quiet && r.clock == q.clock && r.fired == q.fired
  {
  }

  lemma Inserted()
    ensures var q := Run(INSERTED);
            && q.heap == BOTH && q.timers == {Entry(1, 0), Entry(1, 1)}
            && q.mode == Quiet && q.clock == 1 && q.fired == []
  {
    Allocated();
    var two, three := INSERTED[..2], INSERTED[..3];
    assert three == two + [INSERTED[2]] && INSERTED == three + [INSERTED[3]];
    RunSnoc(two, INSERTED[2]);
    RunSnoc(three, INSERTED[3]);
    RunInv(two);
    AddDoes(Run(two), 0);
    RunInv(three);
    AddDoes(Run(three), 1);
  }

  lemma ExpireDoes(q: Queue)
    requires Owned(q) && q.heap == BOTH && q.timers == {Entry(1, 0), Entry(1, 1)} && q.mode == Quiet && q.clock == 1
    ensures var r := Step(q, Expire(BATCH));
            r.heap == BOTH && r.mode == Calling && r.batch == BATCH && r.next == r.put == 0 && r.fired == q.fired
  {
    assert Expired(q) == q.timers;
    assert Lists(BATCH, Expired(q));
  }

  lemma FirstDoes(q: Queue)
    requires Owned(q) && q.heap == BOTH && q.mode == Calling && q.batch == BATCH && q.next == q.put == 0
    requires q.fired == []
    ensures var r := Step(q, RunCallback);
            && r.heap == BOTH && r.mode == Calling && r.batch == BATCH && r.next == 1 && r.put == 0
            && |r.fired| == 1 && r.fired[0].seqno == 1
  {
  }

  /** Two timers due at once: a cancellation of the second from the callback of the first does not stop it. */
  lemma {:induction false} CancelledInItsRound()
    ensures var actions := INSERTED + [Expire(BATCH)] + [RunCallback];
            && |Run(actions).fired| == 1 && Run(actions).fired[0].seqno == 1
            && Reaches(Run(actions), Id(1, 2)) && StillFires(actions + [CancelInLoop(Id(1, 2))], 2)
  {
    var taken := INSERTED + [Expire(BATCH)];
    var actions := taken + [RunCallback];
    Inserted();
    RunInv(INSERTED);
    ExpireDoes(Run(INSERTED));
    RunSnoc(INSERTED, Expire(BATCH));
    RunInv(taken);
    FirstDoes(Run(taken));
    RunSnoc(taken, RunCallback);
    SecondReached(Run(actions));
    CancelledFiresAgain(actions, Id(1, 2));
  }

  lemma SecondReached(q: Queue)
    requires q.heap == BOTH && q.mode == Calling && q.batch == BATCH && q.next == 1 && q.put == 0
    ensures Reaches(q, Id(1, 2)) && TurnToCome(q, 1)
  {
    assert q.batch[1].addr == 1;
  }
}
