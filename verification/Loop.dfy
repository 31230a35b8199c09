/**
 The event loop: one thread runs `loop()`, others queue functors and ask it to quit. A thread that queues
 takes two steps, the push under the mutex and the write to the eventfd, and other threads may act in
 between. `poll` may return for any reason; the eventfd is only read by its handler after that.
 */
module Loop {

  /** From where a functor was queued: another thread, or the loop's own at some point of its work. */
  datatype Origin = Foreign | InFunctor | InHandler | OutsideLoop

  datatype Functor = Functor(id: nat, origin: Origin)

  /** Where the loop's thread is. */
  datatype Place = Outside | AtCheck | Polling | Handling | Swapping | Calling

  /**
   `counter` is the eventfd's value, `owed` how many other threads are between their push (or setting of
   `quit`) and the write; `selfOwed` says that of the loop's own thread. `woken` is set while the eventfd
   is among the active channels not handled yet. `queued`, `executed`, `entries` and `early` are history.
   */
  datatype State = State(
    place: Place, quit: bool, started: bool, counter: nat, owed: nat, selfOwed: bool, woken: bool,
    pending: seq<Functor>, batch: seq<Functor>,
    queued: seq<Functor>, executed: seq<Functor>, entries: nat, early: bool)

  const INIT := State(Outside, false, false, 0, 0, false, false, [], [], [], [], 0, false)

  datatype Action =
    | Enter | Check | PollReturns(woken: bool) | ReadEventfd | EventsDone | Swap | Call | FunctorsDone
    | QueueHere(id: nat) | WriteHere | QuitHere
    | QueueThere(id: nat) | QuitThere | WriteThere

  predicate InUserCode(s: State) { s.place in {Outside, Handling, Calling} }

  predicate Enabled(s: State, a: Action) {
    match a
    case QueueThere(_) => true
    case QuitThere => true
    case WriteThere => s.owed > 0
    case WriteHere => s.selfOwed
    case Enter => !s.selfOwed && s.place == Outside
    case Check => !s.selfOwed && s.place == AtCheck
    case PollReturns(woken) => !s.selfOwed && s.place == Polling && (woken ==> s.counter > 0)
    case ReadEventfd => !s.selfOwed && s.place == Handling && s.woken
    case EventsDone => !s.selfOwed && s.place == Handling && !s.woken
    case Swap => !s.selfOwed && s.place == Swapping
    case Call => !s.selfOwed && s.place == Calling && s.batch != []
    case FunctorsDone => !s.selfOwed && s.place == Calling && s.batch == []
    case QueueHere(_) => !s.selfOwed && InUserCode(s)
    case QuitHere => !s.selfOwed && InUserCode(s)
  }

  function Push(s: State, id: nat, origin: Origin): State {
    s.(pending := s.pending + [Functor(id, origin)], queued := s.queued + [Functor(id, origin)])
  }

  function Quit(s: State): State { s.(quit := true, early := s.early || !s.started) }

  /** `queueInLoop` on the loop's own thread: it wakes itself up only while calling functors. */
  function QueueOwn(s: State, id: nat): State {
    match s.place
    case Calling => Push(s, id, InFunctor).(selfOwed := true)
    case Handling => Push(s, id, InHandler)
    case _ => Push(s, id, OutsideLoop)
  }

  /** An action that is not enabled changes nothing. */
  function Step(s: State, a: Action): State {
    if !Enabled(s, a) then s
    else match a
      case Enter => s.(place := AtCheck, quit := s.quit && !s.started, started := true, entries := s.entries + 1)
      case Check => s.(place := if s.quit then Outside else Polling)
      case PollReturns(woken) => s.(place := Handling, woken := woken)
      case ReadEventfd => s.(counter := 0, woken := false)
      case EventsDone => s.(place := Swapping)
      case Swap => s.(place := Calling, batch := s.pending, pending := [])
      case Call => s.(batch := s.batch[1..], executed := s.executed + [s.batch[0]])
      case FunctorsDone => s.(place := AtCheck)
      case QueueHere(id) => QueueOwn(s, id)
      case WriteHere => s.(selfOwed := false, counter := s.counter + 1)
      case QuitHere => Quit(s)
      case QueueThere(id) => Push(s, id, Foreign).(owed := s.owed + 1)
      case QuitThere => Quit(s).(owed := s.owed + 1)
      case WriteThere => s.(owed := s.owed - 1, counter := s.counter + 1)
  }

  function RunFrom(s: State, actions: seq<Action>): State {
    if actions == [] then s else Step(RunFrom(s, actions[..|actions| - 1]), actions[|actions| - 1])
  }

  function Run(actions: seq<Action>): State { RunFrom(INIT, actions) }

  lemma RunSnoc(s: State, actions: seq<Action>, a: Action)
    ensures RunFrom(s, actions + [a]) == Step(RunFrom(s, actions), a)
  {
    assert (actions + [a])[..|actions|] == actions;
  }

  // ---------------------------------------------------------------------------------------------
  // What every step keeps
  // ---------------------------------------------------------------------------------------------

  /** Somebody has made the eventfd readable, or is about to. */
  predicate Waking(s: State) { s.counter > 0 || s.owed > 0 || s.selfOwed }

  predicate Announced(f: Functor) { f.origin in {Foreign, InFunctor} }

  /** Unless a swap is still to come, a functor that came with a wakeup has one outstanding. */
  ghost predicate WakeOk(s: State) {
    && (s.place !in {Handling, Swapping} ==> forall f :: f in s.pending && Announced(f) ==> Waking(s))
    && (s.place == Polling && s.quit ==> Waking(s))
    && (s.selfOwed ==> s.place == Calling)
    && (s.woken ==> s.place == Handling)
  }

  /** Functors queued by handlers are gone by the next check, those queued outside after one round. */
  ghost predicate TakenOk(s: State) {
    && (forall f :: f in s.pending && f.origin == InHandler ==> s.place in {Handling, Swapping})
    && (forall f :: f in s.pending && f.origin == OutsideLoop ==> s.place != Calling)
  }

  /** A quit from before the first `loop()` is still in force until that call has returned. */
  predicate EarlyOk(s: State) {
    && (s.started <==> s.entries > 0)
    && (s.early && s.entries == 0 ==> s.quit)
    && (s.early && s.entries == 1 ==> s.place in {Outside, AtCheck} && (s.place == AtCheck ==> s.quit))
    && (s.entries == 0 ==> s.place == Outside)
  }

  predicate OrderOk(s: State) {
    && s.executed + s.batch + s.pending == s.queued
    && (s.batch != [] ==> s.place == Calling)
  }

  lemma StepWake(s: State, a: Action)
    requires WakeOk(s)
    ensures WakeOk(Step(s, a))
  {
  }

  lemma StepTaken(s: State, a: Action)
    requires TakenOk(s)
    ensures TakenOk(Step(s, a))
  {
  }

  lemma StepEarly(s: State, a: Action)
    requires EarlyOk(s)
    ensures EarlyOk(Step(s, a))
  {
  }

  lemma StepOrder(s: State, a: Action)
    requires OrderOk(s)
    ensures OrderOk(Step(s, a))
  {
    if Enabled(s, a) {
      match a {
        case Call => HeadMoves(s.executed, s.batch, s.pending);
        case Swap => assert s.executed + [] + s.pending == s.executed + s.pending + [];
        case QueueHere(id) => TailGrows(s.executed + s.batch, s.pending, Step(s, a).pending[|s.pending|]);
        case QueueThere(id) => TailGrows(s.executed + s.batch, s.pending, Functor(id, Foreign));
        case _ =>
      }
    }
  }

  lemma HeadMoves(a: seq<Functor>, b: seq<Functor>, c: seq<Functor>)
    requires b != []
    ensures a + [b[0]] + b[1..] + c == a + b + c
  {
  }

  lemma TailGrows(a: seq<Functor>, b: seq<Functor>, f: Functor)
    ensures a + (b + [f]) == a + b + [f]
  {
  }

  lemma {:induction false} RunInv(actions: seq<Action>)
    ensures WakeOk(Run(actions)) && TakenOk(Run(actions)) && EarlyOk(Run(actions)) && OrderOk(Run(actions))
  {
    if actions != [] {
      var s, a := Run(actions[..|actions| - 1]), actions[|actions| - 1];
      RunInv(actions[..|actions| - 1]);
      StepWake(s, a);
      StepTaken(s, a);
      StepEarly(s, a);
      StepOrder(s, a);
    }
  }

  // ---------------------------------------------------------------------------------------------
  // What holds in every run
  // ---------------------------------------------------------------------------------------------

  /**
   No wakeup is lost: while the loop is blocked in `poll` with a functor pending that was not queued by
   its own thread outside `loop()`, or with a quit requested, the eventfd is readable or some other
   thread is about to make it so.
   */
  lemma {:induction false} NoLostWakeup(actions: seq<Action>)
    ensures var s := Run(actions);
            s.place == Polling && (s.quit || exists f :: f in s.pending && f.origin != OutsideLoop) ==>
              s.counter > 0 || s.owed > 0
  {
    RunInv(actions);
  }

  predicate QueuesOutside(actions: seq<Action>, i: nat)
    requires i < |actions|
  {
    actions[i].QueueHere? && Run(actions[..i]).place == Outside
  }

  /** If its thread never calls `queueInLoop` outside `loop()`, whatever is pending wakes it. */
  lemma {:induction false} NoLostWakeupAtAll(actions: seq<Action>)
    requires forall i :: 0 <= i < |actions| ==> !QueuesOutside(actions, i)
    ensures var s := Run(actions); s.place == Polling && (s.quit || s.pending != []) ==> s.counter > 0 || s.owed > 0
  {
    NoLostWakeup(actions);
    NoneFromOutside(actions);
    var s := Run(actions);
    if s.pending != [] {
      assert s.pending[0] in s.pending;
    }
  }

  lemma {:induction false} NoneFromOutside(actions: seq<Action>)
    requires forall i :: 0 <= i < |actions| ==> !QueuesOutside(actions, i)
    ensures forall f :: f in Run(actions).pending ==> f.origin != OutsideLoop
  {
    if actions != [] {
      var before := actions[..|actions| - 1];
      forall i | 0 <= i < |before| ensures !QueuesOutside(before, i) {
        assert before[..i] == actions[..i] && !QueuesOutside(actions, i);
      }
      NoneFromOutside(before);
      RunInv(before);
      assert !QueuesOutside(actions, |actions| - 1);
    }
  }

  /** The `n`-th functor queued has not been taken up by a round yet. */
  predicate Untaken(s: State, n: nat) { |s.executed| + |s.batch| <= n < |s.queued| }

  /** The loop is blocked in `poll` with the `n`-th functor waiting, and nobody has woken it or is about to. */
  predicate Stranded(s: State, n: nat) { s.place == Polling && Untaken(s, n) && s.counter == 0 && s.owed == 0 }

  /** While the `n`-th functor waits, a wakeup is on its way or the round that takes it has begun. */
  predicate OnItsWay(s: State, n: nat) {
    Untaken(s, n) ==> s.counter > 0 || s.owed > 0 || s.place in {Handling, Swapping}
  }

  lemma StepOnItsWay(s: State, a: Action, n: nat)
    requires OrderOk(s) && OnItsWay(s, n) && n < |s.queued|
    ensures OnItsWay(Step(s, a), n) && n < |Step(s, a).queued|
  {
    StepOrder(s, a);
  }

  lemma {:induction false} StaysOnItsWay(actions: seq<Action>, more: seq<Action>, n: nat)
    requires OnItsWay(Run(actions), n) && n < |Run(actions).queued|
    ensures OnItsWay(Run(actions + more), n) && n < |Run(actions + more).queued|
    decreases more
  {
    if more == [] {
      assert actions + more == actions;
    } else {
      var fewer, a := more[..|more| - 1], more[|more| - 1];
      StaysOnItsWay(actions, fewer, n);
      assert actions + more == actions + fewer + [a];
      RunSnoc(INIT, actions + fewer, a);
      RunInv(actions + fewer);
      StepOnItsWay(Run(actions + fewer), a, n);
    }
  }

  /** The loop's own steps to `poll` touch neither the functors nor the eventfd. */
  predicate SameWork(s: State, t: State) {
    && t.counter == s.counter && t.owed == s.owed && t.queued == s.queued
    && t.executed == s.executed && t.batch == s.batch
  }

  lemma EnterOnce(actions: seq<Action>)
    requires Run(actions).place == Outside
    ensures var s, t := Run(actions), Run(actions + [Enter, Check]);
            && SameWork(s, t) && t.started && (t.place == Polling || t.place == Outside)
            && (s.started ==> t.place == Polling)
  {
    RunInv(actions);
    RunSnoc(INIT, actions, Enter);
    RunSnoc(INIT, actions + [Enter], Check);
    assert actions + [Enter, Check] == actions + [Enter] + [Check];
  }

  /** Entering the loop leads to `poll`, at the second call if a quit came before the first. */
  lemma Enters(actions: seq<Action>) returns (more: seq<Action>)
    requires Run(actions).place == Outside
    ensures Run(actions + more).place == Polling && SameWork(Run(actions), Run(actions + more))
  {
    EnterOnce(actions);
    more := [Enter, Check];
    if Run(actions + more).place != Polling {
      EnterOnce(actions + more);
      assert actions + more + [Enter, Check] == actions + (more + [Enter, Check]);
      more := more + [Enter, Check];
    }
  }

  /**
   Otherwise it may not: a functor queued by the loop's own thread outside `loop()` can be left waiting in `poll`,
   with nobody to wake the loop, exactly when the eventfd was idle at the call, whatever other threads do.
   */
  lemma {:induction false} QueuedOutsideWaits(actions: seq<Action>, id: nat)
    requires Run(actions).place == Outside
    ensures var s := Run(actions);
            (exists more :: Stranded(Run(actions + [QueueHere(id)] + more), |s.queued|)) <==>
              s.counter == 0 && s.owed == 0
  {
    RunInv(actions);
    var s, queued := Run(actions), actions + [QueueHere(id)];
    RunSnoc(INIT, actions, QueueHere(id));
    assert |s.executed| + |s.batch| <= |s.queued|;
    if s.counter == 0 && s.owed == 0 {
      var more := Enters(queued);
      assert Stranded(Run(queued + more), |s.queued|);
    } else {
      forall more ensures !Stranded(Run(queued + more), |s.queued|) {
        StaysOnItsWay(queued, more, |s.queued|);
      }
    }
  }

  /** A quit from before the first `loop()` makes that call return without ever polling. */
  lemma {:induction false} EarlyQuitKept(actions: seq<Action>)
    ensures var s := Run(actions);
            s.early && s.entries <= 1 ==>
              && s.place in {Outside, AtCheck}
              && (s.place == AtCheck ==> Step(s, Check).place == Outside)
  {
    RunInv(actions);
  }

  /** A call of `loop()` gets to polling exactly unless it is the first and a quit came before it. */
  lemma {:induction false} EntryPolls(actions: seq<Action>)
    requires Run(actions).place == Outside
    ensures var s := Run(actions); Run(actions + [Enter] + [Check]).place == Polling <==> !(s.entries == 0 && s.early)
  {
    RunInv(actions);
    RunSnoc(INIT, actions, Enter);
    RunSnoc(INIT, actions + [Enter], Check);
    QuitIsEarly(actions);
  }

  lemma {:induction false} QuitIsEarly(actions: seq<Action>)
    ensures var s := Run(actions); s.entries == 0 && s.quit ==> s.early
  {
    if actions != [] {
      QuitIsEarly(actions[..|actions| - 1]);
      RunInv(actions[..|actions| - 1]);
    }
  }

  /** Functors run in the order they were queued, each at most once, and none is dropped. */
  lemma {:induction false} ExactlyOnceInOrder(actions: seq<Action>)
    ensures var s := Run(actions);
            s.executed + s.batch + s.pending == s.queued && s.executed <= s.queued
  {
    RunInv(actions);
    var s := Run(actions);
    assert s.executed + s.batch + s.pending == s.executed + (s.batch + s.pending);
  }

  function Calls(n: nat): seq<Action> { seq(n, _ => Call) }

  lemma {:induction false} CallAll(s: State, n: nat)
    requires s.place == Calling && !s.selfOwed && n <= |s.batch|
    ensures RunFrom(s, Calls(n)) == s.(batch := s.batch[n..], executed := s.executed + s.batch[..n])
  {
    if n > 0 {
      CallAll(s, n - 1);
      assert Calls(n)[..n - 1] == Calls(n - 1) && Calls(n)[n - 1] == Call;
      assert s.batch[n - 1..][1..] == s.batch[n..];
      assert s.executed + s.batch[..n - 1] + [s.batch[n - 1]] == s.executed + s.batch[..n];
    }
  }

  /** And a readable eventfd is enough: one round of the loop runs everything that was pending. */
  lemma {:induction false} WokenRunsEverything(actions: seq<Action>)
    requires Run(actions).place == Polling && Run(actions).counter > 0
    ensures var s := Run(actions);
            var r := RunFrom(RunFrom(s, [PollReturns(true), ReadEventfd, EventsDone, Swap]), Calls(|s.pending|));
            r.executed == s.queued && r.pending == [] && r.counter == 0
  {
    RunInv(actions);
    var s := Run(actions);
    RoundStart(s);
    var t := RunFrom(s, [PollReturns(true), ReadEventfd, EventsDone, Swap]);
    CallAll(t, |s.pending|);
    assert s.pending[..|s.pending|] == s.pending && s.executed + [] + s.pending == s.executed + s.pending;
  }

  lemma RoundStart(s: State)
    requires s.place == Polling && s.counter > 0 && !s.selfOwed
    ensures RunFrom(s, [PollReturns(true), ReadEventfd, EventsDone, Swap])
         == s.(place := Calling, counter := 0, woken := false, batch := s.pending, pending := [])
  {
    var p, r, e := PollReturns(true), ReadEventfd, EventsDone;
    assert [p, r, e, Swap] == [] + [p] + [r] + [e] + [Swap];
    RunSnoc(s, [], p);
    RunSnoc(s, [] + [p], r);
    RunSnoc(s, [] + [p] + [r], e);
    RunSnoc(s, [] + [p] + [r] + [e], Swap);
  }

  // ---------------------------------------------------------------------------------------------
  // A quit ends the loop
  // ---------------------------------------------------------------------------------------------

  predicate Quits(a: Action) { a == QuitHere || a == QuitThere }

  predicate NoEnter(actions: seq<Action>) { forall a :: a in actions ==> a != Enter }

  /** Until `loop()` is called again a quit is not forgotten. */
  lemma {:induction false} QuitStays(actions: seq<Action>, more: seq<Action>)
    requires Run(actions).quit && NoEnter(more)
    ensures Run(actions + more).quit
    decreases more
  {
    if more == [] {
      assert actions + more == actions;
    } else {
      var fewer, a := more[..|more| - 1], more[|more| - 1];
      assert a in more && forall b :: b in fewer ==> b in more;
      QuitStays(actions, fewer);
      assert actions + more == actions + fewer + [a];
      RunSnoc(INIT, actions + fewer, a);
    }
  }

  lemma QuitIsSet(actions: seq<Action>, q: Action, more: seq<Action>)
    requires Quits(q) && Enabled(Run(actions), q) && NoEnter(more)
    ensures Run(actions + [q] + more).quit
  {
    RunSnoc(INIT, actions, q);
    QuitStays(actions + [q], more);
  }

  /**
   A quit by any thread while `loop()` runs ends that call: whatever happens in between, the next time the loop checks
   it leaves without polling again.
   */
  lemma {:induction false} QuitEndsLoop(actions: seq<Action>, q: Action, more: seq<Action>)
    requires Quits(q) && Enabled(Run(actions), q) && NoEnter(more)
    requires Run(actions + [q] + more).place == AtCheck
    ensures Run(actions + [q] + more + [Check]).place == Outside
  {
    var all := actions + [q] + more;
    QuitIsSet(actions, q, more);
    RunInv(all);
    RunSnoc(INIT, all, Check);
  }

  /** One round of the loop, from `poll` to the next check. */
  function Round(s: State): seq<Action> {
    [PollReturns(true), ReadEventfd, EventsDone, Swap] + Calls(|s.pending|) + [FunctorsDone, Check]
  }

  lemma RoundLeaves(s: State)
    requires s.place == Polling && s.counter > 0 && !s.selfOwed && s.quit
    ensures RunFrom(s, Round(s)).place == Outside
  {
    var start, calls := [PollReturns(true), ReadEventfd, EventsDone, Swap], Calls(|s.pending|);
    RoundStart(s);
    var t := RunFrom(s, start);
    CallAll(t, |s.pending|);
    RunOn(s, start, calls);
    RunSnoc(s, start + calls, FunctorsDone);
    RunSnoc(s, start + calls + [FunctorsDone], Check);
    assert Round(s) == start + calls + [FunctorsDone] + [Check];
  }

  lemma {:induction false} RunOn(s: State, actions: seq<Action>, more: seq<Action>)
    ensures RunFrom(s, actions + more) == RunFrom(RunFrom(s, actions), more)
    decreases more
  {
    if more == [] {
      assert actions + more == actions;
    } else {
      var fewer := more[..|more| - 1];
      RunOn(s, actions, fewer);
      assert (actions + more)[..|actions + more| - 1] == actions + fewer;
    }
  }

  /** Blocked in `poll` after a quit, the loop has a wakeup or one on its way, and the round it starts is the last. */
  lemma {:induction false} QuitLeavesPoll(actions: seq<Action>, q: Action, more: seq<Action>)
    requires Quits(q) && Enabled(Run(actions), q) && NoEnter(more)
    requires Run(actions + [q] + more).place == Polling
    ensures var s := Run(actions + [q] + more);
            if s.counter > 0 then RunFrom(s, Round(s)).place == Outside
            else s.owed > 0 && RunFrom(s, [WriteThere] + Round(s)).place == Outside
  {
    var all := actions + [q] + more;
    QuitIsSet(actions, q, more);
    RunInv(all);
    var s := Run(all);
    if s.counter > 0 {
      RoundLeaves(s);
    } else {
      var t := Step(s, WriteThere);
      assert RunFrom(s, [WriteThere]) == t by {
        RunSnoc(s, [], WriteThere);
        assert [] + [WriteThere] == [WriteThere];
      }
      RoundLeaves(t);
      RunOn(s, [WriteThere], Round(s));
    }
  }
}
