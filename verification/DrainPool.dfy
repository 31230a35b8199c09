/**
 The thread pool of the base library: workers, any number of submitting threads and one winning `stop`,
 interleaved at every lock, load, push, notification and flag change. `stop` flips `running_` without
 holding the mutex.
 */
module DrainPool {

  type Task = nat

  /**
   `Holding` has the mutex and is about to evaluate the wait predicate; `Dozing` found it false and has
   not released the mutex yet; `Passing` found it true and still has the mutex.
   */
  datatype Worker = Ready | Holding | Dozing | Sleeping | Passing | Executing(task: Task) | Exited

  /** Who has the mutex. A submitter holds it before and after it has looked at `running_`. */
  datatype Holder = Nobody | ByWorker(i: nat) | Submitting(task: Task) | Admitted(task: Task)

  datatype Stop = NotCalled | Flipped | Joining(k: nat) | Returned

  /**
   `owed` counts submitters between their push and their `notify_one`. `accepted`, `refused`, `dequeued`
   and `executed` are history; `broken` records a pop from an empty queue.
   */
  datatype Pool = Pool(
    workers: seq<Worker>, holder: Holder, queue: seq<Task>, running: bool, owed: nat, stop: Stop,
    accepted: seq<Task>, refused: seq<Task>, dequeued: seq<Task>, executed: multiset<Task>, broken: bool)

  function Started(n: nat): Pool {
    Pool(seq(n, _ => Ready), Nobody, [], true, 0, NotCalled, [], [], [], multiset{}, false)
  }

  datatype Action =
    | Lock(i: nat) | Evaluate(i: nat) | Sleep(i: nat) | Wake(i: nat) | Proceed(i: nat) | Finish(i: nat)
    | SubmitLock(task: Task) | SubmitCheck | SubmitPush | NotifyOne(i: nat) | NotifyNobody
    | Flip | NotifyAll | Join | Return

  predicate At(p: Pool, i: nat, w: Worker) { i < |p.workers| && p.workers[i] == w }

  predicate Enabled(p: Pool, a: Action) {
    match a
    case Lock(i) => At(p, i, Ready) && p.holder == Nobody
    case Evaluate(i) => At(p, i, Holding)
    case Sleep(i) => At(p, i, Dozing)
    case Wake(i) => At(p, i, Sleeping)
    case Proceed(i) => At(p, i, Passing)
    case Finish(i) => i < |p.workers| && p.workers[i].Executing?
    case SubmitLock(_) => p.holder == Nobody
    case SubmitCheck => p.holder.Submitting?
    case SubmitPush => p.holder.Admitted?
    case NotifyOne(i) => p.owed > 0 && At(p, i, Sleeping)
    case NotifyNobody => p.owed > 0 && Sleeping !in p.workers
    case Flip => p.stop == NotCalled
    case NotifyAll => p.stop == Flipped && p.holder == Nobody
    case Join => p.stop.Joining? && At(p, p.stop.k, Exited)
    case Return => p.stop.Joining? && p.stop.k == |p.workers|
  }

  function Become(p: Pool, i: nat, w: Worker): Pool
    requires i < |p.workers|
  {
    p.(workers := p.workers[i := w])
  }

  function Woken(w: Worker): Worker { if w == Sleeping then Ready else w }

  function AllWoken(ws: seq<Worker>): (r: seq<Worker>)
    ensures |r| == |ws|
  {
    seq(|ws|, i requires 0 <= i < |ws| => Woken(ws[i]))
  }

  /** After the wait: leave, or take the oldest task and release the mutex. */
  function Leave(p: Pool, i: nat): Pool
    requires i < |p.workers|
  {
    if !p.running && p.queue == [] then Become(p, i, Exited).(holder := Nobody)
    else if p.queue == [] then p.(broken := true)
    else Become(p, i, Executing(p.queue[0]))
           .(holder := Nobody, queue := p.queue[1..], dequeued := p.dequeued + [p.queue[0]])
  }

  /** An action that is not enabled changes nothing. */
  function Step(p: Pool, a: Action): Pool {
    if !Enabled(p, a) then p
    else match a
      case Lock(i) => Become(p, i, Holding).(holder := ByWorker(i))
      case Evaluate(i) => Become(p, i, if !p.running || p.queue != [] then Passing else Dozing)
      case Sleep(i) => Become(p, i, Sleeping).(holder := Nobody)
      case Wake(i) => Become(p, i, Ready)
      case Proceed(i) => Leave(p, i)
      case Finish(i) => Become(p, i, Ready).(executed := p.executed + multiset{p.workers[i].task})
      case SubmitLock(t) => p.(holder := Submitting(t))
      case SubmitCheck =>
        if p.running then p.(holder := Admitted(p.holder.task))
        else p.(holder := Nobody, refused := p.refused + [p.holder.task])
      case SubmitPush =>
        p.(holder := Nobody, queue := p.queue + [p.holder.task], accepted := p.accepted + [p.holder.task],
           owed := p.owed + 1)
      case NotifyOne(i) => Become(p, i, Ready).(owed := p.owed - 1)
      case NotifyNobody => p.(owed := p.owed - 1)
      case Flip => p.(running := false, stop := Flipped)
      case NotifyAll => p.(workers := AllWoken(p.workers), stop := Joining(0))
      case Join => p.(stop := Joining(p.stop.k + 1))
      case Return => p.(stop := Returned)
  }

  function Run(n: nat, actions: seq<Action>): Pool {
    if actions == [] then Started(n) else Step(Run(n, actions[..|actions| - 1]), actions[|actions| - 1])
  }

  // ---------------------------------------------------------------------------------------------
  // The mutex
  // ---------------------------------------------------------------------------------------------

  predicate HasMutex(w: Worker) { w in {Holding, Dozing, Passing} }

  /** The mutex belongs to one worker, or to a submitter, or to nobody. */
  predicate MutexOk(p: Pool) {
    && (p.holder.ByWorker? ==> p.holder.i < |p.workers|)
    && forall i :: 0 <= i < |p.workers| ==> (HasMutex(p.workers[i]) <==> p.holder == ByWorker(i))
  }

  predicate StopOk(p: Pool) {
    && (p.running <==> p.stop == NotCalled)
    && (p.stop.Joining? ==> p.stop.k <= |p.workers| && forall i :: 0 <= i < p.stop.k ==> p.workers[i] == Exited)
    && (p.stop == Returned ==> forall i :: 0 <= i < |p.workers| ==> p.workers[i] == Exited)
  }

  /** Past the wait there is something to take, or the pool is stopping. */
  predicate PassOk(p: Pool) {
    && !p.broken
    && forall i :: 0 <= i < |p.workers| && p.workers[i] == Passing ==> !p.running || p.queue != []
  }

  /** Once a worker has left, the queue is empty for good: nobody can still be let in. */
  predicate ExitOk(p: Pool) {
    forall i :: 0 <= i < |p.workers| && p.workers[i] == Exited ==> !p.running && p.queue == [] && !p.holder.Admitted?
  }

  /** After `notify_all` nobody sleeps and nobody is about to. */
  predicate AwakeOk(p: Pool) {
    p.stop in {NotCalled, Flipped} || forall i :: 0 <= i < |p.workers| ==> p.workers[i] !in {Sleeping, Dozing}
  }

  /** A worker only goes to sleep on an empty queue. */
  predicate DozeOk(p: Pool) {
    forall i :: 0 <= i < |p.workers| && p.workers[i] == Dozing ==> p.queue == []
  }

  predicate FifoOk(p: Pool) { p.dequeued + p.queue == p.accepted }

  predicate Safe(p: Pool) {
    MutexOk(p) && StopOk(p) && PassOk(p) && ExitOk(p) && AwakeOk(p) && DozeOk(p) && FifoOk(p)
  }

  lemma WorkerSafe(p: Pool, a: Action)
    requires Safe(p) && (a.Lock? || a.Evaluate? || a.Sleep? || a.Wake? || a.Finish?)
    ensures Safe(Step(p, a))
  {
    if a.Lock? || a.Evaluate? {
      WaitSafe(p, a);
    } else {
      LooseSafe(p, a);
    }
  }

  lemma WaitSafe(p: Pool, a: Action)
    requires Safe(p) && (a.Lock? || a.Evaluate?)
    ensures Safe(Step(p, a))
  {
  }

  lemma LooseSafe(p: Pool, a: Action)
    requires Safe(p) && (a.Sleep? || a.Wake? || a.Finish?)
    ensures Safe(Step(p, a))
  {
  }

  lemma ProceedSafe(p: Pool, i: nat)
    requires Safe(p)
    ensures Safe(Step(p, Proceed(i)))
  {
    if At(p, i, Passing) && p.queue != [] {
      assert p.dequeued + p.queue == p.dequeued + [p.queue[0]] + p.queue[1..];
    }
  }

  lemma SubmitSafe(p: Pool, a: Action)
    requires Safe(p) && (a.SubmitLock? || a.SubmitCheck? || a.SubmitPush?)
    ensures Safe(Step(p, a))
  {
    if a.SubmitPush? && Enabled(p, a) {
      assert p.dequeued + (p.queue + [p.holder.task]) == p.dequeued + p.queue + [p.holder.task];
    }
  }

  lemma NotifySafe(p: Pool, a: Action)
    requires Safe(p) && (a.NotifyOne? || a.NotifyNobody?)
    ensures Safe(Step(p, a))
  {
  }

  lemma StopSafe(p: Pool, a: Action)
    requires Safe(p) && (a.Flip? || a.NotifyAll? || a.Join? || a.Return?)
    ensures Safe(Step(p, a))
  {
  }

  lemma StepSafe(p: Pool, a: Action)
    requires Safe(p)
    ensures Safe(Step(p, a))
  {
    match a {
      case Lock(_) => WorkerSafe(p, a);
      case Evaluate(_) => WorkerSafe(p, a);
      case Sleep(_) => WorkerSafe(p, a);
      case Wake(_) => WorkerSafe(p, a);
      case Finish(_) => WorkerSafe(p, a);
      case Proceed(i) => ProceedSafe(p, i);
      case SubmitLock(_) => SubmitSafe(p, a);
      case SubmitCheck => SubmitSafe(p, a);
      case SubmitPush => SubmitSafe(p, a);
      case NotifyOne(_) => NotifySafe(p, a);
      case NotifyNobody => NotifySafe(p, a);
      case Flip => StopSafe(p, a);
      case NotifyAll => StopSafe(p, a);
      case Join => StopSafe(p, a);
      case Return => StopSafe(p, a);
    }
  }

  // ---------------------------------------------------------------------------------------------
  // What is being executed, and who is awake
  // ---------------------------------------------------------------------------------------------

  /** How many of the first `n` workers are executing task `t`. */
  function InHand(ws: seq<Worker>, n: nat, t: Task): nat
    requires n <= |ws|
  {
    if n == 0 then 0 else InHand(ws, n - 1, t) + if ws[n - 1] == Executing(t) then 1 else 0
  }

  /** On its way to the queue: neither asleep, nor gone, nor busy with a task. */
  predicate Up(w: Worker) { w != Sleeping && w != Exited && !w.Executing? }

  /** How many of the first `n` workers are on their way to the queue. */
  function Awake(ws: seq<Worker>, n: nat): nat
    requires n <= |ws|
  {
    if n == 0 then 0 else Awake(ws, n - 1) + if Up(ws[n - 1]) then 1 else 0
  }

  lemma {:induction false} InHandUpdate(ws: seq<Worker>, i: nat, w: Worker, n: nat, t: Task)
    requires i < |ws| && n <= |ws|
    ensures n <= i ==> InHand(ws[i := w], n, t) == InHand(ws, n, t)
    ensures i < n ==>
              InHand(ws[i := w], n, t) + (if ws[i] == Executing(t) then 1 else 0)
              == InHand(ws, n, t) + if w == Executing(t) then 1 else 0
  {
    if n > 0 {
      InHandUpdate(ws, i, w, n - 1, t);
    }
  }

  lemma {:induction false} AwakeUpdate(ws: seq<Worker>, i: nat, w: Worker, n: nat)
    requires i < |ws| && n <= |ws|
    ensures n <= i ==> Awake(ws[i := w], n) == Awake(ws, n)
    ensures i < n ==> Awake(ws[i := w], n) == Awake(ws, n) + (if Up(w) then 1 else 0) - if Up(ws[i]) then 1 else 0
  {
    if n > 0 {
      AwakeUpdate(ws, i, w, n - 1);
    }
  }

  lemma {:induction false} InHandNone(ws: seq<Worker>, n: nat, t: Task)
    requires n <= |ws| && forall i :: 0 <= i < n ==> ws[i] != Executing(t)
    ensures InHand(ws, n, t) == 0
  {
    if n > 0 {
      InHandNone(ws, n - 1, t);
    }
  }

  lemma {:induction false} InHandWoken(ws: seq<Worker>, n: nat, t: Task)
    requires n <= |ws|
    ensures InHand(AllWoken(ws), n, t) == InHand(ws, n, t)
  {
    if n > 0 {
      InHandWoken(ws, n - 1, t);
    }
  }

  lemma {:induction false} NoneAwake(ws: seq<Worker>, n: nat)
    requires n <= |ws| && forall i :: 0 <= i < n ==> !Up(ws[i])
    ensures Awake(ws, n) == 0
  {
    if n > 0 {
      NoneAwake(ws, n - 1);
    }
  }

  /** What was dequeued has been executed, or a worker has it in hand. */
  predicate HandsOk(p: Pool, t: Task) {
    multiset(p.dequeued)[t] == p.executed[t] + InHand(p.workers, |p.workers|, t)
  }

  /** While anyone sleeps, there are no more tasks than workers on their way and notifications to come. */
  predicate ServedOk(p: Pool) { Sleeping in p.workers ==> |p.queue| <= p.owed + Awake(p.workers, |p.workers|) }

  predicate MovesWorker(a: Action) {
    a.Lock? || a.Evaluate? || a.Sleep? || a.Wake? || a.Finish? || a.NotifyOne? || a.Proceed?
  }

  lemma StepHands(p: Pool, a: Action, t: Task)
    requires Safe(p) && HandsOk(p, t)
    ensures HandsOk(Step(p, a), t)
  {
    var q := Step(p, a);
    if Enabled(p, a) {
      if a.NotifyAll? {
        InHandWoken(p.workers, |p.workers|, t);
      } else if MovesWorker(a) {
        InHandUpdate(p.workers, a.i, q.workers[a.i], |p.workers|, t);
        assert q.workers == p.workers[a.i := q.workers[a.i]];
      }
    }
  }

  lemma StepServed(p: Pool, a: Action)
    requires Safe(p) && ServedOk(p)
    ensures ServedOk(Step(p, a))
  {
    var q := Step(p, a);
    if Enabled(p, a) {
      if a.NotifyAll? {
        assert Sleeping !in q.workers;
      } else if MovesWorker(a) {
        AwakeUpdate(p.workers, a.i, q.workers[a.i], |p.workers|);
        assert p.workers[a.i := p.workers[a.i]] == p.workers;
        assert !a.Sleep? && Sleeping in q.workers ==> Sleeping in p.workers;
      }
    }
  }

  ghost predicate Inv(p: Pool) { Safe(p) && ServedOk(p) && forall t :: HandsOk(p, t) }

  lemma StartInv(n: nat)
    ensures Inv(Started(n))
  {
    forall t ensures HandsOk(Started(n), t) {
      InHandNone(Started(n).workers, n, t);
    }
  }

  lemma StepInv(p: Pool, a: Action)
    requires Inv(p)
    ensures Inv(Step(p, a)) && |Step(p, a).workers| == |p.workers|
  {
    StepSafe(p, a);
    StepServed(p, a);
    forall t ensures HandsOk(Step(p, a), t) {
      StepHands(p, a, t);
    }
  }

  lemma {:induction false} RunInv(n: nat, actions: seq<Action>)
    ensures |Run(n, actions).workers| == n && Inv(Run(n, actions))
  {
    if actions == [] {
      StartInv(n);
    } else {
      RunInv(n, actions[..|actions| - 1]);
      StepInv(Run(n, actions[..|actions| - 1]), actions[|actions| - 1]);
    }
  }

  // ---------------------------------------------------------------------------------------------
  // What holds in every run
  // ---------------------------------------------------------------------------------------------

  /** Tasks leave the queue in the order they were accepted, and each as often as it was accepted at most. */
  lemma {:induction false} FirstInFirstOut(n: nat, actions: seq<Action>)
    ensures var p := Run(n, actions);
            p.dequeued + p.queue == p.accepted && !p.broken && p.executed <= multiset(p.accepted)
  {
    RunInv(n, actions);
    var p := Run(n, actions);
    assert multiset(p.accepted) == multiset(p.dequeued) + multiset(p.queue);
    forall t ensures p.executed[t] <= multiset(p.accepted)[t] {
      assert HandsOk(p, t);
    }
  }

  /** With a worker or more, the winning `stop` returns only after every accepted task was executed exactly once. */
  lemma {:induction false} StopDrains(n: nat, actions: seq<Action>)
    requires n > 0 && Run(n, actions).stop == Returned
    ensures var p := Run(n, actions); p.dequeued == p.accepted && p.executed == multiset(p.accepted)
  {
    RunInv(n, actions);
    var p := Run(n, actions);
    assert p.workers[0] == Exited;
    forall t ensures p.executed[t] == multiset(p.accepted)[t] {
      assert HandsOk(p, t);
      InHandNone(p.workers, n, t);
    }
  }

  /** Without a worker it drains exactly when nothing was ever accepted. */
  lemma {:induction false} StopWithoutWorkers(actions: seq<Action>)
    ensures var p := Run(0, actions);
            p.executed == multiset{} && (p.executed == multiset(p.accepted) <==> p.accepted == [])
  {
    RunInv(0, actions);
    var p := Run(0, actions);
    NothingDone(actions);
    if p.accepted != [] {
      assert p.accepted[0] in multiset(p.accepted);
    }
  }

  lemma {:induction false} NothingDone(actions: seq<Action>)
    ensures Run(0, actions).executed == multiset{}
  {
    if actions != [] {
      NothingDone(actions[..|actions| - 1]);
      RunInv(0, actions[..|actions| - 1]);
    }
  }

  lemma RunSnoc(n: nat, actions: seq<Action>, a: Action)
    ensures Run(n, actions + [a]) == Step(Run(n, actions), a)
  {
    assert (actions + [a])[..|actions|] == actions;
  }

  ghost predicate Reached(n: nat, p: Pool) { exists actions :: Run(n, actions) == p }

  lemma StepReached(n: nat, p: Pool, a: Action)
    requires Reached(n, p)
    ensures Reached(n, Step(p, a))
  {
    var actions :| Run(n, actions) == p;
    RunSnoc(n, actions, a);
  }

  /** A pool without workers that has accepted one task. */
  function Holding1(task: Task): Pool { Started(0).(queue := [task], accepted := [task], owed := 1) }

  lemma Accepts(task: Task)
    ensures Reached(0, Holding1(task))
  {
    assert Run(0, []) == Started(0);
    StepReached(0, Started(0), SubmitLock(task));
    var p := Step(Started(0), SubmitLock(task));
    StepReached(0, p, SubmitCheck);
    StepReached(0, Step(p, SubmitCheck), SubmitPush);
    assert Step(Step(p, SubmitCheck), SubmitPush) == Holding1(task);
  }

  lemma StopsAtOnce(task: Task)
    ensures Reached(0, Holding1(task).(running := false, stop := Returned))
  {
    Accepts(task);
    var p := Holding1(task);
    StepReached(0, p, Flip);
    StepReached(0, Step(p, Flip), NotifyAll);
    var q := Step(Step(p, Flip), NotifyAll);
    assert q == p.(running := false, stop := Joining(0));
    StepReached(0, q, Return);
  }

  /** And such a run exists: a pool started with no workers loses what it accepts. */
  lemma {:induction false} NoWorkersNoDrain(task: Task)
    ensures exists actions :: var p := Run(0, actions);
              p.stop == Returned && p.accepted == [task] && p.executed == multiset{}
  {
    StopsAtOnce(task);
  }

  /** Once `stop` has notified, no worker is asleep or will ever sleep again. */
  lemma {:induction false} NobodySleepsAfterStop(n: nat, actions: seq<Action>)
    ensures var p := Run(n, actions);
            p.stop.Joining? || p.stop == Returned ==> Sleeping !in p.workers && Dozing !in p.workers
  {
    RunInv(n, actions);
  }

  /** A step other than a new submission or a spurious wakeup. */
  predicate Progress(a: Action) { !a.SubmitLock? && !a.Wake? && !a.NotifyOne? && !a.NotifyNobody? && !a.Flip? }

  /** Nor does `stop` get stuck: until it returns, some thread inside the pool can move. */
  lemma {:induction false} StopNeverStuck(n: nat, actions: seq<Action>)
    requires Run(n, actions).stop == Flipped || Run(n, actions).stop.Joining?
    ensures exists a :: Progress(a) && Enabled(Run(n, actions), a)
  {
    RunInv(n, actions);
    var p := Run(n, actions);
    var a :=
      match p.holder
      case Submitting(_) => SubmitCheck
      case Admitted(_) => SubmitPush
      case ByWorker(i) => Turn(p, i)
      case Nobody =>
        if p.stop == Flipped then NotifyAll
        else if p.stop.k == n then Return
        else if p.workers[p.stop.k] == Exited then Join
        else Turn(p, p.stop.k);
    assert Progress(a) && Enabled(p, a);
  }

  /** What worker `i` does next. */
  function Turn(p: Pool, i: nat): Action
    requires i < |p.workers|
  {
    match p.workers[i]
    case Ready => Lock(i)
    case Holding => Evaluate(i)
    case Dozing => Sleep(i)
    case Sleeping => Wake(i)
    case Passing => Proceed(i)
    case Executing(_) => Finish(i)
    case Exited => Join
  }

  /** A sleeper is never needed: tasks queued are no more than idle workers on their way and notifications to come. */
  lemma {:induction false} NoLostNotification(n: nat, actions: seq<Action>)
    ensures var p := Run(n, actions);
            && |p.workers| == n
            && (Sleeping in p.workers ==> |p.queue| <= p.owed + Awake(p.workers, n))
            && (Sleeping in p.workers && p.owed == 0 && (forall i :: 0 <= i < n ==> !Up(p.workers[i])) ==>
                  p.queue == [])
  {
    RunInv(n, actions);
    var p := Run(n, actions);
    if forall i :: 0 <= i < n ==> !Up(p.workers[i]) {
      NoneAwake(p.workers, n);
    }
  }

  /**
   A task is refused only once `stop` has been called. Once a worker has left nothing more can be accepted: the
   queue is empty for good, and no submitter is past the check.
   */
  lemma {:induction false} RefusedOnlyAfterStop(n: nat, actions: seq<Action>)
    ensures var p := Run(n, actions);
            && (p.refused != [] ==> p.stop != NotCalled)
            && (Exited in p.workers ==> p.queue == [] && !p.holder.Admitted? && !p.running)
  {
    Refusals(n, actions);
    LeftOk(n, actions);
  }

  lemma {:induction false} LeftOk(n: nat, actions: seq<Action>)
    ensures var p := Run(n, actions); Exited in p.workers ==> p.queue == [] && !p.holder.Admitted? && !p.running
  {
    if actions != [] {
      var p, a := Run(n, actions[..|actions| - 1]), actions[|actions| - 1];
      LeftOk(n, actions[..|actions| - 1]);
      RunInv(n, actions[..|actions| - 1]);
      StepLeft(p, a);
    }
  }

  lemma StepLeft(p: Pool, a: Action)
    requires MutexOk(p) && (Exited in p.workers ==> p.queue == [] && !p.holder.Admitted? && !p.running)
    ensures var r := Step(p, a); Exited in r.workers ==> r.queue == [] && !r.holder.Admitted? && !r.running
  {
  }

  lemma {:induction false} Refusals(n: nat, actions: seq<Action>)
    ensures Run(n, actions).refused != [] ==> !Run(n, actions).running
    ensures Run(n, actions).running <==> Run(n, actions).stop == NotCalled
  {
    RunInv(n, actions);
    if actions != [] {
      Refusals(n, actions[..|actions| - 1]);
    }
  }
}
