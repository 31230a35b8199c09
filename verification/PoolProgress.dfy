/**
 The base library's pool gets its work done: any worker that is ready takes the oldest task and runs it, every
 run can go on to execute all that was accepted, and a `stop` that was called can come to return.
 */
module PoolProgress {
  import opened DrainPool

  /** A step of a worker, of a submitter already inside or of a `stop` already called; no wakeup is spurious. */
  predicate Own(a: Action) { !a.Flip? && !a.SubmitLock? && !a.Wake? }

  predicate Inside(more: seq<Action>) { forall a :: a in more ==> Own(a) }

  /** Such a continuation of the run `start` ends in `p`. */
  ghost predicate Ext(n: nat, start: seq<Action>, p: Pool) {
    exists more :: Inside(more) && Run(n, start + more) == p
  }

  lemma StartExt(n: nat, start: seq<Action>)
    ensures Ext(n, start, Run(n, start))
  {
    assert start + [] == start && Inside([]);
  }

  lemma StepExt(n: nat, start: seq<Action>, p: Pool, a: Action)
    requires Ext(n, start, p) && Own(a)
    ensures Ext(n, start, Step(p, a))
  {
    var more :| Inside(more) && Run(n, start + more) == p;
    RunSnoc(n, start + more, a);
    assert start + more + [a] == start + (more + [a]) && Inside(more + [a]);
  }

  lemma ExtInv(n: nat, start: seq<Action>, p: Pool)
    requires Ext(n, start, p)
    ensures |p.workers| == n && Inv(p)
  {
    var more :| Inside(more) && Run(n, start + more) == p;
    RunInv(n, start + more);
  }

  // ---------------------------------------------------------------------------------------------
  // One task
  // ---------------------------------------------------------------------------------------------

  /** The worker's own four steps: lock, look, take, run. */
  function Serving(i: nat): seq<Action> { [Lock(i), Evaluate(i), Proceed(i), Finish(i)] }

  /** The oldest task has been taken and run by worker `i`, who is ready again. */
  predicate Served(p: Pool, q: Pool, i: nat) {
    && p.queue != [] && i < |p.workers|
    && q == p.(workers := p.workers[i := Ready], queue := p.queue[1..], dequeued := p.dequeued + [p.queue[0]],
               executed := p.executed + multiset{p.queue[0]})
  }

  lemma ServeDoes(p: Pool, i: nat)
    requires i < |p.workers| && p.workers[i] == Ready && p.holder == Nobody && p.queue != []
    ensures Served(p, Step(Step(Step(Step(p, Lock(i)), Evaluate(i)), Proceed(i)), Finish(i)), i)
  {
    var a := Step(p, Lock(i));
    assert a == p.(workers := p.workers[i := Holding], holder := ByWorker(i));
    var b := Step(a, Evaluate(i));
    assert b == p.(workers := p.workers[i := Passing], holder := ByWorker(i));
    var c := Step(b, Proceed(i));
    assert c == p.(workers := p.workers[i := Executing(p.queue[0])], queue := p.queue[1..],
                   dequeued := p.dequeued + [p.queue[0]]);
  }

  /**
   In every run, a worker that is ready while the mutex is free and a task is queued takes the oldest task and
   executes it by its own steps, whether the pool is running or stopping.
   */
  lemma {:induction false} TakesOldest(n: nat, actions: seq<Action>, i: nat)
    requires var p := Run(n, actions); At(p, i, Ready) && p.holder == Nobody && p.queue != []
    ensures var p, q := Run(n, actions), Run(n, actions + Serving(i));
            && q.dequeued == p.dequeued + [p.queue[0]] && q.queue == p.queue[1..]
            && q.executed == p.executed + multiset{p.queue[0]} && q.stop == p.stop
  {
    var p := Run(n, actions);
    ServeDoes(p, i);
    var a, b, c, d := Lock(i), Evaluate(i), Proceed(i), Finish(i);
    RunSnoc(n, actions, a);
    RunSnoc(n, actions + [a], b);
    RunSnoc(n, actions + [a] + [b], c);
    RunSnoc(n, actions + [a] + [b] + [c], d);
    assert actions + Serving(i) == actions + [a] + [b] + [c] + [d];
  }

  lemma Serve(n: nat, start: seq<Action>, p: Pool, i: nat) returns (q: Pool)
    requires Ext(n, start, p) && i < |p.workers| && p.workers[i] == Ready && p.holder == Nobody && p.queue != []
    ensures Ext(n, start, q) && Served(p, q, i)
  {
    StepExt(n, start, p, Lock(i));
    var a := Step(p, Lock(i));
    StepExt(n, start, a, Evaluate(i));
    var b := Step(a, Evaluate(i));
    StepExt(n, start, b, Proceed(i));
    var c := Step(b, Proceed(i));
    StepExt(n, start, c, Finish(i));
    ServeDoes(p, i);
    q := Step(c, Finish(i));
  }

  // ---------------------------------------------------------------------------------------------
  // The mutex, and the tasks in hand
  // ---------------------------------------------------------------------------------------------

  /** Nothing that was accepted is given back. */
  predicate Onward(p: Pool, q: Pool) { p.accepted <= q.accepted && q.stop == p.stop }

  /** How many steps the holder of the mutex is away from releasing it. */
  function Distance(p: Pool): nat {
    match p.holder
    case Nobody => 0
    case Submitting(_) => 2
    case Admitted(_) => 1
    case ByWorker(i) => if i < |p.workers| && p.workers[i] == Holding then 2 else 1
  }

  lemma {:induction false} FreeMutex(n: nat, start: seq<Action>, p: Pool) returns (q: Pool)
    requires Ext(n, start, p)
    ensures Ext(n, start, q) && q.holder == Nobody && Onward(p, q)
    decreases Distance(p)
  {
    ExtInv(n, start, p);
    if p.holder == Nobody {
      q := p;
    } else {
      var a := if p.holder.Submitting? then SubmitCheck
               else if p.holder.Admitted? then SubmitPush
               else Turn(p, p.holder.i);
      StepExt(n, start, p, a);
      q := FreeMutex(n, start, Step(p, a));
    }
  }

  /** None of the first `k` workers has a task in hand. */
  predicate Unladen(p: Pool, k: nat) { k <= |p.workers| && forall i :: 0 <= i < k ==> !p.workers[i].Executing? }

  lemma {:induction false} FinishAll(n: nat, start: seq<Action>, p: Pool, k: nat) returns (q: Pool)
    requires Ext(n, start, p) && p.holder == Nobody && k <= |p.workers|
    ensures Ext(n, start, q) && q.holder == Nobody && Unladen(q, k) && Onward(p, q) && q.queue == p.queue
    ensures q.accepted == p.accepted && |q.workers| == |p.workers|
    decreases k
  {
    if k == 0 {
      q := p;
    } else {
      q := FinishAll(n, start, p, k - 1);
      q := FinishOne(n, start, q, k - 1);
    }
  }

  lemma FinishOne(n: nat, start: seq<Action>, p: Pool, k: nat) returns (q: Pool)
    requires Ext(n, start, p) && p.holder == Nobody && k < |p.workers| && Unladen(p, k)
    ensures Ext(n, start, q) && q.holder == Nobody && Unladen(q, k + 1) && q.stop == p.stop && q.queue == p.queue
    ensures q.accepted == p.accepted && |q.workers| == |p.workers|
  {
    if p.workers[k].Executing? {
      StepExt(n, start, p, Finish(k));
      q := Step(p, Finish(k));
      assert q.workers == p.workers[k := Ready];
    } else {
      q := p;
    }
  }

  // ---------------------------------------------------------------------------------------------
  // Everything
  // ---------------------------------------------------------------------------------------------

  /** With the mutex free and a task queued, a worker is ready or a submitter has yet to notify one. */
  lemma Rouse(n: nat, start: seq<Action>, p: Pool) returns (q: Pool, i: nat)
    requires n > 0 && Ext(n, start, p) && p.holder == Nobody && p.queue != [] && Unladen(p, n)
    ensures Ext(n, start, q) && At(q, i, Ready) && q.holder == Nobody && Unladen(q, n)
    ensures q.queue == p.queue && q.accepted == p.accepted && q.stop == p.stop
  {
    ExtInv(n, start, p);
    if k :| 0 <= k < n && p.workers[k] == Ready {
      q, i := p, k;
    } else {
      NoneAwake(p.workers, n);
      assert p.workers[0] == Sleeping;
      StepExt(n, start, p, NotifyOne(0));
      q, i := Step(p, NotifyOne(0)), 0;
    }
  }

  lemma {:induction false} ServeAll(n: nat, start: seq<Action>, p: Pool) returns (q: Pool)
    requires n > 0 && Ext(n, start, p) && p.holder == Nobody && Unladen(p, n)
    ensures Ext(n, start, q) && q.holder == Nobody && Unladen(q, n) && q.queue == [] && Onward(p, q)
    decreases |p.queue|
  {
    if p.queue == [] {
      q := p;
    } else {
      var i;
      q, i := Rouse(n, start, p);
      q := Serve(n, start, q, i);
      q := ServeAll(n, start, q);
    }
  }

  lemma AllDone(p: Pool)
    requires Inv(p) && p.queue == [] && Unladen(p, |p.workers|)
    ensures p.executed == multiset(p.accepted)
  {
    assert p.dequeued == p.accepted;
    forall t ensures p.executed[t] == multiset(p.accepted)[t] {
      assert HandsOk(p, t);
      InHandNone(p.workers, |p.workers|, t);
    }
  }

  /** Idle: nothing queued, nothing in hand, the mutex free. */
  lemma Settle(n: nat, start: seq<Action>, p: Pool) returns (q: Pool)
    requires n > 0 && Ext(n, start, p)
    ensures Ext(n, start, q) && q.holder == Nobody && q.queue == [] && Unladen(q, n) && Onward(p, q)
  {
    var a := FreeMutex(n, start, p);
    ExtInv(n, start, a);
    var b := FinishAll(n, start, a, n);
    ExtInv(n, start, b);
    q := ServeAll(n, start, b);
  }

  ghost predicate ExecutesAll(n: nat, actions: seq<Action>) {
    exists more :: Inside(more)
      && Run(n, actions).accepted <= Run(n, actions + more).accepted
      && Run(n, actions + more).executed == multiset(Run(n, actions + more).accepted)
  }

  /**
   With a worker or more, every run can go on, without a `stop` and without new submissions, to where everything
   accepted has been executed.
   */
  lemma {:induction false} EverythingRuns(n: nat, actions: seq<Action>)
    requires n > 0
    ensures ExecutesAll(n, actions)
  {
    StartExt(n, actions);
    var q := Settle(n, actions, Run(n, actions));
    ExtInv(n, actions, q);
    AllDone(q);
    var more :| Inside(more) && Run(n, actions + more) == q;
  }

  // ---------------------------------------------------------------------------------------------
  // What submitters brought
  // ---------------------------------------------------------------------------------------------

  /** The tasks whose submitters got the mutex, read off the actions. */
  function Offered(n: nat, actions: seq<Action>): multiset<Task> {
    if actions == [] then multiset{}
    else
      var before, a := actions[..|actions| - 1], actions[|actions| - 1];
      Offered(n, before)
      + if a.SubmitLock? && Run(n, before).holder == Nobody then multiset{a.task} else multiset{}
  }

  /** The task of the submitter who has the mutex. */
  function Pending(h: Holder): multiset<Task> {
    if h.Submitting? || h.Admitted? then multiset{h.task} else multiset{}
  }

  /** What is on record of tasks offered. */
  function Answers(p: Pool): multiset<Task> { multiset(p.accepted) + multiset(p.refused) + Pending(p.holder) }

  /** Every task offered is accepted or refused, once, or its submitter still has the mutex. */
  lemma {:induction false} EveryTaskAnswered(n: nat, actions: seq<Action>)
    ensures Answers(Run(n, actions)) == Offered(n, actions)
  {
    if actions != [] {
      EveryTaskAnswered(n, actions[..|actions| - 1]);
      RunInv(n, actions[..|actions| - 1]);
      StepAnswers(Run(n, actions[..|actions| - 1]), actions[|actions| - 1]);
    }
  }

  lemma StepAnswers(p: Pool, a: Action)
    requires MutexOk(p)
    ensures Answers(Step(p, a))
         == Answers(p) + if a.SubmitLock? && p.holder == Nobody then multiset{a.task} else multiset{}
  {
    if a.SubmitLock? || a.SubmitCheck? || a.SubmitPush? {
      SubmitAnswers(p, a);
    } else {
      OtherAnswers(p, a);
    }
  }

  lemma SubmitAnswers(p: Pool, a: Action)
    requires a.SubmitLock? || a.SubmitCheck? || a.SubmitPush?
    ensures Answers(Step(p, a))
         == Answers(p) + if a.SubmitLock? && p.holder == Nobody then multiset{a.task} else multiset{}
  {
  }

  lemma OtherAnswers(p: Pool, a: Action)
    requires MutexOk(p) && !a.SubmitLock? && !a.SubmitCheck? && !a.SubmitPush?
    ensures Answers(Step(p, a)) == Answers(p)
  {
    var q := Step(p, a);
    assert q.accepted == p.accepted && q.refused == p.refused;
    assert Pending(q.holder) == Pending(p.holder);
  }

  // ---------------------------------------------------------------------------------------------
  // Stopping
  // ---------------------------------------------------------------------------------------------

  /** All is done and `stop` has joined the first `k` workers. */
  predicate Closing(p: Pool, k: nat) {
    && p.stop == Joining(k) && !p.running && p.holder == Nobody && p.queue == [] && k <= |p.workers|
    && forall i :: k <= i < |p.workers| ==> p.workers[i] == Ready || p.workers[i] == Exited
  }

  lemma LeaveDoes(p: Pool, k: nat)
    requires Closing(p, k) && k < |p.workers| && p.workers[k] == Ready
    ensures Step(Step(Step(p, Lock(k)), Evaluate(k)), Proceed(k)) == p.(workers := p.workers[k := Exited])
  {
    var a := Step(p, Lock(k));
    assert a == p.(workers := p.workers[k := Holding], holder := ByWorker(k));
    var b := Step(a, Evaluate(k));
    assert b == p.(workers := p.workers[k := Passing], holder := ByWorker(k));
  }

  lemma LeaveOne(n: nat, start: seq<Action>, p: Pool, k: nat) returns (q: Pool)
    requires Ext(n, start, p) && Closing(p, k) && k < |p.workers|
    ensures Ext(n, start, q) && q == p.(workers := p.workers[k := Exited])
  {
    if p.workers[k] == Exited {
      assert p.workers[k := Exited] == p.workers;
      q := p;
    } else {
      StepExt(n, start, p, Lock(k));
      var a := Step(p, Lock(k));
      StepExt(n, start, a, Evaluate(k));
      var b := Step(a, Evaluate(k));
      StepExt(n, start, b, Proceed(k));
      LeaveDoes(p, k);
      q := Step(b, Proceed(k));
    }
  }

  lemma {:induction false} JoinAll(n: nat, start: seq<Action>, p: Pool, k: nat) returns (q: Pool)
    requires Ext(n, start, p) && Closing(p, k)
    ensures Ext(n, start, q) && q.stop == Returned
    decreases |p.workers| - k
  {
    if k == |p.workers| {
      StepExt(n, start, p, Return);
      q := Step(p, Return);
    } else {
      q := LeaveOne(n, start, p, k);
      StepExt(n, start, q, Join);
      q := JoinAll(n, start, Step(q, Join), k + 1);
    }
  }

  /** Where `stop` stands once the pool has settled. */
  lemma Close(n: nat, start: seq<Action>, p: Pool) returns (q: Pool)
    requires Ext(n, start, p) && p.holder == Nobody && p.queue == [] && Unladen(p, n) && p.stop != NotCalled
    ensures Ext(n, start, q) && q.stop == Returned
  {
    ExtInv(n, start, p);
    if p.stop == Returned {
      q := p;
    } else if p.stop == Flipped {
      StepExt(n, start, p, NotifyAll);
      q := JoinAll(n, start, Step(p, NotifyAll), 0);
    } else {
      q := JoinAll(n, start, p, p.stop.k);
    }
  }

  /** Once `stop` was called it can come to return, and then (with a worker) everything accepted was executed. */
  lemma {:induction false} StopReturns(n: nat, actions: seq<Action>)
    requires Run(n, actions).stop != NotCalled
    ensures exists more :: Inside(more) && Run(n, actions + more).stop == Returned
  {
    StartExt(n, actions);
    var p := Run(n, actions);
    RunInv(n, actions);
    var q;
    if n > 0 {
      q := Settle(n, actions, p);
      q := Close(n, actions, q);
    } else {
      q := FreeMutex(n, actions, p);
      q := CloseEmpty(actions, q);
    }
    var more :| Inside(more) && Run(n, actions + more) == q;
  }

  /** Without workers there is nobody to wait for. */
  lemma CloseEmpty(start: seq<Action>, p: Pool) returns (q: Pool)
    requires Ext(0, start, p) && p.holder == Nobody && p.stop != NotCalled
    ensures Ext(0, start, q) && q.stop == Returned
  {
    ExtInv(0, start, p);
    q := p;
    if q.stop == Flipped {
      StepExt(0, start, q, NotifyAll);
      q := Step(q, NotifyAll);
    }
    if q.stop.Joining? {
      ExtInv(0, start, q);
      StepExt(0, start, q, Return);
      q := Step(q, Return);
    }
  }
}
