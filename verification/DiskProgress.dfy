/**
 The disk pool gets its work done: everything put can still be executed exactly while a worker is left or nothing is
 queued, and a shutdown can come to where every worker has left.
 */
module DiskProgress {
  import opened DiskPool

  /** A step of a worker, or a notification that is due; nobody submits and no wakeup is spurious. */
  predicate Own(a: Action) { a.Take? || a.Finish? || a.NotifyOne? || a.NotifyAll? }

  predicate Inside(more: seq<Action>) { forall a :: a in more ==> Own(a) }

  /** Such a continuation from `p0` ends in `p`. */
  ghost predicate Ext(p0: Pool, p: Pool) { exists more :: Inside(more) && RunFrom(p0, more) == p }

  lemma StartExt(p0: Pool)
    ensures Ext(p0, p0)
  {
    assert Inside([]) && RunFrom(p0, []) == p0;
  }

  lemma StepExt(p0: Pool, p: Pool, a: Action)
    requires Ext(p0, p) && Own(a)
    ensures Ext(p0, Step(p, a))
  {
    var more :| Inside(more) && RunFrom(p0, more) == p;
    RunSnoc(p0, more, a);
    assert Inside(more + [a]);
  }

  lemma ExtInv(p0: Pool, p: Pool, n: nat, m: nat)
    requires Inv(p0, n, m) && Ext(p0, p)
    ensures Inv(p, n, m)
  {
    var more :| Inside(more) && RunFrom(p0, more) == p;
    FromInv(p0, more, n, m);
  }

  lemma {:induction false} RunConcat(p: Pool, a: seq<Action>, b: seq<Action>)
    ensures RunFrom(p, a + b) == RunFrom(RunFrom(p, a), b)
  {
    if b == [] {
      assert a + b == a;
    } else {
      assert (a + b)[..|a + b| - 1] == a + b[..|b| - 1];
      RunConcat(p, a, b[..|b| - 1]);
    }
  }

  /** What was put and how far the shutdown got stay as they were, and no worker has left. */
  predicate Onward(p: Pool, q: Pool) {
    q.put == p.put && q.workers.gone == p.workers.gone && (p.closing == Open <==> q.closing == Open)
  }

  // ---------------------------------------------------------------------------------------------
  // Finishing, waking, taking
  // ---------------------------------------------------------------------------------------------

  lemma {:induction false} FinishAll(p0: Pool, p: Pool, n: nat, m: nat) returns (q: Pool)
    requires Inv(p0, n, m) && Ext(p0, p)
    ensures Ext(p0, q) && q.workers.executing == multiset{} && Onward(p, q) && q.queue == p.queue
    decreases |p.workers.executing|
  {
    if p.workers.executing == multiset{} {
      q := p;
    } else {
      ExtInv(p0, p, n, m);
      var t :| t in p.workers.executing;
      More(p.workers.executing, t);
      StepExt(p0, p, Finish(t));
      q := FinishAll(p0, Step(p, Finish(t)), n, m);
    }
  }

  /** With a task queued and nobody busy, a worker is at the mutex, or a notification that wakes one is due. */
  lemma Rouse(p0: Pool, p: Pool, n: nat, m: nat) returns (q: Pool, from: From)
    requires Inv(p0, n, m) && Ext(p0, p) && p.queue != [] && p.workers.executing == multiset{} && p.workers.gone < m
    ensures Ext(p0, q) && Present(q.workers, from) && q.workers.executing == multiset{}
    ensures Onward(p, q) && q.queue == p.queue
  {
    ExtInv(p0, p, n, m);
    if Present(p.workers, Ready) || Present(p.workers, WasNotified) || Present(p.workers, WasStirred) {
      q := p;
      from := if Present(p.workers, Ready) then Ready
              else if Present(p.workers, WasNotified) then WasNotified else WasStirred;
    } else {
      var a := if p.closing == Open then NotifyOne else NotifyAll;
      StepExt(p0, p, a);
      q := Step(p, a);
      from := if p.closing == Open then WasNotified else WasStirred;
    }
  }

  lemma TakeDoes(p: Pool, from: From)
    requires Present(p.workers, from) && p.queue != [] && p.workers.executing == multiset{}
    ensures var q := Step(p, Take(from));
            && q.queue == p.queue[1..] && q.taken == p.taken + [p.queue[0]] && Onward(p, q)
            && q.workers.executing == multiset{p.queue[0]}
  {
  }

  lemma {:induction false} ServeAll(p0: Pool, p: Pool, n: nat, m: nat) returns (q: Pool)
    requires Inv(p0, n, m) && Ext(p0, p) && p.workers.executing == multiset{} && p.workers.gone < m
    ensures Ext(p0, q) && q.workers.executing == multiset{} && q.queue == [] && Onward(p, q)
    decreases |p.queue|
  {
    if p.queue == [] {
      q := p;
    } else {
      var r, from := Rouse(p0, p, n, m);
      StepExt(p0, r, Take(from));
      TakeDoes(r, from);
      r := FinishAll(p0, Step(r, Take(from)), n, m);
      q := ServeAll(p0, r, n, m);
    }
  }

  /** Nothing queued, nothing running. */
  lemma Settle(p0: Pool, p: Pool, n: nat, m: nat) returns (q: Pool)
    requires Inv(p0, n, m) && Ext(p0, p) && p.workers.gone < m
    ensures Ext(p0, q) && q.workers.executing == multiset{} && q.queue == [] && Onward(p, q)
  {
    q := FinishAll(p0, p, n, m);
    q := ServeAll(p0, q, n, m);
  }

  lemma AllDone(p: Pool, n: nat, m: nat)
    requires Inv(p, n, m) && p.queue == [] && p.workers.executing == multiset{}
    ensures p.executed == multiset(p.put)
  {
    BagIsMultiset(p.taken);
    assert p.taken == p.put;
  }

  // ---------------------------------------------------------------------------------------------
  // Everything put
  // ---------------------------------------------------------------------------------------------

  ghost predicate CanExecuteAll(n: nat, m: nat, actions: seq<Action>) {
    exists more :: Inside(more)
      && Run(n, m, actions + more).put == Run(n, m, actions).put
      && Run(n, m, actions + more).executed == multiset(Run(n, m, actions).put)
  }

  /** A pool whose workers have all left executes nothing more. */
  lemma {:induction false} Deserted(p0: Pool, more: seq<Action>, n: nat, m: nat)
    requires Inv(p0, n, m) && p0.workers.gone == m
    ensures RunFrom(p0, more).executed == p0.executed && RunFrom(p0, more).workers.gone == m
  {
    if more != [] {
      var fewer := more[..|more| - 1];
      Deserted(p0, fewer, n, m);
      FromInv(p0, fewer, n, m);
      NobodyMoves(RunFrom(p0, fewer), more[|more| - 1], n, m);
    }
  }

  lemma NobodyMoves(p: Pool, a: Action, n: nat, m: nat)
    requires CountsOk(p, n, m) && p.workers.gone == m
    ensures Step(p, a).executed == p.executed && Step(p, a).workers.gone == m
  {
    assert |p.workers.executing| == 0;
  }

  /**
   Every run can go on, without new submissions, to where everything put has been executed, exactly while a worker is
   left or nothing is queued.
   */
  lemma {:induction false} EverythingRunsExactly(n: nat, m: nat, actions: seq<Action>)
    ensures CanExecuteAll(n, m, actions) <==> Run(n, m, actions).workers.gone < m || Run(n, m, actions).queue == []
  {
    var p := Run(n, m, actions);
    RunInv(n, m, actions);
    if p.workers.gone < m {
      StartExt(p);
      var q := Settle(p, p, n, m);
      ExtInv(p, q, n, m);
      AllDone(q, n, m);
      var more :| Inside(more) && RunFrom(p, more) == q;
      RunConcat(Started(n, m), actions, more);
    } else if p.queue == [] {
      assert |p.workers.executing| == 0;
      AllDone(p, n, m);
      assert actions + [] == actions && Inside([]);
    } else {
      FirstInFirstOut(n, m, actions);
      LeftOver(p);
      forall more | Inside(more) ensures Run(n, m, actions + more).executed != multiset(p.put) {
        RunConcat(Started(n, m), actions, more);
        Deserted(p, more, n, m);
      }
    }
  }

  lemma LeftOver(p: Pool)
    requires p.executed + p.workers.executing + multiset(p.queue) == multiset(p.put) && p.queue != []
    ensures p.executed != multiset(p.put)
  {
    assert p.queue[0] in multiset(p.queue);
    assert multiset(p.put)[p.queue[0]] > p.executed[p.queue[0]];
  }

  // ---------------------------------------------------------------------------------------------
  // Shutting down
  // ---------------------------------------------------------------------------------------------

  lemma LeaveDoes(p: Pool, from: From)
    requires Present(p.workers, from) && p.queue == [] && p.closing == Notified
    ensures var q := Step(p, Take(from));
            && q.workers == Leave(p.workers, from).(gone := p.workers.gone + 1)
            && q.queue == [] && q.closing == Notified
  {
  }

  lemma {:induction false} LeaveAll(p0: Pool, p: Pool, n: nat, m: nat) returns (q: Pool)
    requires Inv(p0, n, m) && Ext(p0, p) && p.queue == [] && p.workers.executing == multiset{} && p.closing == Notified
    ensures Ext(p0, q) && q.workers.gone == m
    decreases p.workers.ready + p.workers.notified + p.workers.stirred
  {
    ExtInv(p0, p, n, m);
    var w := p.workers;
    if w.ready + w.notified + w.stirred == 0 {
      q := p;
    } else {
      var from := if w.ready > 0 then Ready else if w.notified > 0 then WasNotified else WasStirred;
      StepExt(p0, p, Take(from));
      LeaveDoes(p, from);
      q := LeaveAll(p0, Step(p, Take(from)), n, m);
    }
  }

  /** Once the shutdown has begun, some continuation without new submissions sees every worker leave. */
  lemma {:induction false} ShutdownCompletes(n: nat, m: nat, actions: seq<Action>)
    requires Run(n, m, actions).closing != Open
    ensures exists more :: Inside(more) && Run(n, m, actions + more).workers.gone == m
  {
    var p := Run(n, m, actions);
    RunInv(n, m, actions);
    StartExt(p);
    var q := p;
    if p.workers.gone < m {
      q := Settle(p, p, n, m);
      if q.closing == Flagged {
        StepExt(p, q, NotifyAll);
        q := Step(q, NotifyAll);
      }
      q := LeaveAll(p, q, n, m);
    }
    var more :| Inside(more) && RunFrom(p, more) == q;
    RunConcat(Started(n, m), actions, more);
  }
}
