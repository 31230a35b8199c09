/**
 The disk pool of the FTP server: `n` I/O threads submit without blocking, `m` workers take from an
 unbounded blocking queue. The check of the pending count, its increment, the push and the notification
 are four separate steps of a submitter; a worker counts down after its task has returned. Shutting down
 sets a flag under the queue's mutex and notifies afterwards.
 */
module DiskPool {

  const MAX_PENDING := 256

  type Task = nat

  /** Workers: about to take, asleep, notified, awake for another reason, executing a task, gone. */
  datatype Workers = Workers(ready: nat, asleep: nat, notified: nat, stirred: nat, executing: multiset<Task>, gone: nat)

  /** Submitters that have passed the check, that have counted, and that have pushed. */
  datatype Submitters = Submitters(idle: nat, passed: nat, counted: multiset<Task>, owing: nat)

  /** Shutting down: not begun, flag set, everyone notified. */
  datatype Closing = Open | Flagged | Notified

  /** `put`, `taken`, `executed` and `late` are history; `late` records a push after a worker has left. */
  datatype Pool = Pool(
    submitters: Submitters, workers: Workers, pending: nat, queue: seq<Task>, closing: Closing,
    put: seq<Task>, taken: seq<Task>, executed: multiset<Task>, late: bool)

  function Started(n: nat, m: nat): Pool {
    Pool(Submitters(n, 0, multiset{}, 0), Workers(m, 0, 0, 0, multiset{}, 0), 0, [], Open, [], [], multiset{}, false)
  }

  /** Why a worker is at the mutex. */
  datatype From = Ready | WasNotified | WasStirred

  datatype Action =
    | Check | Count(task: Task) | Put(task: Task) | NotifyOne
    | Take(from: From) | Stir | Finish(task: Task)
    | Shutdown | NotifyAll

  predicate Present(w: Workers, from: From) {
    match from
    case Ready => w.ready > 0
    case WasNotified => w.notified > 0
    case WasStirred => w.stirred > 0
  }

  function Leave(w: Workers, from: From): Workers
    requires Present(w, from)
  {
    match from
    case Ready => w.(ready := w.ready - 1)
    case WasNotified => w.(notified := w.notified - 1)
    case WasStirred => w.(stirred := w.stirred - 1)
  }

  /** `take` under the mutex: the oldest task, or leave when the queue is closed and empty, or sleep. */
  function TakeStep(p: Pool, from: From): Pool
    requires Present(p.workers, from)
  {
    var w := Leave(p.workers, from);
    if p.queue != [] then
      p.(workers := w.(executing := w.executing + multiset{p.queue[0]}), queue := p.queue[1..],
         taken := p.taken + [p.queue[0]])
    else if p.closing != Open then p.(workers := w.(gone := w.gone + 1))
    else p.(workers := w.(asleep := w.asleep + 1))
  }

  predicate Enabled(p: Pool, a: Action) {
    match a
    case Check => p.submitters.idle > 0 && p.pending < MAX_PENDING
    case Count(_) => p.submitters.passed > 0
    case Put(t) => t in p.submitters.counted
    case NotifyOne => p.submitters.owing > 0
    case Take(from) => Present(p.workers, from)
    case Stir => p.workers.asleep > 0
    case Finish(t) => t in p.workers.executing && p.pending > 0
    case Shutdown => p.closing == Open
    case NotifyAll => p.closing == Flagged
  }

  /** An action that is not enabled changes nothing; a submitter that fails the check is one such. */
  function Step(p: Pool, a: Action): Pool {
    var s, w := p.submitters, p.workers;
    if !Enabled(p, a) then p
    else match a
      case Check => p.(submitters := s.(idle := s.idle - 1, passed := s.passed + 1))
      case Count(t) =>
        p.(submitters := s.(passed := s.passed - 1, counted := s.counted + multiset{t}), pending := p.pending + 1)
      case Put(t) =>
        p.(submitters := s.(counted := s.counted - multiset{t}, owing := s.owing + 1),
           queue := p.queue + [t], put := p.put + [t], late := p.late || w.gone > 0)
      case NotifyOne =>
        p.(submitters := s.(owing := s.owing - 1, idle := s.idle + 1),
           workers := if w.asleep > 0 then w.(asleep := w.asleep - 1, notified := w.notified + 1) else w)
      case Take(from) => TakeStep(p, from)
      case Stir => p.(workers := w.(asleep := w.asleep - 1, stirred := w.stirred + 1))
      case Finish(t) =>
        p.(workers := w.(executing := w.executing - multiset{t}, ready := w.ready + 1),
           executed := p.executed + multiset{t}, pending := p.pending - 1)
      case Shutdown => p.(closing := Flagged)
      case NotifyAll => p.(closing := Notified, workers := w.(asleep := 0, stirred := w.stirred + w.asleep))
  }

  function RunFrom(p: Pool, actions: seq<Action>): Pool {
    if actions == [] then p else Step(RunFrom(p, actions[..|actions| - 1]), actions[|actions| - 1])
  }

  function Run(n: nat, m: nat, actions: seq<Action>): Pool { RunFrom(Started(n, m), actions) }

  lemma RunSnoc(p: Pool, actions: seq<Action>, a: Action)
    ensures RunFrom(p, actions + [a]) == Step(RunFrom(p, actions), a)
  {
    assert (actions + [a])[..|actions|] == actions;
  }

  // ---------------------------------------------------------------------------------------------
  // What every step keeps
  // ---------------------------------------------------------------------------------------------

  predicate CountsOk(p: Pool, n: nat, m: nat) {
    && p.submitters.idle + p.submitters.passed + |p.submitters.counted| + p.submitters.owing == n
    && p.workers.ready + p.workers.asleep + p.workers.notified + p.workers.stirred + |p.workers.executing|
       + p.workers.gone == m
  }

  predicate AdmissionOk(p: Pool, n: nat) {
    && p.pending == |p.submitters.counted| + |p.queue| + |p.workers.executing|
    && (n > 0 ==> p.pending + p.submitters.passed <= MAX_PENDING - 1 + n)
  }

  predicate QueueOk(p: Pool) {
    && p.taken + p.queue == p.put
    && (p.workers.asleep > 0 && p.closing == Open ==> |p.queue| <= p.workers.notified + p.submitters.owing)
    && (p.closing == Notified ==> p.workers.asleep == 0)
    && (p.workers.gone > 0 ==> p.closing != Open && (p.late || p.queue == []))
  }

  /** What was taken has been executed or is being executed. */
  predicate HandsOk(p: Pool) { Bag(p.taken) == p.executed + p.workers.executing }

  /** The elements of a sequence, counted. */
  function Bag(s: seq<Task>): multiset<Task> {
    if s == [] then multiset{} else Bag(s[..|s| - 1]) + multiset{s[|s| - 1]}
  }

  lemma BagSnoc(s: seq<Task>, x: Task)
    ensures Bag(s + [x]) == Bag(s) + multiset{x}
  {
    assert (s + [x])[..|s|] == s;
  }

  lemma {:induction false} BagIsMultiset(s: seq<Task>)
    ensures Bag(s) == multiset(s)
  {
    if s != [] {
      BagIsMultiset(s[..|s| - 1]);
      assert s == s[..|s| - 1] + [s[|s| - 1]];
    }
  }

  ghost predicate Inv(p: Pool, n: nat, m: nat) {
    CountsOk(p, n, m) && AdmissionOk(p, n) && QueueOk(p) && HandsOk(p)
  }

  lemma More(m: multiset<Task>, t: Task)
    ensures |m + multiset{t}| == |m| + 1
    ensures t in m ==> |m - multiset{t}| == |m| - 1
  {
  }

  predicate OfSubmitter(a: Action) { a.Check? || a.Count? || a.Put? || a.NotifyOne? }

  lemma SubmitterCounts(p: Pool, a: Action, n: nat, m: nat)
    requires CountsOk(p, n, m) && AdmissionOk(p, n) && OfSubmitter(a)
    ensures CountsOk(Step(p, a), n, m) && AdmissionOk(Step(p, a), n)
  {
    if a.Count? || a.Put? {
      More(p.submitters.counted, a.task);
    }
  }

  lemma TakeCounts(p: Pool, from: From, n: nat, m: nat)
    requires CountsOk(p, n, m) && AdmissionOk(p, n) && Present(p.workers, from)
    ensures CountsOk(TakeStep(p, from), n, m) && AdmissionOk(TakeStep(p, from), n)
  {
    if p.queue != [] {
      More(p.workers.executing, p.queue[0]);
    }
  }

  lemma FinishCounts(p: Pool, t: Task, n: nat, m: nat)
    requires CountsOk(p, n, m) && AdmissionOk(p, n)
    ensures CountsOk(Step(p, Finish(t)), n, m) && AdmissionOk(Step(p, Finish(t)), n)
  {
    More(p.workers.executing, t);
  }

  lemma WorkerCounts(p: Pool, a: Action, n: nat, m: nat)
    requires CountsOk(p, n, m) && AdmissionOk(p, n) && !OfSubmitter(a)
    ensures CountsOk(Step(p, a), n, m) && AdmissionOk(Step(p, a), n)
  {
    match a {
      case Take(from) =>
        if Present(p.workers, from) {
          TakeCounts(p, from, n, m);
        }
      case Finish(t) => FinishCounts(p, t, n, m);
      case _ =>
    }
  }

  lemma StepQueue(p: Pool, a: Action)
    requires QueueOk(p)
    ensures QueueOk(Step(p, a))
  {
    if p.queue != [] {
      assert p.taken + p.queue == p.taken + [p.queue[0]] + p.queue[1..];
    }
    if a.Put? {
      assert p.taken + (p.queue + [a.task]) == p.put + [a.task];
    }
  }

  lemma Moves(a: multiset<Task>, b: multiset<Task>, t: Task)
    requires t in b
    ensures a + multiset{t} + (b - multiset{t}) == a + b
  {
  }

  lemma Joins(a: multiset<Task>, b: multiset<Task>, t: Task)
    ensures a + (b + multiset{t}) == a + b + multiset{t}
  {
  }

  lemma TakeHands(p: Pool, from: From)
    requires HandsOk(p) && Present(p.workers, from) && p.queue != []
    ensures HandsOk(TakeStep(p, from))
  {
    BagSnoc(p.taken, p.queue[0]);
    Joins(p.executed, p.workers.executing, p.queue[0]);
  }

  lemma FinishHands(p: Pool, t: Task)
    requires HandsOk(p) && t in p.workers.executing
    ensures HandsOk(Step(p, Finish(t)))
  {
    Moves(p.executed, p.workers.executing, t);
  }

  lemma OtherHands(p: Pool, a: Action)
    requires !a.Finish? && (a.Take? ==> p.queue == [])
    ensures var q := Step(p, a);
            q.taken == p.taken && q.executed == p.executed && q.workers.executing == p.workers.executing
  {
  }

  lemma StepHands(p: Pool, a: Action)
    requires HandsOk(p)
    ensures HandsOk(Step(p, a))
  {
    if a.Take? && p.queue != [] {
      if Present(p.workers, a.from) {
        TakeHands(p, a.from);
      }
    } else if a.Finish? {
      if a.task in p.workers.executing {
        FinishHands(p, a.task);
      }
    } else {
      OtherHands(p, a);
    }
  }

  lemma StepInv(p: Pool, a: Action, n: nat, m: nat)
    requires Inv(p, n, m)
    ensures Inv(Step(p, a), n, m)
  {
    if OfSubmitter(a) {
      SubmitterCounts(p, a, n, m);
    } else {
      WorkerCounts(p, a, n, m);
    }
    StepQueue(p, a);
    StepHands(p, a);
  }

  lemma {:induction false} FromInv(p: Pool, actions: seq<Action>, n: nat, m: nat)
    requires Inv(p, n, m)
    ensures Inv(RunFrom(p, actions), n, m)
  {
    if actions != [] {
      FromInv(p, actions[..|actions| - 1], n, m);
      StepInv(RunFrom(p, actions[..|actions| - 1]), actions[|actions| - 1], n, m);
    }
  }

  lemma RunInv(n: nat, m: nat, actions: seq<Action>)
    ensures Inv(Run(n, m, actions), n, m)
  {
    FromInv(Started(n, m), actions, n, m);
  }

  // ---------------------------------------------------------------------------------------------
  // What holds in every run
  // ---------------------------------------------------------------------------------------------

  /** The pending count is the tasks being put, queued or running; with `n` submitters it never exceeds 256 + n - 1. */
  lemma {:induction false} Admission(n: nat, m: nat, actions: seq<Action>)
    requires n > 0
    ensures var p := Run(n, m, actions);
            && p.pending == |p.submitters.counted| + |p.queue| + |p.workers.executing|
            && p.pending <= MAX_PENDING + n - 1
  {
    RunInv(n, m, actions);
  }

  /** Tasks start in the order they were put; each is executed at most as often as it was put. */
  lemma {:induction false} FirstInFirstOut(n: nat, m: nat, actions: seq<Action>)
    ensures var p := Run(n, m, actions);
            p.taken + p.queue == p.put && p.executed + p.workers.executing + multiset(p.queue) == multiset(p.put)
  {
    RunInv(n, m, actions);
    var p := Run(n, m, actions);
    BagIsMultiset(p.taken);
    assert multiset(p.put) == multiset(p.taken) + multiset(p.queue);
  }

  /** A worker is asleep only while there are no more tasks than workers notified and notifications to come. */
  lemma {:induction false} NoLostNotification(n: nat, m: nat, actions: seq<Action>)
    ensures var p := Run(n, m, actions);
            p.workers.asleep > 0 && p.closing == Open ==> |p.queue| <= p.workers.notified + p.submitters.owing
  {
    RunInv(n, m, actions);
  }

  /** Once shut down, nobody sleeps; when all have left and nothing came late, everything put was executed. */
  lemma {:induction false} ShutdownDrains(n: nat, m: nat, actions: seq<Action>)
    ensures var p := Run(n, m, actions);
            && (p.closing == Notified ==> p.workers.asleep == 0)
            && (m > 0 && p.workers.gone == m && !p.late ==> p.executed == multiset(p.put))
  {
    RunInv(n, m, actions);
    var p := Run(n, m, actions);
    if m > 0 && p.workers.gone == m && !p.late {
      BagIsMultiset(p.taken);
      assert |p.workers.executing| == 0;
      assert p.workers.executing == multiset{};
    }
  }

  // ---------------------------------------------------------------------------------------------
  // The bound is reached
  // ---------------------------------------------------------------------------------------------

  ghost predicate Reached(n: nat, m: nat, p: Pool) { exists actions :: Run(n, m, actions) == p }

  lemma StepReached(n: nat, m: nat, p: Pool, a: Action)
    requires Reached(n, m, p)
    ensures Reached(n, m, Step(p, a))
  {
    var actions :| Run(n, m, actions) == p;
    RunSnoc(Started(n, m), actions, a);
    assert Run(n, m, actions + [a]) == Step(p, a);
  }

  function Zeros(k: nat): seq<Task> { seq(k, _ => 0) }

  /** `k` tasks queued, `i` submitters past the check, `j` past the increment, the others idle. */
  function Loaded(n: nat, m: nat, k: nat, i: nat, j: nat): Pool
    requires i + j <= n
  {
    Started(n, m).(pending := k + j, queue := Zeros(k), put := Zeros(k),
                   submitters := Submitters(n - i - j, i, multiset{}[0 := j], 0))
  }

  lemma {:induction false} Fill(n: nat, m: nat, k: nat)
    requires n > 0 && k < MAX_PENDING
    ensures Reached(n, m, Loaded(n, m, k, 0, 0))
  {
    if k == 0 {
      assert Run(n, m, []) == Started(n, m) == Loaded(n, m, 0, 0, 0);
    } else {
      Fill(n, m, k - 1);
      var p0 := Loaded(n, m, k - 1, 0, 0);
      StepReached(n, m, p0, Check);
      var p1 := Step(p0, Check);
      StepReached(n, m, p1, Count(0));
      var p2 := Step(p1, Count(0));
      StepReached(n, m, p2, Put(0));
      var p3 := Step(p2, Put(0));
      StepReached(n, m, p3, NotifyOne);
      assert Zeros(k - 1) + [0] == Zeros(k);
      assert multiset{}[0 := 0] + multiset{0} - multiset{0} == multiset{}[0 := 0];
      assert Step(p3, NotifyOne) == Loaded(n, m, k, 0, 0);
    }
  }

  lemma {:induction false} AllPass(n: nat, m: nat, i: nat)
    requires n > 0 && i <= n
    ensures Reached(n, m, Loaded(n, m, MAX_PENDING - 1, i, 0))
  {
    if i == 0 {
      Fill(n, m, MAX_PENDING - 1);
    } else {
      AllPass(n, m, i - 1);
      StepReached(n, m, Loaded(n, m, MAX_PENDING - 1, i - 1, 0), Check);
      assert Step(Loaded(n, m, MAX_PENDING - 1, i - 1, 0), Check) == Loaded(n, m, MAX_PENDING - 1, i, 0);
    }
  }

  lemma {:induction false} AllCount(n: nat, m: nat, j: nat)
    requires n > 0 && j <= n
    ensures Reached(n, m, Loaded(n, m, MAX_PENDING - 1, n - j, j))
  {
    if j == 0 {
      AllPass(n, m, n);
    } else {
      AllCount(n, m, j - 1);
      var p := Loaded(n, m, MAX_PENDING - 1, n - (j - 1), j - 1);
      StepReached(n, m, p, Count(0));
      assert multiset{}[0 := j - 1] + multiset{0} == multiset{}[0 := j];
      assert Step(p, Count(0)) == Loaded(n, m, MAX_PENDING - 1, n - j, j);
    }
  }

  /** The bound is exact: `n` submitters can drive the count to 256 + n - 1. */
  lemma {:induction false} AdmissionIsTight(n: nat, m: nat)
    requires n > 0
    ensures exists actions :: Run(n, m, actions).pending == MAX_PENDING + n - 1
  {
    AllCount(n, m, n);
    var actions :| Run(n, m, actions) == Loaded(n, m, MAX_PENDING - 1, 0, n);
    assert Run(n, m, actions).pending == MAX_PENDING + n - 1;
  }
}
