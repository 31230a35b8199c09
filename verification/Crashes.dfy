/**
 When a run can end in a call through a null pointer or a failed assertion: exactly by a PASV while the data
 connection is up, or by a risky connection through a released listener. The PASV has the old server deleted with its
 connection open; that going down queues a closing of "the" data server, which by then is the new one, and takes the
 connection of the next RETR away under it. The connection is half closed when its listener is deleted.
 */
module Crashes {
  import opened Sequences
  import Tcp
  import opened Transfer
  import opened Retrieve
  import opened Survival
  import Delivery
  import opened Wrappers

  /** After the run `start` every further action is orderly. */
  ghost predicate Continues(start: seq<Action>, more: seq<Action>) {
    forall k :: 0 <= k < |more| ==> Orderly(Run(start + more[..k]), more[k])
  }

  /** An orderly continuation of `start` ends in `s`. */
  ghost predicate Ext(start: seq<Action>, s: State) { exists more :: Continues(start, more) && Run(start + more) == s }

  /** Some orderly continuation ends in a null call, an empty callback or a failed assertion. */
  ghost predicate CanFail(start: seq<Action>) { exists s :: Ext(start, s) && s.failed }

  lemma StartExt(start: seq<Action>)
    ensures Ext(start, Run(start))
  {
    assert start + [] == start && Continues(start, []);
  }

  lemma RunSnoc(actions: seq<Action>, a: Action)
    ensures Run(actions + [a]) == Step(Run(actions), a)
  {
    assert (actions + [a])[..|actions|] == actions;
  }

  lemma ContinuesAt(start: seq<Action>, more: seq<Action>, a: Action, k: nat)
    requires Continues(start, more) && Orderly(Run(start + more), a) && k <= |more|
    ensures Orderly(Run(start + (more + [a])[..k]), (more + [a])[k])
  {
    if k < |more| {
      assert (more + [a])[..k] == more[..k];
      assert Orderly(Run(start + more[..k]), more[k]);
    } else {
      assert (more + [a])[..k] == more;
    }
  }

  lemma ContinuesSnoc(start: seq<Action>, more: seq<Action>, a: Action)
    requires Continues(start, more) && Orderly(Run(start + more), a)
    ensures Continues(start, more + [a])
  {
    forall k | 0 <= k < |more + [a]| ensures Orderly(Run(start + (more + [a])[..k]), (more + [a])[k]) {
      ContinuesAt(start, more, a, k);
    }
  }

  lemma StepExt(start: seq<Action>, s: State, a: Action)
    requires Ext(start, s) && Orderly(s, a)
    ensures Ext(start, Step(s, a))
  {
    var more :| Continues(start, more) && Run(start + more) == s;
    ContinuesSnoc(start, more, a);
    RunSnoc(start + more, a);
    assert start + more + [a] == start + (more + [a]);
  }

  lemma BeginIs(s: State)
    requires !s.failed && s.phase == Events
    ensures Step(s, BeginFunctors) == s.(phase := Functors, mark := |s.queue|)
  {
  }

  lemma BeginTurn(start: seq<Action>, s: State) returns (t: State)
    requires Ext(start, s) && !s.failed && s.phase == Events
    ensures Ext(start, t) && t == s.(phase := Functors, mark := |s.queue|)
  {
    BeginIs(s);
    StepExt(start, s, BeginFunctors);
    t := Step(s, BeginFunctors);
  }

  lemma EndIs(s: State)
    requires !s.failed && s.phase == Functors && s.mark == 0
    ensures Step(s, EndFunctors) == s.(phase := Events, earlier := s.nextServer)
  {
  }

  lemma EndTurn(start: seq<Action>, s: State) returns (t: State)
    requires Ext(start, s) && !s.failed && s.phase == Functors && s.mark == 0
    ensures Ext(start, t) && t == s.(phase := Events, earlier := s.nextServer)
  {
    EndIs(s);
    StepExt(start, s, EndFunctors);
    t := Step(s, EndFunctors);
  }

  lemma RunTurn(start: seq<Action>, s: State, e: Env) returns (t: State)
    requires Ext(start, s)
    ensures Ext(start, t) && t == Step(s, RunFunctor(e))
  {
    StepExt(start, s, RunFunctor(e));
    t := Step(s, RunFunctor(e));
  }

  // ---------------------------------------------------------------------------------------------
  // With the connection up: a failing continuation
  // ---------------------------------------------------------------------------------------------

  function With(fdNum: nat, victim: ConnId): Env { Env(true, fdNum, true, false, Tcp.WouldBlock, victim) }

  /** Running it changes nothing: a result nobody waits for, or the close of a closed connection. */
  predicate Harmless(s: State, f: Functor) {
    f.Ready? || (f.Close? && (f.conn !in s.conns || !Tcp.Open(s.conns[f.conn].tcp)))
  }

  /** The data server is there, and has had no connection. */
  predicate NewServer(s: State) { s.server.Some? && s.server.value < s.nextServer && s.server.value !in s.joined }

  /** The old server is to be deleted with its connection `c` up. */
  predicate ToDelete(s: State, c: ConnId) {
    && !s.failed && s.xfer == Nothing && s.data.None? && s.server.Some? && s.mark == |s.queue| > 0
    && c in s.conns && s.conns[c].tcp.state == Tcp.Connected
    && (forall d :: d in s.conns && d != c ==> !Tcp.Open(s.conns[d].tcp))
    && s.queue[|s.queue| - 1] == DeleteServer(s.conns[c].server) && NewServer(s)
    && (forall i :: 0 <= i < |s.queue| - 1 ==> Harmless(s, s.queue[i]))
  }

  lemma NextIsNew(s: State)
    requires Good(s)
    ensures s.nextServer !in s.joined
  {
  }

  lemma PasvDoes(s: State)
    requires Good(s) && s.phase == Events && s.xfer == Nothing && OwnUp(s)
    ensures var t := Step(Step(s, Pasv), BeginFunctors); t.phase == Functors && ToDelete(t, s.data.value)
  {
    var c := s.data.value;
    var t := Step(Step(s, Pasv), BeginFunctors);
    assert ConnOk(s, c);
    forall d | d in s.conns && d != c ensures !Tcp.Open(s.conns[d].tcp) {
      assert IsOpen(s, c) && (Tcp.Open(s.conns[d].tcp) ==> IsOpen(s, d));
    }
    assert t.queue == s.queue + [DeleteServer(s.server.value)];
    NextIsNew(s);
    forall i | 0 <= i < |s.queue| ensures Harmless(t, t.queue[i]) {
      assert s.queue[i] in s.queue;
    }
  }

  lemma SkipDoes(s: State, c: ConnId, e: Env)
    requires s.phase == Functors && ToDelete(s, c) && |s.queue| > 1
    ensures var t := Step(s, RunFunctor(e)); t == Pop(s) && ToDelete(t, c)
  {
    assert Harmless(s, s.queue[0]);
    forall i | 0 <= i < |s.queue| - 2 ensures Harmless(Pop(s), Pop(s).queue[i]) {
      assert Harmless(s, s.queue[i + 1]);
    }
  }

  lemma {:induction false} Skip(start: seq<Action>, s: State, c: ConnId) returns (t: State)
    requires Ext(start, s) && s.phase == Functors && ToDelete(s, c)
    ensures Ext(start, t) && t.phase == Functors && ToDelete(t, c) && |t.queue| == 1
    decreases |s.queue|
  {
    if |s.queue| == 1 {
      t := s;
    } else {
      var e := With(0, c);
      SkipDoes(s, c, e);
      t := RunTurn(start, s, e);
      t := Skip(start, t, c);
    }
  }

  /** The old server is gone; what is queued now will close the new one. */
  predicate Doomed(s: State) {
    && !s.failed && s.xfer == Nothing && NewServer(s) && s.queue == [CloseServer] && s.mark == 0 && s.data.None?
  }

  lemma DownDoes(s: State, c: ConnId)
    requires s.phase == Functors && ToDelete(s, c) && |s.queue| == 1
    ensures var t := Step(s, RunFunctor(With(0, c)));
            && t == s.(conns := t.conns, gen := t.gen, queue := s.queue + [CloseServer], offset := 0, done := false,
                       fd := None, table := t.table)
            && (forall d :: d in t.conns ==> !Tcp.Open(t.conns[d].tcp))
  {
    assert RunHead(s, With(0, c)) == CloseConn(s, c);
  }

  lemma GoneDoes(s: State, sv: ServerId, e: Env)
    requires !s.failed && s.phase == Functors && s.queue == [DeleteServer(sv), CloseServer] && s.mark == 1
    requires s.xfer == Nothing && NewServer(s) && s.data.None?
    requires forall d :: d in s.conns ==> !Tcp.Open(s.conns[d].tcp)
    ensures Doomed(Step(s, RunFunctor(e))) && Step(s, RunFunctor(e)).phase == Functors
  {
    assert s.queue[1..] == [CloseServer];
    assert RunHead(s, e) == Pop(s);
  }

  lemma Deleted(start: seq<Action>, s: State, c: ConnId) returns (t: State)
    requires Ext(start, s) && s.phase == Functors && ToDelete(s, c) && |s.queue| == 1
    ensures Ext(start, t) && t.phase == Functors && Doomed(t)
  {
    DownDoes(s, c);
    var d := RunTurn(start, s, With(0, c));
    assert d.queue == [s.queue[0], CloseServer];
    GoneDoes(d, s.conns[c].server, With(0, c));
    t := RunTurn(start, d, With(0, c));
  }

  /** The client connects to the new server. */
  predicate Joined(s: State) {
    && !s.failed && s.xfer == Nothing && s.server.Some? && s.queue == [CloseServer] && s.mark == 0 && s.phase == Events
    && DataUp(s)
  }

  lemma JoinDoes(s: State, e: Env)
    requires Doomed(s) && s.phase == Events && s.earlier == s.nextServer
    ensures Joined(Step(s, DataConnected(s.server.value, e)))
  {
    assert Step(s, DataConnected(s.server.value, e)) == Adopt(s, s.server.value);
  }

  lemma Join(start: seq<Action>, s: State) returns (t: State)
    requires Ext(start, s) && s.phase == Functors && Doomed(s)
    ensures Ext(start, t) && Joined(t)
  {
    t := EndTurn(start, s);
    t := Connect(start, t);
  }

  lemma Connect(start: seq<Action>, s: State) returns (t: State)
    requires Ext(start, s) && s.phase == Events && Doomed(s) && s.earlier == s.nextServer
    ensures Ext(start, t) && Joined(t)
  {
    var a := DataConnected(s.server.value, With(0, 0));
    JoinDoes(s, With(0, 0));
    StepExt(start, s, a);
    t := Step(s, a);
  }

  /** A RETR of the empty file, its read in the pool, whose data server is about to be closed. */
  predicate Asked(s: State, i: nat) {
    && !s.failed && s.xfer == Retrieving && s.server.Some? && s.fd.Some? && s.phase == Events && s.mark == 0
    && s.fd.value.num in s.table && s.table[s.fd.value.num] == OpenFile(s.fd.value.origin, [])
    && s.queue == [CloseServer] && i < |s.pool| && s.pool[i] == Task(s.gen, ReadAt(s.fd, 0), None)
  }

  lemma AskDoes(s: State, num: nat)
    requires Joined(s) && num !in s.table
    ensures Asked(Step(s, RetrCommand([], With(num, 0))), |s.pool|)
  {
    var o := OpenTarget(BeginRetr(s, []), num);
    assert Step(s, RetrCommand([], With(num, 0))) == Submit(o);
  }

  lemma {:induction false} Unused(nums: set<nat>) returns (n: nat)
    ensures forall m :: m in nums ==> m < n
    decreases nums
  {
    if nums == {} {
      n := 0;
    } else {
      var m :| m in nums;
      var k := Unused(nums - {m});
      n := if m < k then k else m + 1;
      forall j | j in nums ensures j < n {
        assert j == m || j in nums - {m};
      }
    }
  }

  const NOTHING := Outcome([], true, false, true, CHUNK)

  lemma ReadDoes(s: State, i: nat)
    requires Asked(s, i)
    ensures var r := Step(s, DiskRead(i, CHUNK, false, [], []));
            r == s.(pool := r.pool) && i < |r.pool| && r.pool[i] == s.pool[i].(outcome := Some(NOTHING))
  {
  }

  lemma QueueDoes(s: State, i: nat)
    requires !s.failed && s.queue == [CloseServer] && i < |s.pool| && s.pool[i].outcome == Some(NOTHING)
    ensures var r := Step(s, DiskQueue(i));
            r == s.(pool := r.pool, queue := [CloseServer, Ready(s.pool[i].gen, NOTHING)])
  {
  }

  /** First the data connection is let go, then the half-close is asked of it. */
  lemma EndDoes(s: State, e: Env)
    requires !s.failed && s.xfer == Retrieving && s.server.Some? && s.phase == Functors && s.mark == 2
    requires s.queue == [CloseServer, Ready(s.gen, NOTHING)]
    ensures Step(Step(s, RunFunctor(e)), RunFunctor(e)).failed
  {
    var b := Step(s, RunFunctor(e));
    assert b == Release(Pop(s)) && b.queue[0] == Ready(s.gen, NOTHING) && b.data.None?;
    assert Step(b, RunFunctor(e)) == Pop(b).(failed := true);
  }

  lemma Answered(start: seq<Action>, s: State, i: nat) returns (t: State)
    requires Ext(start, s) && Asked(s, i)
    ensures Ext(start, t) && !t.failed && t.xfer == Retrieving && t.server.Some? && t.phase == Events
    ensures t.queue == [CloseServer, Ready(t.gen, NOTHING)]
  {
    var r := DiskRead(i, CHUNK, false, [], []);
    ReadDoes(s, i);
    StepExt(start, s, r);
    var a := Step(s, r);
    QueueDoes(a, i);
    StepExt(start, a, DiskQueue(i));
    t := Step(a, DiskQueue(i));
  }

  lemma Fails(start: seq<Action>, s: State)
    requires Ext(start, s) && !s.failed && s.xfer == Retrieving && s.server.Some? && s.phase == Events
    requires s.queue == [CloseServer, Ready(s.gen, NOTHING)]
    ensures CanFail(start)
  {
    var e := With(0, 0);
    var b := BeginTurn(start, s);
    EndDoes(b, e);
    var c := RunTurn(start, b, e);
    var d := RunTurn(start, c, e);
  }

  lemma Ask(start: seq<Action>, s: State) returns (t: State)
    requires Ext(start, s) && Joined(s)
    ensures Ext(start, t) && Asked(t, |s.pool|)
  {
    var num := Unused(s.table.Keys);
    var a := RetrCommand([], With(num, 0));
    AskDoes(s, num);
    StepExt(start, s, a);
    t := Step(s, a);
  }

  lemma OwnUpFails(actions: seq<Action>)
    requires Good(Run(actions)) && Polite(Run(actions), Pasv) && Run(actions).phase == Events && OwnUp(Run(actions))
    ensures CanFail(actions + [Pasv])
  {
    var s, start := Run(actions), actions + [Pasv];
    RunSnoc(actions, Pasv);
    StartExt(start);
    StepExt(start, Run(start), BeginFunctors);
    PasvDoes(s);
    var a := Skip(start, Step(Run(start), BeginFunctors), s.data.value);
    var b := Deleted(start, a, s.data.value);
    var c := Join(start, b);
    var d := Ask(start, c);
    var e := Answered(start, d, |c.pool|);
    Fails(start, e);
  }

  // ---------------------------------------------------------------------------------------------
  // With the connection half closed: its listener's deletion fails
  // ---------------------------------------------------------------------------------------------

  /** Running it does nothing to connection `c`, on which a transfer has come to nothing. */
  predicate Skippable(s: State, f: Functor, c: ConnId)
    requires c in s.conns
  {
    || (f.Ready? && (f.gen != s.gen || s.xfer == Nothing))
    || (f.Close? && f.conn != c) || f == CloseServer
    || (f.DeleteServer? && f.server != s.conns[c].server)
  }

  /** The only connection is half closed, and the `i`-th functor deletes its server. */
  predicate Half(s: State, c: ConnId, i: nat) {
    && !s.failed && c in s.conns && s.conns[c].tcp.state == Tcp.Disconnecting
    && (forall d :: d in s.conns && d != c ==> !Tcp.Open(s.conns[d].tcp))
    && i < |s.queue| && s.queue[i] == DeleteServer(s.conns[c].server)
    && (forall j :: 0 <= j < i ==> Skippable(s, s.queue[j], c))
    && (s.phase == Functors ==> i < s.mark <= |s.queue|)
  }

  lemma HalfSkips(s: State, c: ConnId, i: nat, e: Env)
    requires s.phase == Functors && Half(s, c, i) && i > 0
    ensures var t := Step(s, RunFunctor(e)); t.phase == Functors && Half(t, c, i - 1)
  {
    var t, p := Step(s, RunFunctor(e)), Pop(s);
    assert Skippable(s, s.queue[0], c);
    assert t == p || t == Release(p);
    ReleaseFields(p);
    assert forall j :: 0 <= j < |p.queue| ==> t.queue[j] == p.queue[j] == s.queue[j + 1];
    forall j | 0 <= j < i - 1 ensures Skippable(t, t.queue[j], c) {
      assert Skippable(s, s.queue[j + 1], c);
    }
  }

  lemma HalfEnds(s: State, c: ConnId)
    requires s.phase == Functors && Half(s, c, 0)
    ensures Step(s, RunFunctor(With(0, c))).failed
  {
    assert RunHead(s, With(0, c)) == DestroyOne(s, s.conns[c].server, c) == s.(failed := true);
  }

  lemma {:induction false} HalfFails(start: seq<Action>, s: State, c: ConnId, i: nat)
    requires Ext(start, s) && s.phase == Functors && Half(s, c, i)
    ensures CanFail(start)
    decreases i
  {
    if i == 0 {
      HalfDone(start, s, c);
    } else {
      var t := HalfTurn(start, s, c, i);
      HalfFails(start, t, c, i - 1);
    }
  }

  lemma HalfDone(start: seq<Action>, s: State, c: ConnId)
    requires Ext(start, s) && s.phase == Functors && Half(s, c, 0)
    ensures CanFail(start)
  {
    HalfEnds(s, c);
    var t := RunTurn(start, s, With(0, c));
  }

  lemma HalfTurn(start: seq<Action>, s: State, c: ConnId, i: nat) returns (t: State)
    requires Ext(start, s) && s.phase == Functors && Half(s, c, i) && i > 0
    ensures Ext(start, t) && t.phase == Functors && Half(t, c, i - 1)
  {
    HalfSkips(s, c, i, With(0, c));
    t := RunTurn(start, s, With(0, c));
  }

  lemma HalfWillFail(start: seq<Action>, s: State, c: ConnId, i: nat)
    requires Ext(start, s) && s.phase == Events && Half(s, c, i)
    ensures CanFail(start)
  {
    var t := BeginTurn(start, s);
    assert Half(t, c, i);
    HalfFails(start, t, c, i);
  }

  lemma {:induction false} FirstOf(q: seq<Functor>, f: Functor) returns (i: nat)
    requires f in q
    ensures i < |q| && q[i] == f && f !in q[..i]
  {
    if q[0] == f {
      i := 0;
    } else {
      var j := FirstOf(q[1..], f);
      i := j + 1;
      assert q[..i] == [q[0]] + q[1..][..j];
    }
  }

  /** Half closed on a server about to be deleted, behind nothing that matters. */
  lemma HalfHere(s: State, t: State, c: ConnId) returns (i: nat)
    requires Gens(s) && !Flying(s) && NoComplete(s.queue) && Close(c) !in s.queue && s.queue <= t.queue
    requires s.gen <= t.gen && !t.failed && t.phase == Events
    requires c in t.conns && t.conns[c].tcp.state == Tcp.Disconnecting && DeleteServer(t.conns[c].server) in s.queue
    requires forall d :: d in t.conns && d != c ==> !Tcp.Open(t.conns[d].tcp)
    ensures Half(t, c, i)
  {
    i := FirstOf(s.queue, DeleteServer(t.conns[c].server));
    forall j | 0 <= j < i ensures Skippable(t, t.queue[j], c) {
      assert t.queue[j] == s.queue[j] && s.queue[j] in s.queue && s.queue[j] in s.queue[..i];
    }
  }

  const REFUSING := Env(false, 0, true, false, Tcp.WouldBlock, 0)

  /** A directory that cannot be opened half closes an idle connection. */
  lemma ListDoes(s: State)
    requires !s.failed && s.phase == Events && s.xfer == Nothing && s.server.Some? && DataUp(s)
    ensures var t, c := Step(s, ListCommand(REFUSING)), s.data.value;
            && !t.failed && t.phase == Events && s.queue <= t.queue && t.gen == s.gen + 1
            && t.conns == s.conns[c := s.conns[c].(tcp := Tcp.ForceClose(s.conns[c].tcp))]
  {
    var b := BeginList(s);
    assert Step(s, ListCommand(REFUSING)) == Enqueue(DropData(Say(b, Code(550))), CloseServer);
  }

  lemma ListFails(start: seq<Action>, s: State)
    requires Ext(start, s) && !s.failed && s.phase == Events && s.xfer == Nothing && s.server.Some? && DataUp(s)
    requires Gens(s) && !Flying(s) && NoComplete(s.queue) && Close(s.data.value) !in s.queue
    requires DeleteServer(s.conns[s.data.value].server) in s.queue
    requires forall d :: d in s.conns && s.data != Some(d) ==> !Tcp.Open(s.conns[d].tcp)
    ensures CanFail(start)
  {
    ListDoes(s);
    StepExt(start, s, ListCommand(REFUSING));
    var t := Step(s, ListCommand(REFUSING));
    var i := HalfHere(s, t, s.data.value);
    HalfWillFail(start, t, s.data.value, i);
  }

  lemma PassingUpFails(actions: seq<Action>)
    requires Good(Run(actions)) && Run(actions).xfer == Nothing && Run(actions).phase == Events
    requires DataUp(Run(actions)) && !OwnUp(Run(actions))
    ensures CanFail(actions + [Pasv])
  {
    var s, start := Run(actions), actions + [Pasv];
    var c := s.data.value;
    assert IsOpen(s, c) && Placed(s, c) && Passing(s, c);
    forall d | d in s.conns && d != c ensures !Tcp.Open(s.conns[d].tcp) {
      assert Tcp.Open(s.conns[d].tcp) ==> IsOpen(s, d);
    }
    RunSnoc(actions, Pasv);
    StartExt(start);
    var t := Run(start);
    assert t == s.(server := t.server, nextServer := t.nextServer, replies := t.replies) && t.server.Some?;
    assert Flying(t) ==> Flying(s);
    ListFails(start, t);
  }

  // ---------------------------------------------------------------------------------------------
  // Exactly then
  // ---------------------------------------------------------------------------------------------

  lemma OrderlyAt(actions: seq<Action>, more: seq<Action>, k: nat)
    requires OrderlyRun(actions) && Continues(actions, more) && k < |actions| + |more|
    ensures Orderly(Run((actions + more)[..k]), (actions + more)[k])
  {
    if k < |actions| {
      assert (actions + more)[..k] == actions[..k];
      assert Orderly(Run(actions[..k]), actions[k]);
    } else {
      var j := k - |actions|;
      assert (actions + more)[..k] == actions + more[..j];
      assert Orderly(Run(actions + more[..j]), more[j]);
    }
  }

  lemma OrderlySnoc(actions: seq<Action>, more: seq<Action>)
    requires OrderlyRun(actions) && Continues(actions, more)
    ensures OrderlyRun(actions + more)
  {
    forall k | 0 <= k < |actions + more| ensures Orderly(Run((actions + more)[..k]), (actions + more)[k]) {
      OrderlyAt(actions, more, k);
    }
  }

  /**
   In every orderly run, a PASV between transfers can lead to a null call, an empty callback or a failed
   assertion exactly when the data connection is up.
   */
  lemma {:induction false} PasvFailsExactly(actions: seq<Action>)
    requires OrderlyRun(actions) && Run(actions).phase == Events && Run(actions).xfer == Nothing
    ensures CanFail(actions + [Pasv]) <==> DataUp(Run(actions))
  {
    RunSteady(actions);
    if OwnUp(Run(actions)) {
      OwnUpFails(actions);
    } else if DataUp(Run(actions)) {
      PassingUpFails(actions);
    } else {
      OrderlySafe(actions, Pasv);
    }
  }

  /** An orderly action leads to no failure. */
  lemma OrderlySafe(actions: seq<Action>, a: Action)
    requires OrderlyRun(actions) && Orderly(Run(actions), a)
    ensures !CanFail(actions + [a])
  {
    var start := actions + [a];
    assert [a][..0] == [] && actions + [] == actions;
    OrderlySnoc(actions, [a]);
    forall s | Ext(start, s) ensures !s.failed {
      var more :| Continues(start, more) && Run(start + more) == s;
      OrderlySnoc(start, more);
      NeverFails(start + more);
    }
  }

  /** A start that does not leave the connection up has half closed it. */
  lemma HalfAfterStart(t: State, e: Env)
    requires DataUp(t) && !DataUp(TryStart(t, e)) && t.xfer != Nothing && !t.failed
    ensures var u, c := TryStart(t, e), t.data.value;
            && !u.failed && u.phase == t.phase && t.queue <= u.queue && t.gen <= u.gen
            && u.conns.Keys == t.conns.Keys && u.conns[c].tcp.state == Tcp.Disconnecting
            && u.conns[c].server == t.conns[c].server
            && (forall d :: d in t.conns && d != c ==> u.conns[d] == t.conns[d])
  {
    var a := Say(t, Code(550));
    DropDoes(a);
    if t.xfer == Listing {
      RequestHalf(t, e);
    } else if e.fdNum !in t.table {
      RequestHalf(OpenTarget(t, e.fdNum), e);
    }
  }

  lemma DropDoes(s: State)
    requires DataUp(s)
    ensures var t, c := DropData(s), s.data.value;
            t == s.(conns := s.conns[c := s.conns[c].(tcp := Tcp.ForceClose(s.conns[c].tcp))],
                    queue := s.queue + [Close(c)])
  {
  }

  lemma RequestHalf(s: State, e: Env)
    requires DataUp(s) && s.xfer != Nothing && !s.failed
    ensures var u, c := Request(s, e), s.data.value;
            || u == Submit(s)
            || (&& !u.failed && u.phase == s.phase && s.queue <= u.queue && s.gen <= u.gen
                && u.conns.Keys == s.conns.Keys && u.conns[c].tcp.state == Tcp.Disconnecting
                && u.conns[c].server == s.conns[c].server
                && (forall d :: d in s.conns && d != c ==> u.conns[d] == s.conns[d]))
  {
    var a := Abort(Say(s, Code(451)));
    DropDoes(a);
  }

  lemma RiskyFails(actions: seq<Action>, to: ServerId, e: Env)
    requires Good(Run(actions)) && Run(actions).phase == Events && Polite(Run(actions), DataConnected(to, e))
    requires Run(actions).server != Some(to) && Risky(Run(actions), to, e)
    ensures CanFail(actions + [DataConnected(to, e)])
  {
    var s, start := Run(actions), actions + [DataConnected(to, e)];
    RunSnoc(actions, DataConnected(to, e));
    StartExt(start);
    if s.data.Some? {
      RefusedFails(start, s, to, e);
    } else if s.xfer == Nothing {
      Arrival(s, to, e);
      IdleFails(start, s, to);
    } else {
      Arrival(s, to, e);
      StartedFails(start, s, to, e);
    }
  }

  lemma RefusedFails(start: seq<Action>, s: State, to: ServerId, e: Env)
    requires Good(s) && s.phase == Events && Polite(s, DataConnected(to, e)) && s.server != Some(to) && s.data.Some?
    requires Ext(start, Refuse(s, to))
    ensures CanFail(start)
  {
    var t, c := Refuse(s, to), s.nextConn;
    forall d | d in s.conns ensures !Tcp.Open(s.conns[d].tcp) && d < s.nextConn {
      NoneOpen(s, to, e, d);
      assert ConnOk(s, d);
    }
    RefuseFields(s, to);
    assert NoComplete(s.queue) && !Flying(s);
    var i := HalfHere(s, t, c);
    HalfWillFail(start, t, c, i);
  }

  lemma IdleFails(start: seq<Action>, s: State, to: ServerId)
    requires Good(s) && s.phase == Events && s.xfer == Nothing && s.server.Some? && DeleteServer(to) in s.queue
    requires NoComplete(s.queue) && !Flying(s) && Close(s.nextConn) !in s.queue
    requires forall c :: c in s.conns ==> !Tcp.Open(s.conns[c].tcp)
    requires Ext(start, Adopt(s, to))
    ensures CanFail(start)
  {
    var t := Adopt(s, to);
    assert Flying(t) ==> Flying(s);
    ListFails(start, t);
  }

  lemma StartedFails(start: seq<Action>, s: State, to: ServerId, e: Env)
    requires Good(s) && s.phase == Events && s.xfer != Nothing && DeleteServer(to) in s.queue
    requires NoComplete(s.queue) && !Flying(s) && Close(s.nextConn) !in s.queue
    requires forall c :: c in s.conns ==> !Tcp.Open(s.conns[c].tcp)
    requires !DataUp(TryStart(Adopt(s, to), e)) && Ext(start, TryStart(Adopt(s, to), e))
    ensures CanFail(start)
  {
    var t := Adopt(s, to);
    HalfAfterStart(t, e);
    var u := TryStart(t, e);
    var i := HalfHere(s, u, s.nextConn);
    HalfWillFail(start, u, s.nextConn, i);
  }

  /**
   In every orderly run, a first connection to a listener can lead to a failure exactly when the session has
   released that listener and the connection is risky.
   */
  lemma {:induction false} ConnectFailsExactly(actions: seq<Action>, to: ServerId, e: Env)
    requires OrderlyRun(actions) && Run(actions).phase == Events && Polite(Run(actions), DataConnected(to, e))
    ensures var s := Run(actions);
            CanFail(actions + [DataConnected(to, e)]) <==> s.server != Some(to) && Risky(s, to, e)
  {
    RunSteady(actions);
    var s := Run(actions);
    if s.server != Some(to) && Risky(s, to, e) {
      RiskyFails(actions, to, e);
    } else {
      OrderlySafe(actions, DataConnected(to, e));
    }
  }

  lemma FirstListening()
    ensures Ext([], Delivery.LISTENING)
  {
    FirstPasv();
    var a := BeginTurn([], Delivery.LISTENING.(earlier := 0));
    var b := EndTurn([], a);
    assert b == Delivery.LISTENING;
  }

  lemma FirstPasv()
    ensures Ext([], Delivery.LISTENING.(earlier := 0))
  {
    StartExt([]);
    StepExt([], START, Pasv);
    assert START.replies + [Code(227)] == [Code(227)];
    assert Step(START, Pasv) == Delivery.LISTENING.(earlier := 0);
  }

  lemma FirstJoined()
    ensures Ext([], Delivery.JOINED)
  {
    FirstListening();
    var a := DataConnected(0, With(0, 0));
    StepExt([], Delivery.LISTENING, a);
    assert Step(Delivery.LISTENING, a) == Adopt(Delivery.LISTENING, 0) == Delivery.JOINED;
  }

  lemma JoinedIsUp()
    ensures DataUp(Delivery.JOINED) && Delivery.JOINED.phase == Events && Delivery.JOINED.xfer == Nothing
  {
  }

  lemma PoliteOn(actions: seq<Action>, more: seq<Action>)
    requires PoliteRun(actions)
    requires forall k :: 0 <= k < |more| ==> Polite(Run(actions + more[..k]), more[k])
    ensures PoliteRun(actions + more)
  {
    var all := actions + more;
    forall k | 0 <= k < |all| ensures Polite(Run(all[..k]), all[k]) {
      if k < |actions| {
        assert all[..k] == actions[..k];
      } else {
        assert all[..k] == actions + more[..k - |actions|];
      }
    }
  }

  /** There is such a run, and so a polite one that fails: the client has connected and sends PASV again. */
  lemma {:induction false} PoliteRunFails()
    ensures exists actions :: PoliteRun(actions) && Run(actions).failed
  {
    var actions := SecondPasv();
    Failing(actions + [Pasv]);
  }

  lemma Failing(start: seq<Action>)
    requires PoliteRun(start) && CanFail(start)
    ensures exists actions :: PoliteRun(actions) && Run(actions).failed
  {
    var s :| Ext(start, s) && s.failed;
    var more :| Continues(start, more) && Run(start + more) == s;
    PoliteOn(start, more);
  }

  lemma JoinedRun() returns (actions: seq<Action>)
    ensures OrderlyRun(actions) && Run(actions) == Delivery.JOINED
  {
    FirstJoined();
    actions := FromStart(Delivery.JOINED);
  }

  lemma OrderlyIsPolite(actions: seq<Action>)
    requires OrderlyRun(actions)
    ensures PoliteRun(actions)
  {
  }

  lemma PasvIsPolite(s: State)
    requires s.xfer == Nothing
    ensures Polite(s, Pasv)
  {
  }

  lemma SecondPasv() returns (actions: seq<Action>)
    ensures PoliteRun(actions + [Pasv]) && CanFail(actions + [Pasv])
  {
    actions := JoinedRun();
    JoinedIsUp();
    PasvFailsExactly(actions);
    OrderlyIsPolite(actions);
    PasvIsPolite(Run(actions));
    Delivery.PoliteSnoc(actions, Pasv);
  }

  // ---------------------------------------------------------------------------------------------
  // Through a released listener
  // ---------------------------------------------------------------------------------------------

  /** PASV again, with no connection yet. */
  const RELEASED := Delivery.LISTENING.(
    server := Some(1), nextServer := 2, queue := [DeleteServer(0)], replies := [Code(227), Code(227)])

  lemma ReleasedRun() returns (actions: seq<Action>)
    ensures OrderlyRun(actions) && Run(actions) == RELEASED
  {
    FirstListening();
    StepExt([], Delivery.LISTENING, Pasv);
    assert [Code(227)] + [Code(227)] == [Code(227), Code(227)];
    assert Step(Delivery.LISTENING, Pasv) == RELEASED;
    actions := FromStart(RELEASED);
  }

  lemma FromStart(s: State) returns (actions: seq<Action>)
    requires Ext([], s)
    ensures OrderlyRun(actions) && Run(actions) == s
  {
    actions :| Continues([], actions) && Run([] + actions) == s;
    assert [] + actions == actions;
    OrderlySnoc([], actions);
  }

  lemma RiskyHere(e: Env)
    ensures RELEASED.phase == Events && Polite(RELEASED, DataConnected(0, e)) && Risky(RELEASED, 0, e)
  {
  }

  /** There is such a run: the client sends PASV twice and connects to the first listener. */
  lemma {:induction false} ReleasedListenerFails(e: Env)
    ensures exists actions :: OrderlyRun(actions) && Polite(Run(actions), DataConnected(0, e))
                              && CanFail(actions + [DataConnected(0, e)])
  {
    var actions := ReleasedRun();
    RiskyHere(e);
    ConnectFailsExactly(actions, 0, e);
  }
}
