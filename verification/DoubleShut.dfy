/**
 When `shutdown` can shut the write side of a connection twice. Sends that other threads made before it are
 still deferred then, and are not turned away by a connection that is only disconnecting.
 */
module DoubleShut {
  import opened Bytes
  import opened Tcp

  function RunFrom(s: System, actions: seq<Action>): System
    decreases actions
  {
    if actions == [] then s else RunFrom(Step(s, actions[0]), actions[1..])
  }

  lemma {:induction false} RunOn(actions: seq<Action>, more: seq<Action>)
    ensures Run(actions + more) == RunFrom(Run(actions), more)
    decreases more
  {
    if more == [] {
      assert actions + more == actions;
    } else {
      var a, rest := more[0], more[1..];
      RunSnoc(actions, a);
      RunOn(actions + [a], rest);
      assert actions + [a] + rest == actions + more;
    }
  }

  /** A deferred send with something to send. */
  predicate Loaded(d: Deferred) { d.SendLater? && d.msg != [] }

  predicate AnyLoaded(ds: seq<Deferred>) { exists i :: 0 <= i < |ds| && Loaded(ds[i]) }

  // ---------------------------------------------------------------------------------------------
  // Before the shutdown
  // ---------------------------------------------------------------------------------------------

  /** While connected nothing was shut, and only sends are deferred. */
  predicate FreshOk(s: System) {
    s.conn.state in {Connecting, Connected} ==>
      s.conn.shuts == 0 && forall i :: 0 <= i < |s.deferred| ==> s.deferred[i].SendLater?
  }

  lemma StepFresh(s: System, a: Action)
    requires FreshOk(s)
    ensures FreshOk(Step(s, a))
  {
  }

  lemma {:induction false} RunFresh(actions: seq<Action>)
    ensures FreshOk(Run(actions))
  {
    if actions != [] {
      RunFresh(actions[..|actions| - 1]);
      StepFresh(Run(actions[..|actions| - 1]), actions[|actions| - 1]);
    }
  }

  // ---------------------------------------------------------------------------------------------
  // Nothing loaded: once at most
  // ---------------------------------------------------------------------------------------------

  function Pending(ds: seq<Deferred>): nat {
    if ds == [] then 0 else (if ds[0] == ShutdownLater then 1 else 0) + Pending(ds[1..])
  }

  lemma {:induction false} PendingSnoc(ds: seq<Deferred>, d: Deferred)
    ensures Pending(ds + [d]) == Pending(ds) + if d == ShutdownLater then 1 else 0
  {
    if ds != [] {
      PendingSnoc(ds[1..], d);
      assert (ds + [d])[1..] == ds[1..] + [d];
    }
  }

  lemma {:induction false} NonePending(ds: seq<Deferred>)
    requires forall i :: 0 <= i < |ds| ==> ds[i].SendLater?
    ensures Pending(ds) == 0
  {
    if ds != [] {
      NonePending(ds[1..]);
    }
  }

  /** Shuts done, queued, and due once the output has drained. */
  function Tally(s: System): nat { s.conn.shuts + Pending(s.deferred) + if s.conn.out != [] then 1 else 0 }

  predicate Settled(s: System) {
    && StreamOk(s.conn) && s.conn.state in {Disconnecting, Disconnected}
    && (forall i :: 0 <= i < |s.deferred| ==> !Loaded(s.deferred[i])) && Tally(s) <= 1
  }

  lemma DeferredSettled(s: System, r: WriteResult)
    requires Settled(s)
    ensures Settled(Step(s, RunDeferred(r)))
  {
    if s.deferred != [] {
      var d, rest := s.deferred[0], s.deferred[1..];
      assert forall i :: 0 <= i < |rest| ==> rest[i] == s.deferred[i + 1];
      assert !Loaded(d);
      if d.SendLater? {
        SendNothing(s.conn, r);
      }
    }
  }

  /** An empty send leaves everything but the list of messages. */
  lemma SendNothing(c: Conn, r: WriteResult)
    requires StreamOk(c)
    ensures var e := SendInLoop(c, [], r);
            StreamOk(e) && e.out == c.out && e.writing == c.writing && e.shuts == c.shuts && e.state == c.state
  {
    SendKeepsStream(c, [], r);
    if c.state != Disconnected {
      SendParts(c, [], r);
    }
  }

  lemma StepSettled(s: System, a: Action)
    requires Settled(s)
    ensures Settled(Step(s, a))
  {
    match a {
      case Writable(r) => WriteKeepsStream(s.conn, r);
      case RunDeferred(r) => DeferredSettled(s, r);
      case ForceCloseAnywhere => PendingSnoc(s.deferred, ForceCloseLater);
      case _ =>
    }
  }

  lemma {:induction false} StaysSettled(s: System, more: seq<Action>)
    requires Settled(s)
    ensures Settled(RunFrom(s, more))
    decreases more
  {
    if more != [] {
      StepSettled(s, more[0]);
      StaysSettled(Step(s, more[0]), more[1..]);
    }
  }

  // ---------------------------------------------------------------------------------------------
  // Something loaded: twice in some continuation
  // ---------------------------------------------------------------------------------------------

  /** Some continuation shuts the write side `n` times in all. */
  ghost predicate Leads(s: System, n: nat) { exists more :: RunFrom(s, more).conn.shuts >= n }

  lemma LeadsNow(s: System)
    ensures Leads(s, s.conn.shuts)
  {
    assert RunFrom(s, []) == s;
  }

  lemma LeadsBack(s: System, a: Action, n: nat)
    requires Leads(Step(s, a), n)
    ensures Leads(s, n)
  {
    var more :| RunFrom(Step(s, a), more).conn.shuts >= n;
    var all := [a] + more;
    assert all[1..] == more;
    assert RunFrom(s, all) == RunFrom(Step(s, a), more);
  }

  /** Shut down or about to be, with nothing buffered, and `n` sends deferred in front. */
  predicate Draining(s: System, n: nat) {
    && s.conn.state == Disconnecting && s.conn.out == [] && !s.conn.writing
    && n <= |s.deferred| && forall i :: 0 <= i < n ==> s.deferred[i].SendLater?
  }

  lemma SendWhole(s: System, n: nat)
    requires Draining(s, n) && n > 0
    ensures var t := Step(s, RunDeferred(Wrote(|s.deferred[0].msg|)));
            Draining(t, n - 1) && t.deferred == s.deferred[1..] && t.conn.shuts == s.conn.shuts
  {
    SendParts(s.conn, s.deferred[0].msg, Wrote(|s.deferred[0].msg|));
  }

  /** The sends in front go out whole and the deferred shutdown shuts. */
  lemma {:induction false} ShutComes(s: System, n: nat)
    requires Draining(s, n) && n < |s.deferred| && s.deferred[n] == ShutdownLater
    ensures Leads(s, s.conn.shuts + 1)
    decreases n
  {
    if n == 0 {
      LeadsNow(Step(s, RunDeferred(WouldBlock)));
      LeadsBack(s, RunDeferred(WouldBlock), s.conn.shuts + 1);
    } else {
      var r := RunDeferred(Wrote(|s.deferred[0].msg|));
      SendWhole(s, n);
      ShutComes(Step(s, r), n - 1);
      LeadsBack(s, r, s.conn.shuts + 1);
    }
  }

  /** A loaded send finds the kernel full, waits in the buffer, and its drain shuts once more. */
  lemma SlowSend(s: System)
    requires Draining(s, 1) && Loaded(s.deferred[0])
    ensures var m := s.deferred[0].msg;
            var t := Step(Step(s, RunDeferred(WouldBlock)), Writable(Wrote(|m|)));
            t.conn.state == Disconnecting && t.conn.out == [] && !t.conn.writing
            && t.deferred == s.deferred[1..] && t.conn.shuts == s.conn.shuts + 1
  {
    var m := s.deferred[0].msg;
    SendParts(s.conn, m, WouldBlock);
    var w := Step(s, RunDeferred(WouldBlock));
    assert [] + m[0..] == m;
    assert w.conn.out == m && w.conn.writing;
    assert m[|m|..] == [];
  }

  /** With a loaded send deferred at `j` the drain after it shuts; a deferred shutdown behind it shuts again. */
  lemma {:induction false} LoadedShuts(s: System, j: nat, n: nat)
    requires Draining(s, n) && j < n && Loaded(s.deferred[j])
    ensures Leads(s, s.conn.shuts + 1)
    ensures n < |s.deferred| && s.deferred[n] == ShutdownLater ==> Leads(s, s.conn.shuts + 2)
    decreases j
  {
    if j == 0 {
      SlowSend(s);
      var w := Step(s, RunDeferred(WouldBlock));
      var a := Writable(Wrote(|s.deferred[0].msg|));
      var t := Step(w, a);
      LeadsNow(t);
      LeadsBack(w, a, s.conn.shuts + 1);
      LeadsBack(s, RunDeferred(WouldBlock), s.conn.shuts + 1);
      if n < |s.deferred| && s.deferred[n] == ShutdownLater {
        ShutComes(t, n - 1);
        LeadsBack(w, a, s.conn.shuts + 2);
        LeadsBack(s, RunDeferred(WouldBlock), s.conn.shuts + 2);
      }
    } else {
      var r := RunDeferred(Wrote(|s.deferred[0].msg|));
      SendWhole(s, n);
      LoadedShuts(Step(s, r), j - 1, n - 1);
      LeadsBack(s, r, s.conn.shuts + 1);
      if n < |s.deferred| && s.deferred[n] == ShutdownLater {
        LeadsBack(s, r, s.conn.shuts + 2);
      }
    }
  }

  /** Buffered output drains, and that shuts. */
  lemma DrainShuts(s: System)
    requires StreamOk(s.conn) && s.conn.state == Disconnecting && s.conn.out != []
    ensures var t := Step(s, Writable(Wrote(|s.conn.out|)));
            t.conn.state == Disconnecting && t.conn.out == [] && !t.conn.writing
            && t.deferred == s.deferred && t.conn.shuts == s.conn.shuts + 1
  {
    assert s.conn.out[|s.conn.out|..] == [];
  }

  // ---------------------------------------------------------------------------------------------
  // The exact conditions
  // ---------------------------------------------------------------------------------------------

  lemma ElsewhereTwice(s: System)
    requires StreamOk(s.conn) && FreshOk(s) && s.conn.state == Connected
    requires s.conn.out != [] || AnyLoaded(s.deferred)
    ensures Leads(Step(s, ShutdownElsewhere), 2)
  {
    var t := Step(s, ShutdownElsewhere);
    var n := |s.deferred|;
    assert forall i :: 0 <= i < n ==> t.deferred[i] == s.deferred[i];
    if s.conn.out != [] {
      DrainShuts(t);
      var a := Writable(Wrote(|t.conn.out|));
      ShutComes(Step(t, a), n);
      LeadsBack(t, a, 2);
    } else {
      var j :| 0 <= j < n && Loaded(s.deferred[j]);
      LoadedShuts(t, j, n);
    }
  }

  lemma HereTwice(s: System)
    requires StreamOk(s.conn) && FreshOk(s) && s.conn.state == Connected && AnyLoaded(s.deferred)
    ensures Leads(Step(s, ShutdownHere), 2)
  {
    var t := Step(s, ShutdownHere);
    var j :| 0 <= j < |s.deferred| && Loaded(s.deferred[j]);
    if s.conn.out != [] {
      DrainShuts(t);
      var a := Writable(Wrote(|t.conn.out|));
      LoadedShuts(Step(t, a), j, |s.deferred|);
      LeadsBack(t, a, 2);
    } else {
      LoadedShuts(t, j, |s.deferred|);
    }
  }

  lemma OnceOnly(s: System, a: Action)
    requires StreamOk(s.conn) && FreshOk(s) && s.conn.state == Connected && !AnyLoaded(s.deferred)
    requires a == ShutdownHere || (a == ShutdownElsewhere && s.conn.out == [])
    ensures !Leads(Step(s, a), 2)
  {
    var t := Step(s, a);
    NonePending(s.deferred);
    PendingSnoc(s.deferred, ShutdownLater);
    assert Settled(t);
    forall more ensures RunFrom(t, more).conn.shuts <= 1 {
      StaysSettled(t, more);
    }
  }

  /** Some continuation of the run shuts the write side at least twice. */
  ghost predicate ShutsTwice(actions: seq<Action>) { exists more :: Run(actions + more).conn.shuts >= 2 }

  lemma TwiceIsLeads(actions: seq<Action>)
    ensures ShutsTwice(actions) <==> Leads(Run(actions), 2)
  {
    if ShutsTwice(actions) {
      var more :| Run(actions + more).conn.shuts >= 2;
      RunOn(actions, more);
    }
    if Leads(Run(actions), 2) {
      var more :| RunFrom(Run(actions), more).conn.shuts >= 2;
      RunOn(actions, more);
    }
  }

  /**
   A shutdown from another thread can shut twice exactly when something is buffered, or a send of another
   thread with something in it is still deferred.
   */
  lemma {:induction false} ForeignShutdownTwice(actions: seq<Action>)
    requires Run(actions).conn.state == Connected
    ensures var s := Run(actions);
            ShutsTwice(actions + [ShutdownElsewhere]) <==> s.conn.out != [] || AnyLoaded(s.deferred)
  {
    SendStream(actions);
    RunFresh(actions);
    RunSnoc(actions, ShutdownElsewhere);
    TwiceIsLeads(actions + [ShutdownElsewhere]);
    var s := Run(actions);
    if s.conn.out != [] || AnyLoaded(s.deferred) {
      ElsewhereTwice(s);
    } else {
      OnceOnly(s, ShutdownElsewhere);
    }
  }

  /** On the loop's own thread it can exactly when such a send is deferred; what is buffered does not matter. */
  lemma {:induction false} LoopShutdownTwice(actions: seq<Action>)
    requires Run(actions).conn.state == Connected
    ensures ShutsTwice(actions + [ShutdownHere]) <==> AnyLoaded(Run(actions).deferred)
  {
    SendStream(actions);
    RunFresh(actions);
    RunSnoc(actions, ShutdownHere);
    TwiceIsLeads(actions + [ShutdownHere]);
    if AnyLoaded(Run(actions).deferred) {
      HereTwice(Run(actions));
    } else {
      OnceOnly(Run(actions), ShutdownHere);
    }
  }

  /** The shortest runs: one byte that the kernel would not take yet, and one byte sent by another thread. */
  lemma {:induction false} TwiceShut(b: byte)
    ensures ShutsTwice([Up, SendHere([b], WouldBlock), ShutdownElsewhere])
    ensures ShutsTwice([Up, SendElsewhere([b]), ShutdownHere])
  {
    var up := [Up];
    RunSnoc([], Up);
    assert [] + [Up] == up;
    RunSnoc(up, SendHere([b], WouldBlock));
    RunSnoc(up, SendElsewhere([b]));
    var buffered, queued := up + [SendHere([b], WouldBlock)], up + [SendElsewhere([b])];
    ForeignShutdownTwice(buffered);
    assert Loaded(Run(queued).deferred[0]);
    LoopShutdownTwice(queued);
    assert buffered + [ShutdownElsewhere] == [Up, SendHere([b], WouldBlock), ShutdownElsewhere];
    assert queued + [ShutdownHere] == [Up, SendElsewhere([b]), ShutdownHere];
  }
}
