/**
 The session's file descriptor: in runs without overlapping transfers at most one is open, it belongs to
 the RETR in progress, and none is left when no transfer is.
 */
module Descriptors {
  import Tcp
  import opened Transfer
  import Retrieve

  /** The table holds the session's descriptor and no other. */
  predicate Held(s: State) { s.table.Keys == if s.fd.Some? then {s.fd.value.num} else {} }

  predicate FdOk(s: State) { Held(s) && (s.fd.Some? ==> s.xfer == Retrieving && s.offset > 0) }

  /** These fields decide. */
  lemma Same(s: State, t: State)
    requires FdOk(s) && t.fd == s.fd && t.table == s.table && t.xfer == s.xfer && t.offset >= s.offset
    ensures FdOk(t)
  {
  }

  lemma GiveUpFd(s: State, code: nat)
    requires Held(s)
    ensures FdOk(GiveUp(s, code))
  {
    assert Abort(Say(s, Code(code))).table.Keys == {};
  }

  lemma SendFd(s: State, o: Outcome, r: Tcp.WriteResult)
    requires FdOk(s) && DataUp(s)
    ensures FdOk(SendChunk(s, o, r))
  {
    Same(s, Sent(s, o, r));
  }

  lemma ChunkReadyFd(s: State, gen: nat, o: Outcome, e: Env)
    requires FdOk(s)
    ensures FdOk(ChunkReady(s, gen, o, e))
  {
    GiveUpFd(s, 550);
    if s.data.Some? && s.data.value in s.conns {
      EndedFd(s, s.data.value, o.limit);
      if DataUp(s) {
        SendFd(s, o, e.write);
      }
    }
  }

  lemma EndedFd(s: State, c: ConnId, limit: nat)
    requires FdOk(s) && c in s.conns
    ensures FdOk(Ended(s, c, limit))
  {
    Same(s, Ended(s, c, limit));
  }

  lemma RequestFd(s: State, e: Env)
    requires Held(s) && s.xfer != Nothing && DataUp(s) && (s.fd.Some? ==> s.xfer == Retrieving)
    ensures FdOk(Request(s, e))
  {
    GiveUpFd(s, 451);
    if s.xfer == Listing {
      ChunkReadyFd(s, s.gen, END_OF_LIST, e);
    }
  }

  /** A transfer is started only with no descriptor open. */
  lemma TryStartFd(s: State, e: Env)
    requires FdOk(s) && s.fd.None?
    ensures FdOk(TryStart(s, e))
  {
    if DataUp(s) && s.xfer != Nothing {
      if s.xfer == Listing {
        RequestFd(s, e);
      } else if e.fdNum !in s.table {
        RequestFd(OpenTarget(s, e.fdNum), e);
      }
    }
  }

  lemma CloseConnFd(s: State, c: ConnId)
    requires FdOk(s)
    ensures FdOk(CloseConn(s, c))
  {
    if c in s.conns && Tcp.Open(s.conns[c].tcp) {
      var t := SetTcp(s, c, Tcp.HandleClose(s.conns[c].tcp));
      var u := if t.xfer == Nothing then t else Say(t, DownReply(t));
      assert Abort(u).table.Keys == {};
    }
  }

  lemma AgainFd(s: State, e: Env)
    requires FdOk(s)
    ensures FdOk(Request(s, e))
  {
    if s.xfer != Nothing && DataUp(s) {
      RequestFd(s, e);
    }
  }

  lemma DestroyFd(s: State, sv: ServerId, victim: ConnId)
    requires FdOk(s) && s.queue != []
    ensures FdOk(DestroyOne(s, sv, victim))
  {
    CloseConnFd(s, victim);
    Same(s, Pop(s));
  }

  lemma RunHeadFd(s: State, e: Env)
    requires FdOk(s) && s.queue != []
    ensures FdOk(RunHead(s, e))
  {
    var p := Pop(s);
    Same(s, p);
    match s.queue[0] {
      case Ready(gen, o) => ChunkReadyFd(p, gen, o, e);
      case Complete(_, _) => AgainFd(p, e);
      case Close(c) => CloseConnFd(p, c);
      case CloseServer => Same(p, Release(p));
      case DeleteServer(sv) => DestroyFd(s, sv, e.victim);
    }
  }

  /** A first connection finds no file open: what was running on another one is over. */
  lemma NoneBeforeConnection(s: State, to: ServerId, e: Env)
    requires FdOk(s) && Retrieve.Inv(s) && s.phase == Events && Retrieve.Polite(s, DataConnected(to, e))
    ensures s.fd.None?
  {
    if s.fd.Some? {
      Retrieve.NoneOpen(s, to, e, s.active.value);
    }
  }

  lemma EventFd(s: State, a: Action)
    requires FdOk(s) && Retrieve.Polite(s, a) && (a.DataConnected? ==> s.fd.None?)
    ensures FdOk(Event(s, a))
  {
    match a {
      case ListCommand(e) => TryStartFd(BeginList(s), e);
      case RetrCommand(file, e) => TryStartFd(BeginRetr(s, file), e);
      case DataConnected(to, e) => TryStartFd(Adopt(s, to), e);
      case DataEof(c) => CloseConnFd(s, c);
      case _ =>
    }
  }

  lemma StepFd(s: State, a: Action)
    requires FdOk(s) && Retrieve.Inv(s) && Retrieve.Polite(s, a)
    ensures FdOk(Step(s, a))
  {
    match a {
      case RunFunctor(e) =>
        if s.queue != [] {
          RunHeadFd(s, e);
        }
      case DiskRead(_, _, _, _, _) =>
      case DiskQueue(_) =>
      case BeginFunctors =>
      case EndFunctors =>
      case DataConnected(to, e) =>
        if s.phase == Events {
          NoneBeforeConnection(s, to, e);
          EventFd(s, a);
        }
      case _ => EventFd(s, a);
    }
  }

  lemma {:induction false} RunFd(actions: seq<Action>)
    requires Retrieve.PoliteRun(actions)
    ensures FdOk(Run(actions))
  {
    if actions != [] {
      var n := |actions| - 1;
      var before := actions[..n];
      forall k | 0 <= k < n ensures Retrieve.Polite(Run(before[..k]), before[k]) {
        assert before[..k] == actions[..k];
      }
      RunFd(before);
      Retrieve.RunInv(before);
      StepFd(Run(before), actions[n]);
    }
  }

  /** At most one descriptor is open, it is the running RETR's, and nothing leaks between transfers. */
  lemma {:induction false} NothingLeaks(actions: seq<Action>)
    requires Retrieve.PoliteRun(actions)
    ensures var s := Run(actions);
            && |s.table| <= 1
            && (s.xfer != Retrieving ==> s.table == map[])
            && (s.fd.Some? <==> s.table != map[])
  {
    RunFd(actions);
    var s := Run(actions);
    assert |s.table| == |s.table.Keys|;
  }
}
