/**
 In every run of the transfer machinery, whatever the commands and however they overlap, bytes read
 through a descriptor that an abort had closed (and the system may have handed out again) are never
 sent: generations only grow, and every close moves to the next one.
 */
module StaleResults {
  import opened Sequences
  import Tcp
  import Bytes
  import opened Transfer
  import opened Wrappers

  /** A descriptor, if there is one, still means the file it was opened for. */
  predicate Valid(table: map<nat, OpenFile>, fd: Option<Descriptor>) { fd.Some? ==> StillOpen(table, fd.value) }

  predicate TaskOk(gen: nat, table: map<nat, OpenFile>, t: Task) {
    && t.gen <= gen
    && (t.gen == gen ==>
          && (t.outcome.Some? ==> t.outcome.value.clean)
          && (t.job.ReadAt? ==> Valid(table, t.job.fd)))
  }

  predicate FunctorOk(gen: nat, f: Functor) {
    f.Ready? ==> f.gen <= gen && (f.gen == gen ==> f.outcome.clean)
  }

  ghost predicate FlightsOk(s: State) {
    && (forall t :: t in s.pool ==> TaskOk(s.gen, s.table, t))
    && (forall f :: f in s.queue ==> FunctorOk(s.gen, f))
    && Valid(s.table, s.fd)
  }

  ghost predicate NothingStaleSent(s: State) {
    forall o :: o in s.sent ==> o.clean
  }

  ghost predicate Inv(s: State) { FlightsOk(s) && NothingStaleSent(s) }

  lemma AbortKeeps(s: State)
    requires Inv(s)
    ensures Inv(Abort(s)) && forall t :: t in s.pool ==> t.gen < Abort(s).gen
  {
  }

  lemma NextGeneration(s: State, t: State)
    requires Inv(s) && t.gen == s.gen + 1
    requires t.pool == s.pool && t.queue == s.queue && t.fd == s.fd && t.table == s.table && t.sent == s.sent
    ensures Inv(t)
  {
  }

  /** Changes that touch neither the generation, the descriptors, the disk work nor the queue. */
  lemma SameKeeps(s: State, t: State)
    requires Inv(s) && t.gen == s.gen && t.fd == s.fd && t.table == s.table && t.pool == s.pool
    requires t.sent == s.sent && t.queue == s.queue
    ensures Inv(t)
  {
  }

  lemma EnqueueKeeps(s: State, f: Functor)
    requires Inv(s) && FunctorOk(s.gen, f)
    ensures Inv(Enqueue(s, f))
  {
  }

  lemma DropDataKeeps(s: State)
    requires Inv(s)
    ensures Inv(DropData(s))
  {
    if s.data.Some? && s.data.value in s.conns && Tcp.Open(s.conns[s.data.value].tcp) {
      var c := s.data.value;
      var t := SetTcp(s, c, Tcp.ForceClose(s.conns[c].tcp));
      SameKeeps(s, t);
      EnqueueKeeps(t, Close(c));
    }
  }

  lemma GiveUpKeeps(s: State, code: nat)
    requires Inv(s)
    ensures Inv(GiveUp(s, code))
  {
    AbortKeeps(Say(s, Code(code)));
    DropDataKeeps(Abort(Say(s, Code(code))));
  }

  lemma SentFrame(s: State, o: Outcome, r: Tcp.WriteResult)
    requires DataUp(s)
    ensures var t := Sent(s, o, r);
            && t.gen == s.gen && t.fd == s.fd && t.table == s.table && t.pool == s.pool
            && t.queue == s.queue && t.sent == s.sent + [o]
  {
  }

  lemma SendKeeps(s: State, o: Outcome, r: Tcp.WriteResult)
    requires Inv(s) && DataUp(s) && o.clean
    ensures Inv(SendChunk(s, o, r))
  {
    SentFrame(s, o, r);
    var t := Sent(s, o, r);
    SameKeeps(s, t.(sent := s.sent));
    assert Inv(t);
    EnqueueKeeps(t, Complete(s.data.value, true));
  }

  lemma ChunkReadyKeeps(s: State, gen: nat, o: Outcome, e: Env)
    requires Inv(s) && (gen == s.gen ==> o.clean)
    ensures Inv(ChunkReady(s, gen, o, e))
  {
    if gen == s.gen && s.xfer != Nothing {
      GiveUpKeeps(s, 550);
      if s.data.Some? && s.data.value in s.conns {
        SameKeeps(s, Ended(s, s.data.value, o.limit));
      }
      if DataUp(s) {
        SendKeeps(s, o, e.write);
      }
    }
  }

  lemma RequestKeeps(s: State, e: Env)
    requires Inv(s)
    ensures Inv(Request(s, e))
  {
    GiveUpKeeps(s, 451);
    SubmitKeeps(s);
    if s.xfer == Listing {
      ChunkReadyKeeps(s, s.gen, END_OF_LIST, e);
    }
  }

  lemma SubmitKeeps(s: State)
    requires Inv(s)
    ensures Inv(Submit(s))
  {
  }

  lemma OpenKeeps(s: State, num: nat)
    requires Inv(s) && DataUp(s) && num !in s.table
    ensures Inv(OpenTarget(s, num))
  {
  }

  lemma TryStartKeeps(s: State, e: Env)
    requires Inv(s)
    ensures Inv(TryStart(s, e))
  {
    if DataUp(s) {
      DropDataKeeps(Say(s, Code(550)));
      if s.xfer == Listing {
        RequestKeeps(s, e);
      } else if e.fdNum !in s.table {
        OpenKeeps(s, e.fdNum);
        RequestKeeps(OpenTarget(s, e.fdNum), e);
      }
    }
  }

  lemma CloseConnKeeps(s: State, c: ConnId)
    requires Inv(s)
    ensures Inv(CloseConn(s, c))
  {
    if c in s.conns && Tcp.Open(s.conns[c].tcp) {
      var t := SetTcp(s, c, Tcp.HandleClose(s.conns[c].tcp));
      SameKeeps(s, t);
      DownKeeps(t);
    }
  }

  lemma DownKeeps(s: State)
    requires Inv(s)
    ensures Inv(Down(s))
  {
    var t := if s.xfer == Nothing then s else Say(s, DownReply(s));
    AbortKeeps(t);
    EnqueueKeeps(Abort(t), CloseServer);
  }

  lemma ReadTaskKeeps(s: State, i: nat, n: nat, error: bool, listing: seq<Bytes.byte>, stray: seq<Bytes.byte>)
    requires Inv(s) && i < |s.pool|
    ensures Inv(ReadTask(s, i, n, error, listing, stray))
  {
    var p := ReadTask(s, i, n, error, listing, stray).pool;
    assert s.pool[i] in s.pool;
    assert forall t :: t in p ==> t in s.pool || t == p[i];
  }

  lemma QueueTaskKeeps(s: State, i: nat)
    requires Inv(s) && i < |s.pool| && s.pool[i].outcome.Some?
    ensures Inv(QueueTask(s, i))
  {
    assert s.pool[i] in s.pool;
    assert forall t :: t in RemoveAt(s.pool, i) ==> t in s.pool;
  }

  lemma ReleaseKeeps(s: State)
    requires Inv(s)
    ensures Inv(Release(s))
  {
    SameKeeps(s, s.(data := None));
    if s.server.Some? {
      SameKeeps(s, s.(data := None).(server := None));
      EnqueueKeeps(s.(data := None).(server := None), DeleteServer(s.server.value));
    }
  }

  lemma PopKeeps(s: State)
    requires Inv(s) && s.queue != []
    ensures Inv(Pop(s))
  {
    assert forall g :: g in s.queue[1..] ==> g in s.queue;
  }

  lemma RunHeadKeeps(s: State, e: Env)
    requires Inv(s) && s.queue != []
    ensures Inv(RunHead(s, e))
  {
    var f := s.queue[0];
    assert f in s.queue;
    PopKeeps(s);
    match f {
      case Ready(gen, o) => ChunkReadyKeeps(Pop(s), gen, o, e);
      case Complete(c, bound) => RequestKeeps(Pop(s), e);
      case Close(c) => CloseConnKeeps(Pop(s), c);
      case CloseServer => ReleaseKeeps(Pop(s));
      case DeleteServer(sv) => CloseConnKeeps(s, e.victim);
    }
  }

  lemma AcceptKeeps(s: State, to: ServerId, e: Env)
    requires Inv(s)
    ensures Inv(AcceptConn(s, to, e))
  {
    SameKeeps(s, Adopt(s, to));
    TryStartKeeps(Adopt(s, to), e);
  }

  lemma CommandKeeps(s: State, a: Action)
    requires Inv(s) && (a.ListCommand? || a.RetrCommand?)
    ensures Inv(Event(s, a))
  {
    SameKeeps(s, Say(s, Code(425)));
    if a.ListCommand? {
      NextGeneration(s, BeginList(s));
      TryStartKeeps(BeginList(s), a.e);
    } else {
      NextGeneration(s, BeginRetr(s, a.file));
      TryStartKeeps(BeginRetr(s, a.file), a.e);
    }
  }

  lemma EventKeeps(s: State, a: Action)
    requires Inv(s)
    ensures Inv(Event(s, a))
  {
    if a.ListCommand? || a.RetrCommand? {
      CommandKeeps(s, a);
    } else if a.DataConnected? {
      AcceptKeeps(s, a.to, a.e);
    } else if a.DataEof? {
      CloseConnKeeps(s, a.conn);
    } else if a.DataWritable? {
      WritableKeeps(s, a.conn, a.r);
    } else if a.Pasv? {
      ReleaseKeeps(s);
      SameKeeps(if s.server.Some? then Release(s) else s, Listen(s));
    } else {
      SameKeeps(s, Say(s, Code(425)));
      ReleaseKeeps(Say(s, Code(425)));
    }
  }

  lemma WritableKeeps(s: State, c: ConnId, r: Tcp.WriteResult)
    requires Inv(s)
    ensures Inv(WritableConn(s, c, r))
  {
    if c in s.conns {
      var t := SetTcp(s, c, Tcp.HandleWrite(s.conns[c].tcp, r));
      SameKeeps(s, t);
      EnqueueKeeps(t, Complete(c, false));
    }
  }

  lemma StepKeeps(s: State, a: Action)
    requires Inv(s)
    ensures Inv(Step(s, a))
  {
    match a {
      case DiskRead(i, n, error, listing, stray) =>
        if i < |s.pool| {
          ReadTaskKeeps(s, i, n, error, listing, stray);
        }
      case DiskQueue(i) =>
        if i < |s.pool| && s.pool[i].outcome.Some? {
          QueueTaskKeeps(s, i);
        }
      case RunFunctor(e) =>
        if s.queue != [] {
          RunHeadKeeps(s, e);
        }
      case _ => EventKeeps(s, a);
    }
  }

  lemma {:induction false} RunKeeps(actions: seq<Action>)
    ensures Inv(Run(actions))
  {
    if actions != [] {
      RunKeeps(actions[..|actions| - 1]);
      StepKeeps(Run(actions[..|actions| - 1]), actions[|actions| - 1]);
    }
  }

  /**
   No run sends what was read through a descriptor closed since its transfer began, and what the disk
   pool still holds of the present transfer is being read through the descriptor opened for it.
   */
  lemma {:induction false} StaleNeverSent(actions: seq<Action>)
    ensures var s := Run(actions);
            && (forall o :: o in s.sent ==> o.clean)
            && (forall t :: t in s.pool && t.gen == s.gen && t.job.ReadAt? ==> Valid(s.table, t.job.fd))
            && (forall t :: t in s.pool ==> t.gen <= s.gen)
  {
    RunKeeps(actions);
  }

  // ---------------------------------------------------------------------------------------------
  // Generations
  // ---------------------------------------------------------------------------------------------

  /** Generations do not go back, and a descriptor that was closed or means another file has moved them on. */
  ghost predicate Later(s: State, t: State) {
    && s.gen <= t.gen
    && (s.gen == t.gen ==> forall num :: num in s.table ==> num in t.table && t.table[num] == s.table[num])
  }

  lemma GiveUpLater(s: State, code: nat)
    ensures Later(s, GiveUp(s, code))
  {
  }

  lemma SendLater(s: State, o: Outcome, r: Tcp.WriteResult)
    requires DataUp(s)
    ensures Later(s, SendChunk(s, o, r))
  {
    SentFrame(s, o, r);
  }

  lemma ChunkReadyLater(s: State, gen: nat, o: Outcome, e: Env)
    ensures Later(s, ChunkReady(s, gen, o, e))
  {
    GiveUpLater(s, 550);
    if DataUp(s) {
      SendLater(s, o, e.write);
    }
  }

  lemma RequestLater(s: State, e: Env)
    ensures Later(s, Request(s, e))
  {
    GiveUpLater(s, 451);
    ChunkReadyLater(s, s.gen, END_OF_LIST, e);
  }

  lemma LaterAgain(s: State, t: State, u: State)
    requires Later(s, t) && Later(t, u)
    ensures Later(s, u)
  {
  }

  lemma OpenLater(s: State, num: nat)
    requires DataUp(s) && num !in s.table
    ensures Later(s, OpenTarget(s, num))
  {
  }

  lemma RefusedLater(s: State)
    ensures Later(s, Enqueue(DropData(Say(s, Code(550))), CloseServer))
  {
  }

  lemma TryStartLater(s: State, e: Env)
    ensures Later(s, TryStart(s, e))
  {
    RefusedLater(s);
    if DataUp(s) && s.xfer != Nothing {
      if s.xfer == Listing {
        RequestLater(s, e);
      } else if e.fdNum !in s.table {
        OpenLater(s, e.fdNum);
        RequestLater(OpenTarget(s, e.fdNum), e);
        LaterAgain(s, OpenTarget(s, e.fdNum), Request(OpenTarget(s, e.fdNum), e));
      }
    }
  }

  lemma CloseConnLater(s: State, c: ConnId)
    ensures Later(s, CloseConn(s, c))
  {
  }

  lemma PopLater(s: State)
    requires s.queue != []
    ensures Later(s, Pop(s)) && Later(s, Pop(s).(failed := true)) && Later(s, Release(Pop(s)))
  {
  }

  lemma DestroyLater(s: State, sv: ServerId, victim: ConnId)
    requires s.queue != []
    ensures Later(s, DestroyOne(s, sv, victim))
  {
    CloseConnLater(s, victim);
    PopLater(s);
  }

  lemma RunHeadLater(s: State, e: Env)
    requires s.queue != []
    ensures Later(s, RunHead(s, e))
  {
    PopLater(s);
    var p := Pop(s);
    match s.queue[0] {
      case Ready(gen, o) =>
        ChunkReadyLater(p, gen, o, e);
        LaterAgain(s, p, ChunkReady(p, gen, o, e));
      case Complete(_, _) =>
        RequestLater(p, e);
        LaterAgain(s, p, Request(p, e));
      case Close(c) =>
        CloseConnLater(p, c);
        LaterAgain(s, p, CloseConn(p, c));
      case CloseServer =>
      case DeleteServer(sv) => DestroyLater(s, sv, e.victim);
    }
  }

  lemma EventLater(s: State, a: Action)
    ensures Later(s, Event(s, a))
  {
    match a {
      case ListCommand(e) => TryStartLater(BeginList(s), e);
      case RetrCommand(file, e) => TryStartLater(BeginRetr(s, file), e);
      case DataConnected(to, e) => TryStartLater(Adopt(s, to), e);
      case DataEof(c) => CloseConnLater(s, c);
      case _ =>
    }
  }

  /** In every step: generations only grow, and whatever closes a descriptor moves to the next one. */
  lemma {:induction false} EveryCloseMovesOn(s: State, a: Action)
    ensures Later(s, Step(s, a))
  {
    match a {
      case RunFunctor(e) =>
        if s.queue != [] {
          RunHeadLater(s, e);
        }
      case DiskRead(_, _, _, _, _) =>
      case DiskQueue(_) =>
      case BeginFunctors =>
      case EndFunctors =>
      case _ => EventLater(s, a);
    }
  }
}
