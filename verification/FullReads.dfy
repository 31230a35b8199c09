/**
 Runs in which no read is cut short: every disk read is allowed the whole chunk it asks for. Their RETR
 connections carry in-order prefixes of the file, and "transfer complete" means the whole file.
 */
module FullReads {
  import Tcp
  import opened Transfer
  import opened Retrieve
  import opened Wrappers

  predicate FullRead(a: Action) { a.DiskRead? ==> a.n >= CHUNK }

  predicate Full(sizes: seq<nat>) { forall n :: n in sizes ==> n >= CHUNK }

  predicate TaskFull(t: Task) { t.outcome.Some? ==> t.outcome.value.limit >= CHUNK }

  predicate FunctorFull(f: Functor) { f.Ready? ==> f.outcome.limit >= CHUNK }

  predicate ReplyFull(r: Reply) { r.TransferComplete? ==> Full(r.sizes) }

  predicate ConnsFull(conns: map<ConnId, DataConn>) { forall c :: c in conns ==> Full(conns[c].sizes) }

  predicate AllFull(s: State) {
    && (forall t :: t in s.pool ==> TaskFull(t))
    && (forall f :: f in s.queue ==> FunctorFull(f))
    && ConnsFull(s.conns)
    && (forall r :: r in s.replies ==> ReplyFull(r))
  }

  lemma SameFull(s: State, t: State)
    requires AllFull(s) && t.pool == s.pool && t.queue == s.queue && t.replies == s.replies && ConnsFull(t.conns)
    ensures AllFull(t)
  {
  }

  lemma EnqueueFull(s: State, f: Functor)
    requires AllFull(s) && FunctorFull(f)
    ensures AllFull(Enqueue(s, f))
  {
  }

  lemma SayFull(s: State, r: Reply)
    requires AllFull(s) && ReplyFull(r)
    ensures AllFull(Say(s, r))
  {
  }

  lemma DropFull(s: State)
    requires AllFull(s)
    ensures AllFull(DropData(s))
  {
    if s.data.Some? && s.data.value in s.conns && Tcp.Open(s.conns[s.data.value].tcp) {
      var c := s.data.value;
      var t := SetTcp(s, c, Tcp.ForceClose(s.conns[c].tcp));
      SameFull(s, t);
      EnqueueFull(t, Close(c));
    }
  }

  lemma GiveUpFull(s: State, code: nat)
    requires AllFull(s)
    ensures AllFull(GiveUp(s, code))
  {
    var t := Say(s, Code(code));
    SayFull(s, Code(code));
    SameFull(t, Abort(t));
    DropFull(Abort(t));
    EnqueueFull(DropData(Abort(t)), CloseServer);
  }

  lemma EndedFull(s: State, c: ConnId, limit: nat)
    requires AllFull(s) && c in s.conns && (s.xfer == Retrieving ==> limit >= CHUNK)
    ensures AllFull(Ended(s, c, limit))
  {
    SameFull(s, Ended(s, c, limit));
  }

  lemma SendFull(s: State, o: Outcome, r: Tcp.WriteResult)
    requires AllFull(s) && DataUp(s) && (s.xfer == Retrieving ==> o.limit >= CHUNK)
    ensures AllFull(SendChunk(s, o, r))
  {
    var t := Sent(s, o, r);
    SameFull(s, t);
    EnqueueFull(t, Complete(s.data.value, true));
  }

  lemma ChunkReadyFull(s: State, gen: nat, o: Outcome, e: Env)
    requires AllFull(s) && (s.xfer == Retrieving ==> o.limit >= CHUNK)
    ensures AllFull(ChunkReady(s, gen, o, e))
  {
    GiveUpFull(s, 550);
    SameFull(s, s.(failed := true));
    if s.data.Some? && s.data.value in s.conns {
      EndedFull(s, s.data.value, o.limit);
    }
    if DataUp(s) {
      SendFull(s, o, e.write);
    }
  }

  lemma RequestFull(s: State, e: Env)
    requires AllFull(s)
    ensures AllFull(Request(s, e))
  {
    GiveUpFull(s, 451);
    assert AllFull(Submit(s));
    if s.xfer == Listing {
      ChunkReadyFull(s, s.gen, END_OF_LIST, e);
    }
  }

  lemma TryStartFull(s: State, e: Env)
    requires AllFull(s)
    ensures AllFull(TryStart(s, e))
  {
    if DataUp(s) {
      SayFull(s, Code(550));
      DropFull(Say(s, Code(550)));
      EnqueueFull(DropData(Say(s, Code(550))), CloseServer);
      RequestFull(s, e);
      SameFull(s, OpenTarget(s, e.fdNum));
      RequestFull(OpenTarget(s, e.fdNum), e);
    }
  }

  lemma CloseConnFull(s: State, c: ConnId)
    requires AllFull(s)
    ensures AllFull(CloseConn(s, c))
  {
    if c in s.conns && Tcp.Open(s.conns[c].tcp) {
      var t := SetTcp(s, c, Tcp.HandleClose(s.conns[c].tcp));
      SameFull(s, t);
      DownFull(t);
    }
  }

  lemma DownFull(s: State)
    requires AllFull(s)
    ensures AllFull(Down(s))
  {
    SayFull(s, DownReply(s));
    var t := if s.xfer == Nothing then s else Say(s, DownReply(s));
    SameFull(t, Abort(t));
    EnqueueFull(Abort(t), CloseServer);
  }

  lemma ReleaseFull(s: State)
    requires AllFull(s)
    ensures AllFull(Release(s))
  {
    if s.server.Some? {
      var t := s.(data := None, server := None);
      SameFull(s, t);
      EnqueueFull(t, DeleteServer(s.server.value));
    }
  }

  lemma PopFull(s: State)
    requires AllFull(s) && s.queue != []
    ensures AllFull(Pop(s)) && AllFull(Pop(s).(failed := true)) && FunctorFull(s.queue[0])
  {
    assert forall g :: g in s.queue[1..] ==> g in s.queue;
    assert s.queue[0] in s.queue;
  }

  lemma RunHeadFull(s: State, e: Env)
    requires AllFull(s) && s.queue != []
    ensures AllFull(RunHead(s, e))
  {
    PopFull(s);
    match s.queue[0] {
      case Ready(gen, o) => ChunkReadyFull(Pop(s), gen, o, e);
      case Complete(_, _) => RequestFull(Pop(s), e);
      case Close(c) => CloseConnFull(Pop(s), c);
      case CloseServer => ReleaseFull(Pop(s));
      case DeleteServer(_) =>
        CloseConnFull(s, e.victim);
        SameFull(s, s.(failed := true));
    }
  }

  lemma EventFull(s: State, a: Action)
    requires AllFull(s)
    ensures AllFull(Event(s, a))
  {
    SayFull(s, Code(425));
    ReleaseFull(Say(s, Code(425)));
    match a {
      case Pasv => ListenFull(s);
      case ListCommand(e) =>
        SayFull(s.(gen := s.gen + 1, xfer := Listing), Code(150));
        TryStartFull(BeginList(s), e);
      case RetrCommand(file, e) =>
        SayFull(s.(gen := s.gen + 1, xfer := Retrieving, target := file, offset := 0, done := false), Code(150));
        TryStartFull(BeginRetr(s, file), e);
      case DataConnected(to, e) => AcceptFull(s, to, e);
      case DataEof(c) => CloseConnFull(s, c);
      case DataWritable(c, r) => WritableFull(s, c, r);
      case _ =>
    }
  }

  lemma ListenFull(s: State)
    requires AllFull(s)
    ensures AllFull(Listen(s))
  {
    ReleaseFull(s);
    var t := if s.server.Some? then Release(s) else s;
    SayFull(t.(server := Some(s.nextServer), nextServer := s.nextServer + 1), Code(227));
  }

  lemma AcceptFull(s: State, to: ServerId, e: Env)
    requires AllFull(s)
    ensures AllFull(AcceptConn(s, to, e))
  {
    SameFull(s, Adopt(s, to));
    TryStartFull(Adopt(s, to), e);
    EnqueueFull(Refuse(s, to).(queue := s.queue), Close(s.nextConn));
  }

  lemma WritableFull(s: State, c: ConnId, r: Tcp.WriteResult)
    requires AllFull(s)
    ensures AllFull(WritableConn(s, c, r))
  {
    if c in s.conns {
      SameFull(s, Drained(s, c, r));
      EnqueueFull(Drained(s, c, r), Complete(c, false));
    }
  }

  lemma DiskFull(s: State, a: Action)
    requires AllFull(s) && FullRead(a) && (a.DiskRead? || a.DiskQueue?)
    ensures AllFull(Step(s, a))
  {
    if a.i < |s.pool| {
      assert s.pool[a.i] in s.pool;
      var p := Step(s, a).pool;
      assert forall t :: t in p ==> t in s.pool || (a.DiskRead? && t == p[a.i]);
    }
  }

  lemma StepFull(s: State, a: Action)
    requires AllFull(s) && FullRead(a)
    ensures AllFull(Step(s, a))
  {
    if a.DiskRead? || a.DiskQueue? {
      DiskFull(s, a);
    } else if a.RunFunctor? {
      if s.queue != [] {
        RunHeadFull(s, a.e);
      }
    } else {
      EventFull(s, a);
    }
  }

  lemma {:induction false} RunFull(actions: seq<Action>)
    requires forall a :: a in actions ==> FullRead(a)
    ensures AllFull(Run(actions))
  {
    if actions != [] {
      var n := |actions| - 1;
      RunFull(actions[..n]);
      assert actions[n] in actions;
      StepFull(Run(actions[..n]), actions[n]);
    }
  }

  lemma FullIsWhole(f: File, sizes: seq<nat>)
    requires Full(sizes)
    ensures AllWhole(f, sizes)
  {
    assert forall i :: 0 <= i < |sizes| ==> sizes[i] in sizes;
  }

  /**
   In every polite run without short reads: what a RETR's data connection has accepted, and so what the
   socket was given, is an in-order prefix of the file, without gap or repeat, and 226 is never sent for a
   RETR but once the whole file was written to the socket.
   */
  lemma {:induction false} WholeFiles(actions: seq<Action>)
    requires PoliteRun(actions) && forall a :: a in actions ==> FullRead(a)
    ensures var s := Run(actions);
            && (forall c :: c in s.conns && s.conns[c].file.Some? ==>
                  s.conns[c].tcp.kernel <= Accepted(s.conns[c]) <= s.conns[c].file.value)
            && (forall r :: r in s.replies ==> (r.TransferComplete? ==> r.written == r.file) && r != Code(226))
  {
    RetrieveStream(actions);
    RunFull(actions);
    var s := Run(actions);
    forall c | c in s.conns && s.conns[c].file.Some?
      ensures s.conns[c].tcp.kernel <= Accepted(s.conns[c]) <= s.conns[c].file.value
    {
      assert StreamOfReads(s.conns[c]);
      FullIsWhole(s.conns[c].file.value, s.conns[c].sizes);
    }
    forall r | r in s.replies && r.TransferComplete? ensures r.written == r.file {
      assert ReplyFull(r) && CompleteOfReads(r);
      FullIsWhole(r.file, r.sizes);
    }
  }
}
