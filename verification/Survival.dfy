/**
 Whether a run can end in a call through a null pointer, an empty callback or a failed assertion. A client
 that does not overlap transfers cannot bring that about, given that the loop handles a channel's read event
 before its write event, as long as it sends no PASV while its previous data connection is up and makes no risky
 connection through a listener that the session has released.
 */
module Survival {
  import Tcp
  import opened Transfer
  import opened Retrieve
  import opened Wrappers

  /**
   A connection through a released listener will be half closed when that is deleted: because it is refused, or
   the transfer that waits for it fails at once, or because a transfer may still be asked for.
   */
  predicate Risky(s: State, to: ServerId, e: Env) {
    || s.data.Some?
    || if s.xfer == Nothing then s.server.Some? else !DataUp(TryStart(Adopt(s, to), e))
  }

  /**
   A polite client that sends no PASV while its data connection is up and makes no risky connection through a
   released listener. A peer's close is not seen in the loop iteration in which its connection's completed write was
   just noticed: of one channel's events the read comes first.
   */
  predicate Orderly(s: State, a: Action) {
    && Polite(s, a)
    && (a.Pasv? ==> !DataUp(s))
    && (a.DataConnected? ==> s.server == Some(a.to) || !Risky(s, a.to, a.e))
    && (a.DataEof? ==> Complete(a.conn, false) !in s.queue)
  }

  ghost predicate OrderlyRun(actions: seq<Action>) {
    forall k :: 0 <= k < |actions| ==> Orderly(Run(actions[..k]), actions[k])
  }

  // ---------------------------------------------------------------------------------------------
  // What orderly runs keep
  // ---------------------------------------------------------------------------------------------

  predicate IsOpen(s: State, c: ConnId) { c in s.conns && Tcp.Open(s.conns[c].tcp) }

  ghost predicate Sole(s: State) { forall c, d :: IsOpen(s, c) && IsOpen(s, d) ==> c == d }

  /** The data connection is one of the data server. */
  predicate Own(s: State) {
    s.data.Some? && s.data.value in s.conns && s.server == Some(s.conns[s.data.value].server)
  }

  predicate OwnOpen(s: State) { Own(s) && Tcp.Open(s.conns[s.data.value].tcp) }

  predicate OwnUp(s: State) { Own(s) && DataUp(s) }

  /** `f` is in the queue, before any `g`. */
  predicate Ahead(q: seq<Functor>, f: Functor, g: Functor) {
    q != [] && (q[0] == f || (q[0] != g && Ahead(q[1..], f, g)))
  }

  /** The connection's close is queued, and behind it the closing of the data server. */
  predicate Ending(q: seq<Functor>, c: ConnId) {
    q != [] && if q[0] == Close(c) then CloseServer in q[1..] else Ending(q[1..], c)
  }

  /** When the connection's close runs, the data server has been closed or will be before the next events. */
  predicate Sealed(s: State, c: ConnId) {
    || Ending(Due(s), c)
    || Ahead(Due(s), CloseServer, Close(c))
    || (s.phase == Functors && s.server.None?)
  }

  /** A connection that was given up or refused: it is closed before its server is deleted. */
  predicate Leaving(s: State, c: ConnId)
    requires c in s.conns
  {
    && s.conns[c].tcp.state == Tcp.Disconnecting && !s.conns[c].pump && s.data != Some(c)
    && Close(c) in Due(s) && Ahead(s.queue, Close(c), DeleteServer(s.conns[c].server)) && Sealed(s, c)
  }

  /** A connection of a released listener: it goes down with that, before anything can have happened on it. */
  predicate Passing(s: State, c: ConnId)
    requires c in s.conns
  {
    var sv := s.conns[c].server;
    && s.conns[c].tcp.state == Tcp.Connected && s.conns[c].tcp.out == [] && s.server != Some(sv)
    && DeleteServer(sv) in Due(s) && Clear(Due(s), sv, s.gen) && Close(c) !in Due(s)
    && (s.data == Some(c) || (s.data.None? && s.server.None? && s.phase == Functors))
    && (s.phase == Events && s.xfer == Nothing ==> s.server.None?)
  }

  predicate AnyPassing(s: State) { exists c :: c in s.conns && Passing(s, c) }

  predicate Placed(s: State, c: ConnId)
    requires c in s.conns
  {
    (s.data == Some(c) && Own(s)) || Passing(s, c) || Leaving(s, c)
  }

  ghost predicate OneOpen(s: State) { Sole(s) && forall c :: IsOpen(s, c) ==> Placed(s, c) }

  /** Before the data server is closed, the connection is. */
  predicate Guarded(q: seq<Functor>, c: ConnId) {
    q == [] || q[0] == Close(c) || (q[0] != CloseServer && Guarded(q[1..], c))
  }

  predicate ClosingOk(s: State) {
    && (OwnUp(s) ==> CloseServer !in s.queue && Close(s.data.value) !in s.queue)
    && (OwnOpen(s) ==> Guarded(s.queue, s.data.value))
    && (s.data.Some? && !IsOpen(s, s.data.value) ==> CloseServer in s.queue)
    && (forall f :: f in s.queue && f.Close? ==> f.conn < s.nextConn)
  }

  /** No closing of the data server is pending when a connection to it may be adopted. */
  predicate ServerOk(s: State) {
    s.server.Some? && s.data.None? ==>
      && (Fresh(s) || CloseServer !in s.queue)
      && (s.phase == Functors && CloseServer !in Due(s) ==> CloseServer !in Rest(s))
  }

  predicate Late(f: Functor) { f.Complete? && !f.bound }

  /** A completion to be delivered through the connection's callback finds the callback set. */
  predicate LateOk(s: State) {
    forall f :: f in s.queue && Late(f) ==>
      s.xfer != Nothing && OwnUp(s) && s.data == Some(f.conn) && s.conns[f.conn].pump
  }

  predicate NoLate(q: seq<Functor>) { forall f :: f in q ==> !Late(f) }

  /** A connection that is being closed has nothing left to write, or no callback to tell. */
  predicate DrainedOk(s: State) {
    OwnOpen(s) && !DataUp(s) ==>
      && (s.conns[s.data.value].tcp.out == [] || !s.conns[s.data.value].pump)
      && (s.xfer == Nothing ==> !s.conns[s.data.value].pump && Ending(s.queue, s.data.value))
  }

  /** The running transfer has its connection, and at most one token; or it is about to end with its listener. */
  predicate RunningOk(s: State) {
    && (s.xfer == Listing ==>
          (Flying(s) ==> OwnUp(s) || AnyPassing(s)) && (OwnUp(s) ==> Load(s, s.conns[s.data.value]) <= 1))
    && (s.xfer == Retrieving && s.offset > 0 ==>
          || (Own(s) && s.data == s.active && CloseServer !in s.queue)
          || (s.active.Some? && s.active.value in s.conns && Passing(s, s.active.value)))
  }

  ghost predicate Calm(s: State) {
    && !s.failed && OneOpen(s) && ClosingOk(s) && LateOk(s) && DrainedOk(s) && RunningOk(s)
  }

  ghost predicate Steady(s: State) { Calm(s) && ServerOk(s) }

  ghost predicate Good(s: State) { Inv(s) && Steady(s) }

  // ---------------------------------------------------------------------------------------------
  // Guards
  // ---------------------------------------------------------------------------------------------

  lemma {:induction false} NoServerGuards(q: seq<Functor>, c: ConnId)
    requires CloseServer !in q
    ensures Guarded(q, c) && Guarded(q + [Close(c), CloseServer], c)
  {
    var more := q + [Close(c), CloseServer];
    if q != [] {
      assert more[1..] == q[1..] + [Close(c), CloseServer];
      NoServerGuards(q[1..], c);
    }
  }

  lemma {:induction false} GuardedSnoc(q: seq<Functor>, f: Functor, c: ConnId)
    requires Guarded(q, c) && f != CloseServer
    ensures Guarded(q + [f], c)
  {
    if q != [] && q[0] != Close(c) {
      assert (q + [f])[1..] == q[1..] + [f];
      GuardedSnoc(q[1..], f, c);
    }
  }

  lemma {:induction false} AheadSnoc(q: seq<Functor>, f: Functor, g: Functor, h: Functor)
    requires Ahead(q, f, g)
    ensures Ahead(q + [h], f, g)
  {
    if q[0] != f {
      assert (q + [h])[1..] == q[1..] + [h];
      AheadSnoc(q[1..], f, g, h);
    }
  }

  lemma {:induction false} EndingSnoc(q: seq<Functor>, c: ConnId, h: Functor)
    requires Ending(q, c)
    ensures Ending(q + [h], c)
  {
    var more := q + [h];
    assert more[1..] == q[1..] + [h] && more[0] == q[0];
    if q[0] != Close(c) {
      EndingSnoc(q[1..], c, h);
    }
  }

  lemma {:induction false} EndingAdded(q: seq<Functor>, c: ConnId)
    ensures Ending(q + [Close(c), CloseServer], c)
  {
    var more := q + [Close(c), CloseServer];
    assert more[1..][|q|] == CloseServer;
    if q != [] {
      assert more[1..] == q[1..] + [Close(c), CloseServer];
      EndingAdded(q[1..], c);
    }
  }

  /** A close that is queued is ahead of a deletion that is not. */
  lemma {:induction false} EndingAhead(q: seq<Functor>, c: ConnId, g: Functor)
    requires Ending(q, c) && g !in q
    ensures Ahead(q, Close(c), g)
  {
    if q[0] != Close(c) {
      EndingAhead(q[1..], c, g);
    }
  }

  /** A closing that is queued is ahead of a close that is not. */
  lemma {:induction false} ServerAhead(q: seq<Functor>, c: ConnId)
    requires CloseServer in q && Close(c) !in q
    ensures Ahead(q, CloseServer, Close(c))
  {
    if q[0] != CloseServer {
      ServerAhead(q[1..], c);
    }
  }

  lemma {:induction false} CloseAhead(q: seq<Functor>, c: ConnId, g: Functor)
    requires g !in q && g != Close(c)
    ensures Ahead(q + [Close(c)], Close(c), g)
  {
    if q != [] {
      assert (q + [Close(c)])[1..] == q[1..] + [Close(c)];
      CloseAhead(q[1..], c, g);
    }
  }

  lemma SealedLater(s: State, t: State, c: ConnId, h: Functor)
    requires Sealed(s, c) && t.queue == s.queue + [h] && t.phase == s.phase && t.mark == s.mark <= |s.queue|
    requires t.server == s.server || t.server.None?
    ensures Sealed(t, c)
  {
    if s.phase == Functors {
      assert Due(t) == Due(s);
    } else {
      if Ending(s.queue, c) {
        EndingSnoc(s.queue, c, h);
      } else {
        AheadSnoc(s.queue, CloseServer, Close(c), h);
      }
    }
  }

  /** More work at the end of the queue leaves a connection where it is. */
  lemma LeavingLater(s: State, t: State, c: ConnId, h: Functor)
    requires c in s.conns && Leaving(s, c) && c in t.conns && t.conns[c] == s.conns[c] && t.data != Some(c)
    requires t.queue == s.queue + [h] && t.phase == s.phase && t.mark == s.mark <= |s.queue|
    requires t.server == s.server || t.server.None?
    ensures Leaving(t, c)
  {
    AheadSnoc(s.queue, Close(c), DeleteServer(s.conns[c].server), h);
    SealedLater(s, t, c, h);
    DueLater(s, t, h);
  }

  lemma DueLater(s: State, t: State, h: Functor)
    requires t.queue == s.queue + [h] && t.phase == s.phase && t.mark == s.mark <= |s.queue|
    ensures Due(t) == if s.phase == Functors then Due(s) else Due(s) + [h]
  {
  }

  lemma PassingLater(s: State, t: State, c: ConnId, h: Functor)
    requires c in s.conns && Passing(s, c) && c in t.conns && t.conns[c] == s.conns[c] && t.gen == s.gen
    requires t.queue == s.queue + [h] && t.phase == s.phase && t.mark == s.mark <= |s.queue|
    requires t.server == s.server && t.data == s.data && t.xfer == s.xfer && !h.Close?
    ensures Passing(t, c)
  {
    if s.phase == Functors {
      assert Due(t) == Due(s);
    } else {
      ClearSnoc(s.queue, h, s.conns[c].server, s.gen);
    }
  }

  // ---------------------------------------------------------------------------------------------
  // A transfer or its connection ends
  // ---------------------------------------------------------------------------------------------

  /** The open connection goes down; the closing that this queues finds no new data server to close. */
  lemma CloseSteady(s: State, c: ConnId)
    requires !s.failed && Sole(s) && NoLate(s.queue) && IsOpen(s, c) && s.mark <= |s.queue|
    requires forall f :: f in s.queue && f.Close? ==> f.conn < s.nextConn
    requires s.data.None? && s.server.Some? ==> Fresh(s) && (s.phase == Functors ==> CloseServer in Due(s))
    ensures Steady(CloseConn(s, c))
  {
    var t := CloseConn(s, c);
    assert t.queue == s.queue + [CloseServer];
    assert s.phase == Functors ==> Due(t) == Due(s);
    forall d ensures !IsOpen(t, d) {
      assert IsOpen(t, d) ==> IsOpen(s, d);
    }
    OpenData(t);
  }

  lemma OpenData(s: State)
    ensures OwnOpen(s) ==> IsOpen(s, s.data.value)
    ensures OwnUp(s) ==> OwnOpen(s)
  {
  }

  /** The data connection is dropped, with its close and that of the data server queued. */
  predicate Dropped(s: State, t: State) {
    && t.data == s.data && t.server == s.server && !t.failed && OwnUp(s) && t.conns.Keys == s.conns.Keys
    && (forall c :: c in s.conns && s.data != Some(c) ==> t.conns[c] == s.conns[c])
    && t.conns[s.data.value].tcp.state == Tcp.Disconnecting
    && t.conns[s.data.value].server == s.conns[s.data.value].server
    && t.queue == s.queue + [Close(s.data.value), CloseServer] && t.nextConn == s.nextConn
  }

  lemma DropSteady(s: State, t: State)
    requires OneOpen(s) && ClosingOk(s) && NoLate(s.queue) && Dropped(s, t) && s.data.value < s.nextConn
    requires t.xfer == Nothing || (t.xfer == Listing && !Flying(t)) || (t.xfer == Retrieving && t.offset == 0)
    requires !t.conns[t.data.value].pump || (t.conns[t.data.value].tcp.out == [] && t.xfer != Nothing)
    ensures Steady(t)
  {
    NoServerGuards(s.queue, s.data.value);
    EndingAdded(s.queue, s.data.value);
    assert NoLate(t.queue);
    OpenSame(s, t);
  }

  /** While the data server's own connection is open there is no other. */
  lemma OpenSame(s: State, t: State)
    requires Sole(s) && OwnOpen(s) && Own(t) && t.data == s.data
    requires forall c :: IsOpen(t, c) ==> IsOpen(s, c)
    ensures OneOpen(t)
  {
    assert IsOpen(s, s.data.value);
  }

  lemma GiveUpSteady(s: State, code: nat)
    requires !s.failed && OneOpen(s) && ClosingOk(s) && NoLate(s.queue)
    requires OwnUp(s) && s.data.value < s.nextConn
    ensures Steady(GiveUp(s, code))
  {
    var t := GiveUp(s, code);
    var c := s.data.value;
    assert (s.queue + [Close(c)]) + [CloseServer] == s.queue + [Close(c), CloseServer];
    DropSteady(s, t);
  }

  /** The end of the data: a half-close of the connection, on which nothing is left to write. */
  lemma EndSteady(s: State, limit: nat)
    requires !s.failed && OneOpen(s) && ClosingOk(s) && NoLate(s.queue)
    requires OwnUp(s) && !Flying(s) && s.xfer != Nothing
    requires s.conns[s.data.value].tcp.out == []
    requires s.xfer == Retrieving ==> s.data == s.active
    ensures Steady(Ended(s, s.data.value, limit))
  {
    OpenSame(s, Ended(s, s.data.value, limit));
    NoServerGuards(s.queue, s.data.value);
  }

  /** The transfer stands still: no token anywhere, and the connection is up. */
  ghost predicate Still(s: State) {
    && !s.failed && OneOpen(s) && ClosingOk(s) && OwnUp(s) && NoComplete(s.queue) && !Flying(s)
    && s.conns[s.data.value].tcp.out == [] && s.data.value < s.nextConn && s.xfer != Nothing
    && (s.xfer == Retrieving ==> s.data == s.active)
  }

  lemma SendSteady(s: State, o: Outcome, r: Tcp.WriteResult)
    requires Still(s) && Tcp.StreamOk(s.conns[s.data.value].tcp)
    ensures Steady(SendChunk(s, o, r))
  {
    SendFrame(s, o, r);
    SendLoad(s, o, r);
    SentSteady(s, SendChunk(s, o, r), s.data.value);
  }

  lemma SendFrame(s: State, o: Outcome, r: Tcp.WriteResult)
    requires DataUp(s)
    ensures var u := SendChunk(s, o, r);
            && u == s.(conns := u.conns, queue := u.queue, sent := u.sent) && u.conns.Keys == s.conns.Keys
            && (forall d :: d in s.conns ==>
                  u.conns[d].tcp.state == s.conns[d].tcp.state && u.conns[d].server == s.conns[d].server)
            && (u.queue == s.queue || u.queue == s.queue + [Complete(s.data.value, true)])
  {
    var c := s.data.value;
    var m := SentOn(s, s.conns[c], o, r);
    SentStays(s, o, r);
    assert Sent(s, o, r) == s.(conns := s.conns[c := m], sent := s.sent + [o]);
  }

  lemma SentStays(s: State, o: Outcome, r: Tcp.WriteResult)
    requires DataUp(s)
    ensures SentOn(s, s.conns[s.data.value], o, r).tcp.state == s.conns[s.data.value].tcp.state
  {
  }

  /** A message is taken whole, which queues a completion, or leaves output to write, or is dropped. */
  lemma SendLoad(s: State, o: Outcome, r: Tcp.WriteResult)
    requires DataUp(s) && NoComplete(s.queue) && !Flying(s) && s.conns[s.data.value].tcp.out == []
    requires Tcp.StreamOk(s.conns[s.data.value].tcp)
    ensures Load(SendChunk(s, o, r), SendChunk(s, o, r).conns[s.data.value]) <= 1
  {
    var c := s.data.value;
    Tcp.SendKeepsStream(s.conns[c].tcp, o.data, r);
    NoTokens(s);
    TokensSnoc(s.queue, Complete(c, true), s.gen);
  }

  lemma SentSteady(s: State, u: State, c: ConnId)
    requires Still(s) && s.data == Some(c) && c in u.conns && u.conns.Keys == s.conns.Keys
    requires u == s.(conns := u.conns, queue := u.queue, sent := u.sent)
    requires forall d :: d in s.conns ==>
               u.conns[d].tcp.state == s.conns[d].tcp.state && u.conns[d].server == s.conns[d].server
    requires u.queue == s.queue || u.queue == s.queue + [Complete(c, true)]
    requires s.xfer == Listing ==> Load(u, u.conns[c]) <= 1
    ensures Steady(u)
  {
    OpenSame(s, u);
    NoServerGuards(s.queue, c);
    GuardedSnoc(s.queue, Complete(c, true), c);
  }

  lemma SubmitSteady(s: State)
    requires Still(s)
    ensures Steady(Submit(s))
  {
    var t := Submit(s);
    NoTokens(s);
    var task := t.pool[|s.pool|];
    assert t.pool == s.pool + [task];
    PoolConcat(s.pool, [task], s.gen);
    NoServerGuards(s.queue, s.data.value);
    OpenSame(s, t);
  }

  lemma RequestSteady(s: State, e: Env)
    requires Still(s)
    ensures Steady(Request(s, e))
  {
    SubmitSteady(s);
    GiveUpSteady(s, 451);
    EndSteady(s, END_OF_LIST.limit);
  }

  // ---------------------------------------------------------------------------------------------
  // Functors
  // ---------------------------------------------------------------------------------------------

  /** The head of the queue is about to run. */
  ghost predicate Running(s: State, f: Functor) {
    Good(s) && s.queue != [] && s.queue[0] == f && s.phase == Functors && 0 < s.mark <= |s.queue|
  }

  /** Nothing runs for a connection of a released listener. */
  lemma NotPassing(s: State, f: Functor, c: ConnId)
    requires Running(s, f) && TokenOf(f, s.gen) == 1 && c in s.conns
    ensures !Passing(s, c)
  {
    assert Due(s)[0] == f;
  }

  lemma HeadOwn(s: State, f: Functor)
    requires Running(s, f) && s.xfer != Nothing
    requires (f.Complete? && DataUp(s)) || (f.Ready? && f.gen == s.gen)
    ensures OwnUp(s) && (s.xfer == Retrieving ==> s.data == s.active && Going(s))
  {
    assert f in s.queue;
    assert f.Ready? ==> Flying(s);
    forall c | c in s.conns ensures !Passing(s, c) {
      NotPassing(s, f, c);
    }
    if DataUp(s) {
      assert IsOpen(s, s.data.value);
    }
    if s.xfer == Retrieving {
      assert Going(s) && s.data == s.active;
      HeadAlone(s, f);
    }
  }

  /** A token at the head is the only one, and the connection is up. */
  lemma HeadStill(s: State, f: Functor)
    requires Running(s, f) && s.xfer != Nothing
    requires (f.Complete? && DataUp(s)) || (f.Ready? && f.gen == s.gen)
    ensures OwnUp(s) && s.conns[s.data.value].tcp.out == [] && s.data.value < s.nextConn
    ensures NoComplete(Pop(s).queue) && !Flying(Pop(s)) && Tcp.StreamOk(s.conns[s.data.value].tcp)
    ensures s.xfer == Retrieving ==> s.data == s.active
  {
    HeadOwn(s, f);
    HeadAlone(s, f);
    assert ConnOk(s, s.data.value);
  }

  lemma PopClosing(s: State, f: Functor)
    requires ClosingOk(s) && s.queue != [] && s.queue[0] == f && f != CloseServer
    requires OwnOpen(s) ==> f != Close(s.data.value)
    ensures ClosingOk(Pop(s))
  {
    assert forall g :: g in s.queue[1..] ==> g in s.queue;
    assert s.queue == [f] + s.queue[1..];
  }

  lemma PopLeaving(s: State, f: Functor, c: ConnId)
    requires s.queue != [] && s.queue[0] == f && s.phase == Functors && 0 < s.mark <= |s.queue|
    requires c in s.conns && Leaving(s, c) && f != Close(c) && f != CloseServer
    ensures Leaving(Pop(s), c)
  {
    PopRest(s, f);
    assert Due(s)[0] == f && Due(s)[1..] == Due(Pop(s));
  }

  lemma PopPassing(s: State, f: Functor, c: ConnId)
    requires s.queue != [] && s.queue[0] == f && s.phase == Functors && 0 < s.mark <= |s.queue|
    requires c in s.conns && Passing(s, c) && f != DeleteServer(s.conns[c].server)
    ensures Passing(Pop(s), c)
  {
    PopRest(s, f);
    assert Due(s)[0] == f && Due(s)[1..] == Due(Pop(s));
  }

  /** The functor closes no open connection and deletes none's server. */
  predicate Spares(s: State, f: Functor) {
    forall c :: c in s.conns && Tcp.Open(s.conns[c].tcp) ==> f != Close(c) && f != DeleteServer(s.conns[c].server)
  }

  lemma PopOpen(s: State, f: Functor)
    requires OneOpen(s) && s.queue != [] && s.queue[0] == f && s.phase == Functors && 0 < s.mark <= |s.queue|
    requires Spares(s, f) && f != CloseServer
    ensures OneOpen(Pop(s)) && (AnyPassing(s) ==> AnyPassing(Pop(s)))
  {
    assert forall c :: IsOpen(Pop(s), c) ==> IsOpen(s, c);
    forall c | IsOpen(s, c) ensures Placed(Pop(s), c) {
      assert Placed(s, c);
      if Passing(s, c) {
        PopPassing(s, f, c);
      } else if Leaving(s, c) {
        PopLeaving(s, f, c);
      }
    }
    if AnyPassing(s) {
      var c :| c in s.conns && Passing(s, c);
      PopPassing(s, f, c);
    }
  }

  lemma PopRuns(s: State, f: Functor)
    requires RunningOk(s) && s.queue != [] && s.queue[0] == f && s.phase == Functors && 0 < s.mark <= |s.queue|
    requires Spares(s, f) && f != CloseServer && (AnyPassing(s) ==> AnyPassing(Pop(s)))
    ensures RunningOk(Pop(s))
  {
    var t := Pop(s);
    assert s.queue == [f] + t.queue;
    assert forall g :: g in t.queue ==> g in s.queue;
    assert Flying(t) ==> Flying(s);
    assert Tokens(t.queue, t.gen) <= Tokens(s.queue, s.gen);
    if s.xfer == Retrieving && s.offset > 0 && !(Own(s) && s.data == s.active && CloseServer !in s.queue) {
      PopPassing(s, f, s.active.value);
    }
  }

  lemma PopSteady(s: State, f: Functor)
    requires Steady(s) && s.queue != [] && s.queue[0] == f && s.phase == Functors && 0 < s.mark <= |s.queue|
    requires Spares(s, f) && f != CloseServer
    ensures Steady(Pop(s))
  {
    PopOpen(s, f);
    PopRuns(s, f);
    assert OwnOpen(s) ==> IsOpen(s, s.data.value);
    PopClosing(s, f);
    PopRest(s, f);
    assert forall g :: g in Pop(s).queue ==> g in s.queue;
  }

  lemma HeadPopped(s: State, f: Functor)
    requires Running(s, f) && s.xfer != Nothing
    requires (f.Complete? && DataUp(s)) || (f.Ready? && f.gen == s.gen)
    ensures Still(Pop(s)) && Tcp.StreamOk(s.conns[s.data.value].tcp)
  {
    HeadStill(s, f);
    PopSteady(s, f);
  }

  lemma ReadySteady(s: State, f: Functor, e: Env)
    requires Running(s, f) && f.Ready?
    ensures Steady(ChunkReady(Pop(s), f.gen, f.outcome, e))
  {
    if f.gen != s.gen || s.xfer == Nothing {
      PopSteady(s, f);
    } else {
      HeadPopped(s, f);
      ResultSteady(Pop(s), f.gen, f.outcome, e);
    }
  }

  lemma ResultSteady(s: State, gen: nat, o: Outcome, e: Env)
    requires Still(s) && gen == s.gen && Tcp.StreamOk(s.conns[s.data.value].tcp)
    ensures Steady(ChunkReady(s, gen, o, e))
  {
    if o.error {
      GiveUpSteady(s, 550);
    } else if o.data == [] && o.atEof {
      EndSteady(s, o.limit);
    } else {
      SendSteady(s, o, e.write);
    }
  }

  lemma CompleteSteady(s: State, f: Functor, e: Env)
    requires Running(s, f) && f.Complete?
    ensures Steady(RunHead(s, e))
  {
    assert f in s.queue;
    PopSteady(s, f);
    if s.xfer != Nothing && DataUp(s) {
      HeadPopped(s, f);
      RequestSteady(Pop(s), e);
    }
  }

  lemma {:induction false} EndingHas(q: seq<Functor>, c: ConnId)
    requires Ending(q, c)
    ensures Close(c) in q && CloseServer in q
  {
    if q[0] != Close(c) {
      EndingHas(q[1..], c);
    }
  }

  lemma {:induction false} AheadHas(q: seq<Functor>, f: Functor, g: Functor)
    requires Ahead(q, f, g)
    ensures f in q
  {
    if q[0] != f {
      AheadHas(q[1..], f, g);
    }
  }

  lemma CloseHeadSteady(s: State, f: Functor)
    requires Running(s, f) && f.Close?
    ensures Steady(CloseConn(Pop(s), f.conn))
  {
    assert f in s.queue;
    var c := f.conn;
    if !IsOpen(s, c) {
      PopSteady(s, f);
    } else {
      ClosingHead(s, f, c);
      if s.data.None? && s.server.Some? {
        LeavingSealed(s, f, c);
      }
      CloseSteady(Pop(s), c);
    }
  }

  lemma ClosingHead(s: State, f: Functor, c: ConnId)
    requires Running(s, f) && f == Close(c) && IsOpen(s, c)
    ensures var t := Pop(s);
            && !t.failed && Sole(t) && NoLate(t.queue) && IsOpen(t, c) && t.mark <= |t.queue|
            && forall g :: g in t.queue && g.Close? ==> g.conn < t.nextConn
  {
    assert f in s.queue;
    OpenData(s);
    assert forall g :: g in Pop(s).queue ==> g in s.queue;
    assert forall d :: IsOpen(Pop(s), d) ==> IsOpen(s, d);
  }

  /** A close that runs with a data server there has that server's closing behind it. */
  lemma LeavingSealed(s: State, f: Functor, c: ConnId)
    requires Running(s, f) && f == Close(c) && IsOpen(s, c) && s.data.None? && s.server.Some?
    ensures Fresh(s) && CloseServer in Due(Pop(s))
  {
    assert Placed(s, c) && Leaving(s, c);
    PopRest(s, f);
    assert Due(s)[0] == f && Due(s)[1..] == Due(Pop(s));
    assert forall g :: g in Due(s) ==> g in s.queue;
    assert Ending(Due(s), c);
  }

  lemma ServerRuns(s: State)
    requires Running(s, CloseServer)
    ensures !OwnOpen(s) && NoLate(s.queue)
    ensures s.xfer == Retrieving && s.offset > 0 ==>
              s.active.Some? && s.active.value in s.conns && Passing(s, s.active.value)
  {
    assert CloseServer in s.queue;
  }

  /** What closing the data server leaves. */
  lemma ReleasedQueue(s: State)
    requires s.queue != [] && s.queue[0] == CloseServer && s.phase == Functors && 0 < s.mark <= |s.queue|
    ensures var t := Release(Pop(s));
            && Due(s) == [CloseServer] + Due(t)
            && t == s.(queue := t.queue, mark := t.mark, data := None, server := None)
            && t.queue == if s.server.Some? then s.queue[1..] + [DeleteServer(s.server.value)] else s.queue[1..]
  {
    PopRest(s, CloseServer);
    ReleaseFields(Pop(s));
    assert s.server.Some? ==> Due(Release(Pop(s))) == Due(Pop(s));
  }

  lemma ReleasedPassing(s: State, c: ConnId)
    requires s.queue != [] && s.queue[0] == CloseServer && s.phase == Functors && 0 < s.mark <= |s.queue|
    requires c in s.conns && Passing(s, c)
    ensures Passing(Release(Pop(s)), c)
  {
    ReleasedQueue(s);
    assert Due(s)[0] == CloseServer && Due(s)[1..] == Due(Release(Pop(s)));
  }

  lemma ReleasedLeaving(s: State, c: ConnId)
    requires s.queue != [] && s.queue[0] == CloseServer && s.phase == Functors && 0 < s.mark <= |s.queue|
    requires c in s.conns && Leaving(s, c)
    ensures Leaving(Release(Pop(s)), c)
  {
    ReleasedQueue(s);
    var f := DeleteServer(s.conns[c].server);
    assert Ahead(s.queue[1..], Close(c), f);
    if s.server.Some? {
      AheadSnoc(s.queue[1..], Close(c), f, DeleteServer(s.server.value));
    }
  }

  lemma ReleasedPlace(s: State, c: ConnId)
    requires Running(s, CloseServer) && IsOpen(s, c)
    ensures var t := Release(Pop(s)); Placed(t, c) && (Passing(s, c) ==> Passing(t, c))
  {
    ServerRuns(s);
    assert Placed(s, c);
    if Passing(s, c) {
      ReleasedPassing(s, c);
    } else {
      assert OwnOpen(s) || Leaving(s, c);
      ReleasedLeaving(s, c);
    }
  }

  lemma CloseServerSteady(s: State)
    requires Running(s, CloseServer)
    ensures Steady(Release(Pop(s)))
  {
    ServerRuns(s);
    var t := Release(Pop(s));
    ReleaseFields(Pop(s));
    assert forall g :: g in Pop(s).queue ==> g in s.queue;
    assert forall g :: g in t.queue ==> g in s.queue || g.DeleteServer?;
    ReleasedPlaces(s);
    ReleasedRuns(s);
  }

  lemma ReleasedPlaces(s: State)
    requires Running(s, CloseServer)
    ensures OneOpen(Release(Pop(s)))
  {
    var t := Release(Pop(s));
    assert forall c :: IsOpen(t, c) ==> IsOpen(s, c);
    forall c | IsOpen(t, c) ensures Placed(t, c) {
      ReleasedPlace(s, c);
    }
  }

  lemma ReleasedRuns(s: State)
    requires Running(s, CloseServer)
    ensures RunningOk(Release(Pop(s)))
  {
    ServerRuns(s);
    OpenData(s);
    var t := Release(Pop(s));
    assert forall g :: g in t.queue && g.Ready? ==> g in s.queue;
    assert Flying(t) ==> Flying(s);
    if s.xfer == Retrieving && s.offset > 0 {
      ReleasedPlace(s, s.active.value);
    }
    if AnyPassing(s) {
      var c :| c in s.conns && Passing(s, c);
      ReleasedPlace(s, c);
    }
  }

  /** A data server is deleted with its connection closed, or up. */
  lemma DeleteSteady(s: State, sv: ServerId, victim: ConnId)
    requires Running(s, DeleteServer(sv))
    ensures Steady(DestroyOne(s, sv, victim))
  {
    if forall c :: c in s.conns && s.conns[c].server == sv ==> !Tcp.Open(s.conns[c].tcp) {
      PopSteady(s, DeleteServer(sv));
    } else if IsOpen(s, victim) && s.conns[victim].server == sv {
      DeletedPassing(s, sv, victim);
      CloseSteady(s, victim);
    }
  }

  lemma DeletedPassing(s: State, sv: ServerId, c: ConnId)
    requires Running(s, DeleteServer(sv)) && IsOpen(s, c) && s.conns[c].server == sv
    ensures Passing(s, c) && NoLate(s.queue)
  {
    assert DeleteServer(sv) in s.queue && ConnOk(s, c) && Placed(s, c);
    OpenData(s);
  }

  lemma RunHeadSteady(s: State, e: Env)
    requires Good(s) && s.phase == Functors && 0 < s.mark <= |s.queue|
    ensures Steady(RunHead(s, e))
  {
    var f := s.queue[0];
    match f {
      case Ready(_, _) => ReadySteady(s, f, e);
      case Complete(_, _) => CompleteSteady(s, f, e);
      case Close(_) => CloseHeadSteady(s, f);
      case CloseServer => CloseServerSteady(s);
      case DeleteServer(sv) => DeleteSteady(s, sv, e.victim);
    }
  }

  // ---------------------------------------------------------------------------------------------
  // Events
  // ---------------------------------------------------------------------------------------------

  /** Nothing but the replies differs, or what no connection looks at. */
  lemma PlacedSame(s: State, t: State)
    requires t.queue == s.queue && t.mark == s.mark && t.phase == s.phase && t.data == s.data && t.server == s.server
    requires t.gen == s.gen && t.xfer == s.xfer && t.conns == s.conns
    ensures (OneOpen(s) ==> OneOpen(t)) && (AnyPassing(s) ==> AnyPassing(t))
    ensures forall c :: c in s.conns && Passing(s, c) ==> Passing(t, c)
  {
    forall c | c in s.conns ensures (Passing(s, c) ==> Passing(t, c)) && (Leaving(s, c) ==> Leaving(t, c)) {
    }
    if OneOpen(s) {
      forall c | IsOpen(t, c) ensures Placed(t, c) {
        assert IsOpen(s, c) && Placed(s, c);
      }
      assert forall c :: IsOpen(t, c) ==> IsOpen(s, c);
    }
  }

  /** While events are handled a connection of a released listener is the data connection, and up. */
  lemma OnlyLeaving(s: State, c: ConnId)
    requires OneOpen(s) && s.phase == Events && !DataUp(s) && !OwnOpen(s) && IsOpen(s, c)
    ensures Leaving(s, c)
  {
    assert Placed(s, c);
  }

  lemma ReleaseSteady(s: State)
    requires Calm(s) && s.phase == Events && s.server.Some? && !DataUp(s) && !OwnOpen(s) && s.mark <= |s.queue|
    requires s.xfer == Nothing
    ensures Steady(Release(s))
  {
    var t, f := Release(s), DeleteServer(s.server.value);
    assert t.queue == s.queue + [f];
    assert NoLate(t.queue);
    assert forall c :: IsOpen(t, c) ==> IsOpen(s, c);
    forall c | IsOpen(t, c) ensures Placed(t, c) {
      OnlyLeaving(s, c);
      LeavingLater(s, t, c, f);
    }
  }

  lemma ListenSteady(s: State)
    requires Good(s) && s.phase == Events && s.xfer == Nothing && !DataUp(s)
    ensures Steady(Listen(s))
  {
    if OwnOpen(s) {
      Orphaned(s);
    } else if s.server.Some? {
      ReleaseSteady(s);
    }
    ListeningSteady(if s.server.Some? then Release(s) else s, Listen(s));
  }

  lemma ListeningSteady(t: State, u: State)
    requires Calm(t) && t.server.None? && t.xfer == Nothing && t.phase == Events && !DataUp(t)
    requires u == t.(server := u.server, nextServer := u.nextServer, replies := u.replies) && Fresh(u)
    requires t.data.Some? && t.data.value in t.conns ==> u.server != Some(t.conns[t.data.value].server)
    ensures Steady(u)
  {
    assert forall c :: IsOpen(u, c) ==> IsOpen(t, c);
    forall c | IsOpen(u, c) ensures Placed(u, c) {
      OnlyLeaving(t, c);
    }
  }

  /** A PASV while a given-up connection is being closed takes it from the session. */
  lemma Orphaned(s: State)
    requires Good(s) && s.phase == Events && s.xfer == Nothing && !DataUp(s) && OwnOpen(s)
    ensures Steady(Release(s)) && Release(s).data.None? && Release(s).server.None?
  {
    var t, c := Release(s), s.data.value;
    assert ConnOk(s, c) && IsOpen(s, c);
    var f := DeleteServer(s.conns[c].server);
    assert t.queue == s.queue + [f];
    assert f !in s.queue;
    EndingAhead(s.queue, c, f);
    AheadSnoc(s.queue, Close(c), f, f);
    EndingSnoc(s.queue, c, f);
    EndingHas(s.queue, c);
    assert NoLate(t.queue);
    assert forall d :: IsOpen(t, d) ==> IsOpen(s, d);
    assert Leaving(t, c);
  }

  lemma TimeoutSteady(s: State)
    requires Steady(s) && s.phase == Events && s.xfer == Nothing && s.data.None? && s.server.Some?
    requires s.mark <= |s.queue|
    ensures Steady(Release(Say(s, Code(425))))
  {
    var t := Say(s, Code(425));
    SaidSteady(s);
    ReleaseSteady(t);
  }

  /** Nothing of the transfer just asked for has happened. */
  ghost predicate ToStart(s: State) {
    && Steady(s) && Idle(s) && !Flying(s) && (s.xfer == Retrieving ==> s.offset == 0)
    && (s.data.Some? ==> s.data.value < s.nextConn) && (DataUp(s) ==> OwnUp(s))
  }

  lemma TryStartSteady(s: State, e: Env)
    requires ToStart(s)
    ensures Steady(TryStart(s, e))
  {
    if DataUp(s) && s.xfer != Nothing {
      assert s.conns[s.data.value].tcp.out == [];
      RefusedSteady(s);
      if s.xfer == Listing {
        RequestSteady(s, e);
      } else if e.fdNum !in s.table {
        OpenedStill(s, e.fdNum);
        RequestSteady(OpenTarget(s, e.fdNum), e);
      }
    }
  }

  lemma RefusedSteady(s: State)
    requires ToStart(s) && DataUp(s) && s.xfer != Nothing
    ensures Steady(Enqueue(DropData(Say(s, Code(550))), CloseServer))
  {
    var t := Enqueue(DropData(Say(s, Code(550))), CloseServer);
    var c := s.data.value;
    assert t.queue == s.queue + [Close(c), CloseServer];
    assert forall f :: f in t.queue && f.Ready? ==> f in s.queue;
    assert Accepted(s.conns[c]) == [] && t.conns[c].tcp.out == [];
    DropSteady(s, t);
  }

  lemma OpenedStill(s: State, num: nat)
    requires ToStart(s) && DataUp(s) && s.xfer == Retrieving && s.conns[s.data.value].tcp.out == []
    ensures Still(OpenTarget(s, num))
  {
    var t := OpenTarget(s, num);
    assert forall c :: IsOpen(t, c) ==> IsOpen(s, c);
    OpenSame(s, t);
  }

  lemma BeginSteady(s: State, t: State, e: Env)
    requires Good(s) && s.xfer == Nothing && t.gen == s.gen + 1 && t.xfer != Nothing
    requires t.xfer == Retrieving ==> t.offset == 0
    requires t.queue == s.queue && t.mark == s.mark && t.phase == s.phase && t.server == s.server && t.pool == s.pool
    requires t.data == s.data && t.earlier == s.earlier && t.nextConn == s.nextConn && t.conns == s.conns
    requires !t.failed && s.phase == Events && s.server.Some?
    ensures Steady(TryStart(t, e))
  {
    assert !Flying(t);
    if s.data.Some? {
      assert ConnOk(s, s.data.value);
      if DataUp(s) {
        assert IsOpen(s, s.data.value) && Placed(s, s.data.value);
        NoTokens(t);
      }
    }
    BegunPlaced(s, t);
    TryStartSteady(t, e);
  }

  lemma BegunPlaced(s: State, t: State)
    requires OneOpen(s) && s.phase == Events && s.server.Some? && s.xfer == Nothing
    requires t.queue == s.queue && t.mark == s.mark && t.phase == s.phase && t.server == s.server
    requires t.data == s.data && t.conns == s.conns
    ensures OneOpen(t)
  {
    assert forall c :: IsOpen(t, c) ==> IsOpen(s, c);
    forall c | IsOpen(t, c) ensures Placed(t, c) {
      assert IsOpen(s, c) && Placed(s, c);
    }
  }

  /** What a first connection finds. */
  lemma Arrival(s: State, to: ServerId, e: Env)
    requires Good(s) && Polite(s, DataConnected(to, e)) && s.phase == Events && s.data.None?
    ensures NoComplete(s.queue) && !Flying(s) && forall c :: c in s.conns ==> !Tcp.Open(s.conns[c].tcp)
    ensures s.xfer == Retrieving ==> s.offset == 0
    ensures s.nextConn !in s.conns && Close(s.nextConn) !in s.queue
  {
    forall c | c in s.conns ensures !Tcp.Open(s.conns[c].tcp) && c < s.nextConn {
      NoneOpen(s, to, e, c);
      assert ConnOk(s, c);
    }
    AdoptShape(s, to);
  }

  lemma AdoptSteady(s: State, to: ServerId, e: Env)
    requires Good(s) && Polite(s, DataConnected(to, e)) && s.server == Some(to) && s.phase == Events && s.data.None?
    ensures Steady(TryStart(Adopt(s, to), e))
  {
    var t := Adopt(s, to);
    Arrival(s, to, e);
    assert Flying(t) ==> Flying(s);
    assert CloseServer !in s.queue;
    NoServerGuards(s.queue, s.nextConn);
    assert forall c :: IsOpen(t, c) ==> c == s.nextConn;
    if s.xfer == Nothing {
      assert TryStart(t, e) == t;
    } else {
      NoTokens(t);
      TryStartSteady(t, e);
    }
  }

  /** A connection through a released listener that is not risky: it waits, or its first read is under way. */
  lemma PassSteady(s: State, to: ServerId, e: Env)
    requires Good(s) && Polite(s, DataConnected(to, e)) && s.server != Some(to) && s.phase == Events
    requires !Risky(s, to, e)
    ensures Steady(TryStart(Adopt(s, to), e))
  {
    Arrival(s, to, e);
    var t := Adopt(s, to);
    NoTokens(s);
    NoTokensClear(s.queue, to, s.gen);
    assert forall c :: IsOpen(t, c) ==> c == s.nextConn;
    assert s.xfer == Nothing ==> TryStart(t, e) == t;
    if s.xfer != Nothing {
      UpAfterStart(t, e);
    }
    PassedSteady(s, t, TryStart(t, e), to);
  }

  /** A start that leaves the connection up has submitted the first read. */
  lemma UpAfterStart(t: State, e: Env)
    requires DataUp(t) && DataUp(TryStart(t, e)) && t.xfer != Nothing
    ensures var u := TryStart(t, e);
            && u == t.(pool := u.pool, offset := u.offset, fd := u.fd, nextOpen := u.nextOpen, table := u.table,
                       active := u.active, conns := u.conns)
            && u.conns.Keys == t.conns.Keys
            && (forall c :: c in t.conns ==> u.conns[c].tcp == t.conns[c].tcp && u.conns[c].server == t.conns[c].server)
            && (t.xfer == Retrieving ==> u.active == t.data)
  {
    DropsUp(Say(t, Code(550)));
    if t.xfer == Listing {
      RequestUp(t, e);
    } else if e.fdNum !in t.table {
      RequestUp(OpenTarget(t, e.fdNum), e);
    }
  }

  lemma DropsUp(s: State)
    ensures !DataUp(DropData(s)) && !DataUp(Enqueue(DropData(s), CloseServer))
  {
  }

  lemma RequestUp(s: State, e: Env)
    requires DataUp(s) && s.xfer != Nothing
    ensures Request(s, e) == Submit(s) || !DataUp(Request(s, e))
  {
    DropsUp(Abort(Say(s, Code(451))));
    EndedOpen(s, s.data.value, END_OF_LIST.limit);
  }

  lemma PassedSteady(s: State, t: State, u: State, to: ServerId)
    requires Good(s) && s.phase == Events && s.data.None? && s.server != Some(to) && DeleteServer(to) in s.queue
    requires t == Adopt(s, to) && (s.xfer == Nothing ==> s.server.None?) && Clear(s.queue, to, s.gen)
    requires Close(s.nextConn) !in s.queue
    requires NoComplete(s.queue) && forall c :: IsOpen(t, c) ==> c == s.nextConn
    requires u == t.(pool := u.pool, offset := u.offset, fd := u.fd, nextOpen := u.nextOpen, table := u.table,
                     active := u.active, conns := u.conns)
    requires u.conns.Keys == t.conns.Keys && (s.xfer == Nothing ==> u == t)
    requires forall c :: c in t.conns ==> u.conns[c].tcp == t.conns[c].tcp && u.conns[c].server == t.conns[c].server
    requires u.xfer == Retrieving ==> u.active == t.data
    ensures Steady(u)
  {
    var c := s.nextConn;
    assert Passing(u, c);
    assert forall d :: IsOpen(u, d) ==> IsOpen(t, d);
  }

  /** A connection refused by the data server is closed before that is deleted. */
  lemma RefuseSteady(s: State, to: ServerId, e: Env)
    requires Good(s) && Polite(s, DataConnected(to, e)) && s.server == Some(to) && s.phase == Events && s.data.Some?
    ensures Steady(Refuse(s, to))
  {
    var t, c := Refuse(s, to), s.nextConn;
    forall d | d in s.conns ensures !Tcp.Open(s.conns[d].tcp) && d < s.nextConn {
      NoneOpen(s, to, e, d);
      assert ConnOk(s, d);
    }
    RefuseFields(s, to);
    assert Close(c) !in s.queue;
    ServerAhead(s.queue, c);
    AheadSnoc(s.queue, CloseServer, Close(c), Close(c));
    CloseAhead(s.queue, c, DeleteServer(to));
    assert Leaving(t, c);
    assert forall d :: IsOpen(t, d) ==> d == c;
    assert Flying(t) ==> Flying(s);
    assert NoLate(t.queue);
  }

  lemma EofSteady(s: State, c: ConnId)
    requires Good(s) && s.phase == Events && Complete(c, false) !in s.queue
    ensures Steady(CloseConn(s, c))
  {
    if IsOpen(s, c) {
      assert Placed(s, c);
      assert OwnUp(s) ==> IsOpen(s, s.data.value);
      assert NoLate(s.queue);
      if s.data.None? && s.server.Some? {
        if Ending(s.queue, c) {
          EndingHas(s.queue, c);
        } else {
          AheadHas(s.queue, CloseServer, Close(c));
        }
      }
      CloseSteady(s, c);
    }
  }

  lemma WritableSteady(s: State, c: ConnId, r: Tcp.WriteResult)
    requires Good(s) && s.phase == Events
    ensures Steady(WritableConn(s, c, r))
  {
    if c in s.conns {
      if s.conns[c].tcp.writing {
        assert ConnOk(s, c);
        WritableFields(s, c, r);
        assert IsOpen(s, c) && Placed(s, c);
        if s.data == Some(c) {
          WrittenSteady(s, WritableConn(s, c, r), c);
        } else {
          LeavingWritten(s, WritableConn(s, c, r), c);
        }
      } else {
        Unchanged(s, c, r);
      }
    }
  }

  /** Nobody is told of the writes of a connection that is leaving. */
  lemma LeavingWritten(s: State, u: State, c: ConnId)
    requires Good(s) && c in s.conns && Leaving(s, c)
    requires u == s.(conns := u.conns, queue := u.queue) && u.conns.Keys == s.conns.Keys
    requires forall d :: d in s.conns && d != c ==> u.conns[d] == s.conns[d]
    requires u.conns[c].tcp.state == s.conns[c].tcp.state && u.conns[c].pump == s.conns[c].pump
    requires u.conns[c].server == s.conns[c].server && u.queue == s.queue
    ensures Steady(u)
  {
    assert Flying(u) ==> Flying(s);
    assert IsOpen(s, c) && Leaving(u, c);
    assert forall d :: IsOpen(u, d) ==> IsOpen(s, d);
    assert forall d :: d in s.conns ==> !Passing(s, d) by {
      forall d | d in s.conns ensures !Passing(s, d) {
        assert Passing(s, d) ==> IsOpen(s, d);
      }
    }
  }

  lemma WrittenSteady(s: State, u: State, c: ConnId)
    requires Good(s) && s.phase == Events && s.data == Some(c) && OwnOpen(s) && s.conns[c].tcp.out != []
    requires u == s.(conns := u.conns, queue := u.queue) && u.conns.Keys == s.conns.Keys
    requires forall d :: d in s.conns && d != c ==> u.conns[d] == s.conns[d]
    requires u.conns[c].tcp.state == s.conns[c].tcp.state && u.conns[c].pump == s.conns[c].pump
    requires u.conns[c].server == s.conns[c].server
    requires || u.queue == s.queue
             || (u.queue == s.queue + [Complete(c, false)] && u.conns[c].pump && u.conns[c].tcp.out == [])
    ensures Steady(u)
  {
    var f := Complete(c, false);
    assert forall g :: g in u.queue ==> g in s.queue || g == f;
    assert forall d :: IsOpen(u, d) ==> IsOpen(s, d);
    OpenSame(s, u);
    assert forall d :: d in s.conns ==> !Passing(s, d) by {
      forall d | d in s.conns ensures !Passing(s, d) {
        assert IsOpen(s, c) && (Passing(s, d) ==> IsOpen(s, d));
      }
    }
    WrittenRuns(s, u, c);
    WrittenGuards(s, u, c);
    assert u.queue != s.queue ==> DataUp(s) && s.xfer != Nothing;
  }

  lemma WrittenRuns(s: State, u: State, c: ConnId)
    requires RunningOk(s) && Own(s) && s.data == Some(c) && c in u.conns && s.conns[c].tcp.out != []
    requires u.conns[c].server == s.conns[c].server && forall d :: d in s.conns ==> !Passing(s, d)
    requires u == s.(conns := u.conns, queue := u.queue) && u.conns[c].tcp.state == s.conns[c].tcp.state
    requires u.queue == s.queue || (u.queue == s.queue + [Complete(c, false)] && u.conns[c].tcp.out == [])
    ensures RunningOk(u)
  {
    TokensSnoc(s.queue, Complete(c, false), s.gen);
    assert forall g :: g in u.queue ==> g in s.queue || g == Complete(c, false);
    assert Flying(u) ==> Flying(s);
  }

  lemma WrittenGuards(s: State, u: State, c: ConnId)
    requires ClosingOk(s) && OwnOpen(s) && s.data == Some(c) && c in u.conns && u.conns[c].server == s.conns[c].server
    requires u == s.(conns := u.conns, queue := u.queue) && u.conns[c].tcp.state == s.conns[c].tcp.state
    requires u.queue == s.queue || u.queue == s.queue + [Complete(c, false)]
    ensures ClosingOk(u)
  {
    GuardedSnoc(s.queue, Complete(c, false), c);
  }

  // ---------------------------------------------------------------------------------------------
  // The disk pool, and every step
  // ---------------------------------------------------------------------------------------------

  lemma ReadSteady(s: State, a: Action)
    requires Good(s) && a.DiskRead? && a.i < |s.pool|
    ensures Steady(ReadTask(s, a.i, a.n, a.error, a.listing, a.stray))
  {
    var u := ReadTask(s, a.i, a.n, a.error, a.listing, a.stray);
    assert s.pool[a.i] in s.pool;
    PoolAt(s.pool, a.i, s.gen);
    assert forall x :: x in u.pool ==> x in s.pool || (x == u.pool[a.i] && x.gen == s.pool[a.i].gen);
    assert Flying(u) ==> Flying(s);
    PlacedSame(s, u);
  }

  lemma DiskSteady(s: State, a: Action)
    requires Good(s) && (a.DiskRead? || a.DiskQueue?)
    ensures Steady(Step(s, a))
  {
    if a.i < |s.pool| {
      if a.DiskRead? {
        ReadSteady(s, a);
      } else if s.pool[a.i].outcome.Some? {
        QueuedSteady(s, a.i);
      }
    }
  }

  lemma QueuedSteady(s: State, i: nat)
    requires Good(s) && i < |s.pool| && s.pool[i].outcome.Some?
    ensures Steady(QueueTask(s, i))
  {
    var u := QueueTask(s, i);
    var f := Ready(s.pool[i].gen, s.pool[i].outcome.value);
    assert u.queue[s.mark..] == s.queue[s.mark..] + [f];
    assert s.phase == Functors ==> u.queue[..u.mark] == s.queue[..s.mark];
    assert forall g :: g in u.queue ==> g in s.queue || g == f;
    QueuedPlaces(s, u, f);
    QueuedRuns(s, i);
    QueuedGuards(s, u, f);
  }

  lemma QueuedPlaces(s: State, u: State, f: Functor)
    requires OneOpen(s) && s.mark <= |s.queue| && u.queue == s.queue + [f] && u == s.(queue := u.queue, pool := u.pool)
    requires f.Ready?
    ensures OneOpen(u) && forall c :: c in s.conns && Passing(s, c) ==> Passing(u, c)
  {
    forall c | c in s.conns && Passing(s, c) ensures Passing(u, c) {
      PassingLater(s, u, c, f);
    }
    assert forall c :: IsOpen(u, c) ==> IsOpen(s, c);
    forall c | IsOpen(u, c) ensures Placed(u, c) {
      assert IsOpen(s, c) && Placed(s, c);
      if Leaving(s, c) {
        LeavingLater(s, u, c, f);
      }
    }
  }

  lemma QueuedRuns(s: State, i: nat)
    requires RunningOk(s) && i < |s.pool| && s.pool[i].outcome.Some?
    requires forall c :: c in s.conns && Passing(s, c) ==> Passing(QueueTask(s, i), c)
    ensures RunningOk(QueueTask(s, i))
  {
    var t := s.pool[i];
    var f := Ready(t.gen, t.outcome.value);
    var u := QueueTask(s, i);
    assert t in s.pool;
    PoolAt(s.pool, i, s.gen);
    TokensSnoc(s.queue, f, s.gen);
    assert forall x :: x in u.pool ==> x in s.pool;
    assert forall g :: g in u.queue ==> g in s.queue || g == f;
    assert Flying(u) ==> Flying(s);
  }

  lemma QueuedGuards(s: State, u: State, f: Functor)
    requires ClosingOk(s) && DrainedOk(s) && s.mark <= |s.queue| && f.Ready?
    requires u.queue == s.queue + [f] && u == s.(queue := u.queue, pool := u.pool)
    ensures ClosingOk(u) && DrainedOk(u)
  {
    if OwnOpen(s) {
      GuardedSnoc(s.queue, f, s.data.value);
      if Ending(s.queue, s.data.value) {
        EndingSnoc(s.queue, s.data.value, f);
      }
    }
  }

  lemma BeginSteadily(s: State)
    requires Good(s) && s.phase == Events
    ensures Steady(s.(phase := Functors, mark := |s.queue|))
  {
    var t := s.(phase := Functors, mark := |s.queue|);
    assert Flying(t) ==> Flying(s);
    assert s.queue[|s.queue|..] == [] && s.queue[..|s.queue|] == s.queue;
    assert Due(t) == Due(s);
    forall c | c in s.conns ensures (Passing(s, c) ==> Passing(t, c)) && (Leaving(s, c) ==> Leaving(t, c)) {
    }
    assert forall c :: IsOpen(t, c) ==> IsOpen(s, c);
    forall c | IsOpen(t, c) ensures Placed(t, c) {
      assert IsOpen(s, c) && Placed(s, c);
    }
  }

  lemma EndSteadily(s: State)
    requires Good(s) && s.phase == Functors && s.mark == 0
    ensures Steady(s.(phase := Events, earlier := s.nextServer))
  {
    var t := s.(phase := Events, earlier := s.nextServer);
    assert Flying(t) ==> Flying(s);
    assert s.queue[0..] == s.queue && Due(s) == [] && Rest(s) == s.queue;
    assert forall c :: c in s.conns ==> !Leaving(s, c) && !Passing(s, c);
    assert forall c :: IsOpen(t, c) ==> IsOpen(s, c);
    forall c | IsOpen(t, c) ensures Placed(t, c) {
      assert IsOpen(s, c) && Placed(s, c);
    }
  }

  lemma EventSteady(s: State, a: Action)
    requires Good(s) && s.phase == Events && Orderly(s, a)
    ensures Steady(Event(s, a))
  {
    match a {
      case Pasv => ListenSteady(s);
      case PasvTimeout =>
        if s.server.Some? && s.xfer == Nothing && s.data.None? {
          TimeoutSteady(s);
        }
      case ListCommand(e) =>
        SaidSteady(s);
        if s.server.Some? {
          BeginSteady(s, BeginList(s), e);
        }
      case RetrCommand(file, e) =>
        SaidSteady(s);
        if s.server.Some? {
          BeginSteady(s, BeginRetr(s, file), e);
        }
      case DataConnected(to, e) => ConnectSteady(s, to, e);
      case DataEof(c) => EofSteady(s, c);
      case DataWritable(c, r) => WritableSteady(s, c, r);
      case _ =>
    }
  }

  lemma ConnectSteady(s: State, to: ServerId, e: Env)
    requires Good(s) && s.phase == Events && Orderly(s, DataConnected(to, e))
    ensures Steady(AcceptConn(s, to, e))
  {
    if s.server != Some(to) {
      PassSteady(s, to, e);
    } else if s.data.Some? {
      RefuseSteady(s, to, e);
    } else {
      AdoptSteady(s, to, e);
    }
  }

  lemma SaidSteady(s: State)
    requires Steady(s)
    ensures Steady(Say(s, Code(425)))
  {
    assert Flying(Say(s, Code(425))) ==> Flying(s);
    PlacedSame(s, Say(s, Code(425)));
  }

  lemma {:induction false} StepSteady(s: State, a: Action)
    requires Good(s) && Orderly(s, a)
    ensures Good(Step(s, a))
  {
    StepInv(s, a);
    if a.DiskRead? || a.DiskQueue? {
      DiskSteady(s, a);
    } else if a.BeginFunctors? {
      if s.phase == Events {
        BeginSteadily(s);
      }
    } else if a.EndFunctors? {
      if s.phase == Functors && s.mark == 0 {
        EndSteadily(s);
      }
    } else if a.RunFunctor? {
      if s.phase == Functors && 0 < s.mark <= |s.queue| {
        RunHeadSteady(s, a.e);
      }
    } else if s.phase == Events {
      EventSteady(s, a);
    }
  }

  lemma {:induction false} RunSteady(actions: seq<Action>)
    requires OrderlyRun(actions)
    ensures Good(Run(actions))
  {
    if actions != [] {
      var n := |actions| - 1;
      var before := actions[..n];
      forall k | 0 <= k < n ensures Orderly(Run(before[..k]), before[k]) {
        assert before[..k] == actions[..k];
      }
      RunSteady(before);
      assert Orderly(Run(actions[..n]), actions[n]);
      StepSteady(Run(before), actions[n]);
    }
  }

  /**
   No orderly run calls through a null pointer or an empty callback or fails an assertion; and when a data server
   is deleted its connection is closed, or up and goes down with it.
   */
  lemma {:induction false} NeverFails(actions: seq<Action>)
    requires OrderlyRun(actions)
    ensures var s := Run(actions);
            && !s.failed
            && (forall c :: c in s.conns && s.queue != [] && s.queue[0] == DeleteServer(s.conns[c].server) ==>
                  s.conns[c].tcp.state != Tcp.Disconnecting)
  {
    RunSteady(actions);
    DeletedClosed(Run(actions));
  }

  lemma DeletedClosed(s: State)
    requires Good(s)
    ensures forall c :: c in s.conns && s.queue != [] && s.queue[0] == DeleteServer(s.conns[c].server) ==>
              s.conns[c].tcp.state != Tcp.Disconnecting
  {
    forall c | c in s.conns && s.queue != [] && s.queue[0] == DeleteServer(s.conns[c].server)
      ensures s.conns[c].tcp.state != Tcp.Disconnecting
    {
      assert DeleteServer(s.conns[c].server) in s.queue && ConnOk(s, c);
      assert IsOpen(s, c) ==> Placed(s, c);
    }
  }
}
