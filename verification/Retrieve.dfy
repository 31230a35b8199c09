/**
 RETR with a client that does not overlap transfers: PASV, LIST and RETR come while no transfer is in
 progress, and each data server gets at most one connection, in a later loop iteration than the one that
 opened it, be it the session's or one released and not yet deleted. The disk pool's timing, short and failing reads,
 partial and failing socket writes, a full pool, a failing `open`, aborts by the peer and timeouts are all
 unrestricted.
 */
module Retrieve {
  import opened Bytes
  import opened Sequences
  import Tcp
  import opened Transfer
  import opened Wrappers

  predicate Polite(s: State, a: Action) {
    match a
    case Pasv => s.xfer == Nothing
    case ListCommand(_) => s.xfer == Nothing
    case RetrCommand(_, _) => s.xfer == Nothing
    case DataConnected(to, _) =>
      to < s.earlier && to !in s.joined && (s.server == Some(to) || DeleteServer(to) in s.queue)
    case _ => true
  }

  ghost predicate PoliteRun(actions: seq<Action>) {
    forall k :: 0 <= k < |actions| ==> Polite(Run(actions[..k]), actions[k])
  }

  /** Bytes a connection has accepted: given to the kernel or waiting in its output buffer. */
  function Accepted(k: DataConn): seq<byte> { k.tcp.kernel + k.tcp.out }

  function Prefix(f: File, n: nat): File { f[..Min(n, |f|)] }

  // ---------------------------------------------------------------------------------------------
  // What a sequence of reads delivers
  // ---------------------------------------------------------------------------------------------

  /** What a transfer delivers whose `i`-th read returns at most `sizes[i]` bytes; each starts one chunk further on. */
  function Delivered(f: File, sizes: seq<nat>): File {
    if sizes == [] then []
    else
      var last := |sizes| - 1;
      Delivered(f, sizes[..last]) + Slice(f, last * CHUNK, Min(sizes[last], CHUNK))
  }

  /** The read at chunk `i` returns all there is up to the next chunk. */
  predicate WholeRead(f: File, i: nat, n: nat) { |Slice(f, i * CHUNK, Min(n, CHUNK))| == |Slice(f, i * CHUNK, CHUNK)| }

  predicate AllWhole(f: File, sizes: seq<nat>) { forall i :: 0 <= i < |sizes| ==> WholeRead(f, i, sizes[i]) }

  /** The last read returned nothing. */
  predicate FoundEnd(f: File, sizes: seq<nat>) {
    sizes != [] && Slice(f, (|sizes| - 1) * CHUNK, Min(sizes[|sizes| - 1], CHUNK)) == []
  }

  lemma DeliveredSnoc(f: File, sizes: seq<nat>, n: nat)
    ensures Delivered(f, sizes + [n]) == Delivered(f, sizes) + Slice(f, |sizes| * CHUNK, Min(n, CHUNK))
    ensures FoundEnd(f, sizes + [n]) <==> Slice(f, |sizes| * CHUNK, Min(n, CHUNK)) == []
  {
    assert (sizes + [n])[..|sizes|] == sizes;
  }

  lemma NextSlice(f: File, offset: nat)
    ensures Prefix(f, offset) + Slice(f, offset, CHUNK) == Prefix(f, offset + CHUNK)
  {
  }

  lemma {:induction false} DeliveredPrefix(f: File, sizes: seq<nat>)
    ensures |Delivered(f, sizes)| <= |Prefix(f, |sizes| * CHUNK)|
    ensures AllWhole(f, sizes) ==> Delivered(f, sizes) == Prefix(f, |sizes| * CHUNK)
    ensures |Delivered(f, sizes)| == |Prefix(f, |sizes| * CHUNK)| ==> AllWhole(f, sizes)
  {
    if sizes != [] {
      var last := |sizes| - 1;
      var before := sizes[..last];
      DeliveredPrefix(f, before);
      NextSlice(f, last * CHUNK);
      assert last * CHUNK + CHUNK == |sizes| * CHUNK;
      assert forall i :: 0 <= i < last ==> before[i] == sizes[i];
      WholeIsSlice(f, last, sizes[last]);
    }
  }

  lemma WholeIsSlice(f: File, i: nat, n: nat)
    ensures |Slice(f, i * CHUNK, Min(n, CHUNK))| <= |Slice(f, i * CHUNK, CHUNK)|
    ensures WholeRead(f, i, n) ==> Slice(f, i * CHUNK, Min(n, CHUNK)) == Slice(f, i * CHUNK, CHUNK)
  {
  }

  /** `n` positions from `from` on. */
  function Range(from: nat, n: nat): seq<nat> { seq<nat>(n, i requires 0 <= i < n => from + i) }

  /** Which bytes of the file the reads deliver, in the order delivered. */
  function Positions(f: File, sizes: seq<nat>): seq<nat> {
    if sizes == [] then []
    else
      var last := |sizes| - 1;
      Positions(f, sizes[..last]) + Range(last * CHUNK, |Slice(f, last * CHUNK, Min(sizes[last], CHUNK))|)
  }

  /** The bytes delivered are those at the positions, which only grow. */
  predicate Picks(f: File, d: File, pos: seq<nat>) {
    && |pos| == |d|
    && (forall k :: 0 <= k < |pos| ==> pos[k] < |f| && d[k] == f[pos[k]])
    && (forall j, k :: 0 <= j < k < |pos| ==> pos[j] < pos[k])
  }

  /** Nothing is left out before the last byte delivered. */
  predicate Gapless(pos: seq<nat>) { forall k :: 0 <= k < |pos| ==> pos[k] == k }

  /** No read that returned bytes follows one that was cut short. */
  predicate ShortOnlyAtEnd(f: File, sizes: seq<nat>) {
    forall i, j :: 0 <= i < j < |sizes| && !WholeRead(f, i, sizes[i]) ==>
      Slice(f, j * CHUNK, Min(sizes[j], CHUNK)) == []
  }

  lemma {:induction false} PositionsPick(f: File, sizes: seq<nat>)
    ensures Picks(f, Delivered(f, sizes), Positions(f, sizes))
    ensures forall k :: 0 <= k < |Positions(f, sizes)| ==> Positions(f, sizes)[k] < |sizes| * CHUNK
  {
    if sizes != [] {
      var last := |sizes| - 1;
      PositionsPick(f, sizes[..last]);
      PickMore(f, Delivered(f, sizes[..last]), Positions(f, sizes[..last]), last, Min(sizes[last], CHUNK));
    }
  }

  lemma PickMore(f: File, d: File, pos: seq<nat>, i: nat, n: nat)
    requires Picks(f, d, pos) && n <= CHUNK && forall k :: 0 <= k < |pos| ==> pos[k] < i * CHUNK
    ensures var part := Slice(f, i * CHUNK, n); var all := pos + Range(i * CHUNK, |part|);
            Picks(f, d + part, all) && forall k :: 0 <= k < |all| ==> all[k] < (i + 1) * CHUNK
  {
    var part := Slice(f, i * CHUNK, n);
    var all := pos + Range(i * CHUNK, |part|);
    forall k | 0 <= k < |all| ensures all[k] < |f| && (d + part)[k] == f[all[k]] && all[k] < (i + 1) * CHUNK {
      if k >= |pos| {
        assert all[k] == i * CHUNK + (k - |pos|);
      }
    }
  }

  /** The reads deliver an unbroken beginning of the file exactly when only the last to return bytes was cut short. */
  lemma {:induction false} GaplessExactly(f: File, sizes: seq<nat>)
    ensures Gapless(Positions(f, sizes)) <==> ShortOnlyAtEnd(f, sizes)
  {
    if sizes != [] {
      var last := |sizes| - 1;
      var before := sizes[..last];
      var part := Slice(f, last * CHUNK, Min(sizes[last], CHUNK));
      GaplessExactly(f, before);
      assert forall i :: 0 <= i < last ==> before[i] == sizes[i];
      if part == [] {
        assert Positions(f, sizes) == Positions(f, before);
        LastEmpty(f, sizes);
      } else {
        LastFound(f, sizes);
        GapBefore(Positions(f, before), last * CHUNK, |part|);
        PositionsPick(f, before);
        DeliveredPrefix(f, before);
      }
    }
  }

  lemma LastEmpty(f: File, sizes: seq<nat>)
    requires FoundEnd(f, sizes)
    ensures ShortOnlyAtEnd(f, sizes) <==> ShortOnlyAtEnd(f, sizes[..|sizes| - 1])
  {
    var before := sizes[..|sizes| - 1];
    if ShortOnlyAtEnd(f, sizes) {
      forall i, j | 0 <= i < j < |before| && !WholeRead(f, i, before[i])
        ensures Slice(f, j * CHUNK, Min(before[j], CHUNK)) == []
      {
        assert before[i] == sizes[i] && before[j] == sizes[j];
      }
    }
    if ShortOnlyAtEnd(f, before) {
      forall i, j | 0 <= i < j < |sizes| && !WholeRead(f, i, sizes[i])
        ensures Slice(f, j * CHUNK, Min(sizes[j], CHUNK)) == []
      {
        assert j < |before| ==> before[i] == sizes[i] && before[j] == sizes[j];
      }
    }
  }

  lemma LastFound(f: File, sizes: seq<nat>)
    requires sizes != [] && !FoundEnd(f, sizes)
    ensures ShortOnlyAtEnd(f, sizes) <==> AllWhole(f, sizes[..|sizes| - 1])
    ensures AllWhole(f, sizes[..|sizes| - 1]) ==> ShortOnlyAtEnd(f, sizes[..|sizes| - 1])
  {
    var last := |sizes| - 1;
    var before := sizes[..last];
    if ShortOnlyAtEnd(f, sizes) {
      forall i | 0 <= i < last ensures WholeRead(f, i, before[i]) {
        assert before[i] == sizes[i];
      }
    }
    if AllWhole(f, before) {
      forall i | 0 <= i < last ensures WholeRead(f, i, sizes[i]) {
        assert before[i] == sizes[i];
      }
    }
  }

  lemma GapBefore(pos: seq<nat>, from: nat, n: nat)
    requires n > 0
    ensures Gapless(pos + Range(from, n)) <==> Gapless(pos) && |pos| == from
  {
    var all := pos + Range(from, n);
    if Gapless(all) {
      assert all[|pos|] == from;
      forall k | 0 <= k < |pos| ensures pos[k] == k {
        assert all[k] == k;
      }
    }
  }

  /** Reads deliver the file exactly when they reach its end and none of them was cut short before it. */
  lemma {:induction false} ShortReadsLoseBytes(f: File, sizes: seq<nat>)
    ensures Delivered(f, sizes) == f <==> AllWhole(f, sizes) && |sizes| * CHUNK >= |f|
    ensures FoundEnd(f, sizes) ==> (Delivered(f, sizes) == f <==> AllWhole(f, sizes))
  {
    DeliveredPrefix(f, sizes);
    if FoundEnd(f, sizes) && AllWhole(f, sizes) {
      assert WholeRead(f, |sizes| - 1, sizes[|sizes| - 1]);
    }
  }

  // ---------------------------------------------------------------------------------------------
  // Servers, connections and the functor queue
  // ---------------------------------------------------------------------------------------------

  predicate NoDelete(q: seq<Functor>) { forall f :: f in q ==> !f.DeleteServer? }

  predicate NoComplete(q: seq<Functor>) { forall f :: f in q ==> !f.Complete? }

  /** The data server was opened in this iteration of the loop. */
  predicate Fresh(s: State) { s.server.Some? && s.server.value >= s.earlier }

  /** The functors that run before the next events. */
  function Due(s: State): seq<Functor> {
    if s.phase == Functors && s.mark <= |s.queue| then s.queue[..s.mark] else s.queue
  }

  /** The functors that are there when events come next. */
  function Rest(s: State): seq<Functor> {
    if s.phase == Functors && s.mark <= |s.queue| then s.queue[s.mark..] else s.queue
  }

  /** Servers below this will be old when events come next. */
  function Bound(s: State): ServerId { if s.phase == Functors then s.nextServer else s.earlier }

  /** At most one server below the bound is about to be deleted. */
  predicate OneGone(q: seq<Functor>, bound: ServerId) {
    forall f, g :: f in q && g in q && f.DeleteServer? && g.DeleteServer? && f.server < bound && g.server < bound ==>
      f == g
  }

  /** No server that could take a first connection next. */
  predicate NoVirgin(s: State) {
    && (s.server.Some? && s.server.value < Bound(s) ==> s.server.value in s.joined)
    && (forall f :: f in Rest(s) && f.DeleteServer? && f.server < Bound(s) ==> f.server in s.joined)
  }

  predicate QueueOk(s: State) {
    && s.mark <= |s.queue|
    && (s.phase == Events ==> s.mark == 0)
    && s.earlier <= s.nextServer && (s.server.Some? ==> s.server.value < s.nextServer)
    && (forall sv :: sv in s.joined ==> sv < s.earlier)
    && (s.server.Some? && !Fresh(s) ==> NoDelete(s.queue))
    && (s.server.Some? && s.server.value < Bound(s) ==> NoDelete(Rest(s)))
    && OneGone(Rest(s), Bound(s))
    && (NoVirgin(s) || NoComplete(Rest(s)))
  }

  /** An open data connection belongs to the data server, or to one about to be deleted. */
  predicate DataOk(s: State) {
    s.data.Some? ==>
      && s.data.value in s.conns
      && var k := s.conns[s.data.value];
         Tcp.Open(k.tcp) ==> s.server == Some(k.server) || DeleteServer(k.server) in s.queue
  }

  /** A connection refused because there was another: its close is queued. */
  predicate Refused(s: State, c: ConnId)
    requires c in s.conns
  {
    && Close(c) in Due(s) && s.conns[c].tcp.out == [] && (s.phase == Events ==> s.server == Some(s.conns[c].server))
  }

  /**
   An open connection is the data connection, or its server is about to be deleted, or it was refused; and beside
   such a one the data connection is not up.
   */
  predicate ConnOk(s: State, c: ConnId)
    requires c in s.conns
  {
    && c < s.nextConn && s.conns[c].server < s.earlier && s.conns[c].server in s.joined
    && s.conns[c].tcp.state != Tcp.Connecting
    && Tcp.StreamOk(s.conns[c].tcp)
    && (Tcp.Open(s.conns[c].tcp) && s.data != Some(c) ==>
          (DeleteServer(s.conns[c].server) in s.queue || Refused(s, c)) && !DataUp(s))
    && StreamIsFile(s.conns[c])
  }

  /** A RETR's connection has accepted what its reads deliver of the file. */
  predicate StreamIsFile(k: DataConn) { k.file.Some? ==> Accepted(k) == Delivered(k.file.value, k.sizes) }

  /** Each server has one connection at most. */
  predicate Distinct(s: State) {
    forall c, d :: c in s.conns && d in s.conns && s.conns[c].server == s.conns[d].server ==> c == d
  }

  predicate ConnsOk(s: State) { forall c :: c in s.conns ==> ConnOk(s, c) }

  predicate Shape(s: State) { QueueOk(s) && DataOk(s) && ConnsOk(s) && Distinct(s) }

  // ---------------------------------------------------------------------------------------------
  // The pump: at most one of a read under way, a result waiting, unwritten output, a completion
  // ---------------------------------------------------------------------------------------------

  function TokenOf(f: Functor, gen: nat): nat {
    if f.Complete? || (f.Ready? && f.gen == gen) then 1 else 0
  }

  function Tokens(q: seq<Functor>, gen: nat): nat {
    if q == [] then 0 else TokenOf(q[0], gen) + Tokens(q[1..], gen)
  }

  function PoolTokens(p: seq<Task>, gen: nat): nat {
    if p == [] then 0 else (if p[0].gen == gen then 1 else 0) + PoolTokens(p[1..], gen)
  }

  /** Reads of generation `gen` outstanding. */
  predicate Flying(s: State) {
    || (exists t :: t in s.pool && t.gen == s.gen)
    || (exists f :: f in s.queue && f.Ready? && f.gen == s.gen)
  }

  predicate GoodOutcome(target: File, offset: nat, o: Outcome) {
    o.error || (o.data == Slice(target, offset, Min(o.limit, CHUNK)) && o.atEof == (o.data == []))
  }

  predicate TaskOk(s: State, t: Task) {
    && t.gen <= s.gen
    && (t.gen == s.gen && s.xfer == Retrieving ==>
          && s.offset >= CHUNK
          && t.job == ReadAt(s.fd, s.offset - CHUNK)
          && (t.outcome.Some? ==> GoodOutcome(s.target, s.offset - CHUNK, t.outcome.value)))
  }

  predicate ReadyOk(s: State, f: Functor) {
    f.Ready? ==>
      && f.gen <= s.gen
      && (f.gen == s.gen && s.xfer == Retrieving ==>
            s.offset >= CHUNK && GoodOutcome(s.target, s.offset - CHUNK, f.outcome))
  }

  predicate FlightsOk(s: State) {
    && (forall t :: t in s.pool ==> TaskOk(s, t))
    && (forall f :: f in s.queue ==> ReadyOk(s, f))
  }

  function Load(s: State, k: DataConn): nat {
    Tokens(s.queue, s.gen) + PoolTokens(s.pool, s.gen) + if k.tcp.out != [] then 1 else 0
  }

  predicate Balanced(s: State, k: DataConn) {
    && (k.tcp.state == Tcp.Connected || s.done)
    && Load(s, k) <= 1
    && (s.done ==> Load(s, k) == 0)
    && (Flying(s) ==> s.offset == |k.sizes| * CHUNK + CHUNK)
    && (!NoComplete(s.queue) || k.tcp.out != [] ==> s.offset == |k.sizes| * CHUNK)
  }

  /** The kernel has all that the reads delivered, the last of which found nothing more. */
  predicate AllGiven(target: File, kernel: seq<byte>, sizes: seq<nat>) {
    kernel == Delivered(target, sizes) && FoundEnd(target, sizes)
  }

  predicate Going(s: State) {
    && s.offset >= CHUNK
    && PoolTokens(s.pool, s.gen) <= 1
    && s.fd.Some? && StillOpen(s.table, s.fd.value) && s.table[s.fd.value.num].content == s.target
    && s.active.Some? && s.active.value in s.conns && Tcp.Open(s.conns[s.active.value].tcp)
    && s.conns[s.active.value].file == Some(s.target)
    && (s.data == s.active || s.data.None?)
    && (s.done ==> AllGiven(s.target, s.conns[s.active.value].tcp.kernel, s.conns[s.active.value].sizes))
    && (s.data == s.active ==> Balanced(s, s.conns[s.active.value]))
  }

  predicate Idle(s: State) {
    DataUp(s) ==> NoComplete(s.queue) && s.conns[s.data.value].file.None? && Accepted(s.conns[s.data.value]) == []
  }

  predicate AnyOpen(s: State) { exists c :: c in s.conns && Tcp.Open(s.conns[c].tcp) }

  predicate PumpOk(s: State) {
    match s.xfer
    case Nothing => Idle(s) && !Flying(s)
    case Listing => (DataUp(s) ==> s.conns[s.data.value].file.None?) && (Flying(s) ==> AnyOpen(s))
    case Retrieving => if s.offset == 0 then !Flying(s) && !DataUp(s) && !s.done else Going(s)
  }

  predicate RepliesOk(s: State) {
    forall r :: r in s.replies ==> (r.TransferComplete? ==> AllGiven(r.file, r.written, r.sizes)) && r != Code(226)
  }

  /** Nothing of the present transfer comes in the queue before the deletion of server `sv`. */
  predicate Clear(q: seq<Functor>, sv: ServerId, gen: nat) {
    q == [] || q[0] == DeleteServer(sv) || (TokenOf(q[0], gen) == 0 && Clear(q[1..], sv, gen))
  }

  /** On a connection whose server is about to be deleted nothing happens before that. */
  predicate ReleasedOk(s: State) {
    DataUp(s) && DeleteServer(s.conns[s.data.value].server) in s.queue ==>
      Clear(s.queue, s.conns[s.data.value].server, s.gen)
  }

  predicate Inv(s: State) { Shape(s) && FlightsOk(s) && PumpOk(s) && RepliesOk(s) && ReleasedOk(s) }

  // ---------------------------------------------------------------------------------------------
  // Counting
  // ---------------------------------------------------------------------------------------------

  lemma {:induction false} TokensSnoc(q: seq<Functor>, f: Functor, gen: nat)
    ensures Tokens(q + [f], gen) == Tokens(q, gen) + TokenOf(f, gen)
  {
    if q != [] {
      TokensSnoc(q[1..], f, gen);
      assert (q + [f])[1..] == q[1..] + [f];
    }
  }

  lemma {:induction false} TokensZero(q: seq<Functor>, gen: nat)
    ensures Tokens(q, gen) == 0 <==> NoComplete(q) && forall f :: f in q && f.Ready? ==> f.gen != gen
  {
    if q != [] {
      TokensZero(q[1..], gen);
      assert q == [q[0]] + q[1..];
    }
  }

  lemma {:induction false} PoolConcat(a: seq<Task>, b: seq<Task>, gen: nat)
    ensures PoolTokens(a + b, gen) == PoolTokens(a, gen) + PoolTokens(b, gen)
  {
    if a == [] {
      assert a + b == b;
    } else {
      PoolConcat(a[1..], b, gen);
      assert (a + b)[1..] == a[1..] + b;
    }
  }

  lemma PoolAt(p: seq<Task>, i: nat, gen: nat)
    requires i < |p|
    ensures PoolTokens(p, gen) == PoolTokens(RemoveAt(p, i), gen) + if p[i].gen == gen then 1 else 0
    ensures forall t: Task :: t.gen == p[i].gen ==> PoolTokens(p[i := t], gen) == PoolTokens(p, gen)
  {
    PoolConcat(p[..i], p[i + 1..], gen);
    PoolConcat(p[..i], [p[i]], gen);
    PoolConcat(p[..i] + [p[i]], p[i + 1..], gen);
    assert p == p[..i] + [p[i]] + p[i + 1..];
    forall t: Task | t.gen == p[i].gen ensures PoolTokens(p[i := t], gen) == PoolTokens(p, gen) {
      PoolConcat(p[..i], [t], gen);
      PoolConcat(p[..i] + [t], p[i + 1..], gen);
      assert p[i := t] == p[..i] + [t] + p[i + 1..];
    }
  }

  lemma {:induction false} PoolZero(p: seq<Task>, gen: nat)
    ensures PoolTokens(p, gen) == 0 <==> forall t :: t in p ==> t.gen != gen
  {
    if p != [] {
      PoolZero(p[1..], gen);
      assert p == [p[0]] + p[1..];
    }
  }

  /** Nothing in flight and no completion: the queue and the pool hold no token. */
  lemma NoTokens(s: State)
    requires NoComplete(s.queue) && !Flying(s)
    ensures Tokens(s.queue, s.gen) == 0 && PoolTokens(s.pool, s.gen) == 0
  {
    TokensZero(s.queue, s.gen);
    PoolZero(s.pool, s.gen);
  }

  lemma {:induction false} NoTokensClear(q: seq<Functor>, sv: ServerId, gen: nat)
    requires Tokens(q, gen) == 0
    ensures Clear(q, sv, gen)
  {
    if q != [] {
      NoTokensClear(q[1..], sv, gen);
    }
  }

  lemma {:induction false} ClearSnoc(q: seq<Functor>, f: Functor, sv: ServerId, gen: nat)
    requires Clear(q, sv, gen) && DeleteServer(sv) in q
    ensures Clear(q + [f], sv, gen)
  {
    assert (q + [f])[0] == q[0] && (q + [f])[1..] == q[1..] + [f];
    if q[0] != DeleteServer(sv) {
      ClearSnoc(q[1..], f, sv, gen);
    }
  }

  // ---------------------------------------------------------------------------------------------
  // Pieces shared by the actions
  // ---------------------------------------------------------------------------------------------

  predicate Gens(s: State) {
    && (forall t :: t in s.pool ==> t.gen <= s.gen)
    && (forall f :: f in s.queue && f.Ready? ==> f.gen <= s.gen)
  }

  /** The part of the invariant that does not speak of the transfer in progress. */
  predicate Base(s: State) { Shape(s) && Gens(s) && RepliesOk(s) }

  lemma QueueFrame(s: State, t: State)
    requires QueueOk(s) && t.queue == s.queue && t.mark == s.mark && t.phase == s.phase && t.server == s.server
    requires t.earlier == s.earlier && t.joined == s.joined && t.nextServer == s.nextServer
    ensures QueueOk(t)
  {
    assert Rest(t) == Rest(s) && Bound(t) == Bound(s);
  }

  /** Shape looks only at these fields. */
  lemma ShapeFrame(s: State, t: State)
    requires Shape(s) && t.queue == s.queue && t.mark == s.mark && t.phase == s.phase && t.server == s.server
    requires t.data == s.data && t.earlier == s.earlier && t.joined == s.joined
    requires t.nextConn == s.nextConn && t.nextServer == s.nextServer && t.conns.Keys == s.conns.Keys
    requires forall c :: c in s.conns ==> t.conns[c].tcp == s.conns[c].tcp && t.conns[c].server == s.conns[c].server
    requires forall c :: c in s.conns ==> t.conns[c].file == s.conns[c].file && t.conns[c].sizes == s.conns[c].sizes
    ensures Shape(t)
  {
    QueueFrame(s, t);
    assert DataUp(t) == DataUp(s) && Due(t) == Due(s);
    forall c | c in t.conns ensures ConnOk(t, c) {
      assert ConnOk(s, c);
    }
  }

  lemma EnqueueShape(s: State, f: Functor)
    requires Shape(s) && !f.DeleteServer? && !f.Complete?
    ensures Shape(Enqueue(s, f))
  {
    var t := Enqueue(s, f);
    EnqueueRest(s, f);
    forall c | c in t.conns ensures ConnOk(t, c) {
      assert ConnOk(s, c);
    }
  }

  lemma EnqueueRest(s: State, f: Functor)
    requires s.mark <= |s.queue|
    ensures Rest(Enqueue(s, f)) == Rest(s) + [f]
    ensures s.phase == Functors ==> Due(Enqueue(s, f)) == Due(s)
    ensures s.phase == Events ==> Due(Enqueue(s, f)) == Due(s) + [f]
  {
  }

  lemma EnqueueBase(s: State, f: Functor)
    requires Base(s) && !f.DeleteServer? && !f.Complete? && !f.Ready?
    ensures Base(Enqueue(s, f))
  {
    EnqueueShape(s, f);
  }

  /** Replacing a connection keeps the shape when the new one fits. */
  lemma SetConnShape(s: State, c: ConnId, k: DataConn)
    requires Shape(s) && c in s.conns && k.server == s.conns[c].server
    requires Tcp.StreamOk(k.tcp) && k.tcp.state != Tcp.Connecting && StreamIsFile(k)
    requires Tcp.Open(k.tcp) ==> Tcp.Open(s.conns[c].tcp)
    requires k.tcp.state == Tcp.Connected ==> s.conns[c].tcp.state == Tcp.Connected
    requires s.data == Some(c) || !Tcp.Open(k.tcp) || s.conns[c].tcp.out != [] || k.tcp.out == []
    ensures Shape(s.(conns := s.conns[c := k]))
  {
    var u := s.(conns := s.conns[c := k]);
    assert ConnOk(s, c);
    assert DataUp(u) ==> DataUp(s);
    forall d | d in u.conns ensures ConnOk(u, d) {
      assert ConnOk(s, d);
    }
  }

  lemma SetTcpShape(s: State, c: ConnId, t: Tcp.Conn)
    requires Shape(s) && c in s.conns && Tcp.StreamOk(t) && t.state != Tcp.Connecting
    requires Tcp.Open(t) ==> Tcp.Open(s.conns[c].tcp)
    requires t.state == Tcp.Connected ==> s.conns[c].tcp.state == Tcp.Connected
    requires s.data == Some(c) || !Tcp.Open(t) || s.conns[c].tcp.out != [] || t.out == []
    requires t.kernel + t.out == Accepted(s.conns[c])
    ensures Shape(SetTcp(s, c, t))
  {
    assert ConnOk(s, c);
    SetConnShape(s, c, s.conns[c].(tcp := t));
  }

  lemma DropBase(s: State)
    requires Base(s)
    ensures Base(DropData(s)) && !DataUp(DropData(s))
    ensures DropData(s).gen == s.gen && DropData(s).xfer == s.xfer
  {
    if s.data.Some? && Tcp.Open(s.conns[s.data.value].tcp) {
      var c := s.data.value;
      assert ConnOk(s, c);
      SetTcpShape(s, c, Tcp.ForceClose(s.conns[c].tcp));
      EnqueueBase(SetTcp(s, c, Tcp.ForceClose(s.conns[c].tcp)), Close(c));
    }
  }

  lemma AbortBase(s: State)
    requires Base(s)
    ensures Base(Abort(s))
    ensures DataUp(Abort(s)) ==> DataUp(s)
    ensures forall t :: t in s.pool ==> t.gen < Abort(s).gen
    ensures forall f :: f in s.queue && f.Ready? ==> f.gen < Abort(s).gen
  {
    ShapeFrame(s, Abort(s));
  }

  lemma GiveUpInv(s: State, code: nat)
    requires code != 226 && Base(s)
    ensures Inv(GiveUp(s, code))
  {
    var a := Say(s, Code(code));
    ShapeFrame(s, a);
    AbortBase(a);
    DropBase(Abort(a));
    EnqueueBase(DropData(Abort(a)), CloseServer);
    GiveUpQuiet(s, code);
    NothingPump(GiveUp(s, code));
  }

  lemma GiveUpQuiet(s: State, code: nat)
    requires Gens(s)
    ensures var t := GiveUp(s, code);
            && t.xfer == Nothing && !DataUp(t) && t.pool == s.pool && t.gen == s.gen + 1
            && (forall f :: f in t.queue && f.Ready? ==> f.gen < t.gen)
  {
    var q := GiveUp(s, code).queue;
    assert forall f :: f in q && f.Ready? ==> f in s.queue;
  }

  /** Once given up, whatever still comes back is of an earlier generation. */
  lemma NothingPump(t: State)
    requires t.xfer == Nothing && !DataUp(t) && (forall x :: x in t.pool ==> x.gen < t.gen)
    requires forall f :: f in t.queue && f.Ready? ==> f.gen < t.gen
    ensures FlightsOk(t) && PumpOk(t) && ReleasedOk(t)
  {
  }

  lemma DownInv(s: State)
    requires Base(s) && !DataUp(s)
    requires s.xfer == Retrieving && s.done ==> AllGiven(s.target, Written(s), ReadSizes(s))
    ensures Inv(Down(s))
  {
    var a := if s.xfer == Nothing then s else Say(s, DownReply(s));
    ShapeFrame(s, a);
    AbortBase(a);
    EnqueueBase(Abort(a), CloseServer);
    assert forall f :: f in Down(s).queue && f.Ready? ==> f in s.queue;
    NothingPump(Down(s));
  }

  /** While events are handled there is one open connection at most. */
  lemma SoleOpen(s: State, c: ConnId, d: ConnId)
    requires Shape(s) && s.phase == Events && c in s.conns && d in s.conns
    requires Tcp.Open(s.conns[c].tcp) && Tcp.Open(s.conns[d].tcp)
    ensures c == d
  {
    assert ConnOk(s, c) && ConnOk(s, d);
  }

  /** While there is one, no server can take a first connection. */
  lemma OpenNoVirgin(s: State, c: ConnId)
    requires Shape(s) && s.phase == Events && c in s.conns && Tcp.Open(s.conns[c].tcp)
    ensures NoVirgin(s)
  {
    assert ConnOk(s, c);
  }

  lemma CloseConnInv(s: State, c: ConnId)
    requires Inv(s)
    ensures Inv(CloseConn(s, c))
  {
    if c in s.conns && Tcp.Open(s.conns[c].tcp) {
      assert ConnOk(s, c);
      var t := SetTcp(s, c, Tcp.HandleClose(s.conns[c].tcp));
      SetTcpShape(s, c, Tcp.HandleClose(s.conns[c].tcp));
      DownInv(t);
    }
  }

  lemma ReleaseShape(s: State)
    requires Shape(s)
    ensures Shape(Release(s))
  {
    var t := Release(s);
    ReleaseQueue(s);
    forall c | c in t.conns ensures ConnOk(t, c) {
      assert ConnOk(s, c);
    }
  }

  lemma ReleaseQueue(s: State)
    requires QueueOk(s)
    ensures var t := Release(s);
            && QueueOk(t) && t == s.(queue := t.queue, server := None, data := None)
            && (forall f :: f in s.queue ==> f in t.queue) && (forall f :: f in Due(s) ==> f in Due(t))
            && (s.server.Some? ==> DeleteServer(s.server.value) in t.queue)
  {
    if s.server.Some? {
      var t, f := Release(s), DeleteServer(s.server.value);
      EnqueueRest(s, f);
      assert t.queue == s.queue + [f] && Rest(t) == Rest(s) + [f];
    }
  }

  lemma ReleaseInv(s: State)
    requires Inv(s)
    ensures Inv(Release(s))
  {
    ReleaseShape(s);
    ReleaseFlights(s);
  }

  lemma ReleaseFlights(s: State)
    requires FlightsOk(s) && PumpOk(s) && RepliesOk(s)
    ensures FlightsOk(Release(s)) && PumpOk(Release(s)) && RepliesOk(Release(s))
  {
    ReleaseFlying(s);
    ReleaseFields(s);
    var t := Release(s);
    if s.xfer == Retrieving && s.offset > 0 {
      StrippedGoing(s, t);
    }
  }

  lemma ReleaseFields(s: State)
    ensures var t := Release(s); t == s.(queue := t.queue, server := t.server, data := None)
  {
  }

  lemma StrippedGoing(s: State, t: State)
    requires Going(s) && t == s.(queue := t.queue, server := t.server, data := None)
    ensures Going(t)
  {
  }

  lemma ReleaseFlying(s: State)
    ensures var t := Release(s);
            (Flying(t) ==> Flying(s)) && forall f :: f in t.queue && f.Ready? ==> f in s.queue
  {
    var t := Release(s);
    assert forall f :: f in t.queue && f.Ready? ==> f in s.queue;
  }

  lemma ListenInv(s: State)
    requires Inv(s) && s.xfer == Nothing && s.phase == Events
    ensures Inv(Listen(s))
  {
    ReleaseInv(s);
    ReleaseFields(s);
    ListenFields(s);
    var t := if s.server.Some? then Release(s) else s;
    ListenShape(t, Listen(s));
    ListenPump(t, Listen(s));
  }

  lemma ListenFields(s: State)
    requires s.phase == Events
    ensures var t := if s.server.Some? then Release(s) else s; Listened(t, Listen(s)) && t.xfer == s.xfer
  {
  }

  /** A new data server, while there is none. */
  predicate Listened(t: State, u: State) {
    && t.server.None? && t.phase == Events
    && u == t.(server := Some(t.nextServer), nextServer := t.nextServer + 1, replies := t.replies + [Code(227)])
  }

  lemma ListenShape(t: State, u: State)
    requires Shape(t) && Listened(t, u)
    ensures Shape(u)
  {
    forall c | c in u.conns ensures ConnOk(u, c) {
      assert ConnOk(t, c);
    }
  }

  lemma ListenPump(t: State, u: State)
    requires FlightsOk(t) && PumpOk(t) && RepliesOk(t) && ReleasedOk(t) && Listened(t, u) && t.xfer == Nothing
    ensures FlightsOk(u) && PumpOk(u) && RepliesOk(u) && ReleasedOk(u)
  {
    assert Flying(u) ==> Flying(t);
  }

  // ---------------------------------------------------------------------------------------------
  // Starting a transfer
  // ---------------------------------------------------------------------------------------------

  /** A transfer has been asked for, nothing of it has happened, and its connection is untouched. */
  predicate Startable(s: State) {
    && Base(s) && Idle(s) && ReleasedOk(s) && !Flying(s)
    && (s.xfer == Retrieving ==> s.offset == 0 && !s.done)
  }

  lemma OpenFails(s: State)
    requires Startable(s) && DataUp(s)
    ensures Inv(Enqueue(DropData(Say(s, Code(550))), CloseServer))
  {
    var a := Say(s, Code(550));
    ShapeFrame(s, a);
    DropBase(a);
    DropFlights(a);
    EnqueueBase(DropData(a), CloseServer);
    RefusedPump(DropData(a), Enqueue(DropData(a), CloseServer));
  }

  /** Waiting for a connection, with the one there was on its way out. */
  lemma RefusedPump(s: State, t: State)
    requires Gens(s) && !DataUp(s) && !Flying(s) && t == Enqueue(s, CloseServer)
    requires s.xfer == Retrieving ==> s.offset == 0 && !s.done
    ensures FlightsOk(t) && PumpOk(t) && ReleasedOk(t)
  {
    assert forall f :: f in t.queue && f.Ready? ==> f in s.queue;
    assert !Flying(t);
  }

  lemma DropFlights(s: State)
    requires Gens(s) && !Flying(s)
    ensures var t := DropData(s); Gens(t) && t.xfer == s.xfer && t.offset == s.offset && t.done == s.done && !Flying(t)
  {
    assert forall f :: f in DropData(s).queue && f.Ready? ==> f in s.queue;
  }

  lemma OpenBase(s: State, num: nat)
    requires Startable(s) && DataUp(s)
    ensures Base(OpenTarget(s, num))
  {
    var t := OpenTarget(s, num);
    forall c | c in t.conns ensures ConnOk(t, c) {
      assert ConnOk(s, c);
    }
  }

  lemma FirstRejected(s: State, e: Env)
    requires Startable(s) && DataUp(s) && s.xfer == Retrieving && e.fdNum !in s.table && !e.submitOk
    ensures Inv(Request(OpenTarget(s, e.fdNum), e))
  {
    var o := OpenTarget(s, e.fdNum);
    OpenBase(s, e.fdNum);
    GiveUpInv(o, 451);
  }

  lemma FirstTask(s: State, e: Env)
    requires Startable(s) && DataUp(s) && s.xfer == Retrieving && e.fdNum !in s.table && e.submitOk
    ensures Inv(Request(OpenTarget(s, e.fdNum), e))
  {
    var o := OpenTarget(s, e.fdNum);
    OpenBase(s, e.fdNum);
    ShapeFrame(o, Submit(o));
    FirstFlights(s, e.fdNum);
    FirstGoing(s, e.fdNum);
  }

  lemma FirstFlights(s: State, num: nat)
    requires Gens(s) && !Flying(s) && DataUp(s) && s.xfer == Retrieving && s.offset == 0
    ensures FlightsOk(Submit(OpenTarget(s, num)))
  {
    var t := Submit(OpenTarget(s, num));
    var task := Task(s.gen, ReadAt(t.fd, 0), None);
    assert t.pool == s.pool + [task];
    assert forall x :: x in t.pool ==> x in s.pool || x == task;
  }

  lemma FirstGoing(s: State, num: nat)
    requires Idle(s) && !Flying(s) && DataUp(s) && s.xfer == Retrieving && s.offset == 0 && !s.done
    ensures Going(Submit(OpenTarget(s, num)))
  {
    NoTokens(s);
    var t := Submit(OpenTarget(s, num));
    var task := Task(s.gen, ReadAt(t.fd, 0), None);
    assert t.pool == s.pool + [task];
    PoolConcat(s.pool, [task], s.gen);
  }

  lemma ListingRequest(s: State, e: Env)
    requires Base(s) && s.xfer == Listing && ReleasedOk(s) && PumpOk(s)
    ensures Inv(Request(s, e))
  {
    if DataUp(s) {
      if e.emptyDir {
        ListingEnds(s, END_OF_LIST, e);
      } else if e.submitOk {
        var t := Submit(s);
        ShapeFrame(s, t);
        assert forall x :: x in t.pool ==> x in s.pool || x.gen == s.gen;
      } else {
        GiveUpInv(s, 451);
      }
    }
  }

  lemma ListingEnds(s: State, o: Outcome, e: Env)
    requires Base(s) && s.xfer == Listing && ReleasedOk(s) && PumpOk(s)
    requires !o.error && o.data == [] && o.atEof
    ensures Inv(ChunkReady(s, s.gen, o, e))
  {
    if s.data.Some? {
      var c := s.data.value;
      assert ConnOk(s, c);
      EndedShape(s, c, o.limit);
      EndedOpen(s, c, o.limit);
    } else {
      ShapeFrame(s, s.(failed := true));
    }
  }

  lemma TryStartInv(s: State, e: Env)
    requires Startable(s)
    ensures Inv(TryStart(s, e))
  {
    if DataUp(s) && s.xfer != Nothing {
      OpenFails(s);
      if s.xfer == Listing {
        ListingRequest(s, e);
      } else if e.fdNum in s.table {
      } else if e.submitOk {
        FirstTask(s, e);
      } else {
        FirstRejected(s, e);
      }
    }
  }

  lemma BeginInv(s: State, t: State, e: Env)
    requires Inv(s) && s.xfer == Nothing && t.gen == s.gen + 1 && RepliesOk(t)
    requires t.xfer == Retrieving ==> t.offset == 0 && !t.done
    requires t.queue == s.queue && t.mark == s.mark && t.phase == s.phase && t.server == s.server && t.pool == s.pool
    requires t.data == s.data && t.earlier == s.earlier && t.joined == s.joined
    requires t.nextServer == s.nextServer && t.nextConn == s.nextConn && t.conns == s.conns
    ensures Inv(TryStart(t, e))
  {
    ShapeFrame(s, t);
    assert !Flying(t);
    QuietReleased(t);
    TryStartInv(t, e);
  }

  /** With no token anywhere nothing can come too early. */
  lemma QuietReleased(s: State)
    requires Idle(s) && !Flying(s)
    ensures ReleasedOk(s)
  {
    if DataUp(s) {
      NoTokens(s);
      NoTokensClear(s.queue, s.conns[s.data.value].server, s.gen);
    }
  }

  /** A first connection finds all others closed. */
  lemma NoneOpen(s: State, to: ServerId, e: Env, c: ConnId)
    requires Shape(s) && s.phase == Events && Polite(s, DataConnected(to, e)) && c in s.conns
    ensures !Tcp.Open(s.conns[c].tcp)
  {
    assert ConnOk(s, c);
    if Tcp.Open(s.conns[c].tcp) {
      OpenNoVirgin(s, c);
    }
  }

  lemma AdoptInv(s: State, to: ServerId, e: Env)
    requires Inv(s) && Polite(s, DataConnected(to, e)) && s.phase == Events && s.data.None?
    ensures Inv(TryStart(Adopt(s, to), e))
  {
    var t := Adopt(s, to);
    forall c | c in s.conns ensures !Tcp.Open(s.conns[c].tcp) {
      NoneOpen(s, to, e, c);
    }
    AdoptShape(s, to);
    assert Flying(t) ==> Flying(s);
    QuietReleased(t);
    TryStartInv(t, e);
  }

  lemma AdoptShape(s: State, to: ServerId)
    requires Shape(s) && s.phase == Events && s.data.None? && to < s.earlier && to !in s.joined
    requires s.server == Some(to) || DeleteServer(to) in s.queue
    requires forall c :: c in s.conns ==> !Tcp.Open(s.conns[c].tcp)
    ensures Shape(Adopt(s, to)) && NoComplete(s.queue)
  {
    var t := Adopt(s, to);
    forall c | c in t.conns ensures ConnOk(t, c) {
      if c != s.nextConn {
        assert ConnOk(s, c);
      }
    }
    DistinctMore(s, t, to);
  }

  lemma RefuseInv(s: State, to: ServerId, e: Env)
    requires Inv(s) && Polite(s, DataConnected(to, e)) && s.phase == Events && s.data.Some?
    ensures Inv(Refuse(s, to))
  {
    NoneOpen(s, to, e, s.data.value);
    RefuseShape(s, to);
    RefuseFields(s, to);
    RefusePump(s, Refuse(s, to));
  }

  lemma RefuseFields(s: State, to: ServerId)
    requires forall c :: c in s.conns ==> c < s.nextConn
    ensures var t := Refuse(s, to);
            && t == s.(conns := t.conns, queue := s.queue + [Close(s.nextConn)], nextConn := t.nextConn,
                       joined := t.joined)
            && t.conns.Keys == s.conns.Keys + {s.nextConn} && (forall c :: c in s.conns ==> t.conns[c] == s.conns[c])
  {
  }

  /** A first connection to `to` leaves each server with one at most. */
  lemma DistinctMore(s: State, t: State, to: ServerId)
    requires Distinct(s) && ConnsOk(s) && to !in s.joined
    requires forall c :: c in t.conns ==> c == s.nextConn || (c in s.conns && t.conns[c].server == s.conns[c].server)
    requires s.nextConn in t.conns && t.conns[s.nextConn].server == to
    ensures Distinct(t)
  {
    forall c, d | c in t.conns && d in t.conns && t.conns[c].server == t.conns[d].server ensures c == d {
      assert c != s.nextConn ==> ConnOk(s, c);
      assert d != s.nextConn ==> ConnOk(s, d);
    }
  }

  lemma RefuseShape(s: State, to: ServerId)
    requires Shape(s) && s.phase == Events && s.data.Some? && !DataUp(s) && to < s.earlier && to !in s.joined
    requires s.server == Some(to) || DeleteServer(to) in s.queue
    ensures Shape(Refuse(s, to))
  {
    assert forall c :: c in s.conns ==> ConnOk(s, c);
    RefuseFields(s, to);
    var t := Refuse(s, to);
    RefuseQueue(s, t);
    forall c | c in s.conns ensures ConnOk(t, c) {
      assert ConnOk(s, c);
    }
    assert ConnOk(t, s.nextConn);
    DistinctMore(s, t, to);
  }

  lemma RefuseQueue(s: State, t: State)
    requires QueueOk(s) && s.phase == Events
    requires t == s.(conns := t.conns, queue := s.queue + [Close(s.nextConn)], nextConn := t.nextConn,
                     joined := t.joined)
    requires s.joined <= t.joined && forall sv :: sv in t.joined ==> sv < s.earlier
    ensures QueueOk(t)
  {
  }

  lemma RefusePump(s: State, t: State)
    requires FlightsOk(s) && PumpOk(s) && RepliesOk(s)
    requires s.data.Some? && s.data.value in s.conns && !Tcp.Open(s.conns[s.data.value].tcp)
    requires t == s.(conns := t.conns, queue := s.queue + [Close(s.nextConn)], nextConn := t.nextConn,
                     joined := t.joined)
    requires t.conns.Keys == s.conns.Keys + {s.nextConn} && forall c :: c in s.conns ==> t.conns[c] == s.conns[c]
    ensures FlightsOk(t) && PumpOk(t) && RepliesOk(t) && ReleasedOk(t)
  {
    assert forall f :: f in t.queue && f.Ready? ==> f in s.queue;
    assert Flying(t) ==> Flying(s);
    assert AnyOpen(s) ==> AnyOpen(t);
  }

  // ---------------------------------------------------------------------------------------------
  // A result comes back
  // ---------------------------------------------------------------------------------------------

  /** The state in which the head of the queue runs. */
  predicate AtHead(s: State, f: Functor) {
    Inv(s) && s.queue != [] && s.queue[0] == f && s.phase == Functors && 0 < s.mark <= |s.queue|
  }

  /** The functor closes no open connection. */
  predicate ClosesNone(s: State, f: Functor) {
    f.Close? && f.conn in s.conns ==> !Tcp.Open(s.conns[f.conn].tcp)
  }

  lemma PopRest(s: State, f: Functor)
    requires s.queue != [] && s.queue[0] == f && s.phase == Functors && 0 < s.mark <= |s.queue|
    ensures Rest(Pop(s)) == Rest(s) && Due(s) == [f] + Due(Pop(s)) && s.queue == [f] + Pop(s).queue
  {
  }

  lemma PopShape(s: State, f: Functor)
    requires AtHead(s, f) && !f.DeleteServer? && ClosesNone(s, f)
    ensures Base(Pop(s))
  {
    var t := Pop(s);
    PopRest(s, f);
    assert forall g :: g in t.queue ==> g in s.queue;
    forall c | c in t.conns ensures ConnOk(t, c) {
      assert ConnOk(s, c);
    }
  }

  /** Popping a functor that is no result of the current generation keeps everything. */
  lemma PopInv(s: State, f: Functor)
    requires AtHead(s, f) && !f.DeleteServer? && ClosesNone(s, f)
    requires f.Ready? ==> f.gen != s.gen || s.xfer != Retrieving
    ensures Inv(Pop(s))
  {
    PopShape(s, f);
    PopFlights(s, f);
    PopPump(s, f);
  }

  lemma PopPump(s: State, f: Functor)
    requires AtHead(s, f) && (f.Ready? ==> f.gen != s.gen || s.xfer != Retrieving)
    ensures PumpOk(Pop(s)) && RepliesOk(Pop(s)) && (!f.DeleteServer? ==> ReleasedOk(Pop(s)))
  {
    var t := Pop(s);
    assert s.queue == [f] + t.queue;
    assert forall g :: g in t.queue ==> g in s.queue;
    assert Flying(t) ==> Flying(s);
    assert NoComplete(s.queue) ==> NoComplete(t.queue);
    assert Tokens(t.queue, t.gen) <= Tokens(s.queue, s.gen);
  }

  /** When the head of the queue is the only token, nothing is left once it is popped. */
  lemma HeadAlone(s: State, f: Functor)
    requires s.queue != [] && s.queue[0] == f && TokenOf(f, s.gen) == 1
    requires Tokens(s.queue, s.gen) + PoolTokens(s.pool, s.gen) <= 1
    ensures NoComplete(Pop(s).queue) && !Flying(Pop(s)) && Tokens(s.queue, s.gen) == 1
  {
    TokensZero(Pop(s).queue, s.gen);
    PoolZero(s.pool, s.gen);
  }

  /** The result at the head is the only token of a running RETR. */
  lemma ReadyAlone(s: State, f: Functor)
    requires AtHead(s, f) && f.Ready? && f.gen == s.gen && s.xfer == Retrieving && s.data.Some?
    ensures s.offset >= CHUNK && Going(s) && s.data == s.active && !s.done
    ensures var k := s.conns[s.data.value];
            && k.tcp.out == [] && k.tcp.state == Tcp.Connected && s.offset == |k.sizes| * CHUNK + CHUNK
            && GoodOutcome(s.target, |k.sizes| * CHUNK, f.outcome)
    ensures NoComplete(Pop(s).queue) && !Flying(Pop(s))
  {
    assert f in s.queue && ReadyOk(s, f);
    assert Flying(s);
    HeadAlone(s, f);
  }

  /** A token at the head of the queue is for a connection of the data server itself. */
  lemma TokenServer(s: State, f: Functor)
    requires AtHead(s, f) && TokenOf(f, s.gen) == 1 && DataUp(s)
    ensures NoDelete(s.queue) && NoVirgin(Pop(s))
  {
    assert ConnOk(s, s.data.value);
    PopRest(s, f);
    assert s.server == Some(s.conns[s.data.value].server);
    assert forall g :: g in Rest(s) ==> g in s.queue;
  }

  /** With no server about to be deleted there is nothing to wait for. */
  lemma NoDeleteReleased(s: State)
    requires NoDelete(s.queue)
    ensures ReleasedOk(s)
  {
  }

  lemma EofInv(s: State, f: Functor, e: Env)
    requires AtHead(s, f) && f.Ready? && f.gen == s.gen && s.xfer == Retrieving && s.data.Some?
    requires !f.outcome.error && f.outcome.data == [] && f.outcome.atEof
    ensures Inv(ChunkReady(Pop(s), f.gen, f.outcome, e))
  {
    ReadyAlone(s, f);
    EofShape(s, f);
    EofPump(s, f);
  }

  lemma EndedShape(s: State, c: ConnId, limit: nat)
    requires Shape(s) && c in s.conns
    requires s.xfer == Retrieving && s.conns[c].file.Some? ==> NothingAt(s.conns[c], limit)
    ensures Shape(Ended(s, c, limit))
  {
    var k := s.conns[c];
    assert ConnOk(s, c);
    var m := Ended(s, c, limit).conns[c];
    if s.xfer == Retrieving && k.file.Some? {
      DeliveredSnoc(k.file.value, k.sizes, limit);
    }
    SetConnShape(s, c, m);
    ShapeFrame(s.(conns := s.conns[c := m]), Ended(s, c, limit));
  }

  /** The next read of at most `limit` bytes finds nothing. */
  predicate NothingAt(k: DataConn, limit: nat)
    requires k.file.Some?
  {
    Slice(k.file.value, |k.sizes| * CHUNK, Min(limit, CHUNK)) == []
  }

  /** A half-close leaves open what was open, and nothing up. */
  lemma EndedOpen(s: State, c: ConnId, limit: nat)
    requires c in s.conns && s.data == Some(c)
    ensures var t := Ended(s, c, limit); !DataUp(t) && (Flying(t) ==> Flying(s)) && (AnyOpen(s) ==> AnyOpen(t))
  {
    var t := Ended(s, c, limit);
    assert forall d :: d in s.conns ==> Tcp.Open(t.conns[d].tcp) == Tcp.Open(s.conns[d].tcp);
    if AnyOpen(s) {
      var d :| d in s.conns && Tcp.Open(s.conns[d].tcp);
      assert Tcp.Open(t.conns[d].tcp);
    }
  }

  lemma EofShape(s: State, f: Functor)
    requires AtHead(s, f) && f.Ready? && DataUp(s)
    requires s.xfer == Retrieving && s.conns[s.data.value].file.Some? ==>
               NothingAt(s.conns[s.data.value], f.outcome.limit)
    ensures Base(Ended(Pop(s), s.data.value, f.outcome.limit))
  {
    PopShape(s, f);
    EndedShape(Pop(s), s.data.value, f.outcome.limit);
  }

  lemma EofPump(s: State, f: Functor)
    requires AtHead(s, f) && f.Ready? && f.gen == s.gen && s.xfer == Retrieving && DataUp(s)
    requires !f.outcome.error && f.outcome.data == [] && f.outcome.atEof
    ensures var u := Ended(Pop(s), s.data.value, f.outcome.limit); FlightsOk(u) && PumpOk(u) && RepliesOk(u)
  {
    ReadyAlone(s, f);
    assert ConnOk(s, s.data.value);
    PopFlights(s, f);
    EndedPump(Pop(s), s.data.value, f.outcome.limit);
  }

  lemma EndedPump(t: State, c: ConnId, limit: nat)
    requires FlightsOk(t) && RepliesOk(t) && t.xfer == Retrieving && t.offset >= CHUNK && t.data == Some(c) == t.active
    requires NoComplete(t.queue) && !Flying(t) && c in t.conns && t.conns[c].tcp.out == [] && Tcp.Open(t.conns[c].tcp)
    requires t.fd.Some? && StillOpen(t.table, t.fd.value) && t.table[t.fd.value.num].content == t.target
    requires t.conns[c].file == Some(t.target) && StreamIsFile(t.conns[c]) && NothingAt(t.conns[c], limit)
    ensures var u := Ended(t, c, limit); FlightsOk(u) && PumpOk(u) && RepliesOk(u)
  {
    var k := t.conns[c];
    DeliveredSnoc(t.target, k.sizes, limit);
    NoTokens(t);
    assert k.tcp.kernel == Accepted(k);
    EndedFlights(t, c, limit);
  }

  lemma EndedFlights(t: State, c: ConnId, limit: nat)
    requires FlightsOk(t) && !Flying(t) && c in t.conns
    ensures FlightsOk(Ended(t, c, limit)) && !Flying(Ended(t, c, limit))
  {
  }

  /** What is sent on a RETR's connection is the next slice of its file. */
  predicate Follows(s: State, o: Outcome)
    requires DataUp(s)
  {
    var k := s.conns[s.data.value];
    k.file.Some? ==> s.xfer == Retrieving && o.data == Slice(k.file.value, |k.sizes| * CHUNK, Min(o.limit, CHUNK))
  }

  lemma SendShape(s: State, o: Outcome, r: Tcp.WriteResult)
    requires Base(s) && DataUp(s) && Follows(s, o) && NoVirgin(s)
    ensures Base(SendChunk(s, o, r))
  {
    SentBase(s, o, r);
    CompleteBase(Sent(s, o, r), Complete(s.data.value, true));
  }

  lemma SentBase(s: State, o: Outcome, r: Tcp.WriteResult)
    requires Base(s) && DataUp(s) && Follows(s, o)
    ensures Base(Sent(s, o, r))
  {
    var c := s.data.value;
    var k := s.conns[c];
    assert ConnOk(s, c);
    SendAccepts(k.tcp, o.data, r);
    if k.file.Some? {
      DeliveredSnoc(k.file.value, k.sizes, o.limit);
    }
    var m := Sent(s, o, r).conns[c];
    SetConnShape(s, c, m);
    ShapeFrame(s.(conns := s.conns[c := m]), Sent(s, o, r));
  }

  lemma SendAccepts(k: Tcp.Conn, msg: seq<byte>, r: Tcp.WriteResult)
    requires Tcp.StreamOk(k)
    ensures var m := Tcp.SendInLoop(k, msg, r);
            && Tcp.StreamOk(m)
            && (m == k || (m.accepted != k.accepted && m.kernel + m.out == k.kernel + k.out + msg))
  {
    Tcp.SendKeepsStream(k, msg, r);
    FlattenSnoc(k.accepted, msg);
  }

  lemma CompleteBase(s: State, f: Functor)
    requires Base(s) && f.Complete? && NoVirgin(s)
    ensures Base(Enqueue(s, f))
  {
    var t := Enqueue(s, f);
    EnqueueRest(s, f);
    forall c | c in t.conns ensures ConnOk(t, c) {
      assert ConnOk(s, c);
    }
  }

  lemma ChunkInv(s: State, f: Functor, e: Env)
    requires AtHead(s, f) && f.Ready? && f.gen == s.gen && s.xfer == Retrieving && s.data.Some?
    requires !f.outcome.error && f.outcome.data != []
    ensures Inv(ChunkReady(Pop(s), f.gen, f.outcome, e))
  {
    ReadyAlone(s, f);
    ChunkIsSent(s, f, e);
    ChunkShape(s, f, e.write);
    ChunkPump(s, f, e.write);
    TokenServer(s, f);
    SendReleased(Pop(s), f.outcome, e.write);
  }

  lemma SendReleased(s: State, o: Outcome, r: Tcp.WriteResult)
    requires DataUp(s) && NoDelete(s.queue)
    ensures ReleasedOk(SendChunk(s, o, r))
  {
    NoDeleteReleased(SendChunk(s, o, r));
  }

  lemma ChunkIsSent(s: State, f: Functor, e: Env)
    requires f.Ready? && f.gen == s.gen && s.xfer == Retrieving && s.data.Some? && s.queue != [] && s.mark > 0
    requires s.data.value in s.conns && s.conns[s.data.value].tcp.state == Tcp.Connected
    requires !f.outcome.error && f.outcome.data != []
    ensures DataUp(Pop(s)) && ChunkReady(Pop(s), f.gen, f.outcome, e) == SendChunk(Pop(s), f.outcome, e.write)
  {
  }

  lemma ChunkShape(s: State, f: Functor, r: Tcp.WriteResult)
    requires AtHead(s, f) && f.Ready? && f.gen == s.gen && s.xfer == Retrieving && DataUp(s)
    requires !f.outcome.error && f.outcome.data != []
    ensures DataUp(Pop(s)) && Base(SendChunk(Pop(s), f.outcome, r))
  {
    ReadyAlone(s, f);
    PopShape(s, f);
    TokenServer(s, f);
    SendShape(Pop(s), f.outcome, r);
  }

  lemma ChunkPump(s: State, f: Functor, r: Tcp.WriteResult)
    requires AtHead(s, f) && f.Ready? && f.gen == s.gen && s.xfer == Retrieving && DataUp(s)
    requires !f.outcome.error && f.outcome.data != []
    ensures DataUp(Pop(s))
    ensures var u := SendChunk(Pop(s), f.outcome, r); FlightsOk(u) && PumpOk(u) && RepliesOk(u)
  {
    ReadyAlone(s, f);
    assert ConnOk(s, s.data.value);
    PopFlights(s, f);
    ChunkSent(Pop(s), s.data.value, f.outcome, r);
  }

  lemma ChunkSent(t: State, c: ConnId, o: Outcome, r: Tcp.WriteResult)
    requires FlightsOk(t) && RepliesOk(t) && t.xfer == Retrieving && t.data == Some(c) == t.active
    requires NoComplete(t.queue) && !Flying(t) && !t.done && c in t.conns && o.data != []
    requires t.fd.Some? && StillOpen(t.table, t.fd.value) && t.table[t.fd.value.num].content == t.target
    requires var k := t.conns[c];
             && k.file == Some(t.target) && Tcp.StreamOk(k.tcp) && k.tcp.out == [] && k.tcp.state == Tcp.Connected
             && t.offset == |k.sizes| * CHUNK + CHUNK
    ensures var u := SendChunk(t, o, r); FlightsOk(u) && PumpOk(u) && RepliesOk(u)
  {
    SendFields(t, c, o, r);
    SentPump(t, SendChunk(t, o, r), c, true);
  }

  /** What sending a chunk on an idle connection changes. */
  lemma SendFields(t: State, c: ConnId, o: Outcome, r: Tcp.WriteResult)
    requires DataUp(t) && t.data == Some(c) && Tcp.StreamOk(t.conns[c].tcp)
    requires t.conns[c].tcp.out == [] && t.conns[c].tcp.state == Tcp.Connected && o.data != [] && t.xfer == Retrieving
    ensures var u := SendChunk(t, o, r);
            && c in u.conns && u == t.(conns := u.conns, queue := u.queue, sent := u.sent)
            && (u.queue == t.queue || (u.queue == t.queue + [Complete(c, true)] && u.conns[c].tcp.out == []))
            && u.conns[c].file == t.conns[c].file && u.conns[c].tcp.state == Tcp.Connected
            && (u.queue != t.queue || u.conns[c].tcp.out != [] ==> |u.conns[c].sizes| == |t.conns[c].sizes| + 1)
  {
    SendAccepts(t.conns[c].tcp, o.data, r);
    Tcp.SendKeepsStream(t.conns[c].tcp, o.data, r);
  }

  /** After a chunk went out there is one token at most: unwritten output or a completion. */
  lemma SentPump(t: State, u: State, c: ConnId, bound: bool)
    requires FlightsOk(t) && RepliesOk(t) && t.xfer == Retrieving && t.offset >= CHUNK && t.data == Some(c) == t.active
    requires NoComplete(t.queue) && !Flying(t) && !t.done && c in t.conns && c in u.conns
    requires t.fd.Some? && StillOpen(t.table, t.fd.value) && t.table[t.fd.value.num].content == t.target
    requires u == t.(conns := u.conns, queue := u.queue, sent := u.sent)
    requires u.queue == t.queue || (u.queue == t.queue + [Complete(c, bound)] && u.conns[c].tcp.out == [])
    requires u.conns[c].file == Some(t.target) && u.conns[c].tcp.state == Tcp.Connected
    requires u.queue != t.queue || u.conns[c].tcp.out != [] ==> t.offset == |u.conns[c].sizes| * CHUNK
    ensures FlightsOk(u) && PumpOk(u) && RepliesOk(u)
  {
    NoTokens(t);
    TokensSnoc(t.queue, Complete(c, bound), t.gen);
    assert forall g :: g in u.queue && g.Ready? ==> g in t.queue;
    assert !Flying(u);
  }

  /** These fields are of no concern to the pump. */
  lemma PumpFrame(s: State, t: State)
    requires FlightsOk(s) && PumpOk(s)
    requires t == s.(phase := t.phase, mark := t.mark, earlier := t.earlier, failed := t.failed,
                     replies := t.replies)
    ensures FlightsOk(t) && PumpOk(t)
  {
    assert Flying(t) <==> Flying(s);
    assert s.xfer == Retrieving && s.offset > 0 ==> Going(t);
  }

  lemma FailInv(s: State)
    requires Inv(s)
    ensures Inv(s.(failed := true))
  {
    ShapeFrame(s, s.(failed := true));
    PumpFrame(s, s.(failed := true));
  }

  /** A result of a RETR whose data server was closed under it goes nowhere. */
  lemma StrippedInv(s: State, f: Functor, e: Env)
    requires AtHead(s, f) && f.Ready? && f.gen == s.gen && s.xfer == Retrieving && s.data.None?
    ensures Inv(ChunkReady(Pop(s), f.gen, f.outcome, e))
  {
    StrippedPop(s, f);
    GiveUpInv(Pop(s), 550);
    FailInv(Pop(s));
  }

  lemma StrippedPop(s: State, f: Functor)
    requires AtHead(s, f) && f.Ready? && f.gen == s.gen && s.xfer == Retrieving && s.data.None?
    ensures Inv(Pop(s))
  {
    PopShape(s, f);
    StrippedPump(s, f);
  }

  lemma StrippedPump(s: State, f: Functor)
    requires AtHead(s, f) && f.Ready? && f.gen == s.gen && s.xfer == Retrieving && s.data.None?
    ensures FlightsOk(Pop(s)) && PumpOk(Pop(s)) && RepliesOk(Pop(s))
  {
    PopFlights(s, f);
    assert f in s.queue && Flying(s);
    assert Going(s) && Going(Pop(s));
  }

  lemma PopFlights(s: State, f: Functor)
    requires FlightsOk(s) && s.queue != [] && s.queue[0] == f
    ensures FlightsOk(Pop(s))
  {
    assert s.queue == [f] + Pop(s).queue;
    assert forall g :: g in Pop(s).queue ==> g in s.queue;
  }

  lemma ListingReady(s: State, f: Functor, e: Env)
    requires AtHead(s, f) && f.Ready? && f.gen == s.gen && s.xfer == Listing
    ensures Inv(ChunkReady(Pop(s), f.gen, f.outcome, e))
  {
    PopInv(s, f);
    var t := Pop(s);
    if DataUp(t) {
      TokenServer(s, f);
    }
    ListingResult(t, f.gen, f.outcome, e);
  }

  lemma ListingResult(t: State, gen: nat, o: Outcome, e: Env)
    requires Inv(t) && t.xfer == Listing && gen == t.gen
    requires DataUp(t) ==> NoVirgin(t) && NoDelete(t.queue)
    ensures Inv(ChunkReady(t, gen, o, e))
  {
    if o.error {
      GiveUpInv(t, 550);
    } else if o.data == [] && o.atEof {
      ListingEnds(t, o, e);
    } else if DataUp(t) {
      ListingChunk(t, o, e.write);
    }
  }

  lemma ListingChunk(t: State, o: Outcome, r: Tcp.WriteResult)
    requires Inv(t) && t.xfer == Listing && DataUp(t) && NoVirgin(t) && NoDelete(t.queue)
    ensures Inv(SendChunk(t, o, r))
  {
    SendShape(t, o, r);
    SendReleased(t, o, r);
    ListingFields(t, o, r);
    ListingPump(t, SendChunk(t, o, r), t.data.value);
  }

  lemma ListingFields(t: State, o: Outcome, r: Tcp.WriteResult)
    requires DataUp(t)
    ensures var u, c := SendChunk(t, o, r), t.data.value;
            && c in u.conns && u == t.(conns := u.conns, queue := u.queue, sent := u.sent)
            && (u.queue == t.queue || u.queue == t.queue + [Complete(c, true)])
            && u.conns[c].file == t.conns[c].file && u.conns[c].tcp.state == t.conns[c].tcp.state
  {
  }

  lemma ListingPump(t: State, u: State, c: ConnId)
    requires FlightsOk(t) && PumpOk(t) && RepliesOk(t) && t.xfer == Listing && DataUp(t) && t.data == Some(c)
    requires c in u.conns && u == t.(conns := u.conns, queue := u.queue, sent := u.sent)
    requires u.queue == t.queue || u.queue == t.queue + [Complete(c, true)]
    requires u.conns[c].file == t.conns[c].file && u.conns[c].tcp.state == t.conns[c].tcp.state
    ensures FlightsOk(u) && PumpOk(u) && RepliesOk(u)
  {
    assert forall g :: g in u.queue && g.Ready? ==> g in t.queue;
    assert Tcp.Open(u.conns[c].tcp);
  }

  lemma ReadyInv(s: State, f: Functor, e: Env)
    requires AtHead(s, f) && f.Ready?
    ensures Inv(ChunkReady(Pop(s), f.gen, f.outcome, e))
  {
    if f.gen != s.gen || s.xfer == Nothing {
      PopInv(s, f);
    } else if s.xfer == Listing {
      ListingReady(s, f, e);
    } else if s.data.None? {
      StrippedInv(s, f, e);
    } else if f.outcome.error {
      PopShape(s, f);
      GiveUpInv(Pop(s), 550);
    } else if f.outcome.data != [] {
      ChunkInv(s, f, e);
    } else {
      ReadyAlone(s, f);
      EofInv(s, f, e);
    }
  }

  // ---------------------------------------------------------------------------------------------
  // The output drains
  // ---------------------------------------------------------------------------------------------

  /** A completion is the only token of a running RETR; the next read starts where the file left off. */
  lemma CompleteAlone(s: State, f: Functor)
    requires AtHead(s, f) && f.Complete? && s.xfer == Retrieving && DataUp(s)
    ensures Going(s) && s.data == s.active && !s.done
    ensures var k := s.conns[s.data.value];
            k.tcp.out == [] && k.tcp.state == Tcp.Connected && s.offset == |k.sizes| * CHUNK
    ensures NoComplete(Pop(s).queue) && !Flying(Pop(s))
  {
    assert f in s.queue;
    HeadAlone(s, f);
  }

  lemma NextTask(s: State, f: Functor, e: Env)
    requires AtHead(s, f) && f.Complete? && s.xfer == Retrieving && DataUp(s) && e.submitOk
    ensures Inv(Request(Pop(s), e))
  {
    CompleteAlone(s, f);
    PopInv(s, f);
    ShapeFrame(Pop(s), Submit(Pop(s)));
    SubmitPump(Pop(s));
  }

  /** Nothing is under way and all accepted: a read of the next chunk may be submitted. */
  predicate ReadyForMore(t: State) {
    && t.xfer == Retrieving && t.offset > 0 && DataUp(t) && NoComplete(t.queue) && !Flying(t) && !t.done
    && var k := t.conns[t.data.value]; k.tcp.out == [] && t.offset == |k.sizes| * CHUNK
  }

  lemma SubmitFlights(t: State)
    requires FlightsOk(t) && ReadyForMore(t)
    ensures FlightsOk(Submit(t)) && Submit(t).pool == t.pool + [Task(t.gen, ReadAt(t.fd, t.offset), None)]
  {
    var u, task := Submit(t), Task(t.gen, ReadAt(t.fd, t.offset), None);
    assert forall x :: x in u.pool ==> x in t.pool || x == task;
  }

  lemma SubmitGoing(t: State)
    requires Going(t) && ReadyForMore(t)
    ensures Going(Submit(t))
  {
    NoTokens(t);
    PoolConcat(t.pool, [Task(t.gen, ReadAt(t.fd, t.offset), None)], t.gen);
  }

  lemma SubmitPump(t: State)
    requires Inv(t) && ReadyForMore(t)
    ensures FlightsOk(Submit(t)) && PumpOk(Submit(t)) && RepliesOk(Submit(t))
  {
    SubmitFlights(t);
    SubmitGoing(t);
  }

  lemma CompleteInv(s: State, f: Functor, e: Env)
    requires AtHead(s, f) && f.Complete? && s.xfer != Nothing
    ensures Inv(Request(Pop(s), e))
  {
    PopInv(s, f);
    var t := Pop(s);
    if !DataUp(t) {
    } else if s.xfer == Listing {
      ListingRequest(t, e);
    } else if e.submitOk {
      NextTask(s, f, e);
    } else {
      GiveUpInv(t, 451);
    }
  }

  lemma WritableShape(s: State, c: ConnId, r: Tcp.WriteResult)
    requires Inv(s) && c in s.conns && s.phase == Events
    ensures Base(WritableConn(s, c, r))
    ensures var k, m := s.conns[c], WritableConn(s, c, r).conns[c];
            Accepted(m) == Accepted(k) && (m.tcp == k.tcp || k.tcp.writing)
  {
    assert ConnOk(s, c);
    var k := s.conns[c];
    Tcp.WriteKeepsStream(k.tcp, r);
    var t := SetTcp(s, c, Tcp.HandleWrite(k.tcp, r));
    SetTcpShape(s, c, Tcp.HandleWrite(k.tcp, r));
    if Tcp.WriteCompletes(k.tcp, r) && k.pump {
      OpenNoVirgin(s, c);
      CompleteBase(t, Complete(c, false));
    }
  }

  lemma Unchanged(s: State, c: ConnId, r: Tcp.WriteResult)
    requires c in s.conns && !s.conns[c].tcp.writing
    ensures WritableConn(s, c, r) == s
  {
    assert s.conns[c := s.conns[c]] == s.conns;
  }

  lemma DrainPump(s: State, c: ConnId, r: Tcp.WriteResult)
    requires Inv(s) && s.phase == Events && s.xfer == Retrieving && s.offset > 0 && s.data == Some(c)
    requires s.conns[c].tcp.writing
    ensures var u := WritableConn(s, c, r); FlightsOk(u) && PumpOk(u) && RepliesOk(u)
  {
    assert ConnOk(s, c);
    var k := s.conns[c];
    var u := WritableConn(s, c, r);
    Tcp.WriteKeepsStream(k.tcp, r);
    TokensZero(s.queue, s.gen);
    PoolZero(s.pool, s.gen);
    assert NoComplete(s.queue) && !Flying(s);
    SentPump(s, u, c, false);
  }

  lemma WritableInv(s: State, c: ConnId, r: Tcp.WriteResult)
    requires Inv(s) && s.phase == Events
    ensures Inv(WritableConn(s, c, r))
  {
    if c !in s.conns || !s.conns[c].tcp.writing {
      if c in s.conns {
        Unchanged(s, c, r);
      }
    } else {
      assert ConnOk(s, c);
      WritableShape(s, c, r);
      WritableReleased(s, c, r);
      if s.data == Some(c) && s.xfer == Retrieving && s.offset > 0 {
        DrainPump(s, c, r);
      } else {
        if s.xfer == Retrieving && s.offset > 0 {
          SoleOpen(s, c, s.active.value);
        }
        OtherDrain(s, c, r);
      }
    }
  }

  lemma WritableReleased(s: State, c: ConnId, r: Tcp.WriteResult)
    requires Inv(s) && s.phase == Events && c in s.conns && s.conns[c].tcp.writing
    ensures ReleasedOk(WritableConn(s, c, r))
  {
    assert ConnOk(s, c);
    WritableFields(s, c, r);
    var u := WritableConn(s, c, r);
    if DataUp(u) && DeleteServer(u.conns[u.data.value].server) in u.queue {
      assert DeleteServer(s.conns[s.data.value].server) in s.queue;
      ClearSnoc(s.queue, Complete(c, false), s.conns[s.data.value].server, s.gen);
    }
  }

  lemma OtherDrain(s: State, c: ConnId, r: Tcp.WriteResult)
    requires Inv(s) && s.phase == Events && c in s.conns && s.conns[c].tcp.writing
    requires s.xfer == Retrieving && s.offset > 0 ==> s.data.None?
    ensures var u := WritableConn(s, c, r); FlightsOk(u) && PumpOk(u) && RepliesOk(u)
  {
    assert ConnOk(s, c);
    WritableFields(s, c, r);
    OtherPump(s, WritableConn(s, c, r), c);
  }

  lemma WritableFields(s: State, c: ConnId, r: Tcp.WriteResult)
    requires s.phase == Events && c in s.conns && s.conns[c].tcp.writing
    requires s.conns[c].tcp.state != Tcp.Connecting && Tcp.StreamOk(s.conns[c].tcp)
    ensures var u := WritableConn(s, c, r);
            && s.conns[c].tcp.out != [] && Tcp.Open(s.conns[c].tcp)
            && u == s.(conns := u.conns, queue := u.queue) && u.conns.Keys == s.conns.Keys
            && (forall d :: d in s.conns && d != c ==> u.conns[d] == s.conns[d])
            && u.conns[c].file == s.conns[c].file && u.conns[c].sizes == s.conns[c].sizes
            && u.conns[c].tcp.state == s.conns[c].tcp.state
            && u.conns[c].pump == s.conns[c].pump && u.conns[c].server == s.conns[c].server
            && (u.queue == s.queue ||
                (u.queue == s.queue + [Complete(c, false)] && u.conns[c].pump && u.conns[c].tcp.out == []))
  {
    Tcp.WriteKeepsStream(s.conns[c].tcp, r);
  }

  /** Output drained on a connection that carries no running RETR. */
  predicate OtherDrained(s: State, u: State, c: ConnId) {
    && c in s.conns && s.conns[c].tcp.out != [] && Tcp.Open(s.conns[c].tcp)
    && (s.xfer == Retrieving && s.offset > 0 ==> s.data.None?)
    && u == s.(conns := u.conns, queue := u.queue) && u.conns.Keys == s.conns.Keys
    && (forall d :: d in s.conns && d != c ==> u.conns[d] == s.conns[d])
    && u.conns[c].file == s.conns[c].file && u.conns[c].sizes == s.conns[c].sizes
    && u.conns[c].tcp.state == s.conns[c].tcp.state
    && (u.queue == s.queue || u.queue == s.queue + [Complete(c, false)])
  }

  lemma OtherFlights(s: State, u: State, c: ConnId)
    requires FlightsOk(s) && OtherDrained(s, u, c)
    ensures FlightsOk(u) && (Flying(u) ==> Flying(s))
  {
    assert forall g :: g in u.queue && g.Ready? ==> g in s.queue;
  }

  lemma OtherPump(s: State, u: State, c: ConnId)
    requires Inv(s) && OtherDrained(s, u, c)
    ensures FlightsOk(u) && PumpOk(u) && RepliesOk(u)
  {
    OtherFlights(s, u, c);
    assert ConnOk(s, c);
    NotWhole(s.conns[c]);
    assert Tcp.Open(u.conns[c].tcp);
    assert s.data != Some(c) ==> !DataUp(s) && !DataUp(u);
  }

  lemma NotWhole(k: DataConn)
    requires k.tcp.out != [] && StreamIsFile(k)
    ensures k.file.Some? ==> k.tcp.kernel != Delivered(k.file.value, k.sizes)
  {
    assert |Accepted(k)| > |k.tcp.kernel|;
  }

  // ---------------------------------------------------------------------------------------------
  // The disk pool
  // ---------------------------------------------------------------------------------------------

  lemma DiskReadInv(s: State, i: nat, n: nat, error: bool, listing: seq<byte>, stray: seq<byte>)
    requires Inv(s) && i < |s.pool| && s.pool[i].outcome.None?
    ensures Inv(ReadTask(s, i, n, error, listing, stray))
  {
    ShapeFrame(s, ReadTask(s, i, n, error, listing, stray));
    DiskReadFlights(s, i, n, error, listing, stray);
    DiskReadPump(s, i, n, error, listing, stray);
  }

  lemma DiskReadFlights(s: State, i: nat, n: nat, error: bool, listing: seq<byte>, stray: seq<byte>)
    requires Inv(s) && i < |s.pool| && s.pool[i].outcome.None?
    ensures FlightsOk(ReadTask(s, i, n, error, listing, stray))
  {
    var u := ReadTask(s, i, n, error, listing, stray);
    assert s.pool[i] in s.pool && TaskOk(s, s.pool[i]);
    ReadGood(s, i, n, error, listing, stray);
    forall t | t in u.pool ensures TaskOk(u, t) {
      assert t in s.pool || t == u.pool[i];
    }
  }

  lemma DiskReadPump(s: State, i: nat, n: nat, error: bool, listing: seq<byte>, stray: seq<byte>)
    requires PumpOk(s) && RepliesOk(s) && ReleasedOk(s) && i < |s.pool| && s.pool[i].outcome.None?
    ensures var u := ReadTask(s, i, n, error, listing, stray); PumpOk(u) && RepliesOk(u)
  {
    var u := ReadTask(s, i, n, error, listing, stray);
    PoolAt(s.pool, i, s.gen);
    assert s.pool[i] in s.pool;
    assert forall t :: t in u.pool && t.gen == s.gen ==> t in s.pool || t == u.pool[i];
    assert Flying(u) ==> Flying(s);
  }

  lemma ReadGood(s: State, i: nat, n: nat, error: bool, listing: seq<byte>, stray: seq<byte>)
    requires Inv(s) && i < |s.pool| && s.pool[i].outcome.None?
    ensures TaskOk(s, ReadTask(s, i, n, error, listing, stray).pool[i])
  {
    assert s.pool[i] in s.pool && TaskOk(s, s.pool[i]);
    assert s.pool[i].gen == s.gen ==> Flying(s);
  }

  lemma DiskQueueInv(s: State, i: nat)
    requires Inv(s) && i < |s.pool| && s.pool[i].outcome.Some?
    ensures Inv(QueueTask(s, i))
  {
    var u := QueueTask(s, i);
    var t := s.pool[i];
    var f := Ready(t.gen, t.outcome.value);
    assert t in s.pool && TaskOk(s, t);
    EnqueueShape(s, f);
    ShapeFrame(Enqueue(s, f), u);
    DiskQueueFlights(s, i);
    DiskQueuePump(s, i);
    if DataUp(s) && DeleteServer(s.conns[s.data.value].server) in s.queue {
      ClearSnoc(s.queue, f, s.conns[s.data.value].server, s.gen);
    }
  }

  lemma DiskQueueFlights(s: State, i: nat)
    requires FlightsOk(s) && i < |s.pool| && s.pool[i].outcome.Some?
    ensures FlightsOk(QueueTask(s, i))
  {
    var u := QueueTask(s, i);
    assert s.pool[i] in s.pool && TaskOk(s, s.pool[i]);
    forall x | x in u.pool ensures TaskOk(u, x) {
      assert x in s.pool;
    }
  }

  lemma DiskQueuePump(s: State, i: nat)
    requires Inv(s) && i < |s.pool| && s.pool[i].outcome.Some?
    ensures PumpOk(QueueTask(s, i))
  {
    var u := QueueTask(s, i);
    var t := s.pool[i];
    var f := Ready(t.gen, t.outcome.value);
    assert t in s.pool;
    PoolAt(s.pool, i, s.gen);
    TokensSnoc(s.queue, f, s.gen);
    assert forall x :: x in u.pool ==> x in s.pool;
    assert forall g :: g in u.queue ==> g in s.queue || g == f;
    assert Flying(u) ==> Flying(s);
    assert NoComplete(s.queue) ==> NoComplete(u.queue);
  }

  // ---------------------------------------------------------------------------------------------
  // Every step, every run
  // ---------------------------------------------------------------------------------------------

  lemma DeletedInv(s: State, sv: ServerId)
    requires AtHead(s, DeleteServer(sv))
    requires forall c :: c in s.conns && s.conns[c].server == sv ==> !Tcp.Open(s.conns[c].tcp)
    ensures Inv(Pop(s))
  {
    DeletedShape(s, sv);
    PopFlights(s, DeleteServer(sv));
    PopPump(s, DeleteServer(sv));
    DeletedReleased(s, sv);
  }

  lemma DeletedShape(s: State, sv: ServerId)
    requires AtHead(s, DeleteServer(sv))
    requires forall c :: c in s.conns && s.conns[c].server == sv ==> !Tcp.Open(s.conns[c].tcp)
    ensures Shape(Pop(s))
  {
    var t := Pop(s);
    PopRest(s, DeleteServer(sv));
    assert forall g :: g in t.queue ==> g in s.queue;
    forall c | c in t.conns ensures ConnOk(t, c) {
      assert ConnOk(s, c);
    }
  }

  lemma DeletedReleased(s: State, sv: ServerId)
    requires AtHead(s, DeleteServer(sv))
    requires forall c :: c in s.conns && s.conns[c].server == sv ==> !Tcp.Open(s.conns[c].tcp)
    ensures ReleasedOk(Pop(s))
  {
    PopRest(s, DeleteServer(sv));
    assert forall g :: g in Pop(s).queue ==> g in s.queue;
  }

  lemma RunHeadInv(s: State, e: Env)
    requires Inv(s) && s.phase == Functors && 0 < s.mark <= |s.queue|
    ensures Inv(RunHead(s, e))
  {
    var f := s.queue[0];
    match f {
      case Ready(gen, o) => ReadyInv(s, f, e);
      case Complete(c, bound) =>
        PopInv(s, f);
        FailInv(Pop(s));
        if s.xfer != Nothing {
          CompleteInv(s, f, e);
        }
      case Close(c) => CloseHeadInv(s, c);
      case CloseServer =>
        PopInv(s, f);
        ReleaseInv(Pop(s));
      case DeleteServer(sv) => DestroyInv(s, sv, e.victim);
    }
  }

  lemma CloseHeadInv(s: State, c: ConnId)
    requires AtHead(s, Close(c))
    ensures Inv(CloseConn(Pop(s), c))
  {
    if c in s.conns && Tcp.Open(s.conns[c].tcp) {
      CloseThenPop(s, c);
      CloseConnInv(s, c);
      PopInv(CloseConn(s, c), Close(c));
    } else {
      PopInv(s, Close(c));
    }
  }

  /** Closing queues behind what is there already, so it may as well come before the pop. */
  lemma CloseThenPop(s: State, c: ConnId)
    requires s.queue != [] && c in s.conns && Tcp.Open(s.conns[c].tcp)
    ensures var t := CloseConn(s, c);
            && t.queue != [] && t.queue[0] == s.queue[0] && t.phase == s.phase && t.mark == s.mark
            && c in t.conns && !Tcp.Open(t.conns[c].tcp) && |t.queue| == |s.queue| + 1
            && CloseConn(Pop(s), c) == Pop(t)
  {
    var d := SetTcp(s, c, Tcp.HandleClose(s.conns[c].tcp));
    assert SetTcp(Pop(s), c, Tcp.HandleClose(s.conns[c].tcp)) == Pop(d);
    DownThenPop(d);
    assert CloseConn(s, c) == Down(d);
  }

  lemma DownThenPop(s: State)
    requires s.queue != []
    ensures Down(Pop(s)) == Pop(Down(s)) && Down(s).queue == s.queue + [CloseServer]
  {
    assert (s.queue + [CloseServer])[1..] == s.queue[1..] + [CloseServer];
  }

  lemma DestroyInv(s: State, sv: ServerId, victim: ConnId)
    requires AtHead(s, DeleteServer(sv))
    ensures Inv(DestroyOne(s, sv, victim))
  {
    if forall c :: c in s.conns && s.conns[c].server == sv ==> !Tcp.Open(s.conns[c].tcp) {
      DeletedInv(s, sv);
    } else {
      FailInv(s);
      CloseConnInv(s, victim);
    }
  }

  lemma PhaseInv(s: State, t: State)
    requires Inv(s)
    requires || (s.phase == Events && t == s.(phase := Functors, mark := |s.queue|))
             || (s.phase == Functors && s.mark == 0 && t == s.(phase := Events, earlier := s.nextServer))
    ensures Inv(t)
  {
    PumpFrame(s, t);
    PhaseShape(s, t);
  }

  lemma PhaseShape(s: State, t: State)
    requires Shape(s)
    requires || (s.phase == Events && t == s.(phase := Functors, mark := |s.queue|))
             || (s.phase == Functors && s.mark == 0 && t == s.(phase := Events, earlier := s.nextServer))
    ensures Shape(t)
  {
    assert s.queue[|s.queue|..] == [] && s.queue[..|s.queue|] == s.queue == s.queue[0..] && s.queue[..0] == [];
    assert s.phase == Functors ==> Rest(t) == Rest(s) && Bound(t) == Bound(s);
    forall c | c in t.conns ensures ConnOk(t, c) {
      assert ConnOk(s, c);
    }
  }

  lemma EventInv(s: State, a: Action)
    requires Inv(s) && s.phase == Events && Polite(s, a)
    ensures Inv(Event(s, a))
  {
    match a {
      case Pasv => ListenInv(s);
      case PasvTimeout => SayInv(s, 425); ReleaseInv(Say(s, Code(425)));
      case ListCommand(e) => SayInv(s, 425); BeginInv(s, BeginList(s), e);
      case RetrCommand(file, e) => SayInv(s, 425); BeginInv(s, BeginRetr(s, file), e);
      case DataConnected(to, e) =>
        if s.data.None? {
          AdoptInv(s, to, e);
        } else {
          RefuseInv(s, to, e);
        }
      case DataEof(c) => CloseConnInv(s, c);
      case DataWritable(c, r) => WritableInv(s, c, r);
      case _ =>
    }
  }

  lemma SayInv(s: State, code: nat)
    requires code != 226 && Inv(s)
    ensures Inv(Say(s, Code(code)))
  {
    var t := Say(s, Code(code));
    ShapeFrame(s, t);
    PumpFrame(s, t);
  }

  lemma {:induction false} StepInv(s: State, a: Action)
    requires Inv(s) && Polite(s, a)
    ensures Inv(Step(s, a))
  {
    if s.failed {
    } else if a.DiskRead? {
      if a.i < |s.pool| && s.pool[a.i].outcome.None? {
        DiskReadInv(s, a.i, a.n, a.error, a.listing, a.stray);
      }
    } else if a.DiskQueue? {
      if a.i < |s.pool| && s.pool[a.i].outcome.Some? {
        DiskQueueInv(s, a.i);
      }
    } else if a.BeginFunctors? || a.EndFunctors? {
      if Step(s, a) != s {
        PhaseInv(s, Step(s, a));
      }
    } else if a.RunFunctor? {
      if s.phase == Functors && 0 < s.mark <= |s.queue| {
        RunHeadInv(s, a.e);
      }
    } else if s.phase == Events {
      EventInv(s, a);
    }
  }

  lemma {:induction false} RunInv(actions: seq<Action>)
    requires PoliteRun(actions)
    ensures Inv(Run(actions))
  {
    if actions != [] {
      var n := |actions| - 1;
      var before := actions[..n];
      forall k | 0 <= k < n ensures Polite(Run(before[..k]), before[k]) {
        assert before[..k] == actions[..k];
      }
      RunInv(before);
      assert Polite(Run(actions[..n]), actions[n]);
      StepInv(Run(before), actions[n]);
    }
  }

  /**
   In every polite run, however short the reads: what a RETR's data connection has accepted, and so what the
   socket was given, is what the reads whose results it took deliver of the file, in order and without repeat;
   there is no gap in it exactly when no read that returned bytes follows one that was cut short before the end
   of its chunk; at most one read of the transfer is under way; and 226 is never sent for a RETR but as
   "transfer complete", once the socket was given all that the reads delivered and a read found nothing more,
   which is the whole file exactly when no read was cut short.
   */
  lemma {:induction false} RetrieveStream(actions: seq<Action>)
    requires PoliteRun(actions)
    ensures var s := Run(actions);
            && (forall c :: c in s.conns && s.conns[c].file.Some? ==> StreamOfReads(s.conns[c]))
            && (s.xfer == Retrieving ==> PoolTokens(s.pool, s.gen) <= 1)
            && (forall r :: r in s.replies ==> (r.TransferComplete? ==> CompleteOfReads(r)) && r != Code(226))
  {
    RunInv(actions);
    var s := Run(actions);
    PoolZero(s.pool, s.gen);
    forall c | c in s.conns && s.conns[c].file.Some? ensures StreamOfReads(s.conns[c]) {
      assert ConnOk(s, c);
      DeliveredPrefix(s.conns[c].file.value, s.conns[c].sizes);
      PositionsPick(s.conns[c].file.value, s.conns[c].sizes);
      GaplessExactly(s.conns[c].file.value, s.conns[c].sizes);
    }
    forall r | r in s.replies && r.TransferComplete? ensures CompleteOfReads(r) {
      ShortReadsLoseBytes(r.file, r.sizes);
    }
  }

  predicate StreamOfReads(k: DataConn)
    requires k.file.Some?
  {
    var f := k.file.value;
    && k.tcp.kernel <= Accepted(k) == Delivered(f, k.sizes)
    && Picks(f, Accepted(k), Positions(f, k.sizes))
    && (Gapless(Positions(f, k.sizes)) <==> ShortOnlyAtEnd(f, k.sizes))
    && (Accepted(k) == Prefix(f, |k.sizes| * CHUNK) <==> AllWhole(f, k.sizes))
  }

  predicate CompleteOfReads(r: Reply)
    requires r.TransferComplete?
  {
    AllGiven(r.file, r.written, r.sizes) && (r.written == r.file <==> AllWhole(r.file, r.sizes))
  }
}
