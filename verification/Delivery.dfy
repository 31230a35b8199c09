/**
 Every transfer can be carried to its end: for each file, however much each read returns at most and
 whatever the kernel answers to the first write of each chunk short of breaking the connection, there is a
 run without overlapping transfers that delivers exactly what those reads find and announces it. The runs
 are built chunk by chunk: read, result, send, completion.
 */
module Delivery {
  import opened Sequences
  import Tcp
  import opened Transfer
  import opened Retrieve
  import opened Wrappers

  /** How the disk and the socket answer for each chunk: the most its read returns, and its first write. */
  datatype Plan = Plan(size: nat -> nat, answer: nat -> Tcp.WriteResult)

  /** The reads and the first writes of a running RETR are answered as planned for the chunk it is at. */
  predicate Answers(s: State, a: Action, p: Plan) {
    s.xfer == Retrieving && s.offset >= CHUNK ==>
      && (a.RunFunctor? ==> a.e.write == p.answer(s.offset / CHUNK - 1))
      && (a.DiskRead? ==> a.n == p.size(s.offset / CHUNK - 1) && !a.error)
  }

  ghost predicate AnswersWith(actions: seq<Action>, p: Plan) {
    forall k :: 0 <= k < |actions| ==> Answers(Run(actions[..k]), actions[k], p)
  }

  ghost predicate Reached(s: State, p: Plan) {
    exists actions :: PoliteRun(actions) && AnswersWith(actions, p) && Run(actions) == s
  }

  lemma StartReached(p: Plan)
    ensures Reached(START, p)
  {
    assert PoliteRun([]) && AnswersWith([], p) && Run([]) == START;
  }

  lemma StepReached(s: State, a: Action, p: Plan)
    requires Reached(s, p) && Polite(s, a) && Answers(s, a, p)
    ensures Reached(Step(s, a), p)
  {
    var actions :| PoliteRun(actions) && AnswersWith(actions, p) && Run(actions) == s;
    PoliteSnoc(actions, a);
    AnswersSnoc(actions, a, p);
  }

  lemma PoliteSnoc(actions: seq<Action>, a: Action)
    requires PoliteRun(actions) && Polite(Run(actions), a)
    ensures PoliteRun(actions + [a]) && Run(actions + [a]) == Step(Run(actions), a)
  {
    var more := actions + [a];
    assert more[..|actions|] == actions;
    forall k | 0 <= k < |more| ensures Polite(Run(more[..k]), more[k]) {
      assert k < |actions| ==> more[..k] == actions[..k];
    }
  }

  lemma AnswersSnoc(actions: seq<Action>, a: Action, p: Plan)
    requires AnswersWith(actions, p) && Answers(Run(actions), a, p)
    ensures AnswersWith(actions + [a], p)
  {
    var more := actions + [a];
    assert more[..|actions|] == actions;
    forall k | 0 <= k < |more| ensures Answers(Run(more[..k]), more[k], p) {
      assert k < |actions| ==> more[..k] == actions[..k];
    }
  }

  /** Everything else goes well. */
  function With(w: Tcp.WriteResult): Env { Env(true, 0, true, false, w, 0) }

  /** The limits planned for the first `i` reads. */
  function Sizes(p: Plan, i: nat): seq<nat> { seq<nat>(i, j requires 0 <= j < i => p.size(j)) }

  lemma SizesSnoc(p: Plan, i: nat)
    ensures Sizes(p, i + 1) == Sizes(p, i) + [p.size(i)]
  {
  }

  /** What the read of chunk `i` finds. */
  function Found(f: File, p: Plan, i: nat): Outcome {
    var d := Slice(f, i * CHUNK, Min(p.size(i), CHUNK));
    Outcome(d, d == [], false, true, p.size(i))
  }

  /** What the first `i` reads find. */
  function Sofar(f: File, p: Plan, i: nat): File { Delivered(f, Sizes(p, i)) }

  lemma SofarSnoc(f: File, p: Plan, i: nat)
    ensures Sofar(f, p, i + 1) == Sofar(f, p, i) + Found(f, p, i).data
    ensures FoundEnd(f, Sizes(p, i + 1)) <==> Found(f, p, i).data == []
  {
    SizesSnoc(p, i);
    DeliveredSnoc(f, Sizes(p, i), p.size(i));
  }

  /** A RETR of `f` is under way; its connection took reads of `sizes`, was given `sent` and still keeps `kept`. */
  predicate Carrying(s: State, f: File, sizes: seq<nat>, sent: File, kept: File) {
    && s.xfer == Retrieving && !s.failed && !s.done && s.target == f
    && s.fd.Some? && s.fd.value.num in s.table && s.table[s.fd.value.num] == OpenFile(s.fd.value.origin, f)
    && s.data.Some? && s.active == s.data && s.data.value in s.conns
    && var k := s.conns[s.data.value];
       && k.pump && k.tcp.state == Tcp.Connected && k.tcp.writing == (kept != []) && k.tcp.out == kept
       && k.tcp.kernel == sent && k.sizes == sizes
  }

  /** All that the first `i` reads found has been given to the socket. */
  predicate Given(s: State, f: File, p: Plan, i: nat) { Carrying(s, f, Sizes(p, i), Sofar(f, p, i), []) }

  predicate At(s: State, i: nat) { s.offset == i * CHUNK + CHUNK }

  /** The read of chunk `i` is in the pool and nothing else is going on. */
  predicate Reading(s: State, f: File, p: Plan, i: nat) {
    && Given(s, f, p, i) && At(s, i) && s.phase == Events && s.queue == [] && s.mark == 0
    && s.pool == [Task(s.gen, ReadAt(s.fd, i * CHUNK), None)]
  }

  /** Nothing in the pool, and `g` is the only functor, about to run. */
  predicate Next(s: State, g: Functor) {
    s.pool == [] && s.queue == [g] && s.mark == 1 && s.phase == Functors
  }

  /** The functors are done; `queue` is left for the next turn. */
  predicate TurnDone(s: State, queue: seq<Functor>) {
    s.pool == [] && s.queue == queue && s.mark == 0 && s.phase == Functors
  }

  /** Waiting for events, with `queue` left for the next turn. */
  predicate Between(s: State, queue: seq<Functor>) {
    s.pool == [] && s.queue == queue && s.mark == 0 && s.phase == Events
  }

  // ---------------------------------------------------------------------------------------------
  // One chunk
  // ---------------------------------------------------------------------------------------------

  lemma ReadIt(s: State, f: File, p: Plan, i: nat) returns (t: State)
    requires Reached(s, p) && Reading(s, f, p, i)
    ensures Reached(t, p) && Given(t, f, p, i) && At(t, i) && Next(t, Ready(t.gen, Found(f, p, i)))
  {
    var r := DiskRead(0, p.size(i), false, [], []);
    AnswersAt(s, p, i);
    StepReached(s, r, p);
    var a := Step(s, r);
    StepReached(a, DiskQueue(0), p);
    var b := Step(a, DiskQueue(0));
    ReadDoes(s, f, p, i);
    StepReached(b, BeginFunctors, p);
    t := Step(b, BeginFunctors);
  }

  lemma ReadDoes(s: State, f: File, p: Plan, i: nat)
    requires Reading(s, f, p, i)
    ensures Step(Step(s, DiskRead(0, p.size(i), false, [], [])), DiskQueue(0))
         == s.(pool := [], queue := [Ready(s.gen, Found(f, p, i))])
  {
    var a := Step(s, DiskRead(0, p.size(i), false, [], []));
    assert a.pool == [s.pool[0].(outcome := Some(Found(f, p, i)))];
    assert RemoveAt(a.pool, 0) == [];
  }

  lemma AnswersAt(s: State, p: Plan, i: nat)
    requires At(s, i)
    ensures Answers(s, RunFunctor(With(p.answer(i))), p) && Answers(s, DiskRead(0, p.size(i), false, [], []), p)
  {
    assert (i * CHUNK + CHUNK) / CHUNK == i + 1;
  }

  /** The functor at the head is run with the first write answered as planned. */
  lemma RunReached(s: State, p: Plan, i: nat)
    requires Reached(s, p) && At(s, i)
    ensures Reached(Step(s, RunFunctor(With(p.answer(i)))), p)
  {
    AnswersAt(s, p, i);
    var a := RunFunctor(With(p.answer(i)));
    StepReached(s, a, p);
  }

  lemma SendTurn(s: State, f: File, p: Plan, i: nat) returns (t: State)
    requires Reached(s, p) && Given(s, f, p, i) && At(s, i)
    requires Next(s, Ready(s.gen, Found(f, p, i))) && Found(f, p, i).data != [] && !p.answer(i).Broken?
    ensures Reached(t, p) && At(t, i) && t.data == s.data && s.data.Some?
    ensures var d := Found(f, p, i).data; var n := Tcp.Taken(p.answer(i), |d|);
            if n == |d| then Given(t, f, p, i + 1) && Between(t, [Complete(s.data.value, true)])
            else Carrying(t, f, Sizes(p, i + 1), Sofar(f, p, i) + d[..n], d[n..]) && Between(t, [])
  {
    var w := p.answer(i);
    SendDoes(s, f, Sizes(p, i), Sofar(f, p, i), Found(f, p, i), w);
    SizesSnoc(p, i);
    SofarSnoc(f, p, i);
    RunReached(s, p, i);
    var a := Step(s, RunFunctor(With(w)));
    StepReached(a, EndFunctors, p);
    t := Step(a, EndFunctors);
  }

  /** The chunk goes out at once and a completion is queued, or the rest waits for POLLOUT. */
  lemma SendDoes(s: State, f: File, sizes: seq<nat>, sent: File, o: Outcome, w: Tcp.WriteResult)
    requires Carrying(s, f, sizes, sent, []) && Next(s, Ready(s.gen, o))
    requires o.data != [] && !o.error && !w.Broken?
    ensures var t := Step(s, RunFunctor(With(w))); var d := o.data; var n := Tcp.Taken(w, |d|);
            && t.offset == s.offset && t.data == s.data
            && if n == |d| then
                 Carrying(t, f, sizes + [o.limit], sent + d, []) && TurnDone(t, [Complete(s.data.value, true)])
               else Carrying(t, f, sizes + [o.limit], sent + d[..n], d[n..]) && TurnDone(t, [])
  {
    var p := Pop(s);
    assert p.queue == [];
    assert Step(s, RunFunctor(With(w))) == ChunkReady(p, s.gen, o, With(w)) == SendChunk(p, o, w);
    Tcp.SendParts(s.conns[s.data.value].tcp, o.data, w);
    assert o.data[..|o.data|] == o.data;
    assert forall n: nat :: n <= |o.data| ==> [] + o.data[n..] == o.data[n..];
  }

  lemma DrainTurn(s: State, f: File, p: Plan, i: nat, n: nat) returns (t: State)
    requires Reached(s, p) && At(s, i) && n < |Found(f, p, i).data| && Between(s, [])
    requires Carrying(s, f, Sizes(p, i + 1), Sofar(f, p, i) + Found(f, p, i).data[..n], Found(f, p, i).data[n..])
    ensures Reached(t, p) && At(t, i) && t.data == s.data && s.data.Some?
    ensures Given(t, f, p, i + 1) && Between(t, [Complete(s.data.value, false)])
  {
    DrainDoes(s, f, Sizes(p, i + 1), Sofar(f, p, i), Found(f, p, i).data, n);
    SofarSnoc(f, p, i);
    StepReached(s, DataWritable(s.data.value, Tcp.Wrote(CHUNK)), p);
    t := Step(s, DataWritable(s.data.value, Tcp.Wrote(CHUNK)));
  }

  /** Writable again, the socket takes the rest, and a completion is queued. */
  lemma DrainDoes(s: State, f: File, sizes: seq<nat>, sent: File, d: File, n: nat)
    requires n < |d| <= CHUNK && Carrying(s, f, sizes, sent + d[..n], d[n..]) && Between(s, [])
    ensures var t := Step(s, DataWritable(s.data.value, Tcp.Wrote(CHUNK)));
            && Carrying(t, f, sizes, sent + d, []) && t.offset == s.offset && t.data == s.data
            && Between(t, [Complete(s.data.value, false)])
  {
    var rest := d[n..];
    assert rest[..|rest|] == rest && rest[|rest|..] == [];
    Rejoin(sent, d, n);
  }

  lemma Rejoin(a: File, d: File, n: nat)
    requires n <= |d|
    ensures a + d[..n] + d[n..] == a + d
  {
  }

  lemma SendIt(s: State, f: File, p: Plan, i: nat) returns (t: State, bound: bool)
    requires Reached(s, p) && Given(s, f, p, i) && At(s, i)
    requires Next(s, Ready(s.gen, Found(f, p, i))) && Found(f, p, i).data != [] && !p.answer(i).Broken?
    ensures Reached(t, p) && Given(t, f, p, i + 1) && At(t, i) && Next(t, Complete(t.data.value, bound))
  {
    var a := SendTurn(s, f, p, i);
    var n := Tcp.Taken(p.answer(i), |Found(f, p, i).data|);
    bound := n == |Found(f, p, i).data|;
    if !bound {
      a := DrainTurn(a, f, p, i, n);
    }
    StepReached(a, BeginFunctors, p);
    t := Step(a, BeginFunctors);
  }

  lemma AskAgain(s: State, f: File, p: Plan, i: nat, bound: bool) returns (t: State)
    requires Reached(s, p) && Given(s, f, p, i + 1) && At(s, i) && Next(s, Complete(s.data.value, bound))
    ensures Reached(t, p) && Reading(t, f, p, i + 1)
  {
    RunReached(s, p, i);
    var a := Step(s, RunFunctor(With(p.answer(i))));
    AskDoes(s, f, p, i, bound);
    StepReached(a, EndFunctors, p);
    t := Step(a, EndFunctors);
  }

  lemma AskDoes(s: State, f: File, p: Plan, i: nat, bound: bool)
    requires Given(s, f, p, i + 1) && At(s, i) && Next(s, Complete(s.data.value, bound))
    ensures Reading(Step(Step(s, RunFunctor(With(p.answer(i)))), EndFunctors), f, p, i + 1)
  {
    assert Pop(s).queue == [];
    assert Step(s, RunFunctor(With(p.answer(i)))) == Submit(Pop(s));
    assert (i + 1) * CHUNK == i * CHUNK + CHUNK;
  }

  /** Chunk `i` can come to be read. */
  ghost predicate GetsTo(f: File, p: Plan, i: nat) { exists s :: Reached(s, p) && Reading(s, f, p, i) }

  lemma OneChunk(f: File, p: Plan, i: nat)
    requires GetsTo(f, p, i) && Found(f, p, i).data != [] && !p.answer(i).Broken?
    ensures GetsTo(f, p, i + 1)
  {
    var s :| Reached(s, p) && Reading(s, f, p, i);
    var a := ReadIt(s, f, p, i);
    var b, bound := SendIt(a, f, p, i);
    var t := AskAgain(b, f, p, i, bound);
  }

  lemma {:induction false} AllChunks(f: File, p: Plan, i: nat)
    requires forall j :: 0 <= j < i ==> Found(f, p, j).data != [] && !p.answer(j).Broken?
    ensures GetsTo(f, p, i)
  {
    if i == 0 {
      var s := Opened(f, p);
    } else {
      var j := i - 1;
      AllChunks(f, p, j);
      OneChunk(f, p, j);
      assert j + 1 == i;
    }
  }

  // ---------------------------------------------------------------------------------------------
  // The beginning and the end
  // ---------------------------------------------------------------------------------------------

  /** PASV has been answered and the listener is no longer new. */
  const LISTENING := START.(server := Some(0), nextServer := 1, earlier := 1, replies := [Code(227)])

  lemma Listening(p: Plan)
    ensures Reached(LISTENING, p)
  {
    StartReached(p);
    StepReached(START, Pasv, p);
    var a := Step(START, Pasv);
    assert a == LISTENING.(earlier := 0) by {
      assert START.replies + [Code(227)] == [Code(227)];
    }
    StepReached(a, BeginFunctors, p);
    StepReached(Step(a, BeginFunctors), EndFunctors, p);
    assert Step(Step(a, BeginFunctors), EndFunctors) == LISTENING;
  }

  /** The client has connected. */
  const JOINED := LISTENING.(
    conns := map[0 := DataConn(Tcp.Establish(Tcp.NEW_CONN), true, 0, None, [])], nextConn := 1, data := Some(0),
    joined := {0})

  lemma Joined(p: Plan)
    ensures Reached(JOINED, p)
  {
    Listening(p);
    var e := With(Tcp.WouldBlock);
    StepReached(LISTENING, DataConnected(0, e), p);
    assert Step(LISTENING, DataConnected(0, e)) == Adopt(LISTENING, 0) == JOINED;
  }

  lemma Opened(f: File, p: Plan) returns (t: State)
    ensures Reached(t, p) && Reading(t, f, p, 0)
  {
    Joined(p);
    var e := With(Tcp.WouldBlock);
    StepReached(JOINED, RetrCommand(f, e), p);
    t := Step(JOINED, RetrCommand(f, e));
    OpenDoes(f, p, e);
  }

  lemma OpenDoes(f: File, p: Plan, e: Env)
    requires e == With(e.write)
    ensures Reading(Step(JOINED, RetrCommand(f, e)), f, p, 0)
  {
    var s := BeginRetr(JOINED, f);
    var o := OpenTarget(s, 0);
    assert Step(JOINED, RetrCommand(f, e)) == TryStart(s, e) == Request(o, e) == Submit(o);
  }

  /** The end of the file is found and the connection half-closed. */
  lemma EndDoes(s: State, f: File, p: Plan, i: nat)
    requires Given(s, f, p, i) && Next(s, Ready(s.gen, Found(f, p, i))) && Found(f, p, i).data == []
    ensures Step(s, RunFunctor(With(p.answer(i)))) == Ended(Pop(s), s.data.value, p.size(i))
  {
  }

  /** The peer closes, and the transfer is announced. */
  lemma CloseDoes(s: State, f: File, sizes: seq<nat>, sent: File, limit: nat)
    requires Carrying(s, f, sizes, sent, []) && s.queue != [] && s.mark == 1 && s.phase == Functors
    ensures var b := Step(Ended(Pop(s), s.data.value, limit), EndFunctors);
            TransferComplete(f, sent, sizes + [limit]) in Step(b, DataEof(s.data.value)).replies
  {
    var c := s.data.value;
    var b := Step(Ended(Pop(s), c, limit), EndFunctors);
    var d := SetTcp(b, c, Tcp.HandleClose(b.conns[c].tcp));
    assert Step(b, DataEof(c)) == Down(d);
    assert DownReply(d) == TransferComplete(f, sent, sizes + [limit]);
    assert Say(d, DownReply(d)).replies[|d.replies|] == DownReply(d);
  }

  lemma Finish(s: State, f: File, p: Plan, i: nat) returns (t: State)
    requires Reached(s, p) && Reading(s, f, p, i) && Found(f, p, i).data == []
    ensures Reached(t, p) && TransferComplete(f, Sofar(f, p, i + 1), Sizes(p, i + 1)) in t.replies
  {
    var a := ReadIt(s, f, p, i);
    RunReached(a, p, i);
    EndDoes(a, f, p, i);
    CloseDoes(a, f, Sizes(p, i), Sofar(f, p, i), p.size(i));
    t := Closed(Ended(Pop(a), a.data.value, p.size(i)), a.data.value, p);
    SizesSnoc(p, i);
    SofarSnoc(f, p, i);
    assert Sofar(f, p, i) + [] == Sofar(f, p, i);
  }

  lemma Closed(s: State, c: ConnId, p: Plan) returns (t: State)
    requires Reached(s, p)
    ensures Reached(t, p) && t == Step(Step(s, EndFunctors), DataEof(c))
  {
    StepReached(s, EndFunctors, p);
    var a := Step(s, EndFunctors);
    StepReached(a, DataEof(c), p);
    t := Step(a, DataEof(c));
  }

  // ---------------------------------------------------------------------------------------------
  // Whole transfers
  // ---------------------------------------------------------------------------------------------

  /** Of the planned reads, that of chunk `m` is the first to find nothing. */
  predicate EndsAt(f: File, p: Plan, m: nat) {
    Found(f, p, m).data == [] && forall j :: 0 <= j < m ==> Found(f, p, j).data != []
  }

  lemma {:induction false} FirstEmpty(f: File, p: Plan, i: nat) returns (m: nat)
    requires forall j :: 0 <= j < i ==> Found(f, p, j).data != []
    ensures EndsAt(f, p, m)
    decreases |f| - i
  {
    if Found(f, p, i).data == [] {
      m := i;
    } else {
      m := FirstEmpty(f, p, i + 1);
    }
  }

  ghost predicate Announces(f: File, p: Plan, m: nat, actions: seq<Action>) {
    && PoliteRun(actions) && AnswersWith(actions, p)
    && TransferComplete(f, Sofar(f, p, m + 1), Sizes(p, m + 1)) in Run(actions).replies
  }

  /**
   For every file, whatever the most each read returns and whatever each first write of a chunk is answered
   short of a broken connection, there is a run without overlaps in which the socket is given what the reads
   find, up to the first that finds nothing, and the transfer is announced; that is the whole file exactly
   when no read was cut short.
   */
  lemma {:induction false} EveryTransferEnds(f: File, p: Plan, m: nat)
    requires EndsAt(f, p, m) && forall i :: 0 <= i < m ==> !p.answer(i).Broken?
    ensures exists actions :: Announces(f, p, m, actions)
    ensures Sofar(f, p, m + 1) == f <==> AllWhole(f, Sizes(p, m + 1))
  {
    AllChunks(f, p, m);
    var s :| Reached(s, p) && Reading(s, f, p, m);
    var t := Finish(s, f, p, m);
    var actions :| PoliteRun(actions) && AnswersWith(actions, p) && Run(actions) == t;
    assert Announces(f, p, m, actions);
    SofarSnoc(f, p, m);
    ShortReadsLoseBytes(f, Sizes(p, m + 1));
  }

  ghost predicate Arrives(f: File, p: Plan, actions: seq<Action>) {
    && PoliteRun(actions) && AnswersWith(actions, p)
    && exists r :: r in Run(actions).replies && r.TransferComplete? && r.file == r.written == f
  }

  /** With reads that are not cut short every file arrives whole in some run, whatever first writes are answered. */
  lemma {:induction false} EveryFileArrives(f: File, p: Plan)
    requires forall i :: p.size(i) >= CHUNK
    requires forall i :: !p.answer(i).Broken?
    ensures exists actions :: Arrives(f, p, actions)
  {
    var m := FirstEmpty(f, p, 0);
    EveryTransferEnds(f, p, m);
    var actions :| Announces(f, p, m, actions);
    var sizes := Sizes(p, m + 1);
    assert forall i :: 0 <= i < |sizes| ==> WholeRead(f, i, sizes[i]);
    assert Arrives(f, p, actions);
  }

  /** One byte of two is lost, and yet announced, when the only read with something to find returns one byte. */
  lemma {:induction false} CutShort(b: File)
    requires |b| == 2
    ensures exists actions :: PoliteRun(actions) && TransferComplete(b, b[..1], [1, 1]) in Run(actions).replies
  {
    var p := Plan(_ => 1, _ => Tcp.Wrote(1));
    assert Found(b, p, 0).data != [];
    EveryTransferEnds(b, p, 1);
    var actions :| Announces(b, p, 1, actions);
    SofarSnoc(b, p, 1);
    SofarSnoc(b, p, 0);
    assert Sofar(b, p, 2) == b[..1] && Sizes(p, 2) == [1, 1];
  }
}
