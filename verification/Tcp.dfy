/**
 The send side of a TCP connection: four states, an output buffer, write interest and half-close.
 The connection is first given as a value with functions for its handlers; `TcpConnection` is the
 mutable object, proved against them. A write to the socket is an environment choice.
 */
module Tcp {
  import opened Bytes
  import opened Sequences
  import Buffers

  datatype Phase = Connecting | Connected | Disconnecting | Disconnected

  /** What `write(2)` answered: a byte count, EWOULDBLOCK, EPIPE or ECONNRESET, or another error. */
  datatype WriteResult = Wrote(n: nat) | WouldBlock | Broken | OtherError

  /** Bytes of a `len`-byte write that the kernel took. */
  function Taken(r: WriteResult, len: nat): (n: nat)
    ensures n <= len
  {
    if r.Wrote? then if r.n <= len then r.n else len else 0
  }

  /**
   `out` is the output buffer and `writing` the write interest. The last three fields are history:
   every byte given to the kernel, every message accepted, and the number of `shutdown(SHUT_WR)`.
   */
  datatype Conn = Conn(
    state: Phase, reading: bool, writing: bool, out: seq<byte>,
    kernel: seq<byte>, accepted: seq<seq<byte>>, shuts: nat)

  const NEW_CONN := Conn(Connecting, false, false, [], [], [], 0)

  function Open(c: Conn): bool { c.state == Connected || c.state == Disconnecting }

  function Establish(c: Conn): Conn {
    if c.state == Connecting then c.(state := Connected, reading := true) else c
  }

  /** `sendInLoop`: write directly when nothing is queued, keep the rest, drop on a broken pipe. */
  function SendInLoop(c: Conn, msg: seq<byte>, r: WriteResult): Conn {
    if c.state == Disconnected then c
    else
      var direct := !c.writing && c.out == [];
      var n := if direct then Taken(r, |msg|) else 0;
      if direct && n == 0 && r.Broken? then c
      else
        var rest := msg[n..];
        c.(kernel := c.kernel + msg[..n], out := c.out + rest,
           writing := c.writing || rest != [], accepted := c.accepted + [msg])
  }

  /** `sendInLoop` in two parts: what the kernel took, and the rest if there is one. */
  lemma SendParts(c: Conn, msg: seq<byte>, r: WriteResult)
    requires c.state != Disconnected
    ensures var direct := !c.writing && c.out == []; var n := if direct then Taken(r, |msg|) else 0;
            var took := c.(kernel := c.kernel + msg[..n], accepted := c.accepted + [msg]);
            SendInLoop(c, msg, r) == if direct && n == 0 && r.Broken? then c
                                     else if n < |msg| then took.(out := c.out + msg[n..], writing := true)
                                     else took
  {
    assert forall n :: n == |msg| ==> msg[n..] == [];
    assert c.out + [] == c.out;
  }

  /** What the direct write of `sendInLoop` came to. */
  predicate Direct(c: Conn, msg: seq<byte>, r: WriteResult, wrote: nat, fault: bool) {
    && wrote == (if !c.writing && c.out == [] then Taken(r, |msg|) else 0)
    && fault == (!c.writing && c.out == [] && wrote == 0 && r.Broken?)
  }

  predicate Accepts(c: Conn, d: Conn, msg: seq<byte>, wrote: nat)
    requires wrote <= |msg|
  {
    var took := c.(kernel := c.kernel + msg[..wrote], accepted := c.accepted + [msg]);
    d == if wrote < |msg| then took.(out := c.out + msg[wrote..], writing := true) else took
  }

  lemma SendIs(c: Conn, d: Conn, msg: seq<byte>, r: WriteResult, wrote: nat, fault: bool)
    requires c.state != Disconnected && Direct(c, msg, r, wrote, fault)
    requires if fault then d == c else Accepts(c, d, msg, wrote)
    ensures d == SendInLoop(c, msg, r)
  {
    SendParts(c, msg, r);
  }

  /** Whether `sendInLoop` queues the write-complete callback. */
  predicate SendCompletes(c: Conn, msg: seq<byte>, r: WriteResult) {
    c.state != Disconnected && !c.writing && c.out == [] && 0 < Taken(r, |msg|) == |msg|
  }

  function ShutdownInLoop(c: Conn): Conn {
    if c.writing then c else c.(shuts := c.shuts + 1)
  }

  /** `handleWrite`: drain the output buffer; once empty, drop the interest and finish a half-close. */
  function HandleWrite(c: Conn, r: WriteResult): Conn {
    if !c.writing || Taken(r, |c.out|) == 0 then c
    else
      var n := Taken(r, |c.out|);
      var d := c.(kernel := c.kernel + c.out[..n], out := c.out[n..]);
      if d.out != [] then d
      else
        var e := d.(writing := false);
        if e.state == Disconnecting then ShutdownInLoop(e) else e
  }

  predicate WriteCompletes(c: Conn, r: WriteResult) {
    c.writing && 0 < Taken(r, |c.out|) == |c.out|
  }

  function HandleClose(c: Conn): Conn
    requires Open(c)
  {
    c.(state := Disconnected, reading := false, writing := false)
  }

  function Shutdown(c: Conn): Conn {
    if c.state == Connected then ShutdownInLoop(c.(state := Disconnecting)) else c
  }

  function ForceClose(c: Conn): Conn {
    if Open(c) then c.(state := Disconnecting) else c
  }

  /** What holds after every step, whoever calls. */
  predicate StreamOk(c: Conn) {
    && Flatten(c.accepted) == c.kernel + c.out
    && (c.state == Disconnected ==> !c.writing)
    && (c.state != Disconnected ==> (c.writing <==> c.out != []))
  }

  lemma {:induction false} SendKeepsStream(c: Conn, msg: seq<byte>, r: WriteResult)
    requires StreamOk(c)
    ensures var d := SendInLoop(c, msg, r);
            StreamOk(d) && (d.accepted == c.accepted || d.accepted == c.accepted + [msg])
    ensures SendCompletes(c, msg, r) ==> SendInLoop(c, msg, r).out == []
    ensures SendInLoop(c, msg, r).accepted == c.accepted ==> SendInLoop(c, msg, r) == c
  {
    var d := SendInLoop(c, msg, r);
    if d != c {
      FlattenSnoc(c.accepted, msg);
      var n := if !c.writing && c.out == [] then Taken(r, |msg|) else 0;
      Whole(c.kernel, c.out, msg, n);
    }
  }

  /** Sent now or kept for later, a message comes after what was there. */
  lemma Whole(kernel: seq<byte>, out: seq<byte>, msg: seq<byte>, n: nat)
    requires n <= |msg| && (n > 0 ==> out == [])
    ensures kernel + msg[..n] + (out + msg[n..]) == kernel + out + msg
  {
    assert msg == msg[..n] + msg[n..];
    if n > 0 {
      assert out + msg[n..] == msg[n..] && kernel + out == kernel;
    } else {
      assert msg[..n] == [] && msg[n..] == msg && kernel + [] == kernel;
    }
  }

  lemma {:induction false} WriteKeepsStream(c: Conn, r: WriteResult)
    requires StreamOk(c)
    ensures var d := HandleWrite(c, r);
            StreamOk(d) && d.accepted == c.accepted && d.kernel + d.out == c.kernel + c.out
    ensures WriteCompletes(c, r) <==> c.writing && HandleWrite(c, r).out == []
  {
    var n := Taken(r, |c.out|);
    assert c.out == c.out[..n] + c.out[n..];
    assert (c.kernel + c.out[..n]) + c.out[n..] == c.kernel + c.out;
  }

  // ---------------------------------------------------------------------------------------------
  // Whole runs, with calls from the loop thread ("Here") and from other threads ("Elsewhere")
  // ---------------------------------------------------------------------------------------------

  datatype Deferred = SendLater(msg: seq<byte>) | ShutdownLater | ForceCloseLater

  datatype Action =
    | Up
    | SendHere(msg: seq<byte>, r: WriteResult)
    | SendElsewhere(msg: seq<byte>)
    | ShutdownHere
    | ShutdownElsewhere
    | ForceCloseAnywhere
    | Writable(r: WriteResult)
    | PeerClosed
    | Destroyed
    | RunDeferred(r: WriteResult)

  datatype System = System(conn: Conn, deferred: seq<Deferred>)

  const START := System(NEW_CONN, [])

  function RunOne(c: Conn, d: Deferred, r: WriteResult): Conn {
    match d
    case SendLater(msg) => SendInLoop(c, msg, r)
    case ShutdownLater => ShutdownInLoop(c)
    case ForceCloseLater => if Open(c) then HandleClose(c) else c
  }

  function Step(s: System, a: Action): System {
    var c := s.conn;
    match a
    case Up => s.(conn := Establish(c))
    case SendHere(msg, r) => if c.state == Connected then s.(conn := SendInLoop(c, msg, r)) else s
    case SendElsewhere(msg) => if c.state == Connected then s.(deferred := s.deferred + [SendLater(msg)]) else s
    case ShutdownHere => s.(conn := Shutdown(c))
    case ShutdownElsewhere =>
      if c.state == Connected then System(c.(state := Disconnecting), s.deferred + [ShutdownLater]) else s
    case ForceCloseAnywhere => if Open(c) then System(ForceClose(c), s.deferred + [ForceCloseLater]) else s
    case Writable(r) => s.(conn := HandleWrite(c, r))
    case PeerClosed => if Open(c) then s.(conn := HandleClose(c)) else s
    case Destroyed => if c.state == Connected then s.(conn := HandleClose(c)) else s
    case RunDeferred(r) =>
      if s.deferred == [] then s else System(RunOne(c, s.deferred[0], r), s.deferred[1..])
  }

  function Run(actions: seq<Action>): System {
    if actions == [] then START else Step(Run(actions[..|actions| - 1]), actions[|actions| - 1])
  }

  lemma RunSnoc(actions: seq<Action>, a: Action)
    ensures Run(actions + [a]) == Step(Run(actions), a)
  {
    assert (actions + [a])[..|actions|] == actions;
  }

  predicate OnLoopThread(a: Action) { !a.SendElsewhere? && !a.ShutdownElsewhere? }

  lemma StepKeepsStream(s: System, a: Action)
    requires StreamOk(s.conn)
    ensures StreamOk(Step(s, a).conn)
  {
    match a {
      case SendHere(msg, r) => SendKeepsStream(s.conn, msg, r);
      case Writable(r) => WriteKeepsStream(s.conn, r);
      case RunDeferred(r) =>
        if s.deferred != [] && s.deferred[0].SendLater? {
          SendKeepsStream(s.conn, s.deferred[0].msg, r);
        }
      case _ =>
    }
  }

  /**
   In every run, whatever the kernel answers and whichever thread calls: bytes given to the kernel
   followed by the output buffer are the accepted messages in order, and write interest is on
   exactly while there is something to write.
   */
  lemma {:induction false} SendStream(actions: seq<Action>)
    ensures StreamOk(Run(actions).conn)
  {
    if actions != [] {
      SendStream(actions[..|actions| - 1]);
      StepKeepsStream(Run(actions[..|actions| - 1]), actions[|actions| - 1]);
    }
  }

  /** POLLOUT moves exactly the bytes the socket took, the oldest first. */
  lemma {:induction false} WriteMoves(c: Conn, r: WriteResult)
    requires StreamOk(c)
    ensures var d, n := HandleWrite(c, r), if c.writing then Taken(r, |c.out|) else 0;
            && |d.kernel| == |c.kernel| + n && d.kernel == (c.kernel + c.out)[..|c.kernel| + n]
            && d.out == (c.kernel + c.out)[|c.kernel| + n..]
  {
  }

  /** The send that a step makes on the loop thread, if it makes one. */
  function Sending(s: System, a: Action): seq<seq<byte>> {
    match a
    case SendHere(msg, _) => if s.conn.state == Connected then [msg] else []
    case RunDeferred(_) =>
      if s.deferred != [] && s.deferred[0].SendLater? && s.conn.state != Disconnected then [s.deferred[0].msg] else []
    case _ => []
  }

  /** With nothing buffered, a send writes to the socket; it is lost when that says the peer is gone. */
  predicate Lost(s: System, a: Action) { s.conn.out == [] && (a.SendHere? || a.RunDeferred?) && a.r.Broken? }

  /** The messages accepted, by the calls and the socket's answers. */
  function Offered(actions: seq<Action>): seq<seq<byte>> {
    if actions == [] then []
    else
      var before, a := actions[..|actions| - 1], actions[|actions| - 1];
      Offered(before) + if Lost(Run(before), a) then [] else Sending(Run(before), a)
  }

  /** How many bytes the socket's answer to a step says it took. */
  function Took(s: System, a: Action): nat {
    if a.Writable? then (if s.conn.out == [] || s.conn.state == Disconnected then 0 else Taken(a.r, |s.conn.out|))
    else if Sending(s, a) == [] || s.conn.out != [] then 0
    else Taken(a.r, |Sending(s, a)[0]|)
  }

  function TookAll(actions: seq<Action>): nat {
    if actions == [] then 0
    else TookAll(actions[..|actions| - 1]) + Took(Run(actions[..|actions| - 1]), actions[|actions| - 1])
  }

  lemma StepAccount(s: System, a: Action)
    requires StreamOk(s.conn)
    ensures var c, d := s.conn, Step(s, a).conn;
            && d.accepted == c.accepted + (if Lost(s, a) then [] else Sending(s, a))
            && |d.kernel| == |c.kernel| + Took(s, a)
  {
    match a {
      case Writable(r) => WriteMoves(s.conn, r);
      case _ =>
    }
  }

  /**
   In every run the messages accepted are those sent while the connection could take them, but for a send that found
   the peer gone, and the kernel holds as many of their bytes as the socket said it took, the oldest first.
   */
  lemma {:induction false} SocketAccount(actions: seq<Action>)
    ensures var c := Run(actions).conn;
            && c.accepted == Offered(actions) && |c.kernel| == TookAll(actions)
            && c.kernel <= Flatten(Offered(actions))
  {
    SendStream(actions);
    if actions != [] {
      var before := actions[..|actions| - 1];
      SocketAccount(before);
      SendStream(before);
      StepAccount(Run(before), actions[|actions| - 1]);
    }
  }

  /** The half-close account of a connection whose callers are all on the loop thread. */
  predicate HalfCloseOk(s: System, forced: bool) {
    && s.conn.shuts <= 1
    && (s.conn.shuts == 1 ==> s.conn.out == [] && s.conn.state in {Disconnecting, Disconnected})
    && (s.conn.state == Disconnecting && !forced ==> (s.conn.shuts == 1 <==> s.conn.out == []))
    && (forall d :: d in s.deferred ==> d == ForceCloseLater)
  }

  lemma StepKeepsHalfClose(s: System, a: Action, forced: bool)
    requires StreamOk(s.conn) && HalfCloseOk(s, forced) && OnLoopThread(a)
    ensures HalfCloseOk(Step(s, a), forced || a == ForceCloseAnywhere)
  {
    assert s.deferred != [] ==> s.deferred[0] in s.deferred && forall d :: d in s.deferred[1..] ==> d in s.deferred;
    match a {
      case SendHere(msg, r) => SendKeepsStream(s.conn, msg, r);
      case Writable(r) => WriteKeepsStream(s.conn, r);
      case _ =>
    }
  }

  /**
   For calls on the loop thread the write side is shut at most once, only once every accepted byte is
   with the kernel, and (unless the connection is being forced down) as soon as that is so.
   */
  lemma {:induction false} HalfClose(actions: seq<Action>)
    requires forall a :: a in actions ==> OnLoopThread(a)
    ensures HalfCloseOk(Run(actions), ForceCloseAnywhere in actions)
    ensures var c := Run(actions).conn; c.shuts == 1 ==> c.kernel == Flatten(c.accepted)
  {
    SendStream(actions);
    if actions != [] {
      var before, last := actions[..|actions| - 1], actions[|actions| - 1];
      assert actions == before + [last];
      assert last in actions && (forall a :: a in before ==> a in actions);
      HalfClose(before);
      SendStream(before);
      StepKeepsHalfClose(Run(before), last, ForceCloseAnywhere in before);
    }
  }

  /** Once the write side is shut, no loop-thread call gets another byte accepted or sent. */
  lemma {:induction false} NothingAfterHalfClose(actions: seq<Action>, a: Action)
    requires OnLoopThread(a) && forall b :: b in actions ==> OnLoopThread(b)
    requires Run(actions).conn.shuts == 1
    ensures var c, d := Run(actions).conn, Step(Run(actions), a).conn;
            d.accepted == c.accepted && d.kernel == c.kernel && d.shuts == 1
  {
    HalfClose(actions);
    SendStream(actions);
    var s := Run(actions);
    assert s.deferred != [] ==> s.deferred[0] in s.deferred;
  }

  // ---------------------------------------------------------------------------------------------
  // The object
  // ---------------------------------------------------------------------------------------------

  class TcpConnection {
    var state: Phase
    var reading: bool
    var writing: bool
    const output: Buffers.Buffer
    ghost var kernel: seq<byte>
    ghost var accepted: seq<seq<byte>>
    ghost var shuts: nat

    ghost predicate Valid()
      reads this, output
    {
      output.Valid()
    }

    ghost function View(): Conn
      requires Valid()
      reads this, output, output.data
    {
      Conn(state, reading, writing, output.Contents(), kernel, accepted, shuts)
    }

    constructor ()
      ensures Valid() && View() == NEW_CONN && fresh(output) && fresh(output.data)
    {
      state, reading, writing := Connecting, false, false;
      output := new Buffers.Buffer();
      kernel, accepted, shuts := [], [], 0;
    }

    method ConnectEstablished()
      requires Valid() && state == Connecting
      modifies this
      ensures Valid() && View() == Establish(old(View()))
    {
      state := Connected;
      reading := true;
    }

    /** `sendInLoop`; returns whether the write-complete callback is to be queued. */
    method SendNow(msg: seq<byte>, r: WriteResult) returns (complete: bool)
      requires Valid()
      modifies this, output, output.data
      ensures Valid() && (output.data == old(output.data) || fresh(output.data))
      ensures View() == SendInLoop(old(View()), msg, r)
      ensures complete == SendCompletes(old(View()), msg, r)
    {
      complete := false;
      if state == Disconnected {
        return;
      }
      ghost var c := View();
      var wrote, fault := 0, false;
      if !writing && output.ReadableBytes() == 0 {
        wrote := Taken(r, |msg|);
        if wrote > 0 {
          complete := wrote == |msg|;
        } else {
          fault := r.Broken?;
        }
      }
      assert Direct(c, msg, r, wrote, fault);
      if !fault {
        Accept(msg, wrote);
      }
      SendIs(c, View(), msg, r, wrote, fault);
    }

    /** The message counts as accepted; what the kernel did not take is kept. */
    method Accept(msg: seq<byte>, wrote: nat)
      requires Valid() && wrote <= |msg|
      modifies this, output, output.data
      ensures Valid() && (output.data == old(output.data) || fresh(output.data))
      ensures Accepts(old(View()), View(), msg, wrote)
    {
      kernel, accepted := kernel + msg[..wrote], accepted + [msg];
      if wrote < |msg| {
        Keep(msg[wrote..]);
      }
    }

    /** The tail of `sendInLoop`: buffer what the kernel did not take and ask for POLLOUT. */
    method Keep(rest: seq<byte>)
      requires Valid() && rest != []
      modifies this, output, output.data
      ensures Valid() && (output.data == old(output.data) || fresh(output.data))
      ensures View() == old(View()).(out := old(View()).out + rest, writing := true)
    {
      output.Append(rest);
      if !writing {
        writing := true;
      }
    }

    method ShutdownNow()
      requires Valid()
      modifies this
      ensures Valid() && View() == ShutdownInLoop(old(View()))
    {
      if !writing {
        shuts := shuts + 1;
      }
    }

    method ShutdownHere()
      requires Valid()
      modifies this
      ensures Valid() && View() == Shutdown(old(View()))
    {
      if state == Connected {
        state := Disconnecting;
        ShutdownNow();
      }
    }

    method OnWritable(r: WriteResult) returns (complete: bool)
      requires Valid()
      modifies this, output
      ensures Valid() && output.data == old(output.data)
      ensures View() == HandleWrite(old(View()), r)
      ensures complete == WriteCompletes(old(View()), r)
    {
      complete := false;
      if writing {
        var n := Taken(r, output.ReadableBytes());
        if n > 0 {
          kernel := kernel + output.Contents()[..n];
          output.Retrieve(n);
          if output.ReadableBytes() == 0 {
            writing := false;
            complete := true;
            if state == Disconnecting {
              ShutdownNow();
            }
          }
        }
      }
    }

    method OnClose()
      requires Valid() && (state == Connected || state == Disconnecting)
      modifies this
      ensures Valid() && View() == HandleClose(old(View()))
    {
      state := Disconnected;
      reading, writing := false, false;
    }

    /** Returns whether the closing functor is to be queued. */
    method ForceCloseHere() returns (queued: bool)
      requires Valid()
      modifies this
      ensures Valid() && View() == ForceClose(old(View())) && queued == Open(old(View()))
    {
      queued := state == Connected || state == Disconnecting;
      if queued {
        state := Disconnecting;
      }
    }
  }
}
