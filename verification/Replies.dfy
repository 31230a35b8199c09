/**
 The control replies of the FTP session, over every run whatsoever: what was asked for last and whether its end was
 reached are read off the actions, and each step adds exactly the replies that these and the environment's answers
 call for.
 */
module Replies {
  import Tcp
  import opened Transfer
  import opened Wrappers

  // ---------------------------------------------------------------------------------------------
  // History: what was asked for, and whether its end was reached
  // ---------------------------------------------------------------------------------------------

  /** A command is taken while there is a data server and the loop handles events. */
  predicate Taken(s: State) { !s.failed && s.phase == Events && s.server.Some? }

  /** What the last command taken asked for. */
  function Asked(actions: seq<Action>): Xfer {
    if actions == [] then Nothing
    else
      var before, a := actions[..|actions| - 1], actions[|actions| - 1];
      if a.ListCommand? && Taken(Run(before)) then Listing
      else if a.RetrCommand? && Taken(Run(before)) then Retrieving
      else Asked(before)
  }

  /** The file of the last RETR taken. */
  function FileAsked(actions: seq<Action>): File {
    if actions == [] then []
    else
      var before, a := actions[..|actions| - 1], actions[|actions| - 1];
      if a.RetrCommand? && Taken(Run(before)) then a.file else FileAsked(before)
  }

  /** The functor about to run. */
  predicate Runs(s: State, a: Action, f: Functor) {
    !s.failed && a.RunFunctor? && s.phase == Functors && 0 < s.mark <= |s.queue| && s.queue[0] == f
  }

  /** The data connection went up just now, with a command waiting for it; or the command found it up. */
  predicate Starts(s: State, a: Action) {
    && !s.failed && s.phase == Events
    && match a
       case ListCommand(_) => s.server.Some? && DataUp(s)
       case RetrCommand(_, _) => s.server.Some? && DataUp(s)
       case DataConnected(_, _) => s.data.None? && s.xfer != Nothing
       case _ => false
  }

  /** What is being transferred after a command or a new connection. */
  function Kind(s: State, a: Action): Xfer {
    if a.ListCommand? then Listing else if a.RetrCommand? then Retrieving else s.xfer
  }

  /** The directory or the file opens. */
  predicate Opens(s: State, kind: Xfer, e: Env) { e.openOk && (kind == Retrieving ==> e.fdNum !in s.table) }

  /** The next chunk is asked for: the transfer starts, or the last one has been written. */
  predicate AsksNext(s: State, a: Action) {
    || (Starts(s, a) && Opens(s, Kind(s, a), a.e))
    || (a.RunFunctor? && s.queue != [] && s.queue[0].Complete? && Runs(s, a, s.queue[0]) && s.xfer != Nothing
        && DataUp(s) && (s.queue[0].bound || (s.queue[0].conn in s.conns && s.conns[s.queue[0].conn].pump)))
  }

  /** The transfer in progress is told of its end: an empty result at the end, or no directory entry left. */
  predicate TakesEnd(s: State, a: Action) {
    || (AsksNext(s, a) && Kind(s, a) == Listing && a.e.emptyDir)
    || (a.RunFunctor? && s.queue != [] && s.queue[0].Ready? && Runs(s, a, s.queue[0]) && s.xfer != Nothing
        && s.queue[0].gen == s.gen && s.data.Some? && s.data.value in s.conns && !s.queue[0].outcome.error
        && s.queue[0].outcome.data == [] && s.queue[0].outcome.atEof)
  }

  /** Its end was reached since the last RETR was taken and since a transfer was last over. */
  predicate EndReached(actions: seq<Action>) {
    actions != [] &&
    var before, a := actions[..|actions| - 1], actions[|actions| - 1];
    || TakesEnd(Run(before), a)
    || (EndReached(before) && Run(actions).xfer != Nothing && !(a.RetrCommand? && Taken(Run(before))))
  }

  // ---------------------------------------------------------------------------------------------
  // What each step answers
  // ---------------------------------------------------------------------------------------------

  /**
   The connection a step finds open and takes down: its peer closes it, its queued close runs, or its server is
   deleted.
   */
  predicate TakesDown(s: State, a: Action, c: ConnId) {
    && c in s.conns && Tcp.Open(s.conns[c].tcp)
    && ( || (!s.failed && s.phase == Events && a == DataEof(c))
         || Runs(s, a, Close(c))
         || (Runs(s, a, DeleteServer(s.conns[c].server)) && a.e.victim == c
             && s.conns[c].tcp.state != Tcp.Disconnecting))
  }

  /** The last word on a transfer whose connection went down. */
  function LastWord(actions: seq<Action>): Reply {
    var s := Run(actions);
    if !EndReached(actions) then Code(426)
    else if Asked(actions) == Listing then ListComplete
    else TransferComplete(FileAsked(actions), Written(s), ReadSizes(s))
  }

  /** The answer to a command, and to a data server nobody connected to. */
  function Prompt(s: State, a: Action): seq<Reply> {
    if s.failed || s.phase == Functors then []
    else match a
      case Pasv => [Code(227)]
      case PasvTimeout => if s.server.Some? && s.xfer == Nothing && s.data.None? then [Code(425)] else []
      case ListCommand(_) => [Code(if s.server.Some? then 150 else 425)]
      case RetrCommand(_, _) => [Code(if s.server.Some? then 150 else 425)]
      case _ => []
  }

  /** A read of the transfer in progress failed. */
  predicate ReadFailed(s: State, a: Action) {
    && a.RunFunctor? && s.queue != [] && s.queue[0].Ready? && Runs(s, a, s.queue[0])
    && s.xfer != Nothing && s.queue[0].gen == s.gen && s.queue[0].outcome.error
  }

  /** What goes wrong on the session's side: it does not open, the pool is full, the read fails. */
  function Trouble(s: State, a: Action): seq<Reply> {
    if (Starts(s, a) && !Opens(s, Kind(s, a), a.e)) || ReadFailed(s, a) then [Code(550)]
    else if AsksNext(s, a) && !(Kind(s, a) == Listing && a.e.emptyDir) && !a.e.submitOk then [Code(451)]
    else []
  }

  ghost function Answers(actions: seq<Action>, a: Action): seq<Reply> {
    var s := Run(actions);
    if exists c :: TakesDown(s, a, c) then if s.xfer == Nothing then [] else [LastWord(actions)]
    else Prompt(s, a) + Trouble(s, a)
  }

  // ---------------------------------------------------------------------------------------------
  // The session's functions, one by one
  // ---------------------------------------------------------------------------------------------

  /** The part of the state that replies depend on. */
  datatype View = View(xfer: Xfer, done: bool, target: File, replies: seq<Reply>)

  function Seen(s: State): View { View(s.xfer, s.done, s.target, s.replies) }

  function Say1(v: View, r: Reply): View { v.(replies := v.replies + [r]) }

  function Over(v: View): View { v.(xfer := Nothing, done := false) }

  lemma ChunkSeen(s: State, gen: nat, o: Outcome, e: Env)
    ensures Seen(ChunkReady(s, gen, o, e)) ==
              if gen != s.gen || s.xfer == Nothing then Seen(s)
              else if o.error then Over(Say1(Seen(s), Code(550)))
              else if o.data == [] && o.atEof && s.data.Some? && s.data.value in s.conns then Seen(s).(done := true)
              else Seen(s)
  {
  }

  lemma RequestSeen(s: State, e: Env)
    requires s.xfer != Nothing && DataUp(s)
    ensures Seen(Request(s, e)) ==
              if s.xfer == Listing && e.emptyDir then Seen(s).(done := true)
              else if e.submitOk then Seen(s)
              else Over(Say1(Seen(s), Code(451)))
  {
  }

  lemma TryStartSeen(s: State, e: Env)
    requires s.xfer != Nothing && DataUp(s)
    ensures Seen(TryStart(s, e)) ==
              if !Opens(s, s.xfer, e) then Say1(Seen(s), Code(550))
              else if s.xfer == Listing && e.emptyDir then Seen(s).(done := true)
              else if e.submitOk then Seen(s)
              else Over(Say1(Seen(s), Code(451)))
  {
    if Opens(s, s.xfer, e) {
      if s.xfer == Listing {
        RequestSeen(s, e);
      } else {
        RequestSeen(OpenTarget(s, e.fdNum), e);
      }
    }
  }

  lemma CloseSeen(s: State, c: ConnId)
    requires c in s.conns && Tcp.Open(s.conns[c].tcp)
    ensures Seen(CloseConn(s, c)) == Over(if s.xfer == Nothing then Seen(s) else Say1(Seen(s), DownReply(s)))
    ensures c in CloseConn(s, c).conns && !Tcp.Open(CloseConn(s, c).conns[c].tcp)
  {
    var t := SetTcp(s, c, Tcp.HandleClose(s.conns[c].tcp));
    assert Written(t) == Written(s) && ReadSizes(t) == ReadSizes(s);
  }

  // ---------------------------------------------------------------------------------------------
  // A step that takes nothing down
  // ---------------------------------------------------------------------------------------------

  predicate Command(s: State, a: Action) { (a.ListCommand? || a.RetrCommand?) && Taken(s) }

  /** The session itself ends the transfer: the pool is full or a read failed. */
  predicate GivesUp(s: State, a: Action) { ReadFailed(s, a) || (AsksNext(s, a) && Trouble(s, a) != []) }

  /** How a step that takes nothing down moves the transfer, and what it says. */
  predicate Moves(s: State, a: Action, q: State) {
    && q.replies == s.replies + (Prompt(s, a) + Trouble(s, a))
    && (q.done <==> TakesEnd(s, a) || (s.done && q.xfer != Nothing && !(a.RetrCommand? && Command(s, a))))
    && q.xfer == (if GivesUp(s, a) then Nothing else if Command(s, a) then Kind(s, a) else s.xfer)
    && q.target == (if a.RetrCommand? && Command(s, a) then a.file else s.target)
  }

  lemma ListMoves(s: State, a: Action)
    requires a.ListCommand? && Taken(s) && (s.xfer == Nothing ==> !s.done)
    ensures Moves(s, a, Step(s, a))
  {
    var b := BeginList(s);
    assert Step(s, a) == TryStart(b, a.e);
    assert DataUp(b) <==> DataUp(s);
    assert b.replies == s.replies + Prompt(s, a);
    if DataUp(s) {
      TryStartSeen(b, a.e);
    }
  }

  lemma RetrMoves(s: State, a: Action)
    requires a.RetrCommand? && Taken(s) && (s.xfer == Nothing ==> !s.done)
    ensures Moves(s, a, Step(s, a))
  {
    var b := BeginRetr(s, a.file);
    assert Step(s, a) == TryStart(b, a.e);
    assert DataUp(b) <==> DataUp(s);
    assert b.replies == s.replies + Prompt(s, a);
    if DataUp(s) {
      TryStartSeen(b, a.e);
    }
  }

  lemma CommandMoves(s: State, a: Action)
    requires (a.ListCommand? || a.RetrCommand?) && (s.xfer == Nothing ==> !s.done)
    ensures Moves(s, a, Step(s, a))
  {
    if !Taken(s) {
      RefusedMoves(s, a);
    } else if a.ListCommand? {
      ListMoves(s, a);
    } else {
      RetrMoves(s, a);
    }
  }

  lemma RefusedMoves(s: State, a: Action)
    requires (a.ListCommand? || a.RetrCommand?) && !Taken(s) && (s.xfer == Nothing ==> !s.done)
    ensures Moves(s, a, Step(s, a))
  {
    assert !Starts(s, a);
  }

  lemma ConnectMoves(s: State, a: Action)
    requires a.DataConnected? && (s.xfer == Nothing ==> !s.done)
    ensures Moves(s, a, Step(s, a))
  {
    if !s.failed && s.phase == Events && s.data.None? {
      var b := Adopt(s, a.to);
      assert Step(s, a) == TryStart(b, a.e);
      assert DataUp(b);
      if s.xfer != Nothing {
        TryStartSeen(b, a.e);
      }
    }
  }

  lemma ReadyMoves(s: State, a: Action)
    requires a.RunFunctor? && s.queue != [] && s.queue[0].Ready? && Runs(s, a, s.queue[0])
    requires s.xfer == Nothing ==> !s.done
    ensures Moves(s, a, Step(s, a))
  {
    var gen, o := s.queue[0].gen, s.queue[0].outcome;
    assert Step(s, a) == ChunkReady(Pop(s), gen, o, a.e);
    ChunkSeen(Pop(s), gen, o, a.e);
  }

  lemma CompleteMoves(s: State, a: Action)
    requires a.RunFunctor? && s.queue != [] && s.queue[0].Complete? && Runs(s, a, s.queue[0])
    requires s.xfer == Nothing ==> !s.done
    ensures Moves(s, a, Step(s, a))
  {
    assert DataUp(Pop(s)) <==> DataUp(s);
    if s.xfer != Nothing && DataUp(s) {
      RequestSeen(Pop(s), a.e);
    }
  }

  /** Neither a command nor a connection nor a functor. */
  predicate Quiet(a: Action) { !a.ListCommand? && !a.RetrCommand? && !a.DataConnected? && !a.RunFunctor? }

  lemma QuietMoves(s: State, a: Action)
    requires Quiet(a) && (s.xfer == Nothing ==> !s.done) && forall c :: !TakesDown(s, a, c)
    ensures Moves(s, a, Step(s, a))
  {
    QuietSays(s, a);
    var q := Step(s, a);
    if a.DataEof? {
      assert !TakesDown(s, a, a.conn);
      assert q == s;
    } else {
      assert q.xfer == s.xfer && q.done == s.done && q.target == s.target;
    }
  }

  lemma QuietSays(s: State, a: Action)
    requires Quiet(a) && forall c :: !TakesDown(s, a, c)
    ensures Step(s, a).replies == s.replies + Prompt(s, a)
    ensures Trouble(s, a) == [] && !TakesEnd(s, a) && !GivesUp(s, a) && !Command(s, a)
  {
    if a.DataEof? {
      assert !TakesDown(s, a, a.conn);
    }
  }

  lemma ServerMoves(s: State, a: Action)
    requires a.RunFunctor? && s.queue != [] && Runs(s, a, s.queue[0]) && !s.queue[0].Ready? && !s.queue[0].Complete?
    requires s.xfer == Nothing ==> !s.done
    requires forall c :: !TakesDown(s, a, c)
    ensures Moves(s, a, Step(s, a))
  {
    match s.queue[0] {
      case Close(c) => assert !TakesDown(s, a, c);
      case DeleteServer(_) => assert !TakesDown(s, a, a.e.victim);
      case CloseServer =>
    }
  }

  lemma StepMoves(s: State, a: Action)
    requires s.xfer == Nothing ==> !s.done
    requires forall c :: !TakesDown(s, a, c)
    ensures Moves(s, a, Step(s, a))
  {
    if a.ListCommand? || a.RetrCommand? {
      CommandMoves(s, a);
    } else if a.DataConnected? {
      ConnectMoves(s, a);
    } else if !a.RunFunctor? {
      QuietMoves(s, a);
    } else if s.queue != [] && Runs(s, a, s.queue[0]) {
      if s.queue[0].Ready? {
        ReadyMoves(s, a);
      } else if s.queue[0].Complete? {
        CompleteMoves(s, a);
      } else {
        ServerMoves(s, a);
      }
    }
  }

  lemma DownMoves(s: State, a: Action, c: ConnId)
    requires TakesDown(s, a, c)
    ensures Seen(Step(s, a)) == Over(if s.xfer == Nothing then Seen(s) else Say1(Seen(s), DownReply(s)))
    ensures c in Step(s, a).conns && !Tcp.Open(Step(s, a).conns[c].tcp)
  {
    if a.DataEof? {
      assert Step(s, a) == CloseConn(s, c);
      CloseSeen(s, c);
    } else if s.queue[0].Close? {
      assert Step(s, a) == CloseConn(Pop(s), c);
      CloseSeen(Pop(s), c);
    } else {
      assert Step(s, a) == CloseConn(s, c);
      CloseSeen(s, c);
    }
  }

  // ---------------------------------------------------------------------------------------------
  // Which connections are open
  // ---------------------------------------------------------------------------------------------

  predicate IsOpen(s: State, c: ConnId) { c in s.conns && Tcp.Open(s.conns[c].tcp) }

  /** Neither opens nor closes the connection, nor makes a new one. */
  predicate Keeps(s: State, t: State, c: ConnId) {
    (IsOpen(t, c) <==> IsOpen(s, c)) && t.nextConn == s.nextConn
  }

  lemma AbortKeeps(s: State, c: ConnId)
    ensures Keeps(s, Abort(s), c)
  {
  }

  lemma DropKeeps(s: State, c: ConnId)
    ensures Keeps(s, DropData(s), c)
  {
  }

  lemma GiveUpKeeps(s: State, code: nat, c: ConnId)
    ensures Keeps(s, GiveUp(s, code), c)
  {
    var t := Say(s, Code(code));
    AbortKeeps(t, c);
    DropKeeps(Abort(t), c);
  }

  lemma SendKeeps(s: State, o: Outcome, r: Tcp.WriteResult, c: ConnId)
    requires DataUp(s)
    ensures Keeps(s, SendChunk(s, o, r), c)
  {
  }

  lemma ChunkKeeps(s: State, gen: nat, o: Outcome, e: Env, c: ConnId)
    ensures Keeps(s, ChunkReady(s, gen, o, e), c)
  {
    GiveUpKeeps(s, 550, c);
    if DataUp(s) {
      SendKeeps(s, o, e.write, c);
    }
  }

  lemma RequestKeeps(s: State, e: Env, c: ConnId)
    ensures Keeps(s, Request(s, e), c)
  {
    ChunkKeeps(s, s.gen, END_OF_LIST, e, c);
    GiveUpKeeps(s, 451, c);
  }

  lemma TryStartKeeps(s: State, e: Env, c: ConnId)
    ensures Keeps(s, TryStart(s, e), c)
  {
    RequestKeeps(s, e, c);
    DropKeeps(Say(s, Code(550)), c);
    if DataUp(s) {
      RequestKeeps(OpenTarget(s, e.fdNum), e, c);
    }
  }

  /** A step on its way to `t`: it may make the next connection, and may close `c` if it is the one it takes down. */
  predicate Follows(s: State, t: State, c: ConnId, down: bool) {
    && s.nextConn <= t.nextConn
    && (IsOpen(t, c) ==> IsOpen(s, c) || c < t.nextConn)
    && (IsOpen(s, c) && c < s.nextConn && !down ==> IsOpen(t, c))
  }

  lemma AcceptFollows(s: State, to: ServerId, e: Env, c: ConnId)
    ensures Follows(s, AcceptConn(s, to, e), c, false)
  {
    if s.data.None? {
      TryStartKeeps(Adopt(s, to), e, c);
    }
  }

  lemma CloseFollows(s: State, d: ConnId, c: ConnId)
    ensures Follows(s, CloseConn(s, d), c, c == d)
  {
    if IsOpen(s, d) {
      var t := SetTcp(s, d, Tcp.HandleClose(s.conns[d].tcp));
      AbortKeeps(if t.xfer == Nothing then t else Say(t, DownReply(t)), c);
    }
  }

  lemma CommandFollows(s: State, a: Action, c: ConnId)
    requires a.ListCommand? || a.RetrCommand?
    ensures Follows(s, Event(s, a), c, false)
  {
    TryStartKeeps(if a.ListCommand? then BeginList(s) else BeginRetr(s, a.file), a.e, c);
  }

  lemma WritableFollows(s: State, d: ConnId, r: Tcp.WriteResult, c: ConnId)
    ensures Follows(s, WritableConn(s, d, r), c, false)
  {
  }

  lemma EventFollows(s: State, a: Action, c: ConnId)
    ensures Follows(s, Event(s, a), c, a == DataEof(c))
  {
    match a {
      case ListCommand(_) => CommandFollows(s, a, c);
      case RetrCommand(_, _) => CommandFollows(s, a, c);
      case DataWritable(d, r) => WritableFollows(s, d, r, c);
      case DataConnected(to, e) => AcceptFollows(s, to, e, c);
      case DataEof(d) => CloseFollows(s, d, c);
      case _ =>
    }
  }

  lemma DestroyFollows(s: State, sv: ServerId, victim: ConnId, c: ConnId)
    requires s.queue != []
    ensures Follows(s, DestroyOne(s, sv, victim), c,
                    c == victim && c in s.conns && s.conns[c].server == sv
                    && s.conns[c].tcp.state != Tcp.Disconnecting)
  {
    CloseFollows(s, victim, c);
  }

  lemma HeadFollows(s: State, e: Env, c: ConnId)
    requires s.queue != []
    ensures Follows(s, RunHead(s, e), c,
                    s.queue[0] == Close(c) || (s.queue[0].DeleteServer? && c in s.conns
                    && s.queue[0].server == s.conns[c].server && e.victim == c
                    && s.conns[c].tcp.state != Tcp.Disconnecting))
  {
    match s.queue[0] {
      case Ready(gen, o) => ChunkKeeps(Pop(s), gen, o, e, c);
      case Complete(_, _) => RequestKeeps(Pop(s), e, c);
      case Close(d) => CloseFollows(Pop(s), d, c);
      case DeleteServer(sv) => DestroyFollows(s, sv, e.victim, c);
      case CloseServer =>
    }
  }

  lemma {:induction false} ConnsBelow(actions: seq<Action>, c: ConnId)
    requires IsOpen(Run(actions), c)
    ensures c < Run(actions).nextConn
  {
    if actions != [] {
      var before, a := actions[..|actions| - 1], actions[|actions| - 1];
      StepFollows(Run(before), a, c);
      if IsOpen(Run(before), c) {
        ConnsBelow(before, c);
      }
    }
  }

  lemma StepFollows(s: State, a: Action, c: ConnId)
    ensures Follows(s, Step(s, a), c, TakesDown(s, a, c))
  {
    if s.failed || a.DiskRead? || a.DiskQueue? || a.BeginFunctors? || a.EndFunctors? {
    } else if a.RunFunctor? {
      if s.phase == Functors && 0 < s.mark <= |s.queue| {
        HeadFollows(s, a.e, c);
      }
    } else if s.phase == Events {
      EventFollows(s, a, c);
    }
  }

  lemma DownOnly(s: State, a: Action, c: ConnId)
    requires TakesDown(s, a, c)
    ensures !TakesEnd(s, a) && !Command(s, a)
  {
  }

  // ---------------------------------------------------------------------------------------------
  // Every run
  // ---------------------------------------------------------------------------------------------

  /** The session's own record agrees with the history. */
  predicate Recorded(actions: seq<Action>) {
    var s := Run(actions);
    && (s.xfer != Nothing ==> s.xfer == Asked(actions))
    && s.target == FileAsked(actions)
    && (s.done <==> EndReached(actions))
    && (s.xfer == Nothing ==> !s.done)
  }

  lemma RunSnoc(actions: seq<Action>, a: Action)
    ensures Run(actions + [a]) == Step(Run(actions), a)
  {
    assert (actions + [a])[..|actions|] == actions;
  }

  lemma EndIsOver(s: State, a: Action)
    requires TakesEnd(s, a)
    ensures !GivesUp(s, a) && (Command(s, a) || s.xfer != Nothing) && Kind(s, a) != Nothing
  {
  }

  lemma {:induction false} RunRecorded(actions: seq<Action>)
    ensures Recorded(actions)
  {
    if actions != [] {
      var before, a := actions[..|actions| - 1], actions[|actions| - 1];
      RunRecorded(before);
      if c :| TakesDown(Run(before), a, c) {
        DownMoves(Run(before), a, c);
        DownOnly(Run(before), a, c);
      } else {
        StepMoves(Run(before), a);
        if TakesEnd(Run(before), a) {
          EndIsOver(Run(before), a);
        }
      }
    }
  }

  /**
   In every run, an open connection goes down exactly when its peer closes it, its queued close runs or its server is
   deleted.
   */
  lemma {:induction false} DownExactly(actions: seq<Action>, a: Action, c: ConnId)
    requires IsOpen(Run(actions), c)
    ensures TakesDown(Run(actions), a, c) <==> !IsOpen(Run(actions + [a]), c)
  {
    RunSnoc(actions, a);
    if TakesDown(Run(actions), a, c) {
      DownMoves(Run(actions), a, c);
    } else {
      ConnsBelow(actions, c);
      StepFollows(Run(actions), a, c);
    }
  }

  /** A transfer in progress is over exactly when a connection is taken down or the session gives up on it. */
  lemma {:induction false} OverExactly(actions: seq<Action>, a: Action)
    requires Run(actions).xfer != Nothing
    ensures Run(actions + [a]).xfer == Nothing <==>
            (exists c :: TakesDown(Run(actions), a, c)) || GivesUp(Run(actions), a)
  {
    RunRecorded(actions);
    RunSnoc(actions, a);
    if c :| TakesDown(Run(actions), a, c) {
      DownMoves(Run(actions), a, c);
    } else {
      StepMoves(Run(actions), a);
    }
  }

  /**
   In every run, each step adds exactly these replies. When it takes a connection down, a transfer in progress is over
   and gets one reply: the 226 of its own kind if its end had been reached, and 426 otherwise.
   */
  lemma {:induction false} AnsweredExactly(actions: seq<Action>, a: Action)
    ensures Run(actions + [a]).replies == Run(actions).replies + Answers(actions, a)
    ensures (exists c :: TakesDown(Run(actions), a, c)) ==> Run(actions + [a]).xfer == Nothing
  {
    RunRecorded(actions);
    RunSnoc(actions, a);
    var s := Run(actions);
    if c :| TakesDown(s, a, c) {
      DownMoves(s, a, c);
    } else {
      StepMoves(s, a);
    }
  }

  /**
   A LIST does not forget an end that was reached before it: taken over a transfer past its end, whose connection is
   half closed, it is announced as complete when that connection goes down, although it sent nothing.
   */
  lemma {:induction false} ListInheritsEnd(actions: seq<Action>, e: Env, c: ConnId)
    requires var s := Run(actions); Taken(s) && s.xfer != Nothing && EndReached(actions) && !DataUp(s) && IsOpen(s, c)
    ensures Run(actions + [ListCommand(e)] + [DataEof(c)]).replies ==
            Run(actions).replies + [Code(150), ListComplete]
  {
    var s, a := Run(actions), ListCommand(e);
    var listed := actions + [a];
    RunSnoc(actions, a);
    assert listed[..|listed| - 1] == actions;
    assert Step(s, a) == BeginList(s);
    assert Asked(listed) == Listing && EndReached(listed);
    assert TakesDown(Run(listed), DataEof(c), c);
    AnsweredExactly(listed, DataEof(c));
    assert Run(listed).replies == s.replies + [Code(150)];
  }
}
