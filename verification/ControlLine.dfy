/**
 The FTP control connection: cutting the byte stream into CRLF-terminated command lines (section 5.3
 of RFC 959) and the login sequence (USER, PASS) that guards the other commands.
 */
module ControlLine {
  import opened Bytes
  import opened Sequences
  import opened Buffers

  type Line = seq<byte>

  /** An unterminated tail longer than this closes the connection. */
  const MAX_TAIL := 4096

  const CRLF: seq<byte> := [CR, LF]

  predicate NoCrlf(s: seq<byte>) {
    forall i :: 0 <= i < |s| ==> !CrlfAt(s, i)
  }

  function FirstCrlfFrom(s: seq<byte>, i: nat): (at: int)
    ensures at == -1 || i <= at < |s| - 1
    decreases |s| - i
  {
    if i + 1 >= |s| then -1 else if CrlfAt(s, i) then i else FirstCrlfFrom(s, i + 1)
  }

  function FirstCrlf(s: seq<byte>): int { FirstCrlfFrom(s, 0) }

  lemma {:induction false} FirstCrlfFromFinds(s: seq<byte>, i: nat)
    ensures var at := FirstCrlfFrom(s, i);
            if at == -1 then forall k :: i <= k ==> !CrlfAt(s, k)
            else CrlfAt(s, at) && forall k :: i <= k < at ==> !CrlfAt(s, k)
    decreases |s| - i
  {
    if i + 1 < |s| && !CrlfAt(s, i) {
      FirstCrlfFromFinds(s, i + 1);
    }
  }

  lemma FirstCrlfFinds(s: seq<byte>)
    ensures var at := FirstCrlf(s);
            if at == -1 then NoCrlf(s) else CrlfAt(s, at) && forall i :: 0 <= i < at ==> !CrlfAt(s, i)
  {
    FirstCrlfFromFinds(s, 0);
  }

  lemma FirstCrlfIs(s: seq<byte>, at: nat)
    requires CrlfAt(s, at) && forall i :: 0 <= i < at ==> !CrlfAt(s, i)
    ensures FirstCrlf(s) == at
  {
    FirstCrlfFinds(s);
  }

  /** The complete lines of a stream, without their terminators. */
  function Lines(s: seq<byte>): seq<Line>
    decreases |s|
  {
    var at := FirstCrlf(s);
    if at == -1 then [] else [s[..at]] + Lines(s[at + 2..])
  }

  /** What follows the last terminator. */
  function Rest(s: seq<byte>): seq<byte>
    decreases |s|
  {
    var at := FirstCrlf(s);
    if at == -1 then s else Rest(s[at + 2..])
  }

  /** Lines as they travel: each followed by CRLF. */
  function Wire(lines: seq<Line>): seq<byte> {
    if lines == [] then [] else lines[0] + CRLF + Wire(lines[1..])
  }

  lemma CutOne(s: seq<byte>, line: Line, tail: seq<byte>)
    requires s == line + CRLF + tail && NoCrlf(line)
    ensures Lines(s) == [line] + Lines(tail) && Rest(s) == Rest(tail)
  {
    var at := |line|;
    assert s[at..] == CRLF + tail;
    forall i | 0 <= i < at ensures !CrlfAt(s, i) {
      assert i + 1 < at ==> !CrlfAt(line, i);
    }
    FirstCrlfIs(s, at);
    assert s[..at] == line && s[at + 2..] == tail;
  }

  /** The first line of a stream that has one. */
  lemma FirstLine(s: seq<byte>) returns (line: Line, tail: seq<byte>)
    requires FirstCrlf(s) != -1
    ensures s == line + CRLF + tail && NoCrlf(line)
    ensures line == s[..FirstCrlf(s)] && tail == s[FirstCrlf(s) + 2..]
    ensures Lines(s) == [line] + Lines(tail) && Rest(s) == Rest(tail)
  {
    var at := FirstCrlf(s);
    FirstCrlfFinds(s);
    line, tail := s[..at], s[at + 2..];
    forall i | 0 <= i < at ensures !CrlfAt(line, i) {
      assert !CrlfAt(s, i);
    }
  }

  lemma LineDone(s: seq<byte>, done: seq<Line>)
    requires FirstCrlf(s) != -1
    ensures var at := FirstCrlf(s);
            (done + [s[..at]]) + Lines(s[at + 2..]) == done + Lines(s) && Rest(s[at + 2..]) == Rest(s)
  {
    var first, tail := FirstLine(s);
  }

  lemma {:induction false} LinesOfConcat(a: seq<byte>, b: seq<byte>)
    ensures Lines(a + b) == Lines(a) + Lines(Rest(a) + b)
    ensures Rest(a + b) == Rest(Rest(a) + b)
    decreases |a|
  {
    if FirstCrlf(a) != -1 {
      var line, tail := FirstLine(a);
      assert a + b == line + CRLF + (tail + b);
      CutOne(a + b, line, tail + b);
      LinesOfConcat(tail, b);
    }
  }

  /** Framing loses nothing, and neither a line nor the remainder contains a terminator. */
  lemma {:induction false} FramingSound(s: seq<byte>)
    ensures Wire(Lines(s)) + Rest(s) == s
    ensures NoCrlf(Rest(s)) && forall l :: l in Lines(s) ==> NoCrlf(l)
    decreases |s|
  {
    if FirstCrlf(s) != -1 {
      var line, tail := FirstLine(s);
      FramingSound(tail);
      assert Lines(s)[1..] == Lines(tail);
    } else {
      FirstCrlfFinds(s);
    }
  }

  /** It is the only way to cut a stream so. */
  lemma {:induction false} FramingUnique(lines: seq<Line>, rest: seq<byte>)
    requires NoCrlf(rest) && forall l :: l in lines ==> NoCrlf(l)
    ensures Lines(Wire(lines) + rest) == lines && Rest(Wire(lines) + rest) == rest
  {
    var s := Wire(lines) + rest;
    if lines == [] {
      assert s == rest;
      FirstCrlfFinds(rest);
    } else {
      assert s == lines[0] + CRLF + (Wire(lines[1..]) + rest);
      CutOne(s, lines[0], Wire(lines[1..]) + rest);
      FramingUnique(lines[1..], rest);
    }
  }

  // ---------------------------------------------------------------------------------------------
  // Any way of cutting the stream into reads
  // ---------------------------------------------------------------------------------------------

  /** After some reads: the lines dispatched, the bytes still buffered, and whether it was closed. */
  datatype Feed = Feed(lines: seq<Line>, rest: seq<byte>, closed: bool)

  function FeedOne(f: Feed, chunk: seq<byte>): Feed {
    if f.closed then f
    else
      var s := f.rest + chunk;
      Feed(f.lines + Lines(s), Rest(s), |Rest(s)| > MAX_TAIL)
  }

  function FeedAll(chunks: seq<seq<byte>>): Feed {
    if chunks == [] then Feed([], [], false)
    else FeedOne(FeedAll(chunks[..|chunks| - 1]), chunks[|chunks| - 1])
  }

  /** Some read ended in an unterminated tail of more than 4096 bytes. */
  ghost predicate TooLong(chunks: seq<seq<byte>>, k: nat) {
    k <= |chunks| && |Rest(Flatten(chunks[..k]))| > MAX_TAIL
  }

  /**
   The number of reads taken in before the close (all of them when there is none), and what they
   gave: exactly the framing of the bytes taken in. The connection is closed exactly when a read
   ends in a tail that is too long.
   */
  lemma {:induction false} FeedIsFraming(chunks: seq<seq<byte>>) returns (taken: nat)
    ensures taken <= |chunks|
    ensures FeedAll(chunks).lines == Lines(Flatten(chunks[..taken]))
    ensures FeedAll(chunks).rest == Rest(Flatten(chunks[..taken]))
    ensures FeedAll(chunks).closed <==> exists k :: TooLong(chunks, k)
    ensures FeedAll(chunks).closed ==> TooLong(chunks, taken)
    ensures !FeedAll(chunks).closed ==> taken == |chunks|
  {
    if chunks == [] {
      taken := 0;
      assert forall k: nat :: !TooLong(chunks, k);
    } else {
      var before, last := chunks[..|chunks| - 1], chunks[|chunks| - 1];
      taken := FeedIsFraming(before);
      assert forall k: nat :: k <= |before| ==> chunks[..k] == before[..k];
      if FeedAll(before).closed {
        assert TooLong(chunks, taken);
      } else {
        taken := |chunks|;
        assert chunks[..|chunks|] == chunks && before[..|before|] == before;
        LinesOfConcat(Flatten(before), last);
        assert forall k: nat :: TooLong(chunks, k) ==> k == |chunks| || TooLong(before, k);
        assert FeedAll(chunks).closed == TooLong(chunks, |chunks|);
      }
    }
  }

  /** Two ways of cutting the same stream dispatch the same lines and leave the same remainder. */
  lemma {:induction false} CuttingIrrelevant(a: seq<seq<byte>>, b: seq<seq<byte>>)
    requires Flatten(a) == Flatten(b)
    requires (forall k :: !TooLong(a, k)) && (forall k :: !TooLong(b, k))
    ensures FeedAll(a) == FeedAll(b)
    ensures FeedAll(a).lines == Lines(Flatten(a))
  {
    var ka := FeedIsFraming(a);
    var kb := FeedIsFraming(b);
    assert a[..|a|] == a && b[..|b|] == b;
  }

  // ---------------------------------------------------------------------------------------------
  // Commands and login
  // ---------------------------------------------------------------------------------------------

  datatype Login = NeedUser | NeedPass | LoggedIn

  datatype Verb = User | Pass | Syst | Pwd | Type | Pasv | List | Nlst | Retr | Quit | Unknown

  datatype Command = Command(verb: Verb, arg: seq<byte>)

  /**
   A reply code, or the command handed on to the transfer machinery, whose own replies are heard or not.
   `Unheard` is a reply that was not sent: QUIT half-closes the control connection, and `send` turns away
   what comes after that.
   */
  datatype Answer = Code(n: nat) | Serve(command: Command, heard: bool) | Unheard

  const SPACE: byte := 32

  function Upper(c: byte): byte { if 97 <= c <= 122 then c - 32 else c }

  function UpperAll(s: seq<byte>): seq<byte> {
    seq(|s|, i requires 0 <= i < |s| => Upper(s[i]))
  }

  function FirstSpaceFrom(s: seq<byte>, i: nat): (at: nat)
    requires i <= |s|
    ensures i <= at <= |s|
    decreases |s| - i
  {
    if i == |s| || s[i] == SPACE then i else FirstSpaceFrom(s, i + 1)
  }

  function FirstSpace(s: seq<byte>): (at: nat)
    ensures at <= |s|
  {
    FirstSpaceFrom(s, 0)
  }

  /** Command names in the order they are compared: USER, PASS, SYST, PWD, XPWD, TYPE, PASV, ... */
  const COMMANDS: seq<(seq<byte>, Verb)> := [
    ([85, 83, 69, 82], User), ([80, 65, 83, 83], Pass), ([83, 89, 83, 84], Syst),
    ([80, 87, 68], Pwd), ([88, 80, 87, 68], Pwd), ([84, 89, 80, 69], Type),
    ([80, 65, 83, 86], Pasv), ([76, 73, 83, 84], List), ([78, 76, 83, 84], Nlst),
    ([82, 69, 84, 82], Retr), ([81, 85, 73, 84], Quit)]

  function Lookup(cmd: seq<byte>, i: nat): Verb
    requires i <= |COMMANDS|
    decreases |COMMANDS| - i
  {
    if i == |COMMANDS| then Unknown else if COMMANDS[i].0 == cmd then COMMANDS[i].1 else Lookup(cmd, i + 1)
  }

  /** A line is a case-insensitive word and, after the first space, its argument. */
  function Parse(line: Line): Command {
    var sp := FirstSpace(line);
    Command(Lookup(UpperAll(line[..sp]), 0), if sp < |line| then line[sp + 1..] else [])
  }

  function ParseAll(lines: seq<Line>): (r: seq<Command>)
    ensures |r| == |lines|
  {
    seq(|lines|, i requires 0 <= i < |lines| => Parse(lines[i]))
  }

  predicate Guarded(v: Verb) { v in {Pwd, Type, Pasv, List, Nlst, Retr} }

  function NextLogin(state: Login, v: Verb): Login {
    if v == User then NeedPass
    else if v == Pass && state == NeedPass then LoggedIn
    else state
  }

  function AnswerTo(state: Login, c: Command): Answer {
    if Guarded(c.verb) && state != LoggedIn then Code(530)
    else match c.verb
      case User => Code(331)
      case Pass => Code(if state == NeedPass then 230 else 503)
      case Syst => Code(215)
      case Pwd => Code(257)
      case Type => Code(200)
      case Quit => Code(221)
      case Unknown => Code(502)
      case _ => Serve(c, true)
  }

  /** What is left of an answer once the connection is being shut down. */
  function Muted(a: Answer): Answer { if a.Serve? then Serve(a.command, false) else Unheard }

  /** A QUIT came. */
  predicate Quitting(cs: seq<Command>) {
    cs != [] && (cs[|cs| - 1].verb == Quit || Quitting(cs[..|cs| - 1]))
  }

  function LoginAfter(cs: seq<Command>): Login {
    if cs == [] then NeedUser else NextLogin(LoginAfter(cs[..|cs| - 1]), cs[|cs| - 1].verb)
  }

  function AnswersTo(cs: seq<Command>): (r: seq<Answer>)
    ensures |r| == |cs|
  {
    if cs == [] then []
    else
      var before := cs[..|cs| - 1];
      var answer := AnswerTo(LoginAfter(before), cs[|cs| - 1]);
      AnswersTo(before) + [if Quitting(before) then Muted(answer) else answer]
  }

  predicate Has(cs: seq<Command>, from: nat, v: Verb) {
    exists k :: from <= k < |cs| && cs[k].verb == v
  }

  /** The last USER is command `i`. */
  predicate LastUser(cs: seq<Command>, i: nat) {
    i < |cs| && cs[i].verb == User && !Has(cs, i + 1, User)
  }

  /** A PASS came after the last USER. */
  ghost predicate Authenticated(cs: seq<Command>) {
    exists i: nat :: LastUser(cs, i) && Has(cs, i + 1, Pass)
  }

  lemma HasSnoc(cs: seq<Command>, c: Command, from: nat, v: Verb)
    requires from <= |cs|
    ensures Has(cs + [c], from, v) <==> Has(cs, from, v) || c.verb == v
  {
    var all := cs + [c];
    if Has(cs, from, v) {
      var k :| from <= k < |cs| && cs[k].verb == v;
      assert all[k].verb == v;
    }
    if c.verb == v {
      assert all[|cs|].verb == v;
    }
    if Has(all, from, v) {
      var k :| from <= k < |all| && all[k].verb == v;
      assert k < |cs| ==> cs[k].verb == v;
    }
  }

  /**
   The login state is decided by the history alone: logged in exactly when a PASS came after the last
   USER, and waiting for USER exactly when none came.
   */
  lemma {:induction false} LoginByHistory(cs: seq<Command>)
    ensures LoginAfter(cs) == LoggedIn <==> Authenticated(cs)
    ensures LoginAfter(cs) == NeedUser <==> !Has(cs, 0, User)
  {
    if cs != [] {
      var n := |cs| - 1;
      var before, c := cs[..n], cs[n];
      LoginByHistory(before);
      assert cs == before + [c];
      HasSnoc(before, c, 0, User);
      forall i: nat | i < n ensures LastUser(cs, i) <==> LastUser(before, i) && c.verb != User
                            ensures Has(cs, i + 1, Pass) <==> Has(before, i + 1, Pass) || c.verb == Pass {
        HasSnoc(before, c, i + 1, User);
        HasSnoc(before, c, i + 1, Pass);
      }
      assert LastUser(cs, n) <==> c.verb == User;
      assert !Has(cs, n + 1, Pass);
      if c.verb == Pass && LoginAfter(before) == NeedPass {
        var i := LastUserOf(before);
        assert LastUser(cs, i) && Has(cs, i + 1, Pass);
      }
    }
  }

  lemma {:induction false} LastUserOf(cs: seq<Command>) returns (i: nat)
    requires Has(cs, 0, User)
    ensures LastUser(cs, i)
  {
    var n := |cs| - 1;
    if cs[n].verb == User {
      i := n;
    } else {
      assert cs == cs[..n] + [cs[n]];
      HasSnoc(cs[..n], cs[n], 0, User);
      i := LastUserOf(cs[..n]);
      HasSnoc(cs[..n], cs[n], i + 1, User);
    }
  }

  lemma {:induction false} AnswerAt(cs: seq<Command>, k: nat)
    requires k < |cs|
    ensures var answer := AnswerTo(LoginAfter(cs[..k]), cs[k]);
            AnswersTo(cs)[k] == if Quitting(cs[..k]) then Muted(answer) else answer
  {
    var n := |cs| - 1;
    if k < n {
      AnswerAt(cs[..n], k);
      assert cs[..n][..k] == cs[..k];
    }
  }

  lemma {:induction false} QuitByHistory(cs: seq<Command>)
    ensures Quitting(cs) <==> Has(cs, 0, Quit)
  {
    if cs != [] {
      var n := |cs| - 1;
      QuitByHistory(cs[..n]);
      assert cs == cs[..n] + [cs[n]];
      HasSnoc(cs[..n], cs[n], 0, Quit);
    }
  }

  /** A command is answered, or its service heard, exactly when no QUIT came before it. */
  lemma {:induction false} HeardUntilQuit(cs: seq<Command>, k: nat)
    requires k < |cs|
    ensures var a := AnswersTo(cs)[k]; Has(cs[..k], 0, Quit) <==> a == Unheard || (a.Serve? && !a.heard)
  {
    AnswerAt(cs, k);
    QuitByHistory(cs[..k]);
  }

  /**
   A guarded command is served exactly when the last USER before it was followed by a PASS; otherwise it
   gets 530. After a QUIT the same happens unheard.
   */
  lemma {:induction false} ServedOnlyAfterLogin(cs: seq<Command>, k: nat)
    requires k < |cs| && Guarded(cs[k].verb)
    ensures var heard := !Has(cs[..k], 0, Quit); var a := AnswersTo(cs)[k];
            && (cs[k].verb in {Pasv, List, Nlst, Retr} && Authenticated(cs[..k]) <==> a == Serve(cs[k], heard))
            && (a == Code(530) <==> heard && !Authenticated(cs[..k]))
            && (a == Code(257) <==> heard && Authenticated(cs[..k]) && cs[k].verb == Pwd)
            && (a == Code(200) <==> heard && Authenticated(cs[..k]) && cs[k].verb == Type)
  {
    AnswerAt(cs, k);
    LoginByHistory(cs[..k]);
    QuitByHistory(cs[..k]);
  }

  /** The codes of the commands that are not guarded, where no QUIT came before: PASS succeeds once after each USER. */
  lemma {:induction false} UnguardedCodes(cs: seq<Command>, k: nat)
    requires k < |cs| && !Guarded(cs[k].verb) && !Has(cs[..k], 0, Quit)
    ensures AnswersTo(cs)[k] == Code(
              if cs[k].verb == User then 331
              else if cs[k].verb == Pass then if Has(cs[..k], 0, User) && !Authenticated(cs[..k]) then 230 else 503
              else if cs[k].verb == Syst then 215
              else if cs[k].verb == Quit then 221
              else 502)
  {
    AnswerAt(cs, k);
    LoginByHistory(cs[..k]);
    QuitByHistory(cs[..k]);
  }

  // ---------------------------------------------------------------------------------------------
  // What a line means
  // ---------------------------------------------------------------------------------------------

  /** The word is that name, each letter in either case. */
  predicate Spells(w: seq<byte>, name: string) {
    && |w| == |name|
    && forall i :: 0 <= i < |w| ==> w[i] as int == name[i] as int || w[i] as int == name[i] as int + 32
  }

  function Names(v: Verb): set<string> {
    match v
    case User => {"USER"}
    case Pass => {"PASS"}
    case Syst => {"SYST"}
    case Pwd => {"PWD", "XPWD"}
    case Type => {"TYPE"}
    case Pasv => {"PASV"}
    case List => {"LIST"}
    case Nlst => {"NLST"}
    case Retr => {"RETR"}
    case Quit => {"QUIT"}
    case Unknown => {}
  }

  /** The names in the order they are compared. */
  const NAMES: seq<string> := [
    "USER", "PASS", "SYST", "PWD", "XPWD", "TYPE", "PASV", "LIST", "NLST", "RETR", "QUIT"]

  /** The bytes are the codes of the capital letters of the name. */
  predicate Codes(bytes: seq<byte>, name: string) {
    && |bytes| == |name|
    && forall i :: 0 <= i < |name| ==> 'A' <= name[i] <= 'Z' && bytes[i] as int == name[i] as int
  }

  lemma UpperSpells(w: seq<byte>, bytes: seq<byte>, name: string)
    requires Codes(bytes, name)
    ensures UpperAll(w) == bytes <==> Spells(w, name)
  {
    if UpperAll(w) == bytes {
      forall i | 0 <= i < |w| ensures w[i] as int == name[i] as int || w[i] as int == name[i] as int + 32 {
        assert UpperAll(w)[i] == bytes[i];
      }
    }
    if Spells(w, name) {
      assert forall i :: 0 <= i < |w| ==> Upper(w[i]) == bytes[i];
    }
  }

  lemma TableSpelled(i: nat)
    requires i < |COMMANDS|
    ensures |NAMES| == |COMMANDS| && Codes(COMMANDS[i].0, NAMES[i]) && NAMES[i] in Names(COMMANDS[i].1)
    ensures COMMANDS[i].1 != Unknown
  {
  }

  lemma {:induction false} LookupSpelled(w: seq<byte>, i: nat)
    requires i <= |COMMANDS|
    ensures |NAMES| == |COMMANDS|
    ensures var v := Lookup(UpperAll(w), i);
            if v == Unknown then forall k :: i <= k < |NAMES| ==> !Spells(w, NAMES[k])
            else exists k :: i <= k < |NAMES| && Spells(w, NAMES[k]) && NAMES[k] in Names(v)
    decreases |COMMANDS| - i
  {
    if i < |COMMANDS| {
      TableSpelled(i);
      UpperSpells(w, COMMANDS[i].0, NAMES[i]);
      LookupSpelled(w, i + 1);
    }
  }

  lemma NamesListed(v: Verb, name: string)
    requires name in Names(v)
    ensures name in NAMES
  {
    assert NAMES[0] == "USER" && NAMES[1] == "PASS" && NAMES[2] == "SYST" && NAMES[3] == "PWD" && NAMES[4] == "XPWD";
    assert NAMES[5] == "TYPE" && NAMES[6] == "PASV" && NAMES[7] == "LIST" && NAMES[8] == "NLST" && NAMES[9] == "RETR";
    assert NAMES[10] == "QUIT";
  }

  /** A word spells one name at most. */
  lemma SpellsOne(w: seq<byte>, a: string, b: string)
    requires a in NAMES && b in NAMES && Spells(w, a) && Spells(w, b)
    ensures a == b
  {
    Capitals(a);
    Capitals(b);
    assert forall i :: 0 <= i < |a| ==> a[i] == b[i];
  }

  lemma Capitals(name: string)
    requires name in NAMES
    ensures forall i :: 0 <= i < |name| ==> 'A' <= name[i] <= 'Z'
  {
    var k :| 0 <= k < |NAMES| && NAMES[k] == name;
    TableSpelled(k);
  }

  lemma NamesApart(u: Verb, v: Verb, name: string)
    requires name in Names(u) && name in Names(v)
    ensures u == v
  {
    assert |name| == 3 ==> u == Pwd && v == Pwd;
  }

  lemma FirstSpaceIs(w: seq<byte>, line: Line)
    requires SPACE !in w && w <= line && (line == w || line[|w|] == SPACE)
    ensures FirstSpace(line) == |w|
  {
    SpaceAt(line, 0, |w|);
  }

  lemma {:induction false} SpaceAt(s: seq<byte>, i: nat, at: nat)
    requires i <= at <= |s| && (at == |s| || s[at] == SPACE) && forall k :: i <= k < at ==> s[k] != SPACE
    ensures FirstSpaceFrom(s, i) == at
    decreases at - i
  {
    if i < at {
      SpaceAt(s, i + 1, at);
    }
  }

  /**
   A line is a word and, after the first space, an argument taken as it is. The word means a command exactly when it
   spells one of its names in any case.
   */
  lemma {:induction false} ParseExactly(w: seq<byte>, arg: seq<byte>, v: Verb)
    requires SPACE !in w
    ensures Parse(w).arg == [] && Parse(w + [SPACE] + arg) == Command(Parse(w).verb, arg)
    ensures v != Unknown ==> (Parse(w).verb == v <==> exists name :: name in Names(v) && Spells(w, name))
  {
    var line := w + [SPACE] + arg;
    FirstSpaceIs(w, w);
    FirstSpaceIs(w, line);
    assert line[..|w|] == w && line[|w| + 1..] == arg && w[..|w|] == w;
    LookupSpelled(w, 0);
    var u := Parse(w).verb;
    if name :| name in Names(v) && Spells(w, name) {
      NamesListed(v, name);
      var k :| 0 <= k < |NAMES| && NAMES[k] == name;
      var j :| 0 <= j < |NAMES| && Spells(w, NAMES[j]) && NAMES[j] in Names(u);
      SpellsOne(w, name, NAMES[j]);
      NamesApart(u, v, name);
    }
  }

  /** Every line is of that form: its word and its argument give it back. */
  lemma {:induction false} LineSplits(line: Line) returns (w: seq<byte>)
    ensures SPACE !in w && (line == w || line == w + [SPACE] + Parse(line).arg)
  {
    NoSpaceBefore(line, 0);
    w := line[..FirstSpace(line)];
  }

  lemma {:induction false} NoSpaceBefore(s: seq<byte>, i: nat)
    requires i <= |s|
    ensures var at := FirstSpaceFrom(s, i);
            (forall k :: i <= k < at ==> s[k] != SPACE) && (at < |s| ==> s[at] == SPACE)
    decreases |s| - i
  {
    if i < |s| && s[i] != SPACE {
      NoSpaceBefore(s, i + 1);
    }
  }

  // ---------------------------------------------------------------------------------------------
  // The session object
  // ---------------------------------------------------------------------------------------------

  /** What one more line adds. */
  lemma OneMore(lines: seq<Line>, line: Line)
    ensures var cs, c := ParseAll(lines), Parse(line); var answer := AnswerTo(LoginAfter(cs), c);
            var all := ParseAll(lines + [line]);
            && LoginAfter(all) == NextLogin(LoginAfter(cs), c.verb)
            && Quitting(all) == (c.verb == Quit || Quitting(cs))
            && AnswersTo(all) == AnswersTo(cs) + [if Quitting(cs) then Muted(answer) else answer]
  {
    assert ParseAll(lines + [line])[..|lines|] == ParseAll(lines);
  }

  class ControlSession {
    var state: Login
    var answers: seq<Answer>
    var quitting: bool
    var closed: bool
    const buffer: Buffer
    ghost var lines: seq<Line>

    ghost predicate Valid()
      reads this, buffer
    {
      && buffer.Valid() && state == LoginAfter(ParseAll(lines))
      && quitting == Quitting(ParseAll(lines)) && answers == AnswersTo(ParseAll(lines))
    }

    ghost function View(): Feed
      requires Valid()
      reads this, buffer, buffer.data
    {
      Feed(lines, buffer.Contents(), closed)
    }

    constructor ()
      ensures Valid() && fresh(buffer) && fresh(buffer.data)
      ensures View() == Feed([], [], false)
    {
      state, answers, quitting, closed, lines := NeedUser, [], false, false, [];
      buffer := new Buffer();
    }

    method HandleCommand(line: Line)
      requires Valid()
      modifies this
      ensures Valid() && closed == old(closed) && lines == old(lines) + [line]
    {
      var c := Parse(line);
      var answer := AnswerTo(state, c);
      answers := answers + [if quitting then Muted(answer) else answer];
      if c.verb == User {
        state := NeedPass;
      } else if c.verb == Pass && state == NeedPass {
        state := LoggedIn;
      } else if c.verb == Quit {
        quitting := true;
      }
      OneMore(lines, line);
      lines := lines + [line];
    }

    method TakeLine(at: nat)
      requires Valid() && at + 2 <= buffer.ReadableBytes()
      modifies this, buffer
      ensures Valid() && closed == old(closed) && buffer.data == old(buffer.data)
      ensures lines == old(lines) + [old(buffer.Contents())[..at]]
      ensures buffer.Contents() == old(buffer.Contents())[at + 2..]
    {
      var line := buffer.RetrieveAsString(at);
      buffer.Retrieve(2);
      HandleCommand(line);
    }

    method NextLine() returns (got: bool)
      requires Valid()
      modifies this, buffer
      ensures Valid() && closed == old(closed) && buffer.data == old(buffer.data)
      ensures got == (FirstCrlf(old(buffer.Contents())) != -1)
      ensures !got ==> lines == old(lines) && buffer.Contents() == old(buffer.Contents())
      ensures got ==> var at := FirstCrlf(old(buffer.Contents()));
                      && lines == old(lines) + [old(buffer.Contents())[..at]]
                      && buffer.Contents() == old(buffer.Contents())[at + 2..]
    {
      var at := buffer.FindCrlf();
      FirstCrlfFinds(buffer.Contents());
      got := at != -1;
      if got {
        TakeLine(at);
      }
    }

    /** Dispatch the first buffered line, if there is a complete one. */
    method DispatchOne() returns (got: bool)
      requires Valid()
      modifies this, buffer
      ensures Valid() && closed == old(closed) && buffer.data == old(buffer.data)
      ensures lines + Lines(buffer.Contents()) == old(lines) + Lines(old(buffer.Contents()))
      ensures Rest(buffer.Contents()) == Rest(old(buffer.Contents()))
      ensures !got ==> FirstCrlf(buffer.Contents()) == -1
      ensures got ==> |buffer.Contents()| < |old(buffer.Contents())|
    {
      ghost var s := buffer.Contents();
      got := NextLine();
      if got {
        LineDone(s, old(lines));
      }
    }

    /** `onMessage`: dispatch every complete line, keep the rest, refuse an endless one. */
    method OnMessage()
      requires Valid() && !closed
      modifies this, buffer
      ensures Valid() && buffer.data == old(buffer.data)
      ensures lines == old(lines) + Lines(old(buffer.Contents()))
      ensures buffer.Contents() == Rest(old(buffer.Contents()))
      ensures closed == (|Rest(old(buffer.Contents()))| > MAX_TAIL)
    {
      while buffer.ReadableBytes() > 0
        invariant Valid() && !closed && buffer.data == old(buffer.data)
        invariant lines + Lines(buffer.Contents()) == old(lines) + Lines(old(buffer.Contents()))
        invariant Rest(buffer.Contents()) == Rest(old(buffer.Contents()))
        decreases buffer.ReadableBytes()
      {
        var got := DispatchOne();
        if !got {
          if buffer.ReadableBytes() > MAX_TAIL {
            closed := true;
            return;
          }
          break;
        }
      }
    }

    /** One read event on the control connection. */
    method OnReadable(chunk: seq<byte>)
      requires Valid() && |chunk| <= EXTRA_SIZE
      modifies this, buffer, buffer.data
      ensures Valid() && (buffer.data == old(buffer.data) || fresh(buffer.data))
      ensures View() == FeedOne(old(View()), chunk)
    {
      if !closed {
        var _ := buffer.ReadFd(Data(chunk));
        OnMessage();
      }
    }
  }

  /** A whole control connection: the lines dispatched and the answers given, however it was cut. */
  method ServeControl(chunks: seq<seq<byte>>) returns (c: ControlSession)
    requires forall k :: 0 <= k < |chunks| ==> |chunks[k]| <= EXTRA_SIZE
    ensures fresh(c) && c.Valid() && c.View() == FeedAll(chunks)
    ensures (forall k :: !TooLong(chunks, k)) ==> c.answers == AnswersTo(ParseAll(Lines(Flatten(chunks))))
  {
    c := new ControlSession();
    for k := 0 to |chunks|
      invariant fresh(c) && fresh(c.buffer) && fresh(c.buffer.data) && c.Valid()
      invariant c.View() == FeedAll(chunks[..k])
    {
      c.OnReadable(chunks[k]);
      assert chunks[..k + 1][..k] == chunks[..k];
    }
    assert chunks[..|chunks|] == chunks;
    ghost var taken := FeedIsFraming(chunks);
  }
}
