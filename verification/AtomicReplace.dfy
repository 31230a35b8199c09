/**
 Replacing a file by writing a temporary file beside it and renaming it over the target: any number of
 writers, every call may fail, writes may be partial, and the machine may crash at any step. After a
 crash a file that was not flushed may hold anything, and the target may name any file it named since the last
 directory sync that succeeded.
 */
module AtomicReplace {
  import opened Wrappers

  type Bytes = seq<char>
  type Ino = nat
  type Name = nat

  // ---------------------------------------------------------------------------------------------
  // The write loop
  // ---------------------------------------------------------------------------------------------

  /** What one `write` call returns: some bytes, at most what was asked, a signal, or an error. */
  datatype Outcome = Wrote(n: nat) | Interrupted | Failed

  datatype Verdict = Complete | WriteError | StillWriting

  class File {
    var data: Bytes

    method Write(bytes: Bytes, outcome: Outcome) returns (result: int)
      modifies this
      ensures outcome.Wrote? ==> result == Min(outcome.n, |bytes|) && data == old(data) + bytes[..result]
      ensures !outcome.Wrote? ==> result == -1 && data == old(data)
    {
      match outcome
      case Wrote(n) =>
        result := if n <= |bytes| then n else |bytes|;
        data := data + bytes[..result];
      case _ =>
        result := -1;
    }
  }

  /** A call after which the loop goes on: it wrote something, or a signal came first. */
  predicate GoesOn(o: Outcome) { o == Interrupted || (o.Wrote? && o.n > 0) }

  /** How much the first `n` calls could write. */
  function Total(outcomes: seq<Outcome>, n: nat): nat
    requires n <= |outcomes|
  {
    if n == 0 then 0
    else Total(outcomes, n - 1) + if outcomes[n - 1].Wrote? then outcomes[n - 1].n else 0
  }

  /** The first `n` calls let the loop go on, and the last of them still found something to write. */
  predicate Going(outcomes: seq<Outcome>, n: nat, size: nat)
    requires n <= |outcomes|
  {
    (n > 0 ==> Total(outcomes, n - 1) < size) && forall k :: 0 <= k < n ==> GoesOn(outcomes[k])
  }

  function Min(a: nat, b: nat): nat { if a < b then a else b }

  lemma OneCall(outcomes: seq<Outcome>, n: nat, size: nat)
    requires n < |outcomes| && Total(outcomes, n) < size
    ensures outcomes[n].Wrote? ==>
              Min(Total(outcomes, n + 1), size) == Total(outcomes, n) + Min(outcomes[n].n, size - Total(outcomes, n))
    ensures !outcomes[n].Wrote? ==> Total(outcomes, n + 1) == Total(outcomes, n)
    ensures Going(outcomes, n, size) && GoesOn(outcomes[n]) ==> Going(outcomes, n + 1, size)
  {
  }

  lemma Longer(data: Bytes, content: Bytes, written: nat, more: nat)
    requires written + more <= |content|
    ensures data + content[..written] + content[written..][..more] == data + content[..written + more]
  {
    assert content[..written] + content[written..][..more] == content[..written + more];
  }

  /**
   `WriteAll`, for as long as the calls listed take. The file grows by a prefix, and by everything on success. It makes
   calls until they have written everything, or one fails or writes nothing; after a signal or a short write it calls
   again for what is left.
   */
  method WriteAll(file: File, content: Bytes, outcomes: seq<Outcome>)
    returns (verdict: Verdict, written: nat, calls: nat)
    modifies file
    ensures written <= |content| && file.data == old(file.data) + content[..written]
    ensures verdict == Complete <==> written == |content|
    ensures calls <= |outcomes| && written == Min(Total(outcomes, calls), |content|)
    ensures verdict == WriteError ==> calls > 0 && !GoesOn(outcomes[calls - 1]) && Going(outcomes, calls - 1, |content|)
    ensures verdict != WriteError ==> Going(outcomes, calls, |content|)
    ensures verdict == StillWriting ==> calls == |outcomes|
  {
    written, calls := 0, 0;
    while written < |content|
      invariant written <= |content| && calls <= |outcomes| && file.data == old(file.data) + content[..written]
      invariant written == Min(Total(outcomes, calls), |content|) && Going(outcomes, calls, |content|)
      decreases |outcomes| - calls
    {
      if calls == |outcomes| {
        return StillWriting, written, calls;
      }
      var outcome := outcomes[calls];
      OneCall(outcomes, calls, |content|);
      calls := calls + 1;
      var result := file.Write(content[written..], outcome);
      if result < 0 {
        if outcome == Interrupted {
          continue;
        }
        return WriteError, written, calls;
      }
      if result == 0 {
        return WriteError, written, calls;
      }
      Longer(old(file.data), content, written, result);
      written := written + result;
    }
    return Complete, written, calls;
  }

  // ---------------------------------------------------------------------------------------------
  // Writers and the file system
  // ---------------------------------------------------------------------------------------------

  /** Where a writer is; from `Preparing` to `Removing` its guard is responsible for a temporary file. */
  datatype Phase =
    | Idle | Preparing | Writing | Finishing | Flushing | Closing | Renaming | Removing | Syncing
    | Done(ok: bool) | Lost

  /** `stamp` is history: the number of the rename that installed the writer's file. */
  datatype Writer = Writer(content: Bytes, phase: Phase, ino: Ino, temp: Name, written: nat, stamp: nat)

  /** A temporary name: the file it names and the writer that made it. */
  datatype Entry = Entry(ino: Ino, owner: nat)

  /** What the target named after rename number `stamp`. */
  datatype Binding = Binding(stamp: nat, ino: Option<Ino>)

  /**
   `durable` holds what is known to survive a crash. `past` are the bindings of the target, the last of
   which is in force; a crash may take it back as far as number `floor`. `bound` (the files the target
   ever named), `maker` (who created each file), `renames`, `crashed` and `stuck` (an unlink failed) are
   history.
   */
  datatype Disk = Disk(
    original: Option<Bytes>, files: map<Ino, Bytes>, durable: map<Ino, Bytes>, next: Ino,
    past: seq<Binding>, floor: nat, temps: map<Name, Entry>, bound: set<Ino>, writers: seq<Writer>,
    maker: map<Ino, nat>, renames: nat, crashed: bool, stuck: bool)

  /** What the target names now. */
  function Target(d: Disk): Option<Ino> { if d.past == [] then None else d.past[|d.past| - 1].ino }

  function Initial(original: Option<Bytes>): Disk {
    match original
    case None => Disk(original, map[], map[], 0, [Binding(0, None)], 0, map[], {}, [], map[], 0, false, false)
    case Some(c) =>
      Disk(original, map[0 := c], map[0 := c], 1, [Binding(0, Some(0))], 0, map[], {0}, [], map[], 0, false, false)
  }

  datatype Action =
    | Begin(content: Bytes)
    | Create(i: nat, temp: Name) | GiveUp(i: nat)
    | Prepared(i: nat) | Put(i: nat, n: nat) | Written(i: nat) | Permitted(i: nat) | Flushed(i: nat) | Closed(i: nat)
    | Renamed(i: nat) | Synced(i: nat, ok: bool)
    | Fails(i: nat) | Unlinked(i: nat) | UnlinkFails(i: nat)
    | Crash(back: nat, garbage: map<Ino, Bytes>, kept: set<Name>)

  predicate In(d: Disk, i: nat, p: Phase) { i < |d.writers| && d.writers[i].phase == p }

  /** The guard still has a path to remove. */
  predicate Guarded(p: Phase) { p in {Preparing, Writing, Finishing, Flushing, Closing, Renaming, Removing} }

  predicate Active(p: Phase) { Guarded(p) || p == Idle || p == Syncing }

  predicate Enabled(d: Disk, a: Action) {
    match a
    case Begin(_) => true
    case Create(i, temp) => In(d, i, Idle) && temp !in d.temps
    case GiveUp(i) => In(d, i, Idle)
    case Prepared(i) => In(d, i, Preparing)
    case Put(i, n) =>
      In(d, i, Writing) && 0 < n && d.writers[i].written + n <= |d.writers[i].content| && d.writers[i].ino in d.files
    case Written(i) => In(d, i, Writing) && d.writers[i].written == |d.writers[i].content|
    case Permitted(i) => In(d, i, Finishing)
    case Flushed(i) => In(d, i, Flushing) && d.writers[i].ino in d.files
    case Closed(i) => In(d, i, Closing)
    case Renamed(i) => In(d, i, Renaming) && d.writers[i].temp in d.temps
    case Synced(i, _) => In(d, i, Syncing) && d.past != []
    case Fails(i) => i < |d.writers| && Guarded(d.writers[i].phase) && d.writers[i].phase != Removing
    case Unlinked(i) => In(d, i, Removing)
    case UnlinkFails(i) => In(d, i, Removing)
    case Crash(back, _, _) => d.floor <= back < |d.past|
  }

  function To(d: Disk, i: nat, p: Phase): Disk
    requires i < |d.writers|
  {
    d.(writers := d.writers[i := d.writers[i].(phase := p)])
  }

  function Created(d: Disk, i: nat, temp: Name): Disk
    requires i < |d.writers|
  {
    d.(writers := d.writers[i := d.writers[i].(phase := Preparing, ino := d.next, temp := temp, written := 0)],
       files := d.files[d.next := []], temps := d.temps[temp := Entry(d.next, i)], maker := d.maker[d.next := i],
       next := d.next + 1)
  }

  function Appended(d: Disk, i: nat, n: nat): Disk
    requires i < |d.writers| && d.writers[i].written + n <= |d.writers[i].content| && d.writers[i].ino in d.files
  {
    var w := d.writers[i];
    d.(writers := d.writers[i := w.(written := w.written + n)],
       files := d.files[w.ino := d.files[w.ino] + w.content[w.written..w.written + n]])
  }

  /** `rename` moves whatever file has the writer's temporary name. */
  function Moved(d: Disk, i: nat): Disk
    requires i < |d.writers| && d.writers[i].temp in d.temps
  {
    var w := d.writers[i];
    var ino := d.temps[w.temp].ino;
    d.(writers := d.writers[i := w.(phase := Syncing, stamp := d.renames + 1)], renames := d.renames + 1,
       past := d.past + [Binding(d.renames + 1, Some(ino))], bound := d.bound + {ino}, temps := d.temps - {w.temp})
  }

  /** The crash ends every writer; what was not durable may have become anything. */
  function AfterCrash(d: Disk, back: nat, garbage: map<Ino, Bytes>, kept: set<Name>): Disk
    requires back < |d.past|
  {
    d.(past := d.past[..back + 1], floor := back, crashed := true,
       files := map ino | ino in d.files ::
         if ino in d.durable then d.durable[ino] else if ino in garbage then garbage[ino] else d.files[ino],
       temps := map name | name in d.temps && name in kept :: d.temps[name],
       writers := seq(|d.writers|, i requires 0 <= i < |d.writers| =>
         if Active(d.writers[i].phase) then d.writers[i].(phase := Lost) else d.writers[i]))
  }

  /** An action that is not enabled changes nothing. The directory sync may fail, which nobody is told. */
  function Step(d: Disk, a: Action): Disk {
    if !Enabled(d, a) then d
    else match a
      case Begin(content) => d.(writers := d.writers + [Writer(content, Idle, 0, 0, 0, 0)])
      case Create(i, temp) => Created(d, i, temp)
      case GiveUp(i) => To(d, i, Done(false))
      case Prepared(i) => To(d, i, Writing)
      case Put(i, n) => Appended(d, i, n)
      case Written(i) => To(d, i, Finishing)
      case Permitted(i) => To(d, i, Flushing)
      case Flushed(i) =>
        To(d, i, Closing).(durable := d.durable[d.writers[i].ino := d.files[d.writers[i].ino]])
      case Closed(i) => To(d, i, Renaming)
      case Renamed(i) => Moved(d, i)
      case Synced(i, ok) => To(d, i, Done(true)).(floor := if ok then |d.past| - 1 else d.floor)
      case Fails(i) => To(d, i, Removing)
      case Unlinked(i) => To(d, i, Done(false)).(temps := d.temps - {d.writers[i].temp})
      case UnlinkFails(i) => To(d, i, Done(false)).(stuck := true)
      case Crash(back, garbage, kept) => AfterCrash(d, back, garbage, kept)
  }

  function Run(original: Option<Bytes>, actions: seq<Action>): Disk {
    if actions == [] then Initial(original)
    else Step(Run(original, actions[..|actions| - 1]), actions[|actions| - 1])
  }

  // ---------------------------------------------------------------------------------------------
  // What every step keeps
  // ---------------------------------------------------------------------------------------------

  /** The original content, or the whole content of one writer. */
  predicate Legit(d: Disk, c: Bytes) {
    d.original == Some(c) || exists i :: 0 <= i < |d.writers| && d.writers[i].content == c
  }

  /** How much of its content a writer's file holds, and that it is durable once flushed. */
  predicate FileOk(d: Disk, w: Writer) {
    && w.written <= |w.content|
    && w.ino in d.files && d.files[w.ino] == w.content[..w.written]
    && (w.phase in {Finishing, Flushing, Closing, Renaming} ==> w.written == |w.content|)
    && (w.phase in {Closing, Renaming} ==> w.ino in d.durable && d.durable[w.ino] == d.files[w.ino])
    && (w.phase in {Preparing, Writing, Finishing, Flushing} ==> w.ino !in d.durable)
    && (w.phase == Preparing ==> w.written == 0)
  }

  /** A guarded writer owns its file and its name. */
  predicate WriterOk(d: Disk, i: nat)
    requires i < |d.writers|
  {
    var w := d.writers[i];
    Guarded(w.phase) ==>
      && FileOk(d, w)
      && w.ino in d.maker && d.maker[w.ino] == i && w.ino !in d.bound
      && w.temp in d.temps && d.temps[w.temp] == Entry(w.ino, i)
  }

  ghost predicate BoundOk(d: Disk) {
    && d.past != []
    && (forall k :: 0 <= k < |d.past| ==>
          if d.past[k].ino.Some? then d.past[k].ino.value in d.bound else d.original.None?)
    && (forall ino :: ino in d.bound ==>
          && ino in d.files && ino in d.durable && d.files[ino] == d.durable[ino] && Legit(d, d.files[ino]))
  }

  ghost predicate FreshOk(d: Disk) {
    && (forall ino :: ino in d.files ==> ino < d.next)
    && (forall ino :: ino in d.durable ==> ino in d.files)
    && (forall ino :: ino in d.bound ==> ino in d.files)
    && (forall ino :: ino in d.maker ==> ino < d.next)
  }

  /** A temporary name nobody is responsible for is left over from a crash or a failed unlink. */
  predicate TempsOk(d: Disk) {
    d.crashed || d.stuck ||
    forall name :: name in d.temps ==>
      var o := d.temps[name].owner; o < |d.writers| && Guarded(d.writers[o].phase) && d.writers[o].temp == name
  }

  ghost predicate Inv(d: Disk) {
    BoundOk(d) && FreshOk(d) && TempsOk(d) && forall i :: 0 <= i < |d.writers| ==> WriterOk(d, i)
  }

  lemma LegitGrows(d: Disk, e: Disk, c: Bytes)
    requires Legit(d, c) && e.original == d.original && |d.writers| <= |e.writers|
    requires forall i :: 0 <= i < |d.writers| ==> e.writers[i].content == d.writers[i].content
    ensures Legit(e, c)
  {
    if d.original != Some(c) {
      var i :| 0 <= i < |d.writers| && d.writers[i].content == c;
      assert e.writers[i].content == c;
    }
  }

  /** The files the target may name did not change, nor did anyone's content: what it shows stays legitimate. */
  lemma BoundFrame(d: Disk, e: Disk)
    requires BoundOk(d) && e.original == d.original && |d.writers| <= |e.writers|
    requires forall i :: 0 <= i < |d.writers| ==> e.writers[i].content == d.writers[i].content
    requires e.past == d.past && e.bound == d.bound
    requires forall ino :: ino in d.bound ==>
               ino in e.files && ino in e.durable && e.files[ino] == d.files[ino] && e.durable[ino] == d.durable[ino]
    ensures BoundOk(e)
  {
    forall ino | ino in e.bound ensures Legit(e, e.files[ino]) {
      LegitGrows(d, e, d.files[ino]);
    }
  }

  lemma BeginInv(d: Disk, content: Bytes)
    requires Inv(d)
    ensures Inv(Step(d, Begin(content)))
  {
    var e := Step(d, Begin(content));
    BoundFrame(d, e);
    forall i | 0 <= i < |e.writers| ensures WriterOk(e, i) {
      assert i < |d.writers| ==> WriterOk(d, i);
    }
  }

  /** A writer moves on to another phase and nothing else happens. */
  lemma MoveInv(d: Disk, i: nat, p: Phase)
    requires Inv(d) && i < |d.writers|
    requires (Guarded(p) <==> Guarded(d.writers[i].phase)) && p != Syncing
    requires Guarded(p) ==> FileOk(d, d.writers[i].(phase := p))
    ensures Inv(To(d, i, p))
  {
    var e := To(d, i, p);
    BoundFrame(d, e);
    forall j | 0 <= j < |e.writers| ensures WriterOk(e, j) {
      assert WriterOk(d, j);
    }
  }

  lemma SyncedInv(d: Disk, i: nat, ok: bool)
    requires Inv(d) && Enabled(d, Synced(i, ok))
    ensures Inv(Step(d, Synced(i, ok)))
  {
    MoveInv(d, i, Done(true));
    var m, e := To(d, i, Done(true)), Step(d, Synced(i, ok));
    BoundFrame(m, e);
    forall j | 0 <= j < |e.writers| ensures WriterOk(e, j) {
      assert WriterOk(m, j);
    }
  }

  lemma PhaseInv(d: Disk, a: Action)
    requires Inv(d) && Enabled(d, a)
    requires a.GiveUp? || a.Prepared? || a.Written? || a.Permitted? || a.Closed? || a.Fails?
    ensures Inv(Step(d, a))
  {
    assert WriterOk(d, a.i);
    MoveInv(d, a.i, Step(d, a).writers[a.i].phase);
  }

  lemma CreateInv(d: Disk, i: nat, temp: Name)
    requires Inv(d) && Enabled(d, Create(i, temp))
    ensures Inv(Step(d, Create(i, temp)))
  {
    var e := Step(d, Create(i, temp));
    BoundFrame(d, e);
    forall j | 0 <= j < |e.writers| ensures WriterOk(e, j) {
      assert WriterOk(d, j);
    }
  }

  lemma PutInv(d: Disk, i: nat, n: nat)
    requires Inv(d) && Enabled(d, Put(i, n))
    ensures Inv(Step(d, Put(i, n)))
  {
    var e := Step(d, Put(i, n));
    var w := d.writers[i];
    assert WriterOk(d, i);
    BoundFrame(d, e);
    assert w.content[..w.written] + w.content[w.written..w.written + n] == w.content[..w.written + n];
    forall j | 0 <= j < |e.writers| ensures WriterOk(e, j) {
      assert WriterOk(d, j);
    }
  }

  lemma FlushedInv(d: Disk, i: nat)
    requires Inv(d) && Enabled(d, Flushed(i))
    ensures Inv(Step(d, Flushed(i)))
  {
    var e := Step(d, Flushed(i));
    assert WriterOk(d, i);
    BoundFrame(d, e);
    forall j | 0 <= j < |e.writers| ensures WriterOk(e, j) {
      assert WriterOk(d, j);
    }
  }

  lemma RenamedInv(d: Disk, i: nat)
    requires Inv(d) && Enabled(d, Renamed(i))
    ensures Inv(Step(d, Renamed(i)))
  {
    var e := Step(d, Renamed(i));
    var w := d.writers[i];
    assert WriterOk(d, i);
    assert w.content[..w.written] == w.content && e.writers[i].content == w.content;
    forall ino | ino in e.bound ensures Legit(e, e.files[ino]) {
      if ino in d.bound {
        LegitGrows(d, e, d.files[ino]);
      }
    }
    forall j | 0 <= j < |e.writers| ensures WriterOk(e, j) {
      assert WriterOk(d, j);
    }
  }

  lemma UnlinkedInv(d: Disk, i: nat)
    requires Inv(d) && Enabled(d, Unlinked(i))
    ensures Inv(Step(d, Unlinked(i)))
  {
    var e := Step(d, Unlinked(i));
    assert WriterOk(d, i);
    BoundFrame(d, e);
    forall j | 0 <= j < |e.writers| ensures WriterOk(e, j) {
      assert WriterOk(d, j);
    }
  }

  lemma UnlinkFailsInv(d: Disk, i: nat)
    requires Inv(d) && Enabled(d, UnlinkFails(i))
    ensures Inv(Step(d, UnlinkFails(i)))
  {
    var e := Step(d, UnlinkFails(i));
    BoundFrame(d, e);
    forall j | 0 <= j < |e.writers| ensures WriterOk(e, j) {
      assert WriterOk(d, j);
    }
  }

  lemma CrashInv(d: Disk, back: nat, garbage: map<Ino, Bytes>, kept: set<Name>)
    requires Inv(d) && Enabled(d, Crash(back, garbage, kept))
    ensures Inv(Step(d, Crash(back, garbage, kept)))
  {
    var e := Step(d, Crash(back, garbage, kept));
    forall ino | ino in e.bound ensures Legit(e, e.files[ino]) {
      LegitGrows(d, e, d.files[ino]);
    }
  }

  lemma {:induction false} StepInv(d: Disk, a: Action)
    requires Inv(d)
    ensures Inv(Step(d, a)) && Step(d, a).original == d.original
  {
    if Enabled(d, a) {
      match a {
        case Begin(content) => BeginInv(d, content);
        case Create(i, temp) => CreateInv(d, i, temp);
        case Put(i, n) => PutInv(d, i, n);
        case Flushed(i) => FlushedInv(d, i);
        case Renamed(i) => RenamedInv(d, i);
        case Unlinked(i) => UnlinkedInv(d, i);
        case UnlinkFails(i) => UnlinkFailsInv(d, i);
        case Synced(i, ok) => SyncedInv(d, i, ok);
        case Crash(back, garbage, kept) => CrashInv(d, back, garbage, kept);
        case _ => PhaseInv(d, a);
      }
    }
  }

  lemma InitialInv(original: Option<Bytes>)
    ensures Inv(Initial(original)) && Initial(original).original == original
  {
  }

  lemma {:induction false} RunInv(original: Option<Bytes>, actions: seq<Action>)
    ensures Inv(Run(original, actions)) && Run(original, actions).original == original
  {
    if actions == [] {
      InitialInv(original);
    } else {
      RunInv(original, actions[..|actions| - 1]);
      StepInv(Run(original, actions[..|actions| - 1]), actions[|actions| - 1]);
    }
  }

  // ---------------------------------------------------------------------------------------------
  // What holds in every run
  // ---------------------------------------------------------------------------------------------

  /** At every moment, also after a crash, the target shows the original or one writer's whole content. */
  lemma {:induction false} ReaderSeesWhole(original: Option<Bytes>, actions: seq<Action>)
    ensures var d := Run(original, actions);
            match Target(d)
            case None => original.None?
            case Some(ino) =>
              ino in d.files
              && (|| original == Some(d.files[ino])
                  || exists i :: 0 <= i < |d.writers| && d.writers[i].content == d.files[ino])
  {
    RunInv(original, actions);
    var d := Run(original, actions);
    if Target(d).Some? {
      assert Legit(d, d.files[Target(d).value]);
    }
  }

  /** A file the target names never changes again, so a reader that has opened it reads one version to the end. */
  lemma {:induction false} OpenedFileStable(original: Option<Bytes>, actions: seq<Action>, more: seq<Action>, ino: Ino)
    requires ino in Run(original, actions).bound
    ensures ino in Run(original, actions).files && ino in Run(original, actions + more).files
    ensures ino in Run(original, actions + more).bound
    ensures Run(original, actions + more).files[ino] == Run(original, actions).files[ino]
  {
    RunInv(original, actions);
    if more == [] {
      assert actions + more == actions;
    } else {
      var fewer := more[..|more| - 1];
      OpenedFileStable(original, actions, fewer, ino);
      RunInv(original, actions + fewer);
      assert (actions + more)[..|actions + more| - 1] == actions + fewer;
      BoundUntouched(Run(original, actions + fewer), more[|more| - 1], ino);
    }
  }

  lemma BoundUntouched(d: Disk, a: Action, ino: Ino)
    requires Inv(d) && ino in d.bound
    ensures var e := Step(d, a); ino in e.bound && ino in d.files && ino in e.files && e.files[ino] == d.files[ino]
  {
    if a.Put? && Enabled(d, a) {
      assert WriterOk(d, a.i);
    }
  }

  /** Whoever else creates, renames and unlinks, a writer's name is still there and moves its whole content. */
  lemma {:induction false} RenameInstalls(original: Option<Bytes>, actions: seq<Action>, i: nat)
    requires In(Run(original, actions), i, Renaming)
    ensures Enabled(Run(original, actions), Renamed(i))
    ensures var d := Step(Run(original, actions), Renamed(i));
            && Target(d).Some? && Target(d).value in d.files
            && d.files[Target(d).value] == Run(original, actions).writers[i].content
  {
    RunInv(original, actions);
    var d := Run(original, actions);
    assert WriterOk(d, i);
    assert d.writers[i].content[..|d.writers[i].content|] == d.writers[i].content;
  }

  // ---------------------------------------------------------------------------------------------
  // What a directory sync is for
  // ---------------------------------------------------------------------------------------------

  /**
   Bindings come in the order of their renames, only the first can be of nothing, and a writer that has
   renamed is not ahead of them.
   */
  predicate PastOk(d: Disk) {
    && d.floor < |d.past|
    && (forall j, k :: 0 <= j < k < |d.past| ==> d.past[j].stamp < d.past[k].stamp)
    && (forall k :: 0 <= k < |d.past| ==> d.past[k].stamp <= d.renames && (d.past[k].stamp > 0 ==> d.past[k].ino.Some?))
    && (forall i :: 0 <= i < |d.writers| && d.writers[i].phase == Syncing ==>
          0 < d.writers[i].stamp <= d.past[|d.past| - 1].stamp)
  }

  /** The oldest binding a crash may bring back. */
  function Oldest(d: Disk): nat
    requires PastOk(d)
  {
    d.past[d.floor].stamp
  }

  /** The target did not change, and nobody has just renamed. */
  predicate TargetAlone(d: Disk, e: Disk) {
    && e.past == d.past && e.floor == d.floor && e.renames == d.renames
    && forall i :: 0 <= i < |e.writers| && e.writers[i].phase == Syncing ==>
         i < |d.writers| && d.writers[i].phase == Syncing && d.writers[i].stamp == e.writers[i].stamp
  }

  lemma MoveAlone(d: Disk, i: nat, p: Phase)
    requires i < |d.writers| && p != Syncing
    ensures TargetAlone(d, To(d, i, p))
  {
  }

  lemma BeginAlone(d: Disk, a: Action)
    requires a.Begin? || a.Create? || a.Put?
    ensures TargetAlone(d, Step(d, a))
  {
  }

  lemma WriterAlone(d: Disk, a: Action)
    requires !a.Renamed? && !a.Synced? && !a.Crash?
    ensures TargetAlone(d, Step(d, a))
  {
    if a.Begin? || a.Create? || a.Put? {
      BeginAlone(d, a);
    } else if Enabled(d, a) {
      MoveAlone(d, a.i, Step(d, a).writers[a.i].phase);
    }
  }

  lemma RenamedPast(d: Disk, i: nat)
    requires PastOk(d)
    ensures PastOk(Step(d, Renamed(i))) && Oldest(d) <= Oldest(Step(d, Renamed(i)))
  {
  }

  lemma SyncedPast(d: Disk, i: nat, ok: bool)
    requires PastOk(d)
    ensures PastOk(Step(d, Synced(i, ok))) && Oldest(d) <= Oldest(Step(d, Synced(i, ok)))
  {
    if Enabled(d, Synced(i, ok)) {
      MoveAlone(d, i, Done(true));
      AlonePast(d, To(d, i, Done(true)));
      FloorUp(To(d, i, Done(true)));
    }
  }

  lemma FloorUp(d: Disk)
    requires PastOk(d)
    ensures PastOk(d.(floor := |d.past| - 1)) && Oldest(d) <= Oldest(d.(floor := |d.past| - 1))
  {
  }

  lemma CrashPast(d: Disk, back: nat, garbage: map<Ino, Bytes>, kept: set<Name>)
    requires PastOk(d)
    ensures var e := Step(d, Crash(back, garbage, kept)); PastOk(e) && Oldest(d) <= Oldest(e)
  {
  }

  lemma StepPast(d: Disk, a: Action)
    requires PastOk(d)
    ensures PastOk(Step(d, a)) && Oldest(d) <= Oldest(Step(d, a))
  {
    match a {
      case Renamed(i) => RenamedPast(d, i);
      case Synced(i, ok) => SyncedPast(d, i, ok);
      case Crash(back, garbage, kept) => CrashPast(d, back, garbage, kept);
      case _ =>
        WriterAlone(d, a);
        AlonePast(d, Step(d, a));
    }
  }

  lemma AlonePast(d: Disk, e: Disk)
    requires PastOk(d) && TargetAlone(d, e)
    ensures PastOk(e) && Oldest(d) == Oldest(e)
  {
  }

  lemma {:induction false} RunPast(original: Option<Bytes>, actions: seq<Action>)
    ensures PastOk(Run(original, actions))
  {
    if actions != [] {
      var d, a := Run(original, actions[..|actions| - 1]), actions[|actions| - 1];
      RunPast(original, actions[..|actions| - 1]);
      StepPast(d, a);
    }
  }

  lemma RunSnoc(original: Option<Bytes>, actions: seq<Action>, a: Action)
    ensures Run(original, actions + [a]) == Step(Run(original, actions), a)
  {
    assert (actions + [a])[..|actions|] == actions;
  }

  predicate NotBefore(d: Disk, stamp: nat) { PastOk(d) && stamp <= Oldest(d) }

  lemma {:induction false} OldestRises(original: Option<Bytes>, actions: seq<Action>, more: seq<Action>, stamp: nat)
    requires NotBefore(Run(original, actions), stamp)
    ensures NotBefore(Run(original, actions + more), stamp)
  {
    if more == [] {
      assert actions + more == actions;
    } else {
      var fewer, a := more[..|more| - 1], more[|more| - 1];
      OldestRises(original, actions, fewer, stamp);
      assert actions + more == actions + fewer + [a];
      RunSnoc(original, actions + fewer, a);
      StepPast(Run(original, actions + fewer), a);
    }
  }

  /**
   Once the directory sync after a writer's rename has succeeded, whatever happens next, crashes included,
   the target is never again bound as it was before that rename.
   */
  lemma {:induction false} SyncedSurvives(original: Option<Bytes>, actions: seq<Action>, i: nat, more: seq<Action>)
    requires In(Run(original, actions), i, Syncing)
    ensures BoundSince(Run(original, actions + [Synced(i, true)] + more), Run(original, actions).writers[i].stamp)
  {
    SyncSettles(original, actions, i);
    StaysBound(original, actions + [Synced(i, true)], more, Run(original, actions).writers[i].stamp);
  }

  /** The target names a file, and is bound by that rename or a later one. */
  predicate BoundSince(d: Disk, stamp: nat) {
    d.past != [] && d.past[|d.past| - 1].stamp >= stamp && Target(d).Some?
  }

  lemma StaysBound(original: Option<Bytes>, actions: seq<Action>, more: seq<Action>, stamp: nat)
    requires NotBefore(Run(original, actions), stamp) && stamp > 0
    ensures BoundSince(Run(original, actions + more), stamp)
  {
    OldestRises(original, actions, more, stamp);
    LastIsNewest(Run(original, actions + more));
  }

  lemma SyncSettles(original: Option<Bytes>, actions: seq<Action>, i: nat)
    requires In(Run(original, actions), i, Syncing)
    ensures Run(original, actions).writers[i].stamp > 0
    ensures NotBefore(Run(original, actions + [Synced(i, true)]), Run(original, actions).writers[i].stamp)
  {
    RunPast(original, actions);
    RunSnoc(original, actions, Synced(i, true));
    StepSettles(Run(original, actions), i);
  }

  lemma StepSettles(d: Disk, i: nat)
    requires PastOk(d) && In(d, i, Syncing)
    ensures 0 < d.writers[i].stamp && NotBefore(Step(d, Synced(i, true)), d.writers[i].stamp)
  {
    SyncedPast(d, i, true);
  }

  lemma LastIsNewest(d: Disk)
    requires PastOk(d)
    ensures var last := d.past[|d.past| - 1]; Oldest(d) <= last.stamp && (Oldest(d) > 0 ==> last.ino.Some?)
  {
  }

  // ---------------------------------------------------------------------------------------------
  // What the caller is told
  // ---------------------------------------------------------------------------------------------

  /** Some step of the run renamed writer `i`'s file over the target. */
  predicate Installed(original: Option<Bytes>, actions: seq<Action>, i: nat) {
    actions != [] &&
    var before, a := actions[..|actions| - 1], actions[|actions| - 1];
    Installed(original, before, i) || (a == Renamed(i) && In(Run(original, before), i, Renaming))
  }

  /** Only a writer that has renamed has a stamp, and it is told of success unless a crash comes first. */
  predicate StampOk(w: Writer) {
    if w.phase in {Syncing, Done(true)} then w.stamp > 0 else w.phase == Lost || w.stamp == 0
  }

  /** An action of one writer leaves the others as they are. */
  lemma OwnStep(d: Disk, a: Action)
    requires Enabled(d, a) && !a.Begin? && !a.Crash?
    ensures a.i < |d.writers| && |Step(d, a).writers| == |d.writers|
    ensures Step(d, a).writers == d.writers[a.i := Step(d, a).writers[a.i]]
  {
  }

  lemma OwnStamp(d: Disk, a: Action)
    requires Enabled(d, a) && !a.Begin? && !a.Crash? && a.i < |d.writers| && a.i < |Step(d, a).writers|
    ensures StampOk(d.writers[a.i]) ==> StampOk(Step(d, a).writers[a.i])
    ensures a.Renamed? ==> Step(d, a).writers[a.i].stamp > 0
    ensures !a.Renamed? ==> Step(d, a).writers[a.i].stamp == d.writers[a.i].stamp
  {
  }

  lemma StepKeepsStamp(d: Disk, a: Action, i: nat)
    requires i < |Step(d, a).writers| && (i < |d.writers| ==> StampOk(d.writers[i]))
    ensures StampOk(Step(d, a).writers[i])
  {
    if Enabled(d, a) && !a.Begin? && !a.Crash? {
      OwnStep(d, a);
      OwnStamp(d, a);
    }
  }

  lemma {:induction false} RunKeepsStamp(original: Option<Bytes>, actions: seq<Action>, i: nat)
    requires i < |Run(original, actions).writers|
    ensures StampOk(Run(original, actions).writers[i])
  {
    if actions != [] {
      var d, a := Run(original, actions[..|actions| - 1]), actions[|actions| - 1];
      if i < |d.writers| {
        RunKeepsStamp(original, actions[..|actions| - 1], i);
      }
      StepKeepsStamp(d, a, i);
    }
  }

  predicate Stamped(d: Disk, i: nat) { i < |d.writers| && d.writers[i].stamp > 0 }

  lemma StepStamp(d: Disk, a: Action, i: nat)
    ensures Stamped(Step(d, a), i) <==> Stamped(d, i) || (a == Renamed(i) && Enabled(d, a))
  {
    if Enabled(d, a) && !a.Begin? && !a.Crash? {
      OwnStep(d, a);
      OwnStamp(d, a);
    }
  }

  lemma RenameEnabled(original: Option<Bytes>, actions: seq<Action>, i: nat)
    ensures Enabled(Run(original, actions), Renamed(i)) <==> In(Run(original, actions), i, Renaming)
  {
    if In(Run(original, actions), i, Renaming) {
      RenameInstalls(original, actions, i);
    }
  }

  lemma {:induction false} StampIsInstalled(original: Option<Bytes>, actions: seq<Action>, i: nat)
    ensures Stamped(Run(original, actions), i) <==> Installed(original, actions, i)
  {
    if actions != [] {
      var before := actions[..|actions| - 1];
      StampIsInstalled(original, before, i);
      StepStamp(Run(original, before), actions[|actions| - 1], i);
      RenameEnabled(original, before, i);
    }
  }

  /**
   A call that returns says it succeeded exactly when it renamed its file over the target; one that says it failed never
   touched the target.
   */
  lemma {:induction false} ToldTheTruth(original: Option<Bytes>, actions: seq<Action>, i: nat, ok: bool)
    requires In(Run(original, actions), i, Done(ok))
    ensures ok <==> Installed(original, actions, i)
  {
    RunKeepsStamp(original, actions, i);
    StampIsInstalled(original, actions, i);
  }

  // ---------------------------------------------------------------------------------------------
  // A writer left alone succeeds
  // ---------------------------------------------------------------------------------------------

  /** Steps of writer `i` alone, none of which fails. */
  predicate Alone(more: seq<Action>, i: nat) {
    forall a :: a in more ==>
      !a.Begin? && !a.Crash? && !a.Fails? && !a.GiveUp? && !a.Unlinked? && !a.UnlinkFails? && a.i == i
      && (a.Synced? ==> a.ok)
  }

  /** Such a continuation of the run ends in `d`. */
  ghost predicate Ext(original: Option<Bytes>, actions: seq<Action>, i: nat, d: Disk) {
    exists more :: Alone(more, i) && Run(original, actions + more) == d
  }

  lemma StepExt(original: Option<Bytes>, actions: seq<Action>, i: nat, d: Disk, a: Action)
    requires Ext(original, actions, i, d) && Alone([a], i)
    ensures Ext(original, actions, i, Step(d, a))
  {
    var more :| Alone(more, i) && Run(original, actions + more) == d;
    RunSnoc(original, actions + more, a);
    assert a in [a];
    assert actions + more + [a] == actions + (more + [a]) && Alone(more + [a], i);
  }

  /** Writer `i` of content `c` is in phase `p` with `k` bytes in its file, which still has its temporary name. */
  predicate Progress(d: Disk, i: nat, c: Bytes, p: Phase, k: nat) {
    && In(d, i, p) && d.past != []
    && var w := d.writers[i];
       && w.content == c && w.written == k <= |c| && w.ino in d.files && d.files[w.ino] == c[..k]
       && w.temp in d.temps && d.temps[w.temp].ino == w.ino
  }

  lemma CreateProgress(d: Disk, i: nat, temp: Name)
    requires In(d, i, Idle) && temp !in d.temps && d.past != []
    ensures Progress(Step(d, Create(i, temp)), i, d.writers[i].content, Preparing, 0)
  {
  }

  lemma PutProgress(d: Disk, i: nat, c: Bytes)
    requires Progress(d, i, c, Writing, 0) && c != []
    ensures Progress(Step(d, Put(i, |c|)), i, c, Writing, |c|)
  {
    assert c[..0] + c[0..|c|] == c[..|c|];
  }

  /** The call that takes writer `i` from one phase to the next, once its file is written. */
  predicate Leads(a: Action, i: nat, p: Phase, q: Phase) {
    || (a == Prepared(i) && p == Preparing && q == Writing)
    || (a == Written(i) && p == Writing && q == Finishing)
    || (a == Permitted(i) && p == Finishing && q == Flushing)
    || (a == Flushed(i) && p == Flushing && q == Closing)
    || (a == Closed(i) && p == Closing && q == Renaming)
  }

  lemma PhaseProgress(d: Disk, i: nat, c: Bytes, a: Action, p: Phase, q: Phase, k: nat)
    requires Progress(d, i, c, p, k) && Leads(a, i, p, q) && (a.Written? ==> k == |c|)
    ensures Progress(Step(d, a), i, c, q, k)
  {
  }

  /** The target holds that content, and the writer's call returned so. */
  predicate Succeeded(d: Disk, i: nat, c: Bytes) {
    In(d, i, Done(true)) && Target(d).Some? && Target(d).value in d.files && d.files[Target(d).value] == c
  }

  lemma LastProgress(d: Disk, i: nat, c: Bytes)
    requires Progress(d, i, c, Renaming, |c|)
    ensures Succeeded(Step(Step(d, Renamed(i)), Synced(i, true)), i, c)
  {
    assert c[..|c|] == c;
  }

  lemma FinishSucceeds(original: Option<Bytes>, actions: seq<Action>, i: nat, d: Disk, c: Bytes) returns (e: Disk)
    requires Ext(original, actions, i, d) && Progress(d, i, c, Writing, |c|)
    ensures Ext(original, actions, i, e) && Succeeded(e, i, c)
  {
    PhaseProgress(d, i, c, Written(i), Writing, Finishing, |c|);
    StepExt(original, actions, i, d, Written(i));
    e := Step(d, Written(i));
    PhaseProgress(e, i, c, Permitted(i), Finishing, Flushing, |c|);
    StepExt(original, actions, i, e, Permitted(i));
    e := Step(e, Permitted(i));
    PhaseProgress(e, i, c, Flushed(i), Flushing, Closing, |c|);
    StepExt(original, actions, i, e, Flushed(i));
    e := Step(e, Flushed(i));
    PhaseProgress(e, i, c, Closed(i), Closing, Renaming, |c|);
    StepExt(original, actions, i, e, Closed(i));
    e := RenameSucceeds(original, actions, i, Step(e, Closed(i)), c);
  }

  lemma RenameSucceeds(original: Option<Bytes>, actions: seq<Action>, i: nat, d: Disk, c: Bytes) returns (e: Disk)
    requires Ext(original, actions, i, d) && Progress(d, i, c, Renaming, |c|)
    ensures Ext(original, actions, i, e) && Succeeded(e, i, c)
  {
    LastProgress(d, i, c);
    StepExt(original, actions, i, d, Renamed(i));
    e := Step(d, Renamed(i));
    StepExt(original, actions, i, e, Synced(i, true));
    e := Step(e, Synced(i, true));
  }

  lemma WriteSucceeds(original: Option<Bytes>, actions: seq<Action>, i: nat, d: Disk, c: Bytes) returns (e: Disk)
    requires Ext(original, actions, i, d) && Progress(d, i, c, Writing, 0)
    ensures Ext(original, actions, i, e) && Progress(e, i, c, Writing, |c|)
  {
    e := d;
    if c != [] {
      PutProgress(d, i, c);
      StepExt(original, actions, i, d, Put(i, |c|));
      e := Step(d, Put(i, |c|));
    }
  }

  lemma OpenSucceeds(original: Option<Bytes>, actions: seq<Action>, i: nat, temp: Name) returns (e: Disk)
    requires In(Run(original, actions), i, Idle) && temp !in Run(original, actions).temps
    ensures Ext(original, actions, i, e) && Progress(e, i, Run(original, actions).writers[i].content, Writing, 0)
  {
    var d := Run(original, actions);
    RunInv(original, actions);
    assert actions + [] == actions && Alone([], i);
    CreateProgress(d, i, temp);
    StepExt(original, actions, i, d, Create(i, temp));
    e := Step(d, Create(i, temp));
    PhaseProgress(e, i, d.writers[i].content, Prepared(i), Preparing, Writing, 0);
    StepExt(original, actions, i, e, Prepared(i));
    e := Step(e, Prepared(i));
  }

  /**
   In every run, a writer that is about to start and finds a free name can, by its own steps alone, replace the target
   by its whole content and say so.
   */
  lemma {:induction false} UndisturbedSucceeds(original: Option<Bytes>, actions: seq<Action>, i: nat, temp: Name)
    requires In(Run(original, actions), i, Idle) && temp !in Run(original, actions).temps
    ensures var c := Run(original, actions).writers[i].content;
            exists more :: Alone(more, i) && Succeeded(Run(original, actions + more), i, c)
  {
    var c := Run(original, actions).writers[i].content;
    var e := OpenSucceeds(original, actions, i, temp);
    e := WriteSucceeds(original, actions, i, e, c);
    e := FinishSucceeds(original, actions, i, e, c);
    var more :| Alone(more, i) && Run(original, actions + more) == e;
  }

  /** Without a crash, and if every unlink succeeds, no temporary file is left once no writer is active. */
  lemma {:induction false} NoTemporaryRemains(original: Option<Bytes>, actions: seq<Action>)
    requires var d := Run(original, actions);
             !d.crashed && !d.stuck && forall i :: 0 <= i < |d.writers| ==> !Active(d.writers[i].phase)
    ensures Run(original, actions).temps == map[]
  {
    RunInv(original, actions);
  }
}
