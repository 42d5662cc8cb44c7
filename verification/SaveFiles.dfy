/** Saving while the process may crash: any number of threads, one mutex per character name, a temporary
    file that is truncated, written piece by piece and renamed, and a crash between any two steps. */
module SaveFiles {
  import opened WorldModel
  import opened CharacterStore
  import opened CharacterFiles

  // ---- paths ---------------------------------------------------------------------------------

  /** No two names share a file, and no name's file is another's temporary file. */
  lemma PathsAreSeparate(dir: string, a: string, b: string)
    ensures PathFor(dir, a) == PathFor(dir, b) ==> a == b
    ensures TmpPathFor(dir, a) == TmpPathFor(dir, b) ==> a == b
    ensures PathFor(dir, a) != TmpPathFor(dir, b)
  {
    var p, q := PathFor(dir, a), PathFor(dir, b);
    assert a == p[|dir| + 1..|p| - 5] && b == q[|dir| + 1..|q| - 5];
    var s, t := TmpPathFor(dir, a), TmpPathFor(dir, b);
    assert p == s[..|s| - 4] && q == t[..|t| - 4];
    assert p[|p| - 1] == 'n' && t[|t| - 1] == 'p';
  }

  /** The files of a valid name lie directly in the directory. */
  lemma ValidNamesStayInside(dir: string, name: string, i: nat)
    requires IsValidName(name) && |dir| < i < |TmpPathFor(dir, name)|
    ensures TmpPathFor(dir, name)[i] != '/'
    ensures i < |PathFor(dir, name)| ==> PathFor(dir, name)[i] != '/'
  {
    var p, t := PathFor(dir, name), TmpPathFor(dir, name);
    var rest := name + ".json.tmp";
    assert t == dir + "/" + rest;
    assert t[i] == rest[i - |dir| - 1];
    assert p == t[..|p|];
    if i - |dir| - 1 < |name| {
      assert rest[i - |dir| - 1] == name[i - |dir| - 1];
    } else {
      assert rest[i - |dir| - 1] == ".json.tmp"[i - |dir| - 1 - |name|];
    }
  }

  // ---- one mutex per name --------------------------------------------------------------------

  /** `lock_for`: the table of mutexes, which grows by one entry at the first save of a name. */
  class LockTable {
    var locks: map<string, nat>
    var next: nat

    ghost predicate Valid()
      reads this
    {
      && (forall n :: n in locks ==> locks[n] < next)
      && (forall a, b :: a in locks && b in locks && locks[a] == locks[b] ==> a == b)
    }

    constructor ()
      ensures Valid() && locks == map[]
    {
      locks, next := map[], 0;
    }

    method LockFor(name: string) returns (mutex: nat)
      requires Valid()
      modifies this
      ensures Valid() && name in locks && mutex == locks[name]
      ensures name in old(locks) ==> locks == old(locks)
      ensures forall n :: n in old(locks) ==> n in locks && locks[n] == old(locks)[n]
      ensures forall n :: n in locks && locks[n] == mutex ==> n == name
    {
      if name !in locks {
        locks, next := locks[name := next], next + 1;
      }
      mutex := locks[name];
    }
  }

  // ---- the machine ---------------------------------------------------------------------------

  datatype Phase =
    | Waiting                // the text is rendered, the mutex not yet taken
    | Locked                 // the mutex is held
    | Writing(written: nat)  // the temporary file is open and holds so many characters
    | Closed                 // the temporary file is complete
    | Renamed                // the temporary file has taken the place of the real one

  datatype Saver = Saver(name: string, text: string, phase: Phase)

  /** The files, the saving threads and the mutexes they hold; `begun` and `newest` record the saves that
      were ever begun and, per name, the text of the last rename. */
  datatype Disk = Disk(
    dir: string, files: map<string, string>, savers: map<nat, Saver>, holder: map<string, nat>,
    begun: set<(string, string)>, newest: map<string, string>)

  datatype Action =
    | Begin(tid: nat, name: string, text: string)
    | Lock(tid: nat)
    | Open(tid: nat)
    | Write(tid: nat, count: nat)
    | Close(tid: nat)
    | Rename(tid: nat)
    | Release(tid: nat)
    | Crash

  predicate In(d: Disk, tid: nat, phase: Phase) {
    tid in d.savers && d.savers[tid].phase == phase
  }

  predicate IsWriting(d: Disk, tid: nat) {
    tid in d.savers && d.savers[tid].phase.Writing? && d.savers[tid].phase.written <= |d.savers[tid].text|
  }

  predicate Enabled(d: Disk, a: Action) {
    match a
    case Begin(tid, _, _) => tid !in d.savers
    case Lock(tid) => In(d, tid, Waiting) && d.savers[tid].name !in d.holder
    case Open(tid) => In(d, tid, Locked)
    case Write(tid, count) => IsWriting(d, tid) && d.savers[tid].phase.written + count <= |d.savers[tid].text|
    case Close(tid) => IsWriting(d, tid) && d.savers[tid].phase.written == |d.savers[tid].text|
    case Rename(tid) => In(d, tid, Closed) && TmpPathFor(d.dir, d.savers[tid].name) in d.files
    case Release(tid) => In(d, tid, Renamed)
    case Crash => true
  }

  function To(d: Disk, tid: nat, phase: Phase): Disk
    requires tid in d.savers
  {
    d.(savers := d.savers[tid := d.savers[tid].(phase := phase)])
  }

  function Put(d: Disk, path: string, content: string): Disk {
    d.(files := d.files[path := content])
  }

  function Step(d: Disk, a: Action): Disk
    requires Enabled(d, a)
  {
    match a
    case Begin(tid, name, text) => d.(savers := d.savers[tid := Saver(name, text, Waiting)], begun := d.begun + {(name, text)})
    case Lock(tid) => To(d, tid, Locked).(holder := d.holder[d.savers[tid].name := tid])
    case Open(tid) => Put(To(d, tid, Writing(0)), TmpPathFor(d.dir, d.savers[tid].name), "")
    case Write(tid, count) =>
      var s := d.savers[tid];
      var tmp := TmpPathFor(d.dir, s.name);
      var piece := s.text[s.phase.written..s.phase.written + count];
      Put(To(d, tid, Writing(s.phase.written + count)), tmp, (if tmp in d.files then d.files[tmp] else "") + piece)
    case Close(tid) => To(d, tid, Closed)
    case Rename(tid) =>
      var name := d.savers[tid].name;
      var path, tmp := PathFor(d.dir, name), TmpPathFor(d.dir, name);
      To(d, tid, Renamed).(files := d.files[path := d.files[tmp]] - {tmp}, newest := d.newest[name := d.files[tmp]])
    case Release(tid) => d.(savers := d.savers - {tid}, holder := d.holder - {d.savers[tid].name})
    case Crash => d.(savers := map[], holder := map[])
  }

  ghost predicate CanRun(d: Disk, run: seq<Action>)
    decreases |run|
  {
    run == [] || (Enabled(d, run[0]) && CanRun(Step(d, run[0]), run[1..]))
  }

  ghost function Exec(d: Disk, run: seq<Action>): Disk
    requires CanRun(d, run)
    decreases |run|
  {
    if run == [] then d else Exec(Step(d, run[0]), run[1..])
  }

  function Start(dir: string): Disk {
    Disk(dir, map[], map[], map[], {}, map[])
  }

  // ---- the invariant -------------------------------------------------------------------------

  /** What a thread knows of its temporary file. */
  predicate SaverOk(d: Disk, s: Saver) {
    var tmp := TmpPathFor(d.dir, s.name);
    match s.phase
    case Writing(n) => n <= |s.text| && tmp in d.files && d.files[tmp] == s.text[..n]
    case Closed => tmp in d.files && d.files[tmp] == s.text
    case _ => true
  }

  /** The mutex of a name is held by exactly the thread that is past waiting for it. */
  ghost predicate LocksOk(d: Disk) {
    && (forall n {:trigger d.holder[n]} :: n in d.holder ==>
          d.holder[n] in d.savers && d.savers[d.holder[n]].name == n && !d.savers[d.holder[n]].phase.Waiting?)
    && (forall t {:trigger d.savers[t]} :: t in d.savers && !d.savers[t].phase.Waiting? ==>
          d.savers[t].name in d.holder && d.holder[d.savers[t].name] == t)
  }

  ghost predicate SaversOk(d: Disk) {
    forall t {:trigger d.savers[t]} :: t in d.savers ==> SaverOk(d, d.savers[t]) && (d.savers[t].name, d.savers[t].text) in d.begun
  }

  /** A character's file is the newest renamed text, which is the whole text of a save of that name. */
  ghost predicate FilesOk(d: Disk) {
    forall n {:trigger PathFor(d.dir, n)} {:trigger n in d.newest} ::
      && (PathFor(d.dir, n) in d.files <==> n in d.newest)
      && (n in d.newest ==> d.files[PathFor(d.dir, n)] == d.newest[n] && (n, d.newest[n]) in d.begun)
  }

  ghost predicate Inv(d: Disk) {
    LocksOk(d) && SaversOk(d) && FilesOk(d)
  }

  ghost predicate OnlyOneFile(files: map<string, string>, files': map<string, string>, path: string) {
    forall p {:trigger p in files} {:trigger p in files'} :: p != path ==>
      (p in files' <==> p in files) && (p in files ==> files'[p] == files[p])
  }

  /** Changing one temporary file affects nobody but the thread that holds its name's mutex. */
  lemma TmpChange(d: Disk, d': Disk, tid: nat)
    requires Inv(d) && tid in d.savers && !d.savers[tid].phase.Waiting?
    requires d'.dir == d.dir && d'.holder == d.holder && d'.begun == d.begun && d'.newest == d.newest && tid in d'.savers
    requires d'.savers == d.savers[tid := d'.savers[tid]]
    requires d'.savers[tid].name == d.savers[tid].name && d'.savers[tid].text == d.savers[tid].text
    requires !d'.savers[tid].phase.Waiting? && SaverOk(d', d'.savers[tid])
    requires OnlyOneFile(d.files, d'.files, TmpPathFor(d.dir, d.savers[tid].name))
    ensures Inv(d')
  {
    hide PathFor, TmpPathFor, FilesOk;
    var name := d.savers[tid].name;
    forall t | t in d'.savers ensures SaverOk(d', d'.savers[t]) {
      if t != tid && !d.savers[t].phase.Waiting? {
        assert SaverOk(d, d.savers[t]);
        PathsAreSeparate(d.dir, d.savers[t].name, name);
      }
    }
    OtherPathsKept(d, d', name);
  }

  lemma OtherPathsKept(d: Disk, d': Disk, name: string)
    requires FilesOk(d) && d'.dir == d.dir && d'.newest == d.newest && d'.begun == d.begun
    requires OnlyOneFile(d.files, d'.files, TmpPathFor(d.dir, name))
    ensures FilesOk(d')
  {
    hide PathFor, TmpPathFor;
    forall n
      ensures PathFor(d'.dir, n) in d'.files <==> n in d'.newest
      ensures n in d'.newest ==> d'.files[PathFor(d'.dir, n)] == d'.newest[n] && (n, d'.newest[n]) in d'.begun
    {
      PathsAreSeparate(d.dir, n, name);
      assert PathFor(d.dir, n) in d.files <==> n in d.newest;
      assert PathFor(d.dir, n) in d'.files <==> PathFor(d.dir, n) in d.files;
    }
  }

  lemma RenameKeeps(d: Disk, tid: nat)
    requires Inv(d) && Enabled(d, Rename(tid))
    ensures Inv(Step(d, Rename(tid)))
  {
    hide PathFor, TmpPathFor;
    var d', s := Step(d, Rename(tid)), d.savers[tid];
    assert SaverOk(d, s) && (s.name, s.text) in d.begun;
    forall t | t in d'.savers ensures SaverOk(d', d'.savers[t]) && (d'.savers[t].name, d'.savers[t].text) in d'.begun {
      assert SaverOk(d, d.savers[t]);
      if t != tid && !d.savers[t].phase.Waiting? {
        PathsAreSeparate(d.dir, d.savers[t].name, s.name);
        PathsAreSeparate(d.dir, s.name, d.savers[t].name);
      }
    }
    forall n
      ensures PathFor(d'.dir, n) in d'.files <==> n in d'.newest
      ensures n in d'.newest ==> d'.files[PathFor(d'.dir, n)] == d'.newest[n] && (n, d'.newest[n]) in d'.begun
    {
      PathsAreSeparate(d.dir, n, s.name);
      assert n in d.newest <==> PathFor(d.dir, n) in d.files;
    }
  }

  lemma StepKeeps(d: Disk, a: Action)
    requires Inv(d) && Enabled(d, a)
    ensures Inv(Step(d, a))
  {
    hide PathFor, TmpPathFor;
    match a {
      case Open(tid) => TmpChange(d, Step(d, a), tid);
      case Write(tid, count) =>
        var s := d.savers[tid];
        assert SaverOk(d, s);
        assert s.text[..s.phase.written] + s.text[s.phase.written..s.phase.written + count] == s.text[..s.phase.written + count];
        TmpChange(d, Step(d, a), tid);
      case Close(tid) =>
        var s := d.savers[tid];
        assert SaverOk(d, s);
        assert s.text[..|s.text|] == s.text;
        TmpChange(d, Step(d, a), tid);
      case Rename(tid) => RenameKeeps(d, tid);
      case _ => QuietKeeps(d, a);
    }
  }

  /** Steps that touch no file. */
  lemma QuietKeeps(d: Disk, a: Action)
    requires Inv(d) && Enabled(d, a) && (a.Begin? || a.Lock? || a.Release? || a.Crash?)
    ensures Inv(Step(d, a))
  {
    hide PathFor, TmpPathFor, LocksOk;
    var d' := Step(d, a);
    QuietLocks(d, a);
    forall t | t in d'.savers ensures SaverOk(d', d'.savers[t]) && (d'.savers[t].name, d'.savers[t].text) in d'.begun {
      if t in d.savers { assert SaverOk(d, d.savers[t]); }
    }
    SameFilesOk(d, d');
  }

  lemma QuietLocks(d: Disk, a: Action)
    requires LocksOk(d) && Enabled(d, a) && (a.Begin? || a.Lock? || a.Release? || a.Crash?)
    ensures LocksOk(Step(d, a))
  {
    hide PathFor, TmpPathFor;
    match a {
      case Begin(tid, name, text) =>
      case Lock(tid) =>
      case Release(tid) =>
      case Crash =>
      case _ =>
    }
  }

  lemma SameFilesOk(d: Disk, d': Disk)
    requires FilesOk(d) && d'.dir == d.dir && d'.files == d.files && d'.newest == d.newest && d.begun <= d'.begun
    ensures FilesOk(d')
  {
    hide PathFor;
  }

  lemma {:induction false} ExecKeeps(d: Disk, run: seq<Action>)
    requires Inv(d) && CanRun(d, run)
    ensures Inv(Exec(d, run)) && Exec(d, run).dir == d.dir
    decreases |run|
  {
    hide Inv, Enabled, PathFor, TmpPathFor;
    if run != [] {
      StepKeeps(d, run[0]);
      ExecKeeps(Step(d, run[0]), run[1..]);
    }
  }

  // ---- crash safety --------------------------------------------------------------------------

  /** Whatever the interleaving and wherever the process crashed, the file of a name is absent, as long as
      no save of it was ever completed, or holds the complete text of one save of that name: the last one
      that was renamed. */
  lemma FilesAreWhole(dir: string, run: seq<Action>, name: string)
    requires CanRun(Start(dir), run)
    ensures
      var d, path := Exec(Start(dir), run), PathFor(dir, name);
      && (path in d.files <==> name in d.newest)
      && (path in d.files ==> d.files[path] == d.newest[name] && (name, d.files[path]) in d.begun)
  {
    hide Exec, CanRun, PathFor, TmpPathFor, LocksOk, SaversOk;
    assert Inv(Start(dir)) by { StartOk(dir); }
    ExecKeeps(Start(dir), run);
  }

  lemma StartOk(dir: string)
    ensures Inv(Start(dir))
  {
  }

  /** Every save that was begun wrote the text of a state of its own name. */
  ghost predicate BeginsWithStates(run: seq<Action>, states: set<PlayerState>) {
    forall a {:trigger a in run} :: a in run && a.Begin? ==> exists p :: p in states && IsTextOf(a.text, a.name, p)
  }

  ghost predicate IsTextOf(text: string, name: string, p: PlayerState) {
    Savable(p) && p.id == name && IsSavedText(text, p)
  }

  lemma {:induction false} BegunAreStates(d: Disk, run: seq<Action>, states: set<PlayerState>, name: string, text: string)
    requires CanRun(d, run) && BeginsWithStates(run, states) && (name, text) in Exec(d, run).begun
    ensures (name, text) in d.begun || exists p :: p in states && IsTextOf(text, name, p)
    decreases |run|
  {
    hide IsTextOf, Enabled;
    if run != [] {
      assert forall a :: a in run[1..] ==> a in run;
      BegunAreStates(Step(d, run[0]), run[1..], states, name, text);
      if (name, text) in Step(d, run[0]).begun {
        BegunStep(d, run[0], name, text);
        assert run[0] in run;
      }
    }
  }

  lemma BegunStep(d: Disk, a: Action, name: string, text: string)
    requires Enabled(d, a) && (name, text) in Step(d, a).begun
    ensures (name, text) in d.begun || (a.Begin? && a.name == name && a.text == text)
  {
  }

  /** After any crash, a character file that exists loads, and gives a state that was saved. */
  lemma CrashLosesNoCharacter(dir: string, run: seq<Action>, states: set<PlayerState>, name: string)
    requires CanRun(Start(dir), run) && BeginsWithStates(run, states)
    requires PathFor(dir, name) in Exec(Start(dir), run).files
    ensures exists p :: p in states && p.id == name && LoadText(name, Exec(Start(dir), run).files[PathFor(dir, name)]) == Some(p)
  {
    hide Exec, CanRun, PathFor, LoadText, BeginsWithStates, IsSavedText, Savable;
    FilesAreWhole(dir, run, name);
    var text := Exec(Start(dir), run).files[PathFor(dir, name)];
    BegunAreStates(Start(dir), run, states, name, text);
    var p :| p in states && IsTextOf(text, name, p);
    SavedTextsLoad(text, p);
  }
}
