/** The atomic save and load of the step machine are what the temporary file, the rename and the mutexes
    amount to: a save takes effect at its rename, at once and whole, whatever the other threads do and
    wherever the process crashes. */
module SaveSteps {
  import opened WorldModel
  import opened CharacterStore
  import opened CharacterFiles
  import opened SaveFiles
  import S = Server

  /** The files hold the states of `disk`, one file per character. */
  ghost predicate Represents(d: Disk, disk: map<string, PlayerState>) {
    forall n {:trigger n in disk} {:trigger PathFor(d.dir, n)} ::
      && (PathFor(d.dir, n) in d.files <==> n in disk)
      && (n in disk ==> LoadText(n, d.files[PathFor(d.dir, n)]) == Some(disk[n]))
  }

  /** `disk` once these states were saved, one after the other. */
  function Written(disk: map<string, PlayerState>, saves: seq<PlayerState>): map<string, PlayerState>
    decreases |saves|
  {
    if saves == [] then disk else Written(disk[saves[0].id := saves[0]], saves[1..])
  }

  /** What a saving thread wants to write. */
  ghost predicate Saves(d: Disk, tid: nat, p: PlayerState) {
    tid in d.savers && IsTextOf(d.savers[tid].text, d.savers[tid].name, p)
  }

  ghost predicate AllSaveStates(d: Disk) {
    forall tid {:trigger d.savers[tid]} :: tid in d.savers ==> exists p :: Saves(d, tid, p)
  }

  lemma SavedLoads(d: Disk, tid: nat, p: PlayerState)
    requires Saves(d, tid, p)
    ensures LoadText(p.id, d.savers[tid].text) == Some(p) && p.id == d.savers[tid].name
  {
    hide LoadText, IsSavedText, Savable;
    SavedTextsLoad(d.savers[tid].text, p);
  }

  /** The rename is the save. */
  lemma RenameIsTheSave(d: Disk, disk: map<string, PlayerState>, tid: nat, p: PlayerState)
    requires Inv(d) && Represents(d, disk) && Enabled(d, Rename(tid)) && Saves(d, tid, p)
    ensures Represents(Step(d, Rename(tid)), disk[p.id := p])
  {
    hide LoadText, PathFor, TmpPathFor, IsTextOf, LocksOk, FilesOk;
    SavedLoads(d, tid, p);
    var d', s := Step(d, Rename(tid)), d.savers[tid];
    assert SaverOk(d, s);
    forall n
      ensures PathFor(d'.dir, n) in d'.files <==> n in disk[p.id := p]
      ensures n in disk[p.id := p] ==> LoadText(n, d'.files[PathFor(d'.dir, n)]) == Some(disk[p.id := p][n])
    {
      PathsAreSeparate(d.dir, n, s.name);
      assert n in disk <==> PathFor(d.dir, n) in d.files;
    }
  }

  /** Nothing else a saving thread does is seen, nor is a crash. */
  lemma OtherStepsAreUnseen(d: Disk, disk: map<string, PlayerState>, a: Action)
    requires Represents(d, disk) && Enabled(d, a) && !a.Rename?
    ensures Represents(Step(d, a), disk)
  {
    hide LoadText, PathFor, TmpPathFor;
    var d' := Step(d, a);
    forall n
      ensures PathFor(d'.dir, n) in d'.files <==> n in disk
      ensures n in disk ==> LoadText(n, d'.files[PathFor(d'.dir, n)]) == Some(disk[n])
    {
      assert n in disk <==> PathFor(d.dir, n) in d.files;
      match a {
        case Open(tid) => PathsAreSeparate(d.dir, n, d.savers[tid].name);
        case Write(tid, _) => PathsAreSeparate(d.dir, n, d.savers[tid].name);
        case _ =>
      }
    }
  }

  // ---- whole runs ----------------------------------------------------------------------------

  /** The states whose saves took effect in a run, in order. */
  ghost function Renamed(d: Disk, run: seq<Action>): seq<PlayerState>
    requires CanRun(d, run)
    decreases |run|
  {
    if run == [] then []
    else
      (if run[0].Rename? && exists p :: Saves(d, run[0].tid, p) then [SavedBy(d, run[0].tid)] else []) + Renamed(Step(d, run[0]), run[1..])
  }

  ghost function SavedBy(d: Disk, tid: nat): (p: PlayerState)
    requires exists p :: Saves(d, tid, p)
    ensures Saves(d, tid, p)
  {
    var p :| Saves(d, tid, p); p
  }

  lemma StepSavesStates(d: Disk, a: Action, states: set<PlayerState>)
    requires AllSaveStates(d) && Enabled(d, a) && BeginsWithStates([a], states)
    ensures AllSaveStates(Step(d, a))
  {
    hide IsTextOf, PathFor, TmpPathFor;
    var d' := Step(d, a);
    assert a in [a];
    forall tid | tid in d'.savers ensures exists p :: Saves(d', tid, p) {
      if tid in d.savers && !(a.Begin? && a.tid == tid) {
        var p :| Saves(d, tid, p);
        assert Saves(d', tid, p);
      } else {
        var p :| p in states && IsTextOf(a.text, a.name, p);
        assert Saves(d', tid, p);
      }
    }
  }

  lemma {:induction false} ExecWrites(d: Disk, disk: map<string, PlayerState>, run: seq<Action>, states: set<PlayerState>)
    requires Inv(d) && Represents(d, disk) && AllSaveStates(d) && CanRun(d, run) && BeginsWithStates(run, states)
    ensures Represents(Exec(d, run), Written(disk, Renamed(d, run)))
    decreases |run|
  {
    hide Inv, Represents, AllSaveStates, Enabled, Step, BeginsWithStates, Saves;
    if run != [] {
      var a, next := run[0], Step(d, run[0]);
      BeginsAtOnce(run, states);
      StepKeeps(d, a);
      StepSavesStates(d, a, states);
      if a.Rename? {
        RenamerSaves(d, a.tid);
        RenameIsTheSave(d, disk, a.tid, SavedBy(d, a.tid));
        ExecWrites(next, disk[SavedBy(d, a.tid).id := SavedBy(d, a.tid)], run[1..], states);
        assert Renamed(d, run) == [SavedBy(d, a.tid)] + Renamed(next, run[1..]);
      } else {
        OtherStepsAreUnseen(d, disk, a);
        ExecWrites(next, disk, run[1..], states);
        assert Renamed(d, run) == [] + Renamed(next, run[1..]) == Renamed(next, run[1..]);
      }
    }
  }

  lemma BeginsAtOnce(run: seq<Action>, states: set<PlayerState>)
    requires run != [] && BeginsWithStates(run, states)
    ensures BeginsWithStates([run[0]], states) && BeginsWithStates(run[1..], states)
  {
    hide IsTextOf;
    assert run[0] in run && forall a :: a in run[1..] ==> a in run;
  }

  lemma RenamerSaves(d: Disk, tid: nat)
    requires AllSaveStates(d) && Enabled(d, Rename(tid))
    ensures exists p :: Saves(d, tid, p)
  {
  }

  /** From an empty directory, whatever the interleaving, the write sizes and the crashes: the files are those
      of atomic saves made one after the other, in the order of the renames. */
  lemma SavesAreAtomic(dir: string, run: seq<Action>, states: set<PlayerState>)
    requires CanRun(Start(dir), run) && BeginsWithStates(run, states)
    ensures Represents(Exec(Start(dir), run), Written(map[], Renamed(Start(dir), run)))
  {
    hide CanRun, Exec, BeginsWithStates, LoadText;
    StartOk(dir);
    ExecWrites(Start(dir), map[], run, states);
  }

  // ---- the steps of the server ---------------------------------------------------------------

  /** A save of the step machine is the rename of a thread that saves that state. */
  lemma SaveIsTheStep(s: S.Server, sid: nat, d: Disk, tid: nat)
    requires sid in s.sessions && S.HasSave(s.sessions[sid].pc)
    requires Inv(d) && Represents(d, s.disk) && Enabled(d, Rename(tid)) && Saves(d, tid, s.sessions[sid].pc.saves[0])
    ensures Represents(Step(d, Rename(tid)), S.DoSave(s, sid).disk)
  {
    hide Inv, Represents, Enabled, Saves, Step;
    RenameIsTheSave(d, s.disk, tid, s.sessions[sid].pc.saves[0]);
  }

  /** A read of the step machine finds what loading the file gives. */
  lemma ReadIsTheStep(s: S.Server, sid: nat, d: Disk)
    requires sid in s.sessions && s.sessions[sid].pc.Seeking? && Represents(d, s.disk)
    ensures
      var name, path := s.sessions[sid].pc.name, PathFor(d.dir, s.sessions[sid].pc.name);
      S.DoReadFile(s, sid).sessions[sid].pc ==
        if path !in d.files then S.Idle
        else
          match LoadText(name, d.files[path])
          case None => S.Idle
          case Some(p) => S.Found(name, p)
  {
    hide LoadText, PathFor;
    var name := s.sessions[sid].pc.name;
    assert PathFor(d.dir, name) in d.files <==> name in s.disk;
  }
}
